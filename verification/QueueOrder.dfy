/** The order of promoted jobs while workers, retries and new jobs run between the scripts of a
    pass: the job promoted first stays ahead until it is popped. */
module QueueOrder {
  import opened Queues

  // Job a is ahead of b for as long as both wait in the priority queue.
  predicate Ahead(l: Lane, a: JobId, b: JobId) {
    && a in l.jobs && l.jobs[a].high
    && (a in l.high && b in l.high ==> IndexOf(l.high, a) < IndexOf(l.high, b))
  }

  lemma AppendAhead(high: seq<JobId>, x: JobId, a: JobId, b: JobId)
    requires x != a && x !in high && (a in high && b in high ==> IndexOf(high, a) < IndexOf(high, b))
    ensures a in high + [x] && b in high + [x] ==> IndexOf(high + [x], a) < IndexOf(high + [x], b)
  {
    IndexOfAppend(high, x, a);
    IndexOfAppend(high, x, b);
  }

  lemma DropAhead(high: seq<JobId>, a: JobId, b: JobId)
    requires high != [] && a != b && Times(high, a) <= 1 && (a in high && b in high ==> IndexOf(high, a) < IndexOf(high, b))
    ensures a in high[1..] && b in high[1..] ==> IndexOf(high[1..], a) < IndexOf(high[1..], b)
  {
    TimesIn(high[1..], a);
    if high[0] == b { IndexAt(high, b); }
  }

  lemma IndexAt(list: seq<JobId>, x: JobId)
    requires list != [] && list[0] == x
    ensures IndexOf(list, x) == 0
  {
  }

  // Nothing but a's own retry puts it behind b again.
  lemma StepAhead(l: Lane, t: Step, a: JobId, b: JobId)
    requires Inv(l) && Ahead(l, a, b) && a != b && t != Retry(a)
    ensures Ahead(Do(l, t), a, b)
  {
    hide Inv, IndexOf, Times;
    At(l, a);
    At(l, b);
    match t {
      case Enqueue(id, pro) => if id !in l.jobs { At(l, id); AppendAhead(l.high, id, a, b); }
      case Promote(id) => if Promotable(l, id) { At(l, id); AppendAhead(l.high, id, a, b); }
      case Retry(id) => if id in l.held { HeldAlone(l, id); AppendAhead(l.high, id, a, b); }
      case Pop => if l.high != [] { DropAhead(l.high, a, b); }
      case _ =>
    }
  }

  lemma {:induction false} RunAhead(l: Lane, steps: seq<Step>, a: JobId, b: JobId)
    requires Inv(l) && Ahead(l, a, b) && a != b && Retry(a) !in steps
    ensures Ahead(Run(l, steps), a, b) && Inv(Run(l, steps))
    decreases |steps|
  {
    hide Inv, Do, Ahead;
    if steps != [] {
      assert steps[0] in steps;
      StepInv(l, steps[0]);
      StepAhead(l, steps[0], a, b);
      RunAhead(Do(l, steps[0]), steps[1..], a, b);
    }
  }

  // A job that came from the priority queue, or was moved there, belongs to it for good.
  lemma {:induction false} HighForGood(l: Lane, steps: seq<Step>, id: JobId)
    requires id in l.jobs && l.jobs[id].high
    ensures id in Run(l, steps).jobs && Run(l, steps).jobs[id].high
    decreases |steps|
  {
    if steps != [] {
      assert id in Do(l, steps[0]).jobs && Do(l, steps[0]).jobs[id].high;
      hide Do;
      HighForGood(Do(l, steps[0]), steps[1..], id);
    }
  }

  lemma {:induction false} RunConcat(l: Lane, before: seq<Step>, after: seq<Step>)
    ensures Run(l, before + after) == Run(Run(l, before), after)
    decreases |before|
  {
    hide Do;
    if before == [] {
      assert before + after == after;
    } else {
      assert (before + after)[1..] == before[1..] + after;
      RunConcat(Do(l, before[0]), before[1..], after);
    }
  }

  lemma PromotedAhead(l: Lane, a: JobId, b: JobId)
    requires Inv(l) && Promotable(l, a) && a != b && b !in l.high
    ensures var p := Do(l, Promote(a)); Inv(p) && Ahead(p, a, b) && b !in p.high && a in p.high
  {
    hide Inv;
    StepInv(l, Promote(a));
    assert Do(l, Promote(a)).high == l.high + [a];
    assert (l.high + [a])[|l.high|] == a;
  }

  // The next pop never takes b while a waits.
  lemma PopsFirst(l: Lane, a: JobId, b: JobId)
    requires Ahead(l, a, b) && a in l.high && a != b
    ensures b in Do(l, Pop).held ==> b in l.held
  {
    if l.high[0] == b { IndexAt(l.high, b); }
  }

  // A pass runs one script per job, with any steps of workers, retries, new jobs and other passes
  // between them. Of two jobs that it promotes, the earlier one is ahead in the priority queue and
  // is popped first, unless it was popped and put back meanwhile.
  lemma PromotedInOrder(l: Lane, before: seq<Step>, between: seq<Step>, after: seq<Step>, a: JobId, b: JobId)
    requires Inv(l) && a != b
    requires Promotable(Run(l, before), a) && Promotable(Run(l, before + [Promote(a)] + between), b)
    requires Retry(a) !in between && Retry(a) !in after
    ensures var w := Run(l, before + [Promote(a)] + between + [Promote(b)] + after);
            && (a in w.high && b in w.high ==> IndexOf(w.high, a) < IndexOf(w.high, b))
            && (a in w.high && b in Do(w, Pop).held ==> b in w.held)
  {
    hide Inv, Do, Run, Ahead, Promotable;
    var (s, rest) := (Run(l, before), between + [Promote(b)] + after);
    var p := Do(s, Promote(a));
    NoJobLostOrDoubled(l, before);
    Single(s, Promote(a));
    RunConcat(l, before, [Promote(a)]);
    RunConcat(l, before + [Promote(a)], between);
    At(s, b);
    if b in s.high { HighForGood(s, [Promote(a)] + between, b); RunConcat(s, [Promote(a)], between); NotPromotable(Run(p, between), b); }
    PromotedAhead(s, a, b);
    RunAhead(p, rest, a, b);
    RunConcat(l, before + [Promote(a)], rest);
    assert before + [Promote(a)] + rest == before + [Promote(a)] + between + [Promote(b)] + after;
    var w := Run(p, rest);
    AheadNow(w, a, b);
    if a in w.high { PopsFirst(w, a, b); }
  }

  lemma AheadNow(l: Lane, a: JobId, b: JobId)
    requires Ahead(l, a, b)
    ensures a in l.high && b in l.high ==> IndexOf(l.high, a) < IndexOf(l.high, b)
  {
  }

  lemma NotPromotable(l: Lane, id: JobId)
    ensures id in l.jobs && l.jobs[id].high ==> !Promotable(l, id)
  {
  }

  lemma Single(l: Lane, t: Step)
    ensures Run(l, [t]) == Do(l, t)
  {
    hide Do;
    assert [t][1..] == [];
    assert Run(l, [t]) == Run(Do(l, t), []);
  }
}
