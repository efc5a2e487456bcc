/** The synchronisation pass by generations, stages and polls (generation_priority.py:76-101), and a job
    from its queue to its end. */
module QueueLaws {
  import opened Common
  import opened Queues

  ghost predicate Ordered(ids: seq<JobId>, x: JobId, y: JobId) {
    exists p, q :: 0 <= p < q < |ids| && ids[p] == x && ids[q] == y
  }

  lemma OrderedConcat(a: seq<JobId>, b: seq<JobId>, x: JobId, y: JobId)
    ensures Ordered(a, x, y) || Ordered(b, x, y) || (x in a && y in b) ==> Ordered(a + b, x, y)
  {
    if Ordered(a, x, y) {
      var p, q :| 0 <= p < q < |a| && a[p] == x && a[q] == y;
      assert (a + b)[p] == x && (a + b)[q] == y;
    } else if Ordered(b, x, y) {
      var p, q :| 0 <= p < q < |b| && b[p] == x && b[q] == y;
      assert (a + b)[|a| + p] == x && (a + b)[|a| + q] == y;
    } else if x in a && y in b {
      var p, q :| 0 <= p < |a| && 0 <= q < |b| && a[p] == x && b[q] == y;
      assert (a + b)[p] == x && (a + b)[|a| + q] == y;
    }
  }

  // ---- which jobs the pass names ----

  // A job of one of the stages, or a numbered poll that is in the queue.
  predicate Named(x: JobId, stages: seq<nat>, polls: seq<JobId>) {
    if x.StageJob? then x.stage in stages else x in polls
  }

  lemma CandidatesNamed(log: nat, stages: seq<nat>, polls: seq<JobId>, x: JobId)
    ensures x in Candidates(log, stages, polls) <==> x.log == log && Named(x, stages, polls)
  {
    PollsOfLog(polls, log);
    var s := StagesOf(log, stages);
    if x.StageJob? && x.log == log && x.stage in stages {
      var k :| 0 <= k < |stages| && stages[k] == x.stage;
      assert s[k] == x;
    }
  }

  lemma {:induction false} AllNamed(logs: seq<nat>, stages: seq<nat>, polls: seq<JobId>, x: JobId)
    ensures x in AllCandidates(logs, stages, polls) <==> x.log in logs && Named(x, stages, polls)
  {
    hide Named, Candidates;
    if logs != [] {
      CandidatesNamed(logs[0], stages, polls, x);
      AllNamed(logs[1..], stages, polls, x);
    }
  }

  // ---- in which order ----

  // Of jobs of different generations, the one of the earlier generation in the list comes first.
  lemma {:induction false} OlderFirst(logs: seq<nat>, stages: seq<nat>, polls: seq<JobId>, i: nat, j: nat, x: JobId, y: JobId)
    requires i < j < |logs| && x.log == logs[i] && y.log == logs[j] && Named(x, stages, polls) && Named(y, stages, polls)
    ensures Ordered(AllCandidates(logs, stages, polls), x, y)
    decreases |logs|
  {
    hide Named, Candidates, Ordered;
    var (first, rest) := (Candidates(logs[0], stages, polls), AllCandidates(logs[1..], stages, polls));
    OrderedConcat(first, rest, x, y);
    assert logs[1..][j - 1] == logs[j];
    if i == 0 {
      CandidatesNamed(logs[0], stages, polls, x);
      AllNamed(logs[1..], stages, polls, y);
    } else {
      assert logs[1..][i - 1] == logs[i];
      OlderFirst(logs[1..], stages, polls, i - 1, j - 1, x, y);
    }
  }

  // Of one generation: the stages as listed, then the polls as they were queued.
  ghost predicate Sooner(x: JobId, y: JobId, stages: seq<nat>, polls: seq<JobId>) {
    if x.StageJob? && y.StageJob? then exists p, q :: 0 <= p < q < |stages| && stages[p] == x.stage && stages[q] == y.stage
    else if x.PollJob? && y.PollJob? then Ordered(polls, x, y)
    else x.StageJob?
  }

  lemma {:induction false} PollsInOrder(list: seq<JobId>, log: nat, x: JobId, y: JobId)
    requires Ordered(list, x, y) && x.PollJob? && y.PollJob? && x.log == y.log == log
    ensures Ordered(PollsOf(list, log), x, y)
  {
    var p, q :| 0 <= p < q < |list| && list[p] == x && list[q] == y;
    var rest := list[1..];
    assert rest[q - 1] == y;
    OrderedConcat(if list[0].PollJob? && list[0].log == log then [list[0]] else [], PollsOf(rest, log), x, y);
    PollsOfLog(rest, log);
    if p > 0 {
      assert rest[p - 1] == x;
      PollsInOrder(rest, log, x, y);
    }
  }

  lemma SoonerFirst(log: nat, stages: seq<nat>, polls: seq<JobId>, x: JobId, y: JobId)
    requires x.log == y.log == log && Named(x, stages, polls) && Named(y, stages, polls) && Sooner(x, y, stages, polls)
    ensures Ordered(Candidates(log, stages, polls), x, y)
  {
    var (s, p) := (StagesOf(log, stages), PollsOf(polls, log));
    OrderedConcat(s, p, x, y);
    PollsOfLog(polls, log);
    if x.StageJob? && y.StageJob? {
      var a, b :| 0 <= a < b < |stages| && stages[a] == x.stage && stages[b] == y.stage;
      assert s[a] == x && s[b] == y;
    } else if x.PollJob? {
      PollsInOrder(polls, log, x, y);
    } else {
      var a :| 0 <= a < |stages| && stages[a] == x.stage;
      assert s[a] == x;
    }
  }

  lemma {:induction false} SameGeneration(logs: seq<nat>, stages: seq<nat>, polls: seq<JobId>, x: JobId, y: JobId)
    requires x.log == y.log && x.log in logs && Named(x, stages, polls) && Named(y, stages, polls) && Sooner(x, y, stages, polls)
    ensures Ordered(AllCandidates(logs, stages, polls), x, y)
  {
    hide Named, Candidates, Ordered, Sooner;
    OrderedConcat(Candidates(logs[0], stages, polls), AllCandidates(logs[1..], stages, polls), x, y);
    if logs[0] == x.log {
      SoonerFirst(x.log, stages, polls, x, y);
    } else {
      SameGeneration(logs[1..], stages, polls, x, y);
    }
  }

  // ---- the pass ----

  // A waiting job is promoted exactly when its generation is listed and not cancelled and the job is one
  // of its stages or polls; every other job stays where it is, and the jobs that had priority stay ahead.
  lemma PromotedIff(l: Lane, logs: seq<nat>, stages: seq<nat>, x: JobId)
    requires Inv(l) && Distinct(logs) && Distinct(stages) && x in l.normal
    ensures var p := Synced(l, logs, stages);
            var promoted := x.log in logs && x.log !in l.cancelled && (x.StageJob? ==> x.stage in stages);
            && (x in p.high <==> promoted) && (x in p.normal <==> !promoted)
            && x in p.jobs && p.jobs[x] == Job(Queued, promoted)
            && l.high <= p.high && p.held == l.held
  {
    hide Inv, AllCandidates;
    var ids := AllCandidates(logs, stages, l.normal);
    SyncInCreationOrder(l, logs, stages);
    AllNamed(logs, stages, l.normal, x);
    At(l, x);
    ChosenIff(l, ids, x);
    At(Synced(l, logs, stages), x);
    WaitsOnce(l, x);
    MayBePromoted(l, x);
  }

  lemma {:induction false} ChosenIff(l: Lane, ids: seq<JobId>, x: JobId)
    ensures x in Chosen(l, ids) <==> x in ids && Promotable(l, x)
  {
    hide Promotable;
    if ids != [] { ChosenIff(l, ids[1..], x); }
  }

  // Promoted jobs stand in the priority queue by the place of their generations in the list, and those
  // of one generation by stage and then as they were polled.
  lemma PromotedByGeneration(l: Lane, logs: seq<nat>, stages: seq<nat>, i: nat, j: nat, x: JobId, y: JobId)
    requires Inv(l) && Distinct(logs) && Distinct(stages) && i <= j < |logs| && x.log == logs[i] && y.log == logs[j]
    requires x in l.normal && y in l.normal
    requires x in Synced(l, logs, stages).high && y in Synced(l, logs, stages).high
    requires i == j ==> Sooner(x, y, stages, l.normal)
    ensures IndexOf(Synced(l, logs, stages).high, x) < IndexOf(Synced(l, logs, stages).high, y)
  {
    hide Inv, AllCandidates, Sooner, PromoteAll, Ordered, Promotable, IndexOf, Chosen;
    var ids := AllCandidates(logs, stages, l.normal);
    PromotedIff(l, logs, stages, x);
    PromotedIff(l, logs, stages, y);
    SyncInCreationOrder(l, logs, stages);
    if i < j { OlderFirst(logs, stages, l.normal, i, j, x, y); } else { SameGeneration(logs, stages, l.normal, x, y); }
    MayBePromoted(l, x);
    MayBePromoted(l, y);
    ChosenAhead(l, ids, x, y);
    HighAhead(Synced(l, logs, stages), l.high, Chosen(l, ids), x, y);
  }

  lemma ChosenAhead(l: Lane, ids: seq<JobId>, x: JobId, y: JobId)
    requires Ordered(ids, x, y) && Promotable(l, x) && Promotable(l, y)
    ensures Ordered(Chosen(l, ids), x, y)
  {
    hide Promotable;
    var p, q :| 0 <= p < q < |ids| && ids[p] == x && ids[q] == y;
    ChosenOrder(l, ids, p, q);
  }

  lemma HighAhead(l: Lane, before: seq<JobId>, c: seq<JobId>, x: JobId, y: JobId)
    requires Inv(l) && l.high == before + c && Ordered(c, x, y)
    ensures IndexOf(l.high, x) < IndexOf(l.high, y)
  {
    hide Inv;
    var a, b :| 0 <= a < b < |c| && c[a] == x && c[b] == y;
    HighOnce(l, |before| + a, x);
    HighOnce(l, |before| + b, y);
  }

  lemma MayBePromoted(l: Lane, x: JobId)
    requires Inv(l) && x in l.normal
    ensures Promotable(l, x) <==> x.log !in l.cancelled
  {
  }

  lemma WaitsOnce(l: Lane, x: JobId)
    requires Inv(l) && x in l.normal
    ensures x !in l.high
  {
    hide Inv;
    At(l, x);
  }

  lemma HighOnce(l: Lane, k: nat, x: JobId)
    requires Inv(l) && k < |l.high| && l.high[k] == x
    ensures IndexOf(l.high, x) == k
  {
    hide Inv, IndexOf;
    At(l, x);
    var j := IndexOf(l.high, x);
    if j < k { TimesPair(l.high, j, k); }
  }

  // ---- a job from its queue to its end ----

  // A new job is last of its queue: behind every priority job, and behind every normal one unless it
  // has priority itself. A retried job goes back to the end of its own queue.
  lemma JoinsLast(l: Lane, id: JobId, pro: bool)
    requires Inv(l) && id !in l.jobs
    ensures var e := Do(l, Enqueue(id, pro));
            && e.jobs[id] == Job(Queued, pro)
            && Position(e, id) == |l.high| + (if pro then 0 else |l.normal|)
            && (if pro then e.high == l.high + [id] && e.normal == l.normal else e.normal == l.normal + [id] && e.high == l.high)
  {
    hide Inv;
    At(l, id);
    IndexOfAppend(l.high, id, id);
    IndexOfAppend(l.normal, id, id);
    Absent(l.high, id);
  }

  lemma Absent(list: seq<JobId>, id: JobId)
    requires id !in list
    ensures IndexOf(list, id) == |list|
  {
  }

  // Started and finished in a worker's hands, a job is nowhere any more.
  lemma WorkFinishes(l: Lane, id: JobId)
    requires Inv(l) && id in l.held
    ensures var e := Do(Do(l, Start(id)), Finish(id));
            && id in l.jobs && id in Do(l, Start(id)).jobs && Do(l, Start(id)).jobs[id] == Job(Started, l.jobs[id].high)
            && e.jobs == l.jobs[id := l.jobs[id].(status := Finished)] && e.normal == l.normal && e.high == l.high
            && Places(e, id) == 0 && forall x :: x != id ==> Places(e, x) == Places(l, x)
  {
    hide Inv;
    HeldAlone(l, id);
    var s := Do(l, Start(id));
    assert s.held == l.held;
    forall x ensures Places(Do(s, Finish(id)), x) == if x == id then 0 else Places(l, x) {
      At(l, id);
      TimesWithout(l.held, id, x);
    }
  }

  lemma RetryJoinsLast(l: Lane, id: JobId)
    requires Inv(l) && id in l.held
    ensures var e := Do(l, Retry(id));
            && id in l.jobs && id in e.jobs && e.jobs[id] == Job(Queued, l.jobs[id].high) && id !in e.held
            && (if l.jobs[id].high then e.high == l.high + [id] && e.normal == l.normal else e.normal == l.normal + [id] && e.high == l.high)
  {
    hide Inv;
    HeldAlone(l, id);
    WithoutMembers(l.held, id);
  }

  // Every new job is run: after as many pops as its reported position says, the next pop hands it to a
  // worker, whatever was queued before.
  lemma JobIsRun(l: Lane, id: JobId, pro: bool)
    requires Inv(l) && id !in l.jobs
    ensures var e := Do(l, Enqueue(id, pro));
            var w := Do(Run(e, Pops(Position(e, id))), Pop);
            id in w.held && Position(e, id) == |l.high| + (if pro then 0 else |l.normal|)
  {
    hide Inv, Position, Pops, Run;
    var e := Do(l, Enqueue(id, pro));
    JoinsLast(l, id, pro);
    EnqueueInv(l, id, pro);
    assert (if pro then e.high else e.normal)[|if pro then l.high else l.normal|] == id;
    PositionIsWait(e, id);
    assert (Run(e, Pops(Position(e, id))).held + [id])[|Run(e, Pops(Position(e, id))).held|] == id;
  }

  // A cancelled generation is promoted no more; its jobs stay where they are.
  lemma CancelledStays(l: Lane, log: nat, id: JobId)
    requires id.log == log
    ensures var c := Do(l, CancelLog(log)); c == l.(cancelled := c.cancelled) && log in c.cancelled && l.cancelled <= c.cancelled
    ensures Do(Do(l, CancelLog(log)), Promote(id)) == Do(l, CancelLog(log))
  {
  }
}
