/** At-least-once delivery with an idempotent effect: every run of the listener behaves like a
    queue whose messages are applied exactly once, in order. */
module ResultSafety {
  import opened Common
  import Credits
  import opened Results

  // ---- idempotence ----

  // Applying the message again changes nothing, now or after other writers' transactions.
  predicate Settled(db: Db, m: Msg)
    requires Known(db, m)
  {
    m.Report? && m.log.Some? ==>
      var (r, job) := (db.rows[m.log.value], db.bank.jobs[m.log.value]);
      Updates(r, m) ==> Updated(r, m) == r && (Refunds(r, m) ==> job.refunded)
  }

  lemma SettledStays(db: Db, m: Msg)
    requires Known(db, m) && Settled(db, m)
    ensures !Raises(db, m) && Apply(db, m) == db
  {
    if m.Report? && m.log.Some? {
      var g := m.log.value;
      assert db.rows[g := db.rows[g]] == db.rows;
    }
  }

  // The status join absorbs its own message.
  lemma UpdateAbsorbs(r: Row, m: Msg)
    requires m.Report? && Updates(r, m)
    ensures Updates(Updated(r, m), m) ==> Updated(Updated(r, m), m) == Updated(r, m)
    ensures Refunds(Updated(r, m), m) ==> Refunds(r, m)
  {
  }

  lemma RefundMarks(b: Credits.Bank, g: nat)
    requires g < |b.jobs|
    ensures |Credits.RefundBank(b, g).jobs| == |b.jobs| && |Credits.RefundBank(b, g).accounts| == |b.accounts|
    ensures var job := b.jobs[g];
            !(!job.refunded && job.user.Some? && job.user.value >= |b.accounts|
              && (job.charged > 0 || Credits.LoggedDebit(b.log, job.user.value, g) > 0))
            ==> Credits.RefundBank(b, g).jobs[g].refunded
  {
  }

  lemma ApplySettles(db: Db, m: Msg)
    requires Known(db, m) && !Raises(db, m)
    ensures Known(Apply(db, m), m) && Settled(Apply(db, m), m)
  {
    hide Credits.RefundBank, Updated, ShouldApply;
    if m.Report? && m.log.Some? && Updates(db.rows[m.log.value], m) {
      var g := m.log.value;
      UpdateAbsorbs(db.rows[g], m);
      RefundMarks(db.bank, g);
    }
  }

  // Delivering a message twice is delivering it once.
  lemma ApplyTwice(db: Db, m: Msg)
    requires Known(db, m) && !Raises(db, m)
    ensures Known(Apply(db, m), m) && Apply(Apply(db, m), m) == Apply(db, m)
  {
    hide Apply;
    ApplySettles(db, m);
    SettledStays(Apply(db, m), m);
  }

  // The status join: a finished result is never touched, a deleted row never comes back, a
  // failure of the first stage never fails a row that reached the second, and progress reports
  // never move a running row back.
  lemma StatusJoin(r: Row, m: Msg)
    requires m.Report? && Updates(r, m)
    ensures r.status != Deleted && !(r.status == Success && r.result.Some?)
    ensures r.status == Success ==> m.status == Some(Success)
    ensures m.status == Some(Failed) && (m.stage == TextToImage || m.stage == ImageEdit || m.stage == RealToRender) ==>
              r.status != PendingSkin && r.status != ProcessingSkin
    ensures 0 <= Rank(r.status) && m.status != Some(Success) && m.status != Some(Failed) ==>
              Rank(r.status) <= Rank(m.status.value)
  {
  }

  // A row that holds its result.
  predicate Holds(r: Row, before: Row) { r == before || r == Withdrawn(before) }

  lemma ApplySpares(db: Db, m: Msg, g: nat)
    requires Known(db, m) && g < |db.rows|
    requires db.rows[g].status == Deleted || (db.rows[g].status == Success && db.rows[g].result.Some?)
    ensures g < |Apply(db, m).rows| && Apply(db, m).rows[g] == db.rows[g]
  {
    if m.Report? && Updates(db.rows[g], m) { StatusJoin(db.rows[g], m); }
  }

  // Whatever is delivered again, late or out of order, a successful row keeps its result and
  // changes only by being withdrawn.
  lemma {:induction false} SuccessIsFinal(s: State, steps: seq<Step>, g: nat, before: Row)
    requires Sized(s.db) && g < |s.db.rows| && before.status == Success && before.result.Some? && Holds(s.db.rows[g], before)
    ensures g < |Run(s, steps).db.rows| && Holds(Run(s, steps).db.rows[g], before)
    decreases |steps|
  {
    if steps != [] {
      StepHolds(s, steps[0], g, before);
      hide Do;
      SuccessIsFinal(Do(s, steps[0]), steps[1..], g, before);
    }
  }

  lemma StepHolds(s: State, t: Step, g: nat, before: Row)
    requires Sized(s.db) && g < |s.db.rows| && before.status == Success && before.result.Some? && Holds(s.db.rows[g], before)
    ensures Sized(Do(s, t).db) && g < |Do(s, t).db.rows| && Holds(Do(s, t).db.rows[g], before)
  {
    hide Apply, Raises;
    match t {
      case Commit =>
        if s.hand.Popped? && Known(s.db, s.hand.msg) && !Raises(s.db, s.hand.msg) {
          ApplySized(s.db, s.hand.msg);
          ApplySpares(s.db, s.hand.msg, g);
        }
      case _ => OutsideJobs(s.db, t);
    }
  }

  predicate Sized(db: Db) { |db.rows| == |db.bank.jobs| }

  lemma ApplySized(db: Db, m: Msg)
    requires Known(db, m)
    ensures Sized(Apply(db, m)) && |Apply(db, m).rows| == |db.rows|
  {
    hide Credits.RefundBank, Updated;
    if m.Report? && m.log.Some? { RefundMarks(db.bank, m.log.value); }
  }

  // Other transactions keep a settled message settled.
  lemma OutsideSettles(db: Db, t: Step, m: Msg)
    requires Sized(db) && Known(db, m) && Settled(db, m)
    ensures Sized(Outside(db, t)) && Known(Outside(db, t), m) && Settled(Outside(db, t), m)
  {
    hide Updated, ShouldApply;
    OutsideJobs(db, t);
    if m.Report? && t.Withdraw? && m.log == Some(t.log) && t.log < |db.rows| {
      DeletedStays(Withdrawn(db.rows[t.log]), m);
    }
  }

  lemma DeletedStays(r: Row, m: Msg)
    requires m.Report? && r.status == Deleted
    ensures !Updates(r, m)
  {
  }

  lemma OutsideJobs(db: Db, t: Step)
    requires Sized(db)
    ensures Sized(Outside(db, t)) && |db.rows| <= |Outside(db, t).rows|
    ensures forall g :: 0 <= g < |db.rows| ==> Outside(db, t).bank.jobs[g] == db.bank.jobs[g]
    ensures forall g :: 0 <= g < |db.rows| && !(t.Withdraw? && t.log == g) ==> Outside(db, t).rows[g] == db.rows[g]
  {
    match t {
      case Bank(step) => if !step.Charge? && !step.RefundJob? { BankJobs(db.bank, step); }
      case Generate(user, cost, row) => ChargeJobs(db.bank, user, cost);
      case _ =>
    }
  }

  lemma BankJobs(b: Credits.Bank, t: Credits.Step)
    requires !t.Charge? && !t.RefundJob?
    ensures Credits.Do(b, t).jobs == b.jobs
  {
  }

  lemma ChargeJobs(b: Credits.Bank, u: nat, cost: nat)
    ensures var b' := Credits.Do(b, Credits.Charge(u, cost));
            b'.jobs == b.jobs || (|b'.jobs| == |b.jobs| + 1 && b'.jobs[..|b.jobs|] == b.jobs)
  {
  }

  // ---- the refinement ----

  function Copies(m: Msg, n: nat): seq<Msg> { seq(n, _ => m) }

  // Everything that will still be delivered; the right end comes first.
  function Deliveries(s: State): seq<Msg> {
    s.main + if s.hand.Recovering? && s.hand.moved.Some? then [s.hand.moved.value] else s.processing
  }

  predicate AllKnown(db: Db, list: seq<Msg>) { forall k :: 0 <= k < |list| ==> Known(db, list[k]) }

  predicate HandOk(s: State, x: Msg, n: nat) {
    match s.hand
    case Idle => s.processing == []
    case Popped(m) => s.processing == [m]
    case Committed(m) =>
      && Known(s.db, m) && Settled(s.db, m) && (n > 0 ==> x == m)
      && (s.processing == [] || (s.processing == [m] && n > 0))
    case Recovering(moved) => |s.processing| <= 1 && (moved.Some? ==> s.processing == [])
  }

  // The lists hold the ideal queue and, nearest to delivery, n more copies of one message
  // that is either settled or the next one of the queue.
  predicate Rel(s: State, i: Ideal, x: Msg, n: nat) {
    && s.db == i.db && Sized(s.db)
    && AllKnown(s.db, Deliveries(s))
    && Deliveries(s) == i.queue + Copies(x, n)
    && (n > 0 ==> Known(s.db, x) && (Settled(s.db, x) || (i.queue != [] && Last(i.queue) == x)))
    && HandOk(s, x, n)
  }

  // The window of recover_inflight_result_messages between its rpop and its rpush.
  predicate InGap(s: State) { s.hand.Recovering? && s.hand.moved.Some? }

  predicate Done(db: Db, m: Msg) { Known(db, m) && Settled(db, m) }

  predicate Matches(s: State, t: Step, i: IdealStep) {
    match t
    case Push(m) => i == if Known(s.db, m) then Arrive(m) else Rest
    case Commit => i == Consume || i == Rest
    case Crash => i == Rest || (InGap(s) && i == if Done(s.db, s.hand.moved.value) then Consume else Lose)
    case Generate(_, _, _) => i == Elsewhere(t)
    case Withdraw(_) => i == Elsewhere(t)
    case Bank(_) => i == Elsewhere(t)
    case _ => i == Rest
  }

  lemma CopiesGrow(x: Msg, n: nat)
    ensures Copies(x, n) + [x] == Copies(x, n + 1) == [x] + Copies(x, n)
  {
  }

  // The message in hand is the next of the queue, or one more copy of a settled one.
  lemma Head(s: State, i: Ideal, x: Msg, n: nat, m: Msg)
    requires Rel(s, i, x, n) && s.hand == Popped(m)
    ensures Deliveries(s) == s.main + [m] && Known(s.db, m)
    ensures n > 0 ==> x == m
    ensures n == 0 ==> i.queue == s.main + [m]
  {
    assert Deliveries(s)[|s.main|] == m;
    if n == 0 { assert i.queue + Copies(x, n) == i.queue; }
  }

  lemma SimulateCommit(s: State, i: Ideal, x: Msg, n: nat) returns (y: Msg, k: nat, ideal: IdealStep)
    requires Rel(s, i, x, n)
    ensures Matches(s, Commit, ideal) && Rel(Do(s, Commit), IdealDo(i, ideal), y, k)
  {
    hide Apply, Settled, Raises;
    y, k, ideal := x, n, Rest;
    if s.hand.Popped? && Known(s.db, s.hand.msg) && !Raises(s.db, s.hand.msg) {
      var m := s.hand.msg;
      Head(s, i, x, n, m);
      ApplySettles(s.db, m);
      ApplySized(s.db, m);
      if n > 0 && Settled(s.db, m) {
        SettledStays(s.db, m);
      } else {
        y, k, ideal := m, n + 1, Consume;
        CopiesGrow(m, n);
        assert i.queue == Front(i.queue) + [m];
        assert Deliveries(s) == Front(i.queue) + Copies(m, n + 1);
      }
      assert Deliveries(Do(s, Commit)) == Deliveries(s);
    }
  }

  lemma DropLastCopy(queue: seq<Msg>, x: Msg, n: nat)
    requires n > 0
    ensures Front(queue + Copies(x, n)) == queue + Copies(x, n - 1)
  {
  }

  lemma SimulateAck(s: State, i: Ideal, x: Msg, n: nat, t: Step) returns (k: nat)
    requires Rel(s, i, x, n) && (t.Ack? || t.AckUnheard?)
    ensures Rel(Do(s, t), i, x, k)
  {
    k := n;
    if s.hand.Committed? && s.processing != [] {
      k := n - 1;
      DropLastCopy(i.queue, x, n);
      assert RemoveFirst(s.processing, s.hand.msg) == [];
      assert Deliveries(Do(s, t)) == Front(Deliveries(s));
    }
  }

  lemma SimulateRequeue(s: State, i: Ideal, x: Msg, n: nat, twice: bool) returns (y: Msg, k: nat)
    requires Rel(s, i, x, n)
    ensures Rel(Do(s, Requeue(twice)), i, y, k)
  {
    hide Settled;
    y, k := x, n;
    if s.hand.Popped? || s.hand.Committed? {
      var m, s' := s.hand.msg, Do(s, Requeue(twice));
      assert RemoveFirst(s.processing, m) == [];
      if s.hand.Popped? { Head(s, i, x, n, m); }
      y := m;
      var had := if s.processing == [] then n + 1 else n;
      k := if twice then had + 1 else had;
      CopiesGrow(m, n);
      CopiesGrow(m, n + 1);
      if n == 0 { assert Copies(x, 0) == Copies(m, 0); }
      assert s.main + [m] == i.queue + Copies(m, had) by {
        if s.processing == [] { assert s.main == Deliveries(s); } else { assert s.main + [m] == Deliveries(s); }
      }
      CopiesGrow(m, had);
      assert s.main + [m, m] == (s.main + [m]) + [m];
      assert Deliveries(s') == i.queue + Copies(m, k);
      forall j | 0 <= j < |Deliveries(s')| ensures Known(s'.db, Deliveries(s')[j]) {
        if j < |s.main| { assert Deliveries(s)[j] == s.main[j]; }
      }
    }
  }

  lemma SimulateCrash(s: State, i: Ideal, x: Msg, n: nat) returns (k: nat, ideal: IdealStep)
    requires Rel(s, i, x, n)
    ensures Matches(s, Crash, ideal) && Rel(Do(s, Crash), IdealDo(i, ideal), x, k)
  {
    k, ideal := n, Rest;
    if InGap(s) {
      assert Front(Deliveries(s)) == s.main == Deliveries(Do(s, Crash));
      if n > 0 {
        k := n - 1;
        DropLastCopy(i.queue, x, n);
      } else {
        var m := s.hand.moved.value;
        assert i.queue + Copies(x, 0) == i.queue;
        assert Front(i.queue) + Copies(x, 0) == Front(i.queue) && Last(i.queue) == m;
        ideal := if Done(s.db, m) then Consume else Lose;
        if Done(s.db, m) { SettledStays(s.db, m); }
      }
    } else {
      assert Deliveries(Do(s, Crash)) == Deliveries(s);
    }
  }

  lemma SimulateOutside(s: State, i: Ideal, x: Msg, n: nat, t: Step)
    requires Rel(s, i, x, n) && (t.Generate? || t.Withdraw? || t.Bank?)
    ensures Rel(Do(s, t), IdealDo(i, Elsewhere(t)), x, n)
  {
    hide Settled, Outside;
    OutsideJobs(s.db, t);
    if n > 0 && Settled(s.db, x) { OutsideSettles(s.db, t, x); }
    if s.hand.Committed? { OutsideSettles(s.db, t, s.hand.msg); }
    assert Deliveries(Do(s, t)) == Deliveries(s);
  }

  lemma SimulateMove(s: State, i: Ideal, x: Msg, n: nat, t: Step)
    requires Rel(s, i, x, n) && (t.Pop? || t.RecoverPop? || t.RecoverPush?)
    ensures Rel(Do(s, t), i, x, n) && Deliveries(Do(s, t)) == Deliveries(s) && Do(s, t).db == s.db
  {
    hide Settled;
    assert Deliveries(Do(s, t)) == Deliveries(s);
  }

  lemma SimulatePush(s: State, i: Ideal, x: Msg, n: nat, m: Msg)
    requires Rel(s, i, x, n) && Known(s.db, m)
    ensures Rel(Do(s, Push(m)), IdealDo(i, Arrive(m)), x, n)
  {
    hide Settled;
    assert Deliveries(Do(s, Push(m))) == [m] + Deliveries(s) == ([m] + i.queue) + Copies(x, n);
  }

  lemma Simulate(s: State, t: Step, i: Ideal, x: Msg, n: nat) returns (y: Msg, k: nat, ideal: IdealStep)
    requires Rel(s, i, x, n)
    ensures Matches(s, t, ideal) && Rel(Do(s, t), IdealDo(i, ideal), y, k)
  {
    hide Rel, Do, Known;
    y, k, ideal := x, n, Rest;
    match t {
      case Push(m) => if Known(s.db, m) { ideal := Arrive(m); SimulatePush(s, i, x, n, m); } else { NoPush(s, m); }
      case Pop => SimulateMove(s, i, x, n, t);
      case Commit => y, k, ideal := SimulateCommit(s, i, x, n);
      case Ack => k := SimulateAck(s, i, x, n, t);
      case AckUnheard => k := SimulateAck(s, i, x, n, t);
      case Requeue(twice) => y, k := SimulateRequeue(s, i, x, n, twice);
      case Crash => k, ideal := SimulateCrash(s, i, x, n);
      case RecoverPop => SimulateMove(s, i, x, n, t);
      case RecoverPush => SimulateMove(s, i, x, n, t);
      case _ => ideal := Elsewhere(t); SimulateOutside(s, i, x, n, t);
    }
  }

  lemma NoPush(s: State, m: Msg)
    requires !Known(s.db, m)
    ensures Do(s, Push(m)) == s
  {
  }

  // An ideal run that stands for a run of the listener, one step beside the other.
  predicate Stands(s: State, steps: seq<Step>, plan: seq<IdealStep>)
    decreases |steps|
  {
    && |plan| == |steps|
    && (steps != [] ==> Matches(s, steps[0], plan[0]) && Stands(Do(s, steps[0]), steps[1..], plan[1..]))
  }

  lemma {:induction false} SimulateRun(s: State, steps: seq<Step>, i: Ideal, x: Msg, n: nat)
    returns (plan: seq<IdealStep>, y: Msg, k: nat)
    requires Rel(s, i, x, n)
    ensures Stands(s, steps, plan) && Rel(Run(s, steps), IdealRun(i, plan), y, k)
    decreases |steps|
  {
    hide Rel, Do, IdealDo, Matches;
    plan, y, k := [], x, n;
    if steps != [] {
      var x', n', ideal := Simulate(s, steps[0], i, x, n);
      var rest;
      rest, y, k := SimulateRun(Do(s, steps[0]), steps[1..], IdealDo(i, ideal), x', n');
      plan := [ideal] + rest;
      assert plan[1..] == rest;
    }
  }

  predicate Drained(s: State) { Deliveries(s) == [] }

  function Start(db: Db): State { State(db, [], [], Recovering(None)) }

  // Every run, with crashes anywhere, has the database of an ideal run in which the same
  // messages arrived and each was applied at most once, in order. Once the lists are drained
  // the ideal queue is empty too; a message is lost only by a crash in the recovery gap that
  // finds it not yet applied.
  lemma EffectivelyOnce(db: Db, steps: seq<Step>)
    requires Sized(db)
    ensures exists plan ::
              && Stands(Start(db), steps, plan)
              && Run(Start(db), steps).db == IdealRun(Ideal(db, []), plan).db
              && (Drained(Run(Start(db), steps)) ==> IdealRun(Ideal(db, []), plan).queue == [])
  {
    StartRel(db);
    var plan, y, k := SimulateRun(Start(db), steps, Ideal(db, []), Garbage, 0);
  }

  // ---- without other writers: one fold over the pushed messages ----

  function Pushed(s: State, steps: seq<Step>): seq<Msg>
    decreases |steps|
  {
    if steps == [] then []
    else (if steps[0].Push? && Known(s.db, steps[0].msg) then [steps[0].msg] else []) + Pushed(Do(s, steps[0]), steps[1..])
  }

  // A crash in the recovery gap does no harm to a message that was applied before, or that is
  // the next one again.
  predicate Harmless(s: State, t: Step) {
    t.Crash? && InGap(s) ==> Done(s.db, s.hand.moved.value) || (s.main != [] && Last(s.main) == s.hand.moved.value)
  }

  predicate AllHarmless(s: State, steps: seq<Step>)
    decreases |steps|
  {
    steps != [] ==> Harmless(s, steps[0]) && AllHarmless(Do(s, steps[0]), steps[1..])
  }

  predicate OwnStep(t: Step) { !t.Generate? && !t.Withdraw? && !t.Bank? }

  // Each message once, the first pushed first.
  function InOrder(db: Db, list: seq<Msg>): Db
    decreases |list|
  {
    if list == [] then db else InOrder(Effect(db, list[0]), list[1..])
  }

  // What a queue still has to do; the right end goes first.
  function Finished(db: Db, queue: seq<Msg>): Db
    decreases |queue|
  {
    if queue == [] then db else Finished(Effect(db, Last(queue)), Front(queue))
  }

  lemma {:induction false} FinishedPush(db: Db, queue: seq<Msg>, m: Msg)
    ensures Finished(db, [m] + queue) == Effect(Finished(db, queue), m)
    decreases |queue|
  {
    if queue == [] {
      assert Front([m] + queue) == [] && Last([m] + queue) == m;
    } else {
      assert Front([m] + queue) == [m] + Front(queue) && Last([m] + queue) == Last(queue);
      FinishedPush(Effect(db, Last(queue)), Front(queue), m);
    }
  }

  lemma EffectTwice(db: Db, m: Msg)
    ensures Effect(Effect(db, m), m) == Effect(db, m)
  {
    hide Apply;
    if Known(db, m) {
      if Raises(db, m) { RaisesNothing(db, m); } else { ApplyTwice(db, m); }
    }
  }

  lemma RaisesNothing(db: Db, m: Msg)
    requires Known(db, m) && Raises(db, m)
    ensures Apply(db, m) == db
  {
  }

  lemma FinishedLast(db: Db, queue: seq<Msg>, m: Msg)
    ensures Finished(db, queue + [m]) == Finished(Effect(db, m), queue)
  {
    assert Front(queue + [m]) == queue;
  }

  lemma FinishedTwice(db: Db, queue: seq<Msg>, m: Msg)
    ensures Finished(Effect(db, m), queue + [m]) == Finished(db, queue + [m]) == Finished(db, queue + [m] + [m])
  {
    hide Effect;
    EffectTwice(db, m);
    FinishedLast(db, queue, m);
    FinishedLast(Effect(db, m), queue, m);
    FinishedLast(db, queue + [m], m);
  }

  lemma FinishedDone(db: Db, queue: seq<Msg>, m: Msg)
    requires Done(db, m)
    ensures Finished(db, queue + [m]) == Finished(db, queue)
  {
    SettledStays(db, m);
    hide Apply, Settled, Known;
    FinishedLast(db, queue, m);
  }

  // What the database will be once the lists are drained.
  function Outcome(s: State): Db { Finished(s.db, Deliveries(s)) }

  lemma CommitKeeps(s: State, i: Ideal, x: Msg, n: nat)
    requires Rel(s, i, x, n)
    ensures Outcome(Do(s, Commit)) == Outcome(s)
  {
    hide Apply, Settled, Raises, Finished;
    if s.hand.Popped? && Known(s.db, s.hand.msg) && !Raises(s.db, s.hand.msg) {
      Head(s, i, x, n, s.hand.msg);
      FinishedTwice(s.db, s.main, s.hand.msg);
    }
  }

  lemma AckKeeps(s: State, i: Ideal, x: Msg, n: nat, t: Step)
    requires Rel(s, i, x, n) && (t.Ack? || t.AckUnheard?)
    ensures Outcome(Do(s, t)) == Outcome(s)
  {
    hide Settled, Finished;
    if s.hand.Committed? && s.processing != [] {
      assert RemoveFirst(s.processing, s.hand.msg) == [];
      assert Deliveries(Do(s, t)) == s.main;
      FinishedDone(s.db, s.main, s.hand.msg);
    }
  }

  lemma RequeueKeeps(s: State, i: Ideal, x: Msg, n: nat, twice: bool)
    requires Rel(s, i, x, n)
    ensures Outcome(Do(s, Requeue(twice))) == Outcome(s)
  {
    hide Settled, Finished;
    if s.hand.Popped? || s.hand.Committed? {
      var m := s.hand.msg;
      assert RemoveFirst(s.processing, m) == [];
      assert Deliveries(Do(s, Requeue(twice))) == if twice then s.main + [m] + [m] else s.main + [m];
      FinishedTwice(s.db, s.main, m);
      if s.processing == [] {
        FinishedDone(s.db, s.main, m);
        assert Deliveries(s) == s.main;
      } else {
        assert Deliveries(s) == s.main + [m];
      }
    }
  }

  lemma CrashKeeps(s: State, i: Ideal, x: Msg, n: nat)
    requires Rel(s, i, x, n) && Harmless(s, Crash)
    ensures Outcome(Do(s, Crash)) == Outcome(s)
  {
    hide Finished;
    if InGap(s) {
      var m := s.hand.moved.value;
      assert Deliveries(Do(s, Crash)) == s.main;
      if Done(s.db, m) {
        FinishedDone(s.db, s.main, m);
      } else {
        assert s.main == Front(s.main) + [m];
        FinishedTwice(s.db, Front(s.main), m);
      }
    } else {
      assert Deliveries(Do(s, Crash)) == Deliveries(s);
    }
  }

  lemma OutcomeStep(s: State, i: Ideal, x: Msg, n: nat, t: Step)
    requires Rel(s, i, x, n) && OwnStep(t) && Harmless(s, t)
    ensures Outcome(Do(s, t)) == if t.Push? && Known(s.db, t.msg) then Effect(Outcome(s), t.msg) else Outcome(s)
  {
    hide Effect, Settled, Finished;
    match t {
      case Push(m) =>
        if Known(s.db, m) {
          FinishedPush(s.db, Deliveries(s), m);
          assert Deliveries(Do(s, t)) == [m] + Deliveries(s);
        }
      case Commit => CommitKeeps(s, i, x, n);
      case Requeue(twice) => RequeueKeeps(s, i, x, n, twice);
      case Crash => CrashKeeps(s, i, x, n);
      case Ack => AckKeeps(s, i, x, n, t);
      case AckUnheard => AckKeeps(s, i, x, n, t);
      case Pop => SimulateMove(s, i, x, n, t);
      case RecoverPop => SimulateMove(s, i, x, n, t);
      case RecoverPush => SimulateMove(s, i, x, n, t);
      case _ =>
    }
  }

  lemma {:induction false} OutcomeInOrder(s: State, steps: seq<Step>, i: Ideal, x: Msg, n: nat)
    requires Rel(s, i, x, n) && AllHarmless(s, steps)
    requires forall t :: t in steps ==> OwnStep(t)
    ensures Outcome(Run(s, steps)) == InOrder(Outcome(s), Pushed(s, steps))
    decreases |steps|
  {
    hide Do, Effect, Rel, Outcome, Harmless, IdealDo, Known;
    if steps != [] {
      var t := steps[0];
      assert OwnStep(t);
      var y, k, ideal := Simulate(s, t, i, x, n);
      OutcomeStep(s, i, x, n, t);
      OutcomeInOrder(Do(s, t), steps[1..], IdealDo(i, ideal), y, k);
      var rest := Pushed(Do(s, t), steps[1..]);
      if t.Push? && Known(s.db, t.msg) { assert ([t.msg] + rest)[1..] == rest; } else { assert [] + rest == rest; }
    }
  }

  lemma StartRel(db: Db)
    requires Sized(db)
    ensures Rel(Start(db), Ideal(db, []), Garbage, 0)
  {
    assert Deliveries(Start(db)) == [] == [] + Copies(Garbage, 0);
  }

  // A drained database, refunds and balances included, is every pushed message applied exactly
  // once in the order of the pushes, however often messages were delivered and wherever the
  // listener crashed without losing the next unapplied message.
  lemma DrainedIsInOrder(db: Db, steps: seq<Step>)
    requires Sized(db) && AllHarmless(Start(db), steps) && Drained(Run(Start(db), steps))
    requires forall t :: t in steps ==> OwnStep(t)
    ensures Run(Start(db), steps).db == InOrder(db, Pushed(Start(db), steps))
  {
    hide Run, Pushed, AllHarmless, Rel;
    StartRel(db);
    OutcomeInOrder(Start(db), steps, Ideal(db, []), Garbage, 0);
  }

  // In every reachable state, a step takes a message that is not applied yet out of the lists
  // exactly when it is a crash in the recovery gap with that message in hand and no other copy.
  lemma LostIff(db: Db, steps: seq<Step>, t: Step, m: Msg)
    requires Sized(db) && m in Deliveries(Run(Start(db), steps)) && !Done(Run(Start(db), steps).db, m)
    ensures var s := Run(Start(db), steps);
            m !in Deliveries(Do(s, t)) <==> t.Crash? && InGap(s) && s.hand.moved.value == m && m !in s.main
  {
    hide Run, Rel;
    StartRel(db);
    var plan, y, k := SimulateRun(Start(db), steps, Ideal(db, []), Garbage, 0);
    StepLosesIff(Run(Start(db), steps), IdealRun(Ideal(db, []), plan), y, k, t, m);
  }

  lemma StepLosesIff(s: State, i: Ideal, x: Msg, n: nat, t: Step, m: Msg)
    requires Rel(s, i, x, n) && m in Deliveries(s) && !Done(s.db, m)
    ensures m !in Deliveries(Do(s, t)) <==> t.Crash? && InGap(s) && s.hand.moved.value == m && m !in s.main
  {
    hide Settled;
    if t.Pop? || t.RecoverPop? || t.RecoverPush? { SimulateMove(s, i, x, n, t); }
    else if s.hand.Popped? || s.hand.Committed? { assert s.processing == [s.hand.msg] ==> RemoveFirst(s.processing, s.hand.msg) == []; }
  }

  // Read, and then lost twice: the crash before the second recovery falls into the gap.
  function LosingSteps(m: Msg): seq<Step> { [RecoverPop, Push(m), Pop, Crash, RecoverPop, Crash, RecoverPop] }

  // The hypothesis about the recovery gap is needed: from any database, a message that has an
  // effect is lost by a run that drains both lists.
  lemma GapLosesMessage(db: Db, m: Msg)
    requires Sized(db) && Known(db, m) && Apply(db, m) != db
    ensures var steps := LosingSteps(m);
            && Drained(Run(Start(db), steps))
            && Pushed(Start(db), steps) == [m]
            && Run(Start(db), steps).db != InOrder(db, Pushed(Start(db), steps))
            && !AllHarmless(Start(db), steps)
  {
    hide Apply, Known, Run, Pushed, AllHarmless;
    LosingRun(db, m);
    assert InOrder(db, [m]) == InOrder(Effect(db, m), [m][1..]) == Effect(db, m);
    NotHarmless(db, LosingSteps(m));
  }

  lemma LosingRun(db: Db, m: Msg)
    requires Known(db, m)
    ensures Run(Start(db), LosingSteps(m)) == Start(db).(hand := Idle) && Pushed(Start(db), LosingSteps(m)) == [m]
  {
    hide Known;
    var steps := LosingSteps(m);
    var s1 := Do(Start(db), RecoverPop);
    var s2 := Do(s1, Push(m));
    assert s2 == State(db, [m], [], Idle);
    var s3 := Do(s2, Pop);
    assert s3 == State(db, [], [m], Popped(m));
    var s5 := Do(Do(s3, Crash), RecoverPop);
    assert s5 == State(db, [], [], Recovering(Some(m)));
    Unfold(Start(db), steps);
    Unfold(s1, steps[1..]);
    Unfold(s2, steps[2..]);
    Unfold(s3, steps[3..]);
    Unfold(Do(s3, Crash), steps[4..]);
    Unfold(s5, steps[5..]);
    Unfold(Do(s5, Crash), steps[6..]);
    Unfold(Do(Do(s5, Crash), RecoverPop), steps[7..]);
  }

  lemma NotHarmless(db: Db, steps: seq<Step>)
    requires Sized(db) && Drained(Run(Start(db), steps)) && forall t :: t in steps ==> OwnStep(t)
    requires Run(Start(db), steps).db != InOrder(db, Pushed(Start(db), steps))
    ensures !AllHarmless(Start(db), steps)
  {
    hide Run, Pushed, AllHarmless;
    if AllHarmless(Start(db), steps) { DrainedIsInOrder(db, steps); }
  }

  lemma Unfold(s: State, steps: seq<Step>)
    ensures steps == [] ==> Run(s, steps) == s && Pushed(s, steps) == []
    ensures steps != [] ==>
              && Run(s, steps) == Run(Do(s, steps[0]), steps[1..])
              && Pushed(s, steps) ==
                 (if steps[0].Push? && Known(s.db, steps[0].msg) then [steps[0].msg] else [])
                 + Pushed(Do(s, steps[0]), steps[1..])
  {
    hide Do, Known;
  }
}
