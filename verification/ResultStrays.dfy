/** The listener when Redis answers are lost and it goes on without a restart: a message stays in the
    processing list until the next one (routers/generate.py:1042-1106). Nothing is lost by that, but
    later messages overtake it. */
module ResultStrays {
  import opened Common
  import Credits
  import opened Results
  import opened ResultSafety

  datatype Event =
    | Heard(step: Step)
    | PopUnheard   // brpoplpush is executed, but the listener sees an error and turns to the next message
    | GiveUp       // both requeues fail: the message in hand is left where it is

  function Next(s: State, e: Event): State {
    match e
    case Heard(t) => Do(s, t)
    case PopUnheard =>
      if s.hand.Idle? && s.main != []
      then s.(main := Front(s.main), processing := [Last(s.main)] + s.processing)
      else s
    case GiveUp => if s.hand.Popped? || s.hand.Committed? then s.(hand := Idle) else s
  }

  function RunAll(s: State, events: seq<Event>): State
    decreases |events|
  {
    if events == [] then s else RunAll(Next(s, events[0]), events[1..])
  }

  // ---- nothing is lost ----

  predicate Listed(s: State, m: Msg) {
    m in s.main || m in s.processing || (s.hand.Recovering? && s.hand.moved == Some(m))
  }

  // Only an applied message is acknowledged.
  predicate Careful(s: State) { Sized(s.db) && (s.hand.Committed? ==> Done(s.db, s.hand.msg)) }

  lemma OutsideCareful(s: State, t: Step)
    requires Careful(s) && (t.Generate? || t.Withdraw? || t.Bank?)
    ensures Careful(Do(s, t))
  {
    hide Settled, Outside;
    OutsideJobs(s.db, t);
    if s.hand.Committed? { OutsideSettles(s.db, t, s.hand.msg); }
  }

  lemma NextCareful(s: State, e: Event)
    requires Careful(s)
    ensures Careful(Next(s, e))
  {
    hide Settled, Apply, Raises;
    if e.Heard? {
      match e.step {
        case Commit =>
          if s.hand.Popped? && Known(s.db, s.hand.msg) && !Raises(s.db, s.hand.msg) {
            ApplySettles(s.db, s.hand.msg);
            ApplySized(s.db, s.hand.msg);
          }
        case Generate(_, _, _) => OutsideCareful(s, e.step);
        case Withdraw(_) => OutsideCareful(s, e.step);
        case Bank(_) => OutsideCareful(s, e.step);
        case _ =>
      }
    }
  }

  lemma {:induction false} RunCareful(s: State, events: seq<Event>)
    requires Careful(s)
    ensures Careful(RunAll(s, events))
    decreases |events|
  {
    hide Careful, Next;
    if events != [] {
      NextCareful(s, events[0]);
      RunCareful(Next(s, events[0]), events[1..]);
    }
  }

  lemma RemoveFirstIn(list: seq<Msg>, x: Msg, m: Msg)
    requires m != x
    ensures m in RemoveFirst(list, x) <==> m in list
  {
  }

  // Lost replies and failed requeues included: in every reachable state, an event takes a message
  // that is not applied yet out of the lists exactly when it is a crash in the recovery gap with that
  // message in hand and no other copy.
  lemma StrayLostIff(db: Db, events: seq<Event>, e: Event, m: Msg)
    requires Sized(db) && Listed(RunAll(Start(db), events), m) && !Done(RunAll(Start(db), events).db, m)
    ensures var s := RunAll(Start(db), events);
            !Listed(Next(s, e), m)
            <==> e == Heard(Crash) && InGap(s) && s.hand.moved.value == m && m !in s.main && m !in s.processing
  {
    hide RunAll;
    RunCareful(Start(db), events);
    NextLosesIff(RunAll(Start(db), events), e, m);
  }

  lemma InFront(list: seq<Msg>, m: Msg)
    requires list != []
    ensures m in list <==> m in Front(list) || m == Last(list)
  {
    assert list == Front(list) + [Last(list)];
  }

  lemma InBoth(a: seq<Msg>, b: seq<Msg>, m: Msg)
    ensures m in a + b <==> m in a || m in b
  {
  }

  // Moves between the lists and the listener's hand.
  lemma MoveKeeps(s: State, e: Event, m: Msg)
    requires e == PopUnheard || e == Heard(Pop) || e == Heard(RecoverPop) || e == Heard(RecoverPush)
    ensures Listed(Next(s, e), m) <==> Listed(s, m)
  {
    hide Front, Last;
    if s.main != [] {
      InFront(s.main, m);
      InBoth([Last(s.main)], s.processing, m);
    }
    if s.processing != [] { InFront(s.processing, m); }
    if InGap(s) { InBoth(s.main, [s.hand.moved.value], m); }
  }

  lemma AckKeepsOthers(s: State, e: Event, m: Msg)
    requires Careful(s) && Listed(s, m) && !Done(s.db, m)
    requires e == Heard(Ack) || e == Heard(AckUnheard) || (e.Heard? && e.step.Requeue?)
    ensures Listed(Next(s, e), m)
  {
    hide Done, RemoveFirst;
    if s.hand.Popped? || s.hand.Committed? {
      if s.hand.msg != m { RemoveFirstIn(s.processing, s.hand.msg, m); }
      InBoth(s.main, [s.hand.msg], m);
      InBoth(s.main, [s.hand.msg, s.hand.msg], m);
    }
  }

  lemma NextLosesIff(s: State, e: Event, m: Msg)
    requires Careful(s) && Listed(s, m) && !Done(s.db, m)
    ensures !Listed(Next(s, e), m)
            <==> e == Heard(Crash) && InGap(s) && s.hand.moved.value == m && m !in s.main && m !in s.processing
  {
    hide Careful, Done, Apply, Raises, Outside, Known, RemoveFirst, Front, Last;
    match e {
      case PopUnheard => MoveKeeps(s, e, m);
      case GiveUp =>
      case Heard(t) =>
        match t {
          case Pop => MoveKeeps(s, e, m);
          case RecoverPop => MoveKeeps(s, e, m);
          case RecoverPush => MoveKeeps(s, e, m);
          case Ack => AckKeepsOthers(s, e, m);
          case AckUnheard => AckKeepsOthers(s, e, m);
          case Requeue(_) => AckKeepsOthers(s, e, m);
          case Push(x) => InBoth([x], s.main, m);
          case _ =>
        }
    }
  }

  // ---- in turn ----

  // A message is only taken while none waits unacknowledged.
  predicate InTurn(s: State, e: Event) {
    (e == PopUnheard || e == Heard(Pop)) && s.hand.Idle? && s.main != [] ==> s.processing == []
  }

  predicate AllInTurn(s: State, events: seq<Event>)
    decreases |events|
  {
    events != [] ==> InTurn(s, events[0]) && AllInTurn(Next(s, events[0]), events[1..])
  }

  // The listener that hears everything, and stops where the other one goes on.
  predicate Alike(s: State, b: State) {
    && b.db == s.db && b.main == s.main && b.processing == s.processing
    && (b.hand == s.hand || (s.hand.Idle? && s.processing != [] && (b.hand.Popped? || b.hand.Committed?)))
  }

  // The step it takes instead; an acknowledgement during a recovery and the second half of a recovery
  // step outside one change nothing.
  function Instead(s: State, e: Event, b: State): Step {
    var nothing := if s.hand.Recovering? then Ack else RecoverPush;
    match e
    case PopUnheard => if s.hand.Idle? && s.main != [] then Pop else nothing
    case GiveUp => if s.hand.Committed? && s.processing == [] then Ack else nothing
    case Heard(t) =>
      if b.hand != s.hand && (t.Commit? || t.Ack? || t.AckUnheard? || t.Requeue?) then nothing else t
  }

  lemma StepAlike(s: State, e: Event, b: State)
    requires Alike(s, b) && InTurn(s, e) && (b.hand.Popped? ==> b.processing != [])
    ensures Alike(Next(s, e), Do(b, Instead(s, e, b)))
  {
    hide Apply, Raises, Outside, Known;
  }

  function PushedAll(s: State, events: seq<Event>): seq<Msg>
    decreases |events|
  {
    if events == [] then []
    else
      var e := events[0];
      (if e.Heard? && e.step.Push? && Known(s.db, e.step.msg) then [e.step.msg] else []) + PushedAll(Next(s, e), events[1..])
  }

  predicate Spares(s: State, e: Event) { (e.Heard? ==> OwnStep(e.step) && Harmless(s, e.step)) }

  predicate AllSpare(s: State, events: seq<Event>)
    decreases |events|
  {
    events != [] ==> Spares(s, events[0]) && AllSpare(Next(s, events[0]), events[1..])
  }

  lemma PoppedHeld(b: State, i: Ideal, x: Msg, n: nat)
    requires Rel(b, i, x, n)
    ensures b.hand.Popped? ==> b.processing != []
  {
  }

  // What is pushed, and where a crash does harm, is the same for both.
  lemma InsteadSame(s: State, e: Event, b: State)
    requires Alike(s, b)
    ensures var t := Instead(s, e, b);
            && (t.Push? <==> e.Heard? && e.step.Push?) && (t.Push? ==> e.step == t)
            && (Spares(s, e) ==> OwnStep(t) && Harmless(b, t))
  {
    hide Known, Settled;
  }

  // Taken in turn, a run with lost replies is a run of a listener that hears everything.
  lemma {:induction false} InTurnIsHeard(s: State, events: seq<Event>, b: State, i: Ideal, x: Msg, n: nat)
    returns (steps: seq<Step>)
    requires Alike(s, b) && Rel(b, i, x, n) && AllInTurn(s, events)
    ensures |steps| == |events| && Alike(RunAll(s, events), Run(b, steps)) && Pushed(b, steps) == PushedAll(s, events)
    ensures AllSpare(s, events) ==> AllHarmless(b, steps) && forall t :: t in steps ==> OwnStep(t)
    decreases |events|
  {
    hide Rel, Do, IdealDo, Next, Instead, Known, Harmless, InTurn, Spares, OwnStep;
    steps := [];
    if events != [] {
      var (e, t) := (events[0], Instead(s, events[0], b));
      PoppedHeld(b, i, x, n);
      StepAlike(s, e, b);
      InsteadSame(s, e, b);
      var y, k, ideal := Simulate(b, t, i, x, n);
      var rest := InTurnIsHeard(Next(s, e), events[1..], Do(b, t), IdealDo(i, ideal), y, k);
      steps := [t] + rest;
      assert steps[1..] == rest;
    }
  }

  predicate Empty(s: State) { s.main == [] && s.processing == [] && !InGap(s) }

  // Whatever replies are lost: if messages are taken in turn, the drained database is every pushed
  // message applied exactly once, in the order of the pushes.
  lemma StrayDrainedIsInOrder(db: Db, events: seq<Event>)
    requires Sized(db) && AllInTurn(Start(db), events) && AllSpare(Start(db), events) && Empty(RunAll(Start(db), events))
    ensures RunAll(Start(db), events).db == InOrder(db, PushedAll(Start(db), events))
  {
    hide Run, RunAll, Pushed, PushedAll, AllInTurn, AllSpare, AllHarmless, Rel, InOrder;
    StartRel(db);
    var steps := InTurnIsHeard(Start(db), events, Start(db), Ideal(db, []), Garbage, 0);
    DrainedIsInOrder(db, steps);
  }

  // ---- out of turn ----

  // The next message is taken, applied and acknowledged; then the listener restarts, and the one that
  // was left is delivered.
  const OVERTAKING: seq<Step> := [Pop, Commit, Ack, Crash, RecoverPop, RecoverPush, RecoverPop, Pop, Commit, Ack]

  function Hear(steps: seq<Step>): (events: seq<Event>)
    ensures |events| == |steps|
  {
    seq(|steps|, k requires 0 <= k < |steps| => Heard(steps[k]))
  }

  lemma {:induction false} HearRun(s: State, steps: seq<Step>)
    ensures RunAll(s, Hear(steps)) == Run(s, steps)
    decreases |steps|
  {
    hide Do;
    if steps != [] {
      assert Hear(steps)[1..] == Hear(steps[1..]);
      HearRun(Do(s, steps[0]), steps[1..]);
    }
  }

  lemma TakeOne(s: State, m: Msg)
    requires s.hand == Idle && s.main != [] && Last(s.main) == m && Known(s.db, m) && !Raises(s.db, m)
    ensures Do(Do(Do(s, Pop), Commit), Ack) == s.(db := Apply(s.db, m), main := Front(s.main))
  {
    hide Apply;
  }

  lemma Restarted(s: State, m: Msg)
    requires s.hand == Idle && s.processing == [m]
    ensures Do(Do(Do(Do(s, Crash), RecoverPop), RecoverPush), RecoverPop) == s.(main := s.main + [m], processing := [])
  {
  }

  // With one message left behind, taking the next one out of turn applies the two in the wrong order.
  lemma Overtaken(s: State, rest: seq<Msg>, first: Msg, second: Msg)
    requires s.hand == Idle && s.main == rest + [second] && s.processing == [first]
    requires Known(s.db, second) && !Raises(s.db, second)
    requires var db := Apply(s.db, second); Known(db, first) && !Raises(db, first)
    ensures RunAll(s, Hear(OVERTAKING)) == State(Apply(Apply(s.db, second), first), rest, [], Idle)
    ensures !AllInTurn(s, Hear(OVERTAKING))
  {
    hide Apply, Do, Known, Raises;
    var t := OVERTAKING;
    HearRun(s, t);
    TakeOne(s, second);
    var s3 := Do(Do(Do(s, Pop), Commit), Ack);
    Restarted(s3, first);
    var s7 := Do(Do(Do(Do(s3, Crash), RecoverPop), RecoverPush), RecoverPop);
    assert Front(rest + [second]) == rest && Front(rest + [first]) == rest;
    TakeOne(s7, first);
    UnfoldThree(s, t);
    UnfoldThree(s3, t[3..]);
    UnfoldThree(Do(Do(Do(s3, Crash), RecoverPop), RecoverPush), t[6..]);
    assert Hear(t)[0] == Heard(Pop);
  }

  lemma UnfoldThree(s: State, steps: seq<Step>)
    requires |steps| >= 3
    ensures Run(s, steps) == Run(Do(Do(Do(s, steps[0]), steps[1]), steps[2]), steps[3..])
  {
    hide Do;
    var a, b := steps[1..], steps[2..];
    assert a[1..] == b && b[1..] == steps[3..];
    var s1 := Do(s, steps[0]);
    var s2 := Do(s1, a[0]);
    assert Run(s2, b) == Run(Do(s2, b[0]), b[1..]);
    assert Run(s1, a) == Run(s2, b);
  }

  // ---- a failure undone ----

  function PlainReport(g: nat, status: Status): Msg {
    Report(Some(g), Some(status), None, TextToImage, None, None, None, None, None, None)
  }

  // A worker reports progress and then failure; the reply to the pop of the first report is lost.
  function LeftBehind(p: Msg, f: Msg): seq<Event> { [Heard(RecoverPop), Heard(Push(p)), Heard(Push(f)), PopUnheard] }

  lemma {:induction false} RunConcat(s: State, a: seq<Event>, b: seq<Event>)
    ensures RunAll(s, a + b) == RunAll(RunAll(s, a), b)
    ensures AllInTurn(s, a + b) ==> AllInTurn(RunAll(s, a), b)
    decreases |a|
  {
    hide Next, InTurn;
    if a == [] {
      assert a + b == b;
    } else {
      assert (a + b)[1..] == a[1..] + b;
      RunConcat(Next(s, a[0]), a[1..], b);
    }
  }

  lemma BehindState(db: Db, p: Msg, f: Msg)
    requires Known(db, p) && Known(db, f)
    ensures RunAll(Start(db), LeftBehind(p, f)) == State(db, [f], [p], Idle)
    ensures PushedAll(Start(db), LeftBehind(p, f)) == [p, f]
  {
    hide RunAll, PushedAll, Known;
    var e := LeftBehind(p, f);
    var s1 := Next(Start(db), e[0]);
    assert s1 == State(db, [], [], Idle);
    var s2 := Next(s1, e[1]);
    assert s2 == State(db, [p], [], Idle);
    var s3 := Next(s2, e[2]);
    assert s3 == State(db, [f, p], [], Idle);
    assert Front([f, p]) == [f];
    Unfold(Start(db), e);
    Unfold(s1, e[1..]);
    Unfold(s2, e[2..]);
    Unfold(s3, e[3..]);
    Unfold(Next(s3, e[3]), e[4..]);
  }

  lemma Unfold(s: State, events: seq<Event>)
    ensures events == [] ==> RunAll(s, events) == s && PushedAll(s, events) == []
    ensures events != [] ==>
              && RunAll(s, events) == RunAll(Next(s, events[0]), events[1..])
              && PushedAll(s, events) ==
                 (if events[0].Heard? && events[0].step.Push? && Known(s.db, events[0].step.msg) then [events[0].step.msg] else [])
                 + PushedAll(Next(s, events[0]), events[1..])
  {
    hide Next, Known;
  }

  // A failed row takes any status, so the progress report that comes back late undoes the failure.
  lemma LateProgress(db: Db, g: nat)
    requires Sized(db) && g < |db.rows| && db.rows[g].status == Pending && !db.rows[g].recoverable && !Raises(db, PlainReport(g, Failed))
    ensures var (p, f) := (PlainReport(g, Processing), PlainReport(g, Failed));
            && Known(Apply(db, f), p) && !Raises(Apply(db, f), p)
            && var late := Apply(Apply(db, f), p);
               |late.rows| == |late.bank.jobs| == |db.rows| && late.rows[g].status == Processing && late.bank.jobs[g].refunded
    ensures var (p, f) := (PlainReport(g, Processing), PlainReport(g, Failed));
            && InOrder(db, [p, f]) == Effect(Effect(db, p), f)
            && g < |InOrder(db, [p, f]).rows| && InOrder(db, [p, f]).rows[g].status == Failed
  {
    hide Credits.RefundBank;
    var (p, f) := (PlainReport(g, Processing), PlainReport(g, Failed));
    RefundMarks(db.bank, g);
    assert [p, f][1..] == [f] && [f][1..] == [];
    assert InOrder(Effect(db, p), [f]) == InOrder(Effect(Effect(db, p), f), []);
  }

  // From any database with a pending generation: the reports in order fail it, but after one lost
  // reply and a restart it is refunded and still counts as running.
  lemma StrayUndoesFailure(db: Db, g: nat)
    requires Sized(db) && g < |db.rows| && db.rows[g].status == Pending && !db.rows[g].recoverable && !Raises(db, PlainReport(g, Failed))
    ensures var (p, f) := (PlainReport(g, Processing), PlainReport(g, Failed));
            var events := LeftBehind(p, f) + Hear(OVERTAKING);
            var (e, ordered) := (RunAll(Start(db), events), InOrder(db, PushedAll(Start(db), LeftBehind(p, f))));
            && Empty(e) && !AllInTurn(Start(db), events)
            && g < |e.db.rows| && g < |e.db.bank.jobs| && e.db.rows[g].status == Processing && e.db.bank.jobs[g].refunded
            && g < |ordered.rows| && ordered.rows[g].status == Failed
  {
    hide RunAll, PushedAll, AllInTurn, InOrder, Apply, Raises;
    var (p, f) := (PlainReport(g, Processing), PlainReport(g, Failed));
    BehindState(db, p, f);
    LateProgress(db, g);
    assert [f] == [] + [f];
    Overtaken(State(db, [f], [p], Idle), [], p, f);
    RunConcat(Start(db), LeftBehind(p, f), Hear(OVERTAKING));
  }
}
