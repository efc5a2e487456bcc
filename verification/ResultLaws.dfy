/** When a report takes effect and what the row then holds, by the statuses and stages themselves
    (routers/generate.py:901-975), and what a drained listener has made of them. */
module ResultLaws {
  import opened Common
  import Credits
  import opened Results
  import opened ResultSafety

  // A running generation only moves forward; a status outside the pipeline counts as before it.
  predicate NotBack(current: Status, incoming: Status) {
    match current
    case Pending => incoming == Pending || incoming == Processing || incoming == PendingSkin || incoming == ProcessingSkin
    case Processing => incoming == Processing || incoming == PendingSkin || incoming == ProcessingSkin
    case PendingSkin => incoming == PendingSkin || incoming == ProcessingSkin
    case ProcessingSkin => incoming == ProcessingSkin
    case _ => true
  }

  // A failure of the first stages counts until the skin is under way, one of the later stages and one
  // without a stage in any case.
  predicate FailureCounts(current: Status, stage: Stage) {
    match stage
    case NoStage => true
    case TextToImage => current == Pending || current == Processing
    case ImageEdit => current == Pending || current == Processing
    case RealToRender => current == Pending || current == Processing
    case ImageToSkin => !current.Unlisted?
    case RenderToUv => !current.Unlisted?
  }

  // What a report may do to a row of each status.
  predicate Takes(current: Status, finished: bool, incoming: Status, stage: Stage) {
    match current
    case Deleted => false
    case Success => incoming == Success && !finished
    case Failed => true
    case _ =>
      if incoming == Success then true
      else if incoming == Failed then FailureCounts(current, stage)
      else NotBack(current, incoming)
  }

  predicate Effective(r: Row, m: Msg)
    requires m.Report?
  {
    && m.status.Some? && (m.model.None? || m.model.value == r.model)
    && Takes(r.status, r.status == Success && r.result.Some?, m.status.value, m.stage)
  }

  predicate About(db: Db, m: Msg, g: nat) { m.Report? && m.log == Some(g) && g < |db.rows| && |db.rows| == |db.bank.jobs| }

  // A committed report changes its row exactly when it takes effect, and then to what it says, field
  // by field; an internal artifact goes to the skin edit. Other rows and messages change nothing.
  lemma ReportEffect(db: Db, m: Msg, g: nat)
    requires About(db, m, g) && !Raises(db, m)
    ensures var (db', r) := (Apply(db, m), db.rows[g]);
            && |db'.rows| == |db.rows| && (forall k :: 0 <= k < |db.rows| && k != g ==> db'.rows[k] == db.rows[k])
            && (!Effective(r, m) ==> db' == db)
            && (Effective(r, m) ==>
                  var (r', inner) := (db'.rows[g], r.skingDdj && (m.stage == RealToRender || m.stage == RenderToUv));
                  && r'.status == m.status.value
                  && r'.result == (if m.result.Some? then m.result.value else r.result)
                  && r'.edited == (if m.edited.Some? && !inner then m.edited.value else r.edited)
                  && r'.skinEdited == (if m.edited.Some? && inner then m.edited.value
                                       else if m.skinEdited.Some? then m.skinEdited.value else r.skinEdited)
                  && r'.task == (if m.task.Some? then m.task.value else r.task)
                  && r'.submission == (if m.submission.Some? then m.submission.value else r.submission)
                  && r'.error == (if m.error.Some? then m.error.value else if m.status != Some(Failed) then None else r.error)
                  && r'.model == r.model && r'.skingDdj == r.skingDdj && r'.recoverable == r.recoverable)
  {
    hide Credits.RefundBank;
    EffectiveIsUpdate(db.rows[g], m);
  }

  lemma EffectiveIsUpdate(r: Row, m: Msg)
    requires m.Report?
    ensures Effective(r, m) <==> Updates(r, m)
  {
  }

  // The money follows: a failure that takes effect and cannot be recovered refunds the generation, and
  // no other report touches a balance.
  lemma FailureRefunds(db: Db, m: Msg, g: nat)
    requires About(db, m, g) && !Raises(db, m)
    ensures var fails := Effective(db.rows[g], m) && m.status == Some(Failed) && !db.rows[g].recoverable;
            && (fails ==> Apply(db, m).bank.jobs[g].refunded)
            && (!fails ==> Apply(db, m).bank == db.bank)
  {
    hide Credits.RefundBank;
    EffectiveIsUpdate(db.rows[g], m);
    RefundMarks(db.bank, g);
  }

  // The other writers of the rows: an accepted generation adds its pending row with its job, a finished
  // withdrawal leaves no artifact behind, and a credit movement changes no row.
  lemma OtherWriters(db: Db, user: nat, cost: nat, row: Row, g: nat, step: Credits.Step)
    requires Sized(db) && g < |db.rows| && !step.Charge? && !step.RefundJob?
    ensures var (e, bank) := (Outside(db, Generate(user, cost, row)), Credits.Do(db.bank, Credits.Charge(user, cost)));
            && (bank.jobs == db.bank.jobs ==> e == db)
            && (bank.jobs != db.bank.jobs ==>
                  e.bank == bank && |e.rows| == |db.rows| + 1 && e.rows[..|db.rows|] == db.rows && e.rows[|db.rows|].status == Pending)
    ensures var e := Outside(db, Withdraw(g));
            && e.bank == db.bank && |e.rows| == |db.rows| && (forall k :: 0 <= k < |db.rows| && k != g ==> e.rows[k] == db.rows[k])
            && e.rows[g].status == Deleted && e.rows[g].result.None? && e.rows[g].edited.None? && e.rows[g].skinEdited.None?
    ensures Outside(db, Bank(step)) == Db(db.rows, Credits.Do(db.bank, step))
  {
    ChargeJobs(db.bank, user, cost);
  }

  // ---- the first success ----

  // A row that can still finish.
  predicate Unfinished(r: Row) { r.status != Deleted && !(r.status == Success && r.result.Some?) }

  predicate Finishes(m: Msg, g: nat, model: nat, x: nat) {
    && m.Report? && m.log == Some(g) && m.status == Some(Success) && (m.model.None? || m.model == Some(model))
    && m.result == Some(Some(x))
  }

  // Reports that neither finish nor delete the row.
  predicate Harmless1(m: Msg, g: nat) {
    m.Report? && m.log == Some(g) ==> m.status != Some(Success) && m.status != Some(Deleted)
  }

  lemma SuccessNeverRaises(db: Db, m: Msg)
    requires Known(db, m) && m.Report? && m.status != Some(Failed)
    ensures !Raises(db, m)
  {
  }

  lemma StaysUnfinished(db: Db, m: Msg, g: nat)
    requires Sized(db) && g < |db.rows| && db.rows[g].status != Deleted && db.rows[g].status != Success && Harmless1(m, g)
    ensures var db' := Effect(db, m);
            Sized(db') && |db'.rows| == |db.rows| && db'.rows[g].status != Deleted && db'.rows[g].status != Success
            && db'.rows[g].model == db.rows[g].model
  {
    hide Apply;
    if Known(db, m) {
      ApplySized(db, m);
      if !About(db, m, g) {
        OtherRows(db, m, g);
      } else {
        if Raises(db, m) { RaisesNothing(db, m); } else { ReportEffect(db, m, g); }
      }
    }
  }

  lemma OtherRows(db: Db, m: Msg, g: nat)
    requires Known(db, m) && g < |db.rows| && !About(db, m, g)
    ensures g < |Apply(db, m).rows| && Apply(db, m).rows[g] == db.rows[g]
  {
  }

  lemma FinishedRow(db: Db, m: Msg, g: nat, x: nat)
    requires Sized(db) && g < |db.rows| && Unfinished(db.rows[g]) && Finishes(m, g, db.rows[g].model, x)
    ensures var db' := Effect(db, m);
            Sized(db') && |db'.rows| == |db.rows| && db'.rows[g].status == Success && db'.rows[g].result == Some(x)
  {
    hide Apply;
    SuccessNeverRaises(db, m);
    ApplySized(db, m);
    ReportEffect(db, m, g);
  }

  lemma {:induction false} FinishedStays(db: Db, list: seq<Msg>, g: nat)
    requires Sized(db) && g < |db.rows| && db.rows[g].status == Success && db.rows[g].result.Some?
    ensures g < |InOrder(db, list).rows| && InOrder(db, list).rows[g] == db.rows[g]
    decreases |list|
  {
    hide Apply;
    if list != [] {
      if Known(db, list[0]) {
        ApplySized(db, list[0]);
        ApplySpares(db, list[0], g);
      }
      FinishedStays(Effect(db, list[0]), list[1..], g);
    }
  }

  // Applied in order: the first success of a running generation stays, with its result.
  lemma {:induction false} FirstSuccess(db: Db, list: seq<Msg>, g: nat, k: nat, x: nat)
    requires Sized(db) && g < |db.rows| && db.rows[g].status != Deleted && db.rows[g].status != Success
    requires k < |list| && Finishes(list[k], g, db.rows[g].model, x)
    requires forall j :: 0 <= j < k ==> Harmless1(list[j], g)
    ensures g < |InOrder(db, list).rows|
    ensures InOrder(db, list).rows[g].status == Success && InOrder(db, list).rows[g].result == Some(x)
    decreases k
  {
    hide Effect;
    if k == 0 {
      FinishedRow(db, list[0], g, x);
      FinishedStays(Effect(db, list[0]), list[1..], g);
    } else {
      StaysUnfinished(db, list[0], g);
      assert list[1..][k - 1] == list[k];
      assert forall j :: 0 <= j < k - 1 ==> list[1..][j] == list[j + 1];
      FirstSuccess(Effect(db, list[0]), list[1..], g, k - 1, x);
    }
  }

  // However often messages are delivered and wherever the listener crashed without losing the next
  // one: once the lists are drained, a running generation for which a success was pushed has finished
  // with the result of its first success.
  lemma DrainedSuccess(db: Db, steps: seq<Step>, g: nat, k: nat, x: nat)
    requires Sized(db) && AllHarmless(Start(db), steps) && Drained(Run(Start(db), steps))
    requires forall t :: t in steps ==> OwnStep(t)
    requires g < |db.rows| && db.rows[g].status != Deleted && db.rows[g].status != Success
    requires var pushed := Pushed(Start(db), steps);
             && k < |pushed| && Finishes(pushed[k], g, db.rows[g].model, x)
             && forall j :: 0 <= j < k ==> Harmless1(pushed[j], g)
    ensures var e := Run(Start(db), steps).db;
            g < |e.rows| && e.rows[g].status == Success && e.rows[g].result == Some(x)
  {
    hide Run, Pushed, AllHarmless, InOrder, Finishes, Harmless1;
    DrainedIsInOrder(db, steps);
    FirstSuccess(db, Pushed(Start(db), steps), g, k, x);
  }

  // ---- one delivery ----

  // An undisturbed turn from any quiet state: the oldest report is committed, acknowledged and gone.
  lemma TurnDelivers(s: State, m: Msg, g: nat, x: nat)
    requires s.hand == Idle && s.main != [] && s.processing == [] && Last(s.main) == m
    requires Sized(s.db) && g < |s.db.rows| && Unfinished(s.db.rows[g]) && Finishes(m, g, s.db.rows[g].model, x)
    ensures var e := Run(s, [Pop, Commit, Ack]);
            && e.main == Front(s.main) && e.processing == [] && e.hand == Idle
            && g < |e.db.rows| && e.db.rows[g].status == Success && e.db.rows[g].result == Some(x)
  {
    hide Apply, Raises;
    SuccessNeverRaises(s.db, m);
    FinishedRow(s.db, m, g, x);
    var steps := [Pop, Commit, Ack];
    var (s1, a, b) := (Do(s, Pop), steps[1..], steps[2..]);
    assert a[1..] == b && b[1..] == [];
    var s2 := Do(s1, a[0]);
    assert s2.processing == [m] && s2.hand == Committed(m);
    assert RemoveFirst([m], m) == [];
    assert Run(s2, b) == Run(Do(s2, b[0]), []);
    assert Run(s1, a) == Run(s2, b);
  }
}
