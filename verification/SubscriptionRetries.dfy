/** Every open cancellation stays scheduled for the retry job, which only looks at rows whose
    next_check_at is set (subscription_lifecycle.reconcile_cancellations). */
module SubscriptionRetries {
  import opened Common
  import opened Subscriptions
  import opened SubscriptionSafety
  import opened SubscriptionRuns

  predicate Retried(c: Contract) { Live(c) && Pending(c) ==> c.nextCheck.Some? }

  ghost predicate AllRetried(w: World) { forall k :: 0 <= k < |w.rows| ==> Retried(w.rows[k]) }

  ghost predicate AllRetriedBut(w: World, h: nat) { forall k :: 0 <= k < |w.rows| && k != h ==> Retried(w.rows[k]) }

  // ---- the failing branch ----

  // The existing row that recover_create merges attempt k into, if the reply names one.
  function LinkTarget(w: World, k: nat, a: CreateAnswer): (r: Option<nat>)
    requires k < |w.rows|
    ensures r.Some? ==> r.value < |w.rows| && r.value != k && Live(w.rows[r.value]) && w.rows[k].paypal.None? && a.reply.Some?
  {
    var c := w.rows[k];
    if c.paypal.Some? || !Replayable(w, c) || a.reply.None? then None
    else
      var d := a.reply.value;
      if !CreateReply(CreateCall(w, c.request.value, a.executes), c.request.value, d) || d.id.None?
         || (d.owner.Some? && d.owner != Some(w.me)) || (d.plan.Some? && d.plan != c.plan) || d.id.value in w.others
      then None
      else Find(w.rows, d.id.value)
  }

  // The merge moves an intent into an open row that has no check scheduled.
  predicate Moves(w: World, k: nat, a: CreateAnswer)
    requires k < |w.rows|
  {
    var e := LinkTarget(w, k, a);
    e.Some? && w.rows[k].cancelRequested.Some? && w.rows[e.value].cancelled.None? && w.rows[e.value].nextCheck.None?
  }

  // ... and the reply does not end that contract.
  predicate Strands(w: World, k: nat, a: CreateAnswer)
    requires k < |w.rows|
  {
    Live(w.rows[k]) && Moves(w, k, a) && !(a.reply.value.status.Some? && Terminal(a.reply.value.status.value))
  }

  // What select_contract may still do before its commit: the cutoff or another live contract has
  // the row cancelled anew, or the read of that other contract fails and everything is rolled back.
  predicate Rescheduled(r: World, e: nat, get: Option<Doc>)
    requires e < |r.rows|
  {
    || (r.cutoff.Some? && r.rows[e].created <= r.cutoff.value)
    || (var v := Contracts(r);
        v.pointer.Some?
        && var c := Find(v.rows, v.pointer.value);
           c.Some? && c.value != e && v.rows[c.value].cancelled.None?
           && (get.None?
               || (var f := Fetched(v, c.value, get); f.Some? && !Terminal(f.value.rows[c.value].status))))
  }

  // A cancellation whose create reply has an unknown status raises after the merge.
  predicate Lost(w: World, k: nat, a: CreateAnswer)
    requires k < |w.rows|
  {
    Moves(w, k, a) && a.reply.value.status.None?
  }

  // In a pass over the rows this matters when the other row had its turn before.
  predicate RoundForgets(w: World, order: seq<nat>, answers: seq<CancelAnswer>)
    requires |answers| == |order| && forall i :: 0 <= i < |order| ==> order[i] < |w.rows|
    decreases |order|
  {
    if order == [] then false
    else
      var k := order[0];
      if !Live(w.rows[k]) || w.rows[k].cancelRequested.None? then RoundForgets(w, order[1..], answers[1..])
      else
        || (Lost(w, k, answers[0].create) && LinkTarget(w, k, answers[0].create).value !in order[1..])
        || RoundForgets(CancelOne(w, k, answers[0]).0, order[1..], answers[1..])
  }

  predicate Forgets(w: World, t: Step) {
    match t
    case CheckoutSend(k, create, get) =>
      && k < |w.rows| && Strands(w, k, create)
      && var (r, row) := RecoverCreate(w, k, create);
         row.None? || !Rescheduled(r, row.value, get)
    case CancelRound(order, answers, commits) =>
      var v := Contracts(w);
      commits && Visits(order, |v.rows|) && |answers| == |order| && RoundForgets(v, order, answers)
    case _ => false
  }

  // ---- rows ----

  lemma RowRetried(w: World, k: nat, c: Contract)
    requires k < |w.rows| && AllRetriedBut(w, k)
    ensures AllRetriedBut(WithRow(w, k, c), k)
    ensures Retried(c) ==> AllRetried(WithRow(w, k, c))
  {
  }

  lemma ContractsRetried(w: World)
    requires AllRetried(w)
    ensures AllRetried(Contracts(w))
  {
  }

  lemma FetchedRetried(w: World, k: nat, answer: Option<Doc>)
    requires k < |w.rows| && w.rows[k].paypal.Some? && AllRetriedBut(w, k)
    ensures Fetched(w, k, answer).Some? ==>
              && AllRetriedBut(Fetched(w, k, answer).value, k)
              && (Retried(w.rows[k]) ==> AllRetried(Fetched(w, k, answer).value))
  {
  }

  // A document of the row's own contract: it raises exactly without a known status, ends an open
  // contract exactly with a terminal one, and otherwise leaves intents and schedule alone.
  lemma OwnDocument(w: World, c: Contract, d: Doc)
    requires Live(c) && RowOk(w, c) && c.paypal.Some? && (d.id.Some? ==> d.id == c.paypal) && (d.owner.Some? ==> d.owner == Some(w.me))
    ensures var r := ApplyStatus(w.me, c, d, w.now);
            && (r.None? <==> d.status.None?)
            && (r.Some? ==>
                  && Live(r.value) && r.value.paypal == c.paypal && r.value.request == c.request
                  && r.value.cancelRequested == c.cancelRequested && r.value.created == c.created
                  && (Terminal(d.status.value) ==> r.value.cancelled.Some?)
                  && (!Terminal(d.status.value) ==> r.value.cancelled == c.cancelled && r.value.nextCheck == c.nextCheck)
                  && (r.value.cancelled.None? ==> !Terminal(r.value.status)))
  {
  }

  // Without a merge only the attempt's own row is written, and its schedule stays.
  lemma RecoverAlone(w: World, k: nat, a: CreateAnswer)
    requires Inv(w) && k < |w.rows| && Live(w.rows[k]) && LinkTarget(w, k, a).None?
    ensures var (v, row) := RecoverCreate(w, k, a);
            && (forall j :: 0 <= j < |w.rows| && j != k ==> v.rows[j] == w.rows[j])
            && (Retried(w.rows[k]) ==> Retried(v.rows[k]))
            && (row.Some? ==> row.value == k)
  {
    hide Inv;
    RowOkAt(w, k);
  }

  lemma LinkedRows(w: World, k: nat, n: nat, e: nat)
    requires k < |w.rows| && w.rows[k].paypal.None? && Find(w.rows, n) == Some(e) && e != k && Live(w.rows[k])
    ensures var (v, h) := Linked(w, k, n);
            && h == e && |v.rows| == |w.rows| && !Live(v.rows[k]) && Live(v.rows[e])
            && (forall j :: 0 <= j < |w.rows| && j != k && j != e ==> v.rows[j] == w.rows[j])
            && v.rows[e] == w.rows[e].(request := w.rows[k].request, createRequested := w.rows[k].createRequested,
                                       cancelRequested := Either(w.rows[e].cancelRequested, w.rows[k].cancelRequested))
  {
  }

  // A merge deletes the attempt and writes the row it is merged into.
  lemma RecoverMerges(w: World, k: nat, a: CreateAnswer, e: nat)
    requires Inv(w) && k < |w.rows| && Live(w.rows[k]) && LinkTarget(w, k, a) == Some(e)
    ensures var (v, row) := RecoverCreate(w, k, a);
            var (status, x, y) := (a.reply.value.status, w.rows[e], v.rows[e]);
            && (forall j :: 0 <= j < |w.rows| && j != k && j != e ==> v.rows[j] == w.rows[j])
            && !Live(v.rows[k]) && Live(y) && y.paypal == x.paypal && y.paypal.Some? && y.request == w.rows[k].request && y.created == x.created
            && y.cancelRequested == Either(x.cancelRequested, w.rows[k].cancelRequested)
            && row == (if status.Some? then Some(e) else None)
            && (if status.Some? && Terminal(status.value) then y.cancelled.Some?
                else y.cancelled == x.cancelled && y.nextCheck == x.nextCheck)
            && (row.Some? && y.cancelled.None? ==> !Terminal(y.status))
  {
    hide Inv, Linked, ApplyStatus;
    var c, d := w.rows[k], a.reply.value;
    var called := CreateCall(w, c.request.value, a.executes);
    assert called.rows == w.rows;
    LinkedRows(called, k, d.id.value, e);
    var linked := Linked(called, k, d.id.value).0;
    CreateCallInv(w, k, a.executes);
    RowOkAt(called, k);
    LinkedInv(called, k, d.id.value);
    RowOkAt(linked, e);
    SameOthers(w, called);
    SameOthers(called, linked);
    OwnDocument(linked, linked.rows[e], d);
  }

  // A row with a contract id ends its turn closed or scheduled again.
  lemma TurnRetries(w: World, k: nat, a: CancelAnswer)
    requires Inv(w) && k < |w.rows| && Live(w.rows[k]) && w.rows[k].paypal.Some? && w.rows[k].cancelled.None?
    ensures var v := match Fetched(w, k, a.get)
              case None => Unconfirmed(w, k)
              case Some(f) => if Terminal(f.rows[k].status) then Confirmed(f, k) else Stop(f, k, a).0;
            |v.rows| == |w.rows| && Retried(v.rows[k]) && forall j :: 0 <= j < |w.rows| && j != k ==> v.rows[j] == w.rows[j]
  {
    hide Inv;
    FetchedInv(w, k, a.get);
    var f := Fetched(w, k, a.get);
    if f.Some? && !Terminal(f.value.rows[k].status) {
      StopInv(f.value, k, a);
      StopRow(f.value, k, a);
    }
  }

  lemma StopRow(w: World, k: nat, a: CancelAnswer)
    requires Inv(w) && k < |w.rows| && Live(w.rows[k]) && w.rows[k].paypal.Some?
    ensures var v := Stop(w, k, a).0;
            Retried(v.rows[k]) && forall j :: 0 <= j < |w.rows| && j != k ==> v.rows[j] == w.rows[j]
  {
    hide Inv;
    RowOkAt(w, k);
  }

  // What a turn does to each row: its own row is closed or scheduled again, and the row it merged
  // into as well, unless the reply had an unknown status.
  lemma CancelOneRows(w: World, k: nat, a: CancelAnswer)
    requires Inv(w) && k < |w.rows| && Live(w.rows[k]) && w.rows[k].cancelRequested.Some?
    ensures var v := CancelOne(w, k, a).0;
            var e := LinkTarget(w, k, a.create);
            && (forall j :: 0 <= j < |w.rows| && j != k && e != Some(j) ==> v.rows[j] == w.rows[j])
            && Retried(v.rows[k])
            && (e.Some? ==> (Retried(v.rows[e.value]) <==> !Lost(w, k, a.create)))
            && (e.Some? && Lost(w, k, a.create) ==> v.rows[e.value].request == w.rows[k].request && Live(v.rows[e.value]))
  {
    hide Inv, RecoverCreate, Fetched, Stop, LinkTarget;
    var (r, row) := RecoverCreate(w, k, a.create);
    RecoverCreateInv(w, k, a.create);
    if LinkTarget(w, k, a.create).None? { RecoverAlone(w, k, a.create); }
    else { RecoverMerges(w, k, a.create, LinkTarget(w, k, a.create).value); }
    if row.Some? && r.rows[row.value].cancelled.None? { TurnRetries(r, row.value, a); }
  }

  // ---- a pass over the rows ----

  // Rows without a schedule still have their turn.
  ghost predicate Owed(w: World, order: seq<nat>) {
    forall j :: 0 <= j < |w.rows| && !Retried(w.rows[j]) ==> j in order
  }

  ghost predicate Stuck(w: World, j: nat) { j < |w.rows| && !Retried(w.rows[j]) && w.rows[j].request.Some? }

  // No other attempt has the request of a merged row, so nothing touches it any more.
  lemma TurnLeavesStuck(w: World, k: nat, a: CancelAnswer, j: nat)
    requires Inv(w) && Stuck(w, j) && k != j && k < |w.rows| && Live(w.rows[k]) && w.rows[k].cancelRequested.Some?
    ensures Stuck(CancelOne(w, k, a).0, j)
  {
    hide Inv, CancelOne;
    CancelOneRows(w, k, a);
    RowOkAt(w, k);
    RowOkAt(w, j);
    if LinkTarget(w, k, a.create) == Some(j) {
      DistinctRows(w, j, k);
      SentKeepsRemote(w, k, a.create);
    }
  }

  // A reply that names a contract known before the call names the one made by this request.
  lemma SentKeepsRemote(w: World, k: nat, a: CreateAnswer)
    requires k < |w.rows| && LinkTarget(w, k, a).Some?
    ensures var e := LinkTarget(w, k, a).value;
            w.rows[e].paypal == a.reply.value.id && w.rows[e].paypal.Some?
            && (w.rows[e].paypal.value < |w.remote| ==> w.remote[w.rows[e].paypal.value].request == w.rows[k].request)
  {
  }

  lemma {:induction false} RoundStuck(w: World, order: seq<nat>, answers: seq<CancelAnswer>, j: nat)
    requires Inv(w) && Stuck(w, j) && j !in order
    requires |answers| == |order| && forall i :: 0 <= i < |order| ==> order[i] < |w.rows|
    ensures Stuck(Round(w, order, answers).0, j)
    decreases |order|
  {
    hide Inv, Stuck, CancelOne;
    if order != [] {
      var k := order[0];
      assert k in order;
      if !Live(w.rows[k]) || w.rows[k].cancelRequested.None? {
        RoundStuck(w, order[1..], answers[1..], j);
      } else {
        CancelOneInv(w, k, answers[0]);
        TurnLeavesStuck(w, k, answers[0], j);
        RoundStuck(CancelOne(w, k, answers[0]).0, order[1..], answers[1..], j);
      }
    }
  }

  lemma {:induction false} RoundRetriedIff(w: World, order: seq<nat>, answers: seq<CancelAnswer>)
    requires Inv(w) && Owed(w, order)
    requires |answers| == |order| && forall i :: 0 <= i < |order| ==> order[i] < |w.rows|
    ensures AllRetried(Round(w, order, answers).0) <==> !RoundForgets(w, order, answers)
    decreases |order|
  {
    hide Inv, CancelOne, LinkTarget, Lost;
    if order != [] {
      var (k, tail) := (order[0], order[1..]);
      assert order == [k] + tail;
      if !Live(w.rows[k]) || w.rows[k].cancelRequested.None? {
        RoundRetriedIff(w, tail, answers[1..]);
      } else {
        var v := CancelOne(w, k, answers[0]).0;
        CancelOneInv(w, k, answers[0]);
        CancelOneRows(w, k, answers[0]);
        var e := LinkTarget(w, k, answers[0].create);
        if Lost(w, k, answers[0].create) && e.Some? && e.value !in tail {
          RowOkAt(w, k);
          LostHasRequest(w, k, answers[0].create);
          RoundStuck(v, tail, answers[1..], e.value);
        } else {
          LostLinks(w, k, answers[0].create);
          RoundRetriedIff(v, tail, answers[1..]);
        }
      }
    }
  }

  lemma LostHasRequest(w: World, k: nat, a: CreateAnswer)
    requires k < |w.rows| && Lost(w, k, a)
    ensures w.rows[k].request.Some?
  {
  }

  lemma LostLinks(w: World, k: nat, a: CreateAnswer)
    requires k < |w.rows|
    ensures Lost(w, k, a) ==> LinkTarget(w, k, a).Some?
  {
  }

  // ---- the other transactions ----

  lemma RecoverRetried(w: World, k: nat, a: CreateAnswer)
    requires Inv(w) && AllRetried(w) && k < |w.rows| && Live(w.rows[k])
    ensures var (v, row) := RecoverCreate(w, k, a);
            && (!Strands(w, k, a) ==> AllRetried(v))
            && (Strands(w, k, a) ==>
                  var e := LinkTarget(w, k, a).value;
                  && AllRetriedBut(v, e) && Live(v.rows[e]) && Pending(v.rows[e]) && v.rows[e].nextCheck.None?
                  && (row.Some? ==> row.value == e && !Terminal(v.rows[e].status)))
  {
    hide Inv, RecoverCreate, LinkTarget;
    RowOkAt(w, k);
    var e := LinkTarget(w, k, a);
    RetriedAt(w, k);
    if e.None? { RecoverAlone(w, k, a); } else { RecoverMerges(w, k, a, e.value); RetriedAt(w, e.value); }
  }

  lemma {:induction false} RefreshRetried(w: World, k: nat, replies: seq<RefreshAnswer>)
    requires Inv(w) && AllRetried(w) && |replies| == |w.rows|
    ensures AllRetried(Refresh(w, k, replies).0)
    decreases |replies| - k
  {
    hide Inv, AllRetried, RecoverCreate, Fetched;
    if k < |w.rows| {
      if !Live(w.rows[k]) {
        RefreshRetried(w, k + 1, replies);
      } else if !Pending(w.rows[k]) {
        RowOkAt(w, k);
        RecoverCreateInv(w, k, replies[k].create);
        RecoverRetried(w, k, replies[k].create);
        var (r, row) := RecoverCreate(w, k, replies[k].create);
        if row.Some? {
          FetchedInv(r, row.value, replies[k].get);
          ButOne(r, row.value);
          FetchedRetried(r, row.value, replies[k].get);
          RetriedAt(r, row.value);
          var next := if r.rows[row.value].cancelled.Some? then Some(r) else Fetched(r, row.value, replies[k].get);
          if next.Some? { RefreshRetried(next.value, k + 1, replies); }
        }
      }
    }
  }

  lemma ButOne(w: World, h: nat)
    requires AllRetried(w)
    ensures AllRetriedBut(w, h)
  {
  }

  lemma RetriedAt(w: World, k: nat)
    requires AllRetried(w) && k < |w.rows|
    ensures Retried(w.rows[k])
  {
  }

  lemma SelectRetried(w: World, k: nat, explicit: bool, get: Option<Doc>)
    requires AllRetried(w) && Inv(w) && k < |w.rows| && Live(w.rows[k]) && w.rows[k].paypal.Some?
    ensures AllRetried(Select(w, k, explicit, get).0)
  {
    hide Inv, AllRetried, Fetched, ApplyStatus;
    AskedInv(w, k);
    var v := Asked(w, k);
    AskedRetried(w, k);
    FinishRows(v, k);
    var current := if v.pointer.Some? then Find(v.rows, v.pointer.value) else None;
    if current.Some? && current.value != k && !Terminal(v.rows[k].status) {
      var c := current.value;
      ButOne(v, c);
      FetchedRetried(v, c, get);
      RetriedAt(v, c);
      var asked := if v.rows[c].cancelled.Some? then Some(v) else Fetched(v, c, get);
      if asked.Some? {
        var u := asked.value;
        ButOne(u, k);
        RowRetried(u, k, RequestCancel(u.rows[k], w.now));
        FinishRows(u, k);
        FinishRows(WithRow(u, k, RequestCancel(u.rows[k], w.now)), k);
      }
    }
  }

  lemma AskedRetried(w: World, k: nat)
    requires AllRetried(w) && k < |w.rows|
    ensures AllRetried(Asked(w, k))
  {
    var row := if w.cutoff.Some? && w.rows[k].created <= w.cutoff.value then RequestCancel(w.rows[k], w.now) else w.rows[k];
    RowRetried(w, k, row);
    ContractsRetried(WithRow(w, k, row));
  }

  lemma FinishRows(w: World, k: nat)
    requires k < |w.rows| && AllRetried(w)
    ensures AllRetried(Finish(w, k, true).0) && AllRetried(Finish(w, k, false).0)
    ensures forall choose :: AllRetried(Finish(w, k, choose).0)
  {
  }

  lemma RememberRetried(w: World, n: nat, d: Doc)
    requires AllRetried(w)
    ensures Remember(w, n, d).Some? ==> AllRetried(Remember(w, n, d).value.0)
  {
    hide Contracts;
    ContractsRetried(w);
  }

  lemma RowsOnly(v: World, w: World)
    requires AllRetried(v)
    ensures w.rows == v.rows ==> AllRetried(w)
  {
  }

  lemma IntentRetried(w: World)
    requires AllRetried(w)
    ensures AllRetried(Intent(w))
  {
    ContractsRetried(w);
  }

  lemma ReserveRetried(w: World, plan: nat)
    requires AllRetried(w)
    ensures AllRetried(Reserve(w, plan))
  {
  }

  lemma FinishSame(w: World, k: nat, choose: bool)
    requires k < |w.rows|
    ensures Finish(w, k, choose).0.rows == w.rows && !Finish(w, k, choose).1.Raised?
  {
  }

  // Selecting a stranded row: it is scheduled again exactly in the cases of Rescheduled.
  lemma SelectStrandedIff(r: World, e: nat, get: Option<Doc>)
    requires Inv(r) && AllRetriedBut(r, e) && e < |r.rows| && Live(r.rows[e]) && r.rows[e].paypal.Some?
    requires Pending(r.rows[e]) && r.rows[e].nextCheck.None? && !Terminal(r.rows[e].status)
    ensures var (s, outcome) := Select(r, e, true, get);
            (outcome.Raised? && get.None?) || AllRetried(s) <==> Rescheduled(r, e, get)
  {
    hide Inv, AllRetried, AllRetriedBut, Fetched, Finish, Asked;
    AskedInv(r, e);
    AskedStranded(r, e);
    var v := Asked(r, e);
    CommonRows(v, e);
    var current := if v.pointer.Some? then Find(v.rows, v.pointer.value) else None;
    FinishSame(v, e, true);
    RowsAgree(v, Finish(v, e, true).0);
    if current.Some? && current.value != e {
      var c := current.value;
      FetchedInv(v, c, get);
      FetchedRow(v, c, get);
      RecordedEnd(v, c);
      var asked := if v.rows[c].cancelled.Some? then Some(v) else Fetched(v, c, get);
      if asked.Some? {
        var u := asked.value;
        OthersAgree(v, u, e, c);
        var z := WithRow(u, e, RequestCancel(u.rows[e], r.now));
        RowRetried(u, e, RequestCancel(u.rows[e], r.now));
        FinishSame(u, e, true);
        FinishSame(u, e, false);
        FinishSame(z, e, false);
        RowsAgree(u, Finish(u, e, true).0);
        RowsAgree(u, Finish(u, e, false).0);
        RowsAgree(z, Finish(z, e, false).0);
      }
    }
  }

  // After the cutoff test: scheduled if late, else the row is as it was.
  lemma AskedStranded(r: World, e: nat)
    requires AllRetriedBut(r, e) && e < |r.rows| && Live(r.rows[e]) && Pending(r.rows[e]) && r.rows[e].nextCheck.None?
    ensures var v := Asked(r, e);
            if r.cutoff.Some? && r.rows[e].created <= r.cutoff.value then AllRetried(v) && Live(v.rows[e]) && Pending(v.rows[e]) && v.rows[e].nextCheck.Some? && v.rows[e].status == r.rows[e].status
            else v == Contracts(r) && AllRetriedBut(v, e) && v.rows[e] == r.rows[e] && !AllRetried(v)
  {
    if !(r.cutoff.Some? && r.rows[e].created <= r.cutoff.value) {
      SameRow(r, e);
      assert !Retried(Contracts(r).rows[e]);
    }
  }

  lemma RowsAgree(v: World, w: World)
    requires w.rows == v.rows
    ensures AllRetried(w) <==> AllRetried(v)
  {
  }

  lemma FetchedRow(w: World, c: nat, answer: Option<Doc>)
    requires c < |w.rows| && w.rows[c].paypal.Some? && Retried(w.rows[c])
    ensures Fetched(w, c, answer).Some? ==> answer.Some? && Retried(Fetched(w, c, answer).value.rows[c])
  {
  }

  // Reading another contract schedules and unschedules nothing.
  lemma OthersAgree(v: World, u: World, e: nat, c: nat)
    requires e < |v.rows| && c < |v.rows| && c != e && |u.rows| == |v.rows| && AllRetriedBut(v, e)
    requires forall j :: 0 <= j < |v.rows| && j != c ==> u.rows[j] == v.rows[j]
    requires Retried(u.rows[c])
    ensures AllRetriedBut(u, e) && (AllRetried(u) <==> Retried(v.rows[e]))
  {
  }

  lemma CommonRows(w: World, e: nat)
    ensures AllRetried(w) ==> AllRetriedBut(w, e)
    ensures e < |w.rows| && AllRetriedBut(w, e) ==> (AllRetried(w) <==> Retried(w.rows[e]))
    ensures forall k :: 0 <= k < |w.rows| && k != e && AllRetriedBut(w, e) ==> Retried(w.rows[k])
  {
  }

  // ---- one step, exactly ----

  lemma SendRetriedIff(w: World, k: nat, create: CreateAnswer, get: Option<Doc>)
    requires Inv(w) && AllRetried(w) && k < |w.rows| && Live(w.rows[k])
    ensures AllRetried(Send(w, k, create, get)) <==> !Forgets(w, CheckoutSend(k, create, get))
  {
    hide Inv, AllRetried, RecoverCreate, Select, Strands, Rescheduled;
    RecoverCreateInv(w, k, create);
    RecoverRetried(w, k, create);
    var (r, row) := RecoverCreate(w, k, create);
    StrandedNow(w, k, create);
    if Strands(w, k, create) { CommonRows(r, LinkTarget(w, k, create).value); }
    if row.Some? {
      var s := Select(r, row.value, true, get).0;
      RowsAgree(w, RolledBack(w, s));
      if Strands(w, k, create) {
        SelectStrandedIff(r, row.value, get);
      } else {
        SelectRetried(r, row.value, true, get);
      }
    }
  }

  lemma StrandedNow(w: World, k: nat, a: CreateAnswer)
    requires k < |w.rows|
    ensures Strands(w, k, a) ==> LinkTarget(w, k, a).Some?
  {
  }

  lemma RoundStepRetriedIff(w: World, order: seq<nat>, answers: seq<CancelAnswer>, commits: bool)
    requires Inv(w) && AllRetried(w)
    ensures AllRetried(Do(w, CancelRound(order, answers, commits))) <==> !Forgets(w, CancelRound(order, answers, commits))
  {
    hide Inv, Round, RoundForgets, Contracts;
    var v := Contracts(w);
    ContractsInv(w);
    ContractsRetried(w);
    if Visits(order, |v.rows|) && |answers| == |order| {
      RoundRetriedIff(v, order, answers);
      RowsAgree(w, RolledBack(w, Round(v, order, answers).0));
    }
  }

  lemma OwnRetried(w: World, k: nat, a: CancelAnswer)
    requires Inv(w) && AllRetried(w) && k < |w.rows| && Live(w.rows[k]) && Pending(w.rows[k]) && w.rows[k].paypal.Some?
    ensures AllRetried(CancelOne(w, k, a).0)
  {
    hide Inv, CancelOne;
    CancelOneRows(w, k, a);
  }

  // A step leaves an open cancellation without a check exactly when the merge of recover_create
  // moves the intent into an unscheduled open row and nothing later in the step catches it.
  lemma StepRetriedIff(w: World, t: Step)
    requires Inv(w) && AllRetried(w)
    ensures AllRetried(Do(w, t)) <==> !Forgets(w, t)
  {
    hide Inv, AllRetried, Round, CancelOne, Refresh, RecoverCreate, Select, Remember, Contracts, RoundForgets, Strands, Send;
    RowsOnly(w, Do(w, t));
    match t {
      case Event(n, d, explicit, get) =>
        if Truthful(w, n, d) && Remember(w, n, d).Some? {
          RememberInv(w, n, d);
          RememberRetried(w, n, d);
          var (r, k) := Remember(w, n, d).value;
          SelectRetried(r, k, explicit, get);
        }
      case CancelIntent => IntentRetried(w);
      case CancelRound(order, answers, commits) => RoundStepRetriedIff(w, order, answers, commits);
      case Retry(k, a, commits) =>
        if k < |w.rows| && Live(w.rows[k]) && Pending(w.rows[k]) && w.rows[k].paypal.Some? { OwnRetried(w, k, a); }
      case CheckoutOpen(plan, replies, commits) =>
        ContractsInv(w);
        ContractsRetried(w);
        if |replies| == |Contracts(w).rows| {
          RefreshRetried(Contracts(w), 0, replies);
          ReserveRetried(Refresh(Contracts(w), 0, replies).0, plan);
        }
      case CheckoutSend(k, create, get) =>
        if k < |w.rows| && Live(w.rows[k]) { SendRetriedIff(w, k, create, get); } else { DeadSends(w, k, create, get); }
      case _ =>
    }
  }

  lemma DeadSends(w: World, k: nat, create: CreateAnswer, get: Option<Doc>)
    requires k >= |w.rows| || !Live(w.rows[k])
    ensures !Forgets(w, CheckoutSend(k, create, get))
  {
  }

  // ---- whole runs ----

  predicate NeverForgets(w: World, steps: seq<Step>)
    decreases |steps|
  {
    steps != [] ==> !Forgets(w, steps[0]) && NeverForgets(Do(w, steps[0]), steps[1..])
  }

  ghost predicate AlwaysRetried(w: World, steps: seq<Step>)
    decreases |steps|
  {
    AllRetried(w) && (steps != [] ==> AlwaysRetried(Do(w, steps[0]), steps[1..]))
  }

  // Every open cancellation is scheduled in every state of a run exactly when no step forgets.
  lemma {:induction false} CancellationsStayScheduled(w: World, steps: seq<Step>)
    requires Inv(w) && AllRetried(w)
    ensures AlwaysRetried(w, steps) <==> NeverForgets(w, steps)
    ensures NeverForgets(w, steps) ==> AllRetried(Run(w, steps))
    decreases |steps|
  {
    hide Inv, AllRetried, Do, Forgets;
    if steps != [] {
      StepInv(w, steps[0]);
      StepRetriedIff(w, steps[0]);
      if AllRetried(Do(w, steps[0])) { CancellationsStayScheduled(Do(w, steps[0]), steps[1..]); }
      else { Later(Do(w, steps[0]), steps[1..]); }
    }
  }

  lemma Later(w: World, steps: seq<Step>)
    requires !AllRetried(w)
    ensures !AlwaysRetried(w, steps)
  {
  }

  // ---- two runs that forget ----

  const SILENT: CancelAnswer := CancelAnswer(CreateAnswer(true, None), None, false, false, None)

  // A checkout is opened and cancelled before its create call; the cancellation's call is executed
  // but unanswered; a webhook records the contract.
  function OverlapSteps(w: World, plan: nat): seq<Step> {
    [CheckoutOpen(plan, [], true), CancelIntent, Tick(1), CancelRound([0], [SILENT], true), Event(0, Created(w), false, None)]
  }

  function Created(w: World): Doc { Doc(Some(0), None, Some(ApprovalPending), None, None, Some(w.now + 1)) }

  // Then the checkout's own call is answered, with a contract that is still open ...
  function AnsweredCheckout(w: World, plan: nat): seq<Step> {
    OverlapSteps(w, plan) + [CheckoutSend(0, CreateAnswer(false, Some(Created(w))), None)]
  }

  // ... or a pass of the retry job, which visits the webhook's row first, gets a create reply
  // whose status it does not know.
  function UncleanPass(w: World, plan: nat): seq<Step> {
    OverlapSteps(w, plan)
    + [CancelRound([1, 0], [SILENT, SILENT.(create := CreateAnswer(false, Some(Created(w).(status := None))))], true)]
  }

  lemma OpenThenCancel(w: World, plan: nat)
    requires Opening(w) && w.pointer.None? && w.remote == []
    ensures var v := Do(Do(Do(w, OverlapSteps(w, plan)[0]), CancelIntent), Tick(1));
            && v == w.(now := w.now + 1, cutoff := Some(w.now), requests := [w.now], rows := v.rows)
            && v.rows == [Contract(None, CreatePending, Some(plan), Some(0), Some(w.now), w.now, None,
                                   Some(w.now), None, Some(w.now), None)]
  {
    var a := Do(w, OverlapSteps(w, plan)[0]);
    assert a.rows == [Contract(None, CreatePending, Some(plan), Some(0), Some(w.now), w.now, None, None, None, None, None)];
    var b := Do(a, CancelIntent);
    assert b.rows == [RequestCancel(a.rows[0], w.now)];
  }

  lemma UnansweredPass(v: World, c: Contract)
    requires v.rows == [c] && v.pointer.None? && Live(c) && Pending(c) && c.paypal.None? && c.request == Some(0) && v.remote == []
    requires c.createRequested == Some(v.now - 1)
    ensures var r := Do(v, CancelRound([0], [SILENT], true));
            && r == v.(rows := [c.(nextCheck := Some(v.now + 60))], sent := v.sent + [Sent(0, v.now)],
                       remote := [Remote(ApprovalPending, Some(0), v.now)])
  {
    hide Round;
    VisitsAll([0], 1);
    assert Contracts(v) == v;
    var r := CancelOne(v, 0, SILENT).0;
    assert r.rows == [c.(nextCheck := Some(v.now + 60))];
    RoundOne(v, 0, SILENT);
  }

  lemma VisitsAll(order: seq<nat>, n: nat)
    requires (n == 1 && order == [0]) || (n == 2 && order == [1, 0])
    ensures Visits(order, n)
  {
    if n == 1 { assert 0 == order[0]; } else { assert 1 == order[0] && 0 == order[1]; }
  }

  lemma RoundOne(w: World, k: nat, a: CancelAnswer)
    requires k < |w.rows| && Live(w.rows[k]) && w.rows[k].cancelRequested.Some?
    ensures Round(w, [k], [a]).0 == CancelOne(w, k, a).0
  {
    hide CancelOne;
  }

  lemma WebhookRecords(r: World, c: Contract, d: Doc)
    requires r.rows == [c] && Live(c) && c.paypal.None? && r.pointer.None? && r.cutoff == Some(r.now - 1) && 0 !in r.others
    requires |r.remote| == 1 && d == Doc(Some(0), None, Some(ApprovalPending), None, None, Some(r.now))
    ensures var e := Do(r, Event(0, d, false, None));
            && e == r.(rows := e.rows, pointer := Some(0))
            && e.rows == [c, NewRow(0, r.now).(status := ApprovalPending)]
  {
    hide Find;
    FindNone(r.rows, 0);
    var u := r.rows + [NewRow(0, r.now)];
    assert u[1 := NewRow(0, r.now).(status := ApprovalPending)] == [c, NewRow(0, r.now).(status := ApprovalPending)];
    assert u[1] == NewRow(0, r.now);
  }

  lemma FindNone(rows: seq<Contract>, n: nat)
    requires forall k :: 0 <= k < |rows| ==> rows[k].paypal != Some(n)
    ensures Find(rows, n) == None
  {
  }

  // After the common steps: the attempt with its intent, and the webhook's row without one.
  ghost predicate Overlapped(e: World) {
    && |e.rows| == 2 && e.pointer == Some(0) && e.cutoff == Some(e.now - 1) && 0 !in e.others
    && |e.remote| == 1 && e.remote[0].request == Some(0)
    && e.rows[1] == NewRow(0, e.now).(status := ApprovalPending)
    && Live(e.rows[0]) && Pending(e.rows[0]) && e.rows[0].paypal.None? && e.rows[0].request == Some(0)
    && e.rows[0].createRequested == Some(e.now - 1) && e.rows[0].nextCheck.Some?
  }

  lemma OverlapReached(w: World, plan: nat)
    requires Opening(w) && w.pointer.None? && w.remote == [] && 0 !in w.others
    ensures Overlapped(Run(w, OverlapSteps(w, plan))) && Run(w, OverlapSteps(w, plan)).now == w.now + 1
  {
    hide Do;
    var steps := OverlapSteps(w, plan);
    var s3 := Do(Do(Do(w, steps[0]), steps[1]), steps[2]);
    OpenThenCancel(w, plan);
    UnansweredPass(s3, s3.rows[0]);
    var s4 := Do(s3, steps[3]);
    WebhookRecords(s4, s4.rows[0], Created(w));
    UnfoldFive(w, steps);
  }

  lemma UnfoldFive(w: World, steps: seq<Step>)
    requires |steps| == 5
    ensures Run(w, steps) == Do(Do(Do(Do(Do(w, steps[0]), steps[1]), steps[2]), steps[3]), steps[4])
  {
    hide Do;
    var a, b, c, d := steps[1..], steps[2..], steps[3..], steps[4..];
    assert a[1..] == b && b[1..] == c && c[1..] == d && d[1..] == [];
    var w1 := Do(w, steps[0]);
    var w2 := Do(w1, a[0]);
    var w3 := Do(w2, b[0]);
    var w4 := Do(w3, c[0]);
    assert Run(w4, d) == Run(Do(w4, d[0]), []);
    assert Run(w3, c) == Run(w4, d) && Run(w2, b) == Run(w3, c) && Run(w1, a) == Run(w2, b);
  }

  lemma {:induction false} RunLast(w: World, steps: seq<Step>, t: Step)
    ensures Run(w, steps + [t]) == Do(Run(w, steps), t)
    decreases |steps|
  {
    hide Do;
    if steps == [] {
      assert [] + [t] == [t];
      assert Run(w, [t]) == Run(Do(w, t), []);
    } else {
      assert (steps + [t])[1..] == steps[1..] + [t];
      RunLast(Do(w, steps[0]), steps[1..], t);
    }
  }

  lemma OverlapStrands(e: World, d: Doc)
    requires Overlapped(e) && d.id == Some(0) && d.owner.None? && d.plan.None?
    requires d.status.Some? ==> !Terminal(d.status.value)
    ensures Moves(e, 0, CreateAnswer(false, Some(d))) && LinkTarget(e, 0, CreateAnswer(false, Some(d))) == Some(1)
    ensures Strands(e, 0, CreateAnswer(false, Some(d)))
    ensures AllRetried(e) && Contracts(e) == e
  {
    hide Find;
    assert Live(e.rows[1]) && e.rows[1].paypal == Some(0);
    assert Find(e.rows, 0) == Some(1);
  }

  lemma CheckoutForgets(e: World, d: Doc)
    requires Inv(e) && Overlapped(e) && d == Doc(Some(0), None, Some(ApprovalPending), None, None, Some(e.now))
    ensures Forgets(e, CheckoutSend(0, CreateAnswer(false, Some(d)), None))
  {
    hide Inv, RecoverCreate, Find, Strands;
    var a := CreateAnswer(false, Some(d));
    OverlapStrands(e, d);
    RecoverMerges(e, 0, a, 1);
    SameFrame(e, 0, a);
    var r := RecoverCreate(e, 0, a).0;
    assert Live(r.rows[1]) && r.rows[1].paypal == Some(0);
    assert Find(r.rows, 0) == Some(1);
  }

  lemma SameFrame(w: World, k: nat, a: CreateAnswer)
    requires k < |w.rows|
    ensures var r := RecoverCreate(w, k, a).0; r.pointer == w.pointer && r.cutoff == w.cutoff && r.now == w.now
  {
  }

  lemma UncleanForgets(e: World, d: Doc)
    requires Overlapped(e) && d == Doc(Some(0), None, None, None, None, Some(e.now))
    ensures Forgets(e, CancelRound([1, 0], [SILENT, SILENT.(create := CreateAnswer(false, Some(d)))], true))
  {
    hide LinkTarget, Moves, CancelOne, Contracts;
    OverlapStrands(e, d);
    VisitsAll([1, 0], 2);
    var answers := [SILENT, SILENT.(create := CreateAnswer(false, Some(d)))];
    assert [1, 0][1..] == [0] && answers[1..] == [answers[1]] && [0][1..] == [];
    assert RoundForgets(e, [0], [answers[1]]);
  }

  // In both runs a surviving contract waits for its cancellation and the retry job never looks at it.
  lemma MergeForgetsRetry(w: World, plan: nat)
    requires Opening(w) && w.pointer.None? && w.remote == [] && 0 !in w.others
    ensures !AllRetried(Run(w, AnsweredCheckout(w, plan))) && !NeverForgets(w, AnsweredCheckout(w, plan))
    ensures !AllRetried(Run(w, UncleanPass(w, plan))) && !NeverForgets(w, UncleanPass(w, plan))
  {
    hide Do, AllRetried, Inv, Forgets, Overlapped, Run, NeverForgets, AlwaysRetried;
    var steps := OverlapSteps(w, plan);
    var e := Run(w, steps);
    OverlapReached(w, plan);
    OpeningInv(w);
    RunInv(w, steps);
    OverlapStrands(e, Created(w));
    CheckoutForgets(e, Created(w));
    UncleanForgets(e, Created(w).(status := None));
    LastForgets(w, steps, AnsweredCheckout(w, plan)[5]);
    LastForgets(w, steps, UncleanPass(w, plan)[5]);
  }

  lemma LastForgets(w: World, steps: seq<Step>, t: Step)
    requires Opening(w) && Inv(Run(w, steps)) && AllRetried(Run(w, steps)) && Forgets(Run(w, steps), t)
    ensures !AllRetried(Run(w, steps + [t])) && !NeverForgets(w, steps + [t])
  {
    hide Do, Inv, Forgets, Run, NeverForgets, AlwaysRetried;
    OpeningInv(w);
    RunLast(w, steps, t);
    StepRetriedIff(Run(w, steps), t);
    CancellationsStayScheduled(w, steps + [t]);
  }
}
