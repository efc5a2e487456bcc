/** What a checkout reserves, what a confirmed cancellation leaves, when a contract is selected or
    stopped, and one subscription from its checkout to its end (subscription_lifecycle.py). */
module SubscriptionLaws {
  import opened Common
  import opened Subscriptions
  import opened SubscriptionSafety
  import opened SubscriptionRuns

  // ---- what a checkout reserves ----

  function OpenRows(rows: seq<Contract>): set<nat> {
    set k: nat | k < |rows| && rows[k].merged.None? && rows[k].cancelled.None?
  }

  function Attempt(plan: nat, request: nat, now: Time): Contract {
    Contract(None, CreatePending, Some(plan), Some(request), Some(now), now, None, None, None, None, None)
  }

  lemma FirstIsOpen(rows: seq<Contract>)
    ensures var k := FirstOpen(rows);
            && (k < |rows| <==> OpenRows(rows) != {})
            && (k < |rows| ==> k in OpenRows(rows) && forall j :: j in OpenRows(rows) ==> k <= j)
  {
    var k := FirstOpen(rows);
    forall j | j in OpenRows(rows) ensures k <= j { assert Open(rows[j]); }
    if k < |rows| { assert k in OpenRows(rows); }
  }

  lemma OpenAfter(rows: seq<Contract>, k: nat)
    requires k < |rows| && k in OpenRows(rows) && forall j :: j in OpenRows(rows) ==> k <= j
    ensures FirstOpen(rows[k + 1..]) < |rows| - k - 1 <==> exists j :: j in OpenRows(rows) && j != k
  {
    var rest := rows[k + 1..];
    FirstIsOpen(rest);
    if FirstOpen(rest) < |rest| {
      assert rest[FirstOpen(rest)] == rows[k + 1 + FirstOpen(rest)];
      assert k + 1 + FirstOpen(rest) in OpenRows(rows);
    }
    if j :| j in OpenRows(rows) && j != k {
      assert rest[j - k - 1] == rows[j];
      assert j - k - 1 in OpenRows(rest);
    }
  }

  // A new attempt and a new request id are reserved exactly when no contract or attempt is open. With
  // exactly one, an active or suspended contract is selected and nothing else changes; with several
  // nothing changes.
  lemma ReservesIff(w: World, plan: nat)
    ensures var (v, open) := (Reserve(w, plan), OpenRows(w.rows));
            && (open == {} ==> v == w.(rows := w.rows + [Attempt(plan, |w.requests|, w.now)], requests := w.requests + [w.now]))
            && (open != {} ==> v.rows == w.rows && v.requests == w.requests && v == w.(pointer := v.pointer))
            && (forall k :: open == {k} ==>
                  v.pointer == if w.rows[k].status == Active || w.rows[k].status == Suspended then w.rows[k].paypal else w.pointer)
            && ((exists j, k :: j in open && k in open && j != k) ==> v == w)
  {
    FirstIsOpen(w.rows);
    var k := FirstOpen(w.rows);
    if k < |w.rows| { OpenAfter(w.rows, k); }
  }

  // So over a checkout: attempts and request ids grow exactly when the refresh went through, the
  // transaction commits and it left nothing open.
  lemma CheckoutReservesIff(w: World, plan: nat, replies: seq<RefreshAnswer>, commits: bool)
    requires |replies| == |Contracts(w).rows|
    ensures var (r, ok) := Refresh(Contracts(w), 0, replies);
            var v := Do(w, CheckoutOpen(plan, replies, commits));
            && (|v.requests| > |w.requests| <==> ok && commits && OpenRows(r.rows) == {})
            && (ok && commits && OpenRows(r.rows) == {} ==>
                  v.requests == w.requests + [w.now] && v.rows == r.rows + [Attempt(plan, |w.requests|, w.now)])
            && (!(ok && commits) ==> v.rows == w.rows && v.pointer == w.pointer)
  {
    hide Refresh, Reserve, OpenRows, Contracts;
    var r := Refresh(Contracts(w), 0, replies).0;
    RefreshFrame(Contracts(w), 0, replies);
    ContractsFrame(w);
    ReservesIff(r, plan);
  }

  lemma ContractsFrame(w: World)
    ensures Contracts(w).requests == w.requests && Contracts(w).now == w.now
  {
  }

  lemma RecoverFrame(w: World, k: nat, a: CreateAnswer)
    requires k < |w.rows|
    ensures var v := RecoverCreate(w, k, a).0; v.requests == w.requests && v.now == w.now
  {
  }

  lemma FetchFrame(w: World, k: nat, a: Option<Doc>)
    requires k < |w.rows| && w.rows[k].paypal.Some?
    ensures Fetched(w, k, a).Some? ==> Fetched(w, k, a).value == w.(rows := Fetched(w, k, a).value.rows)
  {
  }

  lemma {:induction false} RefreshFrame(w: World, k: nat, replies: seq<RefreshAnswer>)
    requires |replies| == |w.rows|
    ensures var v := Refresh(w, k, replies).0; v.requests == w.requests && v.now == w.now
    decreases |replies| - k
  {
    hide RecoverCreate, Fetched;
    if k < |w.rows| {
      if !Live(w.rows[k]) {
        RefreshFrame(w, k + 1, replies);
      } else if !Pending(w.rows[k]) {
        RecoverFrame(w, k, replies[k].create);
        var (r, row) := RecoverCreate(w, k, replies[k].create);
        if row.Some? {
          FetchFrame(r, row.value, replies[k].get);
          if r.rows[row.value].cancelled.Some? { RefreshFrame(r, k + 1, replies); }
          else if Fetched(r, row.value, replies[k].get).Some? {
            RefreshFrame(Fetched(r, row.value, replies[k].get).value, k + 1, replies);
          }
        }
      }
    }
  }

  // ---- what a refresh needs ----

  // The rows the checkout has nothing to wait for: ended ones, and contracts that are read without a
  // surprise.
  predicate Readable(c: Contract, a: RefreshAnswer) {
    Live(c) ==>
      && c.paypal.Some? && (c.cancelled.Some? || c.cancelRequested.None?)
      && (c.cancelled.None? ==>
            && a.get.Some? && a.get.value.id.None? && a.get.value.owner.None? && a.get.value.status.Some?
            && a.get.value.status != Some(Cancelled) && a.get.value.status != Some(Expired))
  }

  // If every row is readable the refresh goes through, and no row ends, is added or is merged.
  lemma {:induction false} RefreshGoesThrough(w: World, k: nat, replies: seq<RefreshAnswer>)
    requires Inv(w) && |replies| == |w.rows| && forall j :: k <= j < |w.rows| ==> Readable(w.rows[j], replies[j])
    ensures var (v, ok) := Refresh(w, k, replies);
            && ok && |v.rows| == |w.rows| && (forall j :: 0 <= j < k && j < |w.rows| ==> v.rows[j] == w.rows[j])
            && forall j :: 0 <= j < |w.rows| ==> v.rows[j].merged == w.rows[j].merged && v.rows[j].cancelled == w.rows[j].cancelled
    decreases |replies| - k
  {
    hide Inv, Fetched;
    if k < |w.rows| {
      if !Live(w.rows[k]) || w.rows[k].cancelled.Some? {
        RefreshGoesThrough(w, k + 1, replies);
      } else {
        ReadableFetched(w, k, replies[k]);
        FetchedInv(w, k, replies[k].get);
        RefreshGoesThrough(Fetched(w, k, replies[k].get).value, k + 1, replies);
      }
    }
  }

  lemma ReadableFetched(w: World, k: nat, a: RefreshAnswer)
    requires Inv(w) && k < |w.rows| && Live(w.rows[k]) && w.rows[k].cancelled.None? && Readable(w.rows[k], a)
    ensures var f := Fetched(w, k, a.get);
            && f.Some? && |f.value.rows| == |w.rows| && (forall j :: 0 <= j < |w.rows| && j != k ==> f.value.rows[j] == w.rows[j])
            && f.value.rows[k].merged.None? && f.value.rows[k].cancelled.None?
  {
    hide Inv;
    RowOkAt(w, k);
  }

  // A user whose contracts have all ended can subscribe again: a checkout reserves a new attempt.
  lemma EndedMaySubscribeAgain(w: World, plan: nat, replies: seq<RefreshAnswer>)
    requires Inv(w) && Contracts(w) == w && |replies| == |w.rows|
    requires forall j :: 0 <= j < |w.rows| && Live(w.rows[j]) ==> w.rows[j].paypal.Some? && w.rows[j].cancelled.Some?
    ensures Do(w, CheckoutOpen(plan, replies, true)) ==
            w.(rows := w.rows + [Attempt(plan, |w.requests|, w.now)], requests := w.requests + [w.now])
  {
    hide Inv;
    RefreshSkips(w, 0, replies);
    ReservesIff(w, plan);
    assert OpenRows(w.rows) == {};
  }

  lemma {:induction false} RefreshSkips(w: World, k: nat, replies: seq<RefreshAnswer>)
    requires |replies| == |w.rows|
    requires forall j :: 0 <= j < |w.rows| && Live(w.rows[j]) ==> w.rows[j].paypal.Some? && w.rows[j].cancelled.Some?
    ensures Refresh(w, k, replies) == (w, true)
    decreases |replies| - k
  {
    if k < |w.rows| { RefreshSkips(w, k + 1, replies); }
  }

  // An end that the checkout reads itself is recorded, and the new attempt is reserved behind it.
  lemma EndSeenAtCheckout(w: World, c: Contract, status: Status, plan: nat, create: CreateAnswer)
    requires Inv(w) && w.rows == [c] && Live(c) && c.paypal.Some? && c.cancelled.None? && c.cancelRequested.None? && Contracts(w) == w
    requires c.paypal.value < |w.remote| && Terminal(status) && Terminal(w.remote[c.paypal.value].status)
    ensures var answer := RefreshAnswer(create, Some(Doc(None, None, Some(status), None, None, None)));
            Do(w, CheckoutOpen(plan, [answer], true)) ==
            w.(rows := [c.(status := status, cancelled := Some(w.now), nextCheck := None), Attempt(plan, |w.requests|, w.now)],
               requests := w.requests + [w.now])
  {
    hide Inv, Reserve;
    RowOkAt(w, 0);
    var answer := RefreshAnswer(create, Some(Doc(None, None, Some(status), None, None, None)));
    var ended := c.(status := status, cancelled := Some(w.now), nextCheck := None);
    var r := w.(rows := [ended]);
    assert w.rows[0 := ended] == r.rows;
    assert Fetched(w, 0, answer.get) == Some(r);
    RefreshOne(w, r, answer);
    ReservesIff(r, plan);
    assert OpenRows(r.rows) == {};
    assert [ended] + [Attempt(plan, |w.requests|, w.now)] == [ended, Attempt(plan, |w.requests|, w.now)];
  }

  lemma RefreshOne(w: World, r: World, a: RefreshAnswer)
    requires |w.rows| == 1 && Live(w.rows[0]) && w.rows[0].paypal.Some? && w.rows[0].cancelled.None? && !Pending(w.rows[0])
    requires Fetched(w, 0, a.get) == Some(r) && |r.rows| == 1
    ensures Refresh(w, 0, [a]) == (r, true)
  {
    hide Fetched;
    assert Refresh(r, 1, [a]) == (r, true);
  }

  // A user with one active contract keeps it: a checkout adds nothing and selects it.
  lemma ActiveIsKept(w: World, plan: nat, replies: seq<RefreshAnswer>, k: nat)
    requires Inv(w) && Contracts(w) == w && |replies| == |w.rows| && OpenRows(w.rows) == {k}
    requires forall j :: 0 <= j < |w.rows| ==> Readable(w.rows[j], replies[j])
    ensures var v := Do(w, CheckoutOpen(plan, replies, true)); |v.rows| == |w.rows| && v.requests == w.requests
  {
    hide Inv, Refresh, Reserve;
    RefreshGoesThrough(w, 0, replies);
    RefreshFrame(w, 0, replies);
    var r := Refresh(w, 0, replies).0;
    ReservesIff(r, plan);
    assert OpenRows(r.rows) == OpenRows(w.rows);
    assert k in OpenRows(r.rows);
  }

  // ---- documents ----

  // A document is refused exactly when it is about another contract or user or has no known status. An
  // accepted one changes nothing once the end is recorded or when it is older than the last; otherwise
  // its status stands, and a terminal one records the end and takes the row off the schedule.
  lemma DocumentEffect(me: nat, c: Contract, d: Doc, now: Time)
    ensures var r := ApplyStatus(me, c, d, now);
            var older := d.status.Some? && d.status != Some(Cancelled) && d.status != Some(Expired)
                         && d.changed.Some? && c.updated.Some? && d.changed.value < c.updated.value;
            && (r.None? <==> d.status.None? || (d.id.Some? && d.id != c.paypal) || (d.owner.Some? && d.owner.value != me))
            && (r.Some? && (c.cancelled.Some? || older) ==> r.value == c)
            && (r.Some? && c.cancelled.None? && !older ==>
                  && Some(r.value.status) == d.status
                  && (d.status == Some(Cancelled) || d.status == Some(Expired) ==>
                        r.value.cancelled == Some(if d.changed.Some? then d.changed.value else now) && r.value.nextCheck.None?)
                  && (d.status != Some(Cancelled) && d.status != Some(Expired) ==>
                        r.value.cancelled.None? && r.value.nextCheck == c.nextCheck)
                  && r.value.plan == (if d.plan.Some? then d.plan else c.plan)
                  && r.value.updated == (if d.changed.Some? then d.changed else c.updated))
  {
  }

  // A contract that was never seen gets its own row, with the times and the status of the document; a
  // known one keeps its row.
  lemma RemembersContract(w: World, n: nat, d: Doc)
    requires w.pointer.None? && n !in w.others && d.id == Some(n) && (d.owner.Some? ==> d.owner == Some(w.me)) && d.status.Some?
    ensures var found := Find(w.rows, n);
            && Remember(w, n, d).Some?
            && var (v, k) := Remember(w, n, d).value;
               && v == w.(rows := v.rows) && v.rows[k].paypal == Some(n)
               && (found.Some? ==> k == found.value && |v.rows| == |w.rows| && forall j :: 0 <= j < |w.rows| && j != k ==> v.rows[j] == w.rows[j])
               && (found.None? ==>
                     && k == |w.rows| && v.rows[..k] == w.rows && |v.rows| == k + 1
                     && v.rows[k].status == d.status.value && v.rows[k].request.None? && v.rows[k].cancelRequested.None?
                     && v.rows[k].created == (if d.created.Some? then d.created.value else w.now)
                     && (v.rows[k].cancelled.Some? <==> d.status == Some(Cancelled) || d.status == Some(Expired)))
  {
  }

  // A selected contract from before the table existed is adopted as a row, once.
  lemma AdoptsSelected(w: World)
    ensures var known := w.pointer.None? || exists k :: 0 <= k < |w.rows| && Live(w.rows[k]) && w.rows[k].paypal == w.pointer;
            && (known ==> Contracts(w) == w)
            && (!known ==>
                  && Contracts(w) == w.(rows := w.rows + [Contract(w.pointer, w.shown, None, None, None, w.now, None, None, None, None, None)])
                  && Contracts(Contracts(w)) == Contracts(w))
  {
    if w.pointer.Some? && Find(w.rows, w.pointer.value).None? {
      var v := Contracts(w);
      assert v.rows[|w.rows|].paypal == w.pointer && Live(v.rows[|w.rows|]);
    }
  }

  // An attempt is sent, with its own request id, exactly while the id is less than 71 hours old.
  lemma SendsIff(w: World, k: nat, a: CreateAnswer)
    requires k < |w.rows| && w.rows[k].paypal.None? && w.rows[k].request.Some? && w.rows[k].createRequested.Some?
    ensures var v := RecoverCreate(w, k, a).0;
            v.sent == if w.now < w.rows[k].createRequested.value + 71 * HOUR then w.sent + [Sent(w.rows[k].request.value, w.now)] else w.sent
  {
  }

  // ---- cancellation ----

  // The contract is read as still open, and the cancel call is confirmed.
  predicate Cooperates(a: CancelAnswer) {
    && a.get.Some? && a.get.value.id.None? && a.get.value.owner.None? && a.get.value.changed.None?
    && a.get.value.status.Some? && !Terminal(a.get.value.status.value)
    && a.confirmed
  }

  // An open contract that cooperates ends: here and at the provider, without a further check.
  lemma ConfirmedCancelEnds(w: World, k: nat, a: CancelAnswer)
    requires Inv(w) && k < |w.rows| && Live(w.rows[k]) && w.rows[k].paypal.Some? && w.rows[k].cancelled.None? && Cooperates(a)
    ensures var ((v, ok), n) := (CancelOne(w, k, a), w.rows[k].paypal.value);
            && ok && v.rows[k].status == Cancelled && v.rows[k].cancelled == Some(w.now) && v.rows[k].nextCheck.None?
            && v.rows[k].cancelRequested == w.rows[k].cancelRequested && v.rows[k].paypal == w.rows[k].paypal
            && n < |v.remote| && Terminal(v.remote[n].status)
            && (forall j :: 0 <= j < |w.rows| && j != k ==> v.rows[j] == w.rows[j])
  {
    hide Inv;
    RowOkAt(w, k);
  }

  // Where neither the read, the call nor the second read shows an end, the row stays open and is
  // scheduled again in a minute, and no success is reported.
  lemma SilenceReschedules(w: World, k: nat, a: CancelAnswer)
    requires k < |w.rows| && w.rows[k].paypal.Some? && w.rows[k].cancelled.None? && a.get.None?
    ensures CancelOne(w, k, a) == (WithRow(w, k, w.rows[k].(nextCheck := Some(w.now + 60))), false)
  {
  }

  lemma UnheardCancel(w: World, k: nat, a: CancelAnswer)
    requires Inv(w) && k < |w.rows| && Live(w.rows[k]) && w.rows[k].paypal.Some? && w.rows[k].cancelled.None?
    requires Cooperates(a.(confirmed := true)) && !a.confirmed && a.recheck.None?
    ensures var (v, ok) := CancelOne(w, k, a);
            !ok && v.rows[k].cancelled.None? && v.rows[k].nextCheck == Some(w.now + 60)
  {
    hide Inv;
    RowOkAt(w, k);
  }

  // The same call with a second read that shows the end is a success: the call may have been executed.
  lemma SecondReadEnds(w: World, k: nat, a: CancelAnswer)
    requires Inv(w) && k < |w.rows| && Live(w.rows[k]) && w.rows[k].paypal.Some? && w.rows[k].cancelled.None?
    requires Cooperates(a.(confirmed := true)) && !a.confirmed && a.executes
    requires a.recheck == Some(Doc(None, None, Some(Cancelled), None, None, None))
    ensures var ((v, ok), n) := (CancelOne(w, k, a), w.rows[k].paypal.value);
            && ok && v.rows[k].status == Cancelled && v.rows[k].cancelled == Some(w.now) && v.rows[k].nextCheck.None?
            && n < |v.remote| && Terminal(v.remote[n].status)
  {
    hide Inv;
    RowOkAt(w, k);
  }

  // A contract that the first read shows as ended needs no call.
  lemma FirstReadEnds(w: World, k: nat, a: CancelAnswer, status: Status)
    requires Inv(w) && k < |w.rows| && Live(w.rows[k]) && w.rows[k].paypal.Some? && w.rows[k].cancelled.None?
    requires Terminal(status) && Terminal(w.remote[w.rows[k].paypal.value].status)
    requires a.get == Some(Doc(None, None, Some(status), None, None, None))
    ensures CancelOne(w, k, a) ==
            (WithRow(w, k, w.rows[k].(status := status, cancelled := Some(w.now), nextCheck := None)), true)
  {
    hide Inv;
    RowOkAt(w, k);
    var row := w.rows[k].(status := status, cancelled := Some(w.now), nextCheck := None);
    assert w.rows[k := row][k := row] == w.rows[k := row];
  }

  // What a stopped selection goes on to do; a rollback forgets the row but not what the provider did.
  lemma StoppedIsCancelled(w: World, k: nat, a: CancelAnswer)
    requires Inv(w) && k < |w.rows| && Live(w.rows[k]) && w.rows[k].paypal.Some? && Pending(w.rows[k]) && Cooperates(a)
    ensures Do(w, Retry(k, a, true)).rows[k].cancelled == Some(w.now)
    ensures var (v, n) := (Do(w, Retry(k, a, false)), w.rows[k].paypal.value);
            v.rows == w.rows && n < |v.remote| && Terminal(v.remote[n].status)
  {
    hide Inv, CancelOne;
    ConfirmedCancelEnds(w, k, a);
  }

  // Rows that asked to be cancelled have a contract id.
  ghost predicate AllNamed(w: World) {
    forall k :: 0 <= k < |w.rows| && Live(w.rows[k]) && w.rows[k].cancelRequested.Some? ==> w.rows[k].paypal.Some?
  }

  lemma TurnSucceeds(w: World, k: nat, a: CancelAnswer)
    requires Inv(w) && AllNamed(w) && k < |w.rows| && Live(w.rows[k]) && w.rows[k].cancelRequested.Some? && Cooperates(a)
    ensures CancelOne(w, k, a).1 && AllNamed(CancelOne(w, k, a).0)
  {
    hide Inv, CancelOne;
    if w.rows[k].cancelled.Some? {
      EndedTurnIsNothing(w, k, a);
    } else {
      ConfirmedCancelEnds(w, k, a);
    }
  }

  // If every contract cooperates, the round reports success.
  lemma {:induction false} RoundSucceeds(w: World, order: seq<nat>, answers: seq<CancelAnswer>)
    requires Inv(w) && AllNamed(w) && |answers| == |order| && forall i :: 0 <= i < |order| ==> order[i] < |w.rows|
    requires forall i :: 0 <= i < |answers| ==> Cooperates(answers[i])
    ensures Round(w, order, answers).1
    decreases |order|
  {
    hide Inv, CancelOne, AllNamed, Cooperates;
    if order != [] {
      var k := order[0];
      if !Live(w.rows[k]) || w.rows[k].cancelRequested.None? {
        RoundSucceeds(w, order[1..], answers[1..]);
      } else {
        CancelOneInv(w, k, answers[0]);
        TurnSucceeds(w, k, answers[0]);
        RoundSucceeds(CancelOne(w, k, answers[0]).0, order[1..], answers[1..]);
      }
    }
  }

  // The intent of cancel_all reaches every row, with the cutoff for approvals that come later; rows
  // that are still open are due at once.
  lemma IntentReachesAll(w: World, k: nat)
    requires k < |w.rows| && Live(w.rows[k])
    ensures var (v, c) := (Intent(w), w.rows[k]);
            && v.cutoff == Some(w.now) && |v.rows| >= |w.rows| && v.pointer == w.pointer
            && v.rows[k] == c.(cancelRequested := if c.cancelRequested.Some? then c.cancelRequested else Some(w.now),
                               nextCheck := if c.cancelled.None? then Some(w.now) else c.nextCheck)
  {
  }

  // ---- selection ----

  predicate Willing(w: World, k: nat) {
    k < |w.rows| && w.rows[k].cancelRequested.None? && !(w.cutoff.Some? && w.rows[k].created <= w.cutoff.value)
  }

  // A contract that nobody cancelled is selected when none was before.
  lemma FirstIsSelected(w: World, k: nat, explicit: bool, get: Option<Doc>)
    requires Willing(w, k) && w.pointer.None?
    ensures Select(w, k, explicit, get) == (w.(pointer := w.rows[k].paypal), Chosen)
  {
    SameRow(w, k);
  }

  // When the selected contract has ended, an open one takes its place: if asked for, or if it is newer.
  lemma EndedIsReplaced(w: World, k: nat, c: nat, explicit: bool, get: Option<Doc>)
    requires Inv(w) && Willing(w, k) && !Terminal(w.rows[k].status) && c < |w.rows| && c != k
    requires w.pointer.Some? && w.rows[c].paypal == w.pointer && Live(w.rows[c]) && w.rows[c].cancelled.Some?
    ensures Select(w, k, explicit, get) ==
              ((if explicit || w.rows[k].created > w.rows[c].created then w.(pointer := w.rows[k].paypal) else w), Chosen)
  {
    hide Inv;
    SameRow(w, k);
    RowOkAt(w, c);
    OnlyRow(w, c);
  }

  lemma OnlyRow(w: World, c: nat)
    requires Inv(w) && c < |w.rows| && Live(w.rows[c]) && w.rows[c].paypal.Some?
    ensures Find(w.rows, w.rows[c].paypal.value) == Some(c)
  {
    var f := Find(w.rows, w.rows[c].paypal.value);
    assert f.Some? && f.value < c ==> Apart(w.rows[f.value], w.rows[c]);
    assert f.Some? && c < f.value ==> Apart(w.rows[c], w.rows[f.value]);
  }

  // While the selected contract is read as open, another one is stopped at once and the selection stays.
  lemma SecondIsStopped(w: World, k: nat, c: nat, explicit: bool, d: Doc)
    requires Inv(w) && Willing(w, k) && Live(w.rows[k]) && w.rows[k].cancelled.None? && !Terminal(w.rows[k].status)
    requires c < |w.rows| && c != k && w.pointer.Some? && w.rows[c].paypal == w.pointer && Live(w.rows[c])
    requires w.rows[c].cancelled.None? && d.id.None? && d.owner.None? && d.changed.None? && d.status.Some? && !Terminal(d.status.value)
    ensures var (v, outcome) := Select(w, k, explicit, Some(d));
            && outcome == Stopped && v.pointer == w.pointer && |v.rows| == |w.rows|
            && v.rows[k] == w.rows[k].(cancelRequested := Some(w.now), nextCheck := Some(w.now))
  {
    hide Inv;
    SameRow(w, k);
    RowOkAt(w, c);
    OnlyRow(w, c);
  }

  // If that read fails, the selection raises and an event changes nothing at all.
  lemma FailedReadChangesNothing(w: World, k: nat, c: nat, n: nat, d: Doc, explicit: bool)
    requires Inv(w) && Willing(w, k) && !Terminal(w.rows[k].status)
    requires c < |w.rows| && c != k && w.pointer.Some? && w.rows[c].paypal == w.pointer && Live(w.rows[c]) && w.rows[c].cancelled.None?
    ensures Select(w, k, explicit, None) == (w, Raised)
    ensures Remember(w, n, d) == Some((w, k)) ==> Do(w, Event(n, d, explicit, None)) == w
  {
    hide Inv, Remember;
    SameRow(w, k);
    OnlyRow(w, c);
  }

  // ---- one subscription ----

  // Opened, created and approved; then cancelled and confirmed.
  function Subscribing(plan: nat): seq<Step> {
    [CheckoutOpen(plan, [], true), CheckoutSend(0, CreateAnswer(true, Some(Created(ApprovalPending))), None),
     Progress(0, Active), Event(0, Created(Active), false, None)]
  }

  function Created(status: Status): Doc { Doc(Some(0), None, Some(status), None, None, None) }

  predicate Fresh0(w: World) { Opening(w) && w.pointer.None? && w.remote == [] && w.cutoff.None? && 0 !in w.others }

  lemma OpensAttempt(w: World, plan: nat)
    requires Fresh0(w)
    ensures Do(w, CheckoutOpen(plan, [], true)) == w.(rows := [Attempt(plan, 0, w.now)], requests := [w.now])
  {
    ReservesIff(w, plan);
    assert w.rows + [Attempt(plan, 0, w.now)] == [Attempt(plan, 0, w.now)];
  }

  lemma SendsAttempt(v: World, plan: nat)
    requires v.rows == [Attempt(plan, 0, v.now)] && v.remote == [] && v.pointer.None? && v.cutoff.None? && 0 !in v.others
    ensures var c := v.rows[0].(paypal := Some(0), status := ApprovalPending);
            Do(v, CheckoutSend(0, CreateAnswer(true, Some(Created(ApprovalPending))), None))
            == v.(rows := [c], remote := [Remote(ApprovalPending, Some(0), v.now)], sent := v.sent + [Sent(0, v.now)], pointer := Some(0))
  {
    hide Find, Select;
    NoneFound(v.rows, 0);
    var a := CreateAnswer(true, Some(Created(ApprovalPending)));
    var called := CreateCall(v, 0, true);
    assert called == v.(sent := v.sent + [Sent(0, v.now)], remote := [Remote(ApprovalPending, Some(0), v.now)]);
    var (r, row) := RecoverCreate(v, 0, a);
    assert r.rows == [v.rows[0].(paypal := Some(0), status := ApprovalPending)] && row == Some(0);
    FirstIsSelected(r, 0, true, None);
  }

  lemma NoneFound(rows: seq<Contract>, n: nat)
    requires forall k :: 0 <= k < |rows| ==> rows[k].paypal != Some(n)
    ensures Find(rows, n) == None
  {
  }

  lemma HearsApproval(v: World, c: Contract)
    requires v.rows == [c] && Live(c) && c.paypal == Some(0) && c.cancelled.None? && c.cancelRequested.None? && c.updated.None?
    requires v.remote == [Remote(Active, Some(0), v.now)] && v.pointer == Some(0) && v.cutoff.None? && 0 !in v.others
    ensures Do(v, Event(0, Created(Active), false, None)) == v.(rows := [c.(status := Active)])
  {
    hide Select;
    FoundFirst(v.rows, 0);
    var r := v.(rows := [c.(status := Active)]);
    assert Contracts(v) == v && v.rows[0 := c.(status := Active)] == r.rows;
    assert ApplyStatus(v.me, c, Created(Active), v.now) == Some(c.(status := Active));
    assert Remember(v, 0, Created(Active)) == Some((r, 0));
    FoundFirst(r.rows, 0);
    KeepsSelected(r, 0);
  }

  lemma FoundFirst(rows: seq<Contract>, n: nat)
    requires rows != [] && Live(rows[0]) && rows[0].paypal == Some(n)
    ensures Find(rows, n) == Some(0)
  {
  }

  lemma KeepsSelected(w: World, k: nat)
    requires Willing(w, k) && w.pointer.Some? && w.rows[k].paypal == w.pointer && Find(w.rows, w.pointer.value) == Some(k)
    ensures Select(w, k, false, None) == (w, Chosen)
  {
    SameRow(w, k);
  }

  // From a user without any contract: the checkout ends with one selected active contract, made by one
  // request.
  lemma CheckoutSubscribes(w: World, plan: nat)
    requires Fresh0(w)
    ensures Run(w, Subscribing(plan)) ==
            w.(pointer := Some(0), rows := [Attempt(plan, 0, w.now).(paypal := Some(0), status := Active)],
               requests := [w.now], sent := [Sent(0, w.now)], remote := [Remote(Active, Some(0), w.now)])
  {
    hide Do, RecoverCreate, Select;
    var steps := Subscribing(plan);
    OpensAttempt(w, plan);
    var w1 := Do(w, steps[0]);
    SendsAttempt(w1, plan);
    var w2 := Do(w1, steps[1]);
    Approves(w2);
    var w3 := Do(w2, steps[2]);
    HearsApproval(w3, w3.rows[0]);
    assert w.sent + [Sent(0, w.now)] == [Sent(0, w.now)];
    UnfoldFour(w, steps);
  }

  lemma Approves(w: World)
    requires w.remote == [Remote(ApprovalPending, Some(0), w.now)]
    ensures Do(w, Progress(0, Active)) == w.(remote := [Remote(Active, Some(0), w.now)])
  {
    assert w.remote[0 := w.remote[0].(status := Active)] == [Remote(Active, Some(0), w.now)];
  }

  lemma UnfoldFour(w: World, steps: seq<Step>)
    requires |steps| == 4
    ensures Run(w, steps) == Do(Do(Do(Do(w, steps[0]), steps[1]), steps[2]), steps[3])
  {
    hide Do;
    var a, b, c := steps[1..], steps[2..], steps[3..];
    assert a[1..] == b && b[1..] == c && c[1..] == [];
    var w1 := Do(w, steps[0]);
    var w2 := Do(w1, a[0]);
    var w3 := Do(w2, b[0]);
    assert Run(w3, c) == Run(Do(w3, c[0]), []);
    assert Run(w2, b) == Run(w3, c) && Run(w1, a) == Run(w2, b);
  }

  // ---- cancel_all from the outside ----

  // From every state whose contracts are all known by id: the request, and then a round in which every
  // contract cooperates, in any order, reports success and leaves every contract ended.
  lemma CooperativeCancelAll(w: World, order: seq<nat>, answers: seq<CancelAnswer>)
    requires Inv(w) && (forall k :: 0 <= k < |Intent(w).rows| && Live(Intent(w).rows[k]) ==> Intent(w).rows[k].paypal.Some?)
    requires Visits(order, |Intent(w).rows|) && |answers| == |order| && forall i :: 0 <= i < |answers| ==> Cooperates(answers[i])
    ensures var (v, ok) := Round(Intent(w), order, answers);
            ok && |v.rows| == |Intent(w).rows| && forall k :: 0 <= k < |v.rows| && Live(Intent(w).rows[k]) ==> Ended(v, k)
  {
    hide Inv, Round, Ended, Cooperates;
    IntentInv(w);
    AllAsked(w);
    RoundSucceeds(Intent(w), order, answers);
    RoundInv(Intent(w), order, answers);
  }

  lemma AllAsked(w: World)
    ensures forall k :: 0 <= k < |Intent(w).rows| && Live(Intent(w).rows[k]) ==> Intent(w).rows[k].cancelRequested.Some?
  {
  }
}
