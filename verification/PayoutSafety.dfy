/** Over every run of claims, calls, lost replies, crashes, expired leases and late
    deliveries: one payout yields at most one provider batch, and its closed states
    are final and mean that the provider holds no unreturned payment. */
module PayoutSafety {
  import opened Common
  import opened Payouts

  predicate BatchSound(b: Batch) { DeadHeader(b.status) ==> b.item != ItemSuccess }

  // Attempt numbers are handed out once each, to the flights in order.
  predicate Numbered(p: Payout) {
    && p.row.attempts == |p.flights|
    && forall k :: 0 <= k < |p.flights| ==> p.flights[k].call.attempt == k + 1
  }

  predicate SentInTime(c: Call, first: Time, now: Time) {
    first <= c.at <= now && (c.batch.None? ==> c.at <= first + RETRY_WINDOW)
  }

  // Every create request is sent within 29 days of the first one.
  predicate Timely(p: Payout, now: Time) {
    && (p.row.firstSent.None? ==> p.flights == [] && p.batches == [] && p.row.batch.None?)
    && (p.row.firstSent.Some? ==>
          var f := p.row.firstSent.value;
          && f <= now
          && (forall k :: 0 <= k < |p.flights| ==> SentInTime(p.flights[k].call, f, now))
          && (forall k :: 0 <= k < |p.batches| ==> f <= p.batches[k].created <= now))
  }

  predicate OneBatch(p: Payout) {
    && |p.batches| <= 1
    && (forall k :: 0 <= k < |p.batches| ==> BatchSound(p.batches[k]))
    && (p.row.batch.Some? ==> |p.batches| == 1 && p.batches[0].id == p.row.batch.value)
    && (p.batches != [] ==> exists k :: 0 <= k < |p.flights| && p.flights[k].answer.Some?)
  }

  predicate AnswersTrue(p: Payout) {
    forall k :: 0 <= k < |p.flights| && p.flights[k].answer.Some? && p.flights[k].answer.value.Document? ==>
      Truthful(p.batches, p.row.id, p.flights[k].answer.value.doc)
  }

  predicate DefinitivelyRejected(f: Flight) {
    f.answer.Some? && f.answer.value.Error? && f.answer.value.definitive
  }

  // The only call of a payout was rejected outright, so nothing was created.
  predicate FirstRejection(p: Payout) {
    |p.flights| == 1 && DefinitivelyRejected(p.flights[0]) ==> p.batches == []
  }

  // No worker will settle the current attempt any more.
  predicate Quiet(p: Payout) {
    |p.flights| > 0 ==> !p.flights[|p.flights| - 1].waiting
  }

  // No unreturned payment exists and none can come into being.
  predicate NoPaymentEver(p: Payout) {
    || (p.flights == [] && p.batches == [])
    || (|p.flights| == 1 && p.flights[0].answer.Some? && p.batches == [])
    || (|p.batches| == 1 && NeverPaysAgain(p.batches[0]))
  }

  predicate StatusTrue(p: Payout) {
    && (p.row.status == PendingReview || p.row.status == Rejected ==> p.row.firstSent.None?)
    && (Closed(p.row.status) ==> Quiet(p) && NoPaymentEver(p))
    && (p.row.status == PaidOut ==>
          p.row.batch.Some? && |p.batches| == 1 && (p.batches[0].item == ItemSuccess || Mapped(p.batches[0].item) == Returned))
  }

  predicate Inv(p: Payout, now: Time) {
    && Numbered(p) && Timely(p, now) && OneBatch(p) && AnswersTrue(p) && FirstRejection(p) && StatusTrue(p)
  }

  function Requested(id: nat, cents: nat, email: string): Payout {
    Payout(Row(id, cents, email, PendingReview, None, None, None, None, 0, None, false), [], [])
  }

  lemma RequestedInv(id: nat, cents: nat, email: string, now: Time)
    ensures Inv(Requested(id, cents, email), now)
  {
  }

  lemma InvLater(p: Payout, now: Time, later: Time)
    requires Inv(p, now) && now <= later
    ensures Inv(p, later)
  {
  }

  // ---- provider evolution ----

  lemma TruthEvolves(before: seq<Batch>, after: seq<Batch>, id: nat, d: BatchDoc)
    requires |before| <= |after|
    requires forall k :: 0 <= k < |before| ==> Evolves(before[k], after[k])
    requires Truthful(before, id, d)
    ensures Truthful(after, id, d)
  {
    if d.batch.Some? && d.sender == Some(id) {
      var k :| 0 <= k < |before| && before[k].id == d.batch.value && Reports(before[k], d);
      assert Evolves(before[k], after[k]);
      assert after[k].id == d.batch.value && Reports(after[k], d);
    }
  }

  lemma ProgressInv(p: Payout, now: Time, k: nat, to: Batch, adjusted: bool)
    requires Inv(p, now)
    ensures Inv(Do(p, Progress(k, to), now, adjusted), now)
  {
    var q := Do(p, Progress(k, to), now, adjusted);
    if k < |p.batches| && Evolves(p.batches[k], to) {
      forall j | 0 <= j < |q.flights| && q.flights[j].answer.Some? && q.flights[j].answer.value.Document?
        ensures Truthful(q.batches, q.row.id, q.flights[j].answer.value.doc)
      {
        assert Truthful(p.batches, p.row.id, p.flights[j].answer.value.doc);
        TruthEvolves(p.batches, q.batches, p.row.id, p.flights[j].answer.value.doc);
      }
    }
  }

  // A create request that still reaches the provider finds the first batch remembered.
  lemma StillRecognised(p: Payout, now: Time, k: nat)
    requires Inv(p, now) && k < |p.flights| && p.batches != []
    requires p.flights[k].call.batch.None? && now <= p.flights[k].call.at + LONGEST_DELIVERY
    ensures Recognised(p, now)
  {
    assert now <= p.batches[0].created + DEDUPLICATES;
  }

  lemma HandleInv(p: Payout, now: Time, k: nat, accept: bool, id: nat, reply: Reply)
    requires Inv(p, now) && k < |p.flights|
    ensures Inv(HandleCall(p, k, accept, id, reply, now), now)
  {
    var q := HandleCall(p, k, accept, id, reply, now);
    if q != p {
      if p.flights[k].call.batch.None? && p.batches != [] {
        StillRecognised(p, now, k);
      }
      assert q.batches == p.batches || (p.batches == [] && q.batches == [Batch(id, now, BatchOpen, ItemPending)]);
      forall j | 0 <= j < |q.flights| && q.flights[j].answer.Some? && q.flights[j].answer.value.Document?
        ensures Truthful(q.batches, q.row.id, q.flights[j].answer.value.doc)
      {
        if j != k {
          assert Truthful(p.batches, p.row.id, p.flights[j].answer.value.doc);
          TruthEvolves(p.batches, q.batches, p.row.id, p.flights[j].answer.value.doc);
        }
      }
    }
  }

  // ---- the worker's transactions ----

  // Either nothing is sent, or the next attempt is, within 29 days when it is a create.
  lemma ClaimedShape(r: Row, now: Time, force: bool, adjusted: bool)
    ensures var row := Claimed(r, now, force, adjusted).0; row.id == r.id && row.batch == r.batch
    ensures var (row, call) := Claimed(r, now, force, adjusted);
            call.None? ==>
              && row.attempts == r.attempts && row.firstSent == r.firstSent
              && (row.status == r.status || (row.status == InManualReview && r.batch.None? && r.firstSent.Some?)
                  || (row.status == Rejected && r.firstSent.None?))
    ensures var (row, call) := Claimed(r, now, force, adjusted);
            call.Some? ==>
              && call.value == Call(r.attempts + 1, r.batch, now) && row.attempts == r.attempts + 1
              && row.status == r.status && !Closed(r.status) && r.status != PendingReview
              && row.firstSent == (if r.firstSent.None? then Some(now) else r.firstSent)
              && (r.firstSent.Some? && r.batch.None? ==> now <= r.firstSent.value + RETRY_WINDOW)
  {
  }

  lemma ClaimInv(p: Payout, now: Time, force: bool, adjusted: bool)
    requires Inv(p, now)
    ensures Inv(Do(p, Claim(force), now, adjusted), now)
  {
    hide Claimed;
    ClaimedShape(p.row, now, force, adjusted);
    var (row, call) := Claimed(p.row, now, force, adjusted);
    if call.Some? {
      var q := p.(row := row, flights := p.flights + [Flight(call.value, None, true)]);
      assert SentInTime(call.value, row.firstSent.value, now);
      assert forall k :: 0 <= k < |p.flights| ==> q.flights[k] == p.flights[k];
    }
  }

  // What a truthful document does to a row: the status it writes is borne out by the batch.
  lemma AppliedTrue(p: Payout, now: Time, d: BatchDoc)
    requires Inv(p, now) && Truthful(p.batches, p.row.id, d)
    ensures var r := Applied(p.row, d).0;
            && r == p.row.(status := r.status, batch := r.batch)
            && (r.batch.Some? ==> |p.batches| == 1 && p.batches[0].id == r.batch.value)
            && (r.status != p.row.status ==>
                  && |p.batches| == 1
                  && (Closed(r.status) ==> r.status != Rejected && NeverPaysAgain(p.batches[0]))
                  && (r.status == PaidOut ==> r.batch.Some?)
                  && (r.status == PaidOut ==> p.batches[0].item == ItemSuccess || Mapped(p.batches[0].item) == Returned))
            && (p.row.status == PaidOut ==> r.status == PaidOut || r.status == Returned)
            && (r.status == PendingReview ==> p.row.status == PendingReview)
  {
  }

  // A reply settles only the current attempt, and rewrites status, batch and bookkeeping.
  lemma SettledShape(p: Payout, now: Time, k: nat, reply: Reply)
    requires Inv(p, now) && k < |p.flights| && p.flights[k].waiting
    requires reply.Document? ==> Truthful(p.batches, p.row.id, reply.doc)
    requires reply.Error? && reply.definitive ==> p.flights[k].answer == Some(reply)
    ensures var r := SettledRow(p.row, p.flights[k].call, reply, now);
            && (r != p.row ==> k == |p.flights| - 1 && !Closed(p.row.status))
            && r == p.row.(status := r.status, batch := r.batch, lastError := r.lastError, lease := r.lease, nextCheck := r.nextCheck)
            && (p.row.batch.Some? ==> r.batch.Some?)
            && (r.batch.Some? ==> |p.batches| == 1 && p.batches[0].id == r.batch.value)
            && (p.row.status == PaidOut ==> r.status == PaidOut || r.status == Returned)
            && (r.status != p.row.status ==> r.status != PendingReview && r.status != Rejected)
            && (r.status != p.row.status && r.status == PaidOut ==>
                  r.batch.Some? && (p.batches[0].item == ItemSuccess || Mapped(p.batches[0].item) == Returned))
            && (r.status != p.row.status && Closed(r.status) ==> NoPaymentEver(p))
  {
    if p.flights[k].call.attempt == p.row.attempts {
      assert k == |p.flights| - 1;
      if reply.Document? { AppliedTrue(p, now, reply.doc); }
    }
  }

  lemma SettleInv(p: Payout, now: Time, k: nat, reply: Reply)
    requires Inv(p, now) && k < |p.flights| && p.flights[k].waiting
    requires reply.Document? ==> Truthful(p.batches, p.row.id, reply.doc)
    requires reply.Error? && reply.definitive ==> p.flights[k].answer == Some(reply)
    ensures Inv(SettledPayout(p, k, reply, now), now)
  {
    hide SettledRow;
    SettledShape(p, now, k, reply);
    var q := SettledPayout(p, k, reply, now);
    assert forall j :: 0 <= j < |q.flights| ==> q.flights[j].call == p.flights[j].call && q.flights[j].answer == p.flights[j].answer;
  }

  function SettledPayout(p: Payout, k: nat, reply: Reply, now: Time): Payout
    requires k < |p.flights|
  {
    p.(row := SettledRow(p.row, p.flights[k].call, reply, now), flights := p.flights[k := p.flights[k].(waiting := false)])
  }

  lemma CrashInv(p: Payout, now: Time, k: nat)
    requires Inv(p, now) && k < |p.flights|
    ensures Inv(p.(flights := p.flights[k := p.flights[k].(waiting := false)]), now)
  {
    var q := p.(flights := p.flights[k := p.flights[k].(waiting := false)]);
    assert forall j :: 0 <= j < |q.flights| ==> q.flights[j].call == p.flights[j].call && q.flights[j].answer == p.flights[j].answer;
  }

  lemma StepInv(p: Payout, t: Step, now: Time, adjusted: bool)
    requires Inv(p, now)
    ensures Inv(Do(p, t, now, adjusted), now)
  {
    match t {
      case Claim(force) => ClaimInv(p, now, force, adjusted);
      case Handle(k, accept, id, reply) => if k < |p.flights| { HandleInv(p, now, k, accept, id, reply); }
      case Settle(k) =>
        if k < |p.flights| && p.flights[k].waiting && p.flights[k].answer.Some? {
          SettleInv(p, now, k, p.flights[k].answer.value);
        }
      case TimeOut(k) =>
        if k < |p.flights| && p.flights[k].waiting { SettleInv(p, now, k, Error(Unconfirmed, false)); }
      case Progress(k, to) => ProgressInv(p, now, k, to, adjusted);
      case Crash(k) => if k < |p.flights| { CrashInv(p, now, k); }
      case Poke =>
      case ReviewPayout(_) =>
    }
  }

  // Closed states are absorbing, paid leaves only to returned, and no step reopens a hold.
  lemma StepStatus(p: Payout, t: Step, now: Time, adjusted: bool)
    requires Inv(p, now)
    ensures Closed(p.row.status) ==> Do(p, t, now, adjusted).row.status == p.row.status
    ensures p.row.status == PaidOut ==>
              Do(p, t, now, adjusted).row.status == PaidOut || Do(p, t, now, adjusted).row.status == Returned
    ensures Do(p, t, now, adjusted).row.cents == p.row.cents
    ensures !adjusted ==> Do(p, t, now, adjusted).row.balanceChanged == p.row.balanceChanged
  {
    match t {
      case Settle(k) =>
        if k < |p.flights| && p.flights[k].waiting && p.flights[k].answer.Some? {
          SettledShape(p, now, k, p.flights[k].answer.value);
        }
      case TimeOut(k) =>
        if k < |p.flights| && p.flights[k].waiting { SettledShape(p, now, k, Error(Unconfirmed, false)); }
      case _ =>
    }
  }

  // ---- runs ----

  // One step, after waiting, with what the balance said at that moment.
  datatype Event = Event(wait: nat, adjusted: bool, step: Step)

  function Run(p: Payout, now: Time, events: seq<Event>): (Payout, Time)
    decreases |events|
  {
    if events == [] then (p, now)
    else
      var e := events[0];
      Run(Do(p, e.step, now + e.wait, e.adjusted), now + e.wait, events[1..])
  }

  lemma {:induction false} RunInv(p: Payout, now: Time, events: seq<Event>)
    requires Inv(p, now)
    ensures var (q, later) := Run(p, now, events); Inv(q, later)
    decreases |events|
  {
    hide Do, Inv;
    if events != [] {
      var e := events[0];
      InvLater(p, now, now + e.wait);
      StepInv(p, e.step, now + e.wait, e.adjusted);
      RunInv(Do(p, e.step, now + e.wait, e.adjusted), now + e.wait, events[1..]);
    }
  }

  predicate Unreturned(p: Payout) { exists k :: 0 <= k < |p.batches| && p.batches[k].item == ItemSuccess }

  lemma AtMostOneBatch(p: Payout, now: Time, events: seq<Event>)
    requires Inv(p, now)
    ensures |Run(p, now, events).0.batches| <= 1
  {
    RunInv(p, now, events);
  }

  lemma ClosedPaysNothing(p: Payout, now: Time)
    requires Inv(p, now) && Closed(p.row.status)
    ensures !Unreturned(p)
  {
  }

  // Failed, returned and rejected are final, and from then on, whatever still arrives at
  // the provider, it never holds an unreturned payment for this payout.
  lemma {:induction false} ClosedIsFinal(p: Payout, now: Time, events: seq<Event>)
    requires Inv(p, now) && Closed(p.row.status)
    ensures var q := Run(p, now, events).0; q.row.status == p.row.status && !Unreturned(q)
    decreases |events|
  {
    hide Do, Inv, Unreturned;
    ClosedPaysNothing(p, now);
    if events != [] {
      var e := events[0];
      InvLater(p, now, now + e.wait);
      StepInv(p, e.step, now + e.wait, e.adjusted);
      StepStatus(p, e.step, now + e.wait, e.adjusted);
      ClosedIsFinal(Do(p, e.step, now + e.wait, e.adjusted), now + e.wait, events[1..]);
    }
  }

  lemma {:induction false} PaidOnlyReturns(p: Payout, now: Time, events: seq<Event>)
    requires Inv(p, now) && p.row.status == PaidOut
    ensures var q := Run(p, now, events).0; q.row.status == PaidOut || q.row.status == Returned
    decreases |events|
  {
    hide Do, Inv;
    if events != [] {
      var e := events[0];
      var q := Do(p, e.step, now + e.wait, e.adjusted);
      InvLater(p, now, now + e.wait);
      StepInv(p, e.step, now + e.wait, e.adjusted);
      StepStatus(p, e.step, now + e.wait, e.adjusted);
      if q.row.status == PaidOut {
        PaidOnlyReturns(q, now + e.wait, events[1..]);
      } else {
        ClosedIsFinal(q, now + e.wait, events[1..]);
      }
    }
  }

  // From the request on: one batch at most, the amount as requested, and from the moment the
  // payout is closed neither its state nor the money at the provider can change any more.
  lemma RequestedPayout(id: nat, cents: nat, email: string, now: Time, events: seq<Event>, more: seq<Event>)
    ensures var (p, t) := Run(Requested(id, cents, email), now, events);
            var q := Run(p, t, more).0;
            && |q.batches| <= 1 && q.row.cents == cents
            && (Closed(p.row.status) ==> q.row.status == p.row.status && !Unreturned(q))
            && (p.row.status == PaidOut ==> q.row.status == PaidOut || q.row.status == Returned)
  {
    hide Run, Inv, Unreturned;
    var s := Requested(id, cents, email);
    RequestedInv(id, cents, email, now);
    RunInv(s, now, events);
    AmountKept(s, now, events);
    var (p, t) := Run(s, now, events);
    AtMostOneBatch(p, t, more);
    AmountKept(p, t, more);
    if Closed(p.row.status) { ClosedIsFinal(p, t, more); }
    if p.row.status == PaidOut { PaidOnlyReturns(p, t, more); }
  }

  lemma {:induction false} AmountKept(p: Payout, now: Time, events: seq<Event>)
    requires Inv(p, now)
    ensures Run(p, now, events).0.row.cents == p.row.cents
    decreases |events|
  {
    hide Do, Inv;
    if events != [] {
      var e := events[0];
      InvLater(p, now, now + e.wait);
      StepInv(p, e.step, now + e.wait, e.adjusted);
      StepStatus(p, e.step, now + e.wait, e.adjusted);
      AmountKept(Do(p, e.step, now + e.wait, e.adjusted), now + e.wait, events[1..]);
    }
  }
}
