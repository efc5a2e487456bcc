/** What a settled payout records, in PayPal's own item statuses, and that a payment PayPal made is
    recorded as paid (creator_payouts.py:92-183). */
module PayoutLaws {
  import opened Common
  import opened Payouts
  import opened PayoutSafety

  // A document about this payout with its one item.
  predicate Fits(r: Row, d: BatchDoc) {
    && d.batch.Some? && d.sender == Some(r.id) && (r.batch.Some? ==> r.batch == d.batch)
    && |d.items| == 1
    && var i := d.items[0];
       i.item == Some(r.id) && i.receiver == r.email && i.usd && i.cents == Some(r.cents) && i.status.Some?
  }

  predicate CameBack(i: ItemStatus) { i == ItemReturned || i == ItemRefunded || i == ItemReversed || i == ItemCanceled }

  // The current attempt settles on such a document: every item status leaves its own status behind,
  // and a paid payout is only ever reopened by money that came back.
  lemma SettlesAs(r: Row, call: Call, d: BatchDoc, now: Time)
    requires call.attempt == r.attempts && Fits(r, d)
    ensures var s := SettledRow(r, call, Document(d), now);
            var i := d.items[0].status.value;
            && (s.status == PaidOut <==> i == ItemSuccess || (r.status == PaidOut && !CameBack(i)))
            && (s.status == Returned <==> CameBack(i))
            && (r.status != PaidOut ==>
                  && (s.status == Processing <==> i == ItemPending)
                  && (s.status == Unclaimed <==> i == ItemUnclaimed)
                  && (s.status == OnHold <==> i == ItemOnHold || i == ItemBlocked)
                  && (s.status == Failed <==> i == ItemFailed || i == ItemDenied))
            && s.batch == d.batch && s.lastError == None && s.lease == None
            && s.nextCheck.Some? && now < s.nextCheck.value <= now + DAY
            && s == r.(status := s.status, batch := s.batch, lastError := None, lease := None, nextCheck := s.nextCheck)
  {
    IntervalPositive(SettledRow(r, call, Document(d), now).status, call.attempt);
  }

  lemma IntervalPositive(status: Status, attempt: nat)
    ensures 0 < Interval(status, attempt) <= DAY
  {
  }

  // The next check: a minute after the first attempt, twice as late after each of the next three, then
  // every quarter of an hour; a paid payout is checked daily.
  lemma CheckTimes(status: Status, attempt: nat)
    requires attempt >= 1
    ensures Interval(status, attempt) ==
            if status == PaidOut then 24 * 3600
            else if attempt == 1 then 60 else if attempt == 2 then 120 else if attempt == 3 then 240
            else if attempt == 4 then 480 else 900
  {
    assert Power2(1) == 2 && Power2(2) == 2 * Power2(1) && Power2(3) == 2 * Power2(2);
    assert Power2(4) == 2 * Power2(3) && Power2(5) == 2 * Power2(4);
  }

  // A document of another payout, of another batch or with other items never moves money: a person
  // has to look, unless the payout was paid already.
  lemma MisfitNeedsPerson(r: Row, call: Call, d: BatchDoc, now: Time)
    requires call.attempt == r.attempts && !Fits(r, d)
    requires |d.items| > 0 || d.batch.None? || d.sender != Some(r.id) || (r.batch.Some? && r.batch != d.batch)
    ensures var s := SettledRow(r, call, Document(d), now);
            && s.status == (if r.status == PaidOut then PaidOut else InManualReview)
            && s.lastError.Some? && s.lease == None
  {
  }

  // A batch without items says nothing about the recipient unless it was denied or canceled.
  lemma EmptyBatch(r: Row, call: Call, d: BatchDoc, now: Time)
    requires call.attempt == r.attempts && d.batch.Some? && d.sender == Some(r.id) && (r.batch.Some? ==> r.batch == d.batch)
    requires d.items == []
    ensures var s := SettledRow(r, call, Document(d), now);
            && s.batch == d.batch
            && s.status == (if r.status != PaidOut && (d.status == BatchDenied || d.status == BatchCanceled) then Failed else r.status)
  {
  }

  // A failed call closes the payout exactly when PayPal rejected the first create request outright;
  // some errors ask for a person, and after any other the money stays held as it was.
  lemma ErrorSettlesAs(r: Row, call: Call, code: Code, definitive: bool, now: Time)
    requires call.attempt == r.attempts && r.status != Failed
    ensures var s := SettledRow(r, call, Error(code, definitive), now);
            var person := r.status != PaidOut && (code == Mismatch || code == InvalidBatch || code == DuplicateUnresolved || code == UnknownStatus);
            && (s.status == Failed <==> !person && definitive && call.batch.None? && call.attempt == 1)
            && (person ==> s.status == InManualReview)
            && (!person && s.status != Failed ==> s.status == r.status)
            && s.batch == r.batch && s.lastError == Some(code)
  {
  }

  // ---- a payment that was made is recorded ----

  function SuccessDoc(r: Row, batch: nat): BatchDoc {
    BatchDoc(Some(batch), Some(r.id), BatchSuccess, [ItemDoc(Some(r.id), r.email, true, Some(r.cents), Some(ItemSuccess))])
  }

  function Check(p: Payout, batch: nat): seq<Event> {
    [Event(0, false, Claim(true)),
     Event(0, false, Handle(|p.flights|, false, 0, Document(SuccessDoc(p.row, batch)))),
     Event(0, false, Settle(|p.flights|))]
  }

  // From every reachable state of an open payout whose money has gone out: the next check that PayPal
  // answers records it as paid, even if the reply with the batch id was lost before.
  lemma SuccessIsRecorded(p: Payout, now: Time)
    requires Inv(p, now) && |p.batches| == 1 && p.batches[0].item == ItemSuccess
    requires p.row.status == Processing || p.row.status == Unclaimed || p.row.status == OnHold
             || (p.row.status == InManualReview && p.row.batch.Some?)
    requires p.row.lease.Some? ==> p.row.lease.value <= now
    requires p.row.batch.None? ==> p.row.firstSent.Some? && now <= p.row.firstSent.value + 29 * DAY
    ensures var q := Run(p, now, Check(p, p.batches[0].id)).0;
            && q.row.status == PaidOut && q.row.batch == Some(p.batches[0].id) && q.batches == p.batches
            && q.row.cents == p.row.cents && q.row.lastError == None
  {
    hide SettledRow, Recognised;
    var b := p.batches[0];
    var events := Check(p, b.id);
    var d := SuccessDoc(p.row, b.id);
    var p1 := Do(p, Claim(true), now, false);
    assert p1.row.attempts == p.row.attempts + 1 && |p1.flights| == |p.flights| + 1;
    var f := p1.flights[|p.flights|];
    assert f == Flight(Call(p.row.attempts + 1, p.row.batch, now), None, true);
    assert Reports(p.batches[0], d);
    assert Truthful(p.batches, p.row.id, d);
    var p2 := Do(p1, events[1].step, now, false);
    assert p2 == p1.(flights := p1.flights[|p.flights| := f.(answer := Some(Document(d)))]);
    SettlesAs(p2.row, f.call, d, now);
    var p3 := Do(p2, events[2].step, now, false);
    UnfoldThree(p, now, events);
  }

  lemma UnfoldThree(p: Payout, now: Time, events: seq<Event>)
    requires |events| == 3 && forall e :: e in events ==> e.wait == 0 && !e.adjusted
    ensures Run(p, now, events).0 == Do(Do(Do(p, events[0].step, now, false), events[1].step, now, false), events[2].step, now, false)
  {
    hide Do;
    var a, b := events[1..], events[2..];
    assert a[1..] == b && b[1..] == [];
    assert events[0] in events && events[1] in events && events[2] in events;
    var p1 := Do(p, events[0].step, now, false);
    var p2 := Do(p1, a[0].step, now, false);
    assert Run(p2, now, b) == Run(Do(p2, b[0].step, now, false), now, []);
    assert Run(p1, now, a) == Run(p2, now, b);
  }

  // ---- a payout from the request to the payment ----

  // Approved, claimed, created at once and confirmed; later the recipient is paid.
  function Opened(r: Row, batch: nat): seq<Event> {
    [Event(0, false, ReviewPayout(true)), Event(0, false, Claim(false)),
     Event(0, false, Handle(0, true, batch, Document(BatchDoc(Some(batch), Some(r.id), BatchOpen, [])))),
     Event(0, false, Settle(0))]
  }

  lemma OpenedBatch(id: nat, cents: nat, email: string, now: Time, batch: nat)
    ensures var s := Requested(id, cents, email);
            var (p, t) := Run(s, now, Opened(s.row, batch));
            && t == now && p.row.status == Processing && p.row.batch == Some(batch) && p.row.cents == cents && p.row.lease == None
            && p.batches == [Batch(batch, now, BatchOpen, ItemPending)]
            && p.row.nextCheck == Some(now + 60)
  {
    hide SettledRow;
    var s := Requested(id, cents, email);
    var events := Opened(s.row, batch);
    var d := BatchDoc(Some(batch), Some(id), BatchOpen, []);
    var p1 := Do(s, ReviewPayout(true), now, false);
    assert p1 == s.(row := s.row.(status := Processing));
    var p2 := Do(p1, Claim(false), now, false);
    var f := Flight(Call(1, None, now), None, true);
    assert p2.flights == [f] && p2.batches == [] && !Recognised(p2, now);
    var b := Batch(batch, now, BatchOpen, ItemPending);
    assert [b][0] == b && Reports(b, d);
    assert Truthful([b], id, d);
    var p3 := Do(p2, events[2].step, now, false);
    assert p2.batches + [b] == [b] && p2.flights[0 := f.(answer := Some(Document(d)))] == [f.(answer := Some(Document(d)))];
    assert p3.batches == [b] && p3.flights == [f.(answer := Some(Document(d)))] && p3.row == p2.row;
    EmptyBatch(p3.row, f.call, d, now);
    OpenedRow(p3.row, f.call, d, now);
    var p4 := Do(p3, Settle(0), now, false);
    UnfoldFour(s, now, events);
  }

  lemma OpenedRow(r: Row, call: Call, d: BatchDoc, now: Time)
    requires call.attempt == r.attempts == 1 && r.status == Processing && r.batch.None?
    requires d.batch.Some? && d.sender == Some(r.id) && d.items == [] && d.status == BatchOpen
    ensures SettledRow(r, call, Document(d), now) ==
            r.(batch := d.batch, lastError := None, lease := None, nextCheck := Some(now + 60))
  {
    assert Power2(1) == 2 * Power2(0);
  }

  lemma UnfoldFour(p: Payout, now: Time, events: seq<Event>)
    requires |events| == 4 && forall e :: e in events ==> e.wait == 0 && !e.adjusted
    ensures Run(p, now, events) ==
            (Do(Do(Do(Do(p, events[0].step, now, false), events[1].step, now, false), events[2].step, now, false),
                events[3].step, now, false), now)
  {
    hide Do;
    var a, b, c := events[1..], events[2..], events[3..];
    assert a[1..] == b && b[1..] == c && c[1..] == [];
    assert events[0] in events && events[1] in events && events[2] in events && events[3] in events;
    var p1 := Do(p, events[0].step, now, false);
    var p2 := Do(p1, a[0].step, now, false);
    var p3 := Do(p2, b[0].step, now, false);
    assert Run(p3, now, c) == Run(Do(p3, c[0].step, now, false), now, []);
    assert Run(p2, now, b) == Run(p3, now, c) && Run(p1, now, a) == Run(p2, now, b);
  }

  lemma {:induction false} RunConcat(p: Payout, now: Time, a: seq<Event>, b: seq<Event>)
    ensures var (q, t) := Run(p, now, a); Run(p, now, a + b) == Run(q, t, b)
    decreases |a|
  {
    hide Do;
    if a == [] {
      assert a + b == b;
    } else {
      assert (a + b)[1..] == a[1..] + b;
      RunConcat(Do(p, a[0].step, now + a[0].wait, a[0].adjusted), now + a[0].wait, a[1..], b);
    }
  }

  // Every approved request can end paid, with its batch and its amount, however long PayPal takes.
  lemma RequestEndsPaid(id: nat, cents: nat, email: string, now: Time, batch: nat, wait: nat)
    ensures exists events ::
              var q := Run(Requested(id, cents, email), now, events).0;
              && q.row.status == PaidOut && q.row.batch == Some(batch) && q.row.cents == cents
              && q.batches == [Batch(batch, now, BatchSuccess, ItemSuccess)]
              && |events| == 8 && events[4] == Event(wait, false, Progress(0, q.batches[0]))
  {
    hide Run, Do, Inv;
    var s := Requested(id, cents, email);
    var b := Batch(batch, now, BatchSuccess, ItemSuccess);
    var (first, paid) := (Opened(s.row, batch), [Event(wait, false, Progress(0, b))]);
    RequestedInv(id, cents, email, now);
    RunInv(s, now, first);
    OpenedBatch(id, cents, email, now, batch);
    var p := Run(s, now, first).0;
    PaysOut(p, now, wait, b);
    var q := Run(p, now, paid).0;
    RunInv(p, now, paid);
    SuccessIsRecorded(q, now + wait);
    RunConcat(s, now, first, paid);
    RunConcat(s, now, first + paid, Check(q, batch));
    assert |first + paid + Check(q, batch)| == 8;
    assert (first + paid + Check(q, batch))[4] == paid[0];
  }

  lemma PaysOut(p: Payout, now: Time, wait: nat, b: Batch)
    requires p.batches == [Batch(b.id, b.created, BatchOpen, ItemPending)] && b.status == BatchSuccess && b.item == ItemSuccess
    ensures Run(p, now, [Event(wait, false, Progress(0, b))]) == (p.(batches := [b]), now + wait)
  {
    assert [Event(wait, false, Progress(0, b))][1..] == [];
    assert p.batches[0 := b] == [b];
  }
}
