/** One creator payout against PayPal (creator_payouts.py, paypal_payouts.py): a lease
    and an attempt counter around calls that always carry the same sender id. */
module Payouts {
  import opened Common

  datatype Status =
    PendingReview | Processing | Unclaimed | OnHold | InManualReview | PaidOut | Failed | Returned | Rejected

  predicate Held(s: Status) {
    s == PendingReview || s == Processing || s == Unclaimed || s == OnHold || s == InManualReview
  }

  predicate Reconciled(s: Status) { s == Processing || s == Unclaimed || s == OnHold || s == PaidOut }

  predicate Closed(s: Status) { s == Failed || s == Returned || s == Rejected }

  datatype ItemStatus =
    ItemPending | ItemUnclaimed | ItemOnHold | ItemBlocked | ItemSuccess | ItemFailed | ItemDenied
    | ItemReturned | ItemRefunded | ItemReversed | ItemCanceled

  function Mapped(s: ItemStatus): Status {
    match s
    case ItemSuccess => PaidOut
    case ItemPending => Processing
    case ItemUnclaimed => Unclaimed
    case ItemOnHold => OnHold
    case ItemBlocked => OnHold
    case ItemFailed => Failed
    case ItemDenied => Failed
    case ItemReturned => Returned
    case ItemRefunded => Returned
    case ItemReversed => Returned
    case ItemCanceled => Returned
  }

  datatype BatchStatus = BatchOpen | BatchSuccess | BatchDenied | BatchCanceled

  datatype Code = InvalidBatch | Mismatch | DuplicateUnresolved | UnknownStatus | RejectedByPaypal | Unconfirmed
                | RetryWindowExpired

  datatype Row = Row(
    id: nat, cents: nat, email: string, status: Status, batch: Option<nat>, firstSent: Option<Time>,
    lease: Option<Time>, nextCheck: Option<Time>, attempts: nat, lastError: Option<Code>,
    balanceChanged: bool)  // review_note == "balance_changed"

  // A batch document as parsed from JSON; None marks a missing or malformed value.
  datatype ItemDoc = ItemDoc(item: Option<nat>, receiver: string, usd: bool, cents: Option<nat>, status: Option<ItemStatus>)
  datatype BatchDoc = BatchDoc(batch: Option<nat>, sender: Option<nat>, status: BatchStatus, items: seq<ItemDoc>)
  datatype Reply = Document(doc: BatchDoc) | Error(code: Code, definitive: bool)

  const LEASE: int := 90
  const RETRY_WINDOW: int := 29 * DAY

  // ---- the row functions ----

  predicate ItemMatches(r: Row, i: ItemDoc) {
    i.item == Some(r.id) && i.receiver == r.email && i.usd && i.cents == Some(r.cents)
  }

  // apply_paypal_result: the new row and the error it raised, if any. The batch id sticks even then.
  function Applied(r: Row, d: BatchDoc): (Row, Option<Code>) {
    if d.batch.None? then (r, Some(InvalidBatch))
    else if d.sender != Some(r.id) || (r.batch.Some? && d.batch != r.batch) then (r, Some(Mismatch))
    else
      var b := r.(batch := d.batch);
      if |d.items| == 0 then
        (if r.status != PaidOut && (d.status == BatchDenied || d.status == BatchCanceled) then b.(status := Failed) else b, None)
      else if |d.items| != 1 || !ItemMatches(r, d.items[0]) then (b, Some(Mismatch))
      else if d.items[0].status.None? then (b, Some(UnknownStatus))
      else
        var mapped := Mapped(d.items[0].status.value);
        (if r.status == PaidOut && mapped != PaidOut && mapped != Returned then b else b.(status := mapped), None)
  }

  datatype Call = Call(attempt: nat, batch: Option<nat>, at: Time)

  predicate Sendable(r: Row, now: Time, force: bool) {
    && (Reconciled(r.status) || r.status == InManualReview)
    && !(r.lease.Some? && r.lease.value > now)
    && (force || !(r.nextCheck.Some? && r.nextCheck.value > now))
  }

  predicate WindowExpired(r: Row, now: Time) {
    r.batch.None? && r.firstSent.Some? && r.firstSent.value < now - RETRY_WINDOW
  }

  // First transaction of process_payout; the call is what it goes on to send.
  function Claimed(r: Row, now: Time, force: bool, adjusted: bool): (Row, Option<Call>) {
    if !Sendable(r, now, force) then (r, None)
    else if WindowExpired(r, now) then (r.(status := InManualReview, lastError := Some(RetryWindowExpired)), None)
    else if r.status == InManualReview && r.batch.None? then (r, None)
    else if r.firstSent.None? && adjusted then (r.(status := Rejected, balanceChanged := true), None)
    else
      (r.(firstSent := if r.firstSent.None? then Some(now) else r.firstSent,
          lease := Some(now + LEASE), attempts := r.attempts + 1),
       Some(Call(r.attempts + 1, r.batch, now)))
  }

  function Power2(n: nat): nat { if n == 0 then 1 else 2 * Power2(n - 1) }

  function Interval(status: Status, attempt: nat): int {
    if status == PaidOut then DAY else Min(900, 30 * Power2(Min(attempt, 5)))
  }

  predicate NeedsPerson(error: Option<Code>) {
    error == Some(Mismatch) || error == Some(InvalidBatch) || error == Some(DuplicateUnresolved) || error == Some(UnknownStatus)
  }

  // Second transaction of process_payout.
  function SettledRow(r: Row, call: Call, reply: Reply, now: Time): Row {
    if r.attempts != call.attempt then r
    else
      var (a, raised) := if reply.Document? then Applied(r, reply.doc) else (r, Some(reply.code));
      var definitive := reply.Error? && reply.definitive;
      var s := if a.status != PaidOut && NeedsPerson(raised) then InManualReview
               else if definitive && call.batch.None? && call.attempt == 1 then Failed
               else a.status;
      a.(status := s, lastError := raised, lease := None, nextCheck := Some(now + Interval(s, call.attempt)))
  }

  function ReviewedRow(r: Row, approve: bool, adjusted: bool): Row {
    if r.status != PendingReview then r
    else if !approve then r.(status := Rejected)
    else if adjusted then r
    else r.(status := Processing)
  }

  // ---- the provider ----

  datatype Batch = Batch(id: nat, created: Time, status: BatchStatus, item: ItemStatus)

  predicate DeadHeader(s: BatchStatus) { s == BatchDenied || s == BatchCanceled }

  predicate Final(s: ItemStatus) { Mapped(s) == Failed || Mapped(s) == Returned }

  // Terminal statuses are final, except that a successful payment may still come back.
  predicate ItemEvolves(a: ItemStatus, b: ItemStatus) {
    a == b || (!Final(a) && a != ItemSuccess) || (a == ItemSuccess && Mapped(b) == Returned)
  }

  predicate Evolves(a: Batch, b: Batch) {
    && b.id == a.id && b.created == a.created && ItemEvolves(a.item, b.item)
    && (DeadHeader(a.status) ==> b.status == a.status)
    && (DeadHeader(b.status) ==> b.item != ItemSuccess)
  }

  // The batch holds no unreturned payment and never will.
  predicate NeverPaysAgain(b: Batch) { DeadHeader(b.status) || Final(b.item) }

  // What a document says about its batch was true of it at some earlier time.
  predicate Truthful(batches: seq<Batch>, id: nat, d: BatchDoc) {
    d.batch.Some? && d.sender == Some(id) ==>
      exists k :: 0 <= k < |batches| && batches[k].id == d.batch.value && Reports(batches[k], d)
  }

  predicate Reports(b: Batch, d: BatchDoc) {
    && (|d.items| == 0 && DeadHeader(d.status) ==> b.status == d.status)
    && (|d.items| == 1 && d.items[0].status.Some? ==> ItemEvolves(d.items[0].status.value, b.item))
  }

  // ---- one payout, its calls and the batches of its sender id ----

  // A call after its lease committed. `answer` is set once the provider handled it;
  // `waiting` while the worker that sent it is still alive.
  datatype Flight = Flight(call: Call, answer: Option<Reply>, waiting: bool)

  datatype Payout = Payout(row: Row, flights: seq<Flight>, batches: seq<Batch>)

  const DEDUPLICATES: int := 30 * DAY
  const LONGEST_DELIVERY: int := DAY

  datatype Step =
    | Claim(force: bool)
    | Handle(flight: nat, accept: bool, id: nat, reply: Reply)  // the provider executes the request
    | Settle(flight: nat)                                       // the worker read the reply
    | TimeOut(flight: nat)                                      // the worker gave up waiting
    | Crash(flight: nat)
    | Progress(batch: nat, to: Batch)
    | Poke                                                      // a signed webhook only schedules a check
    | ReviewPayout(approve: bool)

  predicate Recognised(p: Payout, now: Time) {
    exists k :: 0 <= k < |p.batches| && now <= p.batches[k].created + DEDUPLICATES
  }

  // Executing one request: reads change nothing, a known sender id creates nothing, and only
  // a request that created nothing may be answered with a definitive rejection.
  function HandleCall(p: Payout, k: nat, accept: bool, id: nat, reply: Reply, now: Time): Payout
    requires k < |p.flights|
  {
    var f := p.flights[k];
    var creates := f.call.batch.None? && !Recognised(p, now) && accept
                   && forall j :: 0 <= j < |p.batches| ==> p.batches[j].id != id;
    var batches := if creates then p.batches + [Batch(id, now, BatchOpen, ItemPending)] else p.batches;
    if f.answer.Some? || (f.call.batch.None? && now > f.call.at + LONGEST_DELIVERY)
       || (reply.Document? && !Truthful(batches, p.row.id, reply.doc))
       || (reply.Error? && reply.definitive && (creates || f.call.batch.Some?))
    then p
    else p.(batches := batches, flights := p.flights[k := f.(answer := Some(reply))])
  }

  function Do(p: Payout, t: Step, now: Time, adjusted: bool): Payout {
    match t
    case Claim(force) =>
      var (row, call) := Claimed(p.row, now, force, adjusted);
      p.(row := row, flights := if call.Some? then p.flights + [Flight(call.value, None, true)] else p.flights)
    case Handle(k, accept, id, reply) =>
      if k < |p.flights| then HandleCall(p, k, accept, id, reply, now) else p
    case Settle(k) =>
      if k < |p.flights| && p.flights[k].waiting && p.flights[k].answer.Some?
      then p.(row := SettledRow(p.row, p.flights[k].call, p.flights[k].answer.value, now),
              flights := p.flights[k := p.flights[k].(waiting := false)])
      else p
    case TimeOut(k) =>
      if k < |p.flights| && p.flights[k].waiting
      then p.(row := SettledRow(p.row, p.flights[k].call, Error(Unconfirmed, false), now),
              flights := p.flights[k := p.flights[k].(waiting := false)])
      else p
    case Crash(k) =>
      if k < |p.flights| then p.(flights := p.flights[k := p.flights[k].(waiting := false)]) else p
    case Progress(k, to) =>
      if k < |p.batches| && Evolves(p.batches[k], to) then p.(batches := p.batches[k := to]) else p
    case Poke => p.(row := p.row.(nextCheck := Some(now)))
    case ReviewPayout(approve) => p.(row := ReviewedRow(p.row, approve, adjusted))
  }
}
