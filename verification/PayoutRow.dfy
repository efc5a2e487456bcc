/** The payout row as process_payout, apply_paypal_result and review_payout update it. */
module PayoutRow {
  import opened Common
  import opened Payouts

  class PayoutRow {
    const id: nat
    const cents: nat
    const email: string
    var status: Status
    var batch: Option<nat>
    var firstSent: Option<Time>
    var lease: Option<Time>
    var nextCheck: Option<Time>
    var attempts: nat
    var lastError: Option<Code>
    var balanceChanged: bool

    constructor (id: nat, cents: nat, email: string)
      ensures View() == Row(id, cents, email, PendingReview, None, None, None, None, 0, None, false)
    {
      this.id, this.cents, this.email := id, cents, email;
      status, batch, firstSent, lease, nextCheck := PendingReview, None, None, None, None;
      attempts, lastError, balanceChanged := 0, None, false;
    }

    function View(): Row
      reads this
    {
      Row(id, cents, email, status, batch, firstSent, lease, nextCheck, attempts, lastError, balanceChanged)
    }

    // Commits a lease before any I/O; the call keeps the attempt and batch it was made with.
    method ClaimLease(now: Time, force: bool, adjusted: bool) returns (call: Option<Call>)
      modifies this
      ensures (View(), call) == Claimed(old(View()), now, force, adjusted)
    {
      call := None;
      if !(status == Processing || status == Unclaimed || status == OnHold || status == PaidOut
           || status == InManualReview) { return; }
      if lease.Some? && lease.value > now { return; }
      if !force && nextCheck.Some? && nextCheck.value > now { return; }
      if batch.None? && firstSent.Some? && firstSent.value < now - RETRY_WINDOW {
        status := InManualReview;
        lastError := Some(RetryWindowExpired);
        return;
      }
      if status == InManualReview && batch.None? { return; }
      if firstSent.None? {
        if adjusted {
          status := Rejected;
          balanceChanged := true;
          return;
        }
        firstSent := Some(now);
      }
      lease := Some(now + LEASE);
      attempts := attempts + 1;
      call := Some(Call(attempts, batch, now));
    }

    method ApplyPaypalResult(doc: BatchDoc) returns (raised: Option<Code>)
      modifies this`status, this`batch
      ensures (View(), raised) == Applied(old(View()), doc)
    {
      if doc.batch.None? { return Some(InvalidBatch); }
      if doc.sender != Some(id) || (batch.Some? && doc.batch != batch) { return Some(Mismatch); }
      batch := doc.batch;
      if |doc.items| == 0 {
        if status != PaidOut && (doc.status == BatchDenied || doc.status == BatchCanceled) { status := Failed; }
        return None;
      }
      if |doc.items| != 1 { return Some(Mismatch); }
      var item := doc.items[0];
      if item.item != Some(id) || item.receiver != email || !item.usd || item.cents != Some(cents) {
        return Some(Mismatch);
      }
      if item.status.None? { return Some(UnknownStatus); }
      var mapped := Mapped(item.status.value);
      if status == PaidOut && mapped != PaidOut && mapped != Returned { return None; }
      status := mapped;
      return None;
    }

    static method CheckInterval(status: Status, attempt: nat) returns (seconds: int)
      ensures seconds == Interval(status, attempt)
      ensures status != PaidOut ==> 30 <= seconds <= 900
    {
      if status == PaidOut { return DAY; }
      var doublings, power := Min(attempt, 5), 1;
      for k := 0 to doublings
        invariant power == Power2(k) && 1 <= power
      {
        power := 2 * power;
      }
      return Min(900, 30 * power);
    }

    // The reply is applied only while its attempt is still the current one.
    method Settle(call: Call, reply: Reply, now: Time)
      modifies this
      ensures View() == SettledRow(old(View()), call, reply, now)
    {
      if attempts != call.attempt { return; }
      var raised, definitive := None, false;
      if reply.Document? {
        raised := ApplyPaypalResult(reply.doc);
      } else {
        raised, definitive := Some(reply.code), reply.definitive;
      }
      if status != PaidOut && NeedsPerson(raised) {
        status := InManualReview;
      } else if definitive && call.batch.None? && call.attempt == 1 {
        status := Failed;
      }
      lastError := raised;
      lease := None;
      var interval := CheckInterval(status, call.attempt);
      nextCheck := Some(now + interval);
    }

    method Review(approve: bool, adjusted: bool)
      modifies this`status
      ensures View() == ReviewedRow(old(View()), approve, adjusted)
    {
      if status != PendingReview { return; }
      if approve {
        if adjusted { return; }
        status := Processing;
      } else {
        status := Rejected;
      }
    }
  }
}
