/** The refund machine writes its order as the shop does: once an order is being captured and is no
    longer unpaid, every transaction of the shop acts on it as a step of the refund machine. */
module RefundShop {
  import opened Common
  import opened Tables
  import opened OrderRows
  import Shop
  import Refunds

  // Confirmations of order i between their two transactions.
  function LiveOn(i: nat): Shop.Confirmation -> int {
    (c: Shop.Confirmation) => if c.live && c.order == i then 1 else 0
  }

  function Live(s: Shop.Store, i: nat): int { Sum(LiveOn(i), s.confirmations) }

  // The refund machine looks at order i of the shop.
  predicate Watches(w: Refunds.World, s: Shop.Store, i: nat) {
    i < |s.orders| && w.now == s.now && w.order == s.orders[i] && w.live == Live(s, i)
  }

  lemma LiveNatural(s: Shop.Store, i: nat)
    ensures 0 <= Live(s, i)
    ensures forall c :: 0 <= c < |s.confirmations| && s.confirmations[c].live && s.confirmations[c].order == i ==> 1 <= Live(s, i)
  {
    SumNonNegative(LiveOn(i), s.confirmations);
    forall c | 0 <= c < |s.confirmations| && s.confirmations[c].live && s.confirmations[c].order == i ensures 1 <= Live(s, i) {
      SumAtLeastRow(LiveOn(i), s.confirmations, c);
    }
  }

  // One confirmation ends.
  lemma ConfirmationEnds(s: Shop.Store, c: nat, i: nat)
    requires c < |s.confirmations|
    ensures Sum(LiveOn(i), s.confirmations[c := s.confirmations[c].(live := false)])
            == Live(s, i) - LiveOn(i)(s.confirmations[c])
  {
    SumUpdate(LiveOn(i), s.confirmations, c, s.confirmations[c].(live := false));
  }

  // A confirmation of another order or of an order that has just begun does not concern order i.
  lemma ConfirmationBegins(s: Shop.Store, c: Shop.Confirmation, i: nat)
    requires c.order != i
    ensures Sum(LiveOn(i), s.confirmations + [c]) == Live(s, i)
  {
    SumInsert(LiveOn(i), s.confirmations, c);
  }

  // What a confirmation verified still fits its order when it settles.
  lemma StillMatches(s: Shop.Store, c: nat)
    requires Shop.Valid(s) && c < |s.confirmations|
    ensures var f := s.confirmations[c]; f.order < |s.orders| && Shop.PaymentMatches(s, f.order, f.voucher)
  {
    hide Shop.RowOk;
    assert Shop.Bound(s, s.confirmations[c].order, s.confirmations[c].voucher);
  }

  lemma FinishIsSettle(s: Shop.Store, t: Shop.Step, w: Refunds.World, i: nat) returns (step: Refunds.Step)
    requires Shop.Valid(s) && Watches(w, s, i) && (t.FinishPayment? || t.AbandonPayment?)
    ensures Watches(Refunds.Do(w, step), Shop.Do(s, t), i)
  {
    hide Shop.Valid, Shop.PaymentMatches, PaidRow, Refunds.SyncWorld, Refunds.Accept, ReviewedRow, FulfilledRow, BoundCart, Sum;
    step := Refunds.Tick(0);
    if t.confirmation < |s.confirmations| {
      var c := s.confirmations[t.confirmation];
      ConfirmationEnds(s, t.confirmation, i);
      LiveNatural(s, i);
      StillMatches(s, t.confirmation);
      if c.live && c.order == i {
        step := if t.AbandonPayment? then Refunds.Settle(false, None, false)
                else Refunds.Settle(c.status == Shop.PayCompleted || t.captured, t.captureId, c.backordered);
      }
    }
  }

  predicate UnderCapture(s: Shop.Store, i: nat) {
    i < |s.orders| && s.orders[i].captureStarted && s.orders[i].status != PendingPayment && s.orders[i].status != Cancelled
  }

  lemma CaptureNotCancelled(s: Shop.Store, i: nat)
    requires Shop.Valid(s) && i < |s.orders| && s.orders[i].captureStarted && s.orders[i].status != PendingPayment
    ensures UnderCapture(s, i)
  {
    assert Shop.RowOk(s.orders[i], s.stock);
  }

  lemma StartIsNothing(s: Shop.Store, t: Shop.Step, w: Refunds.World, i: nat)
    requires UnderCapture(s, i) && Watches(w, s, i) && t.StartPayment?
    ensures Watches(w, Shop.Do(s, t), i)
  {
    hide InStock, Take, ReserveRow;
    if t.order != i {
      ConfirmationBegins(s, Shop.Confirmation(t.order, t.voucher, t.status, true, true), i);
      ConfirmationBegins(s, Shop.Confirmation(t.order, t.voucher, t.status, false, true), i);
    }
  }

  // Edits, holds, checkouts and closings refuse an order under capture.
  lemma EditIsNothing(s: Shop.Store, t: Shop.Step, w: Refunds.World, i: nat)
    requires UnderCapture(s, i) && Watches(w, s, i) && !(t.RefundOrder? && t.order == i)
    requires !t.StartPayment? && !t.FinishPayment? && !t.AbandonPayment? && !t.Tick?
    requires !t.ReviewOrder? && !t.Fulfil? && !t.BindCode?
    ensures Watches(w, Shop.Do(s, t), i)
  {
    hide ProcessRefund, InStock, Take, Give, MergedRow, WithoutItem, NewRow, ReserveRow, ReleasedStock, StockAfter, Sum;
  }

  // Refund transactions of the order itself are the Sync steps; everything else is here.
  lemma ShopStepIsRefundStep(s: Shop.Store, t: Shop.Step, w: Refunds.World, i: nat) returns (step: Refunds.Step)
    requires Shop.Valid(s) && Watches(w, s, i) && s.orders[i].captureStarted && s.orders[i].status != PendingPayment
    requires !(t.RefundOrder? && t.order == i)
    ensures Watches(Refunds.Do(w, step), Shop.Do(s, t), i)
  {
    hide Shop.Valid, UnderCapture, ReviewedRow, FulfilledRow, BoundCart, Shop.Finish, Shop.Start, Refunds.SyncWorld, Sum, Shop.MayStart,
      Shop.CanMerge, Shop.CanDeleteItem, Shop.CanPlace;
    CaptureNotCancelled(s, i);
    step := Refunds.Tick(0);
    match t {
      case Tick(seconds) => step := Refunds.Tick(seconds);
      case FinishPayment(_, _, _) => step := FinishIsSettle(s, t, w, i);
      case AbandonPayment(_) => step := FinishIsSettle(s, t, w, i);
      case StartPayment(_, _, _, _) => StartIsNothing(s, t, w, i);
      case ReviewOrder(j, approve) => if j == i { step := Refunds.Review(approve); }
      case Fulfil(j, stage) => if j == i { step := Refunds.Fulfil(stage); }
      case BindCode(j, owner) => if j == i { step := Refunds.Bind(owner); }
      case _ => EditIsNothing(s, t, w, i);
    }
  }

  predicate Posts(w: Refunds.World, a: RefundAnswers) { AwaitsRefund(w.order) && Inquire(w.order, w.now, a).posted }

  // With answers that do not invent refunds, the shop's refund transaction is a Sync step that is
  // not interrupted; the provider and the requests on their way are the refund machine's own.
  lemma RefundIsSync(s: Shop.Store, t: Shop.Step, w: Refunds.World, i: nat, reached: bool, id: nat)
    requires Watches(w, s, i) && t.RefundOrder? && t.order == i
    requires Refunds.TruthfulLookup(w.provider, t.answers.known) && Refunds.TruthfulLookup(w.provider, t.answers.listed)
    requires t.answers.posted.Answer? ==>
               && reached
               && Refunds.Truthful(if Posts(w, t.answers) then Refunds.Accept(w, id) else w.provider, t.answers.posted.doc)
    ensures Watches(Refunds.Do(w, Refunds.Sync(t.answers, reached, id, false)), Shop.Do(s, t), i)
  {
    hide ProcessRefund, Inquire, Refunds.Truthful, Refunds.Accept;
  }

  // A first rejection in the shop is where the refund results begin. An order that a stale confirmation
  // settled again may still carry the id of its refund; a second rejection then begins elsewhere.
  lemma RejectionIsRejected(s: Shop.Store, i: nat)
    requires Shop.Valid(s) && i < |s.orders| && s.orders[i].status == Paid && s.orders[i].cart.kind == Print
    requires s.orders[i].review == ReviewPending && s.orders[i].refund.id.None?
    ensures var s' := Shop.Do(s, Shop.ReviewOrder(i, false));
            forall terms :: 0 <= Live(s', i) ==>
              Refunds.Rejected(Refunds.World(terms, s'.now, s'.orders[i], [], [], 0, Live(s', i)))
  {
    assert Shop.RowOk(s.orders[i], s.stock);
  }
}
