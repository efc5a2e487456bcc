/** The handlers as they run: each locks a row, rewrites it field by field and commits.
    Every method is proved to perform exactly the transaction of the Shop machine. */
module ShopSession {
  import opened Common
  import opened Pricing
  import opened OrderRows
  import opened Shop

  // order_inventory.quantities: a counter over the order's items.
  method Quantities(items: seq<Item>) returns (counts: map<nat, nat>)
    ensures counts.Keys == Models(items)
    ensures forall m :: m in counts ==> counts[m] == Qty(items, m)
  {
    counts := map[];
    for k := 0 to |items|
      invariant forall m :: m in counts ==> counts[m] == Qty(items[..k], m)
      invariant forall m :: m !in counts ==> Qty(items[..k], m) == 0
      invariant forall m :: m in counts ==> 0 < counts[m]
    {
      assert items[..k + 1] == items[..k] + [items[k]];
      forall m
        ensures Qty(items[..k + 1], m) == Qty(items[..k], m) + if items[k].model == m && !items[k].gone then 1 else 0
      {
        QtyAppend(items[..k], items[k], m);
      }
      if !items[k].gone {
        var m := items[k].model;
        counts := counts[m := (if m in counts then counts[m] else 0) + 1];
      }
    }
    assert items[..|items|] == items;
    forall m ensures m in counts <==> m in Models(items) { QtyPositive(items, m); }
  }

  lemma QtyAppend(items: seq<Item>, last: Item, m: nat)
    ensures Qty(items + [last], m) == Qty(items, m) + (if last.model == m && !last.gone then 1 else 0)
  {
    if items == [] {
      assert items + [last] == [last] && [last][1..] == [];
    } else {
      assert (items + [last])[1..] == items[1..] + [last];
      QtyAppend(items[1..], last, m);
    }
  }

  // The reservation loop: models in any order, and a short model undoes the whole savepoint.
  method TakeAll(stock: map<nat, nat>, items: seq<Item>) returns (left: Option<map<nat, nat>>)
    ensures left == if InStock(stock, items) then Some(Take(stock, items)) else None
  {
    var counts := Quantities(items);
    var todo, rest := counts.Keys, stock;
    while todo != {}
      invariant todo <= counts.Keys && rest.Keys == stock.Keys
      invariant forall m :: m in counts && m !in todo ==> m in stock && counts[m] <= stock[m]
      invariant forall m :: m in stock ==>
        rest[m] == if m in counts && m !in todo then stock[m] - counts[m] else stock[m]
    {
      var m :| m in todo;
      if m !in rest || rest[m] < counts[m] {
        return None;
      }
      rest := rest[m := rest[m] - counts[m]];
      todo := todo - {m};
    }
    forall m ensures 0 < Qty(items, m) <==> m in counts { QtyPositive(items, m); }
    assert rest == Take(stock, items);
    return Some(rest);
  }

  // The release and refund loop.
  method GiveAll(stock: map<nat, nat>, items: seq<Item>) returns (more: map<nat, nat>)
    ensures more == Give(stock, items)
  {
    var counts := Quantities(items);
    var todo := counts.Keys;
    more := stock;
    while todo != {}
      invariant todo <= counts.Keys && more.Keys == stock.Keys
      invariant forall m :: m in stock ==> more[m] == stock[m] + if m in counts && m !in todo then counts[m] else 0
    {
      var m :| m in todo;
      if m in more {
        more := more[m := more[m] + counts[m]];
      }
      todo := todo - {m};
    }
    forall m ensures 0 < Qty(items, m) <==> m in counts { QtyPositive(items, m); }
    assert more == Give(stock, items);
  }

  // The columns complete_order_payment writes once the capture is confirmed.
  method MarkPaid(order: Order, now: Time, captureId: Option<nat>, backordered: bool) returns (o: Order)
    ensures o == PaidRow(order, now, captureId, backordered)
  {
    o := order;
    if captureId.Some? { o := o.(captureId := captureId); }
    o := o.(status := Paid, paidAt := Some(now));
    if o.cart.kind == Print { o := o.(review := ReviewPending, goods := AwaitingReview); }
    if backordered { o := o.(goods := AwaitingStock); }
    o := o.(consumed := o.reserved);
    o := o.(reserved := false);
  }

  method MarkReviewed(order: Order, approve: bool, now: Time) returns (o: Order)
    ensures o == ReviewedRow(order, approve, now)
  {
    o := order;
    if o.cart.kind != Print || o.review == (if approve then Approved else RejectedByReview) { return; }
    if o.status != Paid || !(o.review == Unreviewed || o.review == ReviewPending) { return; }
    if approve {
      o := o.(review := Approved, goods := Preparing);
    } else {
      o := o.(review := RejectedByReview, goods := GoodsRejected, status := RefundPending);
      o := o.(refund := o.refund.(state := Queued, asked := Some(now)));
    }
  }

  // _apply_refund with its validations, and the two error exits of process_refund.
  method ApplyFinding(order: Order, finding: Finding) returns (o: Order)
    ensures o == Settled(order, finding)
  {
    o := order;
    if finding.NeedsPerson? { return o.(refund := o.refund.(state := ManualReview)); }
    if finding.Unknown? {
      if o.refund.state != RefundFailed && o.refund.state != ManualReview {
        o := o.(refund := o.refund.(state := RefundUnconfirmed));
      }
      return;
    }
    var doc := finding.doc;
    if doc.id.None? || doc.cents != Some(o.cart.total) || (o.refund.id.Some? && o.refund.id != doc.id)
       || (doc.capture.Some? && doc.capture != o.captureId) || doc.status.None? {
      return o.(refund := o.refund.(state := ManualReview));
    }
    o := o.(refund := o.refund.(id := doc.id));
    match doc.status.value {
      case RefundCompleted =>
        o := o.(status := Refunded, refund := o.refund.(state := RefundDone));
        if o.consumed { o := o.(consumed := false); }
      case RefundInProgress => o := o.(refund := o.refund.(state := RefundUnconfirmed));
      case RefundDenied => o := o.(refund := o.refund.(state := RefundFailed));
      case RefundCancelled => o := o.(refund := o.refund.(state := RefundFailed));
    }
  }

  // The inquiry part of process_refund: which provider document decides, and whether a refund is posted.
  method Investigate(o: Order, now: Time, a: RefundAnswers) returns (q: Inquiry)
    ensures q == Inquire(o, now, a)
    ensures q.posted ==> o.refund.id.None? && a.payment.Answer? && MayPost(o, a.payment.doc, now)
  {
    if o.refund.id.Some? { return Inquiry(FromLookup(a.known), o.captureId, false); }
    if a.payment.Unavailable? { return Inquiry(Unknown, o.captureId, false); }
    var p := a.payment.doc;
    if !p.matches || p.units != 1 || |p.captures| != 1 || p.captures[0].id.None?
       || (o.captureId.Some? && o.captureId != p.captures[0].id) {
      return Inquiry(NeedsPerson, o.captureId, false);
    }
    var capture := p.captures[0].id;
    if p.refunds != [] {
      if |p.refunds| != 1 || p.refunds[0].None? { return Inquiry(NeedsPerson, capture, false); }
      return Inquiry(FromLookup(a.listed), capture, false);
    }
    if !p.captures[0].completed || o.refund.asked.None? || now - o.refund.asked.value > REFUND_WINDOW {
      return Inquiry(NeedsPerson, capture, false);
    }
    return Inquiry(FromLookup(a.posted), capture, true);
  }

  class Session {
    var clock: Time
    var orders: seq<Order>
    var stock: map<nat, nat>
    var vouchers: map<nat, Voucher>
    var confirmations: seq<Confirmation>
    var captures: seq<Capture>

    constructor (now: Time, shelf: map<nat, nat>)
      ensures View() == Store(now, [], shelf, map[], [], [])
    {
      clock, orders, stock, vouchers, confirmations, captures := now, [], shelf, map[], [], [];
    }

    function View(): Store
      reads this
    {
      Store(clock, orders, stock, vouchers, confirmations, captures)
    }

    method ReserveInventory(i: nat, addressKnown: bool) returns (ok: bool)
      requires i < |orders|
      modifies this`orders, this`stock
      ensures ok == ReserveRow(old(orders[i]), old(stock), clock, addressKnown).Some?
      ensures var r := ReserveRow(old(orders[i]), old(stock), clock, addressKnown);
              var (o, left) := if r.Some? then r.value else (old(orders[i]), old(stock));
              orders == old(orders)[i := o] && stock == left
    {
      var o := orders[i];
      ok := addressKnown;
      if addressKnown && o.cart.kind == Print && !o.reserved {
        var left := TakeAll(stock, o.cart.items);
        ok := left.Some?;
        if ok {
          stock := left.value;
          orders := orders[i := o.(reserved := true, reservedUntil := Some(clock + HOLD))];
        }
      }
    }

    // Callers have checked that capture has not started.
    method ReleaseInventory(i: nat)
      requires i < |orders| && !orders[i].captureStarted
      modifies this`orders, this`stock
      ensures orders == old(orders)[i := ReleaseRow(old(orders[i]))]
      ensures stock == ReleasedStock(old(orders[i]), old(stock))
    {
      var o := orders[i];
      if o.reserved {
        stock := GiveAll(stock, o.cart.items);
        orders := orders[i := o.(reserved := false, reservedUntil := None)];
      }
    }

    predicate Due(o: Order)
      reads this`clock
    {
      && o.status == PendingPayment && o.reserved && !o.captureStarted
      && o.reservedUntil.Some? && o.reservedUntil.value <= clock
    }

    static function ExpirySteps(ids: seq<nat>): seq<Step> {
      seq(|ids|, k requires 0 <= k < |ids| => ExpireHold(ids[k]))
    }

    static lemma RunSnoc(s: Store, steps: seq<Step>, t: Step)
      ensures Run(s, steps + [t]) == Do(Run(s, steps), t)
      decreases |steps|
    {
      if steps == [] {
        assert steps + [t] == [t] && [t][1..] == [];
      } else {
        assert (steps + [t])[1..] == steps[1..] + [t];
        RunSnoc(Do(s, steps[0]), steps[1..], t);
      }
    }

    // Re-locks one overdue order; its checkout voucher goes with the hold.
    method ReleaseOverdue(i: nat)
      requires i < |orders|
      modifies this`orders, this`stock
      ensures View() == Do(old(View()), ExpireHold(i))
      ensures |orders| == |old(orders)| && !Due(orders[i])
      ensures forall j :: 0 <= j < |orders| && j != i ==> orders[j] == old(orders)[j]
    {
      if orders[i].status == PendingPayment && !orders[i].captureStarted
         && orders[i].reservedUntil.Some? && orders[i].reservedUntil.value <= clock {
        ReleaseInventory(i);
        orders := orders[i := orders[i].(voucher := None)];
      }
    }

    // The background sweep: exactly the overdue holds are released, each in its own
    // transaction, and none is overdue afterwards.
    method ExpireInventoryHolds() returns (ids: seq<nat>)
      modifies this`orders, this`stock
      ensures forall i :: i in ids <==> 0 <= i < |old(orders)| && old(Due(orders[i]))
      ensures View() == Run(old(View()), ExpirySteps(ids))
      ensures |orders| == |old(orders)| && forall i :: 0 <= i < |orders| ==> !Due(orders[i])
    {
      hide Do;
      ids := [];
      for i := 0 to |orders|
        invariant forall j :: j in ids <==> 0 <= j < i && Due(orders[j])
      {
        if Due(orders[i]) { ids := ids + [i]; }
      }
      for k := 0 to |ids|
        invariant |orders| == |old(orders)|
        invariant forall j :: 0 <= j < |orders| && j !in ids[..k] ==> orders[j] == old(orders)[j]
        invariant forall j :: j in ids[..k] ==> 0 <= j < |orders| && !Due(orders[j])
        invariant View() == Run(old(View()), ExpirySteps(ids[..k]))
      {
        var i := ids[k];
        assert i in ids && 0 <= i < |orders|;
        ReleaseOverdue(i);
        RunSnoc(old(View()), ExpirySteps(ids[..k]), ExpireHold(i));
        assert ExpirySteps(ids[..k + 1]) == ExpirySteps(ids[..k]) + [ExpireHold(i)];
        assert ids[..k + 1] == ids[..k] + [i];
      }
      assert ids[..|ids|] == ids;
    }

    method CancelOrder(i: nat)
      modifies this
      ensures View() == Do(old(View()), Step.CancelOrder(i))
    {
      if i < |orders| && orders[i].status == PendingPayment && !orders[i].captureStarted {
        ReleaseInventory(i);
        orders := orders[i := orders[i].(status := Cancelled)];
      }
    }

    // The item was read before the lock; deleting a row that is gone already changes none.
    method DeleteOrderItem(i: nat, k: nat)
      modifies this
      ensures View() == Do(old(View()), DeleteItem(i, k))
    {
      if i >= |orders| || k >= |orders[i].cart.items| || orders[i].status != PendingPayment { return; }
      if !Priceable(orders[i].cart) || EditLocked(orders[i]) || orders[i].captureStarted { return; }
      ReleaseInventory(i);
      var o := orders[i];
      var items := o.cart.items;
      var cart := o.cart.(price := Max(0, o.cart.price - items[k].price));
      cart := Reprice(cart.(items := items[k := items[k].(gone := true)]));
      o := o.(cart := cart, voucher := None);
      if Remaining(cart.items) == 0 {
        o := o.(status := Cancelled, cart := Reprice(cart.(shipping := 0)));
      }
      orders := orders[i := o];
    }

    // The cart branch of create_order: a new line joins an open order and reopens its checkout.
    method MergeIntoOrder(i: nat, model: nat, unitPrice: nat, quantity: nat, seen: nat) returns (merged: bool)
      modifies this
      ensures merged == CanMerge(old(View()), MergeOrder(i, model, unitPrice, quantity, seen))
      ensures View() == Do(old(View()), MergeOrder(i, model, unitPrice, quantity, seen))
    {
      merged := CanMerge(View(), MergeOrder(i, model, unitPrice, quantity, seen));
      if merged {
        var added := Repeat(Item(model, unitPrice, false), quantity);
        ReleaseInventory(i);
        var o := orders[i];
        var cart := o.cart.(items := o.cart.items + added, price := o.cart.price + PriceSum(added));
        orders := orders[i := o.(cart := Reprice(cart), voucher := None)];
      }
    }

    method CreatePaypalOrder(i: nat, addressKnown: bool, replace: bool, issued: nat) returns (voucher: Option<nat>)
      requires issued !in vouchers  // the provider never repeats a voucher id
      modifies this
      ensures View() == Do(old(View()), Checkout(i, addressKnown, replace, issued))
      ensures voucher.Some? ==> i < |orders| && orders[i].voucher == voucher
    {
      if i >= |orders| || orders[i].status != PendingPayment { return None; }
      if orders[i].captureStarted { return orders[i].voucher; }
      var ok := ReserveInventory(i, addressKnown);
      if !ok { return None; }
      if orders[i].voucher.None? || replace {
        vouchers := vouchers[issued := Voucher(i, orders[i].cart.total)];
        orders := orders[i := orders[i].(voucher := Some(issued))];
      }
      return orders[i].voucher;
    }

    // First transaction of complete_order_payment: verify, hold the stock, record the intent.
    method BeginCapture(i: nat, voucher: nat, status: PayStatus, addressKnown: bool)
      modifies this
      ensures View() == Do(old(View()), StartPayment(i, voucher, status, addressKnown))
    {
      if i >= |orders| || orders[i].voucher != Some(voucher) || orders[i].status != PendingPayment { return; }
      if voucher !in vouchers || vouchers[voucher] != Voucher(i, orders[i].cart.total) { return; }
      if status == PayOther { return; }
      var ok := ReserveInventory(i, addressKnown);
      if !ok && status != PayCompleted { return; }
      orders := orders[i := orders[i].(captureStarted := true, reservedUntil := None)];
      confirmations := confirmations + [Confirmation(i, voucher, status, !ok, true)];
    }

    // Second transaction: re-lock, capture an approved voucher, settle the order.
    method SettleCapture(c: nat, captured: bool, captureId: Option<nat>)
      modifies this
      ensures View() == Do(old(View()), FinishPayment(c, captured, captureId))
    {
      if c >= |confirmations| || !confirmations[c].live || confirmations[c].order >= |orders| { return; }
      var t := confirmations[c];
      confirmations := confirmations[c := t.(live := false)];
      var o := orders[t.order];
      if o.status == Paid || o.status == Shipping || o.status == Completed { return; }
      if o.voucher != Some(t.voucher) || t.voucher !in vouchers
         || vouchers[t.voucher] != Voucher(t.order, o.cart.total) { return; }
      if t.status != PayCompleted {
        captures := captures + [Capture(t.order, t.voucher, vouchers[t.voucher].amount)];
        if !captured { return; }
      }
      o := MarkPaid(o, clock, captureId, t.backordered);
      orders := orders[t.order := o];
    }

    method Review(i: nat, approve: bool)
      modifies this
      ensures View() == Do(old(View()), ReviewOrder(i, approve))
    {
      if i < |orders| {
        var o := MarkReviewed(orders[i], approve, clock);
        orders := orders[i := o];
      }
    }

    // update_fulfillment: approved pieces are printed, shipped and completed in that order.
    method UpdateFulfillment(i: nat, stage: Stage) returns (moved: bool)
      modifies this
      ensures View() == Do(old(View()), Fulfil(i, stage))
      ensures moved ==> i < |old(orders)| && old(orders[i]).review == Approved
    {
      if i >= |orders| { return false; }
      var o := orders[i];
      assert orders[i := o] == orders;
      if o.cart.kind != Print || o.review != Approved { return false; }
      if o.status != Paid && o.status != Shipping && o.status != Completed { return false; }
      match stage {
        case ToPrinting =>
          if o.status != Paid || o.goods != Preparing { return false; }
          o := o.(goods := Printing);
        case ToShipping =>
          if o.status != Paid || o.goods != Printing { return false; }
          o := o.(goods := InTransit, status := Shipping);
        case ToCompleted =>
          if o.goods == Delivered || o.status != Shipping { return false; }
          o := o.(goods := Delivered, status := Completed);
      }
      orders := orders[i := o];
      return true;
    }

    // process_refund: one transaction under the row lock, with the provider's answers.
    method ProcessRefund(i: nat, a: RefundAnswers) returns (posted: bool)
      modifies this
      ensures View() == Do(old(View()), RefundOrder(i, a))
      ensures posted ==> i < |old(orders)| && AwaitsRefund(old(orders[i])) && old(orders[i]).refund.id.None?
                         && a.payment.Answer? && MayPost(old(orders[i]), a.payment.doc, clock)
    {
      posted := false;
      if i >= |orders| || !AwaitsRefund(orders[i]) { return; }
      var o := orders[i];
      var q := Investigate(o, clock, a);
      posted := q.posted;
      var settled := ApplyFinding(o.(captureId := q.capture, refund := o.refund.(checked := Some(clock))), q.finding);
      if o.consumed && !settled.consumed {
        stock := GiveAll(stock, o.cart.items);
      }
      orders := orders[i := settled];
    }
  }
}
