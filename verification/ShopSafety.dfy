/** Every transaction keeps the shop valid; once capture starts an order is frozen,
    so all capture calls for an order charge one voucher, with the order's total. */
module ShopSafety {
  import opened Common
  import opened Tables
  import opened Pricing
  import opened OrderRows
  import opened Shop

  // What capture_started protects.
  predicate KeepsBinding(before: Order, after: Order) {
    before.captureStarted ==>
      after.captureStarted && after.voucher == before.voucher && after.cart.items == before.cart.items
      && after.cart.total == before.cart.total
  }

  predicate Frozen(s: Store, s': Store) {
    |s.orders| <= |s'.orders| && forall i :: 0 <= i < |s.orders| ==> KeepsBinding(s.orders[i], s'.orders[i])
  }

  // The goal of every step lemma.
  predicate Safe(s: Store, s': Store) { Valid(s') && Frozen(s, s') }

  lemma QtyConcat(a: seq<Item>, b: seq<Item>, m: nat)
    ensures Qty(a + b, m) == Qty(a, m) + Qty(b, m)
  {
    if a == [] {
      assert a + b == b;
    } else {
      assert (a + b)[1..] == a[1..] + b;
      QtyConcat(a[1..], b, m);
    }
  }

  lemma PriceConcat(a: seq<Item>, b: seq<Item>)
    ensures PriceSum(a + b) == PriceSum(a) + PriceSum(b)
  {
    if a == [] {
      assert a + b == b;
    } else {
      assert (a + b)[1..] == a[1..] + b;
      PriceConcat(a[1..], b);
    }
  }

  // Removing an item takes its price away, unless it is gone already.
  lemma PriceWithout(items: seq<Item>, k: nat)
    requires k < |items|
    ensures PriceSum(items[k := items[k].(gone := true)]) == PriceSum(items) - if items[k].gone then 0 else items[k].price
  {
    var rest := items[k := items[k].(gone := true)];
    if k > 0 {
      assert rest[1..] == items[1..][k - 1 := items[k].(gone := true)];
      PriceWithout(items[1..], k - 1);
    } else {
      assert rest[1..] == items[1..];
    }
  }

  // Edits keep discount and total the repricing of the price, and never raise it above the items.
  lemma EditsKeepPrices(c: Cart, k: nat, added: seq<Item>)
    requires CartPriced(c)
    ensures CartPriced(MergedCart(c, added))
    ensures k < |c.items| ==> CartPriced(CartWithout(c, k))
  {
    PriceConcat(c.items, added);
    if k < |c.items| {
      PriceWithout(c.items, k);
    }
  }

  lemma NewRowPriced(buyer: nat, kind: Kind, items: seq<Item>, shipping: nat, offer: Option<Offer>, bps: nat)
    requires bps <= 9900 && ValidOffer(offer)
    ensures RowOk(NewRow(buyer, kind, items, shipping, offer, bps), map[])
  {
  }

  lemma PutValid(s: Store, i: nat, o: Order, stock: map<nat, nat>)
    requires Valid(s) && i < |s.orders|
    requires RowOk(o, stock) && stock.Keys == s.stock.Keys
    requires o.voucher.Some? ==> o.voucher.value in s.vouchers && s.vouchers[o.voucher.value] == Voucher(i, o.cart.total)
    requires KeepsBinding(s.orders[i], o)
    ensures Safe(s, Put(s, i, o, stock))
  {
    var s' := Put(s, i, o, stock);
    forall j | 0 <= j < |s'.orders|
      ensures RowOk(s'.orders[j], s'.stock)
    {
      assert RowOk(s.orders[j], s.stock);
    }
  }

  // Everything process_refund leaves alone.
  predicate SameSale(o: Order, o': Order) {
    && o'.cart == o.cart && o'.voucher == o.voucher && o'.reserved == o.reserved
    && o'.captureStarted == o.captureStarted && o'.paidAt == o.paidAt && o'.review == o.review
    && o'.refund.asked == o.refund.asked
  }

  lemma RefundShape(o: Order, now: Time, a: RefundAnswers)
    ensures var o' := ProcessRefund(o, now, a);
            && SameSale(o, o')
            && ((o'.status == o.status && o'.consumed == o.consumed)
                || (AwaitsRefund(o) && o'.status == Refunded && !o'.consumed))
  {
  }

  // ---- rows rewritten by a handler stay well formed ----

  predicate RowKept(o: Order, o': Order, stock: map<nat, nat>) { RowOk(o', stock) && KeepsBinding(o, o') }

  lemma SaleKept(o: Order, o': Order, stock: map<nat, nat>)
    requires RowOk(o, stock) && SameSale(o, o')
    requires (o'.status == o.status && o'.consumed == o.consumed)
          || (o.status == RefundPending && o'.status == Refunded && !o'.consumed)
    ensures RowKept(o, o', stock)
  {
  }

  lemma ReviewKept(o: Order, approve: bool, now: Time, stock: map<nat, nat>)
    requires RowOk(o, stock)
    ensures RowKept(o, ReviewedRow(o, approve, now), stock)
  {
  }

  lemma FulfilKept(o: Order, stage: Stage, stock: map<nat, nat>)
    requires RowOk(o, stock)
    ensures RowKept(o, FulfilledRow(o, stage), stock)
  {
  }

  lemma BindKept(o: Order, owner: nat, stock: map<nat, nat>)
    requires RowOk(o, stock)
    ensures RowKept(o, o.(cart := BoundCart(o.cart, owner)), stock)
  {
  }

  // A hold changes two columns of the row and no model's presence in the stock table.
  lemma ReserveKept(o: Order, stock: map<nat, nat>, now: Time, known: bool)
    requires RowOk(o, stock) && o.status == PendingPayment && ReserveRow(o, stock, now, known).Some?
    ensures var (o', stock') := ReserveRow(o, stock, now, known).value;
            && RowOk(o', stock') && stock'.Keys == stock.Keys
            && o' == o.(reserved := o'.reserved, reservedUntil := o'.reservedUntil)
  {
    hide CartPriced;
  }

  lemma CheckoutValid(s: Store, t: Step)
    requires Valid(s) && t.Checkout?
    ensures Safe(s, Do(s, t))
  {
    hide CartPriced, ReserveRow;
    var i := t.order;
    if Editable(s, i) && ReserveRow(s.orders[i], s.stock, s.now, t.addressKnown).Some? {
      assert RowOk(s.orders[i], s.stock);
      ReserveKept(s.orders[i], s.stock, s.now, t.addressKnown);
      var (o, stock) := ReserveRow(s.orders[i], s.stock, s.now, t.addressKnown).value;
      if o.voucher.Some? && !t.replace {
        PutValid(s, i, o, stock);
      } else if t.voucher !in s.vouchers {
        var s1 := s.(vouchers := s.vouchers[t.voucher := Voucher(i, o.cart.total)]);
        PutValid(s1, i, o.(voucher := Some(t.voucher)), stock);
      }
    }
  }

  lemma StartValid(s: Store, t: Step)
    requires Valid(s) && t.StartPayment?
    ensures Safe(s, Do(s, t))
  {
    hide CartPriced, ReserveRow;
    var i := t.order;
    if MayStart(s, i, t.voucher, t.status) {
      var o := s.orders[i];
      assert RowOk(o, s.stock);
      var held := ReserveRow(o, s.stock, s.now, t.addressKnown);
      if held.Some? {
        ReserveKept(o, s.stock, s.now, t.addressKnown);
        PutValid(s, i, held.value.0.(captureStarted := true, reservedUntil := None), held.value.1);
      } else if t.status == PayCompleted {
        PutValid(s, i, o.(captureStarted := true, reservedUntil := None), s.stock);
      }
    }
  }

  lemma FinishValid(s: Store, t: Step)
    requires Valid(s) && t.FinishPayment?
    ensures Safe(s, Do(s, t))
  {
    hide CartPriced;
    var c := t.confirmation;
    if c < |s.confirmations| && s.confirmations[c].live {
      var f := s.confirmations[c];
      assert Bound(s, f.order, f.voucher);
      var o := s.orders[f.order];
      assert RowOk(o, s.stock);
      var done := s.(confirmations := s.confirmations[c := f.(live := false)]);
      assert Valid(done);
      var called := done.(captures := s.captures + [Capture(f.order, f.voucher, o.cart.total)]);
      assert Valid(called);
      if !Fulfilled(o.status) && PaymentMatches(s, f.order, f.voucher) {
        var base := if f.status == PayCompleted then done else called;
        PutValid(base, f.order, PaidRow(o, s.now, t.captureId, f.backordered), s.stock);
      }
    }
  }

  lemma MergeValid(s: Store, t: Step)
    requires Valid(s) && t.MergeOrder?
    ensures Safe(s, Do(s, t))
  {
    if CanMerge(s, t) {
      var i := t.order;
      var o := s.orders[i];
      assert RowOk(o, s.stock);
      var added := Repeat(Item(t.model, t.unitPrice, false), t.quantity);
      EditsKeepPrices(o.cart, 0, added);
      hide MergedCart, CartPriced;
      PutValid(s, i, MergedRow(o, added), ReleasedStock(o, s.stock));
    }
  }

  lemma DeleteItemValid(s: Store, t: Step)
    requires Valid(s) && t.DeleteItem?
    ensures Safe(s, Do(s, t))
  {
    var i := t.order;
    if CanDeleteItem(s, i, t.position) {
      var o := s.orders[i];
      assert RowOk(o, s.stock);
      EditsKeepPrices(o.cart, t.position, []);
      hide CartWithout, CartPriced;
      PutValid(s, i, WithoutItem(o, t.position), ReleasedStock(o, s.stock));
    }
  }

  lemma ReleaseValid(s: Store, t: Step)
    requires Valid(s)
    requires t.CancelOrder? || t.ExpireHold?
    ensures Safe(s, Do(s, t))
  {
    hide CartPriced;
    var i := t.order;
    if Editable(s, i) {
      var o := s.orders[i];
      assert RowOk(o, s.stock);
      if t.CancelOrder? {
        PutValid(s, i, ReleaseRow(o).(status := Cancelled), ReleasedStock(o, s.stock));
      } else {
        PutValid(s, i, ReleaseRow(o).(voucher := None), ReleasedStock(o, s.stock));
      }
    }
  }

  lemma CloseValid(s: Store, t: Step)
    requires Valid(s)
    requires t.DeleteOrder? || t.HoldForAddress?
    ensures Safe(s, Do(s, t))
  {
    hide CartPriced;
    var i := t.order;
    if i < |s.orders| {
      var o := s.orders[i];
      assert RowOk(o, s.stock);
      if t.DeleteOrder? && o.status == Cancelled {
        PutValid(s, i, o.(status := Deleted), s.stock);
      }
      if t.HoldForAddress? && PaymentMatches(s, i, t.voucher) && o.status == PendingPayment {
        PutValid(s, i, o.(captureStarted := true, reservedUntil := None), s.stock);
      }
    }
  }

  lemma ReviewValid(s: Store, t: Step)
    requires Valid(s)
    requires t.ReviewOrder? || t.Fulfil?
    ensures Safe(s, Do(s, t))
  {
    hide CartPriced;
    var i := t.order;
    if i < |s.orders| {
      var o := s.orders[i];
      assert RowOk(o, s.stock);
      if t.ReviewOrder? {
        ReviewKept(o, t.approve, s.now, s.stock);
        PutValid(s, i, ReviewedRow(o, t.approve, s.now), s.stock);
      } else {
        FulfilKept(o, t.stage, s.stock);
        PutValid(s, i, FulfilledRow(o, t.stage), s.stock);
      }
    }
  }

  lemma RefundValid(s: Store, t: Step)
    requires Valid(s)
    requires t.RefundOrder? || t.BindCode?
    ensures Safe(s, Do(s, t))
  {
    hide CartPriced, ProcessRefund;
    var i := t.order;
    if i < |s.orders| {
      var o := s.orders[i];
      assert RowOk(o, s.stock);
      if t.RefundOrder? {
        var o' := ProcessRefund(o, s.now, t.answers);
        RefundShape(o, s.now, t.answers);
        SaleKept(o, o', s.stock);
        PutValid(s, i, o', StockAfter(o, o', s.stock));
      } else {
        BindKept(o, t.owner, s.stock);
        PutValid(s, i, o.(cart := BoundCart(o.cart, t.owner)), s.stock);
      }
    }
  }

  // Steps that touch no existing order.
  lemma OutsideValid(s: Store, t: Step)
    requires Valid(s)
    requires t.Tick? || t.SetStock? || t.PlaceOrder? || t.AbandonPayment?
    ensures Safe(s, Do(s, t))
  {
    hide CartPriced;
    var s' := Do(s, t);
    if t.PlaceOrder? && CanPlace(s, t) {
      NewRowPriced(t.buyer, t.kind, Repeat(Item(t.model, t.unitPrice, false), t.quantity), t.shipping, t.offer, t.globalBps);
    }
    forall i | 0 <= i < |s.orders| ensures RowOk(s'.orders[i], s'.stock) {
      assert RowOk(s.orders[i], s.stock);
    }
  }

  lemma StepValid(s: Store, t: Step)
    requires Valid(s)
    ensures Safe(s, Do(s, t))
  {
    hide Do, Valid, Safe;
    match t {
      case MergeOrder(_, _, _, _, _) => MergeValid(s, t);
      case DeleteItem(_, _) => DeleteItemValid(s, t);
      case CancelOrder(_) => ReleaseValid(s, t);
      case ExpireHold(_) => ReleaseValid(s, t);
      case Checkout(_, _, _, _) => CheckoutValid(s, t);
      case StartPayment(_, _, _, _) => StartValid(s, t);
      case FinishPayment(_, _, _) => FinishValid(s, t);
      case DeleteOrder(_) => CloseValid(s, t);
      case HoldForAddress(_, _) => CloseValid(s, t);
      case ReviewOrder(_, _) => ReviewValid(s, t);
      case Fulfil(_, _) => ReviewValid(s, t);
      case RefundOrder(_, _) => RefundValid(s, t);
      case BindCode(_, _) => RefundValid(s, t);
      case _ => OutsideValid(s, t);
    }
  }

  lemma {:induction false} RunValid(s: Store, steps: seq<Step>)
    requires Valid(s)
    ensures Valid(Run(s, steps))
    decreases |steps|
  {
    hide Do, Valid;
    if steps != [] {
      StepValid(s, steps[0]);
      RunValid(Do(s, steps[0]), steps[1..]);
    }
  }

  // ---- one voucher per order ----

  // After capture_started commits, no transaction changes the voucher, items or total,
  // and none cancels, expires or deletes the order.
  lemma {:induction false} CaptureFreezesOrder(s: Store, steps: seq<Step>, i: nat)
    requires Valid(s) && i < |s.orders| && s.orders[i].captureStarted
    ensures i < |Run(s, steps).orders| && KeepsBinding(s.orders[i], Run(s, steps).orders[i])
    ensures Run(s, steps).orders[i].status != Cancelled && Run(s, steps).orders[i].status != Deleted
    decreases |steps|
  {
    hide Do;
    if steps == [] {
      assert RowOk(s.orders[i], s.stock);
    } else {
      StepValid(s, steps[0]);
      CaptureFreezesOrder(Do(s, steps[0]), steps[1..], i);
    }
  }

  // Over any interleaving, however many confirmations of one order run at once,
  // every capture call names the same voucher and charges the order's total.
  lemma OneVoucherPerOrder(s: Store, steps: seq<Step>, a: nat, b: nat)
    requires Valid(s)
    requires a < |Run(s, steps).captures| && b < |Run(s, steps).captures|
    requires Run(s, steps).captures[a].order == Run(s, steps).captures[b].order
    ensures Run(s, steps).captures[a] == Run(s, steps).captures[b]
    ensures var c := Run(s, steps).captures[a];
            c.order < |Run(s, steps).orders|
            && Run(s, steps).orders[c.order].voucher == Some(c.voucher)
            && Run(s, steps).orders[c.order].cart.total == c.amount
            && c.voucher in Run(s, steps).vouchers
            && Run(s, steps).vouchers[c.voucher] == Voucher(c.order, c.amount)
  {
    RunValid(s, steps);
    var e := Run(s, steps);
    assert Bound(e, e.captures[a].order, e.captures[a].voucher) && Bound(e, e.captures[b].order, e.captures[b].voucher);
  }

  // ---- nothing is produced or shipped without a person's approval ----

  predicate InProduction(o: Order) {
    || o.status == Shipping || o.status == Completed
    || o.goods == Preparing || o.goods == Printing || o.goods == InTransit || o.goods == Delivered
  }

  predicate HumanApproved(o: Order) { o.cart.kind == Print && InProduction(o) ==> o.review == Approved }

  predicate AllApproved(s: Store) { forall i :: 0 <= i < |s.orders| ==> HumanApproved(s.orders[i]) }

  lemma RowApproved(o: Order, now: Time, captureId: Option<nat>, backordered: bool, approve: bool, stage: Stage,
                    a: RefundAnswers, owner: nat)
    requires HumanApproved(o)
    ensures !Fulfilled(o.status) ==> HumanApproved(PaidRow(o, now, captureId, backordered))
    ensures HumanApproved(ReviewedRow(o, approve, now)) && HumanApproved(FulfilledRow(o, stage))
    ensures HumanApproved(ProcessRefund(o, now, a)) && HumanApproved(o.(cart := BoundCart(o.cart, owner)))
  {
  }

  lemma PaymentApproved(s: Store, t: Step, i: nat)
    requires i < |s.orders| && HumanApproved(s.orders[i])
    requires t.StartPayment? || t.FinishPayment? || t.Checkout? || t.HoldForAddress?
    ensures i < |Do(s, t).orders| && HumanApproved(Do(s, t).orders[i])
  {
    hide PaidRow, InStock, Take, HumanApproved;
    var o := s.orders[i];
    SameApproved(o, Do(s, t).orders[i]);
    if t.FinishPayment? && t.confirmation < |s.confirmations| {
      RowApproved(o, s.now, t.captureId, s.confirmations[t.confirmation].backordered, true, ToPrinting, NoAnswers(), 0);
    }
  }

  lemma OrderApproved(s: Store, t: Step, i: nat)
    requires i < |s.orders| && HumanApproved(s.orders[i])
    ensures i < |Do(s, t).orders| && HumanApproved(Do(s, t).orders[i])
  {
    hide ReviewedRow, FulfilledRow, ProcessRefund, BoundCart, InStock, Take, Give, MergedRow, WithoutItem, NewRow, Start, Finish,
      ReserveRow, PaymentMatches, ReleasedStock, StockAfter, HumanApproved;
    var o := s.orders[i];
    match t {
      case StartPayment(_, _, _, _) => PaymentApproved(s, t, i);
      case FinishPayment(_, _, _) => PaymentApproved(s, t, i);
      case Checkout(_, _, _, _) => PaymentApproved(s, t, i);
      case HoldForAddress(_, _) => PaymentApproved(s, t, i);
      case ReviewOrder(_, approve) => RowApproved(o, s.now, None, false, approve, ToPrinting, NoAnswers(), 0);
      case Fulfil(_, stage) => RowApproved(o, s.now, None, false, true, stage, NoAnswers(), 0);
      case RefundOrder(_, a) => RowApproved(o, s.now, None, false, true, ToPrinting, a, 0);
      case BindCode(_, owner) => RowApproved(o, s.now, None, false, true, ToPrinting, NoAnswers(), owner);
      case MergeOrder(_, model, price, n, _) => if Priceable(o.cart) { MergeApproved(o, Repeat(Item(model, price, false), n)); }
      case DeleteItem(_, k) => if Priceable(o.cart) && k < |o.cart.items| { DeleteApproved(o, k); }
      case _ => SameApproved(o, Do(s, t).orders[i]);
    }
  }

  lemma OnlyPlacing(s: Store, t: Step)
    ensures !(t.PlaceOrder? && CanPlace(s, t)) ==> |Do(s, t).orders| == |s.orders|
  {
    hide InStock, Take, Give, MergedRow, WithoutItem, ProcessRefund;
  }

  lemma StepApproved(s: Store, t: Step)
    requires AllApproved(s)
    ensures AllApproved(Do(s, t))
  {
    hide HumanApproved, NewRow, Start, Finish, MergedRow, WithoutItem, InStock, Take, Give;
    forall i | 0 <= i < |Do(s, t).orders| ensures HumanApproved(Do(s, t).orders[i]) {
      if i < |s.orders| {
        assert HumanApproved(s.orders[i]);
        OrderApproved(s, t, i);
      } else {
        OnlyPlacing(s, t);
        NewApproved(t.buyer, t.kind, Repeat(Item(t.model, t.unitPrice, false), t.quantity), t.shipping, t.offer, t.globalBps);
      }
    }
  }

  // Rows whose status, goods and review did not move towards production.
  lemma SameApproved(o: Order, o': Order)
    ensures HumanApproved(o) && o'.cart.kind == o.cart.kind && o'.review == o.review && o'.goods == o.goods
            && (o'.status == o.status || (o'.status != Shipping && o'.status != Completed))
            ==> HumanApproved(o')
  {
  }

  lemma MergeApproved(o: Order, added: seq<Item>)
    requires HumanApproved(o) && Priceable(o.cart)
    ensures HumanApproved(MergedRow(o, added))
  {
  }

  lemma DeleteApproved(o: Order, k: nat)
    requires HumanApproved(o) && Priceable(o.cart) && k < |o.cart.items|
    ensures HumanApproved(WithoutItem(o, k))
  {
  }

  lemma NewApproved(buyer: nat, kind: Kind, items: seq<Item>, shipping: nat, offer: Option<Offer>, bps: nat)
    requires bps <= 9900 && ValidOffer(offer)
    ensures HumanApproved(NewRow(buyer, kind, items, shipping, offer, bps))
  {
  }

  // In every reachable store a print order is in production, shipped or completed only after
  // its approval, also when payments, reviews and refunds overlap.
  lemma {:induction false} NothingShipsUnreviewed(s: Store, steps: seq<Step>)
    requires AllApproved(s)
    ensures AllApproved(Run(s, steps))
    decreases |steps|
  {
    hide Do, AllApproved;
    if steps != [] {
      StepApproved(s, steps[0]);
      NothingShipsUnreviewed(Do(s, steps[0]), steps[1..]);
    }
  }

  // A shop that opens without orders keeps all of this: valid rows, one capture voucher and amount
  // per order, nothing in production without its approval.
  lemma FromOpening(now: Time, stock: map<nat, nat>, steps: seq<Step>)
    ensures var s := Run(Store(now, [], stock, map[], [], []), steps);
            && Valid(s) && AllApproved(s)
            && forall a, b :: 0 <= a < |s.captures| && 0 <= b < |s.captures| && s.captures[a].order == s.captures[b].order ==>
                 s.captures[a] == s.captures[b]
  {
    hide Run, Valid;
    var opening := Store(now, [], stock, map[], [], []);
    OpeningValid(now, stock);
    RunValid(opening, steps);
    NothingShipsUnreviewed(opening, steps);
    var s := Run(opening, steps);
    forall a, b | 0 <= a < |s.captures| && 0 <= b < |s.captures| && s.captures[a].order == s.captures[b].order
      ensures s.captures[a] == s.captures[b]
    {
      OneVoucherPerOrder(opening, steps, a, b);
    }
  }
}
