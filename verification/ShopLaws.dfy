/** When the shop accepts a hold, a payment, a decision or a shipment, what it then writes, and one
    order from its placing to its delivery (order_inventory.py, routers/order.py, routers/figure_admin.py). */
module ShopLaws {
  import opened Common
  import opened Pricing
  import opened OrderRows
  import opened Shop

  // ---- holds ----

  ghost predicate Covered(stock: map<nat, nat>, items: seq<Item>) {
    forall m :: Qty(items, m) > 0 ==> m in stock && Qty(items, m) <= stock[m]
  }

  lemma CoveredIff(stock: map<nat, nat>, items: seq<Item>)
    ensures InStock(stock, items) <==> Covered(stock, items)
  {
    forall m { QtyPositive(items, m); }
  }

  predicate Unheld(s: Store, i: nat) {
    i < |s.orders| && s.orders[i].status == PendingPayment && !s.orders[i].captureStarted && !s.orders[i].reserved
    && s.orders[i].cart.kind == Print
  }

  // A checkout of an open print order goes through exactly with an address and every piece on the shelf.
  // Then the pieces leave the shelf for thirty minutes and the order has a voucher over its total.
  lemma CheckoutIff(s: Store, i: nat, known: bool, v: nat)
    requires Unheld(s, i) && s.orders[i].voucher.None? && v !in s.vouchers
    ensures var (s', o) := (Do(s, Checkout(i, known, false, v)), s.orders[i]);
            if known && Covered(s.stock, o.cart.items) then
              && s'.orders == s.orders[i := o.(reserved := true, reservedUntil := Some(s.now + 30 * 60), voucher := Some(v))]
              && s'.stock.Keys == s.stock.Keys && (forall m :: m in s.stock ==> s'.stock[m] == s.stock[m] - Qty(o.cart.items, m))
              && s'.vouchers == s.vouchers[v := Voucher(i, o.cart.total)]
              && s'.now == s.now && s'.confirmations == s.confirmations && s'.captures == s.captures
            else s' == s
  {
    hide Take, InStock, Covered, Qty;
    CoveredIff(s.stock, s.orders[i].cart.items);
    if InStock(s.stock, s.orders[i].cart.items) { TakesExactly(s.stock, s.orders[i].cart.items); }
  }

  lemma TakesExactly(stock: map<nat, nat>, items: seq<Item>)
    requires InStock(stock, items)
    ensures Take(stock, items).Keys == stock.Keys
    ensures forall m :: m in stock ==> Take(stock, items)[m] == stock[m] - Qty(items, m)
  {
    forall m | m in stock ensures Take(stock, items)[m] == stock[m] - Qty(items, m) {
      TakeExact(stock, items, m);
    }
  }

  // A hold that is overdue goes back to the shelf with its voucher, and so does one of a cancelled order.
  lemma HoldReturns(s: Store, i: nat, m: nat)
    requires i < |s.orders| && s.orders[i].status == PendingPayment && !s.orders[i].captureStarted && s.orders[i].reserved && m in s.stock
    ensures var (e, c, o) := (Do(s, ExpireHold(i)), Do(s, Step.CancelOrder(i)), s.orders[i]);
            var due := o.reservedUntil.Some? && o.reservedUntil.value <= s.now;
            && (!due ==> e == s)
            && (due ==>
                  && e.orders == s.orders[i := o.(reserved := false, reservedUntil := None, voucher := None)]
                  && m in e.stock && e.stock[m] == s.stock[m] + Qty(o.cart.items, m))
            && c.orders == s.orders[i := o.(reserved := false, reservedUntil := None, status := Cancelled)]
            && m in c.stock && c.stock[m] == s.stock[m] + Qty(o.cart.items, m)
  {
  }

  // ---- placing and merging ----

  lemma RepeatedItems(model: nat, price: nat, n: nat, m: nat)
    ensures var items := Repeat(Item(model, price, false), n);
            PriceSum(items) == n * price && Qty(items, m) == (if m == model then n else 0) && Remaining(items) == n
  {
    if n > 0 {
      assert Repeat(Item(model, price, false), n)[1..] == Repeat(Item(model, price, false), n - 1);
      RepeatedItems(model, price, n - 1, m);
    }
  }

  // A print order that is accepted holds its quantity of the model at the unit price and is open.
  lemma PlacedOrder(s: Store, buyer: nat, model: nat, unit: nat, n: nat, shipping: nat, offer: Option<Offer>, bps: nat, seen: nat)
    requires bps <= 9900 && ValidOffer(offer) && (offer.Some? ==> offer.value.creator != buyer)
    ensures var s' := Do(s, PlaceOrder(buyer, Print, model, unit, n, shipping, offer, bps, seen));
            if model in s.stock && 0 < n <= seen then
              && |s'.orders| == |s.orders| + 1 && s' == s.(orders := s'.orders) && s'.orders[..|s.orders|] == s.orders
              && var (o, p) := (s'.orders[|s.orders|], PriceOffer(n * unit, shipping, offer, bps));
                 && o.cart.kind == Print && o.cart.buyer == buyer && o.cart.price == n * unit && o.cart.shipping == shipping
                 && (forall m :: Qty(o.cart.items, m) == if m == model then n else 0)
                 && o.cart.discount == p.discount && o.cart.total == p.total && o.cart.commission == p.commission
                 && o.cart.creator == (if offer.Some? then Some(offer.value.creator) else None)
                 && o.status == PendingPayment && o.voucher.None? && !o.reserved && !o.captureStarted && !o.consumed
                 && o.review == Unreviewed && o.refund.state == NoRefund
            else s' == s
  {
    RepeatedItems(model, unit, n, 0);
    forall m { RepeatedItems(model, unit, n, m); }
  }

  // A merged line adds its pieces and their price and reopens the checkout; the order keeps at most ten
  // pieces, and within the stock that was seen.
  lemma MergedLine(s: Store, i: nat, model: nat, unit: nat, n: nat, seen: nat, m: nat)
    requires Unheld(s, i) && Priceable(s.orders[i].cart) && s.orders[i].voucher.None?
    ensures var (s', o) := (Do(s, MergeOrder(i, model, unit, n, seen)), s.orders[i]);
            if model in s.stock && 0 < n && Remaining(o.cart.items) + n <= 10 && Qty(o.cart.items, model) + n <= seen then
              && |s'.orders| == |s.orders| && s'.stock == s.stock
              && var (c, c') := (o.cart, s'.orders[i].cart);
                 && c'.price == c.price + n * unit && Qty(c'.items, m) == Qty(c.items, m) + (if m == model then n else 0)
                 && c'.total == PriceOffer(c.price + n * unit, c.shipping, c.offer, c.globalBps).total
            else s' == s
  {
    var c := s.orders[i].cart;
    RepeatedItems(model, unit, n, m);
    QtyJoin(c.items, Repeat(Item(model, unit, false), n), m);
  }

  lemma QtyJoin(a: seq<Item>, b: seq<Item>, m: nat)
    ensures Qty(a + b, m) == Qty(a, m) + Qty(b, m)
  {
    if a == [] {
      assert a + b == b;
    } else {
      assert (a + b)[1..] == a[1..] + b;
      QtyJoin(a[1..], b, m);
    }
  }

  // A removed item takes its price with it, reopens the checkout and is not ordered any more; the last one
  // closes the order without shipping.
  lemma RemovedItem(s: Store, i: nat, k: nat, m: nat)
    requires Unheld(s, i) && Priceable(s.orders[i].cart) && s.orders[i].voucher.None?
    requires k < |s.orders[i].cart.items| && !s.orders[i].cart.items[k].gone
    ensures var (s', o) := (Do(s, DeleteItem(i, k)), s.orders[i]);
            var (c, x) := (o.cart, o.cart.items[k]);
            && |s'.orders| == |s.orders| && s'.stock == s.stock
            && var (o', c') := (s'.orders[i], s'.orders[i].cart);
               && c'.items == c.items[k := Item(x.model, x.price, true)]
               && Qty(c'.items, m) == Qty(c.items, m) - (if m == x.model then 1 else 0)
               && c'.price == Max(0, c.price - x.price)
               && (if forall j :: 0 <= j < |c.items| && j != k ==> c.items[j].gone
                   then o'.status == Cancelled && c'.shipping == 0
                   else o'.status == PendingPayment && c'.shipping == c.shipping)
               && c'.total == PriceOffer(c'.price, c'.shipping, c.offer, c.globalBps).total
  {
    var c := s.orders[i].cart;
    var rest := c.items[k := Item(c.items[k].model, c.items[k].price, true)];
    QtyGone(c.items, k, m);
    NoneLeftIff(rest);
    assert forall j :: 0 <= j < |c.items| && j != k ==> rest[j] == c.items[j];
    assert (forall j :: 0 <= j < |rest| ==> rest[j].gone) <==> forall j :: 0 <= j < |c.items| && j != k ==> c.items[j].gone;
  }

  lemma QtyGone(items: seq<Item>, k: nat, m: nat)
    requires k < |items| && !items[k].gone
    ensures Qty(items[k := Item(items[k].model, items[k].price, true)], m) == Qty(items, m) - if m == items[k].model then 1 else 0
  {
    var rest := items[k := Item(items[k].model, items[k].price, true)];
    if k > 0 {
      assert rest[1..] == items[1..][k - 1 := Item(items[k].model, items[k].price, true)];
      QtyGone(items[1..], k - 1, m);
    } else {
      assert rest[1..] == items[1..];
    }
  }

  lemma NoneLeftIff(items: seq<Item>)
    ensures Remaining(items) == 0 <==> forall j :: 0 <= j < |items| ==> items[j].gone
  {
    if items != [] {
      NoneLeftIff(items[1..]);
      assert forall j :: 0 <= j < |items[1..]| ==> items[1..][j] == items[j + 1];
      assert (forall j :: 0 <= j < |items[1..]| ==> items[1..][j].gone) && items[0].gone ==>
        forall j :: 0 <= j < |items| ==> j == 0 || items[j] == items[1..][j - 1];
    }
  }

  // A discounted order is not edited once it has a voucher, and no order is once it is being captured.
  lemma EditsRefused(s: Store, i: nat, k: nat, model: nat, unit: nat, n: nat, seen: nat)
    requires i < |s.orders|
    requires s.orders[i].status != PendingPayment || s.orders[i].captureStarted
             || ((s.orders[i].cart.offer.Some? || s.orders[i].cart.globalBps > 0) && s.orders[i].voucher.Some?)
    ensures Do(s, DeleteItem(i, k)) == s && Do(s, MergeOrder(i, model, unit, n, seen)) == s
  {
  }

  // ---- payment ----

  predicate VoucherFits(s: Store, i: nat) {
    && i < |s.orders| && s.orders[i].voucher.Some?
    && var v := s.orders[i].voucher.value; v in s.vouchers && s.vouchers[v] == Voucher(i, s.orders[i].cart.total)
  }

  // The first transaction of a confirmation: a held order with its own approved or completed voucher is
  // marked before anything is captured, and its hold no longer runs out.
  lemma StartMarks(s: Store, i: nat, v: nat, status: PayStatus)
    requires VoucherFits(s, i) && s.orders[i].status == PendingPayment && s.orders[i].reserved
    ensures Do(s, StartPayment(i, v, status, true)) ==
            if s.orders[i].voucher == Some(v) && status != PayOther
            then s.(orders := s.orders[i := s.orders[i].(captureStarted := true, reservedUntil := None)],
                    confirmations := s.confirmations + [Confirmation(i, v, status, false, true)])
            else s
  {
  }

  // The second one: unless the order is paid already, an approved voucher is captured for the order's
  // total; a captured or completed payment makes the order paid, its hold
  // consumed and, for a print, waiting for review.
  lemma FinishSettles(s: Store, c: nat, captured: bool, id: Option<nat>)
    requires c < |s.confirmations| && s.confirmations[c].live && VoucherFits(s, s.confirmations[c].order)
    requires s.orders[s.confirmations[c].order].voucher == Some(s.confirmations[c].voucher)
    ensures var (s', f) := (Do(s, FinishPayment(c, captured, id)), s.confirmations[c]);
            var o := s.orders[f.order];
            var settled := o.status == Paid || o.status == Shipping || o.status == Completed;
            && s'.stock == s.stock && s'.confirmations == s.confirmations[c := f.(live := false)]
            && s'.captures == (if settled || f.status == PayCompleted then s.captures
                               else s.captures + [Capture(f.order, f.voucher, o.cart.total)])
            && (settled || (f.status != PayCompleted && !captured) ==> s'.orders == s.orders)
            && (!settled && (f.status == PayCompleted || captured) ==>
                  && |s'.orders| == |s.orders| && (forall j :: 0 <= j < |s.orders| && j != f.order ==> s'.orders[j] == s.orders[j])
                  && var o' := s'.orders[f.order];
                     && o'.status == Paid && o'.paidAt == Some(s.now) && o'.consumed == o.reserved && !o'.reserved && o'.cart == o.cart
                     && o'.captureId == (if id.Some? then id else o.captureId)
                     && (o.cart.kind == Print ==> o'.review == ReviewPending)
                     && (o.cart.kind == Print && !f.backordered ==> o'.goods == AwaitingReview)
                     && (f.backordered ==> o'.goods == AwaitingStock))
  {
  }

  // ---- review and fulfilment ----

  // A decision falls exactly on a paid print order that has none; approval starts production, rejection
  // queues the refund.
  lemma ReviewIff(o: Order, approve: bool, now: Time)
    ensures var o' := ReviewedRow(o, approve, now);
            if o.cart.kind == Print && o.status == Paid && (o.review == Unreviewed || o.review == ReviewPending) then
              if approve then o' == o.(review := Approved, goods := Preparing)
              else o' == o.(review := RejectedByReview, goods := GoodsRejected, status := RefundPending,
                            refund := Refunding(Queued, o.refund.id, Some(now), o.refund.checked))
            else o' == o
  {
  }

  // Preparing, printing, in transit, delivered: an approved print order takes exactly the next stage.
  lemma FulfilIff(o: Order, stage: Stage)
    ensures var o' := FulfilledRow(o, stage);
            var approved := o.cart.kind == Print && o.review == Approved;
            && (approved && stage == ToPrinting && o.status == Paid && o.goods == Preparing ==> o' == o.(goods := Printing))
            && (approved && stage == ToShipping && o.status == Paid && o.goods == Printing ==> o' == o.(goods := InTransit, status := Shipping))
            && (approved && stage == ToCompleted && o.status == Shipping && o.goods != Delivered ==>
                  o' == o.(goods := Delivered, status := Completed))
            && (!approved ==> o' == o)
            && (stage == ToPrinting && !(o.status == Paid && o.goods == Preparing) ==> o' == o)
            && (stage == ToShipping && !(o.status == Paid && o.goods == Printing) ==> o' == o)
            && (stage == ToCompleted && !(o.status == Shipping && o.goods != Delivered) ==> o' == o)
  {
  }

  // ---- an order from its placing to its delivery ----

  function Sale(i: nat, c: nat, v: nat, id: nat): seq<Step> {
    [Checkout(i, true, false, v), StartPayment(i, v, PayApproved, true), FinishPayment(c, true, Some(id)),
     ReviewOrder(i, true), Fulfil(i, ToPrinting), Fulfil(i, ToShipping), Fulfil(i, ToCompleted)]
  }

  // From any store: an open print order whose pieces are on the shelf can be paid, approved, produced and
  // delivered. One capture over its total is made, and exactly its pieces are gone.
  lemma OrderIsDelivered(s: Store, i: nat, v: nat, id: nat)
    requires Unheld(s, i) && s.orders[i].voucher.None? && v !in s.vouchers && Covered(s.stock, s.orders[i].cart.items)
    requires (s.orders[i].review == Unreviewed || s.orders[i].review == ReviewPending) && !s.orders[i].consumed
    ensures var (e, o) := (Run(s, Sale(i, |s.confirmations|, v, id)), s.orders[i]);
            && |e.orders| == |s.orders| && (forall j :: 0 <= j < |s.orders| && j != i ==> e.orders[j] == s.orders[j])
            && e.orders[i] == o.(status := Completed, goods := Delivered, review := Approved, voucher := Some(v), reserved := false,
                                 reservedUntil := None, captureStarted := true, consumed := true, captureId := Some(id),
                                 paidAt := Some(s.now))
            && e.captures == s.captures + [Capture(i, v, o.cart.total)]
            && e.stock.Keys == s.stock.Keys && forall m :: m in s.stock ==> e.stock[m] == s.stock[m] - Qty(o.cart.items, m)
  {
    hide Run, Take, InStock, Covered;
    var (o, c) := (s.orders[i], |s.confirmations|);
    var steps := Sale(i, c, v, id);
    PaidFor(s, i, v, id);
    var s3 := Do(Do(Do(s, steps[0]), steps[1]), steps[2]);
    var paid := s3.orders[i];
    ReviewIff(paid, true, s3.now);
    FulfilIff(ReviewedRow(paid, true, s3.now), ToPrinting);
    Produced(s3, i);
    UnfoldSeven(s, steps);
  }

  lemma PaidFor(s: Store, i: nat, v: nat, id: nat)
    requires Unheld(s, i) && s.orders[i].voucher.None? && v !in s.vouchers && Covered(s.stock, s.orders[i].cart.items)
    ensures var (steps, o) := (Sale(i, |s.confirmations|, v, id), s.orders[i]);
            var s3 := Do(Do(Do(s, steps[0]), steps[1]), steps[2]);
            && s3.orders == s.orders[i := o.(status := Paid, goods := AwaitingReview, review := ReviewPending, voucher := Some(v),
                                            reserved := false, reservedUntil := None, captureStarted := true, consumed := true,
                                            captureId := Some(id), paidAt := Some(s.now))]
            && s3.captures == s.captures + [Capture(i, v, o.cart.total)] && s3.now == s.now
            && s3.stock.Keys == s.stock.Keys && forall m :: m in s.stock ==> s3.stock[m] == s.stock[m] - Qty(o.cart.items, m)
  {
    hide Do, Covered, Qty;
    var (o, c) := (s.orders[i], |s.confirmations|);
    CheckoutIff(s, i, true, v);
    var s1 := Do(s, Checkout(i, true, false, v));
    StartMarks(s1, i, v, PayApproved);
    var s2 := Do(s1, StartPayment(i, v, PayApproved, true));
    FinishSettles(s2, c, true, Some(id));
    FinishRow(s2, c, Some(id));
    var s3 := Do(s2, FinishPayment(c, true, Some(id)));
  }

  lemma FinishRow(s: Store, c: nat, id: Option<nat>)
    requires c < |s.confirmations| && s.confirmations[c].live && VoucherFits(s, s.confirmations[c].order)
    requires s.orders[s.confirmations[c].order].voucher == Some(s.confirmations[c].voucher)
    requires s.orders[s.confirmations[c].order].status == PendingPayment && s.orders[s.confirmations[c].order].reserved
    requires s.orders[s.confirmations[c].order].cart.kind == Print && !s.confirmations[c].backordered && id.Some?
    ensures var (s', i) := (Do(s, FinishPayment(c, true, id)), s.confirmations[c].order);
            && s'.now == s.now
            && s'.orders == s.orders[i := s.orders[i].(status := Paid, goods := AwaitingReview, review := ReviewPending,
                                                       reserved := false, consumed := true, captureId := id, paidAt := Some(s.now))]
  {
  }

  lemma Produced(s: Store, i: nat)
    requires i < |s.orders| && s.orders[i].cart.kind == Print && s.orders[i].status == Paid && s.orders[i].review == ReviewPending
    ensures var e := Do(Do(Do(Do(s, ReviewOrder(i, true)), Fulfil(i, ToPrinting)), Fulfil(i, ToShipping)), Fulfil(i, ToCompleted));
            e == s.(orders := s.orders[i := s.orders[i].(review := Approved, goods := Delivered, status := Completed)])
  {
    var o := s.orders[i];
    var s1 := Do(s, ReviewOrder(i, true));
    assert s1 == s.(orders := s.orders[i := o.(review := Approved, goods := Preparing)]);
    var s2 := Do(s1, Fulfil(i, ToPrinting));
    assert s2 == s.(orders := s.orders[i := o.(review := Approved, goods := Printing)]);
    var s3 := Do(s2, Fulfil(i, ToShipping));
    assert s3 == s.(orders := s.orders[i := o.(review := Approved, goods := InTransit, status := Shipping)]);
    var s4 := Do(s3, Fulfil(i, ToCompleted));
  }

  lemma UnfoldSeven(s: Store, steps: seq<Step>)
    requires |steps| == 7
    ensures Run(s, steps) ==
            Do(Do(Do(Do(Do(Do(Do(s, steps[0]), steps[1]), steps[2]), steps[3]), steps[4]), steps[5]), steps[6])
  {
    hide Do;
    var a, b, c := steps[1..], steps[2..], steps[3..];
    assert a[1..] == b && b[1..] == c;
    assert Run(s, steps) == Run(Do(s, steps[0]), a);
    var s1 := Do(s, steps[0]);
    assert Run(s1, a) == Run(Do(s1, a[0]), b);
    var s2 := Do(s1, a[0]);
    assert Run(s2, b) == Run(Do(s2, b[0]), c);
    UnfoldFour(Do(s2, b[0]), c);
  }

  lemma UnfoldFour(s: Store, steps: seq<Step>)
    requires |steps| == 4
    ensures Run(s, steps) == Do(Do(Do(Do(s, steps[0]), steps[1]), steps[2]), steps[3])
  {
    hide Do;
    var a, b, c := steps[1..], steps[2..], steps[3..];
    assert a[1..] == b && b[1..] == c && c[1..] == [];
    var s1 := Do(s, steps[0]);
    var s2 := Do(s1, a[0]);
    var s3 := Do(s2, b[0]);
    assert Run(s3, c) == Run(Do(s3, c[0]), []);
    assert Run(s2, b) == Run(s3, c) && Run(s1, a) == Run(s2, b);
  }
}
