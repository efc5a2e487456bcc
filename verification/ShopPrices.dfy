/** What an open order charges against what its items cost. The deletion handler reads the item
    before it waits for the order's lock (routers/order.py:765-769), so two overlapping deletions of
    one item subtract its price twice. */
module ShopPrices {
  import opened Common
  import opened Tables
  import opened Pricing
  import opened OrderRows
  import opened Shop
  import opened ShopSafety

  predicate Summed(c: Cart) { c.price == PriceSum(c.items) }

  // A deletion of an item that another request removed while this one waited.
  predicate StaleDeletion(s: Store, t: Step) {
    && t.DeleteItem? && CanDeleteItem(s, t.order, t.position)
    && s.orders[t.order].cart.items[t.position].gone
  }

  // ... which matters unless the item or everything left in the order is free.
  predicate Undercharges(s: Store, t: Step) {
    && StaleDeletion(s, t)
    && s.orders[t.order].cart.items[t.position].price > 0
    && PriceSum(s.orders[t.order].cart.items) > 0
  }

  // ---- one deletion ----

  // The price of the item is subtracted once more, down to zero. The clamp acts exactly for an item
  // that is gone and was dearer than all that is left.
  lemma DeletionPrice(c: Cart, k: nat)
    requires CartPriced(c) && Summed(c) && k < |c.items|
    ensures var (w, x) := (CartWithout(c, k), c.items[k]);
            && PriceSum(w.items) - w.price == (if x.gone then Min(x.price, PriceSum(c.items)) else 0)
            && (c.price < x.price <==> x.gone && PriceSum(c.items) < x.price)
            && (Summed(w) <==> !(x.gone && x.price > 0 && PriceSum(c.items) > 0))
  {
    PriceWithout(c.items, k);
    if !c.items[k].gone { ItemPrice(c.items, k); }
  }

  lemma ItemPrice(items: seq<Item>, k: nat)
    requires k < |items| && !items[k].gone
    ensures items[k].price <= PriceSum(items)
  {
    if k > 0 { ItemPrice(items[1..], k - 1); }
  }

  lemma MergeSums(c: Cart, added: seq<Item>)
    requires Priceable(c)
    ensures Summed(MergedCart(c, added)) <==> Summed(c)
  {
    PriceConcat(c.items, added);
  }

  // ---- every transaction ----

  lemma EditSums(s: Store, t: Step, i: nat)
    requires i < |s.orders| && (t.MergeOrder? || t.DeleteItem?) && RowOk(s.orders[i], s.stock) && Summed(s.orders[i].cart)
    ensures i < |Do(s, t).orders|
    ensures Summed(Do(s, t).orders[i].cart) <==> !(Undercharges(s, t) && t.order == i)
  {
    hide MergedCart, CartWithout, ReleasedStock, CartPriced, Summed;
    var c := s.orders[i].cart;
    if t.order == i {
      if t.MergeOrder? {
        if CanMerge(s, t) { MergeSums(c, Repeat(Item(t.model, t.unitPrice, false), t.quantity)); }
      } else if CanDeleteItem(s, i, t.position) {
        DeletionPrice(c, t.position);
      }
    }
  }

  // Nothing else writes the items or the price.
  lemma OtherSums(s: Store, t: Step, i: nat)
    requires i < |s.orders| && !t.MergeOrder? && !t.DeleteItem?
    ensures i < |Do(s, t).orders|
    ensures Do(s, t).orders[i].cart.items == s.orders[i].cart.items && Do(s, t).orders[i].cart.price == s.orders[i].cart.price
  {
    hide ProcessRefund, ReviewedRow, FulfilledRow, InStock, Take, Give, NewRow, ReserveRow, PaidRow, StockAfter;
    match t {
      case StartPayment(_, _, _, _) => StartSums(s, t, i);
      case FinishPayment(_, _, _) => FinishSums(s, t, i);
      case Checkout(_, _, _, _) => CheckoutSums(s, t, i);
      case ReviewOrder(j, approve) => if j == i { ReviewSums(s.orders[i], approve, s.now); }
      case Fulfil(j, stage) => if j == i { FulfilSums(s.orders[i], stage); }
      case RefundOrder(j, a) => if j == i { RefundShape(s.orders[i], s.now, a); }
      case _ =>
    }
  }

  lemma ReviewSums(o: Order, approve: bool, now: Time)
    ensures ReviewedRow(o, approve, now).cart == o.cart
  {
  }

  lemma FulfilSums(o: Order, stage: Stage)
    ensures FulfilledRow(o, stage).cart == o.cart
  {
  }

  lemma ReserveSums(o: Order, stock: map<nat, nat>, now: Time, known: bool)
    ensures var held := ReserveRow(o, stock, now, known); held.Some? ==> held.value.0.cart == o.cart
  {
  }

  lemma StartSums(s: Store, t: Step, i: nat)
    requires i < |s.orders| && t.StartPayment?
    ensures i < |Do(s, t).orders| && Do(s, t).orders[i].cart == s.orders[i].cart
  {
    hide ReserveRow;
    if t.order < |s.orders| { ReserveSums(s.orders[t.order], s.stock, s.now, t.addressKnown); }
  }

  lemma CheckoutSums(s: Store, t: Step, i: nat)
    requires i < |s.orders| && t.Checkout?
    ensures i < |Do(s, t).orders| && Do(s, t).orders[i].cart == s.orders[i].cart
  {
    hide ReserveRow;
    if t.order < |s.orders| { ReserveSums(s.orders[t.order], s.stock, s.now, t.addressKnown); }
  }

  lemma FinishSums(s: Store, t: Step, i: nat)
    requires i < |s.orders| && t.FinishPayment?
    ensures i < |Do(s, t).orders| && Do(s, t).orders[i].cart == s.orders[i].cart
  {
  }

  // A transaction leaves an order charging the sum of its items if and only if it is not a deletion
  // of a priced item that was removed before, with something priced left.
  lemma StepSummedIff(s: Store, t: Step, i: nat)
    requires Valid(s) && i < |s.orders| && Summed(s.orders[i].cart)
    ensures i < |Do(s, t).orders|
    ensures Summed(Do(s, t).orders[i].cart) <==> !(Undercharges(s, t) && t.order == i)
  {
    hide Do, CartPriced, Summed, CanDeleteItem;
    assert RowOk(s.orders[i], s.stock);
    if t.MergeOrder? || t.DeleteItem? { EditSums(s, t, i); } else { OtherSums(s, t, i); SameSums(s.orders[i].cart, Do(s, t).orders[i].cart); }
  }

  lemma SameSums(c: Cart, d: Cart)
    requires d.items == c.items && d.price == c.price
    ensures Summed(d) <==> Summed(c)
  {
  }

  // ---- whole runs ----

  ghost predicate AllSummed(s: Store) { forall i :: 0 <= i < |s.orders| ==> Summed(s.orders[i].cart) }

  ghost predicate AlwaysSummed(s: Store, steps: seq<Step>)
    decreases |steps|
  {
    AllSummed(s) && (steps != [] ==> AlwaysSummed(Do(s, steps[0]), steps[1..]))
  }

  predicate NeverUndercharges(s: Store, steps: seq<Step>)
    decreases |steps|
  {
    steps != [] ==> !Undercharges(s, steps[0]) && NeverUndercharges(Do(s, steps[0]), steps[1..])
  }

  lemma AllSummedIff(s: Store, t: Step)
    requires Valid(s) && AllSummed(s)
    ensures AllSummed(Do(s, t)) <==> !Undercharges(s, t)
  {
    hide Do, Valid, Summed, CanDeleteItem;
    forall i | 0 <= i < |s.orders|
      ensures i < |Do(s, t).orders| && (Summed(Do(s, t).orders[i].cart) <==> !(Undercharges(s, t) && t.order == i))
    {
      StepSummedIff(s, t, i);
    }
    if Undercharges(s, t) {
      assert CanDeleteItem(s, t.order, t.position);
      Targeted(s, t.order, t.position);
      assert !Summed(Do(s, t).orders[t.order].cart);
    }
    forall i | |s.orders| <= i < |Do(s, t).orders| ensures Summed(Do(s, t).orders[i].cart) {
      Placed(s, t, i);
    }
  }

  lemma Targeted(s: Store, i: nat, k: nat)
    requires CanDeleteItem(s, i, k)
    ensures i < |s.orders| && |Do(s, DeleteItem(i, k)).orders| == |s.orders|
  {
  }

  lemma Placed(s: Store, t: Step, i: nat)
    requires |s.orders| <= i < |Do(s, t).orders|
    ensures Summed(Do(s, t).orders[i].cart)
  {
    hide InStock, Take, Give, MergedRow, WithoutItem, ProcessRefund;
    OnlyPlacing(s, t);
  }

  // Every order charges the sum of its items, in every state of a run, if and only if no deletion in
  // it undercharges.
  lemma {:induction false} PricesAreSumsIff(s: Store, steps: seq<Step>)
    requires Valid(s) && AllSummed(s)
    ensures AlwaysSummed(s, steps) <==> NeverUndercharges(s, steps)
    ensures NeverUndercharges(s, steps) ==> AllSummed(Run(s, steps))
    decreases |steps|
  {
    hide Do, Valid, AllSummed, Undercharges;
    if steps != [] {
      StepValid(s, steps[0]);
      AllSummedIff(s, steps[0]);
      if AllSummed(Do(s, steps[0])) { PricesAreSumsIff(Do(s, steps[0]), steps[1..]); }
      else { Later(Do(s, steps[0]), steps[1..]); }
    }
  }

  lemma Later(s: Store, steps: seq<Step>)
    requires !AllSummed(s)
    ensures !AlwaysSummed(s, steps)
  {
  }

  // What is captured is never more than the items of the order cost at its rates, and exactly that
  // where no deletion undercharged.
  lemma CapturesChargeItems(now: Time, stock: map<nat, nat>, steps: seq<Step>, k: nat)
    requires k < |Run(Store(now, [], stock, map[], [], []), steps).captures|
    ensures var opening := Store(now, [], stock, map[], [], []);
            var s := Run(opening, steps);
            var x := s.captures[k];
            && x.order < |s.orders| && Priceable(s.orders[x.order].cart)
            && var c := s.orders[x.order].cart;
               && x.amount <= Charge(c)
               && (NeverUndercharges(opening, steps) ==> x.amount == Charge(c))
  {
    hide Run, NeverUndercharges, AlwaysSummed;
    var opening := Store(now, [], stock, map[], [], []);
    OpeningValid(now, stock);
    RunValid(opening, steps);
    PricesAreSumsIff(opening, steps);
    var s := Run(opening, steps);
    var x := s.captures[k];
    assert Bound(s, x.order, x.voucher);
    assert RowOk(s.orders[x.order], s.stock);
    TotalAtMost(s.orders[x.order].cart);
  }

  // What the items cost at the rates of the cart.
  function Charge(c: Cart): nat
    requires Priceable(c)
  {
    PriceOffer(PriceSum(c.items), c.shipping, c.offer, c.globalBps).total
  }

  lemma TotalAtMost(c: Cart)
    requires CartPriced(c)
    ensures c.total <= Charge(c)
    ensures Summed(c) ==> c.total == Charge(c)
  {
    NetMonotone(c.price, PriceSum(c.items), c.offer, c.globalBps, c.globalBps);
  }

  // ---- a run that undercharges ----

  // Two requests delete one item at the same time; then the buyer checks out.
  function OverlappingDeletions(i: nat, k: nat, v: nat): seq<Step> {
    [DeleteItem(i, k), DeleteItem(i, k), Checkout(i, true, true, v)]
  }

  // Two items of an open order that charges their sum are left and priced.
  predicate Deletable(s: Store, i: nat, k: nat, j: nat) {
    && CanDeleteItem(s, i, k) && Summed(s.orders[i].cart)
    && var items := s.orders[i].cart.items;
       && j < |items| && j != k && !items[k].gone && !items[j].gone && items[k].price > 0 && items[j].price > 0
  }

  function TwiceWithout(o: Order, k: nat): Order
    requires Priceable(o.cart) && k < |o.cart.items|
  {
    WithoutItem(WithoutItem(o, k), k)
  }

  // The second deletion finds the order open and takes the price away again.
  lemma TwiceDeleted(c: Cart, k: nat, j: nat)
    requires CartPriced(c) && Summed(c) && k < |c.items| && j < |c.items| && j != k
    requires !c.items[k].gone && !c.items[j].gone && c.items[k].price > 0 && c.items[j].price > 0
    ensures var (d, e) := (CartWithout(c, k), CartWithout(CartWithout(c, k), k));
            && Remaining(d.items) > 0 && e.items == d.items && d.items[k].gone && d.items[k].price == c.items[k].price
            && CartPriced(e) && PriceSum(e.items) == c.price - c.items[k].price > 0
            && e.price == Max(0, c.price - 2 * c.items[k].price) < PriceSum(e.items)
  {
    var d := CartWithout(c, k);
    EditsKeepPrices(c, k, []);
    DeletionPrice(c, k);
    PriceWithout(c.items, k);
    ItemPrice(c.items, k);
    ItemPrice(d.items, j);
    StillThere(d.items, j);
    EditsKeepPrices(d, k, []);
    PriceWithout(d.items, k);
    assert d.items[k := d.items[k].(gone := true)] == d.items;
  }

  lemma StillThere(items: seq<Item>, j: nat)
    requires j < |items| && !items[j].gone
    ensures Remaining(items) > 0
  {
    if j > 0 { StillThere(items[1..], j - 1); }
  }

  // The rest of an order is in stock where the whole order is.
  lemma RestInStock(stock: map<nat, nat>, items: seq<Item>, k: nat)
    requires k < |items| && InStock(stock, items)
    ensures InStock(stock, items[k := items[k].(gone := true)])
  {
    var rest := items[k := items[k].(gone := true)];
    forall m | m in Models(rest) ensures m in stock && Qty(rest, m) <= stock[m] {
      assert m in Models(items);
      QtyWithout(items, k, m);
    }
  }

  lemma QtyWithout(items: seq<Item>, k: nat, m: nat)
    requires k < |items|
    ensures Qty(items[k := items[k].(gone := true)], m) <= Qty(items, m)
  {
    var rest := items[k := items[k].(gone := true)];
    if k > 0 {
      assert rest[1..] == items[1..][k - 1 := items[k].(gone := true)];
      QtyWithout(items[1..], k - 1, m);
    } else {
      assert rest[1..] == items[1..];
    }
  }

  lemma SecondDeletion(s: Store, i: nat, k: nat, j: nat)
    requires Valid(s) && Deletable(s, i, k, j)
    ensures var (s1, o) := (Do(s, DeleteItem(i, k)), s.orders[i]);
            && Undercharges(s1, DeleteItem(i, k))
            && Do(s1, DeleteItem(i, k)) == Put(s, i, TwiceWithout(o, k), ReleasedStock(o, s.stock))
            && TwiceWithout(o, k) == o.(cart := CartWithout(CartWithout(o.cart, k), k), voucher := None,
                                        reserved := false, reservedUntil := if o.reserved then None else o.reservedUntil)
  {
    hide CartWithout, CartPriced, Give, Summed;
    var o := s.orders[i];
    assert RowOk(o, s.stock);
    TwiceDeleted(o.cart, k, j);
    SameRates(o.cart, k);
    var s1 := Do(s, DeleteItem(i, k));
    assert s1.orders[i] == WithoutItem(o, k);
    assert CanDeleteItem(s1, i, k);
    assert s.orders[i := s1.orders[i]][i := TwiceWithout(o, k)] == s.orders[i := TwiceWithout(o, k)];
  }

  lemma SameRates(c: Cart, k: nat)
    requires Priceable(c) && k < |c.items|
    ensures var d := CartWithout(c, k);
            && d.offer == c.offer && d.globalBps == c.globalBps && d.kind == c.kind && |d.items| == |c.items|
            && d.items == c.items[k := c.items[k].(gone := true)]
  {
  }

  // From any such order with enough stock, the voucher of the checkout is over less than what is
  // left in the order costs: the price of the deleted item is missing once more.
  lemma OverlapUndercharges(s: Store, i: nat, k: nat, j: nat, v: nat)
    requires Valid(s) && Deletable(s, i, k, j) && v !in s.vouchers
    requires s.orders[i].cart.kind == Print && InStock(ReleasedStock(s.orders[i], s.stock), s.orders[i].cart.items)
    ensures var e := Run(s, OverlappingDeletions(i, k, v));
            && i < |e.orders|
            && var (c, d) := (s.orders[i].cart, e.orders[i].cart);
               && PriceSum(d.items) == c.price - c.items[k].price
               && d.price == Max(0, c.price - 2 * c.items[k].price) < PriceSum(d.items)
               && CartPriced(d) && e.orders[i].voucher == Some(v)
               && v in e.vouchers && e.vouchers[v] == Voucher(i, d.total)
    ensures !NeverUndercharges(s, OverlappingDeletions(i, k, v))
  {
    hide Do, Run, Valid, CartPriced, Undercharges, NeverUndercharges, Deletable, CartWithout, InStock, ReleasedStock;
    DeletableCart(s, i, k, j);
    var (c, steps) := (s.orders[i].cart, OverlappingDeletions(i, k, v));
    TwiceDeleted(c, k, j);
    SecondDeletion(s, i, k, j);
    AfterBoth(s, i, k, j);
    UnfoldThree(s, steps);
    CheckoutBinds(Do(Do(s, DeleteItem(i, k)), DeleteItem(i, k)), i, v);
  }

  lemma AfterBoth(s: Store, i: nat, k: nat, j: nat)
    requires Valid(s) && Deletable(s, i, k, j) && s.orders[i].cart.kind == Print
    requires InStock(ReleasedStock(s.orders[i], s.stock), s.orders[i].cart.items)
    ensures var s2 := Do(Do(s, DeleteItem(i, k)), DeleteItem(i, k));
            && |s2.orders| == |s.orders| && s2.orders[i].cart == CartWithout(CartWithout(s.orders[i].cart, k), k)
            && Editable(s2, i) && !s2.orders[i].reserved && s2.orders[i].cart.kind == Print && s2.vouchers == s.vouchers
            && InStock(s2.stock, s2.orders[i].cart.items)
  {
    hide Do, Valid, CartPriced, CartWithout, InStock, ReleasedStock, Deletable, TwiceWithout;
    DeletableCart(s, i, k, j);
    var c := s.orders[i].cart;
    TwiceDeleted(c, k, j);
    SameRates(c, k);
    SameRates(CartWithout(c, k), k);
    SecondDeletion(s, i, k, j);
    RestInStock(ReleasedStock(s.orders[i], s.stock), c.items, k);
  }

  lemma DeletableCart(s: Store, i: nat, k: nat, j: nat)
    requires Valid(s) && Deletable(s, i, k, j)
    ensures i < |s.orders| && s.orders[i].status == PendingPayment && !s.orders[i].captureStarted
    ensures var c := s.orders[i].cart;
            && CartPriced(c) && Summed(c) && k < |c.items| && j < |c.items| && j != k
            && !c.items[k].gone && !c.items[j].gone && c.items[k].price > 0 && c.items[j].price > 0
  {
    assert RowOk(s.orders[i], s.stock);
  }

  lemma CheckoutBinds(s: Store, i: nat, v: nat)
    requires Editable(s, i) && !s.orders[i].reserved && s.orders[i].cart.kind == Print && v !in s.vouchers
    requires InStock(s.stock, s.orders[i].cart.items)
    ensures var e := Do(s, Checkout(i, true, true, v));
            && |e.orders| == |s.orders| && e.orders[i].cart == s.orders[i].cart && e.orders[i].voucher == Some(v)
            && v in e.vouchers && e.vouchers[v] == Voucher(i, s.orders[i].cart.total)
  {
    hide InStock, Take;
  }

  lemma UnfoldThree(s: Store, steps: seq<Step>)
    requires |steps| == 3
    ensures Run(s, steps) == Do(Do(Do(s, steps[0]), steps[1]), steps[2])
    ensures Undercharges(Do(s, steps[0]), steps[1]) ==> !NeverUndercharges(s, steps)
  {
    hide Do, Undercharges;
    var a, b := steps[1..], steps[2..];
    assert a[1..] == b && b[1..] == [];
    var s1 := Do(s, steps[0]);
    var s2 := Do(s1, a[0]);
    assert Run(s2, b) == Run(Do(s2, b[0]), []);
    assert Run(s1, a) == Run(s2, b);
    assert NeverUndercharges(s, steps) ==> NeverUndercharges(s1, a);
  }
}
