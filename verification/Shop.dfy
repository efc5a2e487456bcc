/** The orders, stock and payment protocol as a machine over committed transactions.
    A `Step` names one transaction together with the choices its environment made;
    a guard that fails is the handler's error answer and changes nothing. */
module Shop {
  import opened Common
  import opened Tables
  import opened Pricing
  import opened OrderRows

  // A checkout voucher at the payment provider: what it is bound to and what it charges.
  datatype Voucher = Voucher(order: nat, amount: nat)
  datatype PayStatus = PayApproved | PayCompleted | PayOther
  // A confirmation between its two transactions, holding the payload it verified.
  datatype Confirmation = Confirmation(order: nat, voucher: nat, status: PayStatus, backordered: bool, live: bool)
  // One call of the provider's capture endpoint.
  datatype Capture = Capture(order: nat, voucher: nat, amount: nat)

  datatype Store = Store(
    now: Time, orders: seq<Order>, stock: map<nat, nat>,
    vouchers: map<nat, Voucher>, confirmations: seq<Confirmation>, captures: seq<Capture>)

  datatype Step =
    | Tick(seconds: nat)
    | SetStock(model: nat, expected: nat, amount: nat)
    // `seen` is the model's stock as it was read, before any lock.
    | PlaceOrder(buyer: nat, kind: Kind, model: nat, unitPrice: nat, quantity: nat, shipping: nat,
                 offer: Option<Offer>, globalBps: nat, seen: nat)
    | MergeOrder(order: nat, model: nat, unitPrice: nat, quantity: nat, seen: nat)
    // A request that found this item before it waited for the order's lock.
    | DeleteItem(order: nat, position: nat)
    | CancelOrder(order: nat)
    | DeleteOrder(order: nat)
    | ExpireHold(order: nat)
    | Checkout(order: nat, addressKnown: bool, replace: bool, voucher: nat)
    | HoldForAddress(order: nat, voucher: nat)
    | StartPayment(order: nat, voucher: nat, status: PayStatus, addressKnown: bool)
    | FinishPayment(confirmation: nat, captured: bool, captureId: Option<nat>)
    | AbandonPayment(confirmation: nat)
    | ReviewOrder(order: nat, approve: bool)
    | Fulfil(order: nat, stage: Stage)
    | RefundOrder(order: nat, answers: RefundAnswers)
    | BindCode(order: nat, owner: nat)

  function Repeat(item: Item, n: nat): (items: seq<Item>)
    ensures |items| == n
  {
    seq(n, i requires 0 <= i < n => item)
  }

  // ---- guards ----

  predicate Editable(s: Store, i: nat) {
    i < |s.orders| && s.orders[i].status == PendingPayment && !s.orders[i].captureStarted
  }

  predicate CanPlace(s: Store, t: Step)
    requires t.PlaceOrder?
  {
    && t.globalBps <= 9900 && ValidOffer(t.offer) && 0 < t.quantity
    && (t.offer.Some? ==> t.offer.value.creator != t.buyer)
    && (t.kind == Subscription ==> t.quantity == 1 && t.offer.None? && t.globalBps == 0 && t.shipping == 0)
    && (t.kind == Print ==> t.model in s.stock && t.quantity <= t.seen)
  }

  predicate CanMerge(s: Store, t: Step)
    requires t.MergeOrder?
  {
    && Editable(s, t.order) && t.model in s.stock && 0 < t.quantity <= t.seen
    && var o := s.orders[t.order];
       && o.cart.kind == Print && Priceable(o.cart)
       && !((o.cart.offer.Some? || o.cart.globalBps > 0) && o.voucher.Some?)
       && Remaining(o.cart.items) + t.quantity <= 10
       && var have := Qty(o.cart.items, t.model);
          have + t.quantity <= t.seen + (if o.reserved then have else 0)
  }

  predicate CanDeleteItem(s: Store, i: nat, k: nat) {
    Editable(s, i) && k < |s.orders[i].cart.items| && Priceable(s.orders[i].cart) && !EditLocked(s.orders[i])
  }

  predicate CanExpire(s: Store, i: nat) {
    Editable(s, i) && s.orders[i].reservedUntil.Some? && s.orders[i].reservedUntil.value <= s.now
  }

  // The voucher check and payload validation both halves of a confirmation repeat.
  predicate PaymentMatches(s: Store, i: nat, v: nat) {
    && i < |s.orders| && s.orders[i].voucher == Some(v)
    && v in s.vouchers && s.vouchers[v] == Voucher(i, s.orders[i].cart.total)
  }

  predicate MayStart(s: Store, i: nat, v: nat, status: PayStatus) {
    PaymentMatches(s, i, v) && s.orders[i].status == PendingPayment && status != PayOther
  }

  // ---- one transaction ----

  function Put(s: Store, i: nat, o: Order, stock: map<nat, nat>): Store
    requires i < |s.orders|
  {
    s.(orders := s.orders[i := o], stock := stock)
  }

  function Start(s: Store, i: nat, v: nat, status: PayStatus, addressKnown: bool): Store
    requires i < |s.orders|
  {
    var o := s.orders[i];
    var held := ReserveRow(o, s.stock, s.now, addressKnown);
    if held.None? && status != PayCompleted then s
    else
      var (o', stock') := if held.Some? then held.value else (o, s.stock);
      Put(s, i, o'.(captureStarted := true, reservedUntil := None), stock')
        .(confirmations := s.confirmations + [Confirmation(i, v, status, held.None?, true)])
  }

  // The second transaction re-locks the row, captures an approved payment and settles.
  function Finish(s: Store, c: nat, captured: bool, captureId: Option<nat>): Store
    requires c < |s.confirmations| && s.confirmations[c].order < |s.orders|
  {
    var t := s.confirmations[c];
    var done := s.(confirmations := s.confirmations[c := t.(live := false)]);
    var o := s.orders[t.order];
    if Fulfilled(o.status) || !PaymentMatches(s, t.order, t.voucher) then done
    else
      var called := if t.status == PayCompleted then done
                    else done.(captures := s.captures + [Capture(t.order, t.voucher, s.vouchers[t.voucher].amount)]);
      if t.status != PayCompleted && !captured then called
      else Put(called, t.order, PaidRow(o, s.now, captureId, t.backordered), s.stock)
  }

  function Do(s: Store, t: Step): Store {
    match t
    case Tick(seconds) => s.(now := s.now + seconds)
    case SetStock(model, expected, amount) =>
      if model in s.stock && s.stock[model] == expected then s.(stock := s.stock[model := amount]) else s
    case PlaceOrder(buyer, kind, model, unitPrice, quantity, shipping, offer, globalBps, _) =>
      if CanPlace(s, t)
      then s.(orders := s.orders + [NewRow(buyer, kind, Repeat(Item(model, unitPrice, false), quantity), shipping, offer, globalBps)])
      else s
    case MergeOrder(i, model, unitPrice, quantity, _) =>
      if CanMerge(s, t)
      then Put(s, i, MergedRow(s.orders[i], Repeat(Item(model, unitPrice, false), quantity)), ReleasedStock(s.orders[i], s.stock))
      else s
    case DeleteItem(i, k) =>
      if CanDeleteItem(s, i, k) then Put(s, i, WithoutItem(s.orders[i], k), ReleasedStock(s.orders[i], s.stock)) else s
    case CancelOrder(i) =>
      if Editable(s, i)
      then Put(s, i, ReleaseRow(s.orders[i]).(status := Cancelled), ReleasedStock(s.orders[i], s.stock))
      else s
    case DeleteOrder(i) =>
      if i < |s.orders| && s.orders[i].status == Cancelled then Put(s, i, s.orders[i].(status := Deleted), s.stock) else s
    case ExpireHold(i) =>
      if CanExpire(s, i)
      then Put(s, i, ReleaseRow(s.orders[i]).(voucher := None), ReleasedStock(s.orders[i], s.stock))
      else s
    case Checkout(i, addressKnown, replace, v) =>
      if !Editable(s, i) then s
      else
        var held := ReserveRow(s.orders[i], s.stock, s.now, addressKnown);
        if held.None? then s
        else
          var (o, stock) := held.value;
          if o.voucher.Some? && !replace then Put(s, i, o, stock)
          else if v in s.vouchers then s  // the provider never repeats a voucher id
          else Put(s, i, o.(voucher := Some(v)), stock).(vouchers := s.vouchers[v := Voucher(i, o.cart.total)])
    case HoldForAddress(i, v) =>
      if PaymentMatches(s, i, v) && s.orders[i].status == PendingPayment && s.orders[i].cart.kind == Print
      then Put(s, i, s.orders[i].(captureStarted := true, reservedUntil := None), s.stock)
      else s
    case StartPayment(i, v, status, addressKnown) =>
      if MayStart(s, i, v, status) then Start(s, i, v, status, addressKnown) else s
    case FinishPayment(c, captured, captureId) =>
      if c < |s.confirmations| && s.confirmations[c].live && s.confirmations[c].order < |s.orders|
      then Finish(s, c, captured, captureId)
      else s
    case AbandonPayment(c) =>
      if c < |s.confirmations|
      then s.(confirmations := s.confirmations[c := s.confirmations[c].(live := false)])
      else s
    case ReviewOrder(i, approve) =>
      if i < |s.orders| then Put(s, i, ReviewedRow(s.orders[i], approve, s.now), s.stock) else s
    case Fulfil(i, stage) =>
      if i < |s.orders| then Put(s, i, FulfilledRow(s.orders[i], stage), s.stock) else s
    case RefundOrder(i, answers) =>
      if i < |s.orders|
      then var o := s.orders[i]; var o' := ProcessRefund(o, s.now, answers); Put(s, i, o', StockAfter(o, o', s.stock))
      else s
    case BindCode(i, owner) =>
      if i < |s.orders| then Put(s, i, s.orders[i].(cart := BoundCart(s.orders[i].cart, owner)), s.stock) else s
  }

  function Run(s: Store, steps: seq<Step>): Store
    decreases |steps|
  {
    if steps == [] then s else Run(Do(s, steps[0]), steps[1..])
  }

  // ---- what every reachable store satisfies ----

  // The price never exceeds the item sum, and discount and total are its repricing.
  predicate CartPriced(c: Cart) {
    && Priceable(c) && c.price <= PriceSum(c.items)
    && c.discount == Reprice(c).discount && c.total == Reprice(c).total
  }

  predicate RowOk(o: Order, stock: map<nat, nat>) {
    && CartPriced(o.cart)
    && !(o.reserved && o.consumed)
    && (o.reserved || o.consumed ==> o.cart.kind == Print && forall m :: m in Models(o.cart.items) ==> m in stock)
    && (o.reserved ==> o.status == PendingPayment)
    && (o.consumed ==> Fulfilled(o.status) || o.status == RefundPending)
    && (o.captureStarted ==> o.voucher.Some? && o.status != Cancelled && o.status != Deleted)
  }

  predicate VouchersOk(s: Store) {
    forall i :: 0 <= i < |s.orders| && s.orders[i].voucher.Some? ==>
      s.orders[i].voucher.value in s.vouchers
      && s.vouchers[s.orders[i].voucher.value] == Voucher(i, s.orders[i].cart.total)
  }

  predicate Bound(s: Store, i: nat, v: nat) {
    i < |s.orders| && s.orders[i].captureStarted && s.orders[i].voucher == Some(v)
  }

  predicate Valid(s: Store) {
    && (forall i :: 0 <= i < |s.orders| ==> RowOk(s.orders[i], s.stock))
    && VouchersOk(s)
    && (forall c :: 0 <= c < |s.confirmations| ==> Bound(s, s.confirmations[c].order, s.confirmations[c].voucher))
    && (forall k :: 0 <= k < |s.captures| ==>
          Bound(s, s.captures[k].order, s.captures[k].voucher)
          && s.captures[k].amount == s.orders[s.captures[k].order].cart.total)
  }

  // A shop that just opened.
  lemma OpeningValid(now: Time, stock: map<nat, nat>)
    ensures Valid(Store(now, [], stock, map[], [], []))
  {
  }
}
