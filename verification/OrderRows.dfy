/** One row of the orders table and what each handler does to it
    (routers/order.py, order_inventory.py, figure_orders.py, routers/figure_admin.py). */
module OrderRows {
  import opened Common
  import opened Pricing

  datatype Kind = Print | Subscription
  datatype Status =
    PendingPayment | Paid | Shipping | Completed | Cancelled | RefundPending | Refunded
    | Deleted  // the row is gone; kept as a tombstone so that positions stay valid
  datatype Review = Unreviewed | ReviewPending | Approved | RejectedByReview
  datatype Goods =
    NoGoods | AwaitingReview | AwaitingStock | Preparing | Printing | InTransit | Delivered | GoodsRejected
  datatype RefundState = NoRefund | Queued | RefundUnconfirmed | RefundDone | RefundFailed | ManualReview

  // The position of an item is its id; a deleted item stays behind as a tombstone.
  datatype Item = Item(model: nat, price: nat, gone: bool)

  // What is bought and at which price.
  datatype Cart = Cart(
    kind: Kind, buyer: nat, creator: Option<nat>, offer: Option<Offer>, globalBps: nat,
    items: seq<Item>, price: nat, shipping: nat, discount: nat, total: nat, commission: nat)

  datatype Refunding = Refunding(state: RefundState, id: Option<nat>, asked: Option<Time>, checked: Option<Time>)

  datatype Order = Order(
    cart: Cart, status: Status, voucher: Option<nat>,
    reserved: bool, reservedUntil: Option<Time>, captureStarted: bool, consumed: bool,
    captureId: Option<nat>, paidAt: Option<Time>, review: Review, goods: Goods, refund: Refunding)

  const HOLD: int := 30 * 60
  const REFUND_WINDOW: int := 6 * HOUR

  // ---- quantities and stock ----

  function Qty(items: seq<Item>, model: nat): nat {
    if items == [] then 0 else (if items[0].model == model && !items[0].gone then 1 else 0) + Qty(items[1..], model)
  }

  function Models(items: seq<Item>): set<nat> { set i | 0 <= i < |items| && !items[i].gone :: items[i].model }

  function Remaining(items: seq<Item>): nat {
    if items == [] then 0 else (if items[0].gone then 0 else 1) + Remaining(items[1..])
  }

  predicate InStock(stock: map<nat, nat>, items: seq<Item>) {
    forall m :: m in Models(items) ==> m in stock && Qty(items, m) <= stock[m]
  }

  lemma QtyPositive(items: seq<Item>, m: nat)
    ensures 0 < Qty(items, m) <==> m in Models(items)
  {
    if items != [] {
      QtyPositive(items[1..], m);
      assert items == [items[0]] + items[1..];
      assert m in Models(items) <==> (!items[0].gone && m == items[0].model) || m in Models(items[1..]);
    }
  }

  // Only taken when InStock holds, so no subtraction is ever clamped (TakeExact).
  function Take(stock: map<nat, nat>, items: seq<Item>): map<nat, nat> {
    map m | m in stock :: Max(0, stock[m] - Qty(items, m))
  }

  lemma TakeExact(stock: map<nat, nat>, items: seq<Item>, m: nat)
    requires InStock(stock, items) && m in stock
    ensures Take(stock, items)[m] == stock[m] - Qty(items, m)
  {
    QtyPositive(items, m);
  }

  function Give(stock: map<nat, nat>, items: seq<Item>): map<nat, nat> {
    map m | m in stock :: stock[m] + Qty(items, m)
  }

  // ---- cart prices ----

  function PriceSum(items: seq<Item>): nat {
    if items == [] then 0 else (if items[0].gone then 0 else items[0].price) + PriceSum(items[1..])
  }

  predicate Priceable(c: Cart) { c.globalBps <= 9900 && ValidOffer(c.offer) }

  function Reprice(c: Cart): Cart
    requires Priceable(c)
  {
    var p := PriceOffer(c.price, c.shipping, c.offer, c.globalBps);
    c.(discount := p.discount, total := p.total, commission := p.commission)
  }

  // ---- stock holds ----

  // None is the 409 answer: nothing is held when any model is short.
  function ReserveRow(o: Order, stock: map<nat, nat>, now: Time, addressKnown: bool): Option<(Order, map<nat, nat>)> {
    if !addressKnown then None
    else if o.cart.kind != Print || o.reserved then Some((o, stock))
    else if InStock(stock, o.cart.items)
    then Some((o.(reserved := true, reservedUntil := Some(now + HOLD)), Take(stock, o.cart.items)))
    else None
  }

  // Only called while capture has not started.
  function ReleaseRow(o: Order): Order {
    if o.reserved then o.(reserved := false, reservedUntil := None) else o
  }

  function ReleasedStock(o: Order, stock: map<nat, nat>): map<nat, nat> {
    if o.reserved then Give(stock, o.cart.items) else stock
  }

  // ---- cart edits ----

  function NewRow(buyer: nat, kind: Kind, items: seq<Item>, shipping: nat, offer: Option<Offer>, globalBps: nat): Order
    requires globalBps <= 9900 && ValidOffer(offer)
  {
    var creator := if offer.Some? then Some(offer.value.creator) else None;
    Order(Reprice(Cart(kind, buyer, creator, offer, globalBps, items, PriceSum(items), shipping, 0, 0, 0)),
          PendingPayment, None, false, None, false, false, None, None, Unreviewed, NoGoods,
          Refunding(NoRefund, None, None, None))
  }

  function MergedCart(c: Cart, added: seq<Item>): Cart
    requires Priceable(c)
  {
    Reprice(c.(items := c.items + added, price := c.price + PriceSum(added)))
  }

  // The item was read before the order was locked: its price is subtracted even if another
  // request has removed it since.
  function CartWithout(c: Cart, k: nat): Cart
    requires Priceable(c) && k < |c.items|
  {
    var rest := c.items[k := c.items[k].(gone := true)];
    var edited := c.(items := rest, price := Max(0, c.price - c.items[k].price));
    Reprice(if Remaining(rest) == 0 then edited.(shipping := 0) else edited)
  }

  function MergedRow(o: Order, added: seq<Item>): Order
    requires Priceable(o.cart)
  {
    ReleaseRow(o).(cart := MergedCart(o.cart, added), voucher := None)
  }

  function WithoutItem(o: Order, k: nat): Order
    requires Priceable(o.cart) && k < |o.cart.items|
  {
    var cart := CartWithout(o.cart, k);
    ReleaseRow(o).(cart := cart, voucher := None, status := if Remaining(cart.items) == 0 then Cancelled else o.status)
  }

  predicate EditLocked(o: Order) {
    (o.cart.offer.Some? || o.cart.globalBps > 0) && (o.status != PendingPayment || o.voucher.Some? || o.captureStarted)
  }

  // ---- payment ----

  function PaidRow(o: Order, now: Time, captureId: Option<nat>, backordered: bool): Order {
    o.(captureId := if captureId.Some? then captureId else o.captureId,
       status := Paid, paidAt := Some(now),
       review := if o.cart.kind == Print then ReviewPending else o.review,
       goods := if backordered then AwaitingStock else if o.cart.kind == Print then AwaitingReview else o.goods,
       consumed := o.reserved, reserved := false)
  }

  predicate Fulfilled(status: Status) { status == Paid || status == Shipping || status == Completed }

  // ---- review and fulfilment ----

  function ReviewedRow(o: Order, approve: bool, now: Time): Order {
    if o.cart.kind != Print || o.status != Paid || (o.review != Unreviewed && o.review != ReviewPending) then o
    else if approve then o.(review := Approved, goods := Preparing)
    else o.(review := RejectedByReview, goods := GoodsRejected, status := RefundPending,
            refund := o.refund.(state := Queued, asked := Some(now)))
  }

  datatype Stage = ToPrinting | ToShipping | ToCompleted

  function FulfilledRow(o: Order, stage: Stage): Order {
    if o.cart.kind != Print || o.review != Approved || !Fulfilled(o.status) then o
    else if stage == ToPrinting && o.status == Paid && o.goods == Preparing then o.(goods := Printing)
    else if stage == ToShipping && o.status == Paid && o.goods == Printing then o.(goods := InTransit, status := Shipping)
    else if stage == ToCompleted && o.goods != Delivered && o.status == Shipping then o.(goods := Delivered, status := Completed)
    else o
  }

  // Binding a legacy code to its owner: nobody earns on their own purchase.
  function BoundCart(c: Cart, owner: nat): Cart {
    if c.creator.Some? then c
    else c.(creator := Some(owner),
            commission := if c.buyer == owner then 0 else c.commission,
            offer := if c.offer.Some? then Some(c.offer.value.(creator := owner)) else None)
  }

  // ---- refunds ----

  datatype RefundStatus = RefundCompleted | RefundInProgress | RefundDenied | RefundCancelled
  // A refund as the provider reports it; None marks a malformed or unknown value.
  datatype RefundDoc = RefundDoc(id: Option<nat>, cents: Option<nat>, capture: Option<nat>, status: Option<RefundStatus>)
  datatype CaptureDoc = CaptureDoc(id: Option<nat>, completed: bool)
  // The payment as the provider reports it; `matches` is the binding and amount validation.
  datatype PaymentDoc = PaymentDoc(matches: bool, units: nat, captures: seq<CaptureDoc>, refunds: seq<Option<nat>>)
  datatype Lookup<+T> = Answer(doc: T) | Unavailable
  datatype RefundAnswers = RefundAnswers(
    known: Lookup<RefundDoc>, payment: Lookup<PaymentDoc>, listed: Lookup<RefundDoc>, posted: Lookup<RefundDoc>)

  function NoAnswers(): RefundAnswers { RefundAnswers(Unavailable, Unavailable, Unavailable, Unavailable) }

  predicate RefundMatches(o: Order, d: RefundDoc) {
    && d.id.Some? && d.cents == Some(o.cart.total)
    && (o.refund.id.Some? ==> o.refund.id == d.id)
    && (d.capture.Some? ==> d.capture == o.captureId)
    && d.status.Some?
  }

  predicate AwaitsRefund(o: Order) {
    o.cart.kind == Print && o.review == RejectedByReview && o.status == RefundPending
  }

  // The one capture a full refund needs, when the payment document shows exactly that.
  predicate CaptureFound(o: Order, p: PaymentDoc) {
    && p.matches && p.units == 1 && |p.captures| == 1 && p.captures[0].id.Some?
    && (o.captureId.Some? ==> o.captureId == p.captures[0].id)
  }

  // Six hours after the rejection the provider may have forgotten the request key.
  predicate MayPost(o: Order, p: PaymentDoc, now: Time) {
    && CaptureFound(o, p) && p.refunds == [] && p.captures[0].completed
    && o.refund.asked.Some? && now - o.refund.asked.value <= REFUND_WINDOW
  }

  // What one pass over the provider's answers concludes.
  datatype Finding = NeedsPerson | Unknown | Found(doc: RefundDoc)
  datatype Inquiry = Inquiry(finding: Finding, capture: Option<nat>, posted: bool)

  function FromLookup(answer: Lookup<RefundDoc>): Finding {
    if answer.Answer? then Found(answer.doc) else Unknown
  }

  function Inquire(o: Order, now: Time, a: RefundAnswers): Inquiry {
    if o.refund.id.Some? then Inquiry(FromLookup(a.known), o.captureId, false)
    else if a.payment.Unavailable? then Inquiry(Unknown, o.captureId, false)
    else if !CaptureFound(o, a.payment.doc) then Inquiry(NeedsPerson, o.captureId, false)
    else
      var p := a.payment.doc;
      var capture := p.captures[0].id;
      if |p.refunds| == 1 && p.refunds[0].Some? then Inquiry(FromLookup(a.listed), capture, false)
      else if MayPost(o, p, now) then Inquiry(FromLookup(a.posted), capture, true)
      else Inquiry(NeedsPerson, capture, false)
  }

  function Settled(o: Order, finding: Finding): Order {
    match finding
    case NeedsPerson => o.(refund := o.refund.(state := ManualReview))
    case Unknown =>
      if o.refund.state == RefundFailed || o.refund.state == ManualReview then o
      else o.(refund := o.refund.(state := RefundUnconfirmed))
    case Found(d) =>
      if !RefundMatches(o, d) then o.(refund := o.refund.(state := ManualReview))
      else if d.status == Some(RefundCompleted) then
        o.(refund := o.refund.(state := RefundDone, id := d.id), status := Refunded, consumed := false)
      else
        o.(refund := o.refund.(state := if d.status == Some(RefundInProgress) then RefundUnconfirmed else RefundFailed,
                               id := d.id))
  }

  // process_refund up to its commit.
  function ProcessRefund(o: Order, now: Time, a: RefundAnswers): Order {
    if !AwaitsRefund(o) then o
    else
      var q := Inquire(o, now, a);
      Settled(o.(captureId := q.capture, refund := o.refund.(checked := Some(now))), q.finding)
  }

  // A completed refund puts consumed pieces back on the shelf.
  function StockAfter(before: Order, after: Order, stock: map<nat, nat>): map<nat, nat> {
    if before.consumed && !after.consumed then Give(stock, before.cart.items) else stock
  }
}
