/** When a refund closes its order, what every other answer leaves behind, and that a refund the
    provider has completed is recorded (figure_orders.py:26-109). */
module RefundLaws {
  import opened Common
  import opened OrderRows
  import Shop
  import opened Refunds

  // A completed refund of the order's full total, under the id and of the capture it has.
  predicate Closes(o: Order, d: RefundDoc, capture: Option<nat>) {
    && d.status == Some(RefundCompleted) && Suits(o, d, capture)
  }

  predicate Suits(o: Order, d: RefundDoc, capture: Option<nat>) {
    && d.status.Some? && d.id.Some? && d.cents == Some(o.cart.total)
    && (o.refund.id.Some? ==> o.refund.id == d.id)
    && (d.capture.Some? ==> d.capture == capture)
  }

  // The payment shows the one capture of the order.
  predicate OneCapture(o: Order, l: Lookup<PaymentDoc>) {
    && l.Answer? && l.doc.matches && l.doc.units == 1 && |l.doc.captures| == 1 && l.doc.captures[0].id.Some?
    && (o.captureId.Some? ==> o.captureId == l.doc.captures[0].id)
  }

  // The document that decides: the known refund, the one refund listed with the payment, or the
  // reply to a request that may still be posted.
  function Deciding(o: Order, now: Time, a: RefundAnswers): Option<RefundDoc> {
    if o.refund.id.Some? then (if a.known.Answer? then Some(a.known.doc) else None)
    else if !OneCapture(o, a.payment) then None
    else if |a.payment.doc.refunds| == 1 && a.payment.doc.refunds[0].Some? then (if a.listed.Answer? then Some(a.listed.doc) else None)
    else if a.payment.doc.refunds == [] && a.payment.doc.captures[0].completed
            && o.refund.asked.Some? && now <= o.refund.asked.value + 6 * HOUR && a.posted.Answer?
    then Some(a.posted.doc)
    else None
  }

  function CaptureSeen(o: Order, a: RefundAnswers): Option<nat> {
    if o.refund.id.None? && OneCapture(o, a.payment) then a.payment.doc.captures[0].id else o.captureId
  }

  // A waiting order becomes refunded exactly on a completed refund that suits it; then it gives up its
  // pieces and keeps the refund's id, and nothing else about the sale changes.
  lemma RefundedIff(o: Order, now: Time, a: RefundAnswers)
    requires o.cart.kind == Print && o.review == RejectedByReview && o.status == RefundPending
    ensures var o' := ProcessRefund(o, now, a);
            var d := Deciding(o, now, a);
            && (o'.status == Refunded <==> d.Some? && Closes(o, d.value, CaptureSeen(o, a)))
            && (o'.status == Refunded ==>
                  o' == o.(status := Refunded, consumed := false, captureId := CaptureSeen(o, a),
                           refund := Refunding(RefundDone, d.value.id, o.refund.asked, Some(now))))
            && (o'.status != Refunded ==> o'.status == RefundPending && o'.consumed == o.consumed)
  {
  }

  // The other documents: one that suits but is not completed is recorded, one that does not suit asks
  // for a person; without an answer the refund stays unconfirmed.
  lemma OtherAnswers(o: Order, now: Time, a: RefundAnswers)
    requires o.cart.kind == Print && o.review == RejectedByReview && o.status == RefundPending
    ensures var (r, d) := (ProcessRefund(o, now, a).refund, Deciding(o, now, a));
            && (d.Some? && !Suits(o, d.value, CaptureSeen(o, a)) ==> r.state == ManualReview && r.id == o.refund.id)
            && (d.Some? && Suits(o, d.value, CaptureSeen(o, a)) ==> r.id == d.value.id)
            && (d.Some? && Suits(o, d.value, CaptureSeen(o, a)) && d.value.status == Some(RefundInProgress) ==>
                  r.state == RefundUnconfirmed)
            && (d.Some? && Suits(o, d.value, CaptureSeen(o, a)) && d.value.status == Some(RefundDenied) ==>
                  r.state == RefundFailed)
            && (d.Some? && Suits(o, d.value, CaptureSeen(o, a)) && d.value.status == Some(RefundCancelled) ==>
                  r.state == RefundFailed)
            && (d.None? ==> r.id == o.refund.id)
            && ((if o.refund.id.Some? then a.known.Unavailable? else a.payment.Unavailable?) ==>
                  r.state == if o.refund.state == RefundFailed || o.refund.state == ManualReview then o.refund.state else RefundUnconfirmed)
  {
  }

  // Where the payment is not as it should be, or the request is older than six hours, a person is asked.
  lemma PersonIsAsked(o: Order, now: Time, a: RefundAnswers)
    requires o.cart.kind == Print && o.review == RejectedByReview && o.status == RefundPending
    requires o.refund.id.None? && a.payment.Answer?
    requires !OneCapture(o, a.payment) || |a.payment.doc.refunds| > 1
             || (a.payment.doc.refunds == []
                 && (!a.payment.doc.captures[0].completed || o.refund.asked.None? || now > o.refund.asked.value + 6 * HOUR))
    ensures ProcessRefund(o, now, a).refund.state == ManualReview && !Inquire(o, now, a).posted
  {
  }

  // Any other order is left alone.
  lemma NotWaiting(o: Order, now: Time, a: RefundAnswers)
    requires !(o.cart.kind == Print && o.review == RejectedByReview && o.status == RefundPending)
    ensures ProcessRefund(o, now, a) == o
  {
  }

  // The shelf gets exactly the pieces of the order, and only with the completed refund.
  lemma PiecesReturn(s: Shop.Store, i: nat, a: RefundAnswers, m: nat)
    requires i < |s.orders| && m in s.stock
    requires var o := s.orders[i]; o.cart.kind == Print && o.review == RejectedByReview && o.status == RefundPending
    ensures var (o, s') := (s.orders[i], Shop.Do(s, Shop.RefundOrder(i, a)));
            var d := Deciding(o, s.now, a);
            && s'.stock.Keys == s.stock.Keys && |s'.orders| == |s.orders|
            && s'.stock[m] == s.stock[m] +
                 (if d.Some? && Closes(o, d.value, CaptureSeen(o, a)) && o.consumed then Qty(o.cart.items, m) else 0)
            && (s'.orders[i].status == Refunded <==> d.Some? && Closes(o, d.value, CaptureSeen(o, a)))
  {
    hide ProcessRefund, Deciding, Closes, CaptureSeen;
    RefundedIff(s.orders[i], s.now, a);
  }

  // ---- a completed refund is recorded ----

  // The provider's true answers about refund k: by its id if the order has it, else by the payment.
  function AnswersAbout(o: Order, r: ProviderRefund): RefundAnswers {
    var doc := Answer(RefundDoc(Some(r.id), Some(r.cents), None, Some(r.status)));
    var capture := if o.captureId.Some? then o.captureId else Some(0);
    RefundAnswers(doc, Answer(PaymentDoc(true, 1, [CaptureDoc(capture, true)], [Some(r.id)])), doc, Unavailable)
  }

  // Whenever it is asked: once the provider has completed a refund of the full total, an answered
  // synchronisation closes the order and returns its pieces.
  lemma CompletedIsRecorded(w: World, k: nat)
    requires k < |w.provider| && w.order.cart.kind == Print && w.order.review == RejectedByReview && w.order.status == RefundPending
    requires w.provider[k].status == RefundCompleted && w.provider[k].cents == w.order.cart.total
    requires w.order.refund.id.Some? ==> w.order.refund.id.value == w.provider[k].id
    ensures var v := Do(w, Sync(AnswersAbout(w.order, w.provider[k]), false, 0, false));
            && v.order.status == Refunded && !v.order.consumed && v.order.refund.id == Some(w.provider[k].id)
            && v.order.cart == w.order.cart && v.restocks == w.restocks + if w.order.consumed then 1 else 0
  {
    hide Inquire, Settled, Deciding, CaptureSeen;
    var a := AnswersAbout(w.order, w.provider[k]);
    assert Truthful(w.provider, a.known.doc);
    AnswersDecide(w.order, w.now, w.provider[k]);
    RefundedIff(w.order, w.now, a);
    NothingPosted(w.order, w.now, w.provider[k]);
  }

  lemma AnswersDecide(o: Order, now: Time, r: ProviderRefund)
    ensures var a := AnswersAbout(o, r);
            Deciding(o, now, a) == Some(RefundDoc(Some(r.id), Some(r.cents), None, Some(r.status)))
  {
  }

  lemma NothingPosted(o: Order, now: Time, r: ProviderRefund)
    ensures !Inquire(o, now, AnswersAbout(o, r)).posted
  {
  }

  // The request is executed but unanswered and the server dies; the provider completes the refund; at
  // any later time a synchronisation ends it.
  function RefundRun(w: World, later: nat): seq<Step> {
    [Sync(PostingAnswers(w.order), true, 0, true), Progress(0, RefundCompleted), Tick(later),
     Sync(AnswersAbout(w.order, ProviderRefund(0, true, w.order.cart.total, RefundCompleted, w.now)), false, 0, false)]
  }

  lemma RejectedEndsRefunded(w: World, later: nat)
    requires Rejected(w)
    ensures var e := Run(w, RefundRun(w, later));
            && e.order.status == Refunded && PaidBack(e) && e.restocks == (if w.order.consumed then 1 else 0)
            && e.provider == [ProviderRefund(0, true, w.order.cart.total, RefundCompleted, w.now)]
  {
    hide Inquire, SyncWorld;
    var steps := RefundRun(w, later);
    PostsAtOnce(w);
    var w1 := Do(w, steps[0]);
    var r := ProviderRefund(0, true, w.order.cart.total, RefundCompleted, w.now);
    var w2 := Do(w1, steps[1]);
    assert w2.provider == [r];
    var w3 := Do(w2, steps[2]);
    CompletedIsRecorded(w3, 0);
    SyncKeepsProvider(w3, r);
    UnfoldFour(w, steps);
  }

  lemma PostsAtOnce(w: World)
    requires Rejected(w)
    ensures Do(w, Sync(PostingAnswers(w.order), true, 0, true))
            == w.(provider := [ProviderRefund(0, true, w.order.cart.total, RefundInProgress, w.now)], posts := [Post(w.now, true)])
  {
    hide Inquire;
    PostingPosts(w.order, w.now);
  }

  lemma SyncKeepsProvider(w: World, r: ProviderRefund)
    requires w.provider == [r]
    ensures Do(w, Sync(AnswersAbout(w.order, r), false, 0, false)).provider == w.provider
    ensures var v := Do(w, Sync(AnswersAbout(w.order, r), false, 0, false));
            v.order.refund.id == Some(r.id) && r.status == RefundCompleted && r.cents == v.order.cart.total ==> PaidBack(v)
  {
    hide Inquire, ProcessRefund;
    var v := Do(w, Sync(AnswersAbout(w.order, r), false, 0, false));
    assert v.provider[0] == r;
  }

  lemma UnfoldFour(w: World, steps: seq<Step>)
    requires |steps| == 4
    ensures Run(w, steps) == Do(Do(Do(Do(w, steps[0]), steps[1]), steps[2]), steps[3])
  {
    hide Do;
    var a, b, c := steps[1..], steps[2..], steps[3..];
    assert a[1..] == b && b[1..] == c && c[1..] == [];
    var w1 := Do(w, steps[0]);
    var w2 := Do(w1, a[0]);
    var w3 := Do(w2, b[0]);
    assert Run(w3, c) == Run(Do(w3, c[0]), []);
    assert Run(w2, b) == Run(w3, c) && Run(w1, a) == Run(w2, b);
  }
}
