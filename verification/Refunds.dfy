/** The refund of one rejected order against a payment provider that may lose replies, deliver
    requests late and answer from stale reads (figure_orders.py), beside every other writer of the
    order: confirmations whose second transaction is still to come, reviews and fulfilment. */
module Refunds {
  import opened Common
  import opened OrderRows

  // What is assumed of the provider: it recognises the order's request key for `memory`
  // seconds after it created the refund, and a request reaches it within `delay` seconds.
  datatype Terms = Terms(memory: int, delay: nat)

  datatype ProviderRefund = ProviderRefund(id: nat, byKey: bool, cents: nat, status: RefundStatus, created: Time)
  datatype Post = Post(sent: Time, delivered: bool)

  // `live` counts the confirmations of the order between their two transactions.
  datatype World = World(terms: Terms, now: Time, order: Order, provider: seq<ProviderRefund>,
                         posts: seq<Post>, restocks: nat, live: nat)

  datatype Step =
    | Tick(seconds: nat)
    // One process_refund transaction; `reached` says whether its request arrived at once,
    // `crashed` that the server died after the request and before its commit.
    | Sync(answers: RefundAnswers, reached: bool, id: nat, crashed: bool)
    | Deliver(post: nat, id: nat)
    | Progress(refund: nat, status: RefundStatus)
    | Dashboard(id: nat, cents: nat)  // a refund issued by hand at the provider
    // The second transaction of a live confirmation; not `lands` when its capture failed or it died.
    | Settle(lands: bool, captureId: Option<nat>, backordered: bool)
    | Review(approve: bool)
    | Fulfil(stage: Stage)
    | Bind(owner: nat)

  // A refund in progress may end any way; the other statuses are final.
  predicate Evolves(from: RefundStatus, to: RefundStatus) { from == to || from == RefundInProgress }

  predicate Fresh(provider: seq<ProviderRefund>, id: nat) {
    forall k :: 0 <= k < |provider| ==> provider[k].id != id
  }

  // An answer may be old, and may be malformed, but it never invents a refund.
  predicate Truthful(provider: seq<ProviderRefund>, d: RefundDoc) {
    d.id.Some? && d.status.Some? ==>
      exists k :: 0 <= k < |provider| && provider[k].id == d.id.value && d.cents == Some(provider[k].cents)
                  && Evolves(d.status.value, provider[k].status)
  }

  predicate TruthfulLookup(provider: seq<ProviderRefund>, l: Lookup<RefundDoc>) {
    l.Answer? ==> Truthful(provider, l.doc)
  }

  // A request with the order's key: recognised, or a new refund of the whole total.
  function Accept(w: World, id: nat): seq<ProviderRefund> {
    if (exists k :: 0 <= k < |w.provider| && w.provider[k].byKey && w.now <= w.provider[k].created + w.terms.memory)
       || !Fresh(w.provider, id)
    then w.provider
    else w.provider + [ProviderRefund(id, true, w.order.cart.total, RefundInProgress, w.now)]
  }

  function SyncWorld(w: World, a: RefundAnswers, reached: bool, id: nat, crashed: bool): World {
    var posted := AwaitsRefund(w.order) && Inquire(w.order, w.now, a).posted;
    var provider := if posted && reached then Accept(w, id) else w.provider;
    if !TruthfulLookup(w.provider, a.known) || !TruthfulLookup(w.provider, a.listed)
       || !TruthfulLookup(provider, a.posted) || (a.posted.Answer? && !reached)
    then w
    else
      var sent := w.(provider := provider, posts := if posted then w.posts + [Post(w.now, reached)] else w.posts);
      if crashed then sent
      else
        var o := ProcessRefund(w.order, w.now, a);
        sent.(order := o, restocks := w.restocks + if w.order.consumed && !o.consumed then 1 else 0)
  }

  function Do(w: World, t: Step): World {
    match t
    case Tick(seconds) => w.(now := w.now + seconds)
    case Sync(a, reached, id, crashed) => SyncWorld(w, a, reached, id, crashed)
    case Deliver(k, id) =>
      if k < |w.posts| && !w.posts[k].delivered && w.now <= w.posts[k].sent + w.terms.delay
      then w.(provider := Accept(w, id), posts := w.posts[k := w.posts[k].(delivered := true)])
      else w
    case Progress(k, status) =>
      if k < |w.provider| && Evolves(w.provider[k].status, status)
      then w.(provider := w.provider[k := w.provider[k].(status := status)])
      else w
    case Dashboard(id, cents) =>
      if Fresh(w.provider, id)
      then w.(provider := w.provider + [ProviderRefund(id, false, cents, RefundInProgress, w.now)])
      else w
    case Settle(lands, captureId, backordered) =>
      if w.live == 0 then w
      else if !lands || Fulfilled(w.order.status) then w.(live := w.live - 1)
      else w.(live := w.live - 1, order := PaidRow(w.order, w.now, captureId, backordered))
    case Review(approve) => w.(order := ReviewedRow(w.order, approve, w.now))
    case Fulfil(stage) => w.(order := FulfilledRow(w.order, stage))
    case Bind(owner) => w.(order := w.order.(cart := BoundCart(w.order.cart, owner)))
  }

  function Run(w: World, steps: seq<Step>): World
    decreases |steps|
  {
    if steps == [] then w else Run(Do(w, steps[0]), steps[1..])
  }

  // An order that was just rejected; confirmations of it may still be under way.
  predicate Rejected(w: World) {
    && AwaitsRefund(w.order) && w.order.refund.id.None? && w.order.refund.asked == Some(w.now) && !w.order.reserved
    && w.provider == [] && w.posts == [] && w.restocks == 0
  }

  predicate UnderRefund(o: Order) {
    o.cart.kind == Print && o.review == RejectedByReview && (o.status == RefundPending || o.status == Refunded)
  }

  // The re-lock of a confirmation returns early only for paid, shipping and completed orders, so
  // it settles an order whose refund is pending or done once more.
  predicate StaleFinish(w: World, t: Step) { t.Settle? && t.lands && w.live > 0 && UnderRefund(w.order) }

  predicate NoStaleFinish(w: World, steps: seq<Step>)
    decreases |steps|
  {
    steps != [] ==> !StaleFinish(w, steps[0]) && NoStaleFinish(Do(w, steps[0]), steps[1..])
  }

  predicate RemembersLongEnough(terms: Terms) { REFUND_WINDOW + terms.delay <= terms.memory }

  predicate AtMostOneByKey(provider: seq<ProviderRefund>) {
    forall j, k :: 0 <= j < |provider| && 0 <= k < |provider| && provider[j].byKey && provider[k].byKey ==> j == k
  }

  predicate PaidBack(w: World) {
    exists k :: 0 <= k < |w.provider| && w.order.refund.id == Some(w.provider[k].id)
                && w.provider[k].cents == w.order.cart.total && w.provider[k].status == RefundCompleted
  }

  predicate Timely(w: World) {
    && w.order.refund.asked.Some? && w.order.refund.asked.value <= w.now
    && (forall k :: 0 <= k < |w.posts| ==>
          w.order.refund.asked.value <= w.posts[k].sent <= w.now
          && w.posts[k].sent <= w.order.refund.asked.value + REFUND_WINDOW)
    && (forall k :: 0 <= k < |w.provider| && w.provider[k].byKey ==> w.order.refund.asked.value <= w.provider[k].created)
  }

  // `pieces` is 1 when the order had consumed stock at its rejection, else 0: its pieces are
  // either still with the order or were put back once.
  predicate Accounted(w: World, pieces: int) {
    !w.order.reserved && w.restocks + (if w.order.consumed then 1 else 0) == pieces
  }

  // A refunded order is backed by a completed refund of its full total.
  predicate Backed(w: World) { w.order.status == Refunded ==> PaidBack(w) && !w.order.consumed }

  // Refunds of the provider only move forward, and none disappears.
  predicate Grows(a: seq<ProviderRefund>, b: seq<ProviderRefund>) {
    |a| <= |b| && forall k :: 0 <= k < |a| ==>
      b[k].id == a[k].id && b[k].cents == a[k].cents && Evolves(a[k].status, b[k].status)
  }

  lemma PaidBackStays(w: World, w': World)
    requires PaidBack(w) && Grows(w.provider, w'.provider)
    requires w'.order.refund.id == w.order.refund.id && w'.order.cart.total == w.order.cart.total
    ensures PaidBack(w')
  {
    var k :| 0 <= k < |w.provider| && w.order.refund.id == Some(w.provider[k].id)
             && w.provider[k].cents == w.order.cart.total && w.provider[k].status == RefundCompleted;
    assert w'.order.refund.id == Some(w'.provider[k].id);
  }

  lemma AcceptGrows(w: World, id: nat)
    ensures Grows(w.provider, Accept(w, id))
  {
  }

  // The dangerous moment: a keyed request that arrives is always recognised.
  lemma AcceptKeepsOne(w: World, id: nat, sent: Time)
    requires RemembersLongEnough(w.terms) && AtMostOneByKey(w.provider) && Timely(w)
    requires sent <= w.order.refund.asked.value + REFUND_WINDOW && w.now <= sent + w.terms.delay
    ensures AtMostOneByKey(Accept(w, id))
    ensures Timely(w.(provider := Accept(w, id)))
  {
    if k :| 0 <= k < |w.provider| && w.provider[k].byKey {
      assert w.now <= w.provider[k].created + w.terms.memory;
      assert Accept(w, id) == w.provider;
    }
  }

  lemma SyncKeepsOne(w: World, a: RefundAnswers, reached: bool, id: nat, crashed: bool)
    requires RemembersLongEnough(w.terms) && AtMostOneByKey(w.provider) && Timely(w)
    ensures var v := SyncWorld(w, a, reached, id, crashed);
            v.terms == w.terms && AtMostOneByKey(v.provider) && Timely(v)
  {
    hide ProcessRefund, Accept, AtMostOneByKey, TruthfulLookup;
    AskedStays(w.order, w.now, a);
    if AwaitsRefund(w.order) && Inquire(w.order, w.now, a).posted && reached { AcceptKeepsOne(w, id, w.now); }
  }

  lemma AskedStays(o: Order, now: Time, a: RefundAnswers)
    ensures ProcessRefund(o, now, a).refund.asked == o.refund.asked
  {
  }

  // The other writers leave an order under refund alone, unless a stale confirmation lands.
  lemma OthersSpare(w: World, t: Step)
    requires UnderRefund(w.order) && !StaleFinish(w, t)
    requires t.Settle? || t.Review? || t.Fulfil? || t.Bind?
    ensures var v := Do(w, t);
            && v == w.(order := v.order, live := v.live)
            && v.order == w.order.(cart := v.order.cart) && UnderRefund(v.order)
            && v.order.cart.total == w.order.cart.total && v.order.cart.items == w.order.cart.items
  {
  }

  lemma StepStaysUnder(w: World, t: Step)
    requires UnderRefund(w.order) && !StaleFinish(w, t)
    ensures UnderRefund(Do(w, t).order) && Do(w, t).order.refund.asked == w.order.refund.asked
    ensures w.order.status == Refunded ==> Do(w, t).order == w.order.(cart := Do(w, t).order.cart)
  {
    hide Inquire;
    if t.Settle? || t.Review? || t.Fulfil? || t.Bind? { OthersSpare(w, t); }
  }

  lemma StepKeepsOne(w: World, t: Step)
    requires RemembersLongEnough(w.terms) && AtMostOneByKey(w.provider) && Timely(w)
    requires UnderRefund(w.order) && !StaleFinish(w, t)
    ensures Do(w, t).terms == w.terms && AtMostOneByKey(Do(w, t).provider) && Timely(Do(w, t))
  {
    hide SyncWorld;
    match t {
      case Sync(a, reached, id, crashed) => SyncKeepsOne(w, a, reached, id, crashed);
      case Deliver(k, id) =>
        if k < |w.posts| && !w.posts[k].delivered && w.now <= w.posts[k].sent + w.terms.delay {
          AcceptKeepsOne(w, id, w.posts[k].sent);
        }
      case Tick(_) =>
      case Progress(_, _) =>
      case Dashboard(_, _) =>
      case _ => OthersSpare(w, t);
    }
  }

  // Whoever writes the order: it says refunded only while a completed refund of its total exists.
  lemma StepBacked(w: World, t: Step)
    requires Backed(w)
    ensures Backed(Do(w, t))
  {
    hide Inquire, Accept;
    var w' := Do(w, t);
    match t {
      case Sync(a, reached, id, crashed) => SyncBacked(w, a, reached, id, crashed);
      case Deliver(k, id) =>
        AcceptGrows(w, id);
        if w.order.status == Refunded { PaidBackStays(w, w'); }
      case _ => if w.order.status == Refunded && w'.order.status == Refunded { PaidBackStays(w, w'); }
    }
  }

  lemma SyncBacked(w: World, a: RefundAnswers, reached: bool, id: nat, crashed: bool)
    requires Backed(w)
    ensures Backed(SyncWorld(w, a, reached, id, crashed))
  {
    hide Accept;
    var w' := SyncWorld(w, a, reached, id, crashed);
    AcceptGrows(w, id);
    if w.order.status == Refunded {
      PaidBackStays(w, w');
    } else if w'.order.status == Refunded {
      var q := Inquire(w.order, w.now, a);
      assert q.finding.Found? && q.finding.doc.status == Some(RefundCompleted);
      assert Truthful(w'.provider, q.finding.doc) by {
        if !q.posted { TruthStays(w.provider, w'.provider, q.finding.doc); }
      }
    }
  }

  // Exactly: a step keeps the account of the order's pieces if and only if it is not a stale
  // confirmation of an order that still holds them.
  lemma AccountedIff(w: World, t: Step, pieces: int)
    requires Accounted(w, pieces) && UnderRefund(w.order)
    ensures Accounted(Do(w, t), pieces) <==> !(StaleFinish(w, t) && w.order.consumed)
  {
    hide Inquire, Accept, TruthfulLookup;
    if (t.Settle? || t.Review? || t.Fulfil? || t.Bind?) && !StaleFinish(w, t) { OthersSpare(w, t); }
  }

  // Exactly: a refunded order stays refunded if and only if no stale confirmation lands on it.
  lemma RefundedFinalIff(w: World, t: Step)
    requires w.order.status == Refunded && UnderRefund(w.order)
    ensures (Do(w, t).order.status == Refunded) <==> !StaleFinish(w, t)
  {
    hide Inquire, Accept, TruthfulLookup;
    if !StaleFinish(w, t) { StepStaysUnder(w, t); }
  }

  lemma TruthStays(a: seq<ProviderRefund>, b: seq<ProviderRefund>, d: RefundDoc)
    requires Grows(a, b) && Truthful(a, d)
    ensures Truthful(b, d)
  {
    if d.id.Some? && d.status.Some? {
      var k :| 0 <= k < |a| && a[k].id == d.id.value && d.cents == Some(a[k].cents) && Evolves(d.status.value, a[k].status);
      assert b[k].id == d.id.value;
    }
  }

  lemma {:induction false} RunKeepsOne(w: World, steps: seq<Step>)
    requires RemembersLongEnough(w.terms) && AtMostOneByKey(w.provider) && Timely(w)
    requires UnderRefund(w.order) && NoStaleFinish(w, steps)
    ensures AtMostOneByKey(Run(w, steps).provider)
    decreases |steps|
  {
    hide Do, Timely, UnderRefund, StaleFinish, AtMostOneByKey;
    if steps != [] {
      StepKeepsOne(w, steps[0]);
      StepStaysUnder(w, steps[0]);
      RunKeepsOne(Do(w, steps[0]), steps[1..]);
    }
  }

  // Over every run, stale confirmations included: an order says refunded only while a completed
  // provider refund equals its full total.
  lemma {:induction false} RefundedOnlyIfPaidBack(w: World, steps: seq<Step>)
    requires Backed(w)
    ensures Backed(Run(w, steps))
    decreases |steps|
  {
    hide Do, Backed;
    if steps != [] {
      StepBacked(w, steps[0]);
      RefundedOnlyIfPaidBack(Do(w, steps[0]), steps[1..]);
    }
  }

  lemma {:induction false} RunAccounted(w: World, steps: seq<Step>, pieces: int)
    requires Accounted(w, pieces) && UnderRefund(w.order) && NoStaleFinish(w, steps)
    ensures Accounted(Run(w, steps), pieces) && UnderRefund(Run(w, steps).order)
    ensures w.order.status == Refunded ==> Run(w, steps).order.status == Refunded
    decreases |steps|
  {
    hide Do, Accounted, UnderRefund, StaleFinish;
    if steps != [] {
      AccountedIff(w, steps[0], pieces);
      StepStaysUnder(w, steps[0]);
      RunAccounted(Do(w, steps[0]), steps[1..], pieces);
    }
  }

  // Whatever is lost, late, stale or repeated, while no stale confirmation lands: the order stays
  // under its refund, is refunded only with a completed refund of its full total, keeps its pieces
  // until then and puts them back exactly once.
  lemma RefundedMeansPaidBack(w: World, steps: seq<Step>)
    requires Rejected(w) && NoStaleFinish(w, steps)
    ensures var e := Run(w, steps);
            && UnderRefund(e.order)
            && (e.order.status == Refunded ==> PaidBack(e) && e.restocks == if w.order.consumed then 1 else 0)
            && (e.order.status == RefundPending ==>
                  e.restocks + (if e.order.consumed then 1 else 0) == if w.order.consumed then 1 else 0)
  {
    RunAccounted(w, steps, if w.order.consumed then 1 else 0);
    RefundedOnlyIfPaidBack(w, steps);
  }

  lemma {:induction false} QuietRun(w: World, steps: seq<Step>)
    requires w.live == 0
    ensures NoStaleFinish(w, steps)
    decreases |steps|
  {
    if steps != [] { QuietRun(Do(w, steps[0]), steps[1..]); }
  }

  // ---- how long the provider must remember ----

  function PostingAnswers(o: Order): RefundAnswers {
    RefundAnswers(Unavailable, Answer(PaymentDoc(true, 1, [CaptureDoc(if o.captureId.Some? then o.captureId else Some(0), true)], [])),
                  Unavailable, Unavailable)
  }

  // First request executed at once but unanswered; a last-minute retry arrives late.
  function SlowRun(w: World): seq<Step> {
    [Sync(PostingAnswers(w.order), true, 0, true), Tick(REFUND_WINDOW),
     Sync(PostingAnswers(w.order), false, 0, true), Tick(w.terms.delay), Deliver(1, 1)]
  }

  lemma ForgetfulProviderPaysTwice(w: World)
    requires Rejected(w) && !RemembersLongEnough(w.terms)
    ensures !AtMostOneByKey(Run(w, SlowRun(w)).provider)
  {
    var steps := SlowRun(w);
    var w1 := Do(w, steps[0]);
    assert Inquire(w.order, w.now, PostingAnswers(w.order)).posted;
    assert |w1.provider| == 1 && w1.provider[0].byKey && w1.provider[0].created == w.now && w1.order == w.order;
    var w2 := Do(w1, steps[1]);
    assert Inquire(w2.order, w2.now, PostingAnswers(w.order)).posted;
    var w3 := Do(w2, steps[2]);
    assert w3.posts[1] == Post(w2.now, false);
    var w4 := Do(w3, steps[3]);
    var w5 := Do(w4, steps[4]);
    assert w4.provider == w1.provider && Fresh(w4.provider, 1);
    assert w5.provider == w1.provider + [ProviderRefund(1, true, w.order.cart.total, RefundInProgress, w4.now)];
    UnfoldFive(w, steps);
    assert w5.provider[0].byKey && w5.provider[1].byKey;
  }

  lemma UnfoldFive(w: World, steps: seq<Step>)
    requires |steps| == 5
    ensures Run(w, steps) == Do(Do(Do(Do(Do(w, steps[0]), steps[1]), steps[2]), steps[3]), steps[4])
  {
    var a, b, c, d := steps[1..], steps[2..], steps[3..], steps[4..];
    assert a[1..] == b && b[1..] == c && c[1..] == d && d[1..] == [];
    var w1 := Do(w, steps[0]);
    var w2 := Do(w1, a[0]);
    var w3 := Do(w2, b[0]);
    var w4 := Do(w3, c[0]);
    assert Run(w4, d) == Run(Do(w4, d[0]), []);
    assert Run(w3, c) == Run(w4, d) && Run(w2, b) == Run(w3, c) && Run(w1, a) == Run(w2, b);
  }

  // ---- stale confirmations ----

  // The request is executed but unanswered; a stale confirmation settles the order; much later it
  // is rejected again, which restarts the six hours, and the same key is sent to a provider that
  // has forgotten it.
  function StaleRun(w: World): seq<Step> {
    [Sync(PostingAnswers(w.order), true, 0, true), Settle(true, None, false), Tick(Max(0, w.terms.memory) + 1),
     Review(false), Sync(PostingAnswers(w.order), true, 1, true)]
  }

  lemma StaleFinishPaysTwice(w: World)
    requires Rejected(w) && w.live > 0
    ensures var e := Run(w, StaleRun(w));
            && !AtMostOneByKey(e.provider)
            && AwaitsRefund(e.order) && !e.order.consumed && e.restocks == 0
  {
    hide Inquire, AtMostOneByKey;
    var steps := StaleRun(w);
    var a := PostingAnswers(w.order);
    PostingPosts(w.order, w.now);
    var w1 := Do(w, steps[0]);
    assert w1 == w.(provider := [ProviderRefund(0, true, w.order.cart.total, RefundInProgress, w.now)], posts := [Post(w.now, true)]);
    var w2 := Do(w1, steps[1]);
    var w4 := Do(Do(w2, steps[2]), steps[3]);
    assert w4.provider == w1.provider && AwaitsRefund(w4.order) && w4.order.refund.asked == Some(w4.now);
    assert w4.order.captureId == w.order.captureId && w4.order.refund.id.None? && w4.order.cart == w.order.cart;
    PostingPosts(w4.order, w4.now);
    assert PostingAnswers(w4.order) == a;
    var w5 := Do(w4, steps[4]);
    assert Fresh(w4.provider, 1);
    assert w5.provider == w1.provider + [ProviderRefund(1, true, w.order.cart.total, RefundInProgress, w4.now)];
    UnfoldFive(w, steps);
    TwoByKey(w5.provider);
  }

  lemma PostingPosts(o: Order, now: Time)
    requires AwaitsRefund(o) && o.refund.id.None? && o.refund.asked == Some(now)
    ensures Inquire(o, now, PostingAnswers(o)).posted
  {
  }

  lemma TwoByKey(provider: seq<ProviderRefund>)
    requires |provider| == 2 && provider[0].byKey && provider[1].byKey
    ensures !AtMostOneByKey(provider)
  {
  }

  // A stale confirmation of a refunded order: it is paid again without any payment, can be approved,
  // and goes into production although the buyer has the money back.
  lemma RefundedGetsProduced(w: World)
    requires w.order.status == Refunded && UnderRefund(w.order) && Backed(w) && w.live > 0
    ensures var e := Run(w, [Settle(true, None, false), Review(true), Fulfil(ToPrinting)]);
            && e.order.status == Paid && e.order.review == Approved && e.order.goods == Printing && PaidBack(e)
  {
    var steps := [Settle(true, None, false), Review(true), Fulfil(ToPrinting)];
    var w1 := Do(w, steps[0]);
    var w2 := Do(w1, steps[1]);
    var w3 := Do(w2, steps[2]);
    PaidBackStays(w, w3);
    assert steps[1..][1..] == steps[2..] && steps[2..][1..] == [];
    assert Run(w2, steps[2..]) == Run(w3, []) == w3;
    assert Run(w1, steps[1..]) == w3;
  }

  // At most one refund over every run, exactly when the key outlives the retry window and no
  // confirmation of the order is between its two transactions at the rejection.
  lemma OneRefundIff(w: World)
    requires Rejected(w)
    ensures (forall steps :: AtMostOneByKey(Run(w, steps).provider)) <==> RemembersLongEnough(w.terms) && w.live == 0
  {
    if !RemembersLongEnough(w.terms) {
      ForgetfulProviderPaysTwice(w);
    } else if w.live > 0 {
      StaleFinishPaysTwice(w);
    } else {
      forall steps ensures AtMostOneByKey(Run(w, steps).provider) {
        QuietRun(w, steps);
        RunKeepsOne(w, steps);
      }
    }
  }

  // The same for one run: no stale confirmation lands in it.
  lemma OneRefundUnlessStale(w: World, steps: seq<Step>)
    requires Rejected(w) && RemembersLongEnough(w.terms) && NoStaleFinish(w, steps)
    ensures AtMostOneByKey(Run(w, steps).provider)
  {
    RunKeepsOne(w, steps);
  }
}
