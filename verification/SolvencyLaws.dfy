/** When a creator's commission counts, and when a payout request is accepted
    (creator_payouts.py:45-70, routers/creators.py:204-220). */
module SolvencyLaws {
  import opened Common
  import opened Tables
  import opened OrderRows
  import Shop
  import Payouts
  import PayoutSafety
  import opened Solvency

  // An order earns its creator the commission once it is paid and not rejected or refunded; the
  // commission is eligible three days after the payment of a completed order.
  lemma CommissionCounts(o: Order, c: nat, now: Time)
    ensures var earns := o.cart.creator == Some(c) && (o.status == Paid || o.status == Shipping || o.status == Completed)
                         && o.refund.state == NoRefund && o.review != RejectedByReview;
            && EarnedBy(c)(o) == (if earns then o.cart.commission else 0)
            && EligibleFor(c, now)(o) ==
                 (if earns && o.status == Completed && o.paidAt.Some? && o.paidAt.value + 3 * DAY <= now then o.cart.commission else 0)
  {
  }

  // A payout is held until it is paid or closed, and counts as paid while it is.
  lemma PayoutCounts(p: Pay, c: nat)
    ensures var s := p.payout.row.status;
            && HeldFor(c)(p) == (if p.creator == c && (s == Payouts.PendingReview || s == Payouts.Processing || s == Payouts.Unclaimed
                                                       || s == Payouts.OnHold || s == Payouts.InManualReview)
                                 then p.payout.row.cents else 0)
            && PaidTo(c)(p) == (if p.creator == c && s == Payouts.PaidOut then p.payout.row.cents else 0)
  {
  }

  lemma BalanceAdds(s: System, c: nat)
    ensures var b := BalanceOf(s, c);
            var eligible := Sum(EligibleFor(c, s.shop.now), s.shop.orders);
            var net := eligible - Sum(HeldFor(c), s.pays) - Sum(PaidTo(c), s.pays);
            && b.eligible == eligible && b.earned == b.eligible + b.pending && b.earned == Sum(EarnedBy(c), s.shop.orders)
            && b.reserved == Sum(HeldFor(c), s.pays) && b.paid == Sum(PaidTo(c), s.pays)
            && b.available - b.adjustment == net && b.available >= 0 && b.adjustment >= 0
            && (b.available == 0 || b.adjustment == 0)
  {
  }

  // A request is accepted exactly when its key is new and its amount is covered by eligible commission
  // that is neither held nor paid; then that amount is held for review and no longer available.
  lemma RequestIff(s: System, c: nat, cents: nat, email: string, key: nat)
    ensures var (s', b) := (Do(s, Request(c, cents, email, key)), BalanceOf(s, c));
            var accepted := && (forall k :: 0 <= k < |s.pays| ==> s.pays[k].creator != c || s.pays[k].key != key)
                            && 0 < cents && cents + b.reserved + b.paid <= b.eligible;
            && (!accepted ==> s' == s)
            && (accepted ==>
                  && s'.shop == s.shop && s'.pays[..|s.pays|] == s.pays && |s'.pays| == |s.pays| + 1
                  && var p := s'.pays[|s.pays|];
                     && p.creator == c && p.key == key && p.payout == PayoutSafety.Requested(|s.pays|, cents, email)
                     && p.payout.row.status == Payouts.PendingReview && p.payout.row.cents == cents
                     && BalanceOf(s', c).reserved == b.reserved + cents && BalanceOf(s', c).available == b.available - cents)
  {
    hide Sum;
    var p := Pay(c, key, PayoutSafety.Requested(|s.pays|, cents, email));
    SumInsert(HeldFor(c), s.pays, p);
    SumInsert(PaidTo(c), s.pays, p);
    PayoutCounts(p, c);
  }

  // The commission of a completed order can be requested three days after the payment, whatever else
  // the shop has sold.
  lemma CommissionCanBeRequested(shop: Shop.Store, i: nat, c: nat, email: string, key: nat)
    requires i < |shop.orders|
    requires var o := shop.orders[i];
             && o.cart.creator == Some(c) && o.status == Completed && o.refund.state == NoRefund && o.review != RejectedByReview
             && o.paidAt.Some? && o.paidAt.value + 3 * DAY <= shop.now && 0 < o.cart.commission
    ensures var s' := Do(System(shop, []), Request(c, shop.orders[i].cart.commission, email, key));
            |s'.pays| == 1 && s'.pays[0].payout.row.cents == shop.orders[i].cart.commission
  {
    var s := System(shop, []);
    CommissionCounts(shop.orders[i], c, shop.now);
    SumAtLeastRow(EligibleFor(c, shop.now), shop.orders, i);
    RequestIff(s, c, shop.orders[i].cart.commission, email, key);
  }
}
