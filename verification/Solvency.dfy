/** Creator balances (creator_payouts.balance) over the orders and the payouts together:
    what is held for or paid to a creator never exceeds the eligible commission. */
module Solvency {
  import opened Common
  import opened Tables
  import opened OrderRows
  import Shop
  import Payouts
  import PayoutSafety

  const COMMISSION_HOLD: int := 3 * DAY

  datatype Pay = Pay(creator: nat, key: nat, payout: Payouts.Payout)
  datatype System = System(shop: Shop.Store, pays: seq<Pay>)

  datatype Step =
    | Market(trade: Shop.Step)
    | Request(creator: nat, cents: nat, email: string, key: nat)
    | Protocol(pay: nat, step: Payouts.Step)

  // ---- balance ----

  predicate Earned(o: Order) {
    Fulfilled(o.status) && o.refund.state == NoRefund && o.review != RejectedByReview
  }

  predicate Eligible(o: Order, now: Time) {
    Earned(o) && o.status == Completed && o.paidAt.Some? && o.paidAt.value <= now - COMMISSION_HOLD
  }

  function EarnedBy(c: nat): Order -> int {
    (o: Order) => if o.cart.creator == Some(c) && Earned(o) then o.cart.commission else 0
  }

  function EligibleFor(c: nat, now: Time): Order -> int {
    (o: Order) => if o.cart.creator == Some(c) && Eligible(o, now) then o.cart.commission else 0
  }

  function HeldFor(c: nat): Pay -> int {
    (p: Pay) => if p.creator == c && Payouts.Held(p.payout.row.status) then p.payout.row.cents else 0
  }

  function PaidTo(c: nat): Pay -> int {
    (p: Pay) => if p.creator == c && p.payout.row.status == Payouts.PaidOut then p.payout.row.cents else 0
  }

  datatype Balance = Balance(earned: int, pending: int, eligible: int, reserved: int, paid: int,
                             available: int, adjustment: int)

  function BalanceOf(s: System, c: nat): Balance {
    var earned := Sum(EarnedBy(c), s.shop.orders);
    var eligible := Sum(EligibleFor(c, s.shop.now), s.shop.orders);
    var reserved := Sum(HeldFor(c), s.pays);
    var paid := Sum(PaidTo(c), s.pays);
    var net := eligible - reserved - paid;
    Balance(earned, earned - eligible, eligible, reserved, paid, Max(0, net), Max(0, -net))
  }

  // ---- transactions ----

  predicate KeyUsed(s: System, creator: nat, key: nat) {
    exists k :: 0 <= k < |s.pays| && s.pays[k].creator == creator && s.pays[k].key == key
  }

  function Do(s: System, t: Step): System {
    match t
    case Market(step) => s.(shop := Shop.Do(s.shop, step))
    case Request(creator, cents, email, key) =>
      if KeyUsed(s, creator, key) || cents == 0 || cents > BalanceOf(s, creator).available then s
      else s.(pays := s.pays + [Pay(creator, key, PayoutSafety.Requested(|s.pays|, cents, email))])
    case Protocol(k, step) =>
      if k < |s.pays| then
        var p := s.pays[k];
        var adjusted := BalanceOf(s, p.creator).adjustment > 0;
        s.(pays := s.pays[k := p.(payout := Payouts.Do(p.payout, step, s.shop.now, adjusted))])
      else s
  }

  function Run(s: System, steps: seq<Step>): System
    decreases |steps|
  {
    if steps == [] then s else Run(Do(s, steps[0]), steps[1..])
  }

  // ---- invariant ----

  predicate Solvent(s: System, c: nat) {
    Sum(HeldFor(c), s.pays) + Sum(PaidTo(c), s.pays) <= Sum(EligibleFor(c, s.shop.now), s.shop.orders)
  }

  predicate PayOk(p: Pay, now: Time) { PayoutSafety.Inv(p.payout, now) && !p.payout.row.balanceChanged }

  predicate OneRowPerKey(s: System) {
    forall j, k :: 0 <= j < k < |s.pays| ==> s.pays[j].creator != s.pays[k].creator || s.pays[j].key != s.pays[k].key
  }

  ghost predicate Sound(s: System) {
    && (forall k :: 0 <= k < |s.pays| ==> PayOk(s.pays[k], s.shop.now))
    && OneRowPerKey(s)
    && (forall c: nat :: Solvent(s, c))
  }

  // ---- the order side: eligible commission never shrinks ----

  // A completed order keeps its commission, owner, payment time and refund state for good.
  predicate Settled(before: Order, after: Order) {
    before.status == Completed ==>
      && after.status == Completed && after.paidAt == before.paidAt && after.refund.state == before.refund.state
      && after.review == before.review
      && (before.cart.creator.Some? ==>
            after.cart.creator == before.cart.creator && after.cart.commission == before.cart.commission)
  }

  lemma ReviewSettled(o: Order, approve: bool, now: Time, stage: Stage, a: RefundAnswers, owner: nat)
    ensures Settled(o, ReviewedRow(o, approve, now)) && Settled(o, FulfilledRow(o, stage))
    ensures Settled(o, ProcessRefund(o, now, a)) && Settled(o, o.(cart := BoundCart(o.cart, owner)))
  {
  }

  // A completed order is past both transactions of a payment.
  lemma PaymentSettled(s: Shop.Store, t: Shop.Step, i: nat)
    requires i < |s.orders| && (t.StartPayment? || t.FinishPayment?)
    ensures i < |Shop.Do(s, t).orders| && Settled(s.orders[i], Shop.Do(s, t).orders[i])
  {
    hide InStock, Take;
  }

  lemma OrderSettled(s: Shop.Store, t: Shop.Step, i: nat)
    requires i < |s.orders|
    ensures i < |Shop.Do(s, t).orders| && Settled(s.orders[i], Shop.Do(s, t).orders[i])
  {
    hide ProcessRefund, ReviewedRow, FulfilledRow, BoundCart, InStock, Take, Give, MergedCart, CartWithout, NewRow, StockAfter,
      ReleasedStock, Shop.Start, Shop.Finish;
    var o := s.orders[i];
    match t {
      case StartPayment(_, _, _, _) => PaymentSettled(s, t, i);
      case FinishPayment(_, _, _) => PaymentSettled(s, t, i);
      case ReviewOrder(_, approve) => ReviewSettled(o, approve, s.now, ToPrinting, NoAnswers(), 0);
      case Fulfil(_, stage) => ReviewSettled(o, true, s.now, stage, NoAnswers(), 0);
      case RefundOrder(_, a) => ReviewSettled(o, true, s.now, ToPrinting, a, 0);
      case BindCode(_, owner) => ReviewSettled(o, true, s.now, ToPrinting, NoAnswers(), owner);
      case _ =>
    }
  }

  lemma ClockForward(s: Shop.Store, t: Shop.Step)
    ensures s.now <= Shop.Do(s, t).now && |s.orders| <= |Shop.Do(s, t).orders|
  {
  }

  lemma EligibleGrows(s: Shop.Store, t: Shop.Step, c: nat)
    ensures Sum(EligibleFor(c, s.now), s.orders) <= Sum(EligibleFor(c, Shop.Do(s, t).now), Shop.Do(s, t).orders)
  {
    var s' := Shop.Do(s, t);
    ClockForward(s, t);
    forall i | 0 <= i < |s.orders|
      ensures EligibleFor(c, s.now)(s.orders[i]) <= EligibleFor(c, s'.now)(s'.orders[i])
    {
      OrderSettled(s, t, i);
      EligibleStays(s.orders[i], s'.orders[i], c, s.now, s'.now);
    }
    SumGrows(EligibleFor(c, s.now), s.orders, EligibleFor(c, s'.now), s'.orders);
  }

  lemma EligibleStays(before: Order, after: Order, c: nat, now: Time, later: Time)
    requires Settled(before, after) && now <= later
    ensures EligibleFor(c, now)(before) <= EligibleFor(c, later)(after)
  {
  }

  // ---- the payout side: a step never adds to what is committed ----

  function Committed(c: nat): Pay -> int { (p: Pay) => HeldFor(c)(p) + PaidTo(c)(p) }

  lemma CommittedSum(pays: seq<Pay>, c: nat)
    ensures Sum(Committed(c), pays) == Sum(HeldFor(c), pays) + Sum(PaidTo(c), pays)
  {
    if pays != [] { CommittedSum(pays[1..], c); }
  }

  lemma ProtocolSound(s: System, k: nat, step: Payouts.Step)
    requires Sound(s) && k < |s.pays|
    ensures Sound(Do(s, Protocol(k, step)))
  {
    hide PayoutSafety.Inv, Payouts.Do;
    var p, s' := s.pays[k], Do(s, Protocol(k, step));
    assert PayOk(p, s.shop.now);
    assert Solvent(s, p.creator);
    var adjusted := BalanceOf(s, p.creator).adjustment > 0;
    assert !adjusted;
    PayoutSafety.StepInv(p.payout, step, s.shop.now, adjusted);
    PayoutSafety.StepStatus(p.payout, step, s.shop.now, adjusted);
    forall c: nat ensures Solvent(s', c) {
      assert Solvent(s, c);
      assert Committed(c)(s'.pays[k]) <= Committed(c)(p);
      SumUpdate(Committed(c), s.pays, k, s'.pays[k]);
      CommittedSum(s.pays, c);
      CommittedSum(s'.pays, c);
    }
  }

  lemma RequestSound(s: System, t: Step)
    requires Sound(s) && t.Request?
    ensures Sound(Do(s, t))
  {
    hide PayoutSafety.Inv;
    var s' := Do(s, t);
    if s' != s {
      var row := Pay(t.creator, t.key, PayoutSafety.Requested(|s.pays|, t.cents, t.email));
      PayoutSafety.RequestedInv(|s.pays|, t.cents, t.email, s.shop.now);
      forall c: nat ensures Solvent(s', c) {
        assert Solvent(s, c);
        SumInsert(HeldFor(c), s.pays, row);
        SumInsert(PaidTo(c), s.pays, row);
      }
    }
  }

  lemma MarketSound(s: System, t: Shop.Step)
    requires Sound(s)
    ensures Sound(Do(s, Market(t)))
  {
    hide PayoutSafety.Inv, Shop.Do;
    var s' := Do(s, Market(t));
    ClockForward(s.shop, t);
    forall k | 0 <= k < |s'.pays| ensures PayOk(s'.pays[k], s'.shop.now) {
      assert PayOk(s.pays[k], s.shop.now);
      PayoutSafety.InvLater(s.pays[k].payout, s.shop.now, s'.shop.now);
    }
    forall c: nat ensures Solvent(s', c) {
      assert Solvent(s, c);
      EligibleGrows(s.shop, t, c);
    }
  }

  lemma StepSound(s: System, t: Step)
    requires Sound(s)
    ensures Sound(Do(s, t))
  {
    hide Shop.Do, Payouts.Do, Sound;
    match t {
      case Market(step) => MarketSound(s, step);
      case Request(_, _, _, _) => RequestSound(s, t);
      case Protocol(k, step) => if k < |s.pays| { ProtocolSound(s, k, step); }
    }
  }

  lemma {:induction false} RunSound(s: System, steps: seq<Step>)
    requires Sound(s)
    ensures Sound(Run(s, steps))
    decreases |steps|
  {
    hide Do, Sound;
    if steps != [] {
      StepSound(s, steps[0]);
      RunSound(Do(s, steps[0]), steps[1..]);
    }
  }

  // In every reachable state held + paid <= eligible for every creator, so nothing is ever
  // owed back, no approval is refused for it and no payout is rejected as "balance_changed".
  lemma NeverOverdrawn(shop: Shop.Store, steps: seq<Step>, c: nat)
    ensures var s := Run(System(shop, []), steps);
            && BalanceOf(s, c).reserved + BalanceOf(s, c).paid <= BalanceOf(s, c).eligible
            && BalanceOf(s, c).adjustment == 0
            && BalanceOf(s, c).available == BalanceOf(s, c).eligible - BalanceOf(s, c).reserved - BalanceOf(s, c).paid
            && forall k :: 0 <= k < |s.pays| ==> !s.pays[k].payout.row.balanceChanged
  {
    hide Run;
    var s0 := System(shop, []);
    assert Sound(s0) by {
      forall c: nat ensures Solvent(s0, c) {
        SumNonNegative(EligibleFor(c, shop.now), shop.orders);
      }
    }
    RunSound(s0, steps);
    var s := Run(s0, steps);
    assert Solvent(s, c);
    assert forall k :: 0 <= k < |s.pays| ==> PayOk(s.pays[k], s.shop.now);
  }

  // However often a withdrawal request is repeated, its key owns one payout.
  lemma OnePayoutPerRequest(shop: Shop.Store, steps: seq<Step>, j: nat, k: nat)
    requires var s := Run(System(shop, []), steps);
             j < |s.pays| && k < |s.pays| && s.pays[j].creator == s.pays[k].creator && s.pays[j].key == s.pays[k].key
    ensures j == k
  {
    hide Run;
    NeverOverdrawn(shop, steps, 0);
    var s0 := System(shop, []);
    assert Sound(s0) by {
      forall c: nat ensures Solvent(s0, c) {
        SumNonNegative(EligibleFor(c, shop.now), shop.orders);
      }
    }
    RunSound(s0, steps);
  }

  // A completed order's commission, attribution and eligibility survive every later run.
  lemma {:induction false} CompletedForGood(s: Shop.Store, steps: seq<Shop.Step>, i: nat)
    requires i < |s.orders|
    ensures i < |Shop.Run(s, steps).orders| && Settled(s.orders[i], Shop.Run(s, steps).orders[i])
    decreases |steps|
  {
    hide Shop.Do;
    if steps != [] {
      OrderSettled(s, steps[0], i);
      CompletedForGood(Shop.Do(s, steps[0]), steps[1..], i);
    }
  }
}
