/** Server-side prices of figure orders (creator_referrals.py): a global promotion,
    then a creator discount, each rounded half up to a cent, and the creator's
    commission on what is left. Amounts are whole cents and rates are basis points. */
module Pricing {
  import opened Common

  const FULL: int := 10000  // basis points in one

  datatype Offer = Offer(creator: nat, discountBps: nat, commissionBps: nat)
  datatype Price = Price(discount: nat, total: nat, commission: nat)

  // The rates the settings forms accept.
  predicate ValidOffer(offer: Option<Offer>) {
    offer.Some? ==> offer.value.discountBps <= 9900 && offer.value.commissionBps <= FULL
  }

  // cents * bps / 10000, rounded half up: the only integer r whose distance to the
  // exact quotient is at most one half, ties going to the larger neighbour.
  function Portion(cents: nat, bps: nat): (r: nat)
    ensures 2 * (cents * bps) - FULL < 2 * FULL * r <= 2 * (cents * bps) + FULL
    ensures bps <= FULL ==> r <= cents
  {
    PortionAtMost(cents, bps);
    (2 * (cents * bps) + FULL) / (2 * FULL)
  }

  lemma PortionAtMost(cents: nat, bps: nat)
    ensures bps <= FULL ==> (2 * (cents * bps) + FULL) / (2 * FULL) <= cents
  {
    if bps <= FULL {
      assert cents * bps <= cents * FULL;
    }
  }

  function PriceOffer(subtotal: nat, shipping: nat, offer: Option<Offer>, globalBps: nat): (p: Price)
    requires globalBps <= FULL && ValidOffer(offer)
    ensures p.discount <= subtotal && p.discount + p.total == subtotal + shipping
    ensures p.commission <= subtotal - p.discount
    ensures offer.None? ==> p.commission == 0
    // The commission is the net price at its rate, to the nearest cent.
    ensures offer.Some? ==>
              var exact := (subtotal - p.discount) * offer.value.commissionBps;
              2 * exact - FULL < 2 * FULL * p.commission <= 2 * exact + FULL
  {
    var global := Portion(subtotal, globalBps);
    var afterGlobal := subtotal - global;
    var creator := if offer.Some? then Portion(afterGlobal, offer.value.discountBps) else 0;
    var net := subtotal - (global + creator);
    var commission := if offer.Some? then Portion(net, offer.value.commissionBps) else 0;
    Price(global + creator, net + shipping, commission)
  }

  // What the buyer pays for the items themselves.
  function Net(subtotal: nat, offer: Option<Offer>, globalBps: nat): nat
    requires globalBps <= FULL && ValidOffer(offer)
  {
    subtotal - PriceOffer(subtotal, 0, offer, globalBps).discount
  }

  // The promotion comes first, and the creator's discount is taken from what is left; each is rounded
  // by itself to the nearest cent.
  lemma TwoRoundings(subtotal: nat, offer: Option<Offer>, globalBps: nat) returns (after: nat)
    requires globalBps <= FULL && ValidOffer(offer)
    ensures after <= subtotal
    ensures 2 * (subtotal * globalBps) - FULL < 2 * FULL * (subtotal - after) <= 2 * (subtotal * globalBps) + FULL
    ensures offer.None? ==> Net(subtotal, offer, globalBps) == after
    ensures offer.Some? ==>
              var (taken, exact) := (after - Net(subtotal, offer, globalBps), after * offer.value.discountBps);
              2 * exact - FULL < 2 * FULL * taken <= 2 * exact + FULL
  {
    after := subtotal - Portion(subtotal, globalBps);
  }

  function CreatorBps(offer: Option<Offer>): nat {
    if offer.Some? then offer.value.discountBps else 0
  }

  // Both roundings together stay within one cent of the exact product
  // subtotal * (1 - global) * (1 - creator), here scaled by 10^8.
  lemma NetNearExact(subtotal: nat, offer: Option<Offer>, globalBps: nat)
    requires globalBps <= FULL && ValidOffer(offer)
    ensures var exact := subtotal * (FULL - globalBps) * (FULL - CreatorBps(offer));
            -FULL * FULL <= Net(subtotal, offer, globalBps) * FULL * FULL - exact <= FULL * FULL
  {
    var c := CreatorBps(offer);
    var after := subtotal - Portion(subtotal, globalBps);
    var net := Net(subtotal, offer, globalBps);
    assert net == after - Portion(after, c);
    // Each rounding is off by at most half a cent.
    var e1 := after * FULL - subtotal * (FULL - globalBps);
    assert -FULL <= 2 * e1 <= FULL by {
      assert subtotal * (FULL - globalBps) == subtotal * FULL - subtotal * globalBps;
    }
    var e2 := net * FULL - after * (FULL - c);
    assert -FULL <= 2 * e2 <= FULL by {
      assert after * (FULL - c) == after * FULL - after * c;
    }
    var exact := subtotal * (FULL - globalBps) * (FULL - c);
    assert net * FULL * FULL - exact == e2 * FULL + e1 * (FULL - c) by {
      ErrorExpansion(net, after, subtotal, globalBps, c);
    }
    ScaledError(e1, FULL - c);
  }

  lemma ErrorExpansion(net: int, after: int, subtotal: int, g: int, c: int)
    ensures net * FULL * FULL - subtotal * (FULL - g) * (FULL - c)
         == (net * FULL - after * (FULL - c)) * FULL + (after * FULL - subtotal * (FULL - g)) * (FULL - c)
  {
    var x, y := FULL - c, subtotal * (FULL - g);
    assert (after * FULL - y) * x == after * FULL * x - y * x;
    assert (net * FULL - after * x) * FULL == net * FULL * FULL - after * x * FULL;
    assert after * FULL * x == after * x * FULL;
  }

  lemma ScaledError(e: int, k: nat)
    requires -FULL <= 2 * e <= FULL && k <= FULL
    ensures -FULL * FULL <= 2 * (e * k) <= FULL * FULL
  {
    assert 2 * (e * k) == (2 * e) * k;
    if e >= 0 {
      assert (2 * e) * k <= FULL * k;
    } else {
      assert (2 * e) * k >= -FULL * k;
    }
  }

  // One more cent of base raises a rounded portion by at most one cent.
  lemma PortionStep(cents: nat, bps: nat)
    requires bps <= FULL
    ensures Portion(cents, bps) <= Portion(cents + 1, bps) <= Portion(cents, bps) + 1
  {
    assert (cents + 1) * bps == cents * bps + bps;
  }

  lemma RestMonotone(low: nat, high: nat, bps: nat)
    requires low <= high && bps <= FULL
    ensures low - Portion(low, bps) <= high - Portion(high, bps)
    decreases high - low
  {
    if low < high {
      PortionStep(low, bps);
      RestMonotone(low + 1, high, bps);
    }
  }

  // A dearer cart never costs less, and a larger promotion never costs more.
  lemma {:induction false} NetMonotone(low: nat, high: nat, offer: Option<Offer>, smaller: nat, larger: nat)
    requires low <= high && smaller <= larger <= FULL && ValidOffer(offer)
    ensures Net(low, offer, larger) <= Net(high, offer, smaller)
  {
    RestMonotone(low, high, larger);
    assert high * smaller <= high * larger;
    assert Portion(high, smaller) <= Portion(high, larger);
    if offer.Some? {
      RestMonotone(low - Portion(low, larger), high - Portion(high, smaller), offer.value.discountBps);
    }
  }
}
