/** When a debit, hold, grant, purchase or settlement is accepted, and exactly what it then changes
    (routers/space_billing.py, routers/generate.py, backend_utils.py, routers/credit.py). */
module CreditLaws {
  import opened Common
  import opened Tables
  import opened Calendar
  import opened Credits

  // ---- what is held and spent, counted row by row ----

  function OpenHolds(holds: seq<Hold>, u: nat): nat {
    if holds == [] then 0 else (if holds[0].user == u && holds[0].state == Reserved then 1 else 0) + OpenHolds(holds[1..], u)
  }

  function UsedHolds(holds: seq<Hold>, a: nat): nat {
    if holds == [] then 0
    else (if holds[0].authorization == a && (holds[0].state == Reserved || holds[0].state == Captured) then 1 else 0)
         + UsedHolds(holds[1..], a)
  }

  lemma CountsAreSums(holds: seq<Hold>, u: nat, a: nat)
    ensures Sum(HeldBy(u), holds) == OpenHolds(holds, u) && Sum(SpentOn(a), holds) == UsedHolds(holds, a)
  {
    if holds != [] { CountsAreSums(holds[1..], u, a); }
  }

  // The same bank with another balance of u and one more line.
  predicate Moved(b: Bank, b': Bank, u: nat, amount: int, action: Action) {
    && u < |b.accounts|
    && b'.accounts == b.accounts[u := b.accounts[u].(credits := b.accounts[u].credits + amount)]
    && b'.log == b.log + [Entry(u, amount, action, b.now)] && b'.now == b.now
  }

  // ---- generations ----

  // A generation is charged exactly when the balance that is not held covers it; then the balance falls
  // by its cost and the row remembers it.
  lemma ChargeIff(b: Bank, u: nat, cost: nat)
    requires u < |b.accounts| && 0 <= b.accounts[u].credits
    ensures var b' := Do(b, Charge(u, cost));
            if cost == 0 || b.accounts[u].credits - OpenHolds(b.holds, u) >= cost then
              && Moved(b, b', u, 0 - cost, Generation(|b.jobs|)) && b'.jobs == b.jobs + [Job(Some(u), cost, false)]
              && b'.holds == b.holds && b'.sales == b.sales && b'.authorizations == b.authorizations
            else b' == b
  {
    CountsAreSums(b.holds, u, 0);
  }

  // The first refund of a charged generation gives its cost back; later ones change nothing.
  lemma RefundGivesBack(b: Bank, g: nat, u: nat)
    requires g < |b.jobs| && b.jobs[g].user == Some(u) && u < |b.accounts| && b.jobs[g].charged > 0 && !b.jobs[g].refunded
    requires forall k :: 0 <= k < |b.log| ==> b.log[k].user != u || b.log[k].action != Refund(g)
    ensures var b' := Do(b, RefundJob(g));
            && Moved(b, b', u, b.jobs[g].charged, Refund(g))
            && b'.jobs == b.jobs[g := b.jobs[g].(refunded := true)] && Do(b', RefundJob(g)) == b'
  {
  }

  // A generation from before charges were stored is refunded by its first debit line; one without a user,
  // or that never cost anything, is only marked.
  lemma RefundByLine(b: Bank, g: nat, u: nat, k: nat)
    requires g < |b.jobs| && b.jobs[g].user == Some(u) && u < |b.accounts| && b.jobs[g].charged == 0 && !b.jobs[g].refunded
    requires k < |b.log| && b.log[k].user == u && b.log[k].action == Generation(g) && b.log[k].amount < 0
    requires forall j :: 0 <= j < k ==> b.log[j].user != u || b.log[j].action != Generation(g) || b.log[j].amount >= 0
    requires forall j :: 0 <= j < |b.log| ==> b.log[j].user != u || b.log[j].action != Refund(g)
    ensures var b' := Do(b, RefundJob(g));
            Moved(b, b', u, -b.log[k].amount, Refund(g)) && b'.jobs == b.jobs[g := b.jobs[g].(refunded := true)]
  {
    FirstDebit(b.log, u, g, k);
  }

  lemma {:induction false} FirstDebit(log: seq<Entry>, u: nat, g: nat, k: nat)
    requires k < |log| && log[k].user == u && log[k].action == Generation(g) && log[k].amount < 0
    requires forall j :: 0 <= j < k ==> log[j].user != u || log[j].action != Generation(g) || log[j].amount >= 0
    ensures LoggedDebit(log, u, g) == -log[k].amount
  {
    if k > 0 {
      assert forall j :: 0 <= j < |log[1..]| ==> log[1..][j] == log[j + 1];
      FirstDebit(log[1..], u, g, k - 1);
    }
  }

  lemma RefundOnlyMarks(b: Bank, g: nat)
    requires g < |b.jobs| && !b.jobs[g].refunded
    requires b.jobs[g].user.None?
             || (b.jobs[g].charged == 0
                 && forall j :: 0 <= j < |b.log| ==> b.log[j].user != b.jobs[g].user.value || b.log[j].action != Generation(g) || b.log[j].amount >= 0)
    ensures Do(b, RefundJob(g)) == b.(jobs := b.jobs[g := b.jobs[g].(refunded := true)])
  {
    if b.jobs[g].user.Some? { NoDebit(b.log, b.jobs[g].user.value, g); }
  }

  lemma NoDebit(log: seq<Entry>, u: nat, g: nat)
    requires forall j :: 0 <= j < |log| ==> log[j].user != u || log[j].action != Generation(g) || log[j].amount >= 0
    ensures LoggedDebit(log, u, g) == 0
  {
    if log != [] {
      assert forall j :: 0 <= j < |log[1..]| ==> log[1..][j] == log[j + 1];
      NoDebit(log[1..], u, g);
    }
  }

  // ---- grants and purchases ----

  // The first grant of a payment adds exactly its credits, unless an unkeyed line since the payment is
  // adopted for it; a payment that is known changes nothing.
  lemma GrantAdds(b: Bank, u: nat, subscription: nat, paidAt: Instant, credits: nat)
    requires u < |b.accounts|
    ensures var b' := Do(b, Subscribe(u, subscription, paidAt, credits));
            var grant := Grant(subscription, Some(paidAt));
            var known := exists k :: 0 <= k < |b.log| && b.log[k].action == grant;
            var legacy := exists k :: 0 <= k < |b.log| && b.log[k].user == u && b.log[k].action == Grant(subscription, None)
                                      && b.log[k].created >= paidAt;
            && (known ==> b' == b)
            && (!known && !legacy ==> Moved(b, b', u, credits, grant) && b' == b.(accounts := b'.accounts, log := b'.log))
            && (!known && legacy ==>
                  && b' == b.(log := b'.log) && |b'.log| == |b.log|
                  && exists k :: 0 <= k < |b.log| && b.log[k].user == u && b.log[k].action == Grant(subscription, None)
                                 && b.log[k].created >= paidAt && b'.log == b.log[k := b.log[k].(action := grant)])
  {
    var legacy := OldestLegacy(b.log, u, subscription, paidAt);
    if legacy.Some? { assert LegacyGrant(b.log[legacy.value], u, subscription, paidAt); }
    assert forall k :: 0 <= k < |b.log| ==>
      (LegacyGrant(b.log[k], u, subscription, paidAt) <==>
       b.log[k].user == u && b.log[k].action == Grant(subscription, None) && b.log[k].created >= paidAt);
  }

  // A new sale is recorded and granted; a known one changes nothing.
  lemma SaleGrants(b: Bank, u: nat, sale: nat, subscription: nat, paidAt: Instant, credits: nat)
    requires u < |b.accounts|
    ensures Do(b, Sale(u, sale, subscription, paidAt, credits)) ==
            if sale in b.sales then b else Do(b, Subscribe(u, subscription, paidAt, credits)).(sales := b.sales + {sale})
  {
  }

  // A purchase is credited exactly when this payment was not credited to this user before.
  lemma PurchaseIff(b: Bank, u: nat, payment: nat, credits: nat)
    requires u < |b.accounts|
    ensures var b' := Do(b, Buy(u, payment, credits));
            if exists k :: 0 <= k < |b.log| && b.log[k].user == u && b.log[k].action == Purchase(payment) then b' == b
            else Moved(b, b', u, credits, Purchase(payment)) && b' == b.(accounts := b'.accounts, log := b'.log)
  {
  }

  lemma GiftAdds(b: Bank, u: nat, credits: nat)
    requires u < |b.accounts|
    ensures Moved(b, Do(b, Donate(u, credits)), u, credits, Gift)
  {
  }

  // ---- hosting ----

  // A reservation is accepted exactly for a new id, under an enabled authorization of an existing user
  // with budget left, while a credit of the user is free; then it is one more open hold.
  lemma ReserveIff(b: Bank, id: nat, a: nat)
    requires a < |b.authorizations|
    ensures var (b', x) := (Do(b, Step.Reserve(id, a)), b.authorizations[a]);
            var accepted := && (forall k :: 0 <= k < |b.holds| ==> b.holds[k].id != id)
                            && x.user < |b.accounts| && x.enabled
                            && UsedHolds(b.holds, a) < x.maxCredits
                            && b.accounts[x.user].credits - OpenHolds(b.holds, x.user) >= 1;
            b' == if accepted then b.(holds := b.holds + [Hold(id, a, x.user, Reserved)]) else b
  {
    CountsAreSums(b.holds, b.authorizations[a].user, a);
  }

  // Capturing an open hold costs its user one credit; releasing it costs nothing. A hold that is settled,
  // or belongs to another authorization, is left alone.
  lemma SettleIff(b: Bank, k: nat, a: nat, capture: bool)
    requires k < |b.holds| && a < |b.authorizations|
    requires forall j :: 0 <= j < |b.holds| && j != k ==> b.holds[j].id != b.holds[k].id
    ensures var (b', h, u) := (Do(b, Step.Settle(b.holds[k].id, a, capture)), b.holds[k], b.authorizations[a].user);
            var open := u < |b.accounts| && h.authorization == a && h.state == Reserved;
            && (!open ==> b' == b)
            && (open && !capture ==> b' == b.(holds := b.holds[k := h.(state := Released)]))
            && (open && capture && b.accounts[u].credits >= 1 ==>
                  && Moved(b, b', u, -1, Hosting(h.id))
                  && b' == b.(accounts := b'.accounts, log := b'.log, holds := b.holds[k := h.(state := Captured)]))
            && (open && capture && b.accounts[u].credits < 1 ==> b' == b)
  {
  }

  // A release that comes before its reservation leaves a tombstone; a capture does not.
  lemma EarlyRelease(b: Bank, id: nat, a: nat, capture: bool)
    requires a < |b.authorizations| && b.authorizations[a].user < |b.accounts| && forall k :: 0 <= k < |b.holds| ==> b.holds[k].id != id
    ensures var b' := Do(b, Step.Settle(id, a, capture));
            && b' == (if capture then b else b.(holds := b.holds + [Hold(id, a, b.authorizations[a].user, Released)]))
            && (!capture ==> Do(b', Step.Reserve(id, a)) == b')
  {
    var b' := Do(b, Step.Settle(id, a, capture));
    if !capture { assert b'.holds[|b.holds|].id == id; }
  }

  // A new operation authorizes, and turns off every earlier authorization of the entity in its world.
  lemma AuthorizeIff(b: Bank, u: nat, world: nat, operation: nat, entity: nat, digest: nat, enabled: bool, most: nat, k: nat)
    requires u < |b.accounts| && k < |b.authorizations|
    ensures var b' := Do(b, Step.Authorize(u, world, operation, entity, digest, enabled, most));
            var used := exists j :: 0 <= j < |b.authorizations| && b.authorizations[j].world == world
                                    && b.authorizations[j].operation == operation;
            && (used ==> b' == b)
            && (!used ==>
                  && |b'.authorizations| == |b.authorizations| + 1 && b' == b.(authorizations := b'.authorizations)
                  && b'.authorizations[|b.authorizations|]
                     == Authorization(u, world, operation, entity, digest, enabled, if enabled then most else 0)
                  && b'.authorizations[k] == (var x := b.authorizations[k];
                       if x.world == world && x.entity == entity then x.(enabled := false) else x))
  {
  }

  // Without its user row nothing is authorized, revoked, charged or credited; with it an authorization is
  // turned off.
  lemma MissingUser(b: Bank, u: nat, n: nat, m: nat, at: Instant, a: nat, t: Step)
    requires u >= |b.accounts| && a < |b.authorizations|
    requires t == Charge(u, n) || t == Donate(u, n) || t == Buy(u, m, n) || t == Subscribe(u, m, at, n) || t == Sale(u, m, m, at, n)
             || t == Login(u, n, at) || (t.Authorize? && t.user == u)
    ensures Do(b, t) == b
    ensures Do(b, Step.Revoke(a)) ==
            if b.authorizations[a].user < |b.accounts|
            then b.(authorizations := b.authorizations[a := b.authorizations[a].(enabled := false)]) else b
  {
  }

  // ---- an hour of hosting ----

  // Reserved, captured and reported again: one credit, one line, one row, whatever else the bank holds.
  lemma HourIsBilledOnce(b: Bank, id: nat, a: nat)
    requires a < |b.authorizations| && b.authorizations[a].enabled && b.authorizations[a].user < |b.accounts|
    requires UsedHolds(b.holds, a) < b.authorizations[a].maxCredits
    requires b.accounts[b.authorizations[a].user].credits - OpenHolds(b.holds, b.authorizations[a].user) >= 1
    requires forall k :: 0 <= k < |b.holds| ==> b.holds[k].id != id
    ensures var u := b.authorizations[a].user;
            var e := Run(b, [Step.Reserve(id, a), Step.Reserve(id, a), Step.Settle(id, a, true), Step.Settle(id, a, true), Step.Settle(id, a, false)]);
            && e.holds == b.holds + [Hold(id, a, u, Captured)] && Moved(b, e, u, -1, Hosting(id))
  {
    hide Do, Moved;
    var u := b.authorizations[a].user;
    var steps := [Step.Reserve(id, a), Step.Reserve(id, a), Step.Settle(id, a, true), Step.Settle(id, a, true), Step.Settle(id, a, false)];
    ReserveIff(b, id, a);
    var b1 := Do(b, steps[0]);
    assert b1 == b.(holds := b.holds + [Hold(id, a, u, Reserved)]);
    var n := |b.holds|;
    assert b1.holds[n].id == id;
    ReserveIff(b1, id, a);
    FreeCredit(b.holds, u);
    SettleIff(b1, n, a, true);
    var b2 := Do(b1, steps[2]);
    CapturedHold(b, b1, b2, u, id, a);
    SettleIff(b2, n, a, true);
    SettleIff(b2, n, a, false);
    UnfoldFive(b, steps);
  }

  lemma FreeCredit(holds: seq<Hold>, u: nat)
    ensures 0 <= OpenHolds(holds, u)
  {
  }

  lemma CapturedHold(b: Bank, b1: Bank, b2: Bank, u: nat, id: nat, a: nat)
    requires b1 == b.(holds := b.holds + [Hold(id, a, u, Reserved)]) && Moved(b1, b2, u, -1, Hosting(id))
    requires b2 == b1.(accounts := b2.accounts, log := b2.log, holds := b1.holds[|b.holds| := b1.holds[|b.holds|].(state := Captured)])
    requires forall k :: 0 <= k < |b.holds| ==> b.holds[k].id != id
    ensures Moved(b, b2, u, -1, Hosting(id)) && b2.holds == b.holds + [Hold(id, a, u, Captured)]
    ensures b2.authorizations == b.authorizations && |b2.accounts| == |b.accounts|
    ensures forall j :: 0 <= j < |b2.holds| && j != |b.holds| ==> b2.holds[j].id != b2.holds[|b.holds|].id
  {
  }

  lemma UnfoldFive(b: Bank, steps: seq<Step>)
    requires |steps| == 5
    ensures Run(b, steps) == Do(Do(Do(Do(Do(b, steps[0]), steps[1]), steps[2]), steps[3]), steps[4])
  {
    hide Do;
    var p, q, r, s := steps[1..], steps[2..], steps[3..], steps[4..];
    assert p[1..] == q && q[1..] == r && r[1..] == s && s[1..] == [];
    var b1 := Do(b, steps[0]);
    var b2 := Do(b1, p[0]);
    var b3 := Do(b2, q[0]);
    var b4 := Do(b3, r[0]);
    assert Run(b4, s) == Run(Do(b4, s[0]), []);
    assert Run(b3, r) == Run(b4, s) && Run(b2, q) == Run(b3, r) && Run(b1, p) == Run(b2, q);
  }
}
