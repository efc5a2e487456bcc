/** What every run of the credit movers keeps: balances cover their holds, match their log,
    and no reward, refund, purchase or hosting hour is counted twice. */
module CreditSafety {
  import opened Common
  import opened Tables
  import opened Calendar
  import opened Credits

  // ---- holds against balances ----

  predicate HoldOk(b: Bank, h: Hold) {
    h.authorization < |b.authorizations| && h.user == b.authorizations[h.authorization].user && h.user < |b.accounts|
  }

  predicate UniqueHolds(holds: seq<Hold>) {
    forall j, k :: 0 <= j < k < |holds| ==> holds[j].id != holds[k].id
  }

  predicate Covered(b: Bank, u: nat)
    requires u < |b.accounts|
  {
    Sum(HeldBy(u), b.holds) <= b.accounts[u].credits
  }

  predicate WithinBudget(b: Bank, a: nat)
    requires a < |b.authorizations|
  {
    Sum(SpentOn(a), b.holds) <= b.authorizations[a].maxCredits
  }

  ghost predicate Funded(b: Bank) {
    && (forall k :: 0 <= k < |b.holds| ==> HoldOk(b, b.holds[k]))
    && UniqueHolds(b.holds)
    && (forall u: nat :: u < |b.accounts| ==> Covered(b, u))
    && (forall a: nat :: a < |b.authorizations| ==> WithinBudget(b, a))
  }

  // A mover that leaves at least the holds covered.
  lemma MoveFunded(b: Bank, u: nat, credits: int, line: Entry)
    requires Funded(b) && u < |b.accounts| && Sum(HeldBy(u), b.holds) <= credits
    ensures Funded(Move(b, u, credits, line))
  {
    var m := Move(b, u, credits, line);
    assert forall k :: 0 <= k < |b.holds| ==> HoldOk(b, b.holds[k]) ==> HoldOk(m, m.holds[k]);
    assert forall v: nat :: v < |b.accounts| ==> Covered(b, v) ==> Covered(m, v);
    assert forall a: nat :: a < |b.authorizations| ==> WithinBudget(b, a) ==> WithinBudget(m, a);
  }

  // Same balances, same holds.
  lemma SameFunded(b: Bank, m: Bank)
    requires Funded(b) && m.holds == b.holds && m.authorizations == b.authorizations && |m.accounts| == |b.accounts|
    requires forall u :: 0 <= u < |b.accounts| ==> m.accounts[u].credits == b.accounts[u].credits
    ensures Funded(m)
  {
    assert forall k :: 0 <= k < |b.holds| ==> HoldOk(b, b.holds[k]) ==> HoldOk(m, m.holds[k]);
    assert forall v: nat :: v < |b.accounts| ==> Covered(b, v) ==> Covered(m, v);
    assert forall a: nat :: a < |b.authorizations| ==> WithinBudget(b, a) ==> WithinBudget(m, a);
  }

  lemma GainFunded(b: Bank, u: nat, gain: nat, line: Entry)
    requires Funded(b) && u < |b.accounts|
    ensures Funded(Move(b, u, b.accounts[u].credits + gain, line))
  {
    assert Covered(b, u);
    MoveFunded(b, u, b.accounts[u].credits + gain, line);
  }

  lemma ChargeFunded(b: Bank, u: nat, cost: nat)
    requires Funded(b) && u < |b.accounts|
    ensures Funded(ChargeBank(b, u, cost))
  {
    assert Covered(b, u);
    SumNonNegative(HeldBy(u), b.holds);
    if Available(b, u) >= cost {
      var line := Entry(u, 0 - cost, Generation(|b.jobs|), b.now);
      MoveFunded(b, u, Max(0, b.accounts[u].credits - cost), line);
      SameFunded(Move(b, u, Max(0, b.accounts[u].credits - cost), line), ChargeBank(b, u, cost));
    }
  }

  lemma RefundFunded(b: Bank, g: nat)
    requires Funded(b) && g < |b.jobs|
    ensures Funded(RefundBank(b, g))
  {
    var done := b.(jobs := b.jobs[g := b.jobs[g].(refunded := true)]);
    SameFunded(b, done);
    var job := b.jobs[g];
    if job.user.Some? && job.user.value < |b.accounts| {
      var u := job.user.value;
      var charged := if job.charged > 0 then job.charged else LoggedDebit(b.log, u, g);
      GainFunded(done, u, charged, Entry(u, charged, Refund(g), b.now));
    }
  }

  lemma LoginFunded(b: Bank, u: nat, reward: nat, read: Instant)
    requires Funded(b) && u < |b.accounts| && 0 <= read
    ensures Funded(LoginBank(b, u, reward, read))
  {
    GainFunded(b, u, 10, Entry(u, 10, MonthlyLogin, b.now));
    var m := MonthlyBank(b, u, read);
    var line := Entry(u, reward, DailyLogin, b.now);
    GainFunded(m, u, reward, line);
    if b.accounts[u].lastLogin != Some(DayOf(read)) {
      SameFunded(Move(m, u, m.accounts[u].credits + reward, line), LoginBank(b, u, reward, read));
    }
  }

  lemma SubscribeFunded(b: Bank, u: nat, subscription: nat, paidAt: Instant, credits: nat)
    requires Funded(b) && u < |b.accounts|
    ensures Funded(SubscribeBank(b, u, subscription, paidAt, credits))
  {
    GainFunded(b, u, credits, Entry(u, credits, Grant(subscription, Some(paidAt)), b.now));
    if OldestLegacy(b.log, u, subscription, paidAt).Some? && !Granted(b.log, Grant(subscription, Some(paidAt))) {
      SameFunded(b, SubscribeBank(b, u, subscription, paidAt, credits));
    }
  }

  // Rows that nobody has drawn on yet.
  lemma NothingSpent(b: Bank, a: nat)
    requires Funded(b) && a >= |b.authorizations|
    ensures Sum(SpentOn(a), b.holds) == 0
  {
    forall k | 0 <= k < |b.holds| ensures SpentOn(a)(b.holds[k]) == 0 {
      assert HoldOk(b, b.holds[k]);
    }
    SumZero(SpentOn(a), b.holds);
  }

  lemma SumZero<T>(weight: T -> int, rows: seq<T>)
    requires forall k :: 0 <= k < |rows| ==> weight(rows[k]) == 0
    ensures Sum(weight, rows) == 0
  {
    if rows != [] {
      assert forall k :: 0 <= k < |rows[1..]| ==> rows[1..][k] == rows[k + 1];
      SumZero(weight, rows[1..]);
    }
  }

  lemma AuthorizeFunded(b: Bank, t: Step)
    requires Funded(b) && t.Authorize?
    ensures Funded(AuthorizeBank(b, t))
  {
    var b' := AuthorizeBank(b, t);
    if b' != b {
      forall k | 0 <= k < |b.holds| ensures HoldOk(b', b'.holds[k]) {
        assert HoldOk(b, b.holds[k]);
      }
      forall u: nat | u < |b'.accounts| ensures Covered(b', u) {
        assert Covered(b, u);
      }
      forall a: nat | a < |b'.authorizations| ensures WithinBudget(b', a) {
        if a < |b.authorizations| { assert WithinBudget(b, a); } else { NothingSpent(b, a); }
      }
    }
  }

  lemma RevokeFunded(b: Bank, a: nat)
    requires Funded(b)
    ensures Funded(Do(b, Revoke(a)))
  {
    var b' := Do(b, Revoke(a));
    assert forall k :: 0 <= k < |b.holds| ==> HoldOk(b, b.holds[k]) ==> HoldOk(b', b'.holds[k]);
    assert forall u: nat :: u < |b.accounts| ==> Covered(b, u) ==> Covered(b', u);
    assert forall c: nat :: c < |b.authorizations| ==> WithinBudget(b, c) ==> WithinBudget(b', c);
  }

  lemma HoldsFunded(b: Bank, m: Bank)
    requires Funded(b) && m.authorizations == b.authorizations && m.accounts == b.accounts
    requires forall k :: 0 <= k < |m.holds| ==> HoldOk(m, m.holds[k])
    requires UniqueHolds(m.holds)
    requires forall u: nat :: u < |m.accounts| ==> Sum(HeldBy(u), m.holds) <= m.accounts[u].credits
    requires forall a: nat :: a < |m.authorizations| ==> Sum(SpentOn(a), m.holds) <= m.authorizations[a].maxCredits
    ensures Funded(m)
  {
  }

  lemma ReserveFunded(b: Bank, id: nat, a: nat)
    requires Funded(b) && a < |b.authorizations|
    ensures Funded(ReserveBank(b, id, a))
  {
    var b' := ReserveBank(b, id, a);
    if b' != b {
      var row := b'.holds[|b.holds|];
      forall k | 0 <= k < |b'.holds| ensures HoldOk(b', b'.holds[k]) {
        assert k < |b.holds| ==> HoldOk(b, b.holds[k]);
      }
      forall u: nat | u < |b.accounts| ensures Sum(HeldBy(u), b'.holds) <= b.accounts[u].credits {
        assert Covered(b, u);
        SumInsert(HeldBy(u), b.holds, row);
      }
      forall c: nat | c < |b.authorizations| ensures Sum(SpentOn(c), b'.holds) <= b.authorizations[c].maxCredits {
        assert WithinBudget(b, c);
        SumInsert(SpentOn(c), b.holds, row);
      }
      HoldsFunded(b, b');
    }
  }

  // Moving one hold to another state frees what it held and never spends more.
  lemma CloseFunded(b: Bank, k: nat, state: HoldState)
    requires Funded(b) && k < |b.holds| && b.holds[k].state == Reserved && state != Reserved
    ensures Funded(b.(holds := b.holds[k := b.holds[k].(state := state)]))
    ensures Sum(HeldBy(b.holds[k].user), b.holds[k := b.holds[k].(state := state)]) == Sum(HeldBy(b.holds[k].user), b.holds) - 1
  {
    var row := b.holds[k].(state := state);
    var m := b.(holds := b.holds[k := row]);
    SumUpdate(HeldBy(row.user), b.holds, k, row);
    forall j | 0 <= j < |m.holds| ensures HoldOk(m, m.holds[j]) {
      assert HoldOk(b, b.holds[j]);
    }
    forall u: nat | u < |b.accounts| ensures Sum(HeldBy(u), m.holds) <= b.accounts[u].credits {
      assert Covered(b, u);
      SumUpdate(HeldBy(u), b.holds, k, row);
    }
    forall c: nat | c < |b.authorizations| ensures Sum(SpentOn(c), m.holds) <= b.authorizations[c].maxCredits {
      assert WithinBudget(b, c);
      SumUpdate(SpentOn(c), b.holds, k, row);
    }
    HoldsFunded(b, m);
  }

  lemma TombstoneFunded(b: Bank, id: nat, a: nat)
    requires Funded(b) && a < |b.authorizations| && b.authorizations[a].user < |b.accounts|
    requires forall k :: 0 <= k < |b.holds| ==> b.holds[k].id != id
    ensures Funded(b.(holds := b.holds + [Hold(id, a, b.authorizations[a].user, Released)]))
  {
    var row := Hold(id, a, b.authorizations[a].user, Released);
    var m := b.(holds := b.holds + [row]);
    forall j | 0 <= j < |m.holds| ensures HoldOk(m, m.holds[j]) {
      assert j < |b.holds| ==> HoldOk(b, b.holds[j]);
    }
    forall u: nat | u < |b.accounts| ensures Sum(HeldBy(u), m.holds) <= b.accounts[u].credits {
      assert Covered(b, u);
      SumInsert(HeldBy(u), b.holds, row);
    }
    forall c: nat | c < |b.authorizations| ensures Sum(SpentOn(c), m.holds) <= b.authorizations[c].maxCredits {
      assert WithinBudget(b, c);
      SumInsert(SpentOn(c), b.holds, row);
    }
    HoldsFunded(b, m);
  }

  lemma SettleFunded(b: Bank, id: nat, a: nat, capture: bool)
    requires Funded(b) && a < |b.authorizations|
    ensures Funded(SettleBank(b, id, a, capture))
  {
    hide Funded;
    var u := b.authorizations[a].user;
    if u < |b.accounts| {
      var found := FindHold(b.holds, id);
      if found.None? {
        TombstoneFunded(b, id, a);
      } else if b.holds[found.value].authorization == a && b.holds[found.value].state == Reserved {
        CaptureFunded(b, found.value, capture);
      }
    }
  }

  lemma CaptureFunded(b: Bank, k: nat, capture: bool)
    requires Funded(b) && k < |b.holds| && b.holds[k].state == Reserved && FindHold(b.holds, b.holds[k].id) == Some(k)
    requires b.holds[k].authorization < |b.authorizations|
    ensures Funded(SettleBank(b, b.holds[k].id, b.holds[k].authorization, capture))
  {
    var h := b.holds[k];
    assert HoldOk(b, h);
    assert Covered(b, h.user);
    CloseFunded(b, k, if capture then Captured else Released);
    if capture {
      var closed := b.(holds := b.holds[k := h.(state := Captured)]);
      MoveFunded(closed, h.user, b.accounts[h.user].credits - 1, Entry(h.user, -1, Hosting(h.id), b.now));
    }
  }

  lemma StepFunded(b: Bank, t: Step)
    requires Funded(b)
    ensures Funded(Do(b, t))
  {
    hide Funded, ChargeBank, RefundBank, LoginBank, SubscribeBank, AuthorizeBank, ReserveBank, SettleBank;
    match t {
      case Tick(_) => SameFunded(b, Do(b, t));
      case Charge(u, cost) => if u < |b.accounts| { ChargeFunded(b, u, cost); }
      case RefundJob(g) => if g < |b.jobs| { RefundFunded(b, g); }
      case Login(u, reward, read) => if u < |b.accounts| && 0 <= read { LoginFunded(b, u, reward, read); }
      case Subscribe(u, subscription, paidAt, credits) =>
        if u < |b.accounts| { SubscribeFunded(b, u, subscription, paidAt, credits); }
      case Sale(u, sale, subscription, paidAt, credits) =>
        if u < |b.accounts| {
          SubscribeFunded(b, u, subscription, paidAt, credits);
          var g := SubscribeBank(b, u, subscription, paidAt, credits);
          SameFunded(g, g.(sales := b.sales + {sale}));
        }
      case Buy(u, payment, credits) =>
        if u < |b.accounts| { GainFunded(b, u, credits, Entry(u, credits, Purchase(payment), b.now)); }
      case Donate(u, credits) => if u < |b.accounts| { GainFunded(b, u, credits, Entry(u, credits, Gift, b.now)); }
      case Authorize(_, _, _, _, _, _, _) => AuthorizeFunded(b, t);
      case Revoke(a) => RevokeFunded(b, a);
      case Reserve(id, a) => if a < |b.authorizations| { ReserveFunded(b, id, a); }
      case Settle(id, a, capture) => if a < |b.authorizations| { SettleFunded(b, id, a, capture); }
    }
  }
}
