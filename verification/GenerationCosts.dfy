/** What one generation costs in the credit log: its debit until it is refunded, then nothing. */
module GenerationCosts {
  import opened Common
  import opened Tables
  import opened Calendar
  import opened Credits
  import opened CreditSafety

  function CostOf(u: nat, g: nat): Entry -> int {
    (e: Entry) => if e.user == u && (e.action == Generation(g) || e.action == Refund(g)) then e.amount else 0
  }

  function Owed(b: Bank, u: nat, g: nat): nat
    requires g < |b.jobs|
  {
    if b.jobs[g].charged > 0 then b.jobs[g].charged else LoggedDebit(b.log, u, g)
  }

  // A refunded generation cost nothing, any other exactly what was debited for it.
  predicate JobOk(b: Bank, g: nat)
    requires g < |b.jobs|
  {
    match b.jobs[g].user
    case None => true
    case Some(u) =>
      && u < |b.accounts|
      && (Logged(b.log, u, Refund(g)) ==> b.jobs[g].refunded)
      && Sum(CostOf(u, g), b.log) == if b.jobs[g].refunded then 0 else 0 - Owed(b, u, g)
  }

  predicate AboutKnownJob(b: Bank, e: Entry) {
    (e.action.Generation? || e.action.Refund?) ==> e.action.log < |b.jobs|
  }

  ghost predicate Costed(b: Bank) {
    && (forall k :: 0 <= k < |b.log| ==> AboutKnownJob(b, b.log[k]))
    && (forall g: nat :: g < |b.jobs| ==> JobOk(b, g))
  }

  lemma LoggedDebitKeeps(log: seq<Entry>, line: Entry, u: nat, g: nat)
    requires line.action != Generation(g) || line.amount >= 0
    ensures LoggedDebit(log + [line], u, g) == LoggedDebit(log, u, g)
  {
    if log == [] {
      assert (log + [line])[1..] == [];
    } else {
      assert (log + [line])[1..] == log[1..] + [line];
      LoggedDebitKeeps(log[1..], line, u, g);
    }
  }

  lemma LoggedDebitNone(log: seq<Entry>, u: nat, g: nat)
    requires forall k :: 0 <= k < |log| ==> log[k].action != Generation(g)
    ensures LoggedDebit(log, u, g) == 0
  {
    if log != [] {
      assert forall k :: 0 <= k < |log[1..]| ==> log[1..][k] == log[k + 1];
      LoggedDebitNone(log[1..], u, g);
    }
  }

  // A line that is not about generation g leaves its cost alone.
  lemma OtherJobOk(b: Bank, m: Bank, line: Entry, g: nat)
    requires g < |b.jobs| && JobOk(b, g) && g < |m.jobs| && m.jobs[g] == b.jobs[g]
    requires m.log == b.log + [line] && |m.accounts| == |b.accounts|
    requires line.action != Generation(g) && line.action != Refund(g)
    ensures JobOk(m, g)
  {
    if b.jobs[g].user.Some? {
      var u := b.jobs[g].user.value;
      SumInsert(CostOf(u, g), b.log, line);
      LoggedDebitKeeps(b.log, line, u, g);
      assert Logged(m.log, u, Refund(g)) ==> Logged(b.log, u, Refund(g));
    }
  }

  lemma MoveCosted(b: Bank, u: nat, credits: int, line: Entry)
    requires Costed(b) && u < |b.accounts| && !line.action.Generation? && !line.action.Refund?
    ensures Costed(Move(b, u, credits, line))
  {
    var m := Move(b, u, credits, line);
    forall k | 0 <= k < |m.log| ensures AboutKnownJob(m, m.log[k]) {
      if k < |b.log| { assert AboutKnownJob(b, b.log[k]); }
    }
    forall g: nat | g < |m.jobs| ensures JobOk(m, g) {
      assert JobOk(b, g);
      OtherJobOk(b, m, line, g);
    }
  }

  lemma SameCosted(b: Bank, m: Bank)
    requires Costed(b) && m.log == b.log && m.jobs == b.jobs && |m.accounts| == |b.accounts|
    ensures Costed(m)
  {
    forall k | 0 <= k < |m.log| ensures AboutKnownJob(m, m.log[k]) {
      assert AboutKnownJob(b, b.log[k]);
    }
    forall g: nat | g < |m.jobs| ensures JobOk(m, g) {
      assert JobOk(b, g);
    }
  }

  lemma ChargeCosted(b: Bank, u: nat, cost: nat)
    requires Costed(b) && u < |b.accounts|
    ensures Costed(ChargeBank(b, u, cost))
  {
    hide Sum, LoggedDebit;
    var m := ChargeBank(b, u, cost);
    if m != b {
      var n := |b.jobs|;
      var line := m.log[|b.log|];
      forall k | 0 <= k < |m.log| ensures AboutKnownJob(m, m.log[k]) {
        if k < |b.log| { assert AboutKnownJob(b, b.log[k]); }
      }
      forall k | 0 <= k < |b.log| ensures b.log[k].action != Generation(n) && b.log[k].action != Refund(n) {
        assert AboutKnownJob(b, b.log[k]);
      }
      forall g: nat | g < |m.jobs| ensures JobOk(m, g) {
        if g < n {
          assert JobOk(b, g);
          OtherJobOk(b, m, line, g);
        } else {
          SumInsert(CostOf(u, n), b.log, line);
          SumZero(CostOf(u, n), b.log);
          LoggedDebitNone(b.log, u, n);
          if cost == 0 { LoggedDebitKeeps(b.log, line, u, n); }
        }
      }
    }
  }

  lemma RefundCosted(b: Bank, g: nat)
    requires Costed(b) && g < |b.jobs|
    ensures Costed(RefundBank(b, g))
  {
    hide Sum, LoggedDebit;
    var m := RefundBank(b, g);
    assert JobOk(b, g);
    if m != b {
      forall k | 0 <= k < |m.log| ensures AboutKnownJob(m, m.log[k]) {
        if k < |b.log| { assert AboutKnownJob(b, b.log[k]); }
      }
      forall j: nat | j < |m.jobs| ensures JobOk(m, j) {
        assert JobOk(b, j);
        if m.log != b.log {
          var line := m.log[|b.log|];
          if j != g {
            OtherJobOk(b, m, line, j);
          } else {
            SumInsert(CostOf(line.user, g), b.log, line);
          }
        }
      }
    }
  }

  lemma LoginCosted(b: Bank, u: nat, reward: nat, read: Instant)
    requires Costed(b) && u < |b.accounts| && 0 <= read
    ensures Costed(LoginBank(b, u, reward, read))
  {
    hide Costed;
    MoveCosted(b, u, b.accounts[u].credits + 10, Entry(u, 10, MonthlyLogin, b.now));
    var m := MonthlyBank(b, u, read);
    var line := Entry(u, reward, DailyLogin, b.now);
    MoveCosted(m, u, m.accounts[u].credits + reward, line);
    if b.accounts[u].lastLogin != Some(DayOf(read)) {
      SameCosted(Move(m, u, m.accounts[u].credits + reward, line), LoginBank(b, u, reward, read));
    }
  }

  lemma LegacyCosted(b: Bank, k: nat, grant: Action)
    requires Costed(b) && k < |b.log| && b.log[k].action.Grant? && grant.Grant?
    ensures Costed(b.(log := b.log[k := b.log[k].(action := grant)]))
  {
    var line := b.log[k].(action := grant);
    var m := b.(log := b.log[k := line]);
    forall j | 0 <= j < |m.log| ensures AboutKnownJob(m, m.log[j]) {
      assert AboutKnownJob(b, b.log[j]);
    }
    forall g: nat | g < |m.jobs| ensures JobOk(m, g) {
      assert JobOk(b, g);
      if b.jobs[g].user.Some? {
        var u := b.jobs[g].user.value;
        SumUpdate(CostOf(u, g), b.log, k, line);
        LoggedDebitUpdate(b.log, k, line, u, g);
        if Logged(m.log, u, Refund(g)) {
          var i :| 0 <= i < |m.log| && m.log[i].user == u && m.log[i].action == Refund(g);
          assert b.log[i] == m.log[i];
        }
      }
    }
  }

  lemma LoggedDebitUpdate(log: seq<Entry>, k: nat, line: Entry, u: nat, g: nat)
    requires k < |log| && !log[k].action.Generation? && !line.action.Generation?
    ensures LoggedDebit(log[k := line], u, g) == LoggedDebit(log, u, g)
  {
    if k == 0 {
      assert log[k := line][1..] == log[1..];
    } else {
      assert log[k := line][1..] == log[1..][k - 1 := line];
      LoggedDebitUpdate(log[1..], k - 1, line, u, g);
    }
  }

  lemma SubscribeCosted(b: Bank, u: nat, subscription: nat, paidAt: Instant, credits: nat)
    requires Costed(b) && u < |b.accounts|
    ensures Costed(SubscribeBank(b, u, subscription, paidAt, credits))
  {
    hide Costed;
    var grant := Grant(subscription, Some(paidAt));
    MoveCosted(b, u, b.accounts[u].credits + credits, Entry(u, credits, grant, b.now));
    var legacy := OldestLegacy(b.log, u, subscription, paidAt);
    if legacy.Some? { LegacyCosted(b, legacy.value, grant); }
  }

  lemma StepCosted(b: Bank, t: Step)
    requires Costed(b)
    ensures Costed(Do(b, t))
  {
    hide Costed, ChargeBank, RefundBank, LoginBank, SubscribeBank, AuthorizeBank, ReserveBank, Available, LoggedDebit, Sum;
    match t {
      case Charge(u, cost) => if u < |b.accounts| { ChargeCosted(b, u, cost); }
      case RefundJob(g) => if g < |b.jobs| { RefundCosted(b, g); }
      case Login(u, reward, read) => if u < |b.accounts| && 0 <= read { LoginCosted(b, u, reward, read); }
      case Subscribe(u, subscription, paidAt, credits) =>
        if u < |b.accounts| { SubscribeCosted(b, u, subscription, paidAt, credits); }
      case Sale(u, sale, subscription, paidAt, credits) =>
        if u < |b.accounts| {
          SubscribeCosted(b, u, subscription, paidAt, credits);
          var g := SubscribeBank(b, u, subscription, paidAt, credits);
          SameCosted(g, g.(sales := b.sales + {sale}));
        }
      case Buy(u, payment, credits) =>
        if u < |b.accounts| { MoveCosted(b, u, b.accounts[u].credits + credits, Entry(u, credits, Purchase(payment), b.now)); }
      case Donate(u, credits) =>
        if u < |b.accounts| { MoveCosted(b, u, b.accounts[u].credits + credits, Entry(u, credits, Gift, b.now)); }
      case Settle(id, a, capture) =>
        if a < |b.authorizations| { SettleCosted(b, id, a, capture); }
      case Reserve(id, a) => if a < |b.authorizations| { ReserveCosted(b, id, a); }
      case Authorize(_, _, _, _, _, _, _) => AuthorizeCosted(b, t);
      case _ => SameCosted(b, Do(b, t));
    }
  }

  lemma SettleCosted(b: Bank, id: nat, a: nat, capture: bool)
    requires Costed(b) && a < |b.authorizations|
    ensures Costed(SettleBank(b, id, a, capture))
  {
    hide Costed;
    var u := b.authorizations[a].user;
    var m := SettleBank(b, id, a, capture);
    if m.log == b.log {
      SameCosted(b, m);
    } else {
      var line := Entry(u, -1, Hosting(id), b.now);
      MoveCosted(b, u, b.accounts[u].credits - 1, line);
      SameCosted(Move(b, u, b.accounts[u].credits - 1, line), m);
    }
  }

  lemma ReserveCosted(b: Bank, id: nat, a: nat)
    requires Costed(b) && a < |b.authorizations|
    ensures Costed(ReserveBank(b, id, a))
  {
    SameCosted(b, ReserveBank(b, id, a));
  }

  lemma AuthorizeCosted(b: Bank, t: Step)
    requires Costed(b) && t.Authorize?
    ensures Costed(AuthorizeBank(b, t))
  {
    SameCosted(b, AuthorizeBank(b, t));
  }
}
