/** What the credit log says in every reachable state: it adds up to the balances, and no
    reward, refund, purchase or hosting hour is in it twice. */
module CreditHistory {
  import opened Common
  import opened Tables
  import opened Calendar
  import opened Credits
  import opened CreditSafety

  // ---- balance = opening balance + log ----

  function Unlogged(b: Bank, u: nat): int
    requires u < |b.accounts|
  {
    b.accounts[u].credits - Sum(AmountOf(u), b.log)
  }

  lemma MoveLogged(b: Bank, v: nat, delta: int, line: Entry, u: nat)
    requires v < |b.accounts| && u < |b.accounts| && line.user == v && line.amount == delta
    ensures Unlogged(Move(b, v, b.accounts[v].credits + delta, line), u) == Unlogged(b, u)
  {
    SumInsert(AmountOf(u), b.log, line);
  }

  lemma LoginLogged(b: Bank, v: nat, reward: nat, read: Instant, u: nat)
    requires v < |b.accounts| && u < |b.accounts| && 0 <= read
    ensures var l := LoginBank(b, v, reward, read); |l.accounts| == |b.accounts| && Unlogged(l, u) == Unlogged(b, u)
  {
    MoveLogged(b, v, 10, Entry(v, 10, MonthlyLogin, b.now), u);
    MoveLogged(MonthlyBank(b, v, read), v, reward, Entry(v, reward, DailyLogin, b.now), u);
  }

  lemma ChargeLogged(b: Bank, v: nat, cost: nat, u: nat)
    requires Funded(b) && v < |b.accounts| && u < |b.accounts|
    ensures |ChargeBank(b, v, cost).accounts| == |b.accounts| && Unlogged(ChargeBank(b, v, cost), u) == Unlogged(b, u)
  {
    assert Covered(b, v);
    SumNonNegative(HeldBy(v), b.holds);
    MoveLogged(b, v, 0 - cost, Entry(v, 0 - cost, Generation(|b.jobs|), b.now), u);
  }

  lemma RefundLogged(b: Bank, g: nat, u: nat)
    requires g < |b.jobs| && u < |b.accounts|
    ensures |RefundBank(b, g).accounts| == |b.accounts| && Unlogged(RefundBank(b, g), u) == Unlogged(b, u)
  {
    var job := b.jobs[g];
    if job.user.Some? && job.user.value < |b.accounts| {
      var v := job.user.value;
      var charged := if job.charged > 0 then job.charged else LoggedDebit(b.log, v, g);
      MoveLogged(b, v, charged, Entry(v, charged, Refund(g), b.now), u);
    }
  }

  lemma SubscribeLogged(b: Bank, v: nat, subscription: nat, paidAt: Instant, credits: nat, u: nat)
    requires v < |b.accounts| && u < |b.accounts|
    ensures |SubscribeBank(b, v, subscription, paidAt, credits).accounts| == |b.accounts|
    ensures Unlogged(SubscribeBank(b, v, subscription, paidAt, credits), u) == Unlogged(b, u)
  {
    var grant := Grant(subscription, Some(paidAt));
    MoveLogged(b, v, credits, Entry(v, credits, grant, b.now), u);
    var legacy := OldestLegacy(b.log, v, subscription, paidAt);
    if legacy.Some? { SumUpdate(AmountOf(u), b.log, legacy.value, b.log[legacy.value].(action := grant)); }
  }

  // The balance and the log move together: the clamp in generate_image never bites.
  lemma StepLogged(b: Bank, t: Step, u: nat)
    requires Funded(b) && u < |b.accounts|
    ensures |Do(b, t).accounts| == |b.accounts| && Unlogged(Do(b, t), u) == Unlogged(b, u)
  {
    hide Funded, ClaimedInMonth, Logged, Granted, OperationUsed, ChargeBank, RefundBank, SubscribeBank, LoginBank;
    match t {
      case Charge(v, cost) => if v < |b.accounts| { ChargeLogged(b, v, cost, u); }
      case RefundJob(g) => if g < |b.jobs| { RefundLogged(b, g, u); }
      case Login(v, reward, read) => if v < |b.accounts| && 0 <= read { LoginLogged(b, v, reward, read, u); }
      case Subscribe(v, subscription, paidAt, credits) =>
        if v < |b.accounts| { SubscribeLogged(b, v, subscription, paidAt, credits, u); }
      case Sale(v, _, subscription, paidAt, credits) =>
        if v < |b.accounts| { SubscribeLogged(b, v, subscription, paidAt, credits, u); }
      case Buy(v, payment, credits) =>
        if v < |b.accounts| { MoveLogged(b, v, credits, Entry(v, credits, Purchase(payment), b.now), u); }
      case Donate(v, credits) =>
        if v < |b.accounts| { MoveLogged(b, v, credits, Entry(v, credits, Gift, b.now), u); }
      case Settle(id, a, capture) =>
        if a < |b.authorizations| && b.authorizations[a].user < |b.accounts| {
          var v := b.authorizations[a].user;
          MoveLogged(b, v, -1, Entry(v, -1, Hosting(id), b.now), u);
        }
      case _ =>
    }
  }

  // ---- once ----

  // Two lines for what must be counted only once. Login rewards are the subject of LoginHistory.
  predicate SameEvent(e: Entry, f: Entry) {
    match e.action
    case Grant(_, key) => key.Some? && f.action == e.action
    case Purchase(_) => f.action == e.action && e.user == f.user
    case Refund(_) => f.action == e.action && e.user == f.user
    case Hosting(_) => f.action == e.action
    case _ => false
  }

  ghost predicate Once(log: seq<Entry>) {
    forall j, k :: 0 <= j < k < |log| ==> !SameEvent(log[j], log[k])
  }

  // A hosting hour is in the log exactly when its reservation was captured.
  predicate HasCapture(holds: seq<Hold>, e: Entry) {
    e.action.Hosting? ==>
      exists i :: 0 <= i < |holds| && e.amount == -1
                  && holds[i] == Hold(e.action.reservation, holds[i].authorization, e.user, Captured)
  }

  predicate HasDebit(log: seq<Entry>, h: Hold) {
    h.state == Captured ==> exists i :: 0 <= i < |log| && log[i].action == Hosting(h.id)
  }

  ghost predicate Booked(b: Bank) {
    && Once(b.log)
    && (forall k :: 0 <= k < |b.log| ==> HasCapture(b.holds, b.log[k]))
    && (forall k :: 0 <= k < |b.holds| ==> HasDebit(b.log, b.holds[k]))
  }

  lemma SameBooked(b: Bank, m: Bank)
    requires Booked(b) && m.log == b.log && m.holds == b.holds
    ensures Booked(m)
  {
  }

  // Appending a line for a new event.
  lemma MoveBooked(b: Bank, u: nat, credits: int, line: Entry)
    requires Booked(b) && u < |b.accounts| && !line.action.Hosting?
    requires forall k :: 0 <= k < |b.log| ==> !SameEvent(b.log[k], line)
    ensures Booked(Move(b, u, credits, line))
  {
    var m := Move(b, u, credits, line);
    forall k | 0 <= k < |m.log| ensures HasCapture(m.holds, m.log[k]) {
      if k < |b.log| { assert HasCapture(b.holds, b.log[k]); }
    }
    forall k | 0 <= k < |m.holds| ensures HasDebit(m.log, m.holds[k]) {
      DebitStays(b.log, line, b.holds[k]);
    }
  }

  lemma DebitStays(log: seq<Entry>, line: Entry, h: Hold)
    requires HasDebit(log, h)
    ensures HasDebit(log + [line], h)
  {
    if h.state == Captured {
      var i :| 0 <= i < |log| && log[i].action == Hosting(h.id);
      assert (log + [line])[i] == log[i];
    }
  }

  lemma ChargeBooked(b: Bank, u: nat, cost: nat)
    requires Booked(b) && u < |b.accounts|
    ensures Booked(ChargeBank(b, u, cost))
  {
    var credits := Max(0, b.accounts[u].credits - cost);
    var line := Entry(u, 0 - cost, Generation(|b.jobs|), b.now);
    MoveBooked(b, u, credits, line);
    if Available(b, u) >= cost { SameBooked(Move(b, u, credits, line), ChargeBank(b, u, cost)); }
  }

  lemma RefundBooked(b: Bank, g: nat)
    requires Booked(b) && g < |b.jobs|
    ensures Booked(RefundBank(b, g))
  {
    var done := b.(jobs := b.jobs[g := b.jobs[g].(refunded := true)]);
    SameBooked(b, done);
    var job := b.jobs[g];
    if job.user.Some? && job.user.value < |b.accounts| && !Logged(b.log, job.user.value, Refund(g)) {
      var u := job.user.value;
      var charged := if job.charged > 0 then job.charged else LoggedDebit(b.log, u, g);
      MoveBooked(done, u, b.accounts[u].credits + charged, Entry(u, charged, Refund(g), b.now));
    }
  }

  lemma LoginBooked(b: Bank, u: nat, reward: nat, read: Instant)
    requires Booked(b) && u < |b.accounts| && 0 <= read
    ensures Booked(LoginBank(b, u, reward, read))
  {
    hide Booked, ClaimedInMonth;
    GiftBooked(b, u, 10, MonthlyLogin);
    var m := MonthlyBank(b, u, read);
    GiftBooked(m, u, reward, DailyLogin);
    var d := Move(m, u, m.accounts[u].credits + reward, Entry(u, reward, DailyLogin, m.now));
    if b.accounts[u].lastLogin != Some(DayOf(read)) { SameBooked(d, LoginBank(b, u, reward, read)); }
  }

  // Gifts and login rewards have no identity of their own in the log.
  lemma GiftBooked(b: Bank, u: nat, credits: nat, action: Action)
    requires Booked(b) && u < |b.accounts| && (action == Gift || action == MonthlyLogin || action == DailyLogin)
    ensures Booked(Move(b, u, b.accounts[u].credits + credits, Entry(u, credits, action, b.now)))
  {
    MoveBooked(b, u, b.accounts[u].credits + credits, Entry(u, credits, action, b.now));
  }

  // Adopting a historical line gives it the payment's identity, which no line had.
  lemma AdoptBooked(b: Bank, k: nat, grant: Action)
    requires Booked(b) && k < |b.log| && b.log[k].action.Grant? && grant.Grant? && !Granted(b.log, grant)
    ensures Booked(b.(log := b.log[k := b.log[k].(action := grant)]))
  {
    var m := b.(log := b.log[k := b.log[k].(action := grant)]);
    forall i | 0 <= i < |m.log| ensures HasCapture(m.holds, m.log[i]) {
      assert HasCapture(b.holds, b.log[i]);
    }
    forall i | 0 <= i < |m.holds| ensures HasDebit(m.log, m.holds[i]) {
      DebitKept(b.log, k, m.log[k], b.holds[i]);
    }
    assert Once(m.log) by { AdoptOnce(b.log, k, grant); }
  }

  lemma AdoptOnce(log: seq<Entry>, k: nat, grant: Action)
    requires Once(log) && k < |log| && grant.Grant? && !Granted(log, grant)
    ensures Once(log[k := log[k].(action := grant)])
  {
  }

  lemma DebitKept(log: seq<Entry>, k: nat, line: Entry, h: Hold)
    requires HasDebit(log, h) && k < |log| && log[k].action.Grant?
    ensures HasDebit(log[k := line], h)
  {
    if h.state == Captured {
      var i :| 0 <= i < |log| && log[i].action == Hosting(h.id);
      assert log[k := line][i] == log[i];
    }
  }

  lemma SubscribeBooked(b: Bank, u: nat, subscription: nat, paidAt: Instant, credits: nat)
    requires Booked(b) && u < |b.accounts|
    ensures Booked(SubscribeBank(b, u, subscription, paidAt, credits))
  {
    hide Booked;
    var grant := Grant(subscription, Some(paidAt));
    var legacy := OldestLegacy(b.log, u, subscription, paidAt);
    if !Granted(b.log, grant) {
      if legacy.Some? {
        AdoptBooked(b, legacy.value, grant);
      } else {
        GrantBooked(b, u, credits, grant);
      }
    }
  }

  lemma GrantBooked(b: Bank, u: nat, credits: nat, grant: Action)
    requires Booked(b) && u < |b.accounts| && grant.Grant? && !Granted(b.log, grant)
    ensures Booked(Move(b, u, b.accounts[u].credits + credits, Entry(u, credits, grant, b.now)))
  {
    MoveBooked(b, u, b.accounts[u].credits + credits, Entry(u, credits, grant, b.now));
  }

  lemma BuyBooked(b: Bank, u: nat, payment: nat, credits: nat)
    requires Booked(b) && u < |b.accounts|
    ensures Booked(BuyBank(b, u, payment, credits))
  {
    if !Logged(b.log, u, Purchase(payment)) {
      MoveBooked(b, u, b.accounts[u].credits + credits, Entry(u, credits, Purchase(payment), b.now));
    }
  }

  // A row of the holds table that becomes or stays anything but captured.
  lemma HoldsBooked(b: Bank, holds: seq<Hold>)
    requires Booked(b) && |b.holds| <= |holds|
    requires forall k :: 0 <= k < |b.holds| ==>
               holds[k] == b.holds[k] || (b.holds[k].state == Reserved && holds[k].state == Released)
    requires forall k :: |b.holds| <= k < |holds| ==> holds[k].state != Captured
    ensures Booked(b.(holds := holds))
  {
    var m := b.(holds := holds);
    forall k | 0 <= k < |m.log| ensures HasCapture(m.holds, m.log[k]) {
      assert HasCapture(b.holds, b.log[k]);
      if b.log[k].action.Hosting? {
        var i :| 0 <= i < |b.holds|
                 && b.holds[i] == Hold(b.log[k].action.reservation, b.holds[i].authorization, b.log[k].user, Captured);
        assert m.holds[i] == b.holds[i];
      }
    }
    forall k | 0 <= k < |m.holds| ensures HasDebit(m.log, m.holds[k]) {
      if k < |b.holds| { assert HasDebit(b.log, b.holds[k]); }
    }
  }

  // Capturing a reserved hold: its hour cannot be in the log yet.
  lemma CaptureBooked(b: Bank, k: nat, credits: int)
    requires Booked(b) && UniqueHolds(b.holds) && k < |b.holds| && b.holds[k].state == Reserved
    requires b.holds[k].user < |b.accounts|
    ensures var h := b.holds[k];
            Booked(Move(b, h.user, credits, Entry(h.user, -1, Hosting(h.id), b.now)).(holds := b.holds[k := h.(state := Captured)]))
  {
    var h := b.holds[k];
    var line := Entry(h.user, -1, Hosting(h.id), b.now);
    var m := Move(b, h.user, credits, line).(holds := b.holds[k := h.(state := Captured)]);
    forall j | 0 <= j < |b.log| ensures HasCapture(m.holds, b.log[j]) && b.log[j].action != Hosting(h.id) {
      assert HasCapture(b.holds, b.log[j]);
      if b.log[j].action.Hosting? {
        var i :| 0 <= i < |b.holds|
                 && b.holds[i] == Hold(b.log[j].action.reservation, b.holds[i].authorization, b.log[j].user, Captured);
        assert i != k && m.holds[i] == b.holds[i];
      }
    }
    assert m.holds[k] == Hold(h.id, h.authorization, h.user, Captured);
    forall j | 0 <= j < |m.log| ensures HasCapture(m.holds, m.log[j]) {
      if j < |b.log| { assert HasCapture(m.holds, b.log[j]); }
    }
    forall i | 0 <= i < |m.holds| ensures HasDebit(m.log, m.holds[i]) {
      if i == k {
        assert m.log[|b.log|].action == Hosting(h.id);
      } else {
        DebitStays(b.log, line, b.holds[i]);
      }
    }
  }

  lemma SettleBooked(b: Bank, id: nat, a: nat, capture: bool)
    requires Booked(b) && Funded(b) && a < |b.authorizations|
    ensures Booked(SettleBank(b, id, a, capture))
  {
    hide Booked;
    var u := b.authorizations[a].user;
    var found := FindHold(b.holds, id);
    if u < |b.accounts| {
      if found.None? {
        if !capture { HoldsBooked(b, b.holds + [Hold(id, a, u, Released)]); }
      } else if b.holds[found.value].authorization == a && b.holds[found.value].state == Reserved {
        var k := found.value;
        assert HoldOk(b, b.holds[k]);
        HoldsBooked(b, b.holds[k := b.holds[k].(state := Released)]);
        CaptureBooked(b, k, b.accounts[u].credits - 1);
      }
    }
  }

  lemma StepBooked(b: Bank, t: Step)
    requires Booked(b) && Funded(b)
    ensures Booked(Do(b, t))
  {
    hide Funded, Booked, ChargeBank, SubscribeBank, RefundBank, LoginBank, SettleBank, Available, SameEvent;
    match t {
      case Charge(u, cost) => if u < |b.accounts| { ChargeBooked(b, u, cost); }
      case RefundJob(g) => if g < |b.jobs| { RefundBooked(b, g); }
      case Login(u, reward, read) => if u < |b.accounts| && 0 <= read { LoginBooked(b, u, reward, read); }
      case Subscribe(u, subscription, paidAt, credits) =>
        if u < |b.accounts| { SubscribeBooked(b, u, subscription, paidAt, credits); }
      case Sale(u, sale, subscription, paidAt, credits) =>
        if u < |b.accounts| {
          SubscribeBooked(b, u, subscription, paidAt, credits);
          var g := SubscribeBank(b, u, subscription, paidAt, credits);
          SameBooked(g, g.(sales := b.sales + {sale}));
        }
      case Buy(u, payment, credits) => if u < |b.accounts| { BuyBooked(b, u, payment, credits); }
      case Donate(u, credits) => if u < |b.accounts| { GiftBooked(b, u, credits, Gift); }
      case Reserve(id, a) =>
        if a < |b.authorizations| { HoldsBooked(b, b.holds + [Hold(id, a, b.authorizations[a].user, Reserved)]); }
      case Settle(id, a, capture) => if a < |b.authorizations| { SettleBooked(b, id, a, capture); }
      case _ => SameBooked(b, Do(b, t));
    }
  }
}
