/** Login rewards (backend_utils.award_daily_login_credits). The handler reads the clock before it
    waits for its locks, so the day it rewards may be over when it writes. */
module LoginHistory {
  import opened Common
  import opened Tables
  import opened Calendar
  import opened Credits

  // ---- the log: one line per day and month of its timestamps ----

  predicate SameReward(e: Entry, f: Entry)
    requires 0 <= e.created && 0 <= f.created
  {
    e.user == f.user && e.action == f.action
    && if e.action == DailyLogin then DayOf(e.created) == DayOf(f.created)
       else e.action == MonthlyLogin && MonthOf(DayOf(e.created)) == MonthOf(DayOf(f.created))
  }

  predicate Stamped(b: Bank, e: Entry) { 0 <= e.created <= b.now }

  ghost predicate RewardedOnce(b: Bank) {
    && (forall k :: 0 <= k < |b.log| ==> Stamped(b, b.log[k]))
    && forall j, k :: 0 <= j < k < |b.log| ==> !SameReward(b.log[j], b.log[k])
  }

  // No daily line is later than the recorded day, and that day is not in the future.
  predicate Recorded(b: Bank, e: Entry)
    requires 0 <= e.created
  {
    e.action == DailyLogin && e.user < |b.accounts| ==>
      b.accounts[e.user].lastLogin.Some? && DayOf(e.created) <= b.accounts[e.user].lastLogin.value
  }

  predicate Past(b: Bank, a: Account) { 0 <= b.now && (a.lastLogin.Some? ==> a.lastLogin.value <= DayOf(b.now)) }

  ghost predicate LoginsKept(b: Bank) {
    && RewardedOnce(b) && 0 <= b.now
    && (forall k :: 0 <= k < |b.log| ==> Recorded(b, b.log[k]))
    && (forall u :: 0 <= u < |b.accounts| ==> Past(b, b.accounts[u]))
  }

  // A login that pays.
  predicate Pays(b: Bank, t: Step) {
    t.Login? && t.user < |b.accounts| && 0 <= t.read <= b.now && b.accounts[t.user].lastLogin != Some(DayOf(t.read))
  }

  // The day did not end while the login waited.
  predicate Prompt(b: Bank, t: Step) { Pays(b, t) ==> DayOf(t.read) == DayOf(b.now) }

  predicate PromptRun(b: Bank, steps: seq<Step>)
    decreases |steps|
  {
    steps != [] ==> Prompt(b, steps[0]) && PromptRun(Do(b, steps[0]), steps[1..])
  }

  // The same log and recorded days, at a later time.
  lemma LaterKept(b: Bank, m: Bank)
    requires LoginsKept(b) && m.log == b.log && b.now <= m.now && |m.accounts| == |b.accounts|
    requires forall u :: 0 <= u < |b.accounts| ==> m.accounts[u].lastLogin == b.accounts[u].lastLogin
    ensures LoginsKept(m)
  {
    hide MonthOf;
    assert DayOf(b.now) <= DayOf(m.now);
    forall k | 0 <= k < |m.log| ensures Stamped(m, m.log[k]) && Recorded(m, m.log[k]) {
      assert Stamped(b, b.log[k]) && Recorded(b, b.log[k]);
    }
    forall u | 0 <= u < |m.accounts| ensures Past(m, m.accounts[u]) {
      assert Past(b, b.accounts[u]);
    }
  }

  // A line that is no login reward.
  lemma OtherKept(b: Bank, u: nat, credits: int, line: Entry)
    requires LoginsKept(b) && u < |b.accounts| && line.created == b.now
    requires line.action != DailyLogin && line.action != MonthlyLogin
    ensures LoginsKept(Move(b, u, credits, line))
  {
    hide MonthOf, DayOf;
    var m := Move(b, u, credits, line);
    forall k | 0 <= k < |m.log| ensures Stamped(m, m.log[k]) && Recorded(m, m.log[k]) {
      if k < |b.log| { assert Stamped(b, b.log[k]) && Recorded(b, b.log[k]); }
    }
    forall v | 0 <= v < |m.accounts| ensures Past(m, m.accounts[v]) {
      assert Past(b, b.accounts[v]);
    }
  }

  lemma AdoptKept(b: Bank, k: nat, grant: Action)
    requires LoginsKept(b) && k < |b.log| && b.log[k].action.Grant? && grant.Grant?
    ensures LoginsKept(b.(log := b.log[k := b.log[k].(action := grant)]))
  {
    hide MonthOf, DayOf;
    var m := b.(log := b.log[k := b.log[k].(action := grant)]);
    forall i | 0 <= i < |m.log| ensures Stamped(m, m.log[i]) && Recorded(m, m.log[i]) {
      assert Stamped(b, b.log[i]) && Recorded(b, b.log[i]);
    }
    forall v | 0 <= v < |m.accounts| ensures Past(m, m.accounts[v]) {
      assert Past(b, b.accounts[v]);
    }
  }

  // The window of the reading is the month of the present while the day lasts.
  lemma MonthlyKept(b: Bank, u: nat, read: Instant)
    requires LoginsKept(b) && u < |b.accounts| && 0 <= read && DayOf(read) == DayOf(b.now)
    ensures LoginsKept(MonthlyBank(b, u, read)) && MonthlyBank(b, u, read).now == b.now
    ensures |MonthlyBank(b, u, read).accounts| == |b.accounts|
    ensures MonthlyBank(b, u, read).accounts[u].lastLogin == b.accounts[u].lastLogin
  {
    hide MonthOf, DayOf, StartOfMonth, EndOfMonth;
    var line := Entry(u, 10, MonthlyLogin, b.now);
    if !ClaimedInMonth(b, u, read) {
      forall k | 0 <= k < |b.log| ensures Stamped(b, b.log[k]) && !SameReward(b.log[k], line) {
        assert Stamped(b, b.log[k]);
        WindowIsMonth(read, b.log[k].created);
      }
      var m := MonthlyBank(b, u, read);
      forall k | 0 <= k < |m.log| ensures Stamped(m, m.log[k]) && Recorded(m, m.log[k]) {
        if k < |b.log| { assert Stamped(b, b.log[k]) && Recorded(b, b.log[k]); }
      }
      forall v | 0 <= v < |m.accounts| ensures Past(m, m.accounts[v]) {
        assert Past(b, b.accounts[v]);
      }
    }
  }

  function DailyBank(b: Bank, u: nat, reward: nat, read: Instant): Bank
    requires u < |b.accounts| && 0 <= read
  {
    var d := Move(b, u, b.accounts[u].credits + reward, Entry(u, reward, DailyLogin, b.now));
    d.(accounts := d.accounts[u := d.accounts[u].(lastLogin := Some(DayOf(read)))])
  }

  lemma DailyKept(b: Bank, u: nat, reward: nat, read: Instant)
    requires LoginsKept(b) && u < |b.accounts| && 0 <= read && DayOf(read) == DayOf(b.now)
    requires b.accounts[u].lastLogin != Some(DayOf(read))
    ensures LoginsKept(DailyBank(b, u, reward, read))
  {
    hide MonthOf, DayOf;
    var m := DailyBank(b, u, reward, read);
    var line := m.log[|b.log|];
    assert Past(b, b.accounts[u]);
    forall k | 0 <= k < |b.log| ensures Stamped(m, b.log[k]) && !SameReward(b.log[k], line) && Recorded(m, b.log[k]) {
      assert Stamped(b, b.log[k]) && Recorded(b, b.log[k]);
    }
    forall k | 0 <= k < |m.log| ensures Stamped(m, m.log[k]) && Recorded(m, m.log[k]) {
      if k < |b.log| { assert Stamped(m, b.log[k]) && Recorded(m, b.log[k]); }
    }
    forall v | 0 <= v < |m.accounts| ensures Past(m, m.accounts[v]) {
      assert Past(b, b.accounts[v]);
    }
  }

  lemma LoginKept(b: Bank, t: Step)
    requires LoginsKept(b) && t.Login? && Prompt(b, t)
    ensures LoginsKept(Do(b, t))
  {
    hide LoginsKept, DayOf, ClaimedInMonth;
    if Pays(b, t) {
      MonthlyKept(b, t.user, t.read);
      DailyKept(MonthlyBank(b, t.user, t.read), t.user, t.reward, t.read);
    }
  }

  lemma StepKept(b: Bank, t: Step)
    requires LoginsKept(b) && Prompt(b, t)
    ensures LoginsKept(Do(b, t))
  {
    hide LoginsKept, LoginBank, Prompt, Logged, Granted, LoggedDebit, Available, OperationUsed, LegacyGrant, Sum;
    match t {
      case Login(_, _, _) => LoginKept(b, t);
      case Charge(u, cost) => if u < |b.accounts| { ChargeKept(b, u, cost); }
      case RefundJob(g) => if g < |b.jobs| { RefundKept(b, g); }
      case Subscribe(u, subscription, paidAt, credits) =>
        if u < |b.accounts| { SubscribeKept(b, u, subscription, paidAt, credits); }
      case Sale(u, sale, subscription, paidAt, credits) =>
        if u < |b.accounts| {
          SubscribeKept(b, u, subscription, paidAt, credits);
          var g := SubscribeBank(b, u, subscription, paidAt, credits);
          LaterKept(g, g.(sales := b.sales + {sale}));
        }
      case Buy(u, payment, credits) =>
        if u < |b.accounts| { OtherKept(b, u, b.accounts[u].credits + credits, Entry(u, credits, Purchase(payment), b.now)); }
      case Donate(u, credits) =>
        if u < |b.accounts| { OtherKept(b, u, b.accounts[u].credits + credits, Entry(u, credits, Gift, b.now)); }
      case Settle(id, a, capture) => if a < |b.authorizations| { SettleKept(b, id, a, capture); }
      case _ => LaterKept(b, Do(b, t));
    }
  }

  lemma ChargeKept(b: Bank, u: nat, cost: nat)
    requires LoginsKept(b) && u < |b.accounts|
    ensures LoginsKept(ChargeBank(b, u, cost))
  {
    hide LoginsKept;
    var credits := Max(0, b.accounts[u].credits - cost);
    var line := Entry(u, 0 - cost, Generation(|b.jobs|), b.now);
    OtherKept(b, u, credits, line);
    if Available(b, u) >= cost { LaterKept(Move(b, u, credits, line), ChargeBank(b, u, cost)); }
  }

  lemma RefundKept(b: Bank, g: nat)
    requires LoginsKept(b) && g < |b.jobs|
    ensures LoginsKept(RefundBank(b, g))
  {
    hide LoginsKept, Logged, LoggedDebit;
    var done := b.(jobs := b.jobs[g := b.jobs[g].(refunded := true)]);
    LaterKept(b, done);
    var job := b.jobs[g];
    if job.user.Some? && job.user.value < |b.accounts| {
      var u := job.user.value;
      var charged := if job.charged > 0 then job.charged else LoggedDebit(b.log, u, g);
      OtherKept(done, u, b.accounts[u].credits + charged, Entry(u, charged, Refund(g), b.now));
    }
  }

  lemma SubscribeKept(b: Bank, u: nat, subscription: nat, paidAt: Instant, credits: nat)
    requires LoginsKept(b) && u < |b.accounts|
    ensures LoginsKept(SubscribeBank(b, u, subscription, paidAt, credits))
  {
    hide LoginsKept, Granted;
    var grant := Grant(subscription, Some(paidAt));
    OtherKept(b, u, b.accounts[u].credits + credits, Entry(u, credits, grant, b.now));
    var legacy := OldestLegacy(b.log, u, subscription, paidAt);
    if legacy.Some? { AdoptKept(b, legacy.value, grant); }
  }

  lemma SettleKept(b: Bank, id: nat, a: nat, capture: bool)
    requires LoginsKept(b) && a < |b.authorizations|
    ensures LoginsKept(SettleBank(b, id, a, capture))
  {
    hide LoginsKept;
    var u := b.authorizations[a].user;
    var m := SettleBank(b, id, a, capture);
    if m.log == b.log {
      LaterKept(b, m);
    } else {
      var line := Entry(u, -1, Hosting(id), b.now);
      OtherKept(b, u, b.accounts[u].credits - 1, line);
      LaterKept(Move(b, u, b.accounts[u].credits - 1, line), m);
    }
  }

  // While no paying login outlives the day it read, the log holds one line per user and day and
  // one per user and month.
  lemma {:induction false} RewardsOncePerDayAndMonth(b: Bank, steps: seq<Step>)
    requires LoginsKept(b) && PromptRun(b, steps)
    ensures RewardedOnce(Run(b, steps))
    decreases |steps|
  {
    hide Do, Prompt;
    if steps != [] {
      StepKept(b, steps[0]);
      RewardsOncePerDayAndMonth(Do(b, steps[0]), steps[1..]);
    }
  }

  // A paying login that outlived its day: the next login of the present day is paid as well, and
  // both lines carry the present day.
  lemma LateLoginDoubles(b: Bank, t: Step)
    requires LoginsKept(b) && Pays(b, t) && DayOf(t.read) != DayOf(b.now)
    ensures var l := Do(b, t);
            var next := Login(t.user, 0, b.now);
            && l.now == b.now && Pays(l, next) && Prompt(l, next)
            && !RewardedOnce(Do(l, next))
  {
    hide MonthOf, ClaimedInMonth;
    var l := Do(b, t);
    var next := Login(t.user, 0, b.now);
    LoginAdds(b, t);
    assert l.accounts[t.user].lastLogin == Some(DayOf(t.read));
    LoginAdds(l, next);
    var d := Do(l, next);
    var j, k := |l.log| - 1, |d.log| - 1;
    assert d.log[j] == l.log[j];
    assert SameReward(d.log[j], d.log[k]);
  }

  // What a paying login leaves behind.
  lemma LoginAdds(b: Bank, t: Step)
    requires Pays(b, t)
    ensures var l := Do(b, t);
            && l.now == b.now && |l.accounts| == |b.accounts| && |b.log| < |l.log| && l.log[..|b.log|] == b.log
            && l.log[|l.log| - 1] == Entry(t.user, t.reward, DailyLogin, b.now)
            && l.accounts[t.user].lastLogin == Some(DayOf(t.read))
            && b.accounts[t.user].credits + t.reward <= l.accounts[t.user].credits
  {
    hide MonthOf, ClaimedInMonth, DayOf;
  }

  // Exactly: once per day and month is safe after a step, whatever prompt runs follow, if and
  // only if that step is not a login that pays for a day that is over.
  lemma OnceIffPrompt(b: Bank, t: Step)
    requires LoginsKept(b)
    ensures (forall steps :: PromptRun(Do(b, t), steps) ==> RewardedOnce(Run(Do(b, t), steps))) <==> Prompt(b, t)
  {
    hide Do, LoginsKept, RewardedOnce;
    if Prompt(b, t) {
      StepKept(b, t);
      forall steps | PromptRun(Do(b, t), steps) ensures RewardedOnce(Run(Do(b, t), steps)) {
        RewardsOncePerDayAndMonth(Do(b, t), steps);
      }
    } else {
      LateLoginDoubles(b, t);
      OneStep(Do(b, t), Login(t.user, 0, b.now));
    }
  }

  lemma OneStep(b: Bank, t: Step)
    ensures Run(b, [t]) == Do(b, t) && (Prompt(b, t) ==> PromptRun(b, [t]))
  {
    hide Do, Prompt;
    assert [t][1..] == [];
    assert Run(Do(b, t), []) == Do(b, t);
  }

  // ---- the balance: one payment per day that was read ----

  // The day a step pays to u, if any.
  function PaidDay(b: Bank, t: Step, u: nat): Option<nat> {
    if Pays(b, t) && t.user == u then Some(DayOf(t.read)) else None
  }

  function PaidDays(b: Bank, steps: seq<Step>, u: nat): seq<nat>
    decreases |steps|
  {
    if steps == [] then []
    else
      var d := PaidDay(b, steps[0], u);
      (if d.Some? then [d.value] else []) + PaidDays(Do(b, steps[0]), steps[1..], u)
  }

  // Nobody pays for a day before the recorded one.
  predicate Forward(b: Bank, t: Step) {
    Pays(b, t) && b.accounts[t.user].lastLogin.Some? ==> b.accounts[t.user].lastLogin.value < DayOf(t.read)
  }

  predicate ForwardRun(b: Bank, steps: seq<Step>)
    decreases |steps|
  {
    steps != [] ==> Forward(b, steps[0]) && ForwardRun(Do(b, steps[0]), steps[1..])
  }

  predicate Increasing(days: seq<nat>) { forall i, j :: 0 <= i < j < |days| ==> days[i] < days[j] }

  lemma RecordedDay(b: Bank, t: Step, u: nat)
    requires u < |b.accounts|
    ensures u < |Do(b, t).accounts|
    ensures Do(b, t).accounts[u].lastLogin == if PaidDay(b, t, u).Some? then PaidDay(b, t, u) else b.accounts[u].lastLogin
  {
    hide DayOf, ClaimedInMonth, Logged, Granted, LoggedDebit, Available, OperationUsed, OldestLegacy;
  }

  // If no login pays for a day before the recorded one, every day is paid at most once, in order.
  lemma {:induction false} DaysPaidOnce(b: Bank, steps: seq<Step>, u: nat)
    requires u < |b.accounts| && ForwardRun(b, steps)
    ensures Increasing(PaidDays(b, steps, u))
    ensures b.accounts[u].lastLogin.Some? ==> forall d :: d in PaidDays(b, steps, u) ==> b.accounts[u].lastLogin.value < d
    decreases |steps|
  {
    hide Do, DayOf;
    if steps != [] {
      RecordedDay(b, steps[0], u);
      DaysPaidOnce(Do(b, steps[0]), steps[1..], u);
      var (d, rest) := (PaidDay(b, steps[0], u), PaidDays(Do(b, steps[0]), steps[1..], u));
      assert PaidDays(b, steps, u) == (if d.Some? then [d.value] else []) + rest;
      assert forall j :: 0 <= j < |rest| ==> rest[j] in rest;
      if d.None? { assert PaidDays(b, steps, u) == rest; }
    }
  }

  // Exactly: the recorded day of a user can never be paid again, whatever forward runs follow a
  // step, if and only if that step does not pay the user for an earlier day.
  lemma DayClosedIff(b: Bank, t: Step, u: nat)
    requires u < |b.accounts| && 0 <= b.now && b.accounts[u].lastLogin.Some? && b.accounts[u].lastLogin.value <= DayOf(b.now)
    ensures var d := b.accounts[u].lastLogin.value;
            (forall steps :: ForwardRun(Do(b, t), steps) ==> d !in PaidDays(Do(b, t), steps, u))
            <==> (t.Login? && t.user == u ==> Forward(b, t))
  {
    hide Do;
    var d := b.accounts[u].lastLogin.value;
    var c := Do(b, t);
    RecordedDay(b, t, u);
    if t.Login? && t.user == u && !Forward(b, t) {
      LoginAdds(b, t);
      var again := Login(u, 0, d * Calendar.DAY);
      FirstInstantOf(d, b.now);
      assert Pays(c, again) && Forward(c, again);
      OneForward(c, again, u);
      assert d in PaidDays(c, [again], u);
    } else {
      forall steps | ForwardRun(c, steps) ensures d !in PaidDays(c, steps, u) {
        DaysPaidOnce(c, steps, u);
      }
    }
  }

  lemma FirstInstantOf(d: nat, now: Instant)
    requires 0 <= now && d <= DayOf(now)
    ensures 0 <= d * Calendar.DAY <= now && DayOf(d * Calendar.DAY) == d
  {
  }

  lemma OneForward(b: Bank, t: Step, u: nat)
    ensures Forward(b, t) ==> ForwardRun(b, [t])
    ensures PaidDays(b, [t], u) == if PaidDay(b, t, u).Some? then [PaidDay(b, t, u).value] else []
  {
    hide Do, Forward, PaidDay;
    assert [t][1..] == [] && PaidDays(Do(b, t), [], u) == [];
  }

  // The guard is needed: a login that waited past midnight behind another one reopens the day the
  // other was paid for, and the day is paid twice.
  lemma StaleLoginReopensDay(b: Bank, u: nat, reward: nat, read: Instant)
    requires u < |b.accounts| && 0 <= read <= b.now && DayOf(read) < DayOf(b.now)
    requires b.accounts[u].lastLogin.Some? ==> b.accounts[u].lastLogin.value < DayOf(read)
    ensures var steps := [Login(u, reward, b.now), Login(u, reward, read), Login(u, reward, b.now)];
            && PaidDays(b, steps, u) == [DayOf(b.now), DayOf(read), DayOf(b.now)]
            && u < |Run(b, steps).accounts|
            && b.accounts[u].credits + 3 * reward <= Run(b, steps).accounts[u].credits
  {
    hide Do, DayOf;
    var steps := [Login(u, reward, b.now), Login(u, reward, read), Login(u, reward, b.now)];
    LoginAdds(b, steps[0]);
    var b1 := Do(b, steps[0]);
    LoginAdds(b1, steps[1]);
    var b2 := Do(b1, steps[1]);
    LoginAdds(b2, steps[2]);
    UnfoldThree(b, steps, u);
  }

  lemma UnfoldThree(b: Bank, steps: seq<Step>, u: nat)
    requires |steps| == 3
    ensures var (b1, b2) := (Do(b, steps[0]), Do(Do(b, steps[0]), steps[1]));
            && Run(b, steps) == Do(b2, steps[2])
            && (PaidDay(b, steps[0], u).Some? && PaidDay(b1, steps[1], u).Some? && PaidDay(b2, steps[2], u).Some? ==>
                  PaidDays(b, steps, u) == [PaidDay(b, steps[0], u).value, PaidDay(b1, steps[1], u).value, PaidDay(b2, steps[2], u).value])
  {
    hide Do, PaidDay;
    var r1, r2 := steps[1..], steps[2..];
    assert r1[1..] == r2 && r2[1..] == [] && r1[0] == steps[1] && r2[0] == steps[2];
    var b1 := Do(b, steps[0]);
    var b2 := Do(b1, r1[0]);
    var b3 := Do(b2, r2[0]);
    assert Run(b3, []) == b3 && PaidDays(b3, [], u) == [];
    assert Run(b2, r2) == b3 && Run(b1, r1) == Run(b2, r2);
    var (d0, d1, d2) := (PaidDay(b, steps[0], u), PaidDay(b1, steps[1], u), PaidDay(b2, steps[2], u));
    if d0.Some? && d1.Some? && d2.Some? {
      assert PaidDays(b2, r2, u) == [d2.value] + [];
      assert PaidDays(b1, r1, u) == [d1.value] + PaidDays(b2, r2, u);
      assert PaidDays(b, steps, u) == [d0.value] + PaidDays(b1, r1, u);
    }
  }
}
