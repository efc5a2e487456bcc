/** Whole runs of the credit movers, from any bank whose history is consistent. */
module CreditRuns {
  import opened Common
  import opened Tables
  import opened Calendar
  import opened Credits
  import opened CreditSafety
  import opened CreditHistory
  import opened LoginHistory
  import opened GenerationCosts

  ghost predicate Good(b: Bank) { Funded(b) && Booked(b) && Costed(b) }

  // A bank before any hold: history may be there, but nobody owes it anything.
  ghost predicate Opening(b: Bank) {
    && b.holds == [] && Booked(b) && Costed(b)
    && forall u :: 0 <= u < |b.accounts| ==> 0 <= b.accounts[u].credits
  }

  lemma OpeningGood(b: Bank)
    requires Opening(b)
    ensures Good(b)
  {
    assert forall u: nat :: u < |b.accounts| ==> Covered(b, u);
    assert forall a: nat :: a < |b.authorizations| ==> WithinBudget(b, a);
  }

  lemma {:induction false} RunGood(b: Bank, steps: seq<Step>)
    requires Good(b)
    ensures Good(Run(b, steps))
    decreases |steps|
  {
    hide Do, Funded, Booked, Costed;
    if steps != [] {
      StepFunded(b, steps[0]);
      StepBooked(b, steps[0]);
      StepCosted(b, steps[0]);
      RunGood(Do(b, steps[0]), steps[1..]);
    }
  }

  lemma {:induction false} RunLogged(b: Bank, steps: seq<Step>, u: nat)
    requires Funded(b) && u < |b.accounts|
    ensures u < |Run(b, steps).accounts| && Unlogged(Run(b, steps), u) == Unlogged(b, u)
    decreases |steps|
  {
    hide Do, Funded, Unlogged;
    if steps != [] {
      StepFunded(b, steps[0]);
      StepLogged(b, steps[0], u);
      RunLogged(Do(b, steps[0]), steps[1..], u);
    }
  }

  // In every reachable state a balance covers its holds, what is spendable is the exact
  // difference, and the balance is its opening value plus the lines logged since.
  lemma HoldsAlwaysCovered(b: Bank, steps: seq<Step>, u: nat)
    requires Opening(b) && u < |b.accounts|
    ensures var e := Run(b, steps);
            && u < |e.accounts|
            && Sum(HeldBy(u), e.holds) <= e.accounts[u].credits
            && Available(e, u) == e.accounts[u].credits - Sum(HeldBy(u), e.holds)
            && e.accounts[u].credits == b.accounts[u].credits + Sum(AmountOf(u), e.log) - Sum(AmountOf(u), b.log)
  {
    hide Run, Booked, Costed;
    OpeningGood(b);
    RunGood(b, steps);
    RunLogged(b, steps, u);
    assert Covered(Run(b, steps), u);
  }

  // Capturing a reserved hold passes the balance check in every reachable state. It debits
  // exactly one credit and leaves what the user can spend alone.
  lemma CaptureNeverFails(b: Bank, steps: seq<Step>, k: nat)
    requires Opening(b) && k < |Run(b, steps).holds| && Run(b, steps).holds[k].state == Reserved
    ensures var e := Run(b, steps);
            var h := e.holds[k];
            var c := Do(e, Settle(h.id, h.authorization, true));
            && h.user < |e.accounts| && |c.accounts| == |e.accounts|
            && 1 <= e.accounts[h.user].credits
            && c.holds == e.holds[k := h.(state := Captured)]
            && c.accounts[h.user].credits == e.accounts[h.user].credits - 1
            && Available(c, h.user) == Available(e, h.user)
            && c.log == e.log + [Entry(h.user, -1, Hosting(h.id), e.now)]
  {
    hide Run, Booked, Costed;
    OpeningGood(b);
    RunGood(b, steps);
    CaptureOne(Run(b, steps), k);
  }

  lemma CaptureOne(e: Bank, k: nat)
    requires Funded(e) && k < |e.holds| && e.holds[k].state == Reserved
    ensures var h := e.holds[k];
            var c := Do(e, Settle(h.id, h.authorization, true));
            && h.user < |e.accounts| && |c.accounts| == |e.accounts|
            && 1 <= e.accounts[h.user].credits
            && c.holds == e.holds[k := h.(state := Captured)]
            && c.accounts[h.user].credits == e.accounts[h.user].credits - 1
            && Available(c, h.user) == Available(e, h.user)
            && c.log == e.log + [Entry(h.user, -1, Hosting(h.id), e.now)]
  {
    var h := e.holds[k];
    assert HoldOk(e, h) && Covered(e, h.user);
    assert FindHold(e.holds, h.id) == Some(k);
    SumAtLeastRow(HeldBy(h.user), e.holds, k);
    SumUpdate(HeldBy(h.user), e.holds, k, h.(state := Captured));
  }

  // However reservation messages are duplicated, delayed or reordered: an id has one row, its
  // budget holds, and it has one debit if it was captured and none otherwise.
  lemma HostingOnce(b: Bank, steps: seq<Step>, k: nat, i: nat, j: nat)
    requires Opening(b)
    requires var e := Run(b, steps); k < |e.holds| && i < |e.log| && j < |e.log|
    ensures var e := Run(b, steps);
            var h := e.holds[k];
            && (forall l :: 0 <= l < |e.holds| && e.holds[l].id == h.id ==> l == k)
            && h.authorization < |e.authorizations|
            && Sum(SpentOn(h.authorization), e.holds) <= e.authorizations[h.authorization].maxCredits
            && (h.state == Captured <==> exists l :: 0 <= l < |e.log| && e.log[l].action == Hosting(h.id))
            && (e.log[i].action == Hosting(h.id) && e.log[j].action == Hosting(h.id) ==>
                  i == j && e.log[i].user == h.user && e.log[i].amount == -1)
  {
    hide Run, Costed;
    OpeningGood(b);
    RunGood(b, steps);
    var e := Run(b, steps);
    var h := e.holds[k];
    assert HoldOk(e, h) && WithinBudget(e, h.authorization);
    assert HasDebit(e.log, h);
    forall l | 0 <= l < |e.log| && e.log[l].action == Hosting(h.id)
      ensures h.state == Captured && e.log[l].user == h.user && e.log[l].amount == -1
    {
      assert HasCapture(e.holds, e.log[l]);
      var c :| 0 <= c < |e.holds| && e.holds[c] == Hold(h.id, e.holds[c].authorization, e.log[l].user, Captured);
      assert e.holds[c].id == e.holds[k].id;
    }
    if i != j {
      assert !SameEvent(e.log[if i < j then i else j], e.log[if i < j then j else i]);
    }
  }

  // A settled reservation never changes again, and every row keeps its place.
  predicate Settles(before: Hold, after: Hold) {
    after == before || (before.state == Reserved && after == before.(state := after.state))
  }

  lemma StepSettles(b: Bank, t: Step, k: nat)
    requires k < |b.holds|
    ensures k < |Do(b, t).holds| && Settles(b.holds[k], Do(b, t).holds[k])
  {
    hide Available, Logged, Granted, LoggedDebit, OldestLegacy, ClaimedInMonth, OperationUsed, Sum;
  }

  lemma {:induction false} SettledForGood(b: Bank, steps: seq<Step>, k: nat)
    requires k < |b.holds|
    ensures k < |Run(b, steps).holds| && Settles(b.holds[k], Run(b, steps).holds[k])
    decreases |steps|
  {
    hide Do;
    if steps != [] {
      StepSettles(b, steps[0], k);
      SettledForGood(Do(b, steps[0]), steps[1..], k);
    }
  }

  // One log line for each purchase, refund and paid cycle (adopted historical grants included).
  lemma CreditedOnce(b: Bank, steps: seq<Step>, i: nat, j: nat)
    requires Opening(b)
    requires var log := Run(b, steps).log; i < |log| && j < |log| && i != j
    ensures var log := Run(b, steps).log;
            var (e, f) := (log[i], log[j]);
            && (e.action.Grant? && e.action.key.Some? ==> f.action != e.action)
            && (e.user == f.user && (e.action.Purchase? || e.action.Refund?) ==> f.action != e.action)
  {
    hide Run, Funded, Costed;
    OpeningGood(b);
    RunGood(b, steps);
    var log := Run(b, steps).log;
    assert !SameEvent(log[if i < j then i else j], log[if i < j then j else i]);
  }

  // One line for each login day and month, by the timestamps of the log, as long as no paying
  // login outlives the day it read.
  lemma RewardedOnceEach(b: Bank, steps: seq<Step>, i: nat, j: nat)
    requires LoginsKept(b) && PromptRun(b, steps)
    requires var log := Run(b, steps).log; i < |log| && j < |log| && i != j && log[i].user == log[j].user
    ensures var (e, f) := (Run(b, steps).log[i], Run(b, steps).log[j]);
            && 0 <= e.created && 0 <= f.created
            && (e.action == DailyLogin && f.action == DailyLogin ==> DayOf(e.created) != DayOf(f.created))
            && (e.action == MonthlyLogin && f.action == MonthlyLogin ==>
                  MonthOf(DayOf(e.created)) != MonthOf(DayOf(f.created)))
  {
    hide Run, MonthOf, DayOf;
    RewardsOncePerDayAndMonth(b, steps);
    var log := Run(b, steps).log;
    assert Stamped(Run(b, steps), log[i]) && Stamped(Run(b, steps), log[j]);
    assert !SameReward(log[if i < j then i else j], log[if i < j then j else i]);
  }

  // A generation that was refunded cost its owner nothing; any other cost exactly its debit.
  lemma RefundUndoesDebit(b: Bank, steps: seq<Step>, g: nat)
    requires Opening(b)
    requires var e := Run(b, steps); g < |e.jobs| && e.jobs[g].user.Some?
    ensures var e := Run(b, steps);
            var u := e.jobs[g].user.value;
            Sum(CostOf(u, g), e.log) == if e.jobs[g].refunded then 0 else 0 - Owed(e, u, g)
  {
    hide Run, Funded, Booked;
    OpeningGood(b);
    RunGood(b, steps);
    assert JobOk(Run(b, steps), g);
  }

  // A subscription sale is processed once: delivered again, at any later time and whatever the
  // event says, it changes nothing.
  lemma {:induction false} SaleOnce(b: Bank, steps: seq<Step>, sale: nat, u: nat, subscription: nat, paidAt: Instant,
                                    credits: nat)
    requires u < |b.accounts|
    ensures var e := Run(Do(b, Sale(u, sale, subscription, paidAt, credits)), steps);
            sale in e.sales && forall v: nat, s: nat, at: Instant, c: nat :: Do(e, Sale(v, sale, s, at, c)) == e
  {
    hide SubscribeBank;
    SalesStay(Do(b, Sale(u, sale, subscription, paidAt, credits)), steps, sale);
  }

  lemma {:induction false} SalesStay(b: Bank, steps: seq<Step>, sale: nat)
    requires sale in b.sales
    ensures sale in Run(b, steps).sales
    decreases |steps|
  {
    hide Do;
    if steps != [] {
      SalesKept(b, steps[0]);
      SalesStay(Do(b, steps[0]), steps[1..], sale);
    }
  }

  lemma SalesKept(b: Bank, t: Step)
    ensures b.sales <= Do(b, t).sales
  {
    hide Available, Logged, Granted, LoggedDebit, OldestLegacy, ClaimedInMonth, OperationUsed, Sum;
  }

  // A login whose day is still the present one: the first of a UTC day pays the daily reward, the
  // first of a calendar month ten credits more, any other nothing.
  lemma LoginPays(b: Bank, u: nat, reward: nat, read: Instant)
    requires LoginsKept(b) && u < |b.accounts| && 0 <= read <= b.now && DayOf(read) == DayOf(b.now)
    ensures var (before, after) := (b.accounts[u], Do(b, Login(u, reward, read)).accounts[u]);
            var seen := exists k :: 0 <= k < |b.log| && b.log[k].user == u && b.log[k].action == MonthlyLogin
                                    && 0 <= b.log[k].created && MonthOf(DayOf(b.log[k].created)) == MonthOf(DayOf(b.now));
            && after.lastLogin == Some(DayOf(b.now))
            && after.credits == before.credits +
                 if before.lastLogin == Some(DayOf(b.now)) then 0 else reward + if seen then 0 else 10
  {
    hide MonthOf, DayOf, StartOfMonth, EndOfMonth;
    forall k | 0 <= k < |b.log|
      ensures 0 <= b.log[k].created
      ensures StartOfMonth(read) <= b.log[k].created <= EndOfMonth(read) <==>
              MonthOf(DayOf(b.log[k].created)) == MonthOf(DayOf(b.now))
    {
      assert Stamped(b, b.log[k]);
      WindowIsMonth(read, b.log[k].created);
    }
  }
}
