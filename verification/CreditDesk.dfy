/** The credit handlers as they update the account, log, authorization and reservation rows. */
module CreditDesk {
  import opened Common
  import opened Tables
  import opened Calendar
  import opened Credits

  class Desk {
    var now: Instant
    var accounts: seq<Account>
    var log: seq<Entry>
    var jobs: seq<Job>
    var authorizations: seq<Authorization>
    var holds: seq<Hold>
    var sales: set<nat>

    constructor (b: Bank)
      ensures View() == b
    {
      now, accounts, log, jobs := b.now, b.accounts, b.log, b.jobs;
      authorizations, holds, sales := b.authorizations, b.holds, b.sales;
    }

    function View(): Bank
      reads this
    {
      Bank(now, accounts, log, jobs, authorizations, holds, sales)
    }

    // available_balance: never negative, and the exact remainder while holds are covered.
    method AvailableBalance(u: nat) returns (credits: int)
      requires u < |accounts|
      ensures credits == Available(View(), u)
      ensures 0 <= credits
      ensures Sum(HeldBy(u), holds) <= accounts[u].credits ==> credits + Sum(HeldBy(u), holds) == accounts[u].credits
      ensures (exists h :: h in holds && h.user == u && h.state == Reserved) ==> credits <= Max(0, accounts[u].credits - 1)
    {
      if k: nat :| k < |holds| && holds[k].user == u && holds[k].state == Reserved {
        SumAtLeastRow(HeldBy(u), holds, k);
      }
      SumNonNegative(HeldBy(u), holds);
      var held := Sum(HeldBy(u), holds);
      credits := Max(0, accounts[u].credits - held);
    }

    method Credit(u: nat, amount: int, action: Action)
      requires u < |accounts|
      modifies this`accounts, this`log
      ensures View() == Move(old(View()), u, old(accounts[u].credits) + amount, Entry(u, amount, action, now))
    {
      accounts := accounts[u := accounts[u].(credits := accounts[u].credits + amount)];
      log := log + [Entry(u, amount, action, now)];
    }

    method ChargeGeneration(u: nat, cost: nat) returns (ok: bool)
      requires u < |accounts|
      modifies this`accounts, this`log, this`jobs
      ensures View() == Do(old(View()), Step.Charge(u, cost))
      ensures ok <==> cost <= old(Available(View(), u))
    {
      var remaining := AvailableBalance(u);
      if remaining < cost { return false; }
      accounts := accounts[u := accounts[u].(credits := Max(0, accounts[u].credits - cost))];
      log := log + [Entry(u, 0 - cost, Generation(|jobs|), now)];
      jobs := jobs + [Job(Some(u), cost, false)];
      return true;
    }

    method RefundGeneration(g: nat) returns (refunded: nat)
      requires g < |jobs|
      modifies this`accounts, this`log, this`jobs
      ensures View() == Do(old(View()), RefundJob(g))
      ensures refunded > 0 ==> !old(jobs[g].refunded) && jobs[g].refunded
    {
      var job := jobs[g];
      if job.refunded { return 0; }
      var charged := job.charged;
      if charged == 0 && job.user.Some? { charged := LoggedDebit(log, job.user.value, g); }
      if job.user.None? || charged == 0 {
        jobs := jobs[g := job.(refunded := true)];
        return 0;
      }
      var u := job.user.value;
      if u >= |accounts| { return 0; }
      if Logged(log, u, Refund(g)) {
        jobs := jobs[g := job.(refunded := true)];
        return 0;
      }
      Credit(u, charged, Refund(g));
      jobs := jobs[g := job.(refunded := true)];
      return charged;
    }

    // `read` is the clock reading taken before the locks.
    method AwardDailyLogin(u: nat, reward: nat, read: Instant)
      requires u < |accounts| && 0 <= read <= now
      modifies this`accounts, this`log
      ensures View() == Do(old(View()), Login(u, reward, read))
    {
      var today := DayOf(read);
      if accounts[u].lastLogin == Some(today) { return; }
      if !ClaimedInMonth(View(), u, read) { Credit(u, 10, MonthlyLogin); }
      Credit(u, reward, DailyLogin);
      accounts := accounts[u := accounts[u].(lastLogin := Some(today))];
    }

    method AwardSubscription(u: nat, subscription: nat, paidAt: Instant, credits: nat)
      requires u < |accounts|
      modifies this`accounts, this`log
      ensures View() == SubscribeBank(old(View()), u, subscription, paidAt, credits)
    {
      var grant := Grant(subscription, Some(paidAt));
      if Granted(log, grant) { return; }
      var legacy := OldestLegacy(log, u, subscription, paidAt);
      if legacy.Some? {
        log := log[legacy.value := log[legacy.value].(action := grant)];
        return;
      }
      Credit(u, credits, grant);
    }

    // The billing half of a PAYMENT.SALE.COMPLETED event.
    method RecordSale(u: nat, sale: nat, subscription: nat, paidAt: Instant, credits: nat)
      requires u < |accounts|
      modifies this`accounts, this`log, this`sales
      ensures View() == Do(old(View()), Step.Sale(u, sale, subscription, paidAt, credits))
    {
      if sale in sales { return; }
      sales := sales + {sale};
      AwardSubscription(u, subscription, paidAt, credits);
    }

    method CapturePurchase(u: nat, payment: nat, credits: nat) returns (duplicate: bool)
      requires u < |accounts|
      modifies this`accounts, this`log
      ensures View() == Do(old(View()), Buy(u, payment, credits))
      ensures duplicate <==> View() == old(View())
    {
      if Logged(log, u, Purchase(payment)) { return true; }
      Credit(u, credits, Purchase(payment));
      assert |log| == |old(log)| + 1;
      return false;
    }

    method DisableEarlier(world: nat, entity: nat)
      modifies this`authorizations
      ensures authorizations == Disabled(old(authorizations), world, entity)
    {
      ghost var was := authorizations;
      for k := 0 to |authorizations|
        invariant |authorizations| == |was|
        invariant forall j :: 0 <= j < k ==> authorizations[j] == Disabled(was, world, entity)[j]
        invariant forall j :: k <= j < |was| ==> authorizations[j] == was[j]
      {
        if authorizations[k].world == world && authorizations[k].entity == entity {
          authorizations := authorizations[k := authorizations[k].(enabled := false)];
        }
      }
    }

    // A new authorization turns off every earlier one of the same entity.
    method Authorize(user: nat, world: nat, operation: nat, entity: nat, digest: nat, enabled: bool, maxCredits: nat)
      modifies this`authorizations
      ensures View() == Do(old(View()), Step.Authorize(user, world, operation, entity, digest, enabled, maxCredits))
    {
      if user >= |accounts| || OperationUsed(authorizations, world, operation) { return; }
      DisableEarlier(world, entity);
      var budget := if enabled then maxCredits else 0;
      authorizations := authorizations + [Authorization(user, world, operation, entity, digest, enabled, budget)];
    }

    method Reserve(id: nat, a: nat) returns (state: Option<HoldState>)
      requires a < |authorizations|
      modifies this`holds
      ensures View() == Do(old(View()), Step.Reserve(id, a))
      ensures state.Some? ==> FindHold(holds, id).Some?
    {
      var u := authorizations[a].user;
      if u >= |accounts| { return None; }
      var found := FindHold(holds, id);
      if found.Some? {
        if holds[found.value].authorization != a { return None; }
        return Some(holds[found.value].state);
      }
      if !authorizations[a].enabled { return None; }
      var spent := Sum(SpentOn(a), holds);
      if spent >= authorizations[a].maxCredits { return None; }
      var available := AvailableBalance(u);
      if available < 1 { return None; }
      holds := holds + [Hold(id, a, u, Reserved)];
      assert holds[|holds| - 1].id == id;
      return Some(Reserved);
    }

    method Settle(id: nat, a: nat, capture: bool) returns (ok: bool)
      requires a < |authorizations|
      modifies this`accounts, this`log, this`holds
      ensures View() == Do(old(View()), Step.Settle(id, a, capture))
      ensures ok ==> FindHold(holds, id).Some?
                     && exists k :: 0 <= k < |holds| && holds[k].id == id && holds[k].state == if capture then Captured else Released
    {
      var u := authorizations[a].user;
      if u >= |accounts| { return false; }
      var found := FindHold(holds, id);
      var target := if capture then Captured else Released;
      if found.None? {
        if capture { return false; }
        holds := holds + [Hold(id, a, u, Released)];
        assert holds[|holds| - 1] == Hold(id, a, u, Released);
        return true;
      }
      var k := found.value;
      if holds[k].authorization != a { return false; }
      if holds[k].state != Reserved && holds[k].state != target { return false; }
      if holds[k].state == Reserved {
        if capture {
          if accounts[u].credits < 1 { return false; }
          Credit(u, -1, Hosting(id));
        }
        holds := holds[k := holds[k].(state := target)];
      }
      assert holds[k].id == id && holds[k].state == target;
      return true;
    }

    method Revoke(a: nat)
      requires a < |authorizations|
      modifies this`authorizations
      ensures View() == Do(old(View()), Step.Revoke(a))
      ensures |authorizations| == |old(authorizations)|
      ensures authorizations[a].user < |accounts| ==> authorizations[a] == old(authorizations[a]).(enabled := false)
      ensures forall k :: 0 <= k < |authorizations| && k != a ==> authorizations[k] == old(authorizations)[k]
    {
      if authorizations[a].user >= |accounts| { return; }
      authorizations := authorizations[a := authorizations[a].(enabled := false)];
    }
  }
}
