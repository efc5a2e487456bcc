/** One balance and one log per user, shared by generation debits and refunds, hosting
    holds, login rewards, subscription grants, purchases and gifts (routers/space_billing.py,
    credit_balance.py, backend_utils.py, routers/generate.py, routers/credit.py). */
module Credits {
  import opened Common
  import opened Tables
  import opened Calendar

  datatype Action =
    | Generation(log: nat) | Refund(log: nat) | Hosting(reservation: nat)
    | DailyLogin | MonthlyLogin
    | Grant(subscription: nat, key: Option<Instant>)  // the key is the verified payment time
    | Purchase(payment: nat) | Gift

  datatype Entry = Entry(user: nat, amount: int, action: Action, created: Instant)
  datatype Account = Account(credits: int, lastLogin: Option<nat>)
  datatype HoldState = Reserved | Captured | Released
  datatype Hold = Hold(id: nat, authorization: nat, user: nat, state: HoldState)
  datatype Authorization = Authorization(
    user: nat, world: nat, operation: nat, entity: nat, digest: nat, enabled: bool, maxCredits: nat)
  datatype Job = Job(user: Option<nat>, charged: nat, refunded: bool)

  datatype Bank = Bank(
    now: Instant, accounts: seq<Account>, log: seq<Entry>, jobs: seq<Job>,
    authorizations: seq<Authorization>, holds: seq<Hold>,
    sales: set<nat>)  // the orders recorded for subscription sales

  datatype Step =
    | Tick(micros: nat)
    | Charge(user: nat, cost: nat)                          // generate_image
    | RefundJob(log: nat)                                   // refund_generation_credits
    // award_daily_login_credits: the clock was read before the wait for the locks.
    | Login(user: nat, reward: nat, read: Instant)
    | Subscribe(user: nat, subscription: nat, paidAt: Instant, credits: nat)  // award_subscription_credits
    | Sale(user: nat, sale: nat, subscription: nat, paidAt: Instant, credits: nat)  // PAYMENT.SALE.COMPLETED
    | Buy(user: nat, payment: nat, credits: nat)            // capture_credits
    | Donate(user: nat, credits: nat)                       // administrators' gifts and compensations
    | Authorize(user: nat, world: nat, operation: nat, entity: nat, digest: nat, enabled: bool, maxCredits: nat)
    | Revoke(authorization: nat)
    | Reserve(id: nat, authorization: nat)
    | Settle(id: nat, authorization: nat, capture: bool)

  // ---- queries ----

  function HeldBy(u: nat): Hold -> int { (h: Hold) => if h.user == u && h.state == Reserved then 1 else 0 }

  function SpentOn(a: nat): Hold -> int { (h: Hold) => if h.authorization == a && h.state != Released then 1 else 0 }

  function AmountOf(u: nat): Entry -> int { (e: Entry) => if e.user == u then e.amount else 0 }

  function Available(b: Bank, u: nat): int
    requires u < |b.accounts|
  {
    Max(0, b.accounts[u].credits - Sum(HeldBy(u), b.holds))
  }

  function FindHold(holds: seq<Hold>, id: nat): (r: Option<nat>)
    ensures r.None? ==> forall k :: 0 <= k < |holds| ==> holds[k].id != id
    ensures r.Some? ==> r.value < |holds| && holds[r.value].id == id
  {
    if holds == [] then None
    else if holds[0].id == id then Some(0)
    else match FindHold(holds[1..], id) case None => None case Some(k) => Some(k + 1)
  }

  predicate Logged(log: seq<Entry>, u: nat, action: Action) {
    exists k :: 0 <= k < |log| && log[k].user == u && log[k].action == action
  }

  // A monthly line inside the month that was read.
  predicate ClaimedInMonth(b: Bank, u: nat, read: Instant)
    requires 0 <= read
  {
    exists k :: 0 <= k < |b.log| && b.log[k].user == u && b.log[k].action == MonthlyLogin
                && StartOfMonth(read) <= b.log[k].created <= EndOfMonth(read)
  }

  // Rows written before payments had an identity, at or after this payment.
  predicate LegacyGrant(e: Entry, u: nat, subscription: nat, paidAt: Instant) {
    e.user == u && e.action == Grant(subscription, None) && e.created >= paidAt
  }

  // The adopted row: the oldest, whatever order the rows are in.
  function OldestLegacy(log: seq<Entry>, u: nat, subscription: nat, paidAt: Instant): (r: Option<nat>)
    ensures r.None? ==> forall k :: 0 <= k < |log| ==> !LegacyGrant(log[k], u, subscription, paidAt)
    ensures r.Some? ==>
              && r.value < |log| && LegacyGrant(log[r.value], u, subscription, paidAt)
              && forall k :: 0 <= k < |log| && LegacyGrant(log[k], u, subscription, paidAt)
                   ==> log[r.value].created <= log[k].created
  {
    if log == [] then None
    else
      var rest := OldestLegacy(log[1..], u, subscription, paidAt);
      assert forall k :: 1 <= k < |log| ==> log[k] == log[1..][k - 1];
      if LegacyGrant(log[0], u, subscription, paidAt)
         && (rest.None? || log[0].created <= log[1..][rest.value].created) then Some(0)
      else if rest.None? then None
      else Some(rest.value + 1)
  }

  // The debit of a generation recorded before charges were stored on the row.
  function LoggedDebit(log: seq<Entry>, u: nat, job: nat): nat {
    if log == [] then 0
    else if log[0].user == u && log[0].action == Generation(job) && log[0].amount < 0 then -log[0].amount
    else LoggedDebit(log[1..], u, job)
  }

  // ---- movers ----

  // Every mover changes one balance and appends the matching log line.
  function Move(b: Bank, u: nat, credits: int, line: Entry): Bank
    requires u < |b.accounts|
  {
    b.(accounts := b.accounts[u := b.accounts[u].(credits := credits)], log := b.log + [line])
  }

  function ChargeBank(b: Bank, u: nat, cost: nat): Bank
    requires u < |b.accounts|
  {
    if Available(b, u) < cost then b
    else Move(b, u, Max(0, b.accounts[u].credits - cost), Entry(u, 0 - cost, Generation(|b.jobs|), b.now))
           .(jobs := b.jobs + [Job(Some(u), cost, false)])
  }

  function RefundBank(b: Bank, g: nat): Bank
    requires g < |b.jobs|
  {
    var job := b.jobs[g];
    var done := b.(jobs := b.jobs[g := job.(refunded := true)]);
    if job.refunded then b
    else if job.user.None? then done
    else
      var u := job.user.value;
      var charged := if job.charged > 0 then job.charged else LoggedDebit(b.log, u, g);
      if charged == 0 then done
      else if u >= |b.accounts| then b  // the user row is missing: the handler raises
      else if Logged(b.log, u, Refund(g)) then done
      else Move(done, u, b.accounts[u].credits + charged, Entry(u, charged, Refund(g), b.now))
  }

  function MonthlyBank(b: Bank, u: nat, read: Instant): Bank
    requires u < |b.accounts| && 0 <= read
  {
    if ClaimedInMonth(b, u, read) then b
    else Move(b, u, b.accounts[u].credits + 10, Entry(u, 10, MonthlyLogin, b.now))
  }

  // Under the row lock: days and months are those of the earlier reading, lines carry the present.
  function LoginBank(b: Bank, u: nat, reward: nat, read: Instant): Bank
    requires u < |b.accounts| && 0 <= read
  {
    var today := DayOf(read);
    if b.accounts[u].lastLogin == Some(today) then b
    else
      var m := MonthlyBank(b, u, read);
      var d := Move(m, u, m.accounts[u].credits + reward, Entry(u, reward, DailyLogin, b.now));
      d.(accounts := d.accounts[u := d.accounts[u].(lastLogin := Some(today))])
  }

  predicate Granted(log: seq<Entry>, action: Action) { exists k :: 0 <= k < |log| && log[k].action == action }

  function SubscribeBank(b: Bank, u: nat, subscription: nat, paidAt: Instant, credits: nat): Bank
    requires u < |b.accounts|
  {
    var grant := Grant(subscription, Some(paidAt));
    var legacy := OldestLegacy(b.log, u, subscription, paidAt);
    if Granted(b.log, grant) then b
    else if legacy.Some? then b.(log := b.log[legacy.value := b.log[legacy.value].(action := grant)])
    else Move(b, u, b.accounts[u].credits + credits, Entry(u, credits, grant, b.now))
  }

  function BuyBank(b: Bank, u: nat, payment: nat, credits: nat): Bank
    requires u < |b.accounts|
  {
    if Logged(b.log, u, Purchase(payment)) then b
    else Move(b, u, b.accounts[u].credits + credits, Entry(u, credits, Purchase(payment), b.now))
  }

  // ---- hosting holds ----

  function Disabled(rows: seq<Authorization>, world: nat, entity: nat): seq<Authorization> {
    seq(|rows|, k requires 0 <= k < |rows| =>
      if rows[k].world == world && rows[k].entity == entity then rows[k].(enabled := false) else rows[k])
  }

  predicate OperationUsed(rows: seq<Authorization>, world: nat, operation: nat) {
    exists k :: 0 <= k < |rows| && rows[k].world == world && rows[k].operation == operation
  }

  // An operation id names one authorization; repeating it changes nothing.
  function AuthorizeBank(b: Bank, t: Step): Bank
    requires t.Authorize?
  {
    if t.user >= |b.accounts| || OperationUsed(b.authorizations, t.world, t.operation) then b
    else
      var row := Authorization(t.user, t.world, t.operation, t.entity, t.digest, t.enabled, if t.enabled then t.maxCredits else 0);
      b.(authorizations := Disabled(b.authorizations, t.world, t.entity) + [row])
  }

  function ReserveBank(b: Bank, id: nat, a: nat): Bank
    requires a < |b.authorizations|
  {
    var u := b.authorizations[a].user;
    if FindHold(b.holds, id).Some? || u >= |b.accounts| || !b.authorizations[a].enabled
       || Sum(SpentOn(a), b.holds) >= b.authorizations[a].maxCredits || Available(b, u) < 1
    then b
    else b.(holds := b.holds + [Hold(id, a, u, Reserved)])
  }

  function SettleBank(b: Bank, id: nat, a: nat, capture: bool): Bank
    requires a < |b.authorizations|
  {
    var u := b.authorizations[a].user;
    if u >= |b.accounts| then b
    else match FindHold(b.holds, id)
    case None =>
      // A release that overtakes its reserve leaves a tombstone.
      if capture then b else b.(holds := b.holds + [Hold(id, a, u, Released)])
    case Some(k) =>
      if b.holds[k].authorization != a || b.holds[k].state != Reserved then b
      else if !capture then b.(holds := b.holds[k := b.holds[k].(state := Released)])
      else if b.accounts[u].credits < 1 then b
      else Move(b, u, b.accounts[u].credits - 1, Entry(u, -1, Hosting(id), b.now))
             .(holds := b.holds[k := b.holds[k].(state := Captured)])
  }

  function Do(b: Bank, t: Step): Bank {
    match t
    case Tick(micros) => b.(now := b.now + micros)
    case Charge(u, cost) => if u < |b.accounts| then ChargeBank(b, u, cost) else b
    case RefundJob(g) => if g < |b.jobs| then RefundBank(b, g) else b
    case Login(u, reward, read) =>
      if u < |b.accounts| && 0 <= read <= b.now then LoginBank(b, u, reward, read) else b
    case Subscribe(u, subscription, paidAt, credits) =>
      if u < |b.accounts| then SubscribeBank(b, u, subscription, paidAt, credits) else b
    case Sale(u, sale, subscription, paidAt, credits) =>
      if u < |b.accounts| && sale !in b.sales
      then SubscribeBank(b, u, subscription, paidAt, credits).(sales := b.sales + {sale})
      else b
    case Buy(u, payment, credits) => if u < |b.accounts| then BuyBank(b, u, payment, credits) else b
    case Donate(u, credits) =>
      if u < |b.accounts| then Move(b, u, b.accounts[u].credits + credits, Entry(u, credits, Gift, b.now)) else b
    case Authorize(_, _, _, _, _, _, _) => AuthorizeBank(b, t)
    case Revoke(a) =>
      if a < |b.authorizations| && b.authorizations[a].user < |b.accounts|
      then b.(authorizations := b.authorizations[a := b.authorizations[a].(enabled := false)])
      else b
    case Reserve(id, a) => if a < |b.authorizations| then ReserveBank(b, id, a) else b
    case Settle(id, a, capture) => if a < |b.authorizations| then SettleBank(b, id, a, capture) else b
  }

  function Run(b: Bank, steps: seq<Step>): Bank
    decreases |steps|
  {
    if steps == [] then b else Run(Do(b, steps[0]), steps[1..])
  }
}
