/** One user's PayPal contracts (subscription_lifecycle.py). The owner row lock serializes the
    transactions; each of them may call the provider, whose answers are part of the step. */
module Subscriptions {
  import opened Common

  datatype Status = CreatePending | Unrecognised | ApprovalPending | Approved | Active | Suspended | Cancelled | Expired

  predicate Terminal(s: Status) { s == Cancelled || s == Expired }

  // A checkout attempt or a contract. A row merged into another is deleted from the table.
  datatype Contract = Contract(
    paypal: Option<nat>, status: Status, plan: Option<nat>, request: Option<nat>, createRequested: Option<Time>,
    created: Time, updated: Option<Time>, cancelRequested: Option<Time>, cancelled: Option<Time>,
    nextCheck: Option<Time>, merged: Option<nat>)

  // The provider's side: contract n, the request that created it and when.
  datatype Remote = Remote(status: Status, request: Option<nat>, createdAt: Time)

  datatype Sent = Sent(request: nat, at: Time)

  // A parsed subscription document; None marks an absent field or an unknown status.
  datatype Doc = Doc(id: Option<nat>, owner: Option<nat>, status: Option<Status>, changed: Option<Time>,
                     plan: Option<nat>, created: Option<Time>)

  datatype World = World(
    now: Time, me: nat, others: set<nat>,      // contracts linked to other users
    pointer: Option<nat>, shown: Status, cutoff: Option<Time>, rows: seq<Contract>,
    requests: seq<Time>,                       // when each request id was reserved
    remote: seq<Remote>, sent: seq<Sent>)

  const REPLAY_WINDOW: int := 71 * HOUR
  const REMEMBERS: int := 72 * HOUR
  const LONGEST_DELIVERY: int := HOUR

  // ---- answers ----

  datatype CreateAnswer = CreateAnswer(executes: bool, reply: Option<Doc>)
  datatype CancelAnswer = CancelAnswer(create: CreateAnswer, get: Option<Doc>, executes: bool, confirmed: bool, recheck: Option<Doc>)

  // A document never claims the end of a contract that the provider has not ended. It may lag behind.
  predicate Truthful(w: World, n: nat, d: Doc) {
    n < |w.remote| && (d.status.Some? && Terminal(d.status.value) ==> Terminal(w.remote[n].status))
  }

  function Heard(w: World, n: nat, d: Option<Doc>): Option<Doc> {
    if d.Some? && Truthful(w, n, d.value) then d else None
  }

  // ---- rows ----

  predicate Live(c: Contract) { c.merged.None? }

  function Find(rows: seq<Contract>, n: nat): (r: Option<nat>)
    ensures r.Some? ==> r.value < |rows| && Live(rows[r.value]) && rows[r.value].paypal == Some(n)
    ensures r.None? ==> forall k :: 0 <= k < |rows| && Live(rows[k]) ==> rows[k].paypal != Some(n)
  {
    if rows == [] then None
    else if Live(rows[0]) && rows[0].paypal == Some(n) then Some(0)
    else match Find(rows[1..], n) case None => None case Some(k) => Some(k + 1)
  }

  function Either<T>(a: Option<T>, b: Option<T>): Option<T> { if a.Some? then a else b }

  // apply_status; None when it raises.
  function ApplyStatus(me: nat, c: Contract, d: Doc, now: Time): Option<Contract> {
    if (d.id.Some? && d.id != c.paypal) || (d.owner.Some? && d.owner != Some(me)) || d.status.None? then None
    else
      var status := d.status.value;
      if c.cancelled.Some?
         || (!Terminal(status) && d.changed.Some? && c.updated.Some? && d.changed.value < c.updated.value)
      then Some(c)
      else
        var fresher := c.(status := status, plan := Either(d.plan, c.plan), updated := Either(d.changed, c.updated));
        Some(if Terminal(status)
             then fresher.(cancelled := Some(Either(d.changed, Some(now)).value), nextCheck := None)
             else fresher)
  }

  function RequestCancel(c: Contract, now: Time): Contract {
    c.(cancelRequested := Either(c.cancelRequested, Some(now)), nextCheck := if c.cancelled.None? then Some(now) else c.nextCheck)
  }

  function WithRow(w: World, k: nat, c: Contract): World
    requires k < |w.rows|
  {
    w.(rows := w.rows[k := c])
  }

  // contracts(): a pointer from before the table existed gets its row.
  function Contracts(w: World): World {
    if w.pointer.Some? && Find(w.rows, w.pointer.value).None?
    then w.(rows := w.rows + [Contract(w.pointer, w.shown, None, None, None, w.now, None, None, None, None, None)])
    else w
  }

  // ---- the provider's operations ----

  predicate Remembered(w: World, q: nat) {
    exists n :: 0 <= n < |w.remote| && w.remote[n].request == Some(q) && w.now <= w.remote[n].createdAt + REMEMBERS
  }

  function Execute(w: World, q: nat): World {
    if Remembered(w, q) then w else w.(remote := w.remote + [Remote(ApprovalPending, Some(q), w.now)])
  }

  function Terminate(w: World, n: nat): World {
    if n < |w.remote| && !Terminal(w.remote[n].status) then w.(remote := w.remote[n := w.remote[n].(status := Cancelled)]) else w
  }

  // ---- recover_create ----

  // A create reply describes the contract made for this request.
  predicate CreateReply(w: World, q: nat, d: Doc) {
    d.id.Some? ==> d.id.value < |w.remote| && w.remote[d.id.value].request == Some(q) && Truthful(w, d.id.value, d)
  }

  predicate Replayable(w: World, c: Contract) {
    c.paypal.None? && c.request.Some? && c.createRequested.Some? && w.now - c.createRequested.value < REPLAY_WINDOW
  }

  // The call, executed at once or left on its way.
  function CreateCall(w: World, q: nat, executes: bool): World {
    var sent := w.(sent := w.sent + [Sent(q, w.now)]);
    if executes then Execute(sent, q) else sent
  }

  // The first reply names the contract. A webhook may have recorded it already: then the
  // attempt's request and intents move to that row and the attempt is deleted.
  function Linked(w: World, k: nat, n: nat): (r: (World, nat))
    requires k < |w.rows| && w.rows[k].paypal.None?
    ensures |r.0.rows| == |w.rows| && r.1 < |w.rows|
  {
    var c := w.rows[k];
    match Find(w.rows, n)
    case None => (WithRow(w, k, c.(paypal := Some(n))), k)
    case Some(e) =>
      var into := w.rows[e].(request := c.request, createRequested := c.createRequested,
                             cancelRequested := Either(w.rows[e].cancelRequested, c.cancelRequested));
      (WithRow(WithRow(w, k, c.(request := None, merged := Some(e))), e, into), e)
  }

  // The row that now stands for the contract, or None when it raised; what was written stays.
  function RecoverCreate(w: World, k: nat, a: CreateAnswer): (r: (World, Option<nat>))
    requires k < |w.rows|
    ensures |r.0.rows| == |w.rows| && (r.1.Some? ==> r.1.value < |w.rows| && r.0.rows[r.1.value].paypal.Some?)
  {
    var c := w.rows[k];
    if c.paypal.Some? then (w, Some(k))
    else if !Replayable(w, c) then (w, None)
    else
      var called := CreateCall(w, c.request.value, a.executes);
      if a.reply.None? || !CreateReply(called, c.request.value, a.reply.value) then (called, None)
      else
        var d := a.reply.value;
        if d.id.None? || (d.owner.Some? && d.owner != Some(w.me)) || (d.plan.Some? && d.plan != c.plan) || d.id.value in w.others
        then (called, None)
        else
          var (linked, e) := Linked(called, k, d.id.value);
          match ApplyStatus(w.me, linked.rows[e], d, w.now)
          case None => (linked, None)
          case Some(row) => (WithRow(linked, e, row), Some(e))
  }

  // ---- cancel_one ----

  function Unconfirmed(w: World, k: nat): World
    requires k < |w.rows|
  {
    WithRow(w, k, w.rows[k].(nextCheck := Some(w.now + 60)))
  }

  function Confirmed(w: World, k: nat): World
    requires k < |w.rows|
  {
    WithRow(w, k, w.rows[k].(nextCheck := None))
  }

  // One GET applied to row k; None when either raised.
  function Fetched(w: World, k: nat, answer: Option<Doc>): (r: Option<World>)
    requires k < |w.rows| && w.rows[k].paypal.Some?
    ensures r.Some? ==> |r.value.rows| == |w.rows| && r.value.rows[k].paypal == w.rows[k].paypal
  {
    match Heard(w, w.rows[k].paypal.value, answer)
    case None => None
    case Some(d) =>
      match ApplyStatus(w.me, w.rows[k], d, w.now) case None => None case Some(row) => Some(WithRow(w, k, row))
  }

  const ENDED: Doc := Doc(None, None, Some(Cancelled), None, None, None)

  // The cancel call; a timeout may follow a cancellation, so the contract is read again.
  function Stop(w: World, k: nat, a: CancelAnswer): (r: (World, bool))
    requires k < |w.rows| && w.rows[k].paypal.Some?
    ensures |r.0.rows| == |w.rows|
  {
    var stopped := if a.executes || a.confirmed then Terminate(w, w.rows[k].paypal.value) else w;
    if a.confirmed then (Confirmed(WithRow(stopped, k, ApplyStatus(w.me, w.rows[k], ENDED, w.now).value), k), true)
    else match Fetched(stopped, k, a.recheck)
    case None => (Unconfirmed(stopped, k), false)
    case Some(again) => if again.rows[k].cancelled.Some? then (Confirmed(again, k), true) else (Unconfirmed(again, k), false)
  }

  function CancelOne(w: World, k: nat, a: CancelAnswer): (r: (World, bool))
    requires k < |w.rows|
    ensures |r.0.rows| == |w.rows|
  {
    var (r, row) := RecoverCreate(w, k, a.create);
    if row.None? then (Unconfirmed(r, k), false)
    else if r.rows[row.value].cancelled.Some? then (r, true)
    else match Fetched(r, row.value, a.get)
    case None => (Unconfirmed(r, row.value), false)
    case Some(f) => if Terminal(f.rows[row.value].status) then (Confirmed(f, row.value), true) else Stop(f, row.value, a)
  }

  // ---- cancel_all ----

  function AllRequested(rows: seq<Contract>, now: Time): (r: seq<Contract>)
    ensures |r| == |rows|
  {
    seq(|rows|, k requires 0 <= k < |rows| => if Live(rows[k]) then RequestCancel(rows[k], now) else rows[k])
  }

  // First transaction: the intent of every known contract, before any call.
  function Intent(w: World): World {
    var v := Contracts(w);
    v.(cutoff := Some(w.now), rows := AllRequested(v.rows, w.now))
  }

  // Every row has its turn; the source visits them by creation time, here the order is free.
  predicate Visits(order: seq<nat>, n: nat) {
    (forall i :: 0 <= i < |order| ==> order[i] < n) && (forall k: nat :: k < n ==> k in order)
  }

  // Second transaction: the rows in turn. The flag is the reported success.
  function Round(w: World, order: seq<nat>, answers: seq<CancelAnswer>): (r: (World, bool))
    requires |answers| == |order| && forall i :: 0 <= i < |order| ==> order[i] < |w.rows|
    ensures |r.0.rows| == |w.rows|
    decreases |order|
  {
    if order == [] then (w, true)
    else
      var k := order[0];
      if !Live(w.rows[k]) || w.rows[k].cancelRequested.None? then Round(w, order[1..], answers[1..])
      else
        var (v, ok) := CancelOne(w, k, answers[0]);
        var (e, rest) := Round(v, order[1..], answers[1..]);
        (e, ok && rest)
  }

  // A pass of the retry job (reconcile_cancellations) leaves out the rows that have ended.
  function RetryPass(w: World, order: seq<nat>, answers: seq<CancelAnswer>): (v: World)
    requires |answers| == |order| && forall i :: 0 <= i < |order| ==> order[i] < |w.rows|
    ensures |v.rows| == |w.rows|
    decreases |order|
  {
    if order == [] then w
    else
      var k := order[0];
      var next := if Live(w.rows[k]) && Pending(w.rows[k]) then CancelOne(w, k, answers[0]).0 else w;
      RetryPass(next, order[1..], answers[1..])
  }

  // ---- select_contract ----

  datatype Selection = Raised | Stopped | Chosen

  predicate Pending(c: Contract) { c.cancelRequested.Some? && c.cancelled.None? }

  // The row with the cutoff applied, and the adopted pointer.
  function Asked(w: World, k: nat): (v: World)
    requires k < |w.rows|
    ensures k < |v.rows|
  {
    var row := if w.cutoff.Some? && w.rows[k].created <= w.cutoff.value then RequestCancel(w.rows[k], w.now) else w.rows[k];
    Contracts(WithRow(w, k, row))
  }

  // Up to its first commit; a stopped row goes on to cancel_one in a transaction of its own.
  function Select(w: World, k: nat, explicit: bool, get: Option<Doc>): (World, Selection)
    requires k < |w.rows|
  {
    var v := Asked(w, k);
    var current := if v.pointer.Some? then Find(v.rows, v.pointer.value) else None;
    if current.None? || current.value == k then Finish(v, k, true)
    else if Terminal(v.rows[k].status) then Finish(v, k, false)
    else
      var c := current.value;
      var asked := if v.rows[c].cancelled.Some? then Some(v) else Fetched(v, c, get);
      match asked
      case None => (v, Raised)
      case Some(u) =>
        if Terminal(u.rows[c].status) then Finish(u, k, explicit || v.rows[k].created > u.rows[c].created)
        else Finish(WithRow(u, k, RequestCancel(u.rows[k], w.now)), k, false)
  }

  function Finish(w: World, k: nat, choose: bool): (World, Selection)
    requires k < |w.rows|
  {
    if Pending(w.rows[k]) then (w, Stopped)
    else if w.rows[k].cancelRequested.None? && choose then (w.(pointer := w.rows[k].paypal), Chosen)
    else (w, Chosen)
  }

  // ---- remember, then select: webhook events and activations ----

  function NewRow(n: nat, created: Time): Contract {
    Contract(Some(n), Unrecognised, None, None, None, created, None, None, None, None, None)
  }

  function Remember(w: World, n: nat, d: Doc): (r: Option<(World, nat)>)
    ensures r.Some? ==> r.value.1 < |r.value.0.rows|
  {
    if (d.id.Some? && d.id != Some(n)) || (d.owner.Some? && d.owner != Some(w.me)) || d.status.None? || n in w.others then None
    else
      var v := Contracts(w);
      var found := Find(v.rows, n);
      var u := if found.Some? then v else v.(rows := v.rows + [NewRow(n, Either(d.created, Some(w.now)).value)]);
      var k := if found.Some? then found.value else |v.rows|;
      match ApplyStatus(w.me, u.rows[k], d, w.now)
      case None => None
      case Some(row) => Some((WithRow(u, k, row), k))
  }

  // ---- create_checkout ----

  datatype RefreshAnswer = RefreshAnswer(create: CreateAnswer, get: Option<Doc>)

  // First loop: every attempt recovered, every contract read. The flag is false when it raised.
  function Refresh(w: World, k: nat, answers: seq<RefreshAnswer>): (r: (World, bool))
    requires |answers| == |w.rows|
    ensures |r.0.rows| == |w.rows|
    decreases |answers| - k
  {
    if k >= |w.rows| then (w, true)
    else if !Live(w.rows[k]) then Refresh(w, k + 1, answers)
    else if Pending(w.rows[k]) then (w, false)
    else
      var (r, row) := RecoverCreate(w, k, answers[k].create);
      if row.None? then (r, false)
      else if r.rows[row.value].cancelled.Some? then Refresh(r, k + 1, answers)
      else match Fetched(r, row.value, answers[k].get)
      case None => (r, false)
      case Some(f) => Refresh(f, k + 1, answers)
  }

  predicate Open(c: Contract) { Live(c) && c.cancelled.None? }

  function FirstOpen(rows: seq<Contract>): (k: nat)
    ensures k <= |rows| && (k < |rows| ==> Open(rows[k]))
    ensures forall j :: 0 <= j < k ==> !Open(rows[j])
  {
    if rows == [] then 0 else if Open(rows[0]) then 0 else FirstOpen(rows[1..]) + 1
  }

  // The rest of the first transaction: a new attempt reserves its request id.
  function Reserve(w: World, plan: nat): World {
    var k := FirstOpen(w.rows);
    if k == |w.rows| then
      var attempt := Contract(None, CreatePending, Some(plan), Some(|w.requests|), Some(w.now), w.now,
                              None, None, None, None, None);
      w.(rows := w.rows + [attempt], requests := w.requests + [w.now])
    else if FirstOpen(w.rows[k + 1..]) < |w.rows| - k - 1 then w
    else if w.rows[k].status == Active || w.rows[k].status == Suspended then w.(pointer := w.rows[k].paypal)
    else w
  }

  // ---- transactions ----

  datatype Step =
    | Tick(seconds: nat)
    | Progress(contract: nat, status: Status)
    | Appear(status: Status)                                   // a contract approved elsewhere
    | Deliver(call: nat)                                       // a late create call is executed
    | Event(contract: nat, doc: Doc, explicit: bool, get: Option<Doc>)
    | CancelIntent
    // The second transaction of cancel_all, and a pass of the retry job (PassIsRound).
    | CancelRound(order: seq<nat>, answers: seq<CancelAnswer>, commits: bool)
    | Retry(row: nat, answer: CancelAnswer, commits: bool)     // what select_contract goes on to do
    | CheckoutOpen(plan: nat, replies: seq<RefreshAnswer>, commits: bool)
    | CheckoutSend(row: nat, create: CreateAnswer, get: Option<Doc>)

  // A rolled back transaction keeps what the provider did.
  function RolledBack(before: World, after: World): World {
    before.(remote := after.remote, sent := after.sent)
  }

  function Send(w: World, k: nat, create: CreateAnswer, get: Option<Doc>): World
    requires k < |w.rows|
  {
    var (r, row) := RecoverCreate(w, k, create);
    if row.None? then r
    else
      var (s, outcome) := Select(r, row.value, true, get);
      // A failed read rolls back; a document that raises is a client error and commits.
      if outcome.Raised? && get.None? then RolledBack(w, s) else s
  }

  function Do(w: World, t: Step): World {
    match t
    case Tick(seconds) => w.(now := w.now + seconds)
    case Progress(n, status) =>
      if n < |w.remote| && !Terminal(w.remote[n].status)
      then w.(remote := w.remote[n := w.remote[n].(status := status)])
      else w
    case Appear(status) => w.(remote := w.remote + [Remote(status, None, w.now)])
    case Deliver(call) =>
      if call < |w.sent| && w.now <= w.sent[call].at + LONGEST_DELIVERY then Execute(w, w.sent[call].request) else w
    case Event(n, d, explicit, get) =>
      if !Truthful(w, n, d) then w
      else (match Remember(w, n, d)
            case None => w
            case Some((r, k)) =>
              var (s, outcome) := Select(r, k, explicit, get);
              if outcome.Raised? then w else s)
    case CancelIntent => Intent(w)
    case CancelRound(order, answers, commits) =>
      var v := Contracts(w);
      if !Visits(order, |v.rows|) || |answers| != |order| then w
      else if commits then Round(v, order, answers).0 else RolledBack(w, Round(v, order, answers).0)
    case Retry(k, a, commits) =>
      if k >= |w.rows| || !Live(w.rows[k]) || !Pending(w.rows[k]) || w.rows[k].paypal.None? then w
      else if commits then CancelOne(w, k, a).0 else RolledBack(w, CancelOne(w, k, a).0)
    case CheckoutOpen(plan, replies, commits) =>
      var v := Contracts(w);
      if |replies| != |v.rows| then w
      else
        var (r, ok) := Refresh(v, 0, replies);
        if ok && commits then Reserve(r, plan) else RolledBack(w, r)
    case CheckoutSend(k, create, get) => if k < |w.rows| && Live(w.rows[k]) then Send(w, k, create, get) else w
  }

  function Run(w: World, steps: seq<Step>): World
    decreases |steps|
  {
    if steps == [] then w else Run(Do(w, steps[0]), steps[1..])
  }
}
