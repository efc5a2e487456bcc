/** The subscription handlers as they update the contract rows and the pointer field by field.
    What the provider does and answers during a call is a parameter. */
module SubscriptionDesk {
  import opened Common
  import opened Subscriptions

  class Desk {
    const me: nat
    const others: set<nat>
    const shown: Status
    var now: Time
    var pointer: Option<nat>
    var cutoff: Option<Time>
    var rows: seq<Contract>
    var requests: seq<Time>
    var remote: seq<Remote>
    var sent: seq<Sent>

    constructor (w: World)
      ensures View() == w
    {
      me, others, shown, now, pointer, cutoff := w.me, w.others, w.shown, w.now, w.pointer, w.cutoff;
      rows, requests, remote, sent := w.rows, w.requests, w.remote, w.sent;
    }

    function View(): World
      reads this
    {
      World(now, me, others, pointer, shown, cutoff, rows, requests, remote, sent)
    }

    method LoadContracts()
      modifies this`rows
      ensures View() == Contracts(old(View()))
    {
      if pointer.Some? {
        var found := Find(rows, pointer.value);
        if found.None? {
          rows := rows + [Contract(pointer, shown, None, None, None, now, None, None, None, None, None)];
        }
      }
    }

    // apply_status on row k; nothing changes when it raises.
    method ApplyDocument(k: nat, d: Doc) returns (raised: bool)
      requires k < |rows|
      modifies this`rows
      ensures raised == ApplyStatus(me, old(rows[k]), d, now).None?
      ensures View() == if raised then old(View())
                        else WithRow(old(View()), k, ApplyStatus(me, old(rows[k]), d, now).value)
    {
      var c := rows[k];
      if (d.id.Some? && d.id != c.paypal) || (d.owner.Some? && d.owner != Some(me)) { return true; }
      if d.status.None? { return true; }
      var status := d.status.value;
      if c.cancelled.Some? { assert rows[k := c] == rows; return false; }
      if !Terminal(status) && d.changed.Some? && c.updated.Some? && d.changed.value < c.updated.value {
        assert rows[k := c] == rows;
        return false;
      }
      c := c.(status := status);
      if d.plan.Some? { c := c.(plan := d.plan); }
      if d.changed.Some? { c := c.(updated := d.changed); }
      if Terminal(status) {
        c := c.(cancelled := Some(if d.changed.Some? then d.changed.value else now), nextCheck := None);
      }
      rows := rows[k := c];
      return false;
    }

    method CallCreate(q: nat, executes: bool)
      modifies this`sent, this`remote
      ensures View() == CreateCall(old(View()), q, executes)
    {
      sent := sent + [Sent(q, now)];
      if executes && !Remembered(View(), q) { remote := remote + [Remote(ApprovalPending, Some(q), now)]; }
    }

    // Gives the attempt its contract id, or moves it into the row that already has it.
    method Link(k: nat, n: nat) returns (e: nat)
      requires k < |rows| && rows[k].paypal.None?
      modifies this`rows
      ensures (View(), e) == Linked(old(View()), k, n)
      ensures e < |rows|
    {
      var existing := Find(rows, n);
      if existing.None? {
        rows := rows[k := rows[k].(paypal := Some(n))];
        return k;
      }
      e := existing.value;
      ghost var after := Linked(View(), k, n).0.rows;
      var attempt := rows[k];
      rows := rows[k := attempt.(request := None, merged := Some(e))];
      rows := rows[e := rows[e].(request := attempt.request, createRequested := attempt.createRequested)];
      if rows[e].cancelRequested.None? {
        rows := rows[e := rows[e].(cancelRequested := attempt.cancelRequested)];
      }
      assert rows == after;
    }

    method Recover(k: nat, a: CreateAnswer) returns (row: Option<nat>)
      requires k < |rows|
      modifies this`rows, this`remote, this`sent
      ensures (View(), row) == RecoverCreate(old(View()), k, a)
    {
      var c := rows[k];
      if c.paypal.Some? { return Some(k); }
      if c.request.None? || c.createRequested.None? || now - c.createRequested.value >= REPLAY_WINDOW { return None; }
      CallCreate(c.request.value, a.executes);
      if a.reply.None? || !CreateReply(View(), c.request.value, a.reply.value) { return None; }
      var d := a.reply.value;
      if d.id.None? || (d.owner.Some? && d.owner != Some(me)) || (d.plan.Some? && d.plan != c.plan) || d.id.value in others {
        return None;
      }
      var e := Link(k, d.id.value);
      var raised := ApplyDocument(e, d);
      return if raised then None else Some(e);
    }

    method Fetch(k: nat, answer: Option<Doc>) returns (raised: bool)
      requires k < |rows| && rows[k].paypal.Some?
      modifies this`rows
      ensures raised == Fetched(old(View()), k, answer).None?
      ensures View() == if raised then old(View()) else Fetched(old(View()), k, answer).value
    {
      var heard := Heard(View(), rows[k].paypal.value, answer);
      if heard.None? { return true; }
      raised := ApplyDocument(k, heard.value);
    }

    method Schedule(k: nat, next: Option<Time>)
      requires k < |rows|
      modifies this`rows
      ensures View() == WithRow(old(View()), k, old(rows[k]).(nextCheck := next))
    {
      rows := rows[k := rows[k].(nextCheck := next)];
    }

    method StopContract(k: nat, a: CancelAnswer) returns (ok: bool)
      requires k < |rows| && rows[k].paypal.Some?
      modifies this`rows, this`remote
      ensures (View(), ok) == Stop(old(View()), k, a)
    {
      var n := rows[k].paypal.value;
      if (a.executes || a.confirmed) && n < |remote| && !Terminal(remote[n].status) {
        remote := remote[n := remote[n].(status := Cancelled)];
      }
      if a.confirmed {
        var raised := ApplyDocument(k, ENDED);
        Schedule(k, None);
        return true;
      }
      var raised := Fetch(k, a.recheck);
      ok := !raised && rows[k].cancelled.Some?;
      Schedule(k, if ok then None else Some(now + 60));
    }

    // Never reports a success that PayPal has not confirmed.
    method CancelContract(k: nat, a: CancelAnswer) returns (ok: bool)
      requires k < |rows|
      modifies this`rows, this`remote, this`sent
      ensures (View(), ok) == CancelOne(old(View()), k, a)
    {
      var row := Recover(k, a.create);
      if row.None? {
        Schedule(k, Some(now + 60));
        return false;
      }
      if rows[row.value].cancelled.Some? { return true; }
      var raised := Fetch(row.value, a.get);
      if raised {
        Schedule(row.value, Some(now + 60));
        return false;
      }
      if Terminal(rows[row.value].status) {
        Schedule(row.value, None);
        return true;
      }
      ok := StopContract(row.value, a);
    }

    // cancel_all, first transaction.
    method RequestAll()
      modifies this`rows, this`cutoff
      ensures View() == Intent(old(View()))
    {
      LoadContracts();
      cutoff := Some(now);
      ghost var was := rows;
      for k := 0 to |rows|
        invariant |rows| == |was| && cutoff == Some(now)
        invariant forall j :: 0 <= j < k ==> rows[j] == AllRequested(was, now)[j]
        invariant forall j :: k <= j < |was| ==> rows[j] == was[j]
      {
        if Live(rows[k]) { rows := rows[k := RequestCancel(rows[k], now)]; }
      }
      assert rows == AllRequested(was, now);
    }

    // cancel_all, second transaction, with the rows in the order the query returned them.
    method CancelAll(order: seq<nat>, answers: seq<CancelAnswer>) returns (complete: bool)
      requires |answers| == |order| && Visits(order, |Contracts(View()).rows|)
      modifies this`rows, this`remote, this`sent
      ensures (View(), complete) == Round(Contracts(old(View())), order, answers)
    {
      hide CancelOne, Contracts;
      LoadContracts();
      complete := true;
      ghost var start := View();
      for i := 0 to |order|
        invariant |rows| == |start.rows|
        invariant var rest := Round(View(), order[i..], answers[i..]);
                  Round(start, order, answers) == (rest.0, complete && rest.1)
      {
        var k := order[i];
        assert order[i..][0] == k && order[i..][1..] == order[i + 1..];
        assert answers[i..][0] == answers[i] && answers[i..][1..] == answers[i + 1..];
        if Live(rows[k]) && rows[k].cancelRequested.Some? {
          var ok := CancelContract(k, answers[i]);
          complete := ok && complete;
        }
      }
    }

    // An approval older than the last cancellation is cancelled too.
    method ApplyCutoff(k: nat)
      requires k < |rows|
      modifies this`rows
      ensures View() == Asked(old(View()), k) && k < |rows|
    {
      if cutoff.Some? && rows[k].created <= cutoff.value { rows := rows[k := RequestCancel(rows[k], now)]; }
      else { assert rows[k := rows[k]] == rows; }
      LoadContracts();
    }

    method FinishSelection(k: nat, choose: bool) returns (outcome: Selection)
      requires k < |rows|
      modifies this`pointer
      ensures (View(), outcome) == Finish(old(View()), k, choose)
    {
      if rows[k].cancelRequested.Some? && rows[k].cancelled.None? { return Stopped; }
      if rows[k].cancelRequested.None? && choose { pointer := rows[k].paypal; }
      return Chosen;
    }

    // select_contract up to its first commit.
    method SelectContract(k: nat, explicit: bool, get: Option<Doc>) returns (outcome: Selection)
      requires k < |rows|
      modifies this`rows, this`pointer
      ensures (View(), outcome) == Select(old(View()), k, explicit, get)
    {
      hide Finish, Fetched, Asked;
      ApplyCutoff(k);
      var current := None;
      if pointer.Some? { current := Find(rows, pointer.value); }
      var choose := current.None? || current.value == k;
      if !choose && !Terminal(rows[k].status) {
        var c, created := current.value, rows[k].created;
        if rows[c].cancelled.None? {
          var raised := Fetch(c, get);
          if raised { return Raised; }
        }
        if Terminal(rows[c].status) {
          choose := explicit || created > rows[c].created;
        } else {
          rows := rows[k := RequestCancel(rows[k], now)];
        }
      }
      outcome := FinishSelection(k, choose);
    }

    // create_checkout's reservation: the request id is durable before any call is made.
    method ReserveCheckout(plan: nat)
      modifies this`rows, this`requests, this`pointer
      ensures View() == Reserve(old(View()), plan)
    {
      var k := FirstOpen(rows);
      if k == |rows| {
        rows := rows + [Contract(None, CreatePending, Some(plan), Some(|requests|), Some(now), now,
                                 None, None, None, None, None)];
        requests := requests + [now];
        return;
      }
      if k + 1 + FirstOpen(rows[k + 1..]) < |rows| { return; }
      if rows[k].status == Active || rows[k].status == Suspended { pointer := rows[k].paypal; }
    }
  }
}
