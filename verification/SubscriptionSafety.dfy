/** Invariants of the subscription contracts: ends are final, intents are never dropped, and
    a request id stands for one provider contract. */
module SubscriptionSafety {
  import opened Common
  import opened Subscriptions

  // ---- one row ----

  predicate RowOk(w: World, c: Contract) {
    if c.merged.Some? then
      && c.merged.value < |w.rows| && Live(w.rows[c.merged.value]) && w.rows[c.merged.value].paypal.Some?
      && (c.cancelRequested.Some? ==> w.rows[c.merged.value].cancelRequested.Some?)
      && c.cancelled.None? && c.request.None?
    else
      && (c.cancelled.Some? ==> Terminal(c.status) && c.paypal.Some?)
      && (Terminal(c.status) && c.cancelled.None? ==> c.updated.None?)
      && (c.paypal.Some? ==> c.paypal.value < |w.remote| && c.paypal.value !in w.others)
      && (c.cancelled.Some? ==> Terminal(w.remote[c.paypal.value].status))
      && (c.request.Some? ==> c.request.value < |w.requests| && c.createRequested == Some(w.requests[c.request.value]))
      && (c.request.Some? && c.paypal.Some? ==> w.remote[c.paypal.value].request == c.request)
  }

  predicate Apart(a: Contract, b: Contract) {
    Live(a) && Live(b) ==>
      && (a.paypal.Some? ==> a.paypal != b.paypal)
      && (a.request.Some? ==> a.request != b.request)
  }

  ghost predicate RowsOk(w: World) {
    && (forall k :: 0 <= k < |w.rows| ==> RowOk(w, w.rows[k]))
    && (forall j, k :: 0 <= j < k < |w.rows| ==> Apart(w.rows[j], w.rows[k]))
  }

  // ---- the provider ----

  predicate RemoteOk(w: World, r: Remote) {
    r.request.Some? ==>
      r.request.value < |w.requests| && w.requests[r.request.value] <= r.createdAt <= w.now
  }

  predicate SentOk(w: World, s: Sent) {
    s.request < |w.requests| && w.requests[s.request] <= s.at <= w.now && s.at - w.requests[s.request] < REPLAY_WINDOW
  }

  ghost predicate Registered(w: World) {
    && (forall n :: 0 <= n < |w.remote| ==> RemoteOk(w, w.remote[n]))
    && (forall m, n :: 0 <= m < n < |w.remote| && w.remote[m].request.Some? ==> w.remote[m].request != w.remote[n].request)
    && (forall i :: 0 <= i < |w.sent| ==> SentOk(w, w.sent[i]))
    && (forall q :: 0 <= q < |w.requests| ==> w.requests[q] <= w.now)
  }

  predicate PointerOk(w: World) {
    w.pointer.Some? ==> w.pointer.value < |w.remote| && w.pointer.value !in w.others
  }

  ghost predicate Inv(w: World) { RowsOk(w) && Registered(w) && PointerOk(w) }

  // ---- what no transaction undoes ----

  predicate Kept(a: Contract, b: Contract) {
    && (a.cancelled.Some? ==> b.cancelled == a.cancelled && b.status == a.status)
    && (a.cancelRequested.Some? ==> b.cancelRequested == a.cancelRequested)
    && (a.paypal.Some? ==> b.paypal == a.paypal)
    && (a.merged.Some? ==> b.merged == a.merged)
    && (a.paypal.Some? && a.merged.None? ==> b.merged.None?)
  }

  ghost predicate RemoteKept(a: seq<Remote>, b: seq<Remote>) {
    |a| <= |b| && forall n :: 0 <= n < |a| ==>
      b[n].request == a[n].request && b[n].createdAt == a[n].createdAt && (Terminal(a[n].status) ==> Terminal(b[n].status))
  }

  ghost predicate AllKept(a: seq<Contract>, b: seq<Contract>) {
    |a| <= |b| && forall k :: 0 <= k < |a| ==> Kept(a[k], b[k])
  }

  // Part of one transaction: the pointer and the clock stay.
  ghost predicate Extends(v: World, w: World) {
    && w.me == v.me && w.others == v.others && w.now == v.now && w.requests == v.requests
    && w.pointer == v.pointer && w.cutoff == v.cutoff && w.shown == v.shown
    && AllKept(v.rows, w.rows) && RemoteKept(v.remote, w.remote)
  }

  lemma ExtendsTrans(u: World, v: World, w: World)
    requires Extends(u, v) && Extends(v, w)
    ensures Extends(u, w)
  {
    forall k | 0 <= k < |u.rows| ensures Kept(u.rows[k], w.rows[k]) {
      assert Kept(u.rows[k], v.rows[k]) && Kept(v.rows[k], w.rows[k]);
    }
  }

  // ---- single updates ----

  lemma RowOkAt(w: World, k: nat)
    requires Inv(w) && k < |w.rows|
    ensures RowOk(w, w.rows[k])
  {
  }

  lemma DistinctRows(w: World, i: nat, j: nat)
    requires Inv(w) && i < |w.rows| && j < |w.rows| && i != j
    ensures Apart(w.rows[i], w.rows[j])
  {
    assert Apart(w.rows[if i < j then i else j], w.rows[if i < j then j else i]);
  }

  // Only rows changed, each still in order and apart from the others.
  lemma RowsChanged(w: World, v: World)
    requires Inv(w) && v == w.(rows := v.rows) && |v.rows| == |w.rows|
    requires forall j :: 0 <= j < |v.rows| ==> RowOk(v, v.rows[j]) && Kept(w.rows[j], v.rows[j])
    requires forall i, j :: 0 <= i < j < |v.rows| ==> Apart(v.rows[i], v.rows[j])
    ensures Inv(v) && Extends(w, v)
  {
    assert forall i :: 0 <= i < |w.sent| ==> SentOk(w, w.sent[i]) ==> SentOk(v, v.sent[i]);
    assert forall n :: 0 <= n < |w.remote| ==> RemoteOk(w, w.remote[n]) ==> RemoteOk(v, v.remote[n]);
  }

  // Row k rewritten under the same ids.
  lemma RowUpdated(w: World, k: nat, c: Contract)
    requires Inv(w) && k < |w.rows| && Kept(w.rows[k], c) && RowOk(w, c)
    requires c.merged == w.rows[k].merged && c.paypal == w.rows[k].paypal && c.request == w.rows[k].request
    ensures Inv(WithRow(w, k, c)) && Extends(w, WithRow(w, k, c))
  {
    hide Inv, Extends;
    var v := WithRow(w, k, c);
    forall j | 0 <= j < |v.rows| ensures RowOk(v, v.rows[j]) && Kept(w.rows[j], v.rows[j]) {
      RowOkAt(w, j);
    }
    forall i, j | 0 <= i < j < |v.rows| ensures Apart(v.rows[i], v.rows[j]) {
      DistinctRows(w, i, j);
    }
    RowsChanged(w, v);
  }

  lemma RowAdded(w: World, c: Contract)
    requires Inv(w) && Live(c) && RowOk(w, c)
    requires forall k :: 0 <= k < |w.rows| ==> Apart(w.rows[k], c)
    ensures Inv(w.(rows := w.rows + [c])) && Extends(w, w.(rows := w.rows + [c]))
  {
    var v := w.(rows := w.rows + [c]);
    forall j | 0 <= j < |v.rows| ensures RowOk(v, v.rows[j]) {
      if j < |w.rows| { assert RowOk(w, w.rows[j]); }
    }
    forall i, j | 0 <= i < j < |v.rows| ensures Apart(v.rows[i], v.rows[j]) {
      if j < |w.rows| { assert Apart(w.rows[i], w.rows[j]); }
    }
  }

  // The provider moves: more contracts, more calls, ends stay ends.
  lemma ProviderMoved(w: World, remote: seq<Remote>, sent: seq<Sent>)
    requires Inv(w) && RemoteKept(w.remote, remote) && Registered(w.(remote := remote, sent := sent))
    ensures Inv(w.(remote := remote, sent := sent)) && Extends(w, w.(remote := remote, sent := sent))
  {
    var v := w.(remote := remote, sent := sent);
    forall k | 0 <= k < |v.rows| ensures RowOk(v, v.rows[k]) {
      assert RowOk(w, w.rows[k]);
    }
  }

  lemma ContractsInv(w: World)
    requires Inv(w)
    ensures Inv(Contracts(w)) && Extends(w, Contracts(w))
  {
    if w.pointer.Some? && Find(w.rows, w.pointer.value).None? {
      RowAdded(w, Contracts(w).rows[|w.rows|]);
    }
  }

  // The status a document leaves behind: terminal exactly when the end is recorded.
  lemma ApplyStatusOk(w: World, c: Contract, d: Doc)
    requires Live(c) && RowOk(w, c) && c.paypal.Some?
    requires d.status.Some? && Terminal(d.status.value) ==> Terminal(w.remote[c.paypal.value].status)
    ensures var r := ApplyStatus(w.me, c, d, w.now);
            r.Some? ==>
              && Kept(c, r.value) && RowOk(w, r.value)
              && r.value.merged == c.merged && r.value.paypal == c.paypal && r.value.request == c.request
              && r.value.cancelRequested == c.cancelRequested && r.value.created == c.created
              && (Terminal(r.value.status) <==> r.value.cancelled.Some?)
  {
  }

  lemma FetchedInv(w: World, k: nat, answer: Option<Doc>)
    requires Inv(w) && k < |w.rows| && Live(w.rows[k]) && w.rows[k].paypal.Some?
    ensures Fetched(w, k, answer).Some? ==>
              var f := Fetched(w, k, answer).value;
              && Inv(f) && Extends(w, f) && |f.rows| == |w.rows| && Live(f.rows[k])
              && (forall j :: 0 <= j < |w.rows| && j != k ==> f.rows[j] == w.rows[j])
              && (Terminal(f.rows[k].status) <==> f.rows[k].cancelled.Some?)
  {
    hide Inv, Extends;
    assert RowOk(w, w.rows[k]) by { RowOkAt(w, k); }
    if Fetched(w, k, answer).Some? {
      ApplyStatusOk(w, w.rows[k], answer.value);
      RowUpdated(w, k, ApplyStatus(w.me, w.rows[k], answer.value, w.now).value);
    }
  }

  lemma RequestCancelInv(w: World, k: nat)
    requires Inv(w) && k < |w.rows| && Live(w.rows[k])
    ensures Inv(WithRow(w, k, RequestCancel(w.rows[k], w.now))) && Extends(w, WithRow(w, k, RequestCancel(w.rows[k], w.now)))
  {
    RowOkAt(w, k);
    RowUpdated(w, k, RequestCancel(w.rows[k], w.now));
  }

  lemma CheckInv(w: World, k: nat, next: Option<Time>)
    requires Inv(w) && k < |w.rows|
    ensures Inv(WithRow(w, k, w.rows[k].(nextCheck := next))) && Extends(w, WithRow(w, k, w.rows[k].(nextCheck := next)))
  {
    RowOkAt(w, k);
    RowUpdated(w, k, w.rows[k].(nextCheck := next));
  }

  // ---- creating ----

  // Executing a request is idempotent as long as its calls are younger than the provider's memory.
  lemma ExecuteInv(w: World, q: nat)
    requires Inv(w) && q < |w.requests| && w.now <= w.requests[q] + REMEMBERS
    ensures Inv(Execute(w, q)) && Extends(w, Execute(w, q)) && Execute(w, q).rows == w.rows
  {
    var v := Execute(w, q);
    if v != w {
      forall n | 0 <= n < |w.remote| ensures w.remote[n].request != Some(q) {
        assert RemoteOk(w, w.remote[n]);
      }
      forall n | 0 <= n < |v.remote| ensures RemoteOk(v, v.remote[n]) {
        if n < |w.remote| { assert RemoteOk(w, w.remote[n]); }
      }
      forall i | 0 <= i < |v.sent| ensures SentOk(v, v.sent[i]) {
        assert SentOk(w, w.sent[i]);
      }
      ProviderMoved(w, v.remote, v.sent);
    }
  }

  lemma CreateCallInv(w: World, k: nat, executes: bool)
    requires Inv(w) && k < |w.rows| && Live(w.rows[k]) && Replayable(w, w.rows[k])
    ensures var v := CreateCall(w, w.rows[k].request.value, executes);
            Inv(v) && Extends(w, v) && v.rows == w.rows
  {
    RowOkAt(w, k);
    var q := w.rows[k].request.value;
    var v := w.(sent := w.sent + [Sent(q, w.now)]);
    assert SentOk(v, Sent(q, w.now));
    forall i | 0 <= i < |v.sent| ensures SentOk(v, v.sent[i]) {
      if i < |w.sent| { assert SentOk(w, w.sent[i]); }
    }
    forall n | 0 <= n < |v.remote| ensures RemoteOk(v, v.remote[n]) {
      assert RemoteOk(w, w.remote[n]);
    }
    ProviderMoved(w, w.remote, v.sent);
    ExecuteInv(v, q);
    if executes { ExtendsTrans(w, v, Execute(v, q)); }
  }

  lemma NamedInv(w: World, k: nat, n: nat)
    requires Inv(w) && k < |w.rows| && Live(w.rows[k]) && w.rows[k].paypal.None? && w.rows[k].request.Some?
    requires n < |w.remote| && n !in w.others && w.remote[n].request == w.rows[k].request && Find(w.rows, n).None?
    ensures var v := WithRow(w, k, w.rows[k].(paypal := Some(n))); Inv(v) && Extends(w, v)
  {
    hide Inv, Extends;
    var v := WithRow(w, k, w.rows[k].(paypal := Some(n)));
    forall j | 0 <= j < |v.rows| ensures RowOk(v, v.rows[j]) && Kept(w.rows[j], v.rows[j]) {
      RowOkAt(w, j);
    }
    forall i, j | 0 <= i < j < |v.rows| ensures Apart(v.rows[i], v.rows[j]) {
      DistinctRows(w, i, j);
    }
    RowsChanged(w, v);
  }

  lemma MergedInv(w: World, k: nat, e: nat)
    requires Inv(w) && k < |w.rows| && Live(w.rows[k]) && w.rows[k].paypal.None? && w.rows[k].request.Some?
    requires e < |w.rows| && Live(w.rows[e]) && w.rows[e].paypal.Some?
    requires w.rows[e].paypal.value < |w.remote| && w.remote[w.rows[e].paypal.value].request == w.rows[k].request
    requires Find(w.rows, w.rows[e].paypal.value) == Some(e)
    ensures var v := Linked(w, k, w.rows[e].paypal.value).0; Inv(v) && Extends(w, v)
  {
    hide Inv, Extends;
    var v := Linked(w, k, w.rows[e].paypal.value).0;
    RowOkAt(w, k);
    forall j | 0 <= j < |v.rows| ensures RowOk(v, v.rows[j]) && Kept(w.rows[j], v.rows[j]) {
      RowOkAt(w, j);
    }
    forall i, j | 0 <= i < j < |v.rows| ensures Apart(v.rows[i], v.rows[j]) {
      DistinctRows(w, i, j);
      if i != k && j != k {
        DistinctRows(w, i, k);
        DistinctRows(w, j, k);
      }
    }
    RowsChanged(w, v);
  }

  // A first reply linked to a new contract, or merged into the row a webhook made for it.
  lemma LinkedInv(w: World, k: nat, n: nat)
    requires Inv(w) && k < |w.rows| && Live(w.rows[k]) && w.rows[k].paypal.None? && w.rows[k].request.Some?
    requires n < |w.remote| && n !in w.others && w.remote[n].request == w.rows[k].request
    ensures var (v, e) := Linked(w, k, n);
            && Inv(v) && Extends(w, v) && Live(v.rows[e]) && v.rows[e].paypal == Some(n)
            && (v.rows[k].merged == if e == k then None else Some(e))
            && (forall j :: 0 <= j < |w.rows| && j != k ==> v.rows[j].merged == w.rows[j].merged)
  {
    hide Inv, Extends;
    var found := Find(w.rows, n);
    if found.None? { NamedInv(w, k, n); } else { MergedInv(w, k, found.value); }
  }

  lemma RecoverCreateInv(w: World, k: nat, a: CreateAnswer)
    requires Inv(w) && k < |w.rows| && Live(w.rows[k])
    ensures var (v, row) := RecoverCreate(w, k, a);
            && Inv(v) && Extends(w, v)
            && (forall j :: 0 <= j < |w.rows| && j != k ==> v.rows[j].merged == w.rows[j].merged)
            && (row.Some? ==>
                  && Live(v.rows[row.value])
                  && (v.rows[k].merged == if row.value == k then None else row))
  {
    hide Inv, Extends, Linked, ApplyStatus;
    var c := w.rows[k];
    ExtendsSelf(w);
    if c.paypal.None? && Replayable(w, c) {
      var called := CreateCall(w, c.request.value, a.executes);
      CreateCallInv(w, k, a.executes);
      if a.reply.Some? && CreateReply(called, c.request.value, a.reply.value) {
        var d := a.reply.value;
        if d.id.Some? && d.id.value !in w.others {
          SameOthers(w, called);
          LinkedInv(called, k, d.id.value);
          var (linked, e) := Linked(called, k, d.id.value);
          ExtendsTrans(w, called, linked);
          RowOkAt(linked, e);
          RemoteSame(called, k, d.id.value);
          ApplyStatusOk(linked, linked.rows[e], d);
          SameOthers(w, linked);
          var applied := ApplyStatus(w.me, linked.rows[e], d, w.now);
          if applied.Some? {
            RowUpdated(linked, e, applied.value);
            ExtendsTrans(w, linked, WithRow(linked, e, applied.value));
          }
        }
      }
    }
  }

  lemma ExtendsSelf(w: World)
    ensures Extends(w, w)
  {
  }

  lemma SameOthers(v: World, w: World)
    requires Extends(v, w)
    ensures w.others == v.others && w.me == v.me && w.now == v.now
  {
  }

  lemma RemoteSame(w: World, k: nat, n: nat)
    requires k < |w.rows| && w.rows[k].paypal.None?
    ensures Linked(w, k, n).0.remote == w.remote
  {
  }

  // ---- cancelling ----

  lemma TerminateInv(w: World, n: nat)
    requires Inv(w)
    ensures Inv(Terminate(w, n)) && Extends(w, Terminate(w, n)) && Terminate(w, n).rows == w.rows
    ensures n < |w.remote| ==> Terminal(Terminate(w, n).remote[n].status)
  {
    var v := Terminate(w, n);
    forall i | 0 <= i < |v.sent| ensures SentOk(v, v.sent[i]) {
      assert SentOk(w, w.sent[i]);
    }
    forall i | 0 <= i < |v.remote| ensures RemoteOk(v, v.remote[i]) {
      assert RemoteOk(w, w.remote[i]);
    }
    ProviderMoved(w, v.remote, v.sent);
  }

  // Where the contract of row k is recorded now.
  function Home(rows: seq<Contract>, k: nat): nat
    requires k < |rows|
  {
    if rows[k].merged.Some? then rows[k].merged.value else k
  }

  // Its end is confirmed, locally and at the provider.
  predicate Ended(w: World, k: nat)
    requires k < |w.rows|
  {
    var h := Home(w.rows, k);
    h < |w.rows| && Live(w.rows[h]) && w.rows[h].cancelled.Some?
    && w.rows[h].paypal.Some? && w.rows[h].paypal.value < |w.remote| && Terminal(w.remote[w.rows[h].paypal.value].status)
  }

  lemma EndedHere(w: World, k: nat, h: nat)
    requires Inv(w) && k < |w.rows| && h < |w.rows| && Live(w.rows[h]) && w.rows[h].cancelled.Some?
    requires w.rows[k].merged == if h == k then None else Some(h)
    ensures Ended(w, k)
  {
    RowOkAt(w, h);
  }

  lemma EndedStays(v: World, w: World, k: nat)
    requires k < |v.rows| && Ended(v, k) && AllKept(v.rows, w.rows) && RemoteKept(v.remote, w.remote)
    ensures Ended(w, k)
  {
    var h := Home(v.rows, k);
    assert Kept(v.rows[k], w.rows[k]) && Kept(v.rows[h], w.rows[h]);
  }

  lemma StopInv(w: World, k: nat, a: CancelAnswer)
    requires Inv(w) && k < |w.rows| && Live(w.rows[k]) && w.rows[k].paypal.Some?
    ensures var (v, ok) := Stop(w, k, a);
            && Inv(v) && Extends(w, v)
            && (forall j :: 0 <= j < |w.rows| ==> v.rows[j].merged == w.rows[j].merged)
            && (ok ==> v.rows[k].cancelled.Some?)
  {
    hide Inv, Extends, Fetched;
    var n := w.rows[k].paypal.value;
    RowOkAt(w, k);
    ExtendsSelf(w);
    TerminateInv(w, n);
    var stopped := if a.executes || a.confirmed then Terminate(w, n) else w;
    RowOkAt(stopped, k);
    SameOthers(w, stopped);
    if a.confirmed {
      ApplyStatusOk(stopped, stopped.rows[k], ENDED);
      var row := ApplyStatus(w.me, w.rows[k], ENDED, w.now).value;
      RowUpdated(stopped, k, row);
      ExtendsTrans(w, stopped, WithRow(stopped, k, row));
      CheckInv(WithRow(stopped, k, row), k, None);
      ExtendsTrans(w, WithRow(stopped, k, row), Stop(w, k, a).0);
    } else {
      FetchedInv(stopped, k, a.recheck);
      var f := Fetched(stopped, k, a.recheck);
      if f.None? {
        CheckInv(stopped, k, Some(stopped.now + 60));
        ExtendsTrans(w, stopped, Unconfirmed(stopped, k));
      } else {
        ExtendsTrans(w, stopped, f.value);
        SameOthers(stopped, f.value);
        CheckInv(f.value, k, None);
        CheckInv(f.value, k, Some(w.now + 60));
        ExtendsTrans(w, f.value, Stop(w, k, a).0);
      }
    }
  }

  lemma CancelOneInv(w: World, k: nat, a: CancelAnswer)
    requires Inv(w) && k < |w.rows| && Live(w.rows[k])
    ensures var (v, ok) := CancelOne(w, k, a);
            && Inv(v) && Extends(w, v)
            && (forall j :: 0 <= j < |w.rows| && j != k ==> v.rows[j].merged == w.rows[j].merged)
            && (ok ==> Ended(v, k))
  {
    hide Inv, Extends, RecoverCreate, Fetched, Stop, Ended;
    var (r, row) := RecoverCreate(w, k, a.create);
    RecoverCreateInv(w, k, a.create);
    SameOthers(w, r);
    if row.None? {
      CheckInv(r, k, Some(r.now + 60));
      ExtendsTrans(w, r, Unconfirmed(r, k));
    } else {
      var h := row.value;
      if r.rows[h].cancelled.Some? {
        EndedHere(r, k, h);
      } else {
        FetchedInv(r, h, a.get);
        var f := Fetched(r, h, a.get);
        if f.None? {
          CheckInv(r, h, Some(r.now + 60));
          ExtendsTrans(w, r, Unconfirmed(r, h));
        } else {
          ExtendsTrans(w, r, f.value);
          CheckInv(f.value, h, None);
          StopInv(f.value, h, a);
          var v := CancelOne(w, k, a).0;
          ExtendsTrans(w, f.value, v);
          if CancelOne(w, k, a).1 {
            MergedSame(f.value, v, h);
            EndedHere(v, k, h);
          }
        }
      }
    }
  }

  lemma MergedSame(v: World, w: World, h: nat)
    requires Extends(v, w) && h < |v.rows| && v.rows[h].paypal.Some? && Live(v.rows[h])
    ensures h < |w.rows| && Live(w.rows[h])
  {
    assert Kept(v.rows[h], w.rows[h]);
  }

  // A turn on a row that has ended changes nothing: skipping it is the same.
  lemma EndedTurnIsNothing(w: World, k: nat, a: CancelAnswer)
    requires Inv(w) && k < |w.rows| && Live(w.rows[k]) && w.rows[k].cancelled.Some?
    ensures CancelOne(w, k, a) == (w, true)
  {
    RowOkAt(w, k);
  }

  // So the retry job's pass is the second transaction of cancel_all over again.
  lemma {:induction false} PassIsRound(w: World, order: seq<nat>, answers: seq<CancelAnswer>)
    requires Inv(w) && |answers| == |order| && forall i :: 0 <= i < |order| ==> order[i] < |w.rows|
    ensures RetryPass(w, order, answers) == Round(w, order, answers).0
    decreases |order|
  {
    hide Inv, CancelOne;
    if order != [] {
      var k := order[0];
      var asks := Live(w.rows[k]) && w.rows[k].cancelRequested.Some?;
      if asks { CancelOneInv(w, k, answers[0]); }
      if asks && w.rows[k].cancelled.Some? { EndedTurnIsNothing(w, k, answers[0]); }
      PassIsRound(if asks then CancelOne(w, k, answers[0]).0 else w, order[1..], answers[1..]);
    }
  }

  // A reported success: every visited row that asked to be cancelled has ended.
  lemma {:induction false} RoundInv(w: World, order: seq<nat>, answers: seq<CancelAnswer>)
    requires Inv(w) && |answers| == |order| && forall i :: 0 <= i < |order| ==> order[i] < |w.rows|
    ensures var (v, ok) := Round(w, order, answers);
            && Inv(v) && Extends(w, v)
            && (ok ==> forall j :: j in order && Live(w.rows[j]) && w.rows[j].cancelRequested.Some? ==> Ended(v, j))
    decreases |order|
  {
    hide Inv, Extends, CancelOne, Ended;
    ExtendsSelf(w);
    if order != [] {
      var (k, tail) := (order[0], order[1..]);
      assert order == [k] + tail;
      if !Live(w.rows[k]) || w.rows[k].cancelRequested.None? {
        RoundInv(w, tail, answers[1..]);
      } else {
        var (v, ok) := CancelOne(w, k, answers[0]);
        CancelOneInv(w, k, answers[0]);
        RoundInv(v, tail, answers[1..]);
        var (e, rest) := Round(v, tail, answers[1..]);
        ExtendsTrans(w, v, e);
        if ok && rest {
          EndedExtends(v, e, k);
          forall j | j in order && j != k && Live(w.rows[j]) && w.rows[j].cancelRequested.Some? ensures Ended(e, j) {
            RequestedSame(w, v, j);
          }
        }
      }
    }
  }

  lemma EndedExtends(v: World, w: World, k: nat)
    requires k < |v.rows| && Ended(v, k) && Extends(v, w)
    ensures Ended(w, k)
  {
    EndedStays(v, w, k);
  }

  lemma RequestedSame(v: World, w: World, j: nat)
    requires Extends(v, w) && j < |v.rows| && v.rows[j].cancelRequested.Some?
    ensures w.rows[j].cancelRequested.Some?
  {
    assert Kept(v.rows[j], w.rows[j]);
  }
}
