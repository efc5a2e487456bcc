/** Whole runs of the subscription transactions. */
module SubscriptionRuns {
  import opened Common
  import opened Subscriptions
  import opened SubscriptionSafety

  // ---- selecting ----

  // The pointer only ever leaves a contract whose end is recorded.
  predicate PointerFair(before: Option<nat>, w: World) {
    w.pointer == before || before.None?
    || exists k :: 0 <= k < |w.rows| && Live(w.rows[k]) && w.rows[k].paypal == before && w.rows[k].cancelled.Some?
  }

  // What every transaction keeps, the pointer apart.
  ghost predicate Follows(v: World, w: World) {
    && w.me == v.me && w.others == v.others && v.now <= w.now
    && |v.requests| <= |w.requests| && w.requests[..|v.requests|] == v.requests
    && AllKept(v.rows, w.rows) && RemoteKept(v.remote, w.remote)
  }

  lemma FollowsTrans(u: World, v: World, w: World)
    requires Follows(u, v) && Follows(v, w)
    ensures Follows(u, w)
  {
    forall k | 0 <= k < |u.rows| ensures Kept(u.rows[k], w.rows[k]) {
      assert Kept(u.rows[k], v.rows[k]) && Kept(v.rows[k], w.rows[k]);
    }
    assert w.requests[..|u.requests|] == w.requests[..|v.requests|][..|u.requests|];
  }

  lemma ExtendsFollows(v: World, w: World)
    requires Extends(v, w)
    ensures Follows(v, w) && w.pointer == v.pointer
  {
  }

  lemma PointerInv(w: World, k: nat)
    requires Inv(w) && k < |w.rows| && Live(w.rows[k])
    ensures Inv(w.(pointer := w.rows[k].paypal)) && Follows(w, w.(pointer := w.rows[k].paypal))
  {
    RowOkAt(w, k);
    var v := w.(pointer := w.rows[k].paypal);
    assert forall j :: 0 <= j < |w.rows| ==> RowOk(w, w.rows[j]) ==> RowOk(v, v.rows[j]);
    assert forall i :: 0 <= i < |w.sent| ==> SentOk(w, w.sent[i]) ==> SentOk(v, v.sent[i]);
    assert forall n :: 0 <= n < |w.remote| ==> RemoteOk(w, w.remote[n]) ==> RemoteOk(v, v.remote[n]);
  }

  // Finish may move the pointer to row k; the row must have an id.
  lemma FinishInv(w: World, k: nat, choose: bool)
    requires Inv(w) && k < |w.rows| && Live(w.rows[k]) && w.rows[k].paypal.Some?
    ensures var v := Finish(w, k, choose).0;
            Inv(v) && Follows(w, v) && v.rows == w.rows && (v.pointer == w.pointer || (choose && v.pointer == w.rows[k].paypal))
  {
    hide Inv, Follows;
    FollowsSelf(w);
    PointerInv(w, k);
  }

  lemma AskedInv(w: World, k: nat)
    requires Inv(w) && k < |w.rows| && Live(w.rows[k]) && w.rows[k].paypal.Some?
    ensures var v := Asked(w, k);
            && Inv(v) && Extends(w, v) && k < |v.rows| && Live(v.rows[k]) && v.rows[k].paypal.Some?
            && (v.pointer.Some? ==> Find(v.rows, v.pointer.value).Some?)
  {
    hide Inv, Extends;
    ExtendsSelf(w);
    RequestCancelInv(w, k);
    SameRow(w, k);
    var late := w.cutoff.Some? && w.rows[k].created <= w.cutoff.value;
    var r := WithRow(w, k, if late then RequestCancel(w.rows[k], w.now) else w.rows[k]);
    ContractsInv(r);
    ExtendsTrans(w, r, Contracts(r));
    LivesOn(w, Contracts(r), k);
    PointerFound(r);
  }

  // The rest of Select once another contract c is known to be selected and has been read.
  lemma AgainstInv(w: World, u: World, k: nat, c: nat, explicit: bool, created: Time)
    requires Inv(u) && Extends(w, u) && k < |u.rows| && c < |u.rows| && c != k
    requires Live(u.rows[k]) && u.rows[k].paypal.Some? && Live(u.rows[c]) && u.rows[c].paypal == u.pointer && u.pointer.Some?
    requires Terminal(u.rows[c].status) ==> u.rows[c].cancelled.Some?
    requires u.now == w.now
    ensures var f := if Terminal(u.rows[c].status) then Finish(u, k, explicit || created > u.rows[c].created).0
                     else Finish(WithRow(u, k, RequestCancel(u.rows[k], w.now)), k, false).0;
            Inv(f) && Follows(w, f) && PointerFair(w.pointer, f)
  {
    hide Inv, Extends, Follows, Finish, PointerFair, RowOk, Kept;
    if Terminal(u.rows[c].status) {
      Finished(w, u, k, explicit || created > u.rows[c].created);
    } else {
      RequestCancelInv(u, k);
      var z := WithRow(u, k, RequestCancel(u.rows[k], w.now));
      ExtendsTrans(w, u, z);
      Finished(w, z, k, false);
    }
  }

  lemma SelectInv(w: World, k: nat, explicit: bool, get: Option<Doc>)
    requires Inv(w) && k < |w.rows| && Live(w.rows[k]) && w.rows[k].paypal.Some?
    ensures var s := Select(w, k, explicit, get).0;
            Inv(s) && Follows(w, s) && PointerFair(w.pointer, s)
  {
    hide Inv, Extends, Follows, Fetched, Finish, PointerFair, Contracts, RequestCancel;
    AskedInv(w, k);
    var v := Asked(w, k);
    ExtendsFollows(w, v);
    var current := if v.pointer.Some? then Find(v.rows, v.pointer.value) else None;
    if current.None? || current.value == k {
      Finished(w, v, k, true);
    } else if Terminal(v.rows[k].status) {
      Finished(w, v, k, false);
    } else {
      var c := current.value;
      FetchedInv(v, c, get);
      ExtendsSelf(v);
      RecordedEnd(v, c);
      var asked := if v.rows[c].cancelled.Some? then Some(v) else Fetched(v, c, get);
      PointerSame(w, v);
      if asked.Some? {
        var u := asked.value;
        ExtendsTrans(w, v, u);
        LivesOn(v, u, k);
        LivesOn(v, u, c);
        SameClock(w, u);
        AgainstInv(w, u, k, c, explicit, v.rows[k].created);
      }
    }
  }

  lemma SameClock(v: World, w: World)
    requires Extends(v, w)
    ensures w.now == v.now
  {
  }

  lemma SameRow(w: World, k: nat)
    requires k < |w.rows|
    ensures WithRow(w, k, w.rows[k]) == w
  {
    assert w.rows[k := w.rows[k]] == w.rows;
  }

  lemma LivesOn(v: World, w: World, k: nat)
    requires Extends(v, w) && k < |v.rows| && Live(v.rows[k]) && v.rows[k].paypal.Some?
    ensures k < |w.rows| && Live(w.rows[k]) && w.rows[k].paypal == v.rows[k].paypal && w.pointer == v.pointer
    ensures v.rows[k].cancelled.Some? ==> w.rows[k].cancelled.Some?
  {
    assert Kept(v.rows[k], w.rows[k]);
  }

  // Recorded ends have terminal statuses.
  lemma RecordedEnd(w: World, c: nat)
    requires Inv(w) && c < |w.rows| && Live(w.rows[c])
    ensures w.rows[c].cancelled.Some? ==> Terminal(w.rows[c].status) && w.rows[c].paypal.Some?
  {
  }

  lemma PointerFound(w: World)
    ensures var v := Contracts(w); v.pointer.Some? ==> Find(v.rows, v.pointer.value).Some?
  {
    var v := Contracts(w);
    if v.pointer.Some? && Find(w.rows, w.pointer.value).None? {
      assert v.rows[|w.rows|].paypal == v.pointer && Live(v.rows[|w.rows|]);
    }
  }

  lemma PointerSame(v: World, w: World)
    requires Extends(v, w)
    ensures PointerFair(v.pointer, w)
  {
  }

  lemma Finished(w: World, v: World, k: nat, choose: bool)
    requires Inv(v) && Extends(w, v) && k < |v.rows| && Live(v.rows[k]) && v.rows[k].paypal.Some?
    requires choose ==>
               || v.pointer.None?
               || (v.pointer == v.rows[k].paypal)
               || exists c :: 0 <= c < |v.rows| && Live(v.rows[c]) && v.rows[c].paypal == v.pointer && v.rows[c].cancelled.Some?
    ensures var f := Finish(v, k, choose).0;
            Inv(f) && Follows(w, f) && PointerFair(w.pointer, f)
  {
    FinishInv(v, k, choose);
    ExtendsFollows(w, v);
    FollowsTrans(w, v, Finish(v, k, choose).0);
  }

  // ---- the transactions ----

  lemma IntentInv(w: World)
    requires Inv(w)
    ensures Inv(Intent(w)) && Follows(w, Intent(w)) && Intent(w).pointer == w.pointer
    ensures forall k :: 0 <= k < |Contracts(w).rows| && Live(Contracts(w).rows[k]) ==> Intent(w).rows[k].cancelRequested.Some?
  {
    ContractsInv(w);
    var c, v := Contracts(w), Intent(w);
    forall k | 0 <= k < |v.rows| ensures RowOk(v, v.rows[k]) && Kept(c.rows[k], v.rows[k]) {
      RowOkAt(c, k);
    }
    forall i, j | 0 <= i < j < |v.rows| ensures Apart(v.rows[i], v.rows[j]) {
      assert Apart(c.rows[i], c.rows[j]);
    }
    forall k | 0 <= k < |w.rows| ensures Kept(w.rows[k], v.rows[k]) {
      assert Kept(w.rows[k], c.rows[k]) && Kept(c.rows[k], v.rows[k]);
    }
    assert forall i :: 0 <= i < |c.sent| ==> SentOk(c, c.sent[i]) ==> SentOk(v, v.sent[i]);
    assert forall n :: 0 <= n < |c.remote| ==> RemoteOk(c, c.remote[n]) ==> RemoteOk(v, v.remote[n]);
  }

  lemma RolledBackInv(v: World, w: World)
    requires Inv(v) && Inv(w) && Extends(v, w)
    ensures Inv(RolledBack(v, w)) && Extends(v, RolledBack(v, w))
  {
    var b := RolledBack(v, w);
    forall i | 0 <= i < |b.sent| ensures SentOk(b, b.sent[i]) {
      assert SentOk(w, w.sent[i]);
    }
    forall n | 0 <= n < |b.remote| ensures RemoteOk(b, b.remote[n]) {
      assert RemoteOk(w, w.remote[n]);
    }
    ProviderMoved(v, w.remote, w.sent);
  }

  lemma RememberInv(w: World, n: nat, d: Doc)
    requires Inv(w) && Truthful(w, n, d)
    ensures Remember(w, n, d).Some? ==>
              var (v, k) := Remember(w, n, d).value;
              Inv(v) && Extends(w, v) && Live(v.rows[k]) && v.rows[k].paypal.Some?
  {
    hide Inv, Extends, ApplyStatus;
    if Remember(w, n, d).Some? {
      ContractsInv(w);
      var v := Contracts(w);
      SameOthers(w, v);
      var found := Find(v.rows, n);
      var row := NewRow(n, Either(d.created, Some(w.now)).value);
      var u := if found.Some? then v else v.(rows := v.rows + [row]);
      var k := if found.Some? then found.value else |v.rows|;
      if found.None? {
        NewRowOk(v, n, row);
        RowAdded(v, row);
      } else {
        ExtendsSelf(v);
      }
      ExtendsTrans(w, v, u);
      RowOkAt(u, k);
      RemoteGrows(w, u, n);
      ApplyStatusOk(u, u.rows[k], d);
      var applied := ApplyStatus(w.me, u.rows[k], d, w.now).value;
      RowUpdated(u, k, applied);
      ExtendsTrans(w, u, WithRow(u, k, applied));
    }
  }

  lemma NewRowOk(w: World, n: nat, c: Contract)
    requires n < |w.remote| && n !in w.others && Find(w.rows, n).None? && c == NewRow(n, c.created)
    ensures RowOk(w, c) && forall k :: 0 <= k < |w.rows| ==> Apart(w.rows[k], c)
  {
  }

  lemma RemoteGrows(v: World, w: World, n: nat)
    requires Extends(v, w) && n < |v.remote|
    ensures n < |w.remote| && (Terminal(v.remote[n].status) ==> Terminal(w.remote[n].status))
  {
  }

  lemma EventInv(w: World, n: nat, d: Doc, explicit: bool, get: Option<Doc>)
    requires Inv(w)
    ensures var v := Do(w, Event(n, d, explicit, get)); Inv(v) && Follows(w, v) && PointerFair(w.pointer, v)
  {
    hide Inv, Extends, Follows, Remember, Select;
    FollowsSelf(w);
    if Truthful(w, n, d) && Remember(w, n, d).Some? {
      RememberInv(w, n, d);
      var (r, k) := Remember(w, n, d).value;
      SelectInv(r, k, explicit, get);
      ExtendsFollows(w, r);
      FollowsTrans(w, r, Select(r, k, explicit, get).0);
    }
  }

  lemma FollowsSelf(w: World)
    ensures Follows(w, w)
  {
  }

  lemma SendInv(w: World, k: nat, create: CreateAnswer, get: Option<Doc>)
    requires Inv(w) && k < |w.rows| && Live(w.rows[k])
    ensures var v := Send(w, k, create, get); Inv(v) && Follows(w, v) && PointerFair(w.pointer, v)
  {
    hide Inv, Extends, Follows, RecoverCreate, Select, PointerFair;
    RecoverCreateInv(w, k, create);
    var (r, row) := RecoverCreate(w, k, create);
    ExtendsFollows(w, r);
    PointerSame(w, r);
    if row.Some? {
      SelectInv(r, row.value, true, get);
      var (s, outcome) := Select(r, row.value, true, get);
      FollowsTrans(w, r, s);
      if outcome.Raised? && get.None? {
        RaisedExtends(r, row.value, true, get);
        ExtendsTrans(w, r, s);
        RolledBackInv(w, s);
        ExtendsFollows(w, RolledBack(w, s));
        PointerSame(w, RolledBack(w, s));
      }
    }
  }

  lemma RaisedExtends(w: World, k: nat, explicit: bool, get: Option<Doc>)
    requires Inv(w) && k < |w.rows| && Live(w.rows[k]) && w.rows[k].paypal.Some? && Select(w, k, explicit, get).1.Raised?
    ensures Extends(w, Select(w, k, explicit, get).0)
  {
    hide Inv, Extends, Fetched, Asked;
    AskedInv(w, k);
  }

  lemma {:induction false} RefreshInv(w: World, k: nat, replies: seq<RefreshAnswer>)
    requires Inv(w) && |replies| == |w.rows|
    ensures Inv(Refresh(w, k, replies).0) && Extends(w, Refresh(w, k, replies).0)
    decreases |replies| - k
  {
    hide Inv, Extends, RecoverCreate, Fetched;
    ExtendsSelf(w);
    if k < |w.rows| {
      if !Live(w.rows[k]) {
        RefreshInv(w, k + 1, replies);
      } else if !Pending(w.rows[k]) {
        RecoverCreateInv(w, k, replies[k].create);
        var (r, row) := RecoverCreate(w, k, replies[k].create);
        if row.Some? {
          FetchedInv(r, row.value, replies[k].get);
          var next := if r.rows[row.value].cancelled.Some? then Some(r) else Fetched(r, row.value, replies[k].get);
          ExtendsSelf(r);
          if next.Some? {
            ExtendsTrans(w, r, next.value);
            RefreshInv(next.value, k + 1, replies);
            ExtendsTrans(w, next.value, Refresh(next.value, k + 1, replies).0);
          }
        }
      }
    }
  }

  // A new attempt reserves the next request id.
  lemma AttemptInv(w: World, plan: nat)
    requires Inv(w) && FirstOpen(w.rows) == |w.rows|
    ensures Inv(Reserve(w, plan)) && Follows(w, Reserve(w, plan)) && Reserve(w, plan).pointer == w.pointer
  {
    var v := w.(requests := w.requests + [w.now]);
    assert Inv(v) && Follows(w, v) by {
      assert forall j :: 0 <= j < |w.rows| ==> RowOk(w, w.rows[j]) ==> RowOk(v, v.rows[j]);
      assert forall i :: 0 <= i < |w.sent| ==> SentOk(w, w.sent[i]) ==> SentOk(v, v.sent[i]);
      assert forall n :: 0 <= n < |w.remote| ==> RemoteOk(w, w.remote[n]) ==> RemoteOk(v, v.remote[n]);
    }
    var row := Reserve(w, plan).rows[|w.rows|];
    forall k | 0 <= k < |w.rows| ensures Apart(w.rows[k], row) {
      RowOkAt(w, k);
    }
    RowAdded(v, row);
    ExtendsFollows(v, Reserve(w, plan));
    FollowsTrans(w, v, Reserve(w, plan));
  }

  // The only open contract is selected: every other one has ended.
  lemma ReserveInv(w: World, plan: nat)
    requires Inv(w) && (w.pointer.Some? ==> Find(w.rows, w.pointer.value).Some?)
    ensures var v := Reserve(w, plan); Inv(v) && Follows(w, v) && PointerFair(w.pointer, v)
  {
    hide Inv, Follows, RowOk;
    var v, k := Reserve(w, plan), FirstOpen(w.rows);
    FollowsSelf(w);
    if k == |w.rows| {
      AttemptInv(w, plan);
    } else if v != w {
      PointerInv(w, k);
      if w.pointer.Some? {
        var c := Find(w.rows, w.pointer.value).value;
        if c > k { assert w.rows[k + 1..][c - k - 1] == w.rows[c]; }
        assert c == k || w.rows[c].cancelled.Some?;
      }
    }
  }

  lemma CheckoutOpenInv(w: World, plan: nat, replies: seq<RefreshAnswer>, commits: bool)
    requires Inv(w)
    ensures var v := Do(w, CheckoutOpen(plan, replies, commits)); Inv(v) && Follows(w, v) && PointerFair(w.pointer, v)
  {
    hide Inv, Extends, Follows, Refresh, Reserve, PointerFair;
    ExtendsSelf(w);
    ExtendsFollows(w, w);
    PointerSame(w, w);
    var c := Contracts(w);
    ContractsInv(w);
    if |replies| == |c.rows| {
      RefreshInv(c, 0, replies);
      var (r, ok) := Refresh(c, 0, replies);
      ExtendsTrans(w, c, r);
      if ok && commits {
        PointerFound(w);
        FoundStays(c, r);
        ReserveInv(r, plan);
        ExtendsFollows(w, r);
        FollowsTrans(w, r, Reserve(r, plan));
      } else {
        RolledBackInv(w, r);
        ExtendsFollows(w, RolledBack(w, r));
        PointerSame(w, RolledBack(w, r));
      }
    }
  }

  lemma FoundStays(v: World, w: World)
    requires Extends(v, w) && (v.pointer.Some? ==> Find(v.rows, v.pointer.value).Some?)
    ensures w.pointer == v.pointer && (w.pointer.Some? ==> Find(w.rows, w.pointer.value).Some?)
  {
    if v.pointer.Some? {
      var k := Find(v.rows, v.pointer.value).value;
      assert Kept(v.rows[k], w.rows[k]);
    }
  }

  lemma CancelRoundInv(w: World, order: seq<nat>, answers: seq<CancelAnswer>, commits: bool)
    requires Inv(w)
    ensures var v := Do(w, CancelRound(order, answers, commits)); Inv(v) && Extends(w, v)
  {
    hide Inv, Extends, Round;
    ExtendsSelf(w);
    ContractsInv(w);
    var c := Contracts(w);
    if Visits(order, |c.rows|) && |answers| == |order| {
      RoundInv(c, order, answers);
      ExtendsTrans(w, c, Round(c, order, answers).0);
      RolledBackInv(w, Round(c, order, answers).0);
    }
  }

  lemma RetryInv(w: World, k: nat, a: CancelAnswer, commits: bool)
    requires Inv(w)
    ensures var v := Do(w, Retry(k, a, commits)); Inv(v) && Extends(w, v)
  {
    hide Inv, Extends, CancelOne;
    ExtendsSelf(w);
    if k < |w.rows| && Live(w.rows[k]) {
      CancelOneInv(w, k, a);
      RolledBackInv(w, CancelOne(w, k, a).0);
    }
  }

  lemma TickInv(w: World, seconds: nat)
    requires Inv(w)
    ensures Inv(w.(now := w.now + seconds)) && Follows(w, w.(now := w.now + seconds))
  {
    hide Apart;
    var v := w.(now := w.now + seconds);
    assert forall j :: 0 <= j < |w.rows| ==> RowOk(w, w.rows[j]) ==> RowOk(v, v.rows[j]);
    assert forall i :: 0 <= i < |w.sent| ==> SentOk(w, w.sent[i]) ==> SentOk(v, v.sent[i]);
    assert forall n :: 0 <= n < |w.remote| ==> RemoteOk(w, w.remote[n]) ==> RemoteOk(v, v.remote[n]);
  }

  // One provider contract changed or added, under no request id of ours.
  lemma RemoteInv(w: World, remote: seq<Remote>)
    requires Inv(w) && RemoteKept(w.remote, remote)
    requires forall n :: |w.remote| <= n < |remote| ==> remote[n].request.None?
    ensures Inv(w.(remote := remote)) && Follows(w, w.(remote := remote))
  {
    hide RowsOk;
    var v := w.(remote := remote);
    forall n | 0 <= n < |v.remote| ensures RemoteOk(v, v.remote[n]) {
      if n < |w.remote| { assert RemoteOk(w, w.remote[n]); }
    }
    assert forall i :: 0 <= i < |w.sent| ==> SentOk(w, w.sent[i]) ==> SentOk(v, v.sent[i]);
    ProviderMoved(w, remote, w.sent);
    ExtendsFollows(w, v);
  }

  lemma DeliverInv(w: World, call: nat)
    requires Inv(w)
    ensures Inv(Do(w, Deliver(call))) && Follows(w, Do(w, Deliver(call))) && Do(w, Deliver(call)).pointer == w.pointer
  {
    FollowsSelf(w);
    if call < |w.sent| && w.now <= w.sent[call].at + LONGEST_DELIVERY {
      assert SentOk(w, w.sent[call]);
      ExecuteInv(w, w.sent[call].request);
      ExtendsFollows(w, Execute(w, w.sent[call].request));
    }
  }

  lemma ProviderInv(w: World, t: Step)
    requires Inv(w) && (t.Tick? || t.Progress? || t.Appear? || t.Deliver?)
    ensures Inv(Do(w, t)) && Follows(w, Do(w, t)) && Do(w, t).pointer == w.pointer
  {
    hide Inv, Follows, Execute;
    FollowsSelf(w);
    match t {
      case Tick(seconds) => TickInv(w, seconds);
      case Deliver(call) => DeliverInv(w, call);
      case _ => RemoteInv(w, Do(w, t).remote);
    }
  }

  lemma StepInv(w: World, t: Step)
    requires Inv(w)
    ensures Inv(Do(w, t)) && Follows(w, Do(w, t)) && PointerFair(w.pointer, Do(w, t))
  {
    hide Inv, Follows, Extends, Intent, Send, Do;
    match t {
      case Event(n, d, explicit, get) => EventInv(w, n, d, explicit, get);
      case CancelIntent => IntentInv(w); IntentDo(w);
      case CancelRound(order, answers, commits) => CancelRoundInv(w, order, answers, commits); ExtendsFollows(w, Do(w, t));
      case Retry(k, a, commits) => RetryInv(w, k, a, commits); ExtendsFollows(w, Do(w, t));
      case CheckoutOpen(plan, replies, commits) => CheckoutOpenInv(w, plan, replies, commits);
      case CheckoutSend(k, create, get) => CheckoutSendInv(w, k, create, get);
      case _ => ProviderInv(w, t);
    }
  }

  lemma IntentDo(w: World)
    ensures Do(w, CancelIntent) == Intent(w)
  {
  }

  lemma CheckoutSendInv(w: World, k: nat, create: CreateAnswer, get: Option<Doc>)
    requires Inv(w)
    ensures var v := Do(w, CheckoutSend(k, create, get)); Inv(v) && Follows(w, v) && PointerFair(w.pointer, v)
  {
    hide Inv, Follows, Send;
    FollowsSelf(w);
    if k < |w.rows| && Live(w.rows[k]) { SendInv(w, k, create, get); }
  }

  lemma {:induction false} RunInv(w: World, steps: seq<Step>)
    requires Inv(w)
    ensures Inv(Run(w, steps)) && Follows(w, Run(w, steps))
    decreases |steps|
  {
    hide Inv, Follows, Do;
    FollowsSelf(w);
    if steps != [] {
      StepInv(w, steps[0]);
      RunInv(Do(w, steps[0]), steps[1..]);
      FollowsTrans(w, Do(w, steps[0]), Run(w, steps));
    }
  }

  // ---- main results ----

  // Before the first transaction: nothing recorded but perhaps a pointer.
  predicate Opening(w: World) {
    && w.rows == [] && w.requests == [] && w.sent == [] && PointerOk(w)
    && forall n :: 0 <= n < |w.remote| ==> w.remote[n].request.None?
  }

  lemma OpeningInv(w: World)
    requires Opening(w)
    ensures Inv(w)
  {
  }

  // The selected contract is only ever replaced after its own end was recorded, and an end
  // is recorded only for a contract the provider has ended.
  lemma PointerNeverDropsLiveContract(w: World, steps: seq<Step>, t: Step)
    requires Opening(w)
    requires Run(w, steps).pointer.Some? && Do(Run(w, steps), t).pointer != Run(w, steps).pointer
    ensures var (p, v) := (Run(w, steps).pointer, Do(Run(w, steps), t));
            && p.value < |v.remote| && Terminal(v.remote[p.value].status)
            && exists k :: 0 <= k < |v.rows| && Live(v.rows[k]) && v.rows[k].paypal == p && v.rows[k].cancelled.Some?
  {
    hide Run, Do, RowOk, Kept, Follows;
    OpeningInv(w);
    RunInv(w, steps);
    StepInv(Run(w, steps), t);
    var p, v := Run(w, steps).pointer, Do(Run(w, steps), t);
    var k :| 0 <= k < |v.rows| && Live(v.rows[k]) && v.rows[k].paypal == p && v.rows[k].cancelled.Some?;
    EndRecorded(v, k);
  }

  lemma EndRecorded(w: World, k: nat)
    requires Inv(w) && k < |w.rows| && Live(w.rows[k]) && w.rows[k].cancelled.Some?
    ensures w.rows[k].paypal.Some? && w.rows[k].paypal.value < |w.remote|
    ensures Terminal(w.rows[k].status) && Terminal(w.remote[w.rows[k].paypal.value].status)
  {
    RowOkAt(w, k);
  }

  // Whatever stale reads and events follow, a recorded end keeps its terminal status, an
  // intent to cancel is never erased, and a merged attempt hands its intent on.
  lemma EndsAndIntentsAreKept(w: World, before: seq<Step>, after: seq<Step>, k: nat)
    requires Opening(w) && k < |Run(w, before).rows|
    ensures var (a, v) := (Run(w, before).rows[k], Run(Run(w, before), after));
            && k < |v.rows| && Home(v.rows, k) < |v.rows|
            && (a.cancelled.Some? ==> v.rows[k].cancelled == a.cancelled && v.rows[k].status == a.status && Terminal(a.status))
            && (a.cancelRequested.Some? ==>
                  v.rows[k].cancelRequested == a.cancelRequested && v.rows[Home(v.rows, k)].cancelRequested.Some?)
  {
    hide Run;
    OpeningInv(w);
    RunInv(w, before);
    RunInv(Run(w, before), after);
    var v := Run(Run(w, before), after);
    RowOkAt(Run(w, before), k);
    assert Kept(Run(w, before).rows[k], v.rows[k]);
    RowOkAt(v, k);
  }

  // A terminal status that was not confirmed carries no provider timestamp, so the next
  // document is never dismissed as stale.
  lemma UnconfirmedEndIsOpen(w: World, steps: seq<Step>, k: nat)
    requires Opening(w) && k < |Run(w, steps).rows| && Live(Run(w, steps).rows[k])
    ensures var c := Run(w, steps).rows[k]; Terminal(c.status) && c.cancelled.None? ==> c.updated.None?
  {
    hide Run;
    OpeningInv(w);
    RunInv(w, steps);
    RowOkAt(Run(w, steps), k);
  }

  // If cancel_all reports success, every contract known when its intent was committed has ended
  // at the provider, whatever other transactions ran in between, whichever row it lives in now
  // and in whatever order the rows were visited.
  lemma CancelAllMeansEnded(w: World, before: seq<Step>, between: seq<Step>, order: seq<nat>, answers: seq<CancelAnswer>,
                            k: nat)
    requires Opening(w)
    requires var known := Contracts(Run(w, before)).rows; k < |known| && Live(known[k])
    requires var c := Contracts(Run(Intent(Run(w, before)), between));
             Visits(order, |c.rows|) && |answers| == |order| && Round(c, order, answers).1
    ensures var c := Contracts(Run(Intent(Run(w, before)), between));
            k < |Round(c, order, answers).0.rows| && Ended(Round(c, order, answers).0, k)
  {
    hide Run, Round, Intent, Contracts, Inv, Ended;
    OpeningInv(w);
    RunInv(w, before);
    var v := Run(w, before);
    IntentInv(v);
    RunInv(Intent(v), between);
    var e := Run(Intent(v), between);
    ContractsInv(e);
    var c := Contracts(e);
    RoundInv(c, order, answers);
    var d := Round(c, order, answers).0;
    IntentKept(v, e, c, k);
    var h := Home(c.rows, k);
    assert h in order;
    assert Ended(d, h);
    EndedHome(c, d, k);
  }

  lemma IntentKept(v: World, e: World, c: World, k: nat)
    requires Inv(v) && k < |Contracts(v).rows| && Live(Contracts(v).rows[k])
    requires Follows(Intent(v), e) && Extends(e, c) && Inv(c)
    ensures k < |c.rows| && Home(c.rows, k) < |c.rows|
    ensures Live(c.rows[Home(c.rows, k)]) && c.rows[Home(c.rows, k)].cancelRequested.Some?
  {
    IntentInv(v);
    assert Kept(Intent(v).rows[k], e.rows[k]) && Kept(e.rows[k], c.rows[k]);
    RowOkAt(c, k);
  }

  lemma EndedHome(c: World, d: World, k: nat)
    requires Inv(c) && Extends(c, d) && k < |c.rows| && Home(c.rows, k) < |d.rows| && Ended(d, Home(c.rows, k))
    ensures k < |d.rows| && Ended(d, k)
  {
    RowOkAt(c, k);
    assert Kept(c.rows[k], d.rows[k]);
    if c.rows[k].merged.Some? {
      assert Kept(c.rows[c.rows[k].merged.value], d.rows[c.rows[k].merged.value]);
    }
  }

  // Every create call carries a reserved request id less than 71 hours old, and one id never
  // makes two provider contracts, whatever was lost, late or retried.
  lemma OneContractPerRequest(w: World, steps: seq<Step>, i: nat, m: nat, n: nat)
    requires Opening(w)
    requires var v := Run(w, steps); i < |v.sent| && m < |v.remote| && n < |v.remote|
    ensures var v := Run(w, steps);
            && v.sent[i].request < |v.requests|
            && 0 <= v.sent[i].at - v.requests[v.sent[i].request] < REPLAY_WINDOW
            && (v.remote[m].request.Some? && v.remote[m].request == v.remote[n].request ==> m == n)
  {
    hide Run, RowsOk;
    OpeningInv(w);
    RunInv(w, steps);
    var v := Run(w, steps);
    assert SentOk(v, v.sent[i]);
    if m != n { assert v.remote[if m < n then m else n].request.Some? ==> v.remote[m].request != v.remote[n].request; }
  }
}
