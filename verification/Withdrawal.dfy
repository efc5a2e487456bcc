/** Resumable deletion of a skin (skin_withdrawal.py): a manifest of storage keys is worked off
    by attempts that may fail or stop anywhere and commit their progress at most once. */
module Withdrawal {
  import opened Common

  type Key = nat

  // Progress is kept in the manifest; `invalidation` is set once the CDN accepted the request.
  datatype Manifest = Manifest(public: bool, keys: seq<Key>, deleted: seq<Key>, invalidation: bool)

  datatype Skin = Skin(
    isPublic: bool, assets: seq<Key>, tombstone: bool, deleted: bool, manifest: Option<Manifest>,
    store: set<Key>,             // objects still in the buckets
    cdn: Option<bool>,           // the invalidation under this skin's reference: completed or not
    domain: bool, distribution: bool)

  // A call that raises may have been executed.
  datatype Answer = Done | Lost | Refused

  // Answers to one attempt: a delete per key, the invalidation calls, and whether a final or an
  // interrupted attempt gets its transaction committed.
  datatype Attempt = Attempt(deletes: seq<Answer>, create: Answer, read: Answer, allowPending: bool, commits: bool)

  datatype Step = Begin(keys: seq<Key>, external: bool) | Resume(attempt: Attempt) | CdnCompletes

  // The storage loop from key k on; the flag is false when a call raised.
  function DeleteKeys(store: set<Key>, m: Manifest, k: nat, deletes: seq<Answer>): (r: (set<Key>, Manifest, bool))
    requires |deletes| == |m.keys|
    ensures r.1.keys == m.keys && r.1.public == m.public && r.1.invalidation == m.invalidation
    decreases |deletes| - k
  {
    if k >= |m.keys| then (store, m, true)
    else if m.keys[k] in m.deleted then DeleteKeys(store, m, k + 1, deletes)
    else
      match deletes[k]
      case Done => DeleteKeys(store - {m.keys[k]}, m.(deleted := m.deleted + [m.keys[k]]), k + 1, deletes)
      case Lost => (store - {m.keys[k]}, m, false)
      case Refused => (store, m, false)
  }

  predicate NeedsCdn(s: Skin, m: Manifest) { m.public && m.keys != [] && s.domain }

  // A transaction that ends with the manifest: the storage and the CDN keep what was done.
  function Kept(s: Skin, store: set<Key>, cdn: Option<bool>, m: Manifest, commits: bool): Skin {
    s.(store := store, cdn := cdn, manifest := if commits then Some(m) else s.manifest)
  }

  function Finished(s: Skin, store: set<Key>, cdn: Option<bool>, commits: bool): Skin {
    var after := s.(store := store, cdn := cdn);
    if commits then after.(deleted := true, assets := [], manifest := None) else after
  }

  // The CDN half of resume.
  function AfterStorage(s: Skin, store: set<Key>, m: Manifest, a: Attempt): Skin {
    if !NeedsCdn(s, m) then Finished(s, store, s.cdn, a.commits)
    else if !s.distribution then Kept(s, store, s.cdn, m, a.commits)
    else
      var created := if !m.invalidation && a.create != Refused && s.cdn.None? then Some(false) else s.cdn;
      if !m.invalidation && a.create != Done then Kept(s, store, created, m, a.commits)
      else
        var known := m.(invalidation := true);
        if a.read != Done || (created != Some(true) && !a.allowPending) then Kept(s, store, created, known, a.commits)
        else Finished(s, store, created, a.commits)
  }

  function Resumed(s: Skin, a: Attempt): Skin {
    if s.manifest.None? || |a.deletes| != |s.manifest.value.keys| then s
    else
      var (store, m, ok) := DeleteKeys(s.store, s.manifest.value, 0, a.deletes);
      if !ok then Kept(s, store, s.cdn, m, a.commits) else AfterStorage(s, store, m, a)
  }

  predicate SameKeys(a: seq<Key>, b: seq<Key>) {
    (forall k :: k in a ==> k in b) && (forall k :: k in b ==> k in a)
  }

  // begin: the manifest holds every asset once. `keys` is the sorted set of the asset fields.
  function Begun(s: Skin, keys: seq<Key>, external: bool): Skin {
    if s.manifest.Some? || external || !SameKeys(keys, s.assets) then s
    else s.(tombstone := true, manifest := Some(Manifest(s.isPublic, keys, [], false)))
  }

  function Do(s: Skin, t: Step): Skin {
    match t
    case Begin(keys, external) => Begun(s, keys, external)
    case Resume(a) => Resumed(s, a)
    case CdnCompletes => if s.cdn.Some? then s.(cdn := Some(true)) else s
  }

  function Run(s: Skin, steps: seq<Step>): Skin
    decreases |steps|
  {
    if steps == [] then s else Run(Do(s, steps[0]), steps[1..])
  }

  // ---- invariants ----

  // Recorded progress never overstates what is gone.
  predicate Honest(s: Skin) {
    s.manifest.Some? ==>
      && (forall k :: k in s.manifest.value.deleted ==> k !in s.store && k in s.manifest.value.keys)
      && (s.manifest.value.invalidation ==> s.cdn.Some?)
  }

  // Keys not yet recorded as deleted.
  function Remaining(keys: seq<Key>, deleted: seq<Key>): nat {
    if keys == [] then 0 else (if keys[0] in deleted then 0 else 1) + Remaining(keys[1..], deleted)
  }

  lemma RemainingShrinks(keys: seq<Key>, deleted: seq<Key>, more: seq<Key>)
    requires forall k :: k in deleted ==> k in more
    ensures Remaining(keys, more) <= Remaining(keys, deleted)
    ensures (exists k :: k in keys && k !in deleted && k in more) ==> Remaining(keys, more) < Remaining(keys, deleted)
  {
    if keys != [] { RemainingShrinks(keys[1..], deleted, more); }
  }

  lemma {:induction false} DeleteKeysHonest(store: set<Key>, m: Manifest, k: nat, deletes: seq<Answer>)
    requires |deletes| == |m.keys|
    requires forall x :: x in m.deleted ==> x !in store && x in m.keys
    requires forall j :: 0 <= j < k && j < |m.keys| ==> m.keys[j] in m.deleted
    ensures var (after, n, ok) := DeleteKeys(store, m, k, deletes);
            && after <= store
            && (forall x :: x in m.deleted ==> x in n.deleted)
            && (forall x :: x in n.deleted ==> x !in after && x in m.keys)
            && (ok ==> forall x :: x in m.keys ==> x in n.deleted)
    decreases |deletes| - k
  {
    if k < |m.keys| {
      if m.keys[k] in m.deleted {
        DeleteKeysHonest(store, m, k + 1, deletes);
      } else if deletes[k].Done? {
        DeleteKeysHonest(store - {m.keys[k]}, m.(deleted := m.deleted + [m.keys[k]]), k + 1, deletes);
      }
    }
  }

  // The withdrawal of these keys is over: every one is gone and the CDN is clear. A request that
  // is repeated afterwards finds no asset left.
  predicate Over(s: Skin, public: bool, keys: seq<Key>, waived: bool) {
    && s.deleted && s.assets == [] && (forall k :: k in keys ==> k !in s.store)
    && (public && keys != [] && s.domain && !waived ==> s.cdn == Some(true))
    && (s.manifest.Some? ==> s.manifest.value.keys == [])
  }

  predicate Pending(s: Skin, public: bool, keys: seq<Key>) {
    s.manifest.Some? && s.manifest.value.keys == keys && s.manifest.value.public == public
  }

  predicate Underway(s: Skin, public: bool, keys: seq<Key>, waived: bool) {
    Honest(s) && (Pending(s, public, keys) || Over(s, public, keys, waived))
  }

  // An attempt by someone who may leave the CDN pending.
  predicate Waives(t: Step) { t.Resume? && t.attempt.allowPending }

  lemma KeptUnderway(s: Skin, store: set<Key>, cdn: Option<bool>, m: Manifest, commits: bool, public: bool, keys: seq<Key>)
    requires Honest(s) && s.manifest.Some? && s.manifest.value.keys == keys && s.manifest.value.public == public
    requires store <= s.store && (s.cdn.Some? ==> cdn.Some?)
    requires m.keys == keys && m.public == public && (m.invalidation ==> cdn.Some?)
    requires forall x :: x in m.deleted ==> x !in store && x in keys
    ensures var k := Kept(s, store, cdn, m, commits);
            Underway(k, public, keys, false) && Underway(k, public, keys, true) && k.domain == s.domain && k.manifest.Some?
  {
  }

  lemma FinishedUnderway(s: Skin, store: set<Key>, cdn: Option<bool>, commits: bool, public: bool, keys: seq<Key>, waived: bool)
    requires Honest(s) && Pending(s, public, keys) && store <= s.store && (s.cdn.Some? ==> cdn.Some?)
    requires forall x :: x in keys ==> x !in store
    requires public && keys != [] && s.domain && !waived ==> cdn == Some(true)
    ensures var f := Finished(s, store, cdn, commits); Underway(f, public, keys, waived) && f.domain == s.domain
  {
  }

  lemma AfterStorageUnderway(s: Skin, store: set<Key>, m: Manifest, a: Attempt, public: bool, keys: seq<Key>, waived: bool)
    requires Honest(s) && Pending(s, public, keys) && store <= s.store
    requires m.keys == keys && m.public == public && (m.invalidation ==> s.cdn.Some?)
    requires (forall x :: x in keys ==> x in m.deleted) && forall x :: x in m.deleted ==> x !in store && x in keys
    ensures var d := AfterStorage(s, store, m, a);
            Underway(d, public, keys, waived || a.allowPending) && d.domain == s.domain
  {
    hide Kept, Finished;
    var created := if !m.invalidation && a.create != Refused && s.cdn.None? then Some(false) else s.cdn;
    KeptUnderway(s, store, s.cdn, m, a.commits, public, keys);
    KeptUnderway(s, store, created, m, a.commits, public, keys);
    if !NeedsCdn(s, m) {
      FinishedUnderway(s, store, s.cdn, a.commits, public, keys, waived || a.allowPending);
    } else if m.invalidation || a.create == Done {
      KeptUnderway(s, store, created, m.(invalidation := true), a.commits, public, keys);
      if created == Some(true) || a.allowPending {
        FinishedUnderway(s, store, created, a.commits, public, keys, waived || a.allowPending);
      }
    }
  }

  lemma ResumeUnderway(s: Skin, a: Attempt, public: bool, keys: seq<Key>, waived: bool)
    requires Honest(s) && Pending(s, public, keys)
    ensures Underway(Resumed(s, a), public, keys, waived || a.allowPending) && Resumed(s, a).domain == s.domain
  {
    hide AfterStorage, DeleteKeys, Kept;
    if |a.deletes| == |keys| {
      DeleteKeysHonest(s.store, s.manifest.value, 0, a.deletes);
      var (store, m, ok) := DeleteKeys(s.store, s.manifest.value, 0, a.deletes);
      if ok {
        AfterStorageUnderway(s, store, m, a, public, keys, waived);
      } else {
        KeptUnderway(s, store, s.cdn, m, a.commits, public, keys);
      }
    }
  }

  // Whatever is requested or retried afterwards, an ended withdrawal stays ended.
  lemma OverStays(s: Skin, t: Step, public: bool, keys: seq<Key>, waived: bool)
    requires Honest(s) && Over(s, public, keys, waived)
    ensures Honest(Do(s, t)) && Over(Do(s, t), public, keys, waived || Waives(t)) && Do(s, t).domain == s.domain
  {
    match t {
      case Begin(ks, external) => if ks != [] { assert ks[0] in ks; }
      case _ =>
    }
  }

  lemma StepUnderway(s: Skin, t: Step, public: bool, keys: seq<Key>, waived: bool)
    requires Underway(s, public, keys, waived)
    ensures Underway(Do(s, t), public, keys, waived || Waives(t)) && Do(s, t).domain == s.domain
  {
    hide Resumed, Over;
    if Over(s, public, keys, waived) { OverStays(s, t, public, keys, waived); }
    else if t.Resume? { ResumeUnderway(s, t.attempt, public, keys, waived); }
  }

  predicate Waived(steps: seq<Step>) { exists i :: 0 <= i < |steps| && Waives(steps[i]) }

  lemma {:induction false} RunUnderway(s: Skin, steps: seq<Step>, public: bool, keys: seq<Key>, waived: bool)
    requires Underway(s, public, keys, waived)
    ensures Underway(Run(s, steps), public, keys, waived || Waived(steps)) && Run(s, steps).domain == s.domain
    decreases |steps|
  {
    hide Underway, Do;
    if steps != [] {
      StepUnderway(s, steps[0], public, keys, waived);
      RunUnderway(Do(s, steps[0]), steps[1..], public, keys, waived || Waives(steps[0]));
      assert Waived(steps) <==> Waives(steps[0]) || Waived(steps[1..]) by {
        if Waived(steps) && !Waives(steps[0]) {
          var i :| 0 <= i < |steps| && Waives(steps[i]);
          assert steps[1..][i - 1] == steps[i];
        }
        if Waived(steps[1..]) {
          var i :| 0 <= i < |steps[1..]| && Waives(steps[1..][i]);
          assert steps[i + 1] == steps[1..][i];
        }
      }
    }
  }

  // After any failures, crashes, retries and repeated requests: a skin whose withdrawal is over
  // has no manifest key left in storage, and its CDN invalidation is complete unless an attempt
  // was told not to wait.
  lemma DeletedMeansGone(s: Skin, keys: seq<Key>, steps: seq<Step>)
    requires s.manifest.None? && Begun(s, keys, false).manifest.Some?
    ensures var e := Run(Begun(s, keys, false), steps);
            && (e.manifest.None? ==> e.deleted && e.assets == [] && forall k :: k in s.assets ==> k !in e.store)
            && (e.manifest.None? && s.isPublic && keys != [] && s.domain && !Waived(steps) ==> e.cdn == Some(true))
            && (e.manifest.Some? ==>
                  && (e.manifest.value.keys == keys || (e.deleted && forall k :: k in s.assets ==> k !in e.store))
                  && forall k :: k in e.manifest.value.deleted ==> k !in e.store)
  {
    hide Run;
    var b := Begun(s, keys, false);
    RunUnderway(b, steps, s.isPublic, keys, false);
  }

  // Committed attempts never undo progress, and one whose first open key is deleted makes some.
  lemma CommittedProgress(s: Skin, a: Attempt, k: nat)
    requires Honest(s) && s.manifest.Some? && a.commits && |a.deletes| == |s.manifest.value.keys|
    requires k < |s.manifest.value.keys| && s.manifest.value.keys[k] !in s.manifest.value.deleted && a.deletes[k].Done?
    requires forall j :: 0 <= j < k ==> s.manifest.value.keys[j] in s.manifest.value.deleted
    ensures Resumed(s, a).manifest.Some? ==>
              var (m, n) := (s.manifest.value, Resumed(s, a).manifest.value);
              n.keys == m.keys && Remaining(n.keys, n.deleted) < Remaining(m.keys, m.deleted)
  {
    hide DeleteKeys;
    var m := s.manifest.value;
    var (store, n, ok) := DeleteKeys(s.store, m, 0, a.deletes);
    DeleteKeysHonest(s.store, m, 0, a.deletes);
    FirstOpen(s.store, m, 0, k, a.deletes);
    RemainingShrinks(m.keys, m.deleted, n.deleted);
  }

  lemma {:induction false} FirstOpen(store: set<Key>, m: Manifest, i: nat, k: nat, deletes: seq<Answer>)
    requires |deletes| == |m.keys| && i <= k < |m.keys| && m.keys[k] !in m.deleted && deletes[k].Done?
    requires forall j :: 0 <= j < k ==> m.keys[j] in m.deleted
    requires forall x :: x in m.deleted ==> x !in store && x in m.keys
    ensures m.keys[k] in DeleteKeys(store, m, i, deletes).1.deleted
    decreases k - i
  {
    if i < k {
      FirstOpen(store, m, i + 1, k, deletes);
    } else {
      DeleteKeysHonest(store - {m.keys[k]}, m.(deleted := m.deleted + [m.keys[k]]), k + 1, deletes);
    }
  }

  // ---- working attempts finish ----

  // The first open key can be deleted, the CDN answers, and what was done is committed.
  predicate Working(s: Skin, a: Attempt) {
    && s.manifest.Some? && a.commits && |a.deletes| == |s.manifest.value.keys|
    && (forall k :: 0 <= k < |a.deletes| && FirstOpenKey(s.manifest.value, k) ==> a.deletes[k].Done?)
    && (NeedsCdn(s, s.manifest.value) ==>
          && s.distribution && (s.manifest.value.invalidation || a.create == Done) && a.read == Done
          && (a.allowPending || s.cdn == Some(true)))
  }

  predicate FirstOpenKey(m: Manifest, k: nat)
    requires k < |m.keys|
  {
    m.keys[k] !in m.deleted && forall j :: 0 <= j < k ==> m.keys[j] in m.deleted
  }

  function WorkingIn(s: Skin, steps: seq<Step>): nat
    decreases |steps|
  {
    if steps == [] then 0
    else (if steps[0].Resume? && Working(s, steps[0].attempt) then 1 else 0) + WorkingIn(Do(s, steps[0]), steps[1..])
  }

  function Left(s: Skin): nat
    requires s.manifest.Some?
  {
    Remaining(s.manifest.value.keys, s.manifest.value.deleted)
  }

  lemma {:induction false} SomeFirstOpen(m: Manifest, k: nat) returns (i: nat)
    requires k <= |m.keys| && forall j :: 0 <= j < k ==> m.keys[j] in m.deleted
    requires Remaining(m.keys[k..], m.deleted) > 0
    ensures i < |m.keys| && FirstOpenKey(m, i)
    decreases |m.keys| - k
  {
    if m.keys[k] !in m.deleted { i := k; } else { assert m.keys[k..][1..] == m.keys[k + 1..]; i := SomeFirstOpen(m, k + 1); }
  }

  lemma NoneRemain(keys: seq<Key>, deleted: seq<Key>)
    ensures Remaining(keys, deleted) == 0 ==> forall k :: k in keys ==> k in deleted
    ensures Remaining(keys, deleted) <= |keys|
  {
    if keys != [] { NoneRemain(keys[1..], deleted); }
  }

  lemma {:induction false} NothingToDelete(store: set<Key>, m: Manifest, k: nat, deletes: seq<Answer>)
    requires |deletes| == |m.keys| && forall x :: x in m.keys ==> x in m.deleted
    ensures DeleteKeys(store, m, k, deletes) == (store, m, true)
    decreases |deletes| - k
  {
    if k < |m.keys| { NothingToDelete(store, m, k + 1, deletes); }
  }

  // With no key left, a working attempt ends the withdrawal.
  lemma LastAttempt(s: Skin, a: Attempt)
    requires s.manifest.Some? && Left(s) == 0 && Working(s, a)
    ensures Resumed(s, a).manifest.None?
  {
    NoneRemain(s.manifest.value.keys, s.manifest.value.deleted);
    NothingToDelete(s.store, s.manifest.value, 0, a.deletes);
  }

  // No step undoes progress, and a working attempt makes some or ends the withdrawal.
  lemma StepProgress(s: Skin, t: Step, public: bool, keys: seq<Key>)
    requires Honest(s) && Pending(s, public, keys) && Pending(Do(s, t), public, keys)
    ensures Left(Do(s, t)) <= Left(s)
    ensures t.Resume? && Working(s, t.attempt) ==> Left(Do(s, t)) < Left(s)
  {
    hide Resumed, Remaining;
    if t.Resume? && |t.attempt.deletes| == |keys| {
      ResumeKeeps(s, t.attempt);
      RemainingShrinks(keys, s.manifest.value.deleted, Resumed(s, t.attempt).manifest.value.deleted);
      if Working(s, t.attempt) {
        if Left(s) == 0 { LastAttempt(s, t.attempt); }
        assert s.manifest.value.keys[0..] == s.manifest.value.keys;
        var k := SomeFirstOpen(s.manifest.value, 0);
        CommittedProgress(s, t.attempt, k);
      }
    } else {
      SameResume(s, t);
    }
  }

  lemma SameResume(s: Skin, t: Step)
    requires s.manifest.Some? && (t.Resume? ==> |t.attempt.deletes| != |s.manifest.value.keys|)
    ensures Do(s, t).manifest == s.manifest
  {
  }

  lemma ResumeKeeps(s: Skin, a: Attempt)
    requires Honest(s) && s.manifest.Some? && |a.deletes| == |s.manifest.value.keys|
    ensures Resumed(s, a).manifest.Some? ==> forall x :: x in s.manifest.value.deleted ==> x in Resumed(s, a).manifest.value.deleted
  {
    hide DeleteKeys;
    DeleteKeysHonest(s.store, s.manifest.value, 0, a.deletes);
  }

  lemma {:induction false} RunProgress(s: Skin, steps: seq<Step>, public: bool, keys: seq<Key>)
    requires Honest(s) && Pending(s, public, keys) && WorkingIn(s, steps) > Left(s)
    ensures Over(Run(s, steps), public, keys, true)
    decreases |steps|
  {
    hide Do, Over, Working, Left, Honest;
    if steps != [] {
      var (t, next) := (steps[0], Do(s, steps[0]));
      StepUnderway(s, t, public, keys, true);
      if Over(next, public, keys, true) {
        RunOver(next, steps[1..], public, keys);
      } else {
        StepProgress(s, t, public, keys);
        RunProgress(next, steps[1..], public, keys);
      }
    }
  }

  lemma {:induction false} RunOver(s: Skin, steps: seq<Step>, public: bool, keys: seq<Key>)
    requires Honest(s) && Over(s, public, keys, true)
    ensures Over(Run(s, steps), public, keys, true)
    decreases |steps|
  {
    hide Do, Over, Honest;
    if steps != [] {
      OverStays(s, steps[0], public, keys, true);
      RunOver(Do(s, steps[0]), steps[1..], public, keys);
    }
  }

  // A run with one more working attempt than the manifest has keys ends the withdrawal, whatever
  // fails, crashes or is requested again in between.
  lemma WorkingAttemptsFinish(s: Skin, keys: seq<Key>, steps: seq<Step>)
    requires s.manifest.None? && Begun(s, keys, false).manifest.Some?
    requires WorkingIn(Begun(s, keys, false), steps) > |keys|
    ensures var e := Run(Begun(s, keys, false), steps);
            e.deleted && e.assets == [] && forall k :: k in s.assets ==> k !in e.store
  {
    hide Run, WorkingIn;
    var b := Begun(s, keys, false);
    NoneRemain(keys, []);
    RunProgress(b, steps, s.isPublic, keys);
  }

  // ---- the handler ----

  class Desk {
    var skin: Skin

    constructor (s: Skin)
      ensures skin == s
    {
      skin := s;
    }

    // One attempt over storage; progress is written after every key.
    method DeleteObjects(deletes: seq<Answer>) returns (m: Manifest, ok: bool)
      requires skin.manifest.Some? && |deletes| == |skin.manifest.value.keys|
      modifies this
      ensures (skin.store, m, ok) == old(DeleteKeys(skin.store, skin.manifest.value, 0, deletes))
      ensures skin == old(skin).(store := skin.store)
    {
      m := skin.manifest.value;
      ghost var start := DeleteKeys(skin.store, m, 0, deletes);
      for k := 0 to |m.keys|
        invariant m.keys == old(skin).manifest.value.keys && |deletes| == |m.keys|
        invariant skin == old(skin).(store := skin.store)
        invariant DeleteKeys(skin.store, m, k, deletes) == start
      {
        var key := m.keys[k];
        if key !in m.deleted {
          if deletes[k] == Refused { return m, false; }
          skin := skin.(store := skin.store - {key});
          if deletes[k] == Lost { return m, false; }
          m := m.(deleted := m.deleted + [key]);
        }
      }
      return m, true;
    }

    method ResumeWithdrawal(a: Attempt) returns (over: bool)
      requires skin.manifest.Some? ==> |a.deletes| == |skin.manifest.value.keys|
      modifies this
      ensures skin == Do(old(skin), Resume(a))
      ensures over ==> skin.manifest.None?
    {
      if skin.manifest.None? { return true; }
      var m, ok := DeleteObjects(a.deletes);
      if ok && m.public && m.keys != [] && skin.domain {
        ok := skin.distribution;
        if ok && !m.invalidation {
          if a.create != Refused && skin.cdn.None? { skin := skin.(cdn := Some(false)); }
          ok := a.create == Done;
          if ok { m := m.(invalidation := true); }
        }
        if ok { ok := a.read == Done && (skin.cdn == Some(true) || a.allowPending); }
      }
      if a.commits {
        if ok {
          skin := skin.(deleted := true, assets := [], manifest := None);
        } else {
          skin := skin.(manifest := Some(m));
        }
      }
      return ok && a.commits;
    }
  }
}
