/** When a withdrawal begins, what ends it, and what it waits for (skin_withdrawal.py:29-120). */
module WithdrawalLaws {
  import opened Common
  import opened Withdrawal

  // A skin without a manifest and without external files gets one over exactly its files; its tombstone
  // is set before anything is deleted. Otherwise nothing happens.
  lemma BeginsIff(s: Skin, keys: seq<Key>, external: bool)
    requires forall k :: k in keys <==> k in s.assets
    ensures Do(s, Begin(keys, external)) ==
            if s.manifest.None? && !external
            then s.(tombstone := true, manifest := Some(Manifest(s.isPublic, keys, [], false)))
            else s
  {
  }

  predicate AllDone(a: Attempt, n: nat) { |a.deletes| == n && (forall k :: 0 <= k < n ==> a.deletes[k] == Done) && a.commits }

  lemma {:induction false} DeletesAll(store: set<Key>, m: Manifest, k: nat, deletes: seq<Answer>)
    requires |deletes| == |m.keys| && (forall j :: 0 <= j < |m.keys| ==> deletes[j] == Done)
    requires forall x :: x in m.deleted ==> x !in store
    requires forall j :: 0 <= j < k && j < |m.keys| ==> m.keys[j] in m.deleted
    ensures var (after, n, ok) := DeleteKeys(store, m, k, deletes);
            && ok && n.keys == m.keys && (forall x :: x in m.keys ==> x in n.deleted)
            && (forall x :: x in after <==> x in store && !(exists j :: k <= j < |m.keys| && m.keys[j] == x && m.keys[j] in m.keys))
    decreases |deletes| - k
  {
    if k < |m.keys| {
      var x := m.keys[k];
      if x in m.deleted {
        DeletesAll(store, m, k + 1, deletes);
      } else {
        DeletesAll(store - {x}, m.(deleted := m.deleted + [x]), k + 1, deletes);
      }
    }
  }

  // Where no CDN copy can exist, one attempt whose deletions all succeed ends the withdrawal: the files
  // are gone from storage, and so are the references.
  lemma StorageSuffices(s: Skin, a: Attempt)
    requires Honest(s) && s.manifest.Some? && AllDone(a, |s.manifest.value.keys|)
    requires !s.manifest.value.public || s.manifest.value.keys == [] || !s.domain
    ensures var v := Do(s, Resume(a));
            && v.deleted && v.manifest.None? && v.assets == [] && v.cdn == s.cdn
            && forall x :: x in v.store <==> x in s.store && x !in s.manifest.value.keys
  {
    hide DeleteKeys;
    DeletesAll(s.store, s.manifest.value, 0, a.deletes);
    Named(s.manifest.value.keys);
  }

  lemma Named(keys: seq<Key>)
    ensures forall x :: x in keys <==> exists j :: 0 <= j < |keys| && keys[j] == x && keys[j] in keys
  {
  }

  // A published skin waits for the CDN: with its invalidation created but not complete it is withdrawn
  // only by an attempt that may leave it pending; otherwise the manifest stays, with every key done.
  lemma PublishedWaits(s: Skin, a: Attempt)
    requires Honest(s) && s.manifest.Some? && AllDone(a, |s.manifest.value.keys|)
    requires s.manifest.value.public && s.manifest.value.keys != [] && s.domain && s.distribution
    requires (s.manifest.value.invalidation || a.create == Done) && a.read == Done
    ensures var v := Do(s, Resume(a));
            && (v.manifest.None? <==> a.allowPending || s.cdn == Some(true))
            && (v.manifest.None? ==> v.deleted)
            && v.cdn == (if s.cdn.Some? then s.cdn else Some(false))
            && (v.manifest.Some? ==>
                  && v.manifest.value.keys == s.manifest.value.keys && v.manifest.value.invalidation
                  && forall x :: x in s.manifest.value.keys ==> x in v.manifest.value.deleted && x !in v.store)
  {
    hide DeleteKeys;
    DeletesAll(s.store, s.manifest.value, 0, a.deletes);
    DeleteKeysHonest(s.store, s.manifest.value, 0, a.deletes);
  }

  // Without a configured distribution a published skin is not withdrawn at all, but its progress is kept.
  lemma NoDistribution(s: Skin, a: Attempt)
    requires Honest(s) && s.manifest.Some? && AllDone(a, |s.manifest.value.keys|)
    requires s.manifest.value.public && s.manifest.value.keys != [] && s.domain && !s.distribution
    ensures var v := Do(s, Resume(a));
            && v.manifest.Some? && v.deleted == s.deleted && v.cdn == s.cdn
            && forall x :: x in s.manifest.value.keys ==> x in v.manifest.value.deleted
  {
    hide DeleteKeys;
    DeletesAll(s.store, s.manifest.value, 0, a.deletes);
  }

  // The invalidation completes at the CDN, and only once it was requested.
  lemma Completes(s: Skin)
    ensures Do(s, CdnCompletes).cdn == if s.cdn.Some? then Some(true) else None
  {
  }

  // A published skin from the request to the end: deleted and invalidated, then complete.
  lemma PublishedEndsGone(s: Skin, keys: seq<Key>, first: Attempt, last: Attempt)
    requires s.manifest.None? && s.isPublic && keys != [] && s.domain && s.distribution && forall k :: k in keys <==> k in s.assets
    requires AllDone(first, |keys|) && first.create == Done && first.read == Done && !first.allowPending && s.cdn.None?
    requires AllDone(last, |keys|) && last.read == Done
    ensures var v := Run(s, [Begin(keys, false), Resume(first), CdnCompletes, Resume(last)]);
            && v.deleted && v.manifest.None? && v.assets == [] && v.tombstone && v.cdn == Some(true)
            && forall x :: x in keys ==> x !in v.store
  {
    hide Resumed, Honest;
    var steps := [Begin(keys, false), Resume(first), CdnCompletes, Resume(last)];
    BeginsIff(s, keys, false);
    var s1 := Do(s, steps[0]);
    FreshHonest(s1, keys);
    PublishedWaits(s1, first);
    StepUnderway(s1, steps[1], true, keys, false);
    var s2 := Do(s1, steps[1]);
    Unchanged(s1, first);
    var s3 := Do(s2, steps[2]);
    StepUnderway(s2, steps[2], true, keys, false);
    PublishedWaits(s3, last);
    StepUnderway(s3, steps[3], true, keys, false);
    Unchanged(s3, last);
    UnfoldFour(s, steps);
  }

  lemma FreshHonest(s: Skin, keys: seq<Key>)
    requires s.manifest == Some(Manifest(true, keys, [], false))
    ensures Honest(s) && Underway(s, true, keys, false)
  {
  }

  // What no attempt touches.
  predicate SameSkin(s: Skin, v: Skin, public: bool) {
    && v.tombstone == s.tombstone && v.domain == s.domain && v.distribution == s.distribution
    && (if v.manifest.Some? then v.manifest.value.public == public else v.assets == [])
  }

  lemma AfterSame(s: Skin, store: set<Key>, m: Manifest, a: Attempt, public: bool)
    requires s.manifest.Some? && s.manifest.value.public == m.public == public
    ensures SameSkin(s, AfterStorage(s, store, m, a), public)
  {
  }

  lemma Unchanged(s: Skin, a: Attempt)
    requires s.manifest.Some?
    ensures SameSkin(s, Do(s, Resume(a)), s.manifest.value.public)
  {
    hide DeleteKeys, AfterStorage;
    if |a.deletes| == |s.manifest.value.keys| {
      var (store, m, ok) := DeleteKeys(s.store, s.manifest.value, 0, a.deletes);
      AfterSame(s, store, m, a, m.public);
    }
  }

  lemma UnfoldFour(s: Skin, steps: seq<Step>)
    requires |steps| == 4
    ensures Run(s, steps) == Do(Do(Do(Do(s, steps[0]), steps[1]), steps[2]), steps[3])
  {
    hide Do;
    var a, b, c := steps[1..], steps[2..], steps[3..];
    assert a[1..] == b && b[1..] == c && c[1..] == [];
    var s1 := Do(s, steps[0]);
    var s2 := Do(s1, a[0]);
    var s3 := Do(s2, b[0]);
    assert Run(s3, c) == Run(Do(s3, c[0]), []);
    assert Run(s2, b) == Run(s3, c) && Run(s1, a) == Run(s2, b);
  }
}
