/** Overlapping synchronisation windows (routers/ledger.py): however often a record is fetched
    again, it is one row in its latest version, and the published totals count it once. */
module LedgerWindows {
  import opened Common
  import opened Tables
  import opened Ledger

  function SyncAll(table: seq<Record>, windows: seq<seq<Record>>): seq<Record>
    decreases |windows|
  {
    if windows == [] then table else SyncAll(Sync(table, windows[0]), windows[1..])
  }

  function Flat(windows: seq<seq<Record>>): seq<Record> {
    if windows == [] then [] else windows[0] + Flat(windows[1..])
  }

  lemma {:induction false} SyncConcat(table: seq<Record>, a: seq<Record>, b: seq<Record>)
    ensures Sync(table, a + b) == Sync(Sync(table, a), b)
    decreases |a|
  {
    hide Upsert;
    if a == [] {
      assert a + b == b;
    } else {
      assert (a + b)[1..] == a[1..] + b;
      SyncConcat(Upsert(table, a[0]), a[1..], b);
    }
  }

  lemma {:induction false} SyncAllFlat(table: seq<Record>, windows: seq<seq<Record>>)
    ensures SyncAll(table, windows) == Sync(table, Flat(windows))
    decreases |windows|
  {
    hide Upsert;
    if windows != [] {
      SyncAllFlat(Sync(table, windows[0]), windows[1..]);
      SyncConcat(table, windows[0], Flat(windows[1..]));
    }
  }

  // A table without duplicates is what synchronising its own rows into an empty one gives.
  lemma {:induction false} SyncFresh(table: seq<Record>, more: seq<Record>)
    requires Unique(table + more)
    ensures Sync(table, more) == table + more
    decreases |more|
  {
    if more != [] {
      assert (table + more)[|table|] == more[0];
      assert forall j :: 0 <= j < |table| ==> (table + more)[j] == table[j];
      assert IndexOf(table, more[0]) == |table|;
      assert table + [more[0]] + more[1..] == table + more;
      SyncFresh(table + [more[0]], more[1..]);
    } else {
      assert table + more == table;
    }
  }

  lemma {:induction false} SyncSources(table: seq<Record>, batch: seq<Record>, r: Record)
    requires r in Sync(table, batch)
    ensures r in table || r in batch
    decreases |batch|
  {
    if batch != [] { SyncSources(Upsert(table, batch[0]), batch[1..], r); }
  }

  // ---- a window that brings nothing new ----

  // A synchronisation leaves the table as it is exactly when the last version of each record it
  // brings is stored already.
  lemma NothingNewIff(table: seq<Record>, batch: seq<Record>)
    requires Unique(table)
    ensures Sync(table, batch) == table <==> forall b :: b in batch ==> Latest(batch, b) in table
  {
    if forall b :: b in batch ==> Latest(batch, b) in table {
      StoredKeeps(table, batch);
    }
    if Sync(table, batch) == table {
      forall b | b in batch ensures Latest(batch, b) in table {
        SyncCovers(table, batch, b);
        var k :| 0 <= k < |table| && SameExternal(table[k], b);
        SyncAt(table, batch, k);
        LatestSame(batch, b);
      }
    }
  }

  lemma StoredKeeps(table: seq<Record>, batch: seq<Record>)
    requires Unique(table) && forall b :: b in batch ==> Latest(batch, b) in table
    ensures Sync(table, batch) == table
  {
    forall b | b in batch ensures Has(table, b) {
      LatestSame(batch, b);
      var k :| 0 <= k < |table| && table[k] == Latest(batch, b);
      assert SameExternal(table[k], b);
    }
    SyncSameLength(table, batch);
    forall k | 0 <= k < |table| ensures Sync(table, batch)[k] == table[k] {
      SyncAt(table, batch, k);
      if exists b :: b in batch && SameExternal(b, table[k]) {
        var b :| b in batch && SameExternal(b, table[k]);
        LatestSame(batch, b);
        assert Latest(batch, table[k]) == Latest(batch, b);
      } else {
        LatestNone(batch, table[k]);
      }
    }
  }

  lemma LatestNone(batch: seq<Record>, r: Record)
    requires forall b :: b in batch ==> !SameExternal(b, r)
    ensures Latest(batch, r) == r
  {
    if batch != [] { LatestNone(batch[1..], r); }
  }

  // ---- each record once ----

  // One representative of every record, in any order.
  ghost predicate Covers(keys: seq<Record>, all: seq<Record>) {
    Unique(keys) && (forall r :: r in all ==> Has(keys, r)) && (forall r :: r in keys ==> Has(all, r))
  }

  function LatestWeight(f: Record -> int, all: seq<Record>): Record -> int { (r: Record) => f(Latest(all, r)) }

  ghost predicate SameRecords(a: seq<Record>, b: seq<Record>) {
    (forall r :: r in a ==> Has(b, r)) && (forall r :: r in b ==> Has(a, r))
  }

  ghost predicate Respects(g: Record -> int, all: seq<Record>) {
    forall p, q :: SameExternal(p, q) && Has(all, p) ==> g(p) == g(q)
  }

  lemma LatestRespects(f: Record -> int, all: seq<Record>)
    ensures Respects(LatestWeight(f, all), all)
  {
    forall p, q | SameExternal(p, q) && Has(all, p) ensures f(Latest(all, p)) == f(Latest(all, q)) {
      LatestSame(all, p);
      var k :| 0 <= k < |all| && SameExternal(all[k], p);
      assert all[k] in all;
    }
  }

  // Two duplicate-free listings of the same records have the same sum.
  lemma {:induction false} SameSum(g: Record -> int, all: seq<Record>, a: seq<Record>, b: seq<Record>)
    requires Unique(a) && Unique(b) && SameRecords(a, b) && Respects(g, all)
    requires forall r :: r in a ==> Has(all, r)
    ensures Sum(g, a) == Sum(g, b)
    decreases |a|
  {
    if a == [] {
      if b != [] { SomeMatch(a, b); }
    } else {
      assert a[0] in a && Has(b, a[0]);
      var k :| 0 <= k < |b| && SameExternal(b[k], a[0]);
      SumRemove(g, b, k);
      Dropped(a, b, k);
      SameSum(g, all, a[1..], b[..k] + b[k + 1..]);
    }
  }

  lemma SomeMatch(a: seq<Record>, b: seq<Record>)
    requires SameRecords(a, b) && b != []
    ensures a != []
  {
    assert b[0] in b;
  }

  lemma Dropped(a: seq<Record>, b: seq<Record>, k: nat)
    requires Unique(a) && Unique(b) && SameRecords(a, b) && a != [] && k < |b| && SameExternal(b[k], a[0])
    ensures var rest := b[..k] + b[k + 1..]; Unique(a[1..]) && Unique(rest) && SameRecords(a[1..], rest)
  {
    var rest := b[..k] + b[k + 1..];
    assert forall j :: 0 <= j < |rest| ==> rest[j] == b[if j < k then j else j + 1];
    forall r | r in a[1..] ensures Has(rest, r) {
      var i :| 0 <= i < |a[1..]| && a[1..][i] == r;
      assert a[i + 1] == r && Has(b, r);
      var j :| 0 <= j < |b| && SameExternal(b[j], r);
      assert rest[if j < k then j else j - 1] == b[j];
    }
    forall r | r in rest ensures Has(a[1..], r) {
      var j :| 0 <= j < |rest| && rest[j] == r;
      assert r in b && Has(a, r);
      var i :| 0 <= i < |a| && SameExternal(a[i], r);
      assert a[1..][i - 1] == a[i];
    }
  }

  lemma {:induction false} SumSame<T>(f: T -> int, g: T -> int, rows: seq<T>)
    requires forall r :: r in rows ==> f(r) == g(r)
    ensures Sum(f, rows) == Sum(g, rows)
  {
    if rows != [] { SumSame(f, g, rows[1..]); }
  }

  lemma OnceFromEmpty(f: Record -> int, all: seq<Record>, keys: seq<Record>)
    requires Covers(keys, all)
    ensures Sum(f, Sync([], all)) == Sum(LatestWeight(f, all), keys)
  {
    hide Sync, Covers, Latest, Has;
    var rows := Sync([], all);
    SyncUnique([], all);
    forall r | r in rows ensures f(r) == LatestWeight(f, all)(r) && r in all && Has(all, r) {
      var k :| 0 <= k < |rows| && rows[k] == r;
      AtLatest([], all, k);
      SyncSources([], all, r);
      HasOwn(all, r);
    }
    SumSame(f, LatestWeight(f, all), rows);
    LatestRespects(f, all);
    Listed(all, rows, keys);
    SameSum(LatestWeight(f, all), all, rows, keys);
  }

  lemma HasOwn(all: seq<Record>, r: Record)
    requires r in all
    ensures Has(all, r)
  {
  }

  lemma Listed(all: seq<Record>, rows: seq<Record>, keys: seq<Record>)
    requires Covers(keys, all) && rows == Sync([], all) && forall r :: r in rows ==> r in all
    ensures Unique(keys) && SameRecords(rows, keys)
  {
    hide Sync;
    forall r | r in keys ensures Has(rows, r) {
      assert Has(all, r);
      var k :| 0 <= k < |all| && SameExternal(all[k], r);
      SyncCovers([], all, all[k]);
    }
  }

  // However many windows overlap, in every currency and for every provider filter the totals
  // count each external record once, in the version that was fetched last.
  lemma OverlapsCountOnce(table: seq<Record>, windows: seq<seq<Record>>, keys: seq<Record>, provider: Option<Provider>, c: nat)
    requires Unique(table) && Covers(keys, table + Flat(windows))
    ensures var (rows, all) := (SyncAll(table, windows), table + Flat(windows));
            && Sum(DirectRevenue(provider, c), rows) == Sum(LatestWeight(DirectRevenue(provider, c), all), keys)
            && Sum(DirectExpense(provider, c), rows) == Sum(LatestWeight(DirectExpense(provider, c), all), keys)
  {
    hide Sync, Covers;
    SyncAllFlat(table, windows);
    assert [] + table == table;
    SyncFresh([], table);
    SyncConcat([], table, Flat(windows));
    OnceFromEmpty(DirectRevenue(provider, c), table + Flat(windows), keys);
    OnceFromEmpty(DirectExpense(provider, c), table + Flat(windows), keys);
  }

  // The published summary after any sequence of overlapping synchronisations.
  method PublishWindows(store: Store, windows: seq<seq<Record>>, provider: Option<Provider>, ghost keys: seq<Record>)
    returns (summary: map<nat, Totals>)
    requires Unique(store.table) && Covers(keys, store.table + Flat(windows))
    modifies store
    ensures store.table == SyncAll(old(store.table), windows)
    ensures var all := old(store.table) + Flat(windows);
            forall c: nat ::
              Totals(Sum(LatestWeight(DirectRevenue(provider, c), all), keys), Sum(LatestWeight(DirectExpense(provider, c), all), keys))
              == if c in summary then summary[c] else Totals(0, 0)
  {
    hide Sync, Covers;
    for i := 0 to |windows|
      invariant SyncAll(old(store.table), windows) == SyncAll(store.table, windows[i..])
    {
      assert windows[i..][1..] == windows[i + 1..];
      store.SyncWindow(windows[i]);
    }
    summary := Publish(store.table, provider);
    forall c: nat
      ensures var all := old(store.table) + Flat(windows);
              Totals(Sum(LatestWeight(DirectRevenue(provider, c), all), keys), Sum(LatestWeight(DirectExpense(provider, c), all), keys))
              == if c in summary then summary[c] else Totals(0, 0)
    {
      OverlapsCountOnce(old(store.table), windows, keys, provider, c);
    }
  }
}
