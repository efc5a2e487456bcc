/** The public ledger (routers/ledger.py): external records are stored once, grouped by month
    and summed per currency. Amounts are exact cents. */
module Ledger {
  import opened Common
  import opened Tables

  datatype Provider = PayPal | Hosting | Model

  // Currency and category are the normalised public ones; month is None for a row without a date.
  datatype Record = Record(provider: Provider, external: nat, month: Option<nat>, currency: nat, category: nat, cents: int)

  datatype Group = Group(month: nat, currency: nat, category: nat)

  datatype Totals = Totals(revenue: int, expense: int)

  // A published line. Lines of other providers carry one signed amount.
  datatype Entry = Entry(provider: Provider, currency: nat, revenue: int, expense: int)

  // ---- weights ----

  predicate Published(r: Record) { r.provider == PayPal ==> r.month.Some? }

  function Revenue(r: Record): int { Max(r.cents, 0) }

  function Expense(r: Record): int { Min(r.cents, 0) }

  predicate InGroup(r: Record, g: Group) {
    r.provider == PayPal && r.month == Some(g.month) && r.currency == g.currency && r.category == g.category
  }

  function RevenueOf(g: Group): Record -> int { (r: Record) => if InGroup(r, g) then Revenue(r) else 0 }

  function ExpenseOf(g: Group): Record -> int { (r: Record) => if InGroup(r, g) then Expense(r) else 0 }

  function TotalsOf(rows: seq<Record>, g: Group): Totals { Totals(Sum(RevenueOf(g), rows), Sum(ExpenseOf(g), rows)) }

  predicate Grouped(r: Record) { r.provider == PayPal && r.month.Some? }

  function GroupOf(r: Record): Group
    requires Grouped(r)
  {
    Group(r.month.value, r.currency, r.category)
  }

  // Straight sums over the raw rows, without any grouping.
  predicate Scoped(p: Provider, provider: Option<Provider>) { provider.None? || provider == Some(p) }

  function DirectRevenue(provider: Option<Provider>, c: nat): Record -> int {
    (r: Record) => if Published(r) && Scoped(r.provider, provider) && r.currency == c then Revenue(r) else 0
  }

  function DirectExpense(provider: Option<Provider>, c: nat): Record -> int {
    (r: Record) => if Published(r) && Scoped(r.provider, provider) && r.currency == c then Expense(r) else 0
  }

  function EntryRevenue(provider: Option<Provider>, c: nat): Entry -> int {
    (e: Entry) => if Scoped(e.provider, provider) && e.currency == c then e.revenue else 0
  }

  function EntryExpense(provider: Option<Provider>, c: nat): Entry -> int {
    (e: Entry) => if Scoped(e.provider, provider) && e.currency == c then e.expense else 0
  }

  function EntryTotals(entries: seq<Entry>, provider: Option<Provider>, c: nat): Totals {
    Totals(Sum(EntryRevenue(provider, c), entries), Sum(EntryExpense(provider, c), entries))
  }

  // ---- publication ----

  // One line for each row of the other providers.
  function Lines(rows: seq<Record>): seq<Entry> {
    if rows == [] then []
    else
      (if rows[0].provider == PayPal then []
       else [Entry(rows[0].provider, rows[0].currency, Revenue(rows[0]), Expense(rows[0]))]) + Lines(rows[1..])
  }

  // The monthly lines for any listing of the groups.
  function Monthly(rows: seq<Record>, groups: seq<Group>): (m: seq<Entry>)
    ensures |m| == |groups|
  {
    seq(|groups|, k requires 0 <= k < |groups| =>
      Entry(PayPal, groups[k].currency, TotalsOf(rows, groups[k]).revenue, TotalsOf(rows, groups[k]).expense))
  }

  // Each group of the rows listed exactly once, in any order.
  ghost predicate Lists(groups: seq<Group>, rows: seq<Record>) {
    && (forall i, j :: 0 <= i < j < |groups| ==> groups[i] != groups[j])
    && (forall r :: r in rows && Grouped(r) ==> GroupOf(r) in groups)
  }

  // ---- summing over groups is summing over rows ----

  // The weight of a fixed row across the groups of currency c.
  function Across(r: Record, revenue: bool, c: nat): Group -> int {
    (g: Group) => if g.currency == c && InGroup(r, g) then (if revenue then Revenue(r) else Expense(r)) else 0
  }

  lemma AcrossNone(r: Record, revenue: bool, c: nat, groups: seq<Group>)
    requires forall g :: g in groups ==> !InGroup(r, g)
    ensures Sum(Across(r, revenue, c), groups) == 0
  {
    if groups != [] { AcrossNone(r, revenue, c, groups[1..]); }
  }

  // A row is in exactly one listed group, its own.
  lemma AcrossOne(r: Record, revenue: bool, c: nat, groups: seq<Group>)
    requires forall i, j :: 0 <= i < j < |groups| ==> groups[i] != groups[j]
    requires Grouped(r) ==> GroupOf(r) in groups
    ensures Sum(Across(r, revenue, c), groups) ==
            if Grouped(r) && r.currency == c then (if revenue then Revenue(r) else Expense(r)) else 0
  {
    if !Grouped(r) {
      AcrossNone(r, revenue, c, groups);
    } else if groups[0] == GroupOf(r) {
      forall g | g in groups[1..] ensures !InGroup(r, g) {
        var j :| 0 <= j < |groups[1..]| && groups[1..][j] == g;
        assert groups[j + 1] == g;
      }
      AcrossNone(r, revenue, c, groups[1..]);
    } else {
      assert forall i :: 0 <= i < |groups[1..]| ==> groups[1..][i] == groups[i + 1];
      AcrossOne(r, revenue, c, groups[1..]);
    }
  }

  function GroupTotal(rows: seq<Record>, revenue: bool, c: nat): Group -> int {
    (g: Group) => if g.currency == c then (if revenue then TotalsOf(rows, g).revenue else TotalsOf(rows, g).expense) else 0
  }

  // Adding a row at the front adds its weight across the groups.
  lemma GroupTotalCons(r: Record, rows: seq<Record>, revenue: bool, c: nat, groups: seq<Group>)
    ensures Sum(GroupTotal([r] + rows, revenue, c), groups)
            == Sum(Across(r, revenue, c), groups) + Sum(GroupTotal(rows, revenue, c), groups)
  {
    if groups != [] {
      GroupTotalCons(r, rows, revenue, c, groups[1..]);
      assert ([r] + rows)[1..] == rows;
    }
  }

  lemma GroupTotalNone(revenue: bool, c: nat, groups: seq<Group>)
    ensures Sum(GroupTotal([], revenue, c), groups) == 0
  {
    if groups != [] { GroupTotalNone(revenue, c, groups[1..]); }
  }

  function PayPalWeight(revenue: bool, c: nat): Record -> int {
    (r: Record) => if Grouped(r) && r.currency == c then (if revenue then Revenue(r) else Expense(r)) else 0
  }

  // The order of two sums is exchanged: over groups of rows, or over rows.
  lemma {:induction false} GroupsAddUp(rows: seq<Record>, revenue: bool, c: nat, groups: seq<Group>)
    requires Lists(groups, rows)
    ensures Sum(GroupTotal(rows, revenue, c), groups) == Sum(PayPalWeight(revenue, c), rows)
  {
    if rows == [] {
      GroupTotalNone(revenue, c, groups);
    } else {
      assert rows == [rows[0]] + rows[1..];
      GroupsAddUp(rows[1..], revenue, c, groups);
      GroupTotalCons(rows[0], rows[1..], revenue, c, groups);
      AcrossOne(rows[0], revenue, c, groups);
    }
  }

  lemma MonthlySums(rows: seq<Record>, groups: seq<Group>, provider: Option<Provider>, c: nat)
    ensures Sum(EntryRevenue(provider, c), Monthly(rows, groups)) ==
            if Scoped(PayPal, provider) then Sum(GroupTotal(rows, true, c), groups) else 0
    ensures Sum(EntryExpense(provider, c), Monthly(rows, groups)) ==
            if Scoped(PayPal, provider) then Sum(GroupTotal(rows, false, c), groups) else 0
  {
    if groups != [] {
      assert Monthly(rows, groups)[1..] == Monthly(rows, groups[1..]);
      MonthlySums(rows, groups[1..], provider, c);
    }
  }

  lemma LineSums(rows: seq<Record>, provider: Option<Provider>, c: nat)
    ensures Sum(EntryRevenue(provider, c), Lines(rows))
            + (if Scoped(PayPal, provider) then Sum(PayPalWeight(true, c), rows) else 0) == Sum(DirectRevenue(provider, c), rows)
    ensures Sum(EntryExpense(provider, c), Lines(rows))
            + (if Scoped(PayPal, provider) then Sum(PayPalWeight(false, c), rows) else 0) == Sum(DirectExpense(provider, c), rows)
  {
    if rows != [] {
      LineSums(rows[1..], provider, c);
      var first := if rows[0].provider == PayPal then []
                   else [Entry(rows[0].provider, rows[0].currency, Revenue(rows[0]), Expense(rows[0]))];
      SumConcat(EntryRevenue(provider, c), first, Lines(rows[1..]));
      SumConcat(EntryExpense(provider, c), first, Lines(rows[1..]));
      if first != [] { assert first[1..] == []; }
    }
  }

  // For every currency and provider filter, the summary of the published lines is the straight
  // sum over the stored rows, however the groups are listed and the rows ordered.
  lemma SummaryIsDirect(rows: seq<Record>, groups: seq<Group>, provider: Option<Provider>, c: nat)
    requires Lists(groups, rows)
    ensures var entries := Lines(rows) + Monthly(rows, groups);
            EntryTotals(entries, provider, c) == Totals(Sum(DirectRevenue(provider, c), rows), Sum(DirectExpense(provider, c), rows))
  {
    SumConcat(EntryRevenue(provider, c), Lines(rows), Monthly(rows, groups));
    SumConcat(EntryExpense(provider, c), Lines(rows), Monthly(rows, groups));
    MonthlySums(rows, groups, provider, c);
    GroupsAddUp(rows, true, c, groups);
    GroupsAddUp(rows, false, c, groups);
    LineSums(rows, provider, c);
  }

  // ---- synchronisation ----

  predicate SameExternal(a: Record, b: Record) { a.provider == b.provider && a.external == b.external }

  function IndexOf(table: seq<Record>, r: Record): (k: nat)
    ensures k <= |table| && (k < |table| ==> SameExternal(table[k], r))
    ensures forall j :: 0 <= j < k ==> !SameExternal(table[j], r)
  {
    if table == [] || SameExternal(table[0], r) then 0 else IndexOf(table[1..], r) + 1
  }

  // upsert_external_entry
  function Upsert(table: seq<Record>, r: Record): seq<Record> {
    var k := IndexOf(table, r);
    if k < |table| then table[k := r] else table + [r]
  }

  function Sync(table: seq<Record>, batch: seq<Record>): seq<Record>
    decreases |batch|
  {
    if batch == [] then table else Sync(Upsert(table, batch[0]), batch[1..])
  }

  ghost predicate Unique(table: seq<Record>) {
    forall i, j :: 0 <= i < j < |table| ==> !SameExternal(table[i], table[j])
  }

  lemma {:induction false} SyncUnique(table: seq<Record>, batch: seq<Record>)
    requires Unique(table)
    ensures Unique(Sync(table, batch))
    decreases |batch|
  {
    if batch != [] { SyncUnique(Upsert(table, batch[0]), batch[1..]); }
  }

  // The last version of a record in a batch, or what the table had.
  function Latest(batch: seq<Record>, r: Record): Record {
    if batch == [] then r else Latest(batch[1..], if SameExternal(batch[0], r) then batch[0] else r)
  }

  lemma LatestSame(batch: seq<Record>, r: Record)
    ensures SameExternal(Latest(batch, r), r)
    ensures forall q :: SameExternal(q, r) && (exists b :: b in batch && SameExternal(b, r)) ==> Latest(batch, q) == Latest(batch, r)
  {
    if batch != [] {
      var next := if SameExternal(batch[0], r) then batch[0] else r;
      LatestSame(batch[1..], next);
    }
  }

  // A synchronisation leaves every row at its place in its latest version.
  lemma {:induction false} SyncAt(table: seq<Record>, batch: seq<Record>, k: nat)
    requires Unique(table) && k < |table|
    ensures |table| <= |Sync(table, batch)| && Sync(table, batch)[k] == Latest(batch, table[k])
    decreases |batch|
  {
    if batch != [] {
      var u := Upsert(table, batch[0]);
      assert Unique(u);
      assert u[k] == if SameExternal(batch[0], table[k]) then batch[0] else table[k];
      SyncAt(u, batch[1..], k);
    }
  }

  predicate Has(table: seq<Record>, r: Record) {
    exists k :: 0 <= k < |table| && SameExternal(table[k], r)
  }

  lemma HasUpsert(table: seq<Record>, b: Record, r: Record)
    requires Has(table, r) || SameExternal(b, r)
    ensures Has(Upsert(table, b), r)
  {
    var u, j := Upsert(table, b), IndexOf(table, b);
    assert u[j] == b;
    if Has(table, r) {
      var k :| 0 <= k < |table| && SameExternal(table[k], r);
      assert SameExternal(u[k], r);
    } else {
      assert SameExternal(u[j], r);
    }
  }

  // Every record of the batch, and every one that had a row, has a row.
  lemma {:induction false} SyncCovers(table: seq<Record>, batch: seq<Record>, r: Record)
    requires Has(table, r) || r in batch
    ensures Has(Sync(table, batch), r)
    decreases |batch|
  {
    if batch != [] {
      if Has(table, r) || batch[0] == r { HasUpsert(table, batch[0], r); }
      SyncCovers(Upsert(table, batch[0]), batch[1..], r);
    }
  }

  // Rows are only added for new records.
  lemma {:induction false} SyncSameLength(table: seq<Record>, batch: seq<Record>)
    requires forall r :: r in batch ==> Has(table, r)
    ensures |Sync(table, batch)| == |table|
    decreases |batch|
  {
    if batch != [] {
      assert Has(table, batch[0]);
      var u := Upsert(table, batch[0]);
      forall r | r in batch[1..] ensures Has(u, r) {
        HasUpsert(table, batch[0], r);
      }
      SyncSameLength(u, batch[1..]);
    }
  }

  // Synchronising the same window again changes no row, so no total.
  lemma SyncTwice(table: seq<Record>, batch: seq<Record>)
    requires Unique(table)
    ensures Sync(Sync(table, batch), batch) == Sync(table, batch)
  {
    var once := Sync(table, batch);
    SyncUnique(table, batch);
    forall r | r in batch ensures Has(once, r) {
      SyncCovers(table, batch, r);
    }
    SyncSameLength(once, batch);
    forall k | 0 <= k < |once| ensures Sync(once, batch)[k] == once[k] {
      SyncAt(once, batch, k);
      AtLatest(table, batch, k);
    }
  }

  // After a synchronisation every row is its own latest version.
  lemma {:induction false} AtLatest(table: seq<Record>, batch: seq<Record>, k: nat)
    requires Unique(table) && k < |Sync(table, batch)|
    ensures Latest(batch, Sync(table, batch)[k]) == Sync(table, batch)[k]
    decreases |batch|
  {
    if batch != [] {
      var u := Upsert(table, batch[0]);
      var row := Sync(table, batch)[k];
      AtLatest(u, batch[1..], k);
      assert Unique(u);
      if SameExternal(batch[0], row) {
        var j := IndexOf(table, batch[0]);
        SyncAt(u, batch[1..], j);
        LatestSame(batch[1..], batch[0]);
        SyncUnique(u, batch[1..]);
        assert u[j] == batch[0] && SameExternal(Sync(u, batch[1..])[j], row);
        assert j == k;
      }
    }
  }

  // ---- the loops ----

  // public_paypal_monthly_entries up to its order.
  method GroupRows(rows: seq<Record>) returns (groups: map<Group, Totals>)
    ensures forall g :: g in groups <==> exists i :: 0 <= i < |rows| && Grouped(rows[i]) && GroupOf(rows[i]) == g
    ensures forall g :: g in groups ==> groups[g] == TotalsOf(rows, g)
  {
    groups := map[];
    for i := 0 to |rows|
      invariant forall g :: g in groups <==> exists j :: 0 <= j < i && Grouped(rows[j]) && GroupOf(rows[j]) == g
      invariant forall g :: TotalsOf(rows[..i], g) == if g in groups then groups[g] else Totals(0, 0)
    {
      var r := rows[i];
      assert rows[..i + 1] == rows[..i] + [r];
      forall g: Group
        ensures TotalsOf(rows[..i + 1], g) ==
                Totals(TotalsOf(rows[..i], g).revenue + RevenueOf(g)(r), TotalsOf(rows[..i], g).expense + ExpenseOf(g)(r))
      {
        SumInsert(RevenueOf(g), rows[..i], r);
        SumInsert(ExpenseOf(g), rows[..i], r);
      }
      if r.provider == PayPal && r.month.Some? {
        var g := Group(r.month.value, r.currency, r.category);
        var t := if g in groups then groups[g] else Totals(0, 0);
        t := if r.cents >= 0 then Totals(t.revenue + r.cents, t.expense) else Totals(t.revenue, t.expense + r.cents);
        groups := groups[g := t];
      }
    }
    assert rows[..|rows|] == rows;
  }

  // build_summary: the totals per currency of the lines of one provider, or of all.
  method BuildSummary(entries: seq<Entry>, provider: Option<Provider>) returns (summary: map<nat, Totals>)
    ensures forall c :: c in summary <==>
              exists i :: 0 <= i < |entries| && Scoped(entries[i].provider, provider) && entries[i].currency == c
    ensures forall c :: EntryTotals(entries, provider, c) == if c in summary then summary[c] else Totals(0, 0)
  {
    summary := map[];
    for i := 0 to |entries|
      invariant forall c :: c in summary <==>
                  exists j :: 0 <= j < i && Scoped(entries[j].provider, provider) && entries[j].currency == c
      invariant forall c :: EntryTotals(entries[..i], provider, c) == if c in summary then summary[c] else Totals(0, 0)
    {
      var e := entries[i];
      assert entries[..i + 1] == entries[..i] + [e];
      forall c: nat
        ensures EntryTotals(entries[..i + 1], provider, c) ==
                Totals(EntryTotals(entries[..i], provider, c).revenue + EntryRevenue(provider, c)(e),
                       EntryTotals(entries[..i], provider, c).expense + EntryExpense(provider, c)(e))
      {
        SumInsert(EntryRevenue(provider, c), entries[..i], e);
        SumInsert(EntryExpense(provider, c), entries[..i], e);
      }
      if Scoped(e.provider, provider) {
        var t := if e.currency in summary then summary[e.currency] else Totals(0, 0);
        summary := summary[e.currency := Totals(t.revenue + e.revenue, t.expense + e.expense)];
      }
    }
    assert entries[..|entries|] == entries;
  }

  // The groups one after the other; the order of the published lines is free here.
  method ListGroups(totals: map<Group, Totals>) returns (groups: seq<Group>)
    ensures forall g :: g in totals <==> g in groups
    ensures forall i, j :: 0 <= i < j < |groups| ==> groups[i] != groups[j]
  {
    var pending := totals.Keys;
    groups := [];
    while pending != {}
      invariant forall g :: g in totals <==> g in pending || g in groups
      invariant forall g :: g in groups ==> g !in pending
      invariant forall i, j :: 0 <= i < j < |groups| ==> groups[i] != groups[j]
      decreases |pending|
    {
      var g :| g in pending;
      pending, groups := pending - {g}, groups + [g];
    }
  }

  // From the stored rows to the published summary.
  method Publish(rows: seq<Record>, provider: Option<Provider>) returns (summary: map<nat, Totals>)
    ensures forall c: nat ::
              Totals(Sum(DirectRevenue(provider, c), rows), Sum(DirectExpense(provider, c), rows)) ==
              if c in summary then summary[c] else Totals(0, 0)
  {
    hide TotalsOf, EntryTotals, InGroup;
    var totals := GroupRows(rows);
    var groups := ListGroups(totals);
    assert Lists(groups, rows);
    summary := BuildSummary(Lines(rows) + Monthly(rows, groups), provider);
    forall c: nat
      ensures Totals(Sum(DirectRevenue(provider, c), rows), Sum(DirectExpense(provider, c), rows)) ==
              if c in summary then summary[c] else Totals(0, 0)
    {
      SummaryIsDirect(rows, groups, provider, c);
    }
  }

  class Store {
    var table: seq<Record>

    constructor ()
      ensures table == []
    {
      table := [];
    }

    // upsert_external_entry: one row per external record, overwritten in place.
    method UpsertEntry(r: Record) returns (inserted: bool)
      modifies this
      ensures table == Upsert(old(table), r)
      ensures inserted <==> |table| == |old(table)| + 1
    {
      for k := 0 to |table|
        invariant table == old(table) && forall j :: 0 <= j < k ==> !SameExternal(table[j], r)
      {
        if SameExternal(table[k], r) {
          table := table[k := r];
          return false;
        }
      }
      table := table + [r];
      return true;
    }

    method SyncWindow(batch: seq<Record>)
      modifies this
      ensures table == Sync(old(table), batch)
    {
      for i := 0 to |batch|
        invariant Sync(old(table), batch) == Sync(table, batch[i..])
      {
        assert batch[i..][0] == batch[i] && batch[i..][1..] == batch[i + 1..];
        var inserted := UpsertEntry(batch[i]);
      }
    }
  }
}
