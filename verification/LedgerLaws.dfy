/** Which version of a record is stored, and what each record adds to which line of the ledger
    (routers/ledger.py:110-129, 265-345). */
module LedgerLaws {
  import opened Common
  import opened Tables
  import opened Ledger

  lemma {:induction false} LastIsLatest(batch: seq<Record>, r: Record, i: nat)
    requires i < |batch| && SameExternal(batch[i], r) && forall j :: i < j < |batch| ==> !SameExternal(batch[j], batch[i])
    ensures Latest(batch, r) == batch[i]
  {
    var next := if SameExternal(batch[0], r) then batch[0] else r;
    assert forall j :: 0 <= j < |batch[1..]| ==> batch[1..][j] == batch[j + 1];
    if i > 0 {
      LastIsLatest(batch[1..], next, i - 1);
    } else {
      NoneLater(batch[1..], next);
    }
  }

  lemma {:induction false} NoneLater(batch: seq<Record>, r: Record)
    requires forall j :: 0 <= j < |batch| ==> !SameExternal(batch[j], r)
    ensures Latest(batch, r) == r
  {
    if batch != [] {
      assert forall j :: 0 <= j < |batch[1..]| ==> batch[1..][j] == batch[j + 1];
      NoneLater(batch[1..], r);
    }
  }

  // After a synchronisation the last version of each record it brought is stored, in one row.
  lemma LastVersionStored(table: seq<Record>, batch: seq<Record>, i: nat)
    requires Unique(table) && i < |batch| && forall j :: i < j < |batch| ==> !SameExternal(batch[j], batch[i])
    ensures exists k :: 0 <= k < |Sync(table, batch)| && Sync(table, batch)[k] == batch[i]
                        && forall l :: 0 <= l < |Sync(table, batch)| && l != k ==> !SameExternal(Sync(table, batch)[l], batch[i])
  {
    var after := Sync(table, batch);
    SyncCovers(table, batch, batch[i]);
    SyncUnique(table, batch);
    var k :| 0 <= k < |after| && SameExternal(after[k], batch[i]);
    AtLatest(table, batch, k);
    LastIsLatest(batch, after[k], i);
    Alone(after, k);
  }

  lemma Alone(table: seq<Record>, k: nat)
    requires Unique(table) && k < |table|
    ensures forall l :: 0 <= l < |table| && l != k ==> !SameExternal(table[l], table[k])
  {
    forall l | 0 <= l < |table| && l != k ensures !SameExternal(table[l], table[k]) {
      assert l < k ==> !SameExternal(table[l], table[k]);
      assert k < l ==> !SameExternal(table[k], table[l]);
    }
  }

  // A row that the window does not bring stays as it is, at its place.
  lemma OthersStay(table: seq<Record>, batch: seq<Record>, k: nat)
    requires Unique(table) && k < |table| && forall j :: 0 <= j < |batch| ==> !SameExternal(batch[j], table[k])
    ensures k < |Sync(table, batch)| && Sync(table, batch)[k] == table[k]
  {
    SyncAt(table, batch, k);
    NoneLater(batch, table[k]);
  }

  // Records are the same exactly when provider and external id are.
  lemma SameIff(a: Record, b: Record)
    ensures SameExternal(a, b) <==> a.provider == b.provider && a.external == b.external
  {
  }

  // A record is revenue or expense by its sign, and never both.
  lemma SplitBySign(r: Record)
    ensures Revenue(r) + Expense(r) == r.cents && Expense(r) <= 0 <= Revenue(r) && (Revenue(r) == 0 || Expense(r) == 0)
  {
  }

  // It counts in the totals of its currency, for its provider and for all of them; a PayPal record
  // without a date counts nowhere.
  lemma CountsWhere(r: Record, provider: Option<Provider>, c: nat)
    ensures var counts := r.currency == c && (provider.None? || provider == Some(r.provider)) && !(r.provider == PayPal && r.month.None?);
            && DirectRevenue(provider, c)(r) == (if counts && r.cents > 0 then r.cents else 0)
            && DirectExpense(provider, c)(r) == (if counts && r.cents < 0 then r.cents else 0)
  {
  }

  // A dated PayPal record counts in the line of its month, currency and category, and in no other.
  lemma CountsInGroup(r: Record, g: Group)
    ensures var counts := r.provider == PayPal && r.month == Some(g.month) && r.currency == g.currency && r.category == g.category;
            && RevenueOf(g)(r) == (if counts && r.cents > 0 then r.cents else 0)
            && ExpenseOf(g)(r) == (if counts && r.cents < 0 then r.cents else 0)
            && (counts ==> Grouped(r) && GroupOf(r) == g)
  {
  }

  // The published net of a currency is the sum of its counted amounts.
  lemma {:induction false} NetIsSum(rows: seq<Record>, provider: Option<Provider>, c: nat)
    ensures Sum(DirectRevenue(provider, c), rows) + Sum(DirectExpense(provider, c), rows) == Sum(Counted(provider, c), rows)
  {
    if rows != [] {
      CountsWhere(rows[0], provider, c);
      NetIsSum(rows[1..], provider, c);
    }
  }

  function Counted(provider: Option<Provider>, c: nat): Record -> int {
    (r: Record) =>
      if r.currency == c && (provider.None? || provider == Some(r.provider)) && !(r.provider == PayPal && r.month.None?)
      then r.cents else 0
  }
}
