/** Vocabulary shared by every protocol: optional values, money and time units,
    and sums over tables of rows. */
module Common {

  datatype Option<+T> = None | Some(value: T)

  // Times are whole seconds on the server's UTC clock.
  type Time = int
  const HOUR: int := 3600
  const DAY: int := 24 * HOUR

  function Min(a: int, b: int): int { if a <= b then a else b }

  function Max(a: int, b: int): int { if a >= b then a else b }
}

/** Sums over a table (a sequence of rows). A row's weight is a function value. */
module Tables {

  function Sum<T>(weight: T -> int, rows: seq<T>): int
  {
    if rows == [] then 0 else weight(rows[0]) + Sum(weight, rows[1..])
  }

  lemma SumConcat<T>(weight: T -> int, a: seq<T>, b: seq<T>)
    ensures Sum(weight, a + b) == Sum(weight, a) + Sum(weight, b)
  {
    if a == [] {
      assert a + b == b;
    } else {
      assert (a + b)[0] == a[0] && (a + b)[1..] == a[1..] + b;
      SumConcat(weight, a[1..], b);
    }
  }

  // Inserting a row adds its weight.
  lemma SumInsert<T>(weight: T -> int, rows: seq<T>, row: T)
    ensures Sum(weight, rows + [row]) == Sum(weight, rows) + weight(row)
  {
    SumConcat(weight, rows, [row]);
    assert Sum(weight, [row]) == weight(row) + Sum(weight, [row][1..]);
  }

  // Updating one row changes the sum by the difference of its weights.
  lemma SumUpdate<T>(weight: T -> int, rows: seq<T>, i: nat, row: T)
    requires i < |rows|
    ensures Sum(weight, rows[i := row]) == Sum(weight, rows) - weight(rows[i]) + weight(row)
  {
    if i == 0 {
      assert rows[0 := row][1..] == rows[1..];
    } else {
      assert rows[i := row][1..] == rows[1..][i - 1 := row];
      SumUpdate(weight, rows[1..], i - 1, row);
    }
  }

  // Deleting one row takes its weight away.
  lemma SumRemove<T>(weight: T -> int, rows: seq<T>, i: nat)
    requires i < |rows|
    ensures Sum(weight, rows[..i] + rows[i + 1..]) == Sum(weight, rows) - weight(rows[i])
  {
    SumConcat(weight, rows[..i], rows[i + 1..]);
    SumConcat(weight, rows[..i], rows[i..]);
    assert rows == rows[..i] + rows[i..] && rows[i..][1..] == rows[i + 1..];
  }

  // Pointwise larger weights over a table that may also have grown.
  lemma SumGrows<T>(before: T -> int, rows: seq<T>, after: T -> int, rows': seq<T>)
    requires |rows| <= |rows'|
    requires forall i :: 0 <= i < |rows| ==> before(rows[i]) <= after(rows'[i])
    requires forall i :: |rows| <= i < |rows'| ==> 0 <= after(rows'[i])
    ensures Sum(before, rows) <= Sum(after, rows')
  {
    if rows' != [] {
      if rows == [] {
        assert forall i :: 0 <= i < |rows'[1..]| ==> rows'[1..][i] == rows'[i + 1];
        SumGrows(before, [], after, rows'[1..]);
      } else {
        assert forall i :: 0 <= i < |rows[1..]| ==> rows[1..][i] == rows[i + 1];
        assert forall i :: 0 <= i < |rows'[1..]| ==> rows'[1..][i] == rows'[i + 1];
        SumGrows(before, rows[1..], after, rows'[1..]);
      }
    }
  }

  lemma SumNonNegative<T>(weight: T -> int, rows: seq<T>)
    requires forall i :: 0 <= i < |rows| ==> 0 <= weight(rows[i])
    ensures 0 <= Sum(weight, rows)
  {
    if rows != [] {
      assert forall i :: 0 <= i < |rows[1..]| ==> rows[1..][i] == rows[i + 1];
      SumNonNegative(weight, rows[1..]);
    }
  }

  // One row never weighs more than the whole table when no weight is negative.
  lemma SumAtLeastRow<T>(weight: T -> int, rows: seq<T>, i: nat)
    requires i < |rows|
    requires forall k :: 0 <= k < |rows| ==> 0 <= weight(rows[k])
    ensures weight(rows[i]) <= Sum(weight, rows)
  {
    SumRemove(weight, rows, i);
    SumNonNegative(weight, rows[..i] + rows[i + 1..]);
  }
}
