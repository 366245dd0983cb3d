/**
 Result shaping: the `while (($x = $cursor->fetchColumn(0))) $list[] = $x;`
 loop, which is a take-while over the cursor, and the MSSQL primary-key loop,
 which keeps the `COLUMN_NAME` of the `sp_statistics` rows whose `TYPE` is 1.
 */
module Fetch {
  import opened Wrappers
  import opened Queries
  import opened Pdo

  /** `r` is the longest prefix of `s` all of whose elements satisfy `p`. */
  predicate IsLongestPrefix<T(==)>(s: seq<T>, p: T -> bool, r: seq<T>) {
    && |r| <= |s|
    && r == s[..|r|]
    && (forall i :: 0 <= i < |r| ==> p(r[i]))
    && (|r| == |s| || !p(s[|r|]))
  }

  /** Elements of `s` up to, not including, the first one that fails `p`. */
  function TakeWhile<T(==)>(s: seq<T>, p: T -> bool): (r: seq<T>)
    ensures IsLongestPrefix(s, p, r)
  {
    if |s| == 0 || !p(s[0]) then [] else [s[0]] + TakeWhile(s[1..], p)
  }

  /** There is only one longest prefix, so `TakeWhile` is characterised by it. */
  lemma LongestPrefixUnique<T>(s: seq<T>, p: T -> bool, r1: seq<T>, r2: seq<T>)
    requires IsLongestPrefix(s, p, r1) && IsLongestPrefix(s, p, r2)
    ensures r1 == r2
  {
  }

  /** Values the column loop collects: order kept, duplicates kept, stops at the first falsy value. */
  function ColumnValues(cursor: seq<Value>): (r: seq<Value>) {
    TakeWhile(cursor, Truthy)
  }

  /** The column loop as written: one `fetchColumn(0)` per iteration, appending while truthy. */
  method CollectColumn(cursor: seq<Value>) returns (values: seq<Value>)
    ensures IsLongestPrefix(cursor, Truthy, values)
    ensures values == ColumnValues(cursor)
  {
    values := [];
    var i := 0;
    while i < |cursor| && Truthy(cursor[i])
      invariant 0 <= i <= |cursor|
      invariant values == cursor[..i]
      invariant forall j :: 0 <= j < i ==> Truthy(cursor[j])
    {
      values := values + [cursor[i]];
      i := i + 1;
    }
    LongestPrefixUnique(cursor, Truthy, values, ColumnValues(cursor));
  }

  /** An empty cursor gives an empty list, not an error; a falsy first value does too. */
  lemma ColumnValuesOfEmpty(cursor: seq<Value>)
    requires |cursor| == 0 || !Truthy(cursor[0])
    ensures ColumnValues(cursor) == []
  {
  }

  /** A cursor of truthy values is returned whole, in order, duplicates included. */
  lemma ColumnValuesKeepsTruthyCursor(cursor: seq<Value>)
    requires forall i :: 0 <= i < |cursor| ==> Truthy(cursor[i])
    ensures ColumnValues(cursor) == cursor
  {
  }

  /** A `"0"` (a falsy string) in the cursor hides every value after it. */
  lemma ColumnValuesStopsAtZero(before: seq<Value>, after: seq<Value>)
    requires forall i :: 0 <= i < |before| ==> Truthy(before[i])
    ensures ColumnValues(before + [Str("0")] + after) == before
  {
    var c := before + [Str("0")] + after;
    assert c[..|before|] == before;
    LongestPrefixUnique(c, Truthy, before, ColumnValues(c));
  }

  /** Sends `sql` with `query` and collects column 0; a `PDOException` propagates. */
  function RunColumnQuery(db: Database, sql: Statement): (r: Reply<seq<Value>>)
    ensures r.calls == [Query(sql)]
    ensures r.result.Err? <==> db.fails(sql)
    ensures r.result.Err? ==> r.result.error == PdoException(sql)
    ensures r.result.Ok? ==> IsLongestPrefix(db.cursor(sql), Truthy, r.result.value)
  {
    if db.fails(sql) then Reply([Query(sql)], Err(PdoException(sql)))
    else Reply([Query(sql)], Ok(ColumnValues(db.cursor(sql))))
  }

  /** A row `fetch()` returns before the loop ends: PHP treats an empty array as false. */
  predicate IsFetchedRow(row: Row) {
    |row| > 0
  }

  /** An `sp_statistics` row whose `TYPE` compares loosely equal to 1. */
  predicate IsPrimaryKeyRow(row: Row)
    ensures "TYPE" !in row ==> !IsPrimaryKeyRow(row)
    ensures "TYPE" in row && row["TYPE"].Int? ==> (IsPrimaryKeyRow(row) <==> row["TYPE"].i == 1)
  {
    LooselyEqualsOne(Field(row, "TYPE"))
  }

  /** `COLUMN_NAME` of each primary-key row of `rows`, in row order. */
  function KeyColumnNames(rows: seq<Row>): (r: seq<Value>)
    ensures |r| <= |rows|
    ensures forall v :: v in r <==>
      exists row :: row in rows && IsPrimaryKeyRow(row) && Field(row, "COLUMN_NAME") == v
  {
    if |rows| == 0 then []
    else
      var rest := KeyColumnNames(rows[1..]);
      assert forall row :: row in rows <==> row == rows[0] || row in rows[1..];
      if IsPrimaryKeyRow(rows[0]) then [Field(rows[0], "COLUMN_NAME")] + rest else rest
  }

  /** Key columns of two row lists concatenated are the key columns of each, in order. */
  lemma {:induction false} KeyColumnNamesAppend(a: seq<Row>, b: seq<Row>)
    ensures KeyColumnNames(a + b) == KeyColumnNames(a) + KeyColumnNames(b)
  {
    if |a| == 0 {
      assert a + b == b;
    } else {
      assert (a + b)[0] == a[0];
      assert (a + b)[1..] == a[1..] + b;
      KeyColumnNamesAppend(a[1..], b);
    }
  }

  /** A row whose `TYPE` is not 1 contributes nothing, wherever it sits. */
  lemma NonKeyRowDropped(a: seq<Row>, row: Row, b: seq<Row>)
    requires !IsPrimaryKeyRow(row)
    ensures KeyColumnNames(a + [row] + b) == KeyColumnNames(a + b)
  {
    KeyColumnNamesAppend(a + [row], b);
    KeyColumnNamesAppend(a, [row]);
    KeyColumnNamesAppend(a, b);
  }

  /** A row whose `TYPE` is 1 contributes its `COLUMN_NAME`, exactly where it sits. */
  lemma KeyRowKept(a: seq<Row>, row: Row, b: seq<Row>)
    requires IsPrimaryKeyRow(row)
    ensures KeyColumnNames(a + [row] + b) ==
      KeyColumnNames(a) + [Field(row, "COLUMN_NAME")] + KeyColumnNames(b)
  {
    KeyColumnNamesAppend(a + [row], b);
    KeyColumnNamesAppend(a, [row]);
  }

  /** Every row up to and including `rows[i]` is non-empty, so the loop reaches row `i`. */
  predicate FetchedThrough(rows: seq<Row>, i: int)
    requires 0 <= i < |rows|
  {
    forall j :: 0 <= j <= i ==> IsFetchedRow(rows[j])
  }

  /** The primary-key loop's result: key columns of the rows fetched before the first empty one. */
  function PrimaryKeyColumns(rows: seq<Row>): (r: seq<Value>)
    ensures |r| <= |rows|
    ensures forall v :: v in r <==>
      exists i :: 0 <= i < |rows| && FetchedThrough(rows, i)
        && IsPrimaryKeyRow(rows[i]) && Field(rows[i], "COLUMN_NAME") == v
  {
    var fetched := TakeWhile(rows, IsFetchedRow);
    assert forall i :: 0 <= i < |rows| ==> (FetchedThrough(rows, i) <==> i < |fetched|);
    assert forall row :: row in fetched <==> exists i :: 0 <= i < |fetched| && fetched[i] == row;
    KeyColumnNames(fetched)
  }

  /** The primary-key loop as written: fetch rows while non-empty, append `COLUMN_NAME` when `TYPE == 1`. */
  method FetchPrimaryKeys(rows: seq<Row>) returns (names: seq<Value>)
    ensures names == PrimaryKeyColumns(rows)
  {
    names := [];
    var i := 0;
    while i < |rows| && IsFetchedRow(rows[i])
      invariant 0 <= i <= |rows|
      invariant forall j :: 0 <= j < i ==> IsFetchedRow(rows[j])
      invariant names == KeyColumnNames(rows[..i])
    {
      assert rows[..i + 1] == rows[..i] + [rows[i]];
      KeyColumnNamesAppend(rows[..i], [rows[i]]);
      if IsPrimaryKeyRow(rows[i]) {
        names := names + [Field(rows[i], "COLUMN_NAME")];
      }
      i := i + 1;
    }
    LongestPrefixUnique(rows, IsFetchedRow, rows[..i], TakeWhile(rows, IsFetchedRow));
  }
}
