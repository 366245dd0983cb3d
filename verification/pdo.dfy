/**
 The PDO connection seen as data. A database answers each statement with a
 cursor of column-0 values (what `fetchColumn(0)` walks), a list of
 associative rows (what `fetch()` in `FETCH_ASSOC` mode walks), and a flag
 saying whether sending that statement raises a `PDOException`. The metadata
 drivers report the calls they made as a log.
 */
module Pdo {
  import opened Wrappers
  import opened Queries

  /** The PHP values a fetch can produce (floats and arrays are not modelled). */
  datatype Value = Null | Bool(b: bool) | Int(i: int) | Str(s: string)

  /**
   PHP's conversion of a value to boolean, which ends a `while (($x = fetch…))`
   loop: exactly null, `false`, `0`, `""` and `"0"` convert to false.
   */
  function Truthy(v: Value): (r: bool)
    ensures !r <==> v in {Null, Bool(false), Int(0), Str(""), Str("0")}
  {
    match v
    case Null => false
    case Bool(b) => b
    case Int(i) => i != 0
    case Str(s) => s != "" && s != "0"
  }

  /** A row fetched in `PDO::FETCH_ASSOC` mode. */
  type Row = map<string, Value>

  /** PHP's `$row[$key]`: a missing key reads as null. */
  function Field(row: Row, key: string): (r: Value) {
    if key in row then row[key] else Null
  }

  predicate IsDigit(c: char) {
    '0' <= c <= '9'
  }

  predicate AllDigits(s: string) {
    forall i :: 0 <= i < |s| ==> IsDigit(s[i])
  }

  /** The number a string of decimal digits denotes. */
  function DecimalValue(s: string): (r: nat)
    requires AllDigits(s)
  {
    if |s| == 0 then 0 else DecimalValue(s[..|s| - 1]) * 10 + (s[|s| - 1] as int - '0' as int)
  }

  /** A digit string denotes zero exactly when every digit is `0`. */
  lemma {:induction false} DecimalValueZero(s: string)
    requires AllDigits(s)
    ensures DecimalValue(s) == 0 <==> forall i :: 0 <= i < |s| ==> s[i] == '0'
  {
    if |s| > 0 {
      var p := s[..|s| - 1];
      assert AllDigits(p) by {
        forall i | 0 <= i < |p| ensures IsDigit(p[i]) {
          assert p[i] == s[i];
        }
      }
      DecimalValueZero(p);
      if forall i :: 0 <= i < |s| ==> s[i] == '0' {
        assert forall i :: 0 <= i < |p| ==> p[i] == '0' by {
          forall i | 0 <= i < |p| ensures p[i] == '0' {
            assert p[i] == s[i];
          }
        }
      }
      if DecimalValue(s) == 0 {
        forall i | 0 <= i < |s| ensures s[i] == '0' {
          if i < |p| {
            assert p[i] == s[i];
          }
        }
      }
    }
  }

  /**
   A decimal string that PHP compares equal to 1: some digits denoting one,
   that is, leading zeros and then `1`.
   */
  function IsNumericOne(s: string): (r: bool)
    ensures r <==> |s| > 0 && AllDigits(s) && DecimalValue(s) == 1
  {
    if |s| == 0 then false
    else
      var p := s[..|s| - 1];
      var zeros := forall i :: 0 <= i < |p| ==> p[i] == '0';
      assert AllDigits(s) ==> AllDigits(p) by {
        if AllDigits(s) {
          forall i | 0 <= i < |p| ensures IsDigit(p[i]) {
            assert p[i] == s[i];
          }
        }
      }
      assert zeros && s[|s| - 1] == '1' ==> AllDigits(s) by {
        if zeros && s[|s| - 1] == '1' {
          forall i | 0 <= i < |s| ensures IsDigit(s[i]) {
            if i < |p| {
              assert s[i] == p[i];
            }
          }
        }
      }
      if AllDigits(p) then DecimalValueZero(p); zeros && s[|s| - 1] == '1'
      else false
  }

  /** PHP's loose comparison `$v == 1`. */
  function LooselyEqualsOne(v: Value): (r: bool)
    ensures v.Null? ==> !r
    ensures v.Bool? ==> (r <==> v.b)
    ensures v.Int? ==> (r <==> v.i == 1)
    ensures v.Str? ==> (r <==> |v.s| > 0 && AllDigits(v.s) && DecimalValue(v.s) == 1)
  {
    match v
    case Null => false
    case Bool(b) => b
    case Int(i) => i == 1
    case Str(s) => IsNumericOne(s)
  }

  /** One call on the connection: `query`, `prepare` followed by `execute`, or `exec`. */
  datatype Call = Query(sql: Statement) | PrepareExecute(sql: Statement) | Exec(sql: Statement)

  /** The `PDOException` raised while sending `sql`. */
  datatype Failure = PdoException(sql: Statement)

  /** The database behind the connection, as the answers it gives to each statement. */
  datatype Database = Database(
    cursor: Statement -> seq<Value>,
    rows: Statement -> seq<Row>,
    fails: Statement -> bool)

  /** What an operation did: the calls it sent, in order, and what it returned or threw. */
  datatype Reply<T> = Reply(calls: seq<Call>, result: Result<T, Failure>)

  /** `$pdo->exec($sql)`: succeeds or throws. */
  function ExecCommand(db: Database, sql: Statement): (r: Result<(), Failure>) {
    if db.fails(sql) then Err(PdoException(sql)) else Ok(())
  }
}
