/**
 The SQL the metadata drivers send. A statement is either a fixed text or a
 fixed head, a table name and a fixed tail, spliced by plain concatenation
 exactly as the drivers build it: there is no escaping. The fixed pieces are
 named by `Fragment` and spelled out by `FragmentText`, with their whitespace
 collapsed to single spaces.
 */
module Queries {
  import opened Wrappers
  import opened Ascii

  /** The database systems the ODBC metadata driver supports. */
  datatype Dialect = Firebird | Mssql

  /** The lower-case driver name each dialect is selected by. */
  function DialectName(d: Dialect): (r: string) {
    match d
    case Firebird => "firebird"
    case Mssql => "mssql"
  }

  /** Metadata lookups that take a table name. */
  datatype Lookup = Columns | PrimaryKeys

  /** The fixed pieces of SQL text. */
  datatype Fragment =
    | TablesText(dialect: Dialect)
    | LookupHead(dialect: Dialect, op: Lookup)
    | ClosingQuote
    | IdentityInsertHead
    | OnTail
    | OffTail

  /** The SQL of a name-taking lookup up to the quote that opens the table-name literal. */
  function LookupSql(d: Dialect, op: Lookup): (r: string) {
    match (d, op)
    case (Firebird, Columns) =>
      "SELECT RDB$FIELD_NAME FROM RDB$RELATION_FIELDS WHERE RDB$RELATION_NAME = "
    case (Mssql, Columns) =>
      "SELECT c.name FROM syscolumns c LEFT JOIN sysobjects o ON c.id = o.id WHERE o.name = "
    case (Firebird, PrimaryKeys) =>
      "SELECT RDB$FIELD_NAME FROM RDB$INDICES i LEFT JOIN RDB$INDEX_SEGMENTS i2 ON (i2.RDB$INDEX_NAME = i.RDB$INDEX_NAME) LEFT JOIN RDB$RELATION_CONSTRAINTS c ON (c.RDB$INDEX_NAME = i2.RDB$INDEX_NAME) WHERE c.RDB$CONSTRAINT_TYPE = 'PRIMARY KEY' AND i.RDB$RELATION_NAME = "
    case (Mssql, PrimaryKeys) =>
      "EXEC sp_statistics "
  }

  /**
   The text of each fixed piece. Every name-taking lookup head ends in an
   opening single quote, so the table name lands inside an SQL string
   literal; the identity command leaves a space on either side of the name.
   */
  function FragmentText(f: Fragment): (r: string)
    ensures f.LookupHead? ==> |r| > 0 && r[|r| - 1] == '\''
    ensures f.ClosingQuote? ==> r == "'"
    ensures f.IdentityInsertHead? ==> |r| > 0 && r[|r| - 1] == ' '
    ensures f.OnTail? || f.OffTail? ==> |r| > 0 && r[0] == ' '
  {
    match f
    case TablesText(Firebird) =>
      "SELECT RDB$RELATION_NAME FROM RDB$RELATIONS WHERE RDB$VIEW_SOURCE is null AND RDB$SYSTEM_FLAG = 0"
    case TablesText(Mssql) =>
      "SELECT name FROM sysobjects WHERE type='U'"
    case LookupHead(d, op) => LookupSql(d, op) + "'"
    case ClosingQuote => "'"
    case IdentityInsertHead => "SET IDENTITY_INSERT "
    case OnTail => " ON"
    case OffTail => " OFF"
  }

  /** A statement as the driver builds it. */
  datatype Statement = Fixed(text: Fragment) | Spliced(head: Fragment, name: string, tail: Fragment)

  /** Text with a hole for one name: `prefix + name + suffix`. */
  function Splice(prefix: string, name: string, suffix: string): (r: string) {
    prefix + name + suffix
  }

  /** The SQL text of a statement. */
  function Render(s: Statement): (r: string) {
    match s
    case Fixed(f) => FragmentText(f)
    case Spliced(head, name, tail) => Splice(FragmentText(head), name, FragmentText(tail))
  }

  /** Reads back the name spliced into `q`, if `q` starts with `prefix` and ends with `suffix`. */
  function Unsplice(prefix: string, suffix: string, q: string): (r: Option<string>)
    ensures r.Some? ==> Splice(prefix, r.value, suffix) == q
  {
    if |q| >= |prefix| + |suffix| && q[..|prefix|] == prefix && q[|q| - |suffix|..] == suffix then
      var name := q[|prefix|..|q| - |suffix|];
      assert q == prefix + name + suffix;
      Some(name)
    else None
  }

  /** The name spliced into a text can always be read back from it. */
  lemma UnspliceSplice(prefix: string, name: string, suffix: string)
    ensures Unsplice(prefix, suffix, Splice(prefix, name, suffix)) == Some(name)
  {
  }

  /** Two texts spliced from one head and tail are equal exactly when the names are. */
  lemma SpliceSameIff(prefix: string, suffix: string, a: string, b: string)
    ensures Splice(prefix, a, suffix) == Splice(prefix, b, suffix) <==> a == b
  {
    UnspliceSplice(prefix, a, suffix);
    UnspliceSplice(prefix, b, suffix);
  }

  /** The table a rendered statement names can be read back from its text. */
  lemma RenderNamesTable(head: Fragment, name: string, tail: Fragment)
    ensures Unsplice(FragmentText(head), FragmentText(tail), Render(Spliced(head, name, tail))) == Some(name)
  {
    UnspliceSplice(FragmentText(head), name, FragmentText(tail));
  }

  /** With head and tail fixed, two statements have the same text exactly when they name the same table. */
  lemma RenderSameIff(head: Fragment, tail: Fragment, a: string, b: string)
    ensures Render(Spliced(head, a, tail)) == Render(Spliced(head, b, tail)) <==> a == b
  {
    SpliceSameIff(FragmentText(head), FragmentText(tail), a, b);
  }

  /** The list-tables query: a fixed text into which no caller input is spliced. */
  function TablesQuery(d: Dialect): (r: Statement)
    ensures r.Fixed?
  {
    Fixed(TablesText(d))
  }

  /** The dialect alone decides the list-tables text: the two dialects' texts differ. */
  lemma TablesTextSameIff(d: Dialect, e: Dialect)
    ensures Render(TablesQuery(d)) == Render(TablesQuery(e)) <==> d == e
  {
    var f, m := Render(TablesQuery(Firebird)), Render(TablesQuery(Mssql));
    assert f[|f| - 1] == '0';
    assert m[|m| - 1] == '\'';
  }

  /** How a dialect spells a caller's table name in a catalog lookup. */
  function TableLiteral(d: Dialect, table: string): (r: string)
    ensures d == Firebird ==> SameUpToCase(table, r) && forall i :: 0 <= i < |r| ==> !IsLowerChar(r[i])
    ensures d == Mssql ==> r == table
  {
    match d
    case Firebird => Upper(table)
    case Mssql => table
  }

  /** A name-taking lookup: the dialect's head, its spelling of the table name, a closing quote. */
  function LookupQuery(d: Dialect, op: Lookup, table: string): (r: Statement)
    ensures var head := FragmentText(LookupHead(d, op));
      && head[|head| - 1] == '\''
      && Render(r) == head + TableLiteral(d, table) + "'"
  {
    Spliced(LookupHead(d, op), TableLiteral(d, table), ClosingQuote)
  }

  /** When a dialect considers two table names the same. */
  predicate SameTable(d: Dialect, a: string, b: string) {
    match d
    case Firebird => SameUpToCase(a, b)
    case Mssql => a == b
  }

  /** The dialect's spellings of two names coincide exactly when it treats them as one table. */
  lemma TableLiteralSameIff(d: Dialect, a: string, b: string)
    ensures TableLiteral(d, a) == TableLiteral(d, b) <==> SameTable(d, a, b)
  {
  }

  /**
   Two lookups are the same statement exactly when the dialect treats the
   names as one: Firebird ignores letter case, MSSQL embeds the name verbatim.
   */
  lemma LookupQuerySameIff(d: Dialect, op: Lookup, a: string, b: string)
    ensures LookupQuery(d, op, a) == LookupQuery(d, op, b) <==> SameTable(d, a, b)
  {
    assert LookupQuery(d, op, a) == Spliced(LookupHead(d, op), TableLiteral(d, a), ClosingQuote);
    assert LookupQuery(d, op, b) == Spliced(LookupHead(d, op), TableLiteral(d, b), ClosingQuote);
    TableLiteralSameIff(d, a, b);
  }

  /** The same holds of the rendered SQL texts. */
  lemma LookupTextSameIff(d: Dialect, op: Lookup, a: string, b: string)
    ensures Render(LookupQuery(d, op, a)) == Render(LookupQuery(d, op, b)) <==> SameTable(d, a, b)
  {
    var la, lb := TableLiteral(d, a), TableLiteral(d, b);
    RenderSameIff(LookupHead(d, op), ClosingQuote, la, lb);
    TableLiteralSameIff(d, a, b);
  }

  /** `SET IDENTITY_INSERT <table> ON|OFF`, MSSQL only; the name is embedded verbatim. */
  function IdentityInsertCommand(table: string, on: bool): (r: Statement)
    ensures Render(r) == "SET IDENTITY_INSERT " + table + (if on then " ON" else " OFF")
  {
    Spliced(IdentityInsertHead, table, if on then OnTail else OffTail)
  }

  /** The ON and OFF commands never have the same text, whatever the table names. */
  lemma IdentityInsertOnOffDiffer(a: string, b: string)
    ensures Render(IdentityInsertCommand(a, true)) != Render(IdentityInsertCommand(b, false))
  {
    var on := Render(IdentityInsertCommand(a, true));
    var off := Render(IdentityInsertCommand(b, false));
    assert on[|on| - 1] == 'N';
    assert off[|off| - 1] == 'F';
  }
}
