/**
 The native Firebird metadata driver. Its catalog queries are spelled out
 again in its own source; the query builders below show they render to the
 ODBC driver's Firebird texts, whitespace aside, and the driver then behaves
 exactly like that branch.
 */
module FirebirdMetaData {
  import opened Wrappers
  import opened Ascii
  import opened Queries
  import opened Pdo
  import opened Fetch
  import OdbcMetaData

  const TruncateCommand: string := "DELETE FROM"

  /** This driver's own spelling of its three catalog queries, up to the table-name literal. */
  const TablesSql: string :=
    "SELECT RDB$RELATION_NAME FROM RDB$RELATIONS WHERE RDB$VIEW_SOURCE is null AND RDB$SYSTEM_FLAG = 0"

  const ColumnsSql: string :=
    "SELECT RDB$FIELD_NAME FROM RDB$RELATION_FIELDS WHERE RDB$RELATION_NAME = "

  const PrimaryKeysSql: string :=
    "SELECT RDB$FIELD_NAME FROM RDB$INDICES i LEFT JOIN RDB$INDEX_SEGMENTS i2 ON (i2.RDB$INDEX_NAME = i.RDB$INDEX_NAME) LEFT JOIN RDB$RELATION_CONSTRAINTS c ON (c.RDB$INDEX_NAME = i2.RDB$INDEX_NAME) WHERE c.RDB$CONSTRAINT_TYPE = 'PRIMARY KEY' AND i.RDB$RELATION_NAME = "

  /** The list-tables statement, whose text is this driver's own. */
  function TableNamesQuery(): (r: Statement)
    ensures r.Fixed? && Render(r) == TablesSql
  {
    TablesQuery(Firebird)
  }

  /** The column lookup: this driver's text, then the upper-cased name in single quotes. */
  function ColumnsQuery(table: string): (r: Statement)
    ensures Render(r) == ColumnsSql + "'" + Upper(table) + "'"
  {
    LookupQuery(Firebird, Columns, table)
  }

  /** The primary-key lookup: this driver's text, then the upper-cased name in single quotes. */
  function PrimaryKeysQuery(table: string): (r: Statement)
    ensures Render(r) == PrimaryKeysSql + "'" + Upper(table) + "'"
  {
    LookupQuery(Firebird, PrimaryKeys, table)
  }

  /** `getTableNames`: one fixed query, the cursor's leading truthy values in order. */
  function GetTableNames(db: Database): (r: Reply<seq<Value>>)
    ensures r.calls == [Query(TableNamesQuery())]
    ensures r.result.Err? <==> db.fails(TableNamesQuery())
    ensures r.result.Ok? ==> IsLongestPrefix(db.cursor(TableNamesQuery()), Truthy, r.result.value)
  {
    RunColumnQuery(db, TableNamesQuery())
  }

  /** `getTableColumns`: the upper-cased table name's fields, as the cursor lists them. */
  function GetTableColumns(db: Database, table: string): (r: Reply<seq<Value>>)
    ensures r.calls == [Query(ColumnsQuery(table))]
    ensures r.result.Err? <==> db.fails(ColumnsQuery(table))
    ensures r.result.Ok? ==> IsLongestPrefix(db.cursor(ColumnsQuery(table)), Truthy, r.result.value)
  {
    RunColumnQuery(db, ColumnsQuery(table))
  }

  /** `getTablePrimaryKeys`: the upper-cased table name's primary-key fields, as the cursor lists them. */
  function GetTablePrimaryKeys(db: Database, table: string): (r: Reply<seq<Value>>)
    ensures r.calls == [Query(PrimaryKeysQuery(table))]
    ensures r.result.Err? <==> db.fails(PrimaryKeysQuery(table))
    ensures r.result.Ok? ==> IsLongestPrefix(db.cursor(PrimaryKeysQuery(table)), Truthy, r.result.value)
  {
    RunColumnQuery(db, PrimaryKeysQuery(table))
  }

  /** The native driver answers exactly as the ODBC driver's Firebird branch. */
  lemma AgreesWithOdbcFirebird(drv: OdbcMetaData.Driver, db: Database, table: string)
    requires drv.dialect == Firebird
    ensures GetTableNames(db) == OdbcMetaData.GetTableNames(drv, db)
    ensures GetTableColumns(db, table) == OdbcMetaData.GetTableColumns(drv, db, table)
    ensures GetTablePrimaryKeys(db, table) == OdbcMetaData.GetTablePrimaryKeys(drv, db, table)
  {
  }

  /** The truncate command is the one the ODBC driver binds for Firebird. */
  lemma TruncateAgreesWithOdbc(conn: OdbcMetaData.Connection)
    requires OdbcMetaData.New(conn).Ok? && OdbcMetaData.New(conn).value.dialect == Firebird
    ensures OdbcMetaData.New(conn).value.TruncateCommand() == TruncateCommand
  {
  }

  /** Lookups send the same statement exactly for table names that differ only in letter case. */
  lemma LookupsIgnoreCase(db: Database, a: string, b: string)
    ensures GetTableColumns(db, a).calls == GetTableColumns(db, b).calls <==> SameUpToCase(a, b)
    ensures GetTablePrimaryKeys(db, a).calls == GetTablePrimaryKeys(db, b).calls <==> SameUpToCase(a, b)
    ensures SameUpToCase(a, b) ==>
      GetTableColumns(db, a) == GetTableColumns(db, b) && GetTablePrimaryKeys(db, a) == GetTablePrimaryKeys(db, b)
  {
    UpperSameIff(a, b);
  }

  /** A database with no user tables gives an empty list, not an error. */
  lemma NoTablesGivesEmptyList(db: Database)
    requires !db.fails(TableNamesQuery()) && db.cursor(TableNamesQuery()) == []
    ensures GetTableNames(db) == Reply([Query(TableNamesQuery())], Ok([]))
  {
  }

  /** Catalog rows `ORDERS`, `USERS` come back as exactly those names, in that order. */
  lemma OrdersAndUsers(db: Database)
    requires !db.fails(TableNamesQuery())
    requires db.cursor(TableNamesQuery()) == [Str("ORDERS"), Str("USERS")]
    ensures GetTableNames(db).result == Ok([Str("ORDERS"), Str("USERS")])
  {
    ColumnValuesKeepsTruthyCursor([Str("ORDERS"), Str("USERS")]);
  }
}
