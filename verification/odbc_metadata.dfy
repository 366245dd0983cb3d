/**
 The ODBC metadata driver. Construction reads the driver name off the
 connection wrapper, lower-cases it and binds the driver to one dialect,
 fixing the schema-object quote character and the truncate command; every
 later operation dispatches on that dialect. Because `Dialect` is closed,
 every dispatch has a branch, and a driver exists only once a dialect is bound.
 */
module OdbcMetaData {
  import opened Wrappers
  import opened Ascii
  import opened Pdo
  import opened Fetch
  import opened Queries

  /** The connection handed to the constructor: a plain PDO object or the ODBC wrapper with its driver name. */
  datatype Connection = PlainPdo | OdbcWrapper(driver: string)

  /** Why construction fails. `UnsupportedDbms` carries the lower-cased name. */
  datatype ConstructError = NotOdbcWrapper | UnsupportedDbms(realDriver: string)

  /**
   A bound driver. Its two dialect-wide settings follow from its dialect, so
   no driver carries the settings of another dialect.
   */
  datatype Driver = Driver(dialect: Dialect) {
    /** The character that quotes schema object names. */
    function SchemaObjectQuoteChar(): string {
      match dialect
      case Firebird => "\""
      case Mssql => ""
    }

    /** The command that empties a table. */
    function TruncateCommand(): string {
      match dialect
      case Firebird => "DELETE FROM"
      case Mssql => "TRUNCATE TABLE"
    }
  }

  const SupportedNames: set<string> := {"firebird", "mssql"}

  /**
   The constructor. A plain PDO connection is refused; otherwise the
   lower-cased driver name selects the dialect and its settings, and any
   other name is refused. No database call is involved.
   */
  function New(conn: Connection): (r: Result<Driver, ConstructError>)
    ensures conn.PlainPdo? ==> r == Err(NotOdbcWrapper)
    ensures conn.OdbcWrapper? ==> (r.Ok? <==> Lower(conn.driver) in SupportedNames)
    ensures conn.OdbcWrapper? && r.Ok? ==> DialectName(r.value.dialect) == Lower(conn.driver)
    ensures conn.OdbcWrapper? && r.Err? ==> r.error == UnsupportedDbms(Lower(conn.driver))
    ensures r.Ok? && r.value.dialect == Firebird ==>
      r.value.SchemaObjectQuoteChar() == "\"" && r.value.TruncateCommand() == "DELETE FROM"
    ensures r.Ok? && r.value.dialect == Mssql ==>
      r.value.SchemaObjectQuoteChar() == "" && r.value.TruncateCommand() == "TRUNCATE TABLE"
  {
    match conn
    case PlainPdo => Err(NotOdbcWrapper)
    case OdbcWrapper(driver) =>
      var realDriver := Lower(driver);
      if realDriver == "firebird" then Ok(Driver(Firebird))
      else if realDriver == "mssql" then Ok(Driver(Mssql))
      else Err(UnsupportedDbms(realDriver))
  }

  /** Construction outcomes coincide exactly for driver names that differ only in letter case. */
  lemma NewSameIff(a: string, b: string)
    ensures New(OdbcWrapper(a)) == New(OdbcWrapper(b)) <==> SameUpToCase(a, b)
  {
    LowerSameIff(a, b);
    var ra, rb := New(OdbcWrapper(a)), New(OdbcWrapper(b));
    if ra == rb {
      if ra.Ok? {
        assert Lower(a) == DialectName(ra.value.dialect) == Lower(b);
      } else {
        assert UnsupportedDbms(Lower(a)) == ra.error == UnsupportedDbms(Lower(b));
      }
    }
  }

  /** A bound driver's quote character is at most one character long. */
  lemma QuoteCharAtMostOne(conn: Connection)
    requires New(conn).Ok?
    ensures |New(conn).value.SchemaObjectQuoteChar()| <= 1
  {
  }

  /** `getTableNames`: one fixed query, the cursor's leading truthy values in order. */
  function GetTableNames(drv: Driver, db: Database): (r: Reply<seq<Value>>)
    ensures r.calls == [Query(TablesQuery(drv.dialect))]
    ensures r.result.Err? <==> db.fails(TablesQuery(drv.dialect))
    ensures r.result.Ok? ==> IsLongestPrefix(db.cursor(TablesQuery(drv.dialect)), Truthy, r.result.value)
  {
    RunColumnQuery(db, TablesQuery(drv.dialect))
  }

  /** `getTableColumns`: one catalog query naming the table, the cursor's leading truthy values in order. */
  function GetTableColumns(drv: Driver, db: Database, table: string): (r: Reply<seq<Value>>)
    ensures r.calls == [Query(LookupQuery(drv.dialect, Columns, table))]
    ensures r.result.Err? <==> db.fails(LookupQuery(drv.dialect, Columns, table))
    ensures r.result.Ok? ==>
      IsLongestPrefix(db.cursor(LookupQuery(drv.dialect, Columns, table)), Truthy, r.result.value)
  {
    RunColumnQuery(db, LookupQuery(drv.dialect, Columns, table))
  }

  /**
   `getTablePrimaryKeys`: on Firebird a catalog query read like the others;
   on MSSQL a prepared `sp_statistics` call whose rows are filtered to
   `TYPE == 1` and projected to `COLUMN_NAME`.
   */
  function GetTablePrimaryKeys(drv: Driver, db: Database, table: string): (r: Reply<seq<Value>>)
    ensures r.result.Err? <==> db.fails(LookupQuery(drv.dialect, PrimaryKeys, table))
    ensures drv.dialect == Firebird ==>
      && r.calls == [Query(LookupQuery(Firebird, PrimaryKeys, table))]
      && (r.result.Ok? ==>
            IsLongestPrefix(db.cursor(LookupQuery(Firebird, PrimaryKeys, table)), Truthy, r.result.value))
    ensures drv.dialect == Mssql ==>
      && r.calls == [PrepareExecute(LookupQuery(Mssql, PrimaryKeys, table))]
      && (r.result.Ok? ==>
            r.result.value == PrimaryKeyColumns(db.rows(LookupQuery(Mssql, PrimaryKeys, table))))
  {
    var q := LookupQuery(drv.dialect, PrimaryKeys, table);
    match drv.dialect
    case Firebird => RunColumnQuery(db, q)
    case Mssql =>
      if db.fails(q) then Reply([PrepareExecute(q)], Err(PdoException(q)))
      else Reply([PrepareExecute(q)], Ok(PrimaryKeyColumns(db.rows(q))))
  }

  /** The shared body of the two identity toggles; a `PDOException` from `exec` is caught and dropped. */
  function SetIdentityInsert(drv: Driver, db: Database, table: string, on: bool): (r: Reply<()>) {
    match drv.dialect
    case Firebird => Reply([], Ok(()))
    case Mssql =>
      var command := IdentityInsertCommand(table, on);
      match ExecCommand(db, command)
      case Ok(_) => Reply([Exec(command)], Ok(()))
      case Err(_) => Reply([Exec(command)], Ok(()))
  }

  /** `disablePrimaryKeys`: nothing on Firebird; `SET IDENTITY_INSERT <table> ON` on MSSQL; never fails. */
  function DisablePrimaryKeys(drv: Driver, db: Database, table: string): (r: Reply<()>)
    ensures r.result.Ok?
    ensures drv.dialect == Firebird ==> r.calls == []
    ensures drv.dialect == Mssql ==> r.calls == [Exec(IdentityInsertCommand(table, true))]
  {
    SetIdentityInsert(drv, db, table, true)
  }

  /** `enablePrimaryKeys`: nothing on Firebird; `SET IDENTITY_INSERT <table> OFF` on MSSQL; never fails. */
  function EnablePrimaryKeys(drv: Driver, db: Database, table: string): (r: Reply<()>)
    ensures r.result.Ok?
    ensures drv.dialect == Firebird ==> r.calls == []
    ensures drv.dialect == Mssql ==> r.calls == [Exec(IdentityInsertCommand(table, false))]
  {
    SetIdentityInsert(drv, db, table, false)
  }

  /** Whether the toggle command fails makes no difference to what the caller sees. */
  lemma TogglesIgnoreFailure(drv: Driver, db1: Database, db2: Database, table: string)
    ensures DisablePrimaryKeys(drv, db1, table) == DisablePrimaryKeys(drv, db2, table)
    ensures EnablePrimaryKeys(drv, db1, table) == EnablePrimaryKeys(drv, db2, table)
  {
  }

  /** On Firebird, table names that differ only in letter case are looked up identically. */
  lemma FirebirdLookupsIgnoreCase(drv: Driver, db: Database, a: string, b: string)
    requires drv.dialect == Firebird && SameUpToCase(a, b)
    ensures GetTableColumns(drv, db, a) == GetTableColumns(drv, db, b)
    ensures GetTablePrimaryKeys(drv, db, a) == GetTablePrimaryKeys(drv, db, b)
  {
    LookupQuerySameIff(Firebird, Columns, a, b);
    LookupQuerySameIff(Firebird, PrimaryKeys, a, b);
  }

  /** On MSSQL column lookups send the table name verbatim: different names, different queries. */
  lemma MssqlColumnsNameTableVerbatim(drv: Driver, db: Database, a: string, b: string)
    requires drv.dialect == Mssql
    ensures GetTableColumns(drv, db, a).calls == GetTableColumns(drv, db, b).calls <==> a == b
  {
  }

  /** On MSSQL key lookups send the table name verbatim: different names, different `sp_statistics` calls. */
  lemma MssqlPrimaryKeysNameTableVerbatim(drv: Driver, db: Database, a: string, b: string)
    requires drv.dialect == Mssql
    ensures GetTablePrimaryKeys(drv, db, a).calls == GetTablePrimaryKeys(drv, db, b).calls <==> a == b
  {
  }

  /** On MSSQL the toggles send the table name verbatim: different names, different commands. */
  lemma MssqlTogglesNameTableVerbatim(drv: Driver, db: Database, a: string, b: string)
    requires drv.dialect == Mssql
    ensures DisablePrimaryKeys(drv, db, a).calls == DisablePrimaryKeys(drv, db, b).calls <==> a == b
    ensures EnablePrimaryKeys(drv, db, a).calls == EnablePrimaryKeys(drv, db, b).calls <==> a == b
  {
  }

  /**
   On MSSQL the primary keys are exactly the `COLUMN_NAME`s of fetched rows
   whose `TYPE` is 1: every such name is returned and nothing else is.
   */
  lemma MssqlPrimaryKeysAreTypeOneRows(drv: Driver, db: Database, table: string, v: Value)
    requires drv.dialect == Mssql
    requires !db.fails(LookupQuery(Mssql, PrimaryKeys, table))
    ensures var fetched := TakeWhile(db.rows(LookupQuery(Mssql, PrimaryKeys, table)), IsFetchedRow);
      v in GetTablePrimaryKeys(drv, db, table).result.value <==>
        exists row :: row in fetched && IsPrimaryKeyRow(row) && Field(row, "COLUMN_NAME") == v
  {
  }

  /** Driver names spelled in any case select the same driver. */
  lemma MssqlInAnyCase()
    ensures New(OdbcWrapper("MSSQL")) == New(OdbcWrapper("mssql"))
    ensures New(OdbcWrapper("mssql")).Ok? && New(OdbcWrapper("mssql")).value.dialect == Mssql
  {
  }

  /** An unsupported database system is refused, naming it in lower case. */
  lemma OracleRefused()
    ensures New(OdbcWrapper("Oracle")) == Err(UnsupportedDbms("oracle"))
  {
    assert Lower("Oracle") == "oracle";
  }
}
