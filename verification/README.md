# DbUnit ODBC and Firebird metadata drivers, modelled in Dafny

This project models two schema-introspection drivers of DbUnit, the PHPUnit
database extension:

- `PHPUnit_Extensions_Database_DB_MetaData_ODBC` wraps an ODBC connection whose
  real database system is named by the connection wrapper's `driver` field. Its
  constructor lower-cases that name and binds the driver to Firebird or MSSQL.
  The bound dialect also determines the schema-object quote character and the truncate command.
  Any other name, and any connection that is not the wrapper, makes construction fail.
  After that, listing tables, listing columns, listing primary keys and toggling
  `IDENTITY_INSERT` each dispatch on the bound dialect.
- `PHPUnit_Extensions_Database_DB_MetaData_Firebird` is the native Firebird driver.
  It uses the same catalog queries as the ODBC driver's Firebird branch.

The database is modelled as data (`Pdo.Database`). For each statement it gives
a cursor of column-0 values, a list of associative rows, and a flag saying
whether sending the statement raises a `PDOException`. Every operation returns a
`Pdo.Reply`: the calls it sent, in order, and its result or the exception.
Construction takes no database at all, so a refused driver cannot have issued a query.

Modules, one per component:

- `Wrappers`: `Option` and `Result`.
- `Ascii`: `strtolower` and `strtoupper` on ASCII, and "equal up to letter case".
- `Pdo`: PHP values and their truthiness, rows, the call log and the database.
- `Fetch`: result shaping.
  - The `while (($x = fetchColumn(0)))` loop is a take-while. It keeps order and
    duplicates and stops at the first falsy value, such as `null`, `""` or `"0"`.
  - The MSSQL `sp_statistics` loop keeps `COLUMN_NAME` of the rows whose `TYPE` is 1.
    (In ODBC's statistics result, TYPE 1 is the clustered-index code. The model
    keeps the filter as written.)
- `Queries`: the dialect-specific SQL.
  A statement is a named fixed fragment, or a fixed head, a table name and a fixed tail.
  `Render` spells it out as the SQL text the driver concatenates.
  Firebird upper-cases the name first; MSSQL splices it verbatim.
- `OdbcMetaData`: the ODBC driver.
- `FirebirdMetaData`: the native Firebird driver, with its own copy of the texts; its query builders are proved to render to them.

Behaviour of the code that a reader might not expect, and that the model keeps:

- The native Firebird primary-key query does upper-case the table name
  (`PHPUnit/Extensions/Database/DB/MetaData/Firebird.php:118`), like the other lookups.
- MSSQL's quote character is the empty string (`PHPUnit/Extensions/Database/DB/MetaData/ODBC.php:129`).
- Table names are spliced into SQL by plain concatenation, without escaping or validation.
  A non-empty name is not required.
- Both construction failures are plain `Exception`s in the code.
  The model tells them apart as `NotOdbcWrapper` and `UnsupportedDbms`, and the latter carries the lower-cased name the message reports.
- A result list ends at the first falsy value. A table or column named `"0"`
  therefore hides every later one (`Fetch.ColumnValuesStopsAtZero`).

## Model

| member | source | states |
|---|---|---|
| Ascii.Lower | PHPUnit/Extensions/Database/DB/MetaData/ODBC.php:118 | `strtolower` gives the string equal to its input up to case that contains no upper-case letter |
| Ascii.Upper | PHPUnit/Extensions/Database/DB/MetaData/ODBC.php:186 | `strtoupper` gives the string equal to its input up to case that contains no lower-case letter |
| Ascii.LowerSameIff | PHPUnit/Extensions/Database/DB/MetaData/ODBC.php:118 | two names lower-case to the same string exactly when they differ only in letter case |
| Ascii.UpperSameIff | PHPUnit/Extensions/Database/DB/MetaData/ODBC.php:223 | two names upper-case to the same string exactly when they differ only in letter case |
| Pdo.Truthy | PHPUnit/Extensions/Database/DB/MetaData/ODBC.php:165 | a fetched value ends the loop exactly when it is null, `false`, `0`, `""` or `"0"` |
| Pdo.IsNumericOne | PHPUnit/Extensions/Database/DB/MetaData/ODBC.php:241 | in this model a string counts as `== 1` exactly when it is a non-empty run of decimal digits denoting one |
| Pdo.LooselyEqualsOne | PHPUnit/Extensions/Database/DB/MetaData/ODBC.php:241 | `$v == 1` is false for null, the boolean itself for booleans, `i == 1` for integers, and "digits denoting one" for strings |
| Fetch.TakeWhile | PHPUnit/Extensions/Database/DB/MetaData/ODBC.php:165-167 | the collected list is the longest prefix of the cursor whose elements all pass the loop test |
| Fetch.LongestPrefixUnique | PHPUnit/Extensions/Database/DB/MetaData/ODBC.php:165-167 | a cursor has only one longest passing prefix, so the loop result is fully determined |
| Fetch.CollectColumn | PHPUnit/Extensions/Database/DB/MetaData/ODBC.php:164-167 | the fetch loop returns the longest all-truthy prefix of the cursor, in cursor order, duplicates kept |
| Fetch.ColumnValuesOfEmpty | PHPUnit/Extensions/Database/DB/MetaData/Firebird.php:74-79 | an empty cursor, or one that starts with a falsy value, gives an empty list rather than an error |
| Fetch.ColumnValuesKeepsTruthyCursor | PHPUnit/Extensions/Database/DB/MetaData/Firebird.php:74-79 | a cursor of truthy values comes back whole, in order, with duplicates |
| Fetch.ColumnValuesStopsAtZero | PHPUnit/Extensions/Database/DB/MetaData/ODBC.php:165 | a `"0"` value ends collection: only the values before it are returned |
| Fetch.RunColumnQuery | PHPUnit/Extensions/Database/DB/MetaData/ODBC.php:162-169 | one `query` call; a failure propagates; otherwise the longest truthy prefix of that statement's cursor |
| Fetch.IsPrimaryKeyRow | PHPUnit/Extensions/Database/DB/MetaData/ODBC.php:241 | a row without `TYPE` is never a key row; a row with an integer `TYPE` is one exactly when that integer is 1 |
| Fetch.KeyColumnNames | PHPUnit/Extensions/Database/DB/MetaData/ODBC.php:240-244 | a value is returned exactly when it is the `COLUMN_NAME` of some row whose `TYPE` equals 1 |
| Fetch.KeyColumnNamesAppend | PHPUnit/Extensions/Database/DB/MetaData/ODBC.php:240-244 | the key columns of concatenated rows are the key columns of each part, in row order |
| Fetch.NonKeyRowDropped | PHPUnit/Extensions/Database/DB/MetaData/ODBC.php:241 | a row whose `TYPE` is not 1 contributes nothing, wherever it sits |
| Fetch.KeyRowKept | PHPUnit/Extensions/Database/DB/MetaData/ODBC.php:241-243 | a row whose `TYPE` is 1 contributes its `COLUMN_NAME` at its own position |
| Fetch.FetchPrimaryKeys | PHPUnit/Extensions/Database/DB/MetaData/ODBC.php:239-244 | the row loop returns the key columns of the rows fetched before the first empty row |
| Fetch.PrimaryKeyColumns | PHPUnit/Extensions/Database/DB/MetaData/ODBC.php:239-244 | a value is returned exactly when it is the `COLUMN_NAME` of a `TYPE` 1 row that the loop reaches, every earlier row being non-empty; never more names than rows |
| Queries.FragmentText | PHPUnit/Extensions/Database/DB/MetaData/ODBC.php:149-283 | the fixed SQL of lines 149-158, 184-193, 219-223, 234, 262 and 283, whitespace collapsed; every lookup head ends in an opening quote, and the identity command puts a space on each side of the name |
| Queries.TablesQuery | PHPUnit/Extensions/Database/DB/MetaData/ODBC.php:147-158 | the list-tables statement is a fixed text: no caller input is spliced into it |
| Queries.TablesTextSameIff | PHPUnit/Extensions/Database/DB/MetaData/ODBC.php:147-158 | the two dialects list tables with different texts, so the dialect alone decides the text |
| Queries.LookupQuery | PHPUnit/Extensions/Database/DB/MetaData/ODBC.php:181-234 | a lookup's text is the dialect's head, which ends in an opening quote, then the dialect's spelling of the name, then a closing quote |
| Queries.IdentityInsertCommand | PHPUnit/Extensions/Database/DB/MetaData/ODBC.php:262-283 | the command text is `SET IDENTITY_INSERT `, the name verbatim, then ` ON` or ` OFF` |
| Queries.RenderNamesTable | PHPUnit/Extensions/Database/DB/MetaData/ODBC.php:219-223 | the table a rendered statement names can be read back from its SQL text |
| Queries.RenderSameIff | PHPUnit/Extensions/Database/DB/MetaData/ODBC.php:184-193 | with head and tail fixed, two statements have the same SQL text exactly when they name the same table |
| Queries.TableLiteral | PHPUnit/Extensions/Database/DB/MetaData/ODBC.php:181-195 | Firebird spells the table name upper-cased, MSSQL verbatim |
| Queries.TableLiteralSameIff | PHPUnit/Extensions/Database/DB/MetaData/ODBC.php:186-193 | a dialect spells two names identically exactly when it treats them as one table: equal up to case on Firebird, equal on MSSQL |
| Queries.LookupQuerySameIff | PHPUnit/Extensions/Database/DB/MetaData/ODBC.php:216-234 | two lookups are the same statement exactly when the dialect treats the names as one table |
| Queries.LookupTextSameIff | PHPUnit/Extensions/Database/DB/MetaData/ODBC.php:184-193 | two lookups have the same SQL text exactly when the dialect treats the names as one table |
| Queries.IdentityInsertOnOffDiffer | PHPUnit/Extensions/Database/DB/MetaData/ODBC.php:262-283 | the ON and OFF commands never have the same text, whatever the table names |
| OdbcMetaData.New | PHPUnit/Extensions/Database/DB/MetaData/ODBC.php:108-137 | a plain PDO object is refused; otherwise construction succeeds exactly when the lower-cased name is `firebird` or `mssql`, binding that dialect with quote `"` and `DELETE FROM`, or the empty quote and `TRUNCATE TABLE`; other names are refused with the lower-cased name |
| OdbcMetaData.NewSameIff | PHPUnit/Extensions/Database/DB/MetaData/ODBC.php:118-136 | two driver names give the same construction outcome exactly when they differ only in letter case |
| OdbcMetaData.QuoteCharAtMostOne | PHPUnit/Extensions/Database/DB/MetaData/ODBC.php:124-129 | a bound driver's quote character is at most one character long |
| OdbcMetaData.MssqlInAnyCase | PHPUnit/Extensions/Database/DB/MetaData/ODBC.php:118-131 | `MSSQL` and `mssql` build the same driver, bound to MSSQL |
| OdbcMetaData.OracleRefused | PHPUnit/Extensions/Database/DB/MetaData/ODBC.php:133-135 | an unsupported name is refused, reported in lower case |
| OdbcMetaData.GetTableNames | PHPUnit/Extensions/Database/DB/MetaData/ODBC.php:144-170 | one fixed query for the bound dialect; failure propagates; otherwise the cursor's longest truthy prefix |
| OdbcMetaData.GetTableColumns | PHPUnit/Extensions/Database/DB/MetaData/ODBC.php:179-205 | one lookup query naming the table; failure propagates; otherwise the cursor's longest truthy prefix |
| OdbcMetaData.GetTablePrimaryKeys | PHPUnit/Extensions/Database/DB/MetaData/ODBC.php:214-249 | Firebird: one query read as a take-while; MSSQL: one prepared `sp_statistics` call whose result is the key columns of the fetched rows; failure propagates |
| OdbcMetaData.DisablePrimaryKeys | PHPUnit/Extensions/Database/DB/MetaData/ODBC.php:256-270 | never fails; sends nothing on Firebird and exactly `SET IDENTITY_INSERT <t> ON` on MSSQL |
| OdbcMetaData.EnablePrimaryKeys | PHPUnit/Extensions/Database/DB/MetaData/ODBC.php:277-291 | never fails; sends nothing on Firebird and exactly `SET IDENTITY_INSERT <t> OFF` on MSSQL |
| OdbcMetaData.TogglesIgnoreFailure | PHPUnit/Extensions/Database/DB/MetaData/ODBC.php:261-267 | the toggles answer the same whether or not the command throws |
| OdbcMetaData.FirebirdLookupsIgnoreCase | PHPUnit/Extensions/Database/DB/MetaData/ODBC.php:181-231 | on Firebird, column and key lookups of names equal up to case behave identically |
| OdbcMetaData.MssqlColumnsNameTableVerbatim | PHPUnit/Extensions/Database/DB/MetaData/ODBC.php:189-193 | on MSSQL, column lookups send the same query for two names exactly when the names are equal |
| OdbcMetaData.MssqlPrimaryKeysNameTableVerbatim | PHPUnit/Extensions/Database/DB/MetaData/ODBC.php:233-236 | on MSSQL, key lookups send the same `sp_statistics` call for two names exactly when the names are equal |
| OdbcMetaData.MssqlTogglesNameTableVerbatim | PHPUnit/Extensions/Database/DB/MetaData/ODBC.php:260-284 | on MSSQL, the identity toggles send the same command for two names exactly when the names are equal |
| OdbcMetaData.MssqlPrimaryKeysAreTypeOneRows | PHPUnit/Extensions/Database/DB/MetaData/ODBC.php:233-245 | on MSSQL, a value is a returned key exactly when it is the `COLUMN_NAME` of a fetched row with `TYPE` 1 |
| FirebirdMetaData.TableNamesQuery | PHPUnit/Extensions/Database/DB/MetaData/Firebird.php:67-70 | the list-tables statement takes no input and renders to this driver's own text |
| FirebirdMetaData.ColumnsQuery | PHPUnit/Extensions/Database/DB/MetaData/Firebird.php:91-93 | the column lookup renders to this driver's own text, then the upper-cased name in single quotes |
| FirebirdMetaData.PrimaryKeysQuery | PHPUnit/Extensions/Database/DB/MetaData/Firebird.php:114-118 | the key lookup renders to this driver's own text, then the upper-cased name in single quotes |
| FirebirdMetaData.GetTableNames | PHPUnit/Extensions/Database/DB/MetaData/Firebird.php:65-80 | one fixed query taking no input; failure propagates; otherwise the cursor's longest truthy prefix |
| FirebirdMetaData.GetTableColumns | PHPUnit/Extensions/Database/DB/MetaData/Firebird.php:89-103 | one query for the upper-cased name; failure propagates; otherwise the cursor's longest truthy prefix |
| FirebirdMetaData.GetTablePrimaryKeys | PHPUnit/Extensions/Database/DB/MetaData/Firebird.php:112-128 | one query for the upper-cased name; failure propagates; otherwise the cursor's longest truthy prefix |
| FirebirdMetaData.AgreesWithOdbcFirebird | PHPUnit/Extensions/Database/DB/MetaData/Firebird.php:65-128 | the native driver's three lookups equal the ODBC driver's Firebird branch on every database and table name |
| FirebirdMetaData.TruncateAgreesWithOdbc | PHPUnit/Extensions/Database/DB/MetaData/Firebird.php:58 | the native truncate command `DELETE FROM` is the one the ODBC driver binds for Firebird |
| FirebirdMetaData.LookupsIgnoreCase | PHPUnit/Extensions/Database/DB/MetaData/Firebird.php:91-118 | column and key lookups send the same statement exactly for names equal up to case, and then answer identically |
| FirebirdMetaData.NoTablesGivesEmptyList | PHPUnit/Extensions/Database/DB/MetaData/Firebird.php:72-79 | a database with no user tables yields an empty list and exactly one query |
| FirebirdMetaData.OrdersAndUsers | PHPUnit/Extensions/Database/DB/MetaData/Firebird.php:67-79 | catalog rows `ORDERS`, `USERS` come back as exactly those names in that order |

## Left out

- The connection wrapper's own constructor (`ODBC.php:56-74`): it opens a real PDO connection, which is I/O. The model keeps only its `driver` field.
- The wrapper's `version` and the driver's copy of it (`ODBC.php:69`, `ODBC.php:119`): a float that no operation reads.
- The parent class `PHPUnit_Extensions_Database_DB_MetaData` is not part of this model.
  This covers its constructor, which runs before the wrapper check, and the quote character that the native Firebird driver inherits.
  It also covers the identity toggles that driver inherits.
- What executing SQL means, along with PDO error modes and fetch modes.
  Whether `query`, `prepare`/`execute` or `exec` throws a `PDOException` is a fixed property of the statement sent (`Pdo.ExecCommand` for `exec`).
  A failing read propagates it.
- Exception message texts: construction errors are the two `ConstructError` cases.
- Byte-exact whitespace inside the SQL literals: each fixed fragment is stored with its whitespace collapsed to single spaces.
- The database is handed the statement, not its rendered text. Two different statements with the same text could in principle get different answers. The model does not prove that the statements the drivers build have pairwise distinct texts.
- Locale-dependent case mapping: `strtolower`/`strtoupper` act on ASCII letters only.
- SQL escaping: the code has none, so the model has none.
- Fetched floats and arrays: `Pdo.Value` covers null, booleans, integers and strings.
- Pdo.IsNumericOne: accepts only runs of decimal digits denoting one, that is, leading zeros followed by `1`. PHP's `== 1` also accepts signs, surrounding whitespace, decimals and exponents (`" 1"`, `"+1"`, `"1.0"`, `"1e0"`). These forms are left out because `sp_statistics` reports its `smallint` `TYPE` as plain digits.
- Pdo.LooselyEqualsOne: for strings it accepts only runs of decimal digits denoting one, that is, leading zeros followed by `1`. PHP's `== 1` also accepts signs, surrounding whitespace, decimals and exponents, left out for the same reason.
- Concurrency: the drivers have none of their own.
