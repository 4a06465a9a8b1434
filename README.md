# DatabaseManager: a verified model of the statement builders

DatabaseManager is a small Java library over JDBC. A `DBManager` handle
targets SQLite or MySQL. Fluent builders record table columns
(`TableBuilder`), stage row values (`InsertBuilder`) and collect WHERE /
ORDER BY / LIMIT clauses (`QueryBuilder`). The handle then turns that state
into SQL text plus a positional parameter list. Fetched rows are read back
through best-effort typed accessors (`QueryResult` and the handle's own
`get*` methods).

This project models that in-memory core in Dafny and proves its properties.
The model follows the code's own shape:

- **`Values`** (`values.dfy`) holds the dynamic value type (`VStr | VInt | VLong | VBool | VDouble | VDate | VNull`).
  - Java `int` and `long` are bounded subset types.
  - `Long.intValue()` wraps to 32 bits, and a double's `intValue()` saturates.
  - Integer and long decimal text round-trips through the model of `Integer.parseInt` / `Long.parseLong`.
  - Lower-casing is modelled, and so is the count of `?` marks in SQL text.
- **`Dialect`** (`dialect.dfy`) holds the choices that depend on SQLite or MySQL: type translation, primary-key syntax, table suffix, Boolean parameter binding, the truncate statements and `getDialectQuery`.
- **`Query`** (`query_builder.dfy`) holds the `QueryBuilder` class.
  - Its fields are the source's (`whereClause`, `parameters`, `orderByClause`, `limitClause`).
  - A ghost record of the calls made so far is tied to those fields by `Valid()`.
  - `BuildQuery` compiles the SELECT without changing any field.
  - The central property is the lock-step of `?` placeholders and parameters.
- **`Results`** (`query_result.dfy`) holds `QueryResult` as a datatype over a `map<string, Value>`, plus the `fromList` loop.
- **`Database`** (`db_manager.dfy`) holds the `DBManager` class.
  - The `LinkedHashMap` of columns is a sequence of names plus a map, so re-adding a name keeps its place. `values` is a map.
  - `createTable` and `insertData` are loops that return the statements they would send, proved against specification functions (`CreateTableSql`, `WithDefaults`, `InsertSql`, `BoundValues`).
  - `select` and `selectByQuery` update `values` from a fetched row. The row is given as a sequence of (name, value) pairs.
- **`Tables`** and **`Inserts`** (`table_builder.dfy`, `insert_builder.dfy`) hold the two builder classes. They mutate the shared handle.

The driver is not modelled. Every operation that would talk to it takes the
outcome as a parameter: `connected` is the result of the connection check,
and `InsertReply` / `FetchReply` are what the driver answers.

The model follows these behaviours of the code as written:

- `values` is never cleared by `insertData`. A second insert through the same handle sends the earlier values again.
- `columns` is never cleared by `createTable`.
- The INSERT column order is the `HashMap`'s iteration order. It is modelled as arbitrary: `InsertStatement` picks any remaining key. Only the alignment of names and parameters is stated.

## Model

| member | source | states |
|---|---|---|
| Values.ParseDecimal | src/main/java/org/exclover/DBManager.java:214 | a result exactly for decimal digits, or a `+`/`-` sign followed by at least one digit; the value is the digits' value, negated after `-`; every other text (empty, a bare sign, any other character) is rejected |
| Values.ParseInt32 | src/main/java/org/exclover/QueryResult.java:79 | Integer.parseInt succeeds exactly when the text parses and the value is in the `int` range |
| Values.ParseInt64 | src/main/java/org/exclover/QueryResult.java:109 | Long.parseLong succeeds exactly when the text parses and the value is in the `long` range |
| Values.DecimalRoundTrip | src/main/java/org/exclover/QueryResult.java:78-82 | parsing the decimal text of any integer gives that integer back |
| Values.Int32RoundTrip | src/main/java/org/exclover/QueryResult.java:78-82 | the text of an `int` parses back to itself |
| Values.Int64RoundTrip | src/main/java/org/exclover/QueryResult.java:108-112 | the text of a `long` parses back to itself |
| Values.NatToDecimalDigits | src/main/java/org/exclover/QueryBuilder.java:152 | the decimal text of a number is a non-empty digit string whose value is the number |
| Values.DecimalNoPlaceholder | src/main/java/org/exclover/QueryBuilder.java:152-164 | numbers written into LIMIT/OFFSET contain no `?` |
| Values.WrapToInt32 | src/main/java/org/exclover/QueryResult.java:75 | Long.intValue() keeps the value modulo 2^32 and is the identity on the `int` range |
| Values.SaturateToInt32 | src/main/java/org/exclover/QueryResult.java:75 | a double's intValue() clamps to the `int` range |
| Values.SaturateToInt64 | src/main/java/org/exclover/QueryResult.java:105 | a double's longValue() clamps to the `long` range |
| Values.ToText | src/main/java/org/exclover/QueryResult.java:52 | the text of a value: a string is itself, `null` is "null", an int or long text parses back to the number, a Boolean text reads as true exactly when it is true and is no number |
| Values.IntValue | src/main/java/org/exclover/QueryResult.java:74-75 | intValue() of each numeric kind: the int itself, a long wrapped, a double clamped |
| Values.LongValue | src/main/java/org/exclover/QueryResult.java:104-105 | longValue() of each numeric kind |
| Values.ToLower | src/main/java/org/exclover/QueryResult.java:170 | lower-casing keeps the length and maps each character |
| Values.TrueTextCases | src/main/java/org/exclover/QueryResult.java:170-171 | text counts as true exactly for "1" or "true" in any mix of cases |
| Values.PlaceholdersAppend | src/main/java/org/exclover/QueryBuilder.java:196-220 | the `?` count of concatenated text is the sum of the parts' counts |
| Values.NoPlaceholderWithoutMark | src/main/java/org/exclover/QueryBuilder.java:66-73 | text without a `?` has a count of zero |
| Dialect.ConvertDataTypeToMySQL | src/main/java/org/exclover/DBManager.java:325-343 | INTEGER becomes INT, REAL becomes DOUBLE, BOOLEAN becomes TINYINT(1), and every other name, VARCHAR(n), TEXT, DATE, TIMESTAMP and unknown names included, is unchanged |
| Dialect.ConvertIdempotent | src/main/java/org/exclover/DBManager.java:325-343 | translating a translated name changes nothing |
| Dialect.ColumnType | src/main/java/org/exclover/DBManager.java:272-276 | SQLite keeps the recorded type; MySQL translates it |
| Dialect.BindParameter | src/main/java/org/exclover/DBManager.java:386-394 | under MySQL a Boolean is bound as 1 or 0; every other value, and every value under SQLite, is bound unchanged |
| Dialect.KeyColumnIsId | src/main/java/org/exclover/DBManager.java:262-266 | both dialects open the column list with the key column `id` |
| Dialect.SuffixOnlyForMySQL | src/main/java/org/exclover/DBManager.java:304-306 | CREATE TABLE gets a suffix after the column list exactly for MySQL |
| Dialect.DialectQuery | src/main/java/org/exclover/DBManager.java:676-678 | the SQLite text for SQLite, the MySQL text for MySQL |
| Dialect.TruncateStatements | src/main/java/org/exclover/DBManager.java:690-697 | SQLite deletes every row, then resets the table's sqlite_sequence entry; MySQL issues one TRUNCATE TABLE |
| Query.OperatorPlaceholder | src/main/java/org/exclover/QueryBuilder.java:66-133 | each comparison text carries exactly one `?` |
| Query.ParametersOf | src/main/java/org/exclover/QueryBuilder.java:66-133 | the parameter list holds one value per predicate call, in call order |
| Query.RenderWhereEmpty | src/main/java/org/exclover/QueryBuilder.java:66-133 | the WHERE text is empty exactly when no predicate has been added |
| Query.RenderWhereSnoc | src/main/java/org/exclover/QueryBuilder.java:66-73 | a further call appends its fragment to the clause and changes nothing before it |
| Query.ParametersSnoc | src/main/java/org/exclover/QueryBuilder.java:66-73 | a further call appends exactly its value to the parameter list |
| Query.RenderWherePrefix | src/main/java/org/exclover/QueryBuilder.java:66-133 | the clause after the first k calls is a prefix of the final clause |
| Query.ConnectorPlacement | src/main/java/org/exclover/QueryBuilder.java:66-133 | the first predicate has no connector; every later one is preceded by its own connector, " AND " or " OR " |
| Query.WherePlaceholderCount | src/main/java/org/exclover/QueryBuilder.java:66-133 | with no `?` in column names, the clause has exactly one `?` per predicate call |
| Query.PrefixPlaceholders | src/main/java/org/exclover/QueryBuilder.java:66-133 | the clause after the first k calls holds exactly k `?` |
| Query.PlaceholderAlignment | src/main/java/org/exclover/QueryBuilder.java:66-133 | the k-th call's fragment holds the (k+1)-th `?` of the clause, and the k-th parameter is that call's value |
| Query.NoPlaceholderInOrderBy | src/main/java/org/exclover/QueryBuilder.java:141-144 | an ORDER BY over a column without `?` adds no placeholder |
| Query.NoPlaceholderInLimit | src/main/java/org/exclover/QueryBuilder.java:151-165 | LIMIT and LIMIT/OFFSET text adds no placeholder |
| Query.HeadPlaceholders | src/main/java/org/exclover/QueryBuilder.java:196-208 | the SELECT head and " WHERE " add no placeholder beyond the clause's own |
| Query.QueryPlaceholderCount | src/main/java/org/exclover/QueryBuilder.java:196-228 | the compiled SELECT, counting or not, has exactly as many `?` as there are parameters |
| Query.CompiledPlaceholders | src/main/java/org/exclover/QueryBuilder.java:196-220 | the compiled SELECT's `?` are exactly the WHERE clause's |
| Query.QueryBuilder.constructor | src/main/java/org/exclover/QueryBuilder.java:24-31 | a new builder has an empty clause, no parameters, no ordering and no limit |
| Query.QueryBuilder.AddPredicate | src/main/java/org/exclover/QueryBuilder.java:66-133 | a predicate call appends its fragment and its one parameter, and leaves ORDER BY and LIMIT alone |
| Query.QueryBuilder.Where | src/main/java/org/exclover/QueryBuilder.java:66-73 | appends `col = ?`, after " AND " unless first, and one parameter |
| Query.QueryBuilder.WhereLike | src/main/java/org/exclover/QueryBuilder.java:81-88 | appends `col LIKE ?`, after " AND " unless first, and the string parameter |
| Query.QueryBuilder.WhereGreaterThan | src/main/java/org/exclover/QueryBuilder.java:96-103 | appends `col > ?`, after " AND " unless first, and one parameter |
| Query.QueryBuilder.WhereLessThan | src/main/java/org/exclover/QueryBuilder.java:111-118 | appends `col < ?`, after " AND " unless first, and one parameter |
| Query.QueryBuilder.OrWhere | src/main/java/org/exclover/QueryBuilder.java:126-133 | appends `col = ?`, after " OR " unless first, and one parameter |
| Query.QueryBuilder.OrderBy | src/main/java/org/exclover/QueryBuilder.java:141-144 | replaces any earlier ordering with ` ORDER BY col ASC` or `DESC`; nothing else changes |
| Query.QueryBuilder.Limit | src/main/java/org/exclover/QueryBuilder.java:151-154 | replaces any earlier limit with ` LIMIT n`; nothing else changes |
| Query.QueryBuilder.LimitOffset | src/main/java/org/exclover/QueryBuilder.java:162-165 | replaces any earlier limit with ` LIMIT n OFFSET m`; nothing else changes |
| Query.CompileQuery | src/main/java/org/exclover/QueryBuilder.java:196-220 | counting gives `SELECT COUNT(*) FROM t` and the optional WHERE only; otherwise `SELECT * FROM t`, then the optional WHERE, then ORDER BY, then LIMIT. " WHERE " appears exactly when the clause is non-empty |
| Query.QueryBuilder.BuildQuery | src/main/java/org/exclover/QueryBuilder.java:196-220 | the compiled SELECT of the builder's fields; no field changes, so repeated calls agree; on a builder whose fields came from its calls, with no `?` in the names, the query has exactly as many `?` as there are parameters |
| Query.QueryBuilder.GetParameters | src/main/java/org/exclover/QueryBuilder.java:226-228 | returns the parameter list and changes nothing |
| Results.QueryResult.Has | src/main/java/org/exclover/QueryResult.java:209-211 | true only for a column present in the row; with HasDecidesDefault, true exactly for a present, non-null column |
| Results.QueryResult.GetStringOr | src/main/java/org/exclover/QueryResult.java:50-53 | the default for an absent or null column, otherwise the value's text |
| Results.QueryResult.GetString | src/main/java/org/exclover/QueryResult.java:40-42 | the same with "" as default |
| Results.QueryResult.GetIntOr | src/main/java/org/exclover/QueryResult.java:70-83 | the default when absent or null; intValue() for a number; the parse of the text when it is an `int`, the default otherwise (never fails) |
| Results.QueryResult.GetInt | src/main/java/org/exclover/QueryResult.java:60-62 | the same with 0 as default |
| Results.QueryResult.GetLongOr | src/main/java/org/exclover/QueryResult.java:100-113 | as GetIntOr, with longValue() and `long` parsing |
| Results.QueryResult.GetLong | src/main/java/org/exclover/QueryResult.java:90-92 | the same with 0 as default |
| Results.QueryResult.GetBooleanOr | src/main/java/org/exclover/QueryResult.java:160-172 | the default when absent or null; a Boolean itself; a number is true iff its intValue() is non-zero; other text is true iff it is "true" in any case or "1" |
| Results.QueryResult.GetBoolean | src/main/java/org/exclover/QueryResult.java:150-152 | the same with false as default |
| Results.QueryResult.GetDateOr | src/main/java/org/exclover/QueryResult.java:189-202 | a date value is returned; an absent, null or non-date value gives the default |
| Results.QueryResult.GetDate | src/main/java/org/exclover/QueryResult.java:179-181 | a date exactly when the column holds one, null otherwise |
| Results.FromList | src/main/java/org/exclover/QueryResult.java:27-33 | one result per row, same length and order, the i-th wrapping the i-th map |
| Results.IntTextReadsBack | src/main/java/org/exclover/QueryResult.java:70-83 | a column holding the text of an `int` reads back as that `int`, whatever the default |
| Results.LongTextReadsBack | src/main/java/org/exclover/QueryResult.java:100-113 | a column holding the text of a `long` reads back as that `long` |
| Results.LongTextOverflowsInt | src/main/java/org/exclover/QueryResult.java:78-82 | text of a `long` above the `int` range falls back to the default in getInt and parses in getLong |
| Results.LongValueWrapsInGetInt | src/main/java/org/exclover/QueryResult.java:74-75 | for every stored `long`, getInt agrees with it modulo 2^32, equals it when it fits an `int` and differs from it otherwise; getLong returns it unchanged |
| Results.HasDecidesDefault | src/main/java/org/exclover/QueryResult.java:209-211 | a column mapped to null is not `has` and a present non-null column is; has(k) is false exactly when getString(k, d) returns d for every default d, and then getInt, getLong and getBoolean also return their defaults |
| Results.AccessorsReturnStoredValue | src/main/java/org/exclover/QueryResult.java:40-202 | each stored string, int, long, Boolean and date reads back unchanged through its own accessor |
| Results.BooleanText | src/main/java/org/exclover/QueryResult.java:169-171 | a string column is true exactly for "1" or a spelling of "true" |
| Database.PlaceholderListCount | src/main/java/org/exclover/DBManager.java:371-378 | n placeholders written with the `first` flag hold exactly n `?` |
| Database.JoinNoPlaceholder | src/main/java/org/exclover/DBManager.java:371-377 | a list of names without `?` joins to text without `?` |
| Database.JoinSnoc | src/main/java/org/exclover/DBManager.java:371-377 | one more name is written after `, ` unless it is the first |
| Database.DefaultLiteral | src/main/java/org/exclover/DBManager.java:282-293 | a string default in single quotes, unescaped; a Boolean as 1 or 0 in both dialects; anything else as its text |
| Database.ConstraintClause | src/main/java/org/exclover/DBManager.java:296-298 | the constraints are written only when present and non-empty |
| Database.ColumnTexts | src/main/java/org/exclover/DBManager.java:268-299 | one definition text per column, in column order |
| Database.CommaPrefixedConcat | src/main/java/org/exclover/DBManager.java:268-269 | the column list of two runs of columns is the two lists one after the other |
| Database.ColumnListAt | src/main/java/org/exclover/DBManager.java:268-299 | in the column list of CREATE TABLE, the i-th column's `, name type ...` comes right after the definitions of the earlier columns and right before those of the later ones |
| Database.CommaPrefixedAt | src/main/java/org/exclover/DBManager.java:268-269 | a comma-prefixed list splits at any part into what comes before, `, part`, and what comes after |
| Database.DialectsShareColumnText | src/main/java/org/exclover/DBManager.java:272-298 | columns whose type needs no translation are written identically by both dialects |
| Database.DefinitionText | src/main/java/org/exclover/DBManager.java:278-298 | writing one column gives its definition text |
| Database.OrderedColumns | src/main/java/org/exclover/DBManager.java:268 | the definitions listed in the order their names were first added |
| Database.WithDefaultsKeepsStaged | src/main/java/org/exclover/DBManager.java:355-363 | the default fill never changes an already staged value, and adds a key only for a column with a non-null default |
| Database.WithDefaultsFills | src/main/java/org/exclover/DBManager.java:355-363 | every column with a non-null default and no staged value ends up holding its default |
| Database.BoundValues | src/main/java/org/exclover/DBManager.java:379-394 | the i-th bound parameter is the i-th named column's value in the dialect's encoding |
| Database.InsertPlaceholderCount | src/main/java/org/exclover/DBManager.java:365-382 | the INSERT has exactly one `?` per column named |
| Database.InsertStatement | src/main/java/org/exclover/DBManager.java:365-382 | the INSERT names every pending column once, in some order, and the i-th value is the i-th column's |
| Database.BindParameters | src/main/java/org/exclover/DBManager.java:386-394 | each value is bound in the dialect's encoding, in order |
| Database.OrderingLength | src/main/java/org/exclover/DBManager.java:370-380 | an order that names every pending key once has one entry per key |
| Database.InsertLockStep | src/main/java/org/exclover/DBManager.java:365-394 | column names, `?` marks and bound values have the same number, the number of pending values |
| Database.PutColumnsRowValues | src/main/java/org/exclover/DBManager.java:430-436 | after copying a row with distinct column names, each kept column holds the row's value |
| Database.PutColumnsUntouched | src/main/java/org/exclover/DBManager.java:430-436 | a key the row does not name (or `id` when it is skipped) keeps its presence and its value |
| Database.PutColumnsKeys | src/main/java/org/exclover/DBManager.java:430-436 | every key after the copy was there before or is a column of the row |
| Database.FetchedRowIsPendingSet | src/main/java/org/exclover/DBManager.java:547-558 | after selectByQuery's copy the pending values are exactly the row's columns, `id` included |
| Database.SelectKeepsOtherValues | src/main/java/org/exclover/DBManager.java:430-436 | select(table, id) leaves `id` and every key the row lacks as it was |
| Database.BooleanAccessorsDiffer | src/main/java/org/exclover/DBManager.java:235-241 | for every stored `int`, the handle's getBoolean is true exactly when it is 1, while a result row's getBoolean is true exactly when it is non-zero |
| Database.DBManager.constructor | src/main/java/org/exclover/DBManager.java:50-54 | a new handle has no columns and no pending values |
| Database.DBManager.Columns | src/main/java/org/exclover/DBManager.java:268 | one definition per recorded name |
| Database.DBManager.AddColumnWithDefault | src/main/java/org/exclover/DBManager.java:482-484 | stores the definition under its name; a new name goes last and an existing name keeps its place; no name appears twice; values are untouched |
| Database.DBManager.AddColumn | src/main/java/org/exclover/DBManager.java:471-473 | the same with no default |
| Database.DBManager.SetValue | src/main/java/org/exclover/DBManager.java:491-493 | stages the value under the name, overwriting, and changes nothing else |
| Database.DBManager.GetString | src/main/java/org/exclover/DBManager.java:200-203 | agrees with a result row's getString over the pending values |
| Database.DBManager.GetInteger | src/main/java/org/exclover/DBManager.java:211-215 | the default when absent or null; an Integer itself; otherwise Integer.parseInt of the text, which throws NumberFormatException exactly when the text is not an `int` |
| Database.DBManager.GetBoolean | src/main/java/org/exclover/DBManager.java:235-241 | the default when absent or null; a Boolean itself; anything else true iff its lower-cased text is "true" or "1" |
| Database.DBManager.GetDialectQuery | src/main/java/org/exclover/DBManager.java:676-678 | the query for the handle's own dialect |
| Database.CreateTableText | src/main/java/org/exclover/DBManager.java:259-306 | the CREATE TABLE text is `CreateTableSql` over the registered columns in their order: the head, the key column, each column definition after a comma, `)`, then the dialect suffix |
| Database.AppendColumn | src/main/java/org/exclover/DBManager.java:370-378 | after one more column, the names are the comma-joined list one longer and the marks are one `?` more, with no comma before the first |
| Database.DBManager.CreateTableStatements | src/main/java/org/exclover/DBManager.java:248-306 | without a connection nothing is sent and the result is false; otherwise the result is true and, with dropIfExists, a DROP TABLE IF EXISTS comes first; then CREATE TABLE IF NOT EXISTS t (key column, every column in order, `)` and the MySQL engine suffix) |
| Database.DBManager.FillDefaults | src/main/java/org/exclover/DBManager.java:355-363 | the pending values become the default fill of the old ones; the columns are unchanged |
| Database.DBManager.InsertData | src/main/java/org/exclover/DBManager.java:350-408 | -1 and no statement without a connection; otherwise the default fill, then an INSERT over every pending column with aligned bound parameters, values not cleared, and the generated key or -1 |
| Database.DBManager.Select | src/main/java/org/exclover/DBManager.java:416-448 | `SELECT * FROM t WHERE id = ?` with the id; on a row, every column but `id` is put into the pending values and the rest kept; otherwise nothing changes |
| Database.DBManager.SelectByQuery | src/main/java/org/exclover/DBManager.java:533-570 | the builder's compiled SELECT and parameters; on a row the pending values are cleared and every column, `id` included, copied; otherwise nothing changes |
| Database.DBManager.TruncateTable | src/main/java/org/exclover/DBManager.java:685-705 | false and nothing sent without a connection; otherwise true after the dialect's truncate statements |
| Tables.StringDefault | src/main/java/org/exclover/TableBuilder.java:151-166 | a null string default means no default; otherwise the string |
| Tables.VarcharTypeUnchanged | src/main/java/org/exclover/DBManager.java:328-330 | a sized VARCHAR column is written the same under MySQL |
| Tables.TableBuilder.constructor | src/main/java/org/exclover/TableBuilder.java:17-20 | the builder keeps the handle and the table name |
| Tables.TableBuilder.AddString | src/main/java/org/exclover/TableBuilder.java:27-30 | defines the column as VARCHAR(255) with no constraints or default; only that entry changes; returns the builder |
| Tables.TableBuilder.AddStringOfLength | src/main/java/org/exclover/TableBuilder.java:38-41 | defines the column as VARCHAR(n) |
| Tables.TableBuilder.AddInteger | src/main/java/org/exclover/TableBuilder.java:48-51 | defines the column as INTEGER |
| Tables.TableBuilder.AddDouble | src/main/java/org/exclover/TableBuilder.java:58-61 | defines the column as REAL |
| Tables.TableBuilder.AddBoolean | src/main/java/org/exclover/TableBuilder.java:68-71 | defines the column as BOOLEAN |
| Tables.TableBuilder.AddText | src/main/java/org/exclover/TableBuilder.java:78-81 | defines the column as TEXT |
| Tables.TableBuilder.AddDate | src/main/java/org/exclover/TableBuilder.java:88-91 | defines the column as DATE |
| Tables.TableBuilder.AddTimestamp | src/main/java/org/exclover/TableBuilder.java:98-101 | defines the column as TIMESTAMP |
| Tables.TableBuilder.AddStringDefault | src/main/java/org/exclover/TableBuilder.java:151-154 | VARCHAR(255) with the given default; a null default is none |
| Tables.TableBuilder.AddStringOfLengthDefault | src/main/java/org/exclover/TableBuilder.java:163-166 | VARCHAR(n) with the given default |
| Tables.TableBuilder.AddIntegerDefault | src/main/java/org/exclover/TableBuilder.java:174-177 | INTEGER with the given default |
| Tables.TableBuilder.AddDoubleDefault | src/main/java/org/exclover/TableBuilder.java:185-188 | REAL with the given default |
| Tables.TableBuilder.AddBooleanDefault | src/main/java/org/exclover/TableBuilder.java:196-199 | BOOLEAN with the given default |
| Tables.TableBuilder.AddTextDefault | src/main/java/org/exclover/TableBuilder.java:207-210 | TEXT with the given default |
| Tables.TableBuilder.Create | src/main/java/org/exclover/TableBuilder.java:107-110 | createTable without the drop: nothing without a connection, otherwise only the CREATE statement; returns the handle |
| Tables.TableBuilder.CreateOrReplace | src/main/java/org/exclover/TableBuilder.java:116-119 | createTable with the drop: nothing without a connection, otherwise DROP TABLE IF EXISTS, then CREATE; returns the handle |
| Inserts.InsertBuilder.constructor | src/main/java/org/exclover/InsertBuilder.java:11-21 | getLastInsertId is -1 before any execute |
| Inserts.InsertBuilder.GetLastInsertId | src/main/java/org/exclover/InsertBuilder.java:104-106 | reads the builder's stored id: -1 after the constructor, the id of the last Execute afterwards (stated by those two members) |
| Inserts.InsertBuilder.SetString | src/main/java/org/exclover/InsertBuilder.java:29-32 | stages the string, or "" for null, never null, overwriting that name only; the handle's getString reads it back |
| Inserts.InsertBuilder.SetInteger | src/main/java/org/exclover/InsertBuilder.java:40-43 | stages the int; the handle's getInteger reads it back |
| Inserts.InsertBuilder.SetDouble | src/main/java/org/exclover/InsertBuilder.java:51-54 | stages the double under the name only |
| Inserts.InsertBuilder.SetBoolean | src/main/java/org/exclover/InsertBuilder.java:62-65 | stages the Boolean; the handle's getBoolean reads it back |
| Inserts.InsertBuilder.SetDate | src/main/java/org/exclover/InsertBuilder.java:73-76 | stages the date, or a null value for null |
| Inserts.InsertBuilder.Execute | src/main/java/org/exclover/InsertBuilder.java:82-85 | runs insertData; the returned id is stored for getLastInsertId: the generated key, or -1 on no connection, failure or no key; nothing is sent without a connection, otherwise one INSERT naming every pending column once with its bound value |

## Left out

- The JDBC driver:
  - connecting and reconnecting, closing, `isConnected`, `tableExists` and `executeUpdate`;
  - statement execution, result sets and generated keys.
  The connection check is the `connected` flag, and the driver's answers are the `InsertReply` / `FetchReply` parameters.
- Database.DBManager.CreateTableStatements: returns the statements `createTable` would send and its result. It does not model an SQLException from the driver: one from the DROP stops the CREATE from being sent and makes the result false.
- Database.DBManager.TruncateTable: returns the statements `truncateTable` would send and its result. It does not model an SQLException from the driver, after which the result is false.
- Query.QueryBuilder.GetParameters: returns the parameter list as a value. The source returns its live `ArrayList`, so a caller that adds to it would break the pairing of parameters with `?` marks; that aliasing is not modelled.
- Database.DBManager.InsertData: the statement is returned with its parameters, and the driver's reply decides the id.
- An SQLException raised while the row is being read in `select` / `selectByQuery` is not modelled: the reply is either a whole row, no row, or a failure before any row.
- Database.DBManager.SelectByQuery: the unused `tableName` and `firstOnly` parameters are dropped; the statement uses the builder's own table.
- `selectMultipleByQuery`, `countByQuery` and the builder's `first` / `get` / `count`. They only execute a compiled query, so the model stops at `BuildQuery` / `GetParameters` and at `SelectByQuery`.
  - `QueryBuilder` does not hold a handle reference. With one, the query module and the handle module would import each other.
- The handle's factory methods `createTable(name)`, `insert(name)` and `query(name)` are their builders' constructors.
- All `*Async` methods and the executor service, because they are concurrency.
- Floating point:
  - `getDouble`, `Double.parseDouble` and the double accessors are left out.
  - A double is an opaque payload: its text, plus its value rounded toward zero, which saturating `intValue()` / `longValue()` need.
  - `setDouble` / `addDoubleDefault` pass it through unchanged.
- Date conversion: `getDate` returns a stored date as it is, and a non-date value falls back to the default. The java.sql.Date and java.sql.Timestamp branches (src/main/java/org/exclover/QueryResult.java:195-198) are dead code: both classes extend java.util.Date, which the test at line 193 matches first. They are not modelled.
- Values.JavaDate and Values.JavaDouble: their texts are opaque and not constrained to be non-numeric. `Date.toString()` never produces an all-digit text, but the model admits one, and then `GetIntOr`, `GetLongOr` and `GetInteger` would parse it as a number.
- Numbers other than Integer, Long and Double: a driver may return Short, Byte, Float or BigDecimal, which the source's `Number` branches convert. The model has only `VInt`, `VLong` and `VDouble` numbers.
- Values.ParseDecimal: accepts ASCII digits only. Java's parse methods also accept other Unicode decimal digits.
- Values.ToLower: maps the ASCII letters only, where Java's toLowerCase maps all of Unicode.
- Java `null` column or table names, and a `null` staged through `SetValue` other than the null date. Names are plain strings.
- Console logging.
- DBManagerExample.java and build.gradle.kts, which are a demo program and build configuration.
- The code has no IN, BETWEEN, GROUP BY, JOIN, update or batch insert, and truncateTable does not toggle foreign-key checks; none is modelled.
