/** The choices that depend on which of the two backends a DBManager targets:
    DDL type names, primary-key and table-suffix syntax, how a parameter is
    bound, the truncate statements and the caller-supplied dialect query. */
module Dialect {
  import opened Values

  datatype DatabaseType = SQLite | MySQL

  /** String.startsWith. */
  predicate StartsWith(s: string, prefix: string)
    ensures StartsWith(s, prefix) ==> |s| >= |prefix| && forall i :: 0 <= i < |prefix| ==> s[i] == prefix[i]
  {
    |prefix| <= |s| && s[..|prefix|] == prefix
  }

  /** The SQLite type names the table builder emits, as MySQL spells them.
      Every name other than INTEGER, REAL and BOOLEAN passes through. */
  function ConvertDataTypeToMySQL(sqliteType: string): (r: string)
    ensures sqliteType == "INTEGER" ==> r == "INT"
    ensures sqliteType == "REAL" ==> r == "DOUBLE"
    ensures sqliteType == "BOOLEAN" ==> r == "TINYINT(1)"
    ensures sqliteType !in {"INTEGER", "REAL", "BOOLEAN"} ==> r == sqliteType
  {
    assert StartsWith(sqliteType, "VARCHAR") ==> sqliteType[0] == "VARCHAR"[0] == 'V';
    if StartsWith(sqliteType, "VARCHAR") then sqliteType
    else if sqliteType == "INTEGER" then "INT"
    else if sqliteType == "REAL" then "DOUBLE"
    else if sqliteType == "BOOLEAN" then "TINYINT(1)"
    else if sqliteType == "TEXT" then "TEXT"
    else if sqliteType == "DATE" then "DATE"
    else if sqliteType == "TIMESTAMP" then "TIMESTAMP"
    else sqliteType
  }

  /** Translating twice is translating once: every MySQL name it produces is
      left alone by a second pass. */
  lemma ConvertIdempotent(t: string)
    ensures ConvertDataTypeToMySQL(ConvertDataTypeToMySQL(t)) == ConvertDataTypeToMySQL(t)
  {
    var once := ConvertDataTypeToMySQL(t);
    if t in {"INTEGER", "REAL", "BOOLEAN"} {
      assert once in {"INT", "DOUBLE", "TINYINT(1)"};
    }
  }

  /** The column type written into the DDL for the given backend. */
  function ColumnType(dbType: DatabaseType, t: string): (r: string)
    ensures dbType == SQLite ==> r == t
    ensures dbType == MySQL ==> r == ConvertDataTypeToMySQL(t)
  {
    if dbType == MySQL then ConvertDataTypeToMySQL(t) else t
  }

  /** The implicit `id` column that opens every CREATE TABLE. */
  function PrimaryKeyColumn(dbType: DatabaseType): string {
    match dbType
    case SQLite => "id INTEGER PRIMARY KEY AUTOINCREMENT"
    case MySQL => "id INT AUTO_INCREMENT PRIMARY KEY"
  }

  /** Appended after the closing parenthesis of CREATE TABLE. */
  function TableSuffix(dbType: DatabaseType): string {
    match dbType
    case SQLite => ""
    case MySQL => " ENGINE=InnoDB DEFAULT CHARSET=utf8mb4 COLLATE=utf8mb4_unicode_ci"
  }

  /** Both dialects open the column list with a key column named `id`, which
      select(table, id) queries and skips when it copies a row back. */
  lemma KeyColumnIsId(dbType: DatabaseType)
    ensures |PrimaryKeyColumn(dbType)| > 3 && PrimaryKeyColumn(dbType)[..3] == "id "
  {
    var key := PrimaryKeyColumn(dbType);
    assert key[0] == 'i' && key[1] == 'd' && key[2] == ' ';
    assert key[..3] == "id ";
  }

  /** Only MySQL tables get a suffix after the column list. */
  lemma SuffixOnlyForMySQL(dbType: DatabaseType)
    ensures TableSuffix(dbType) == "" <==> dbType == SQLite
  {
  }

  /** The value handed to the driver for one INSERT parameter: a Boolean is
      bound with setInt as 1 or 0 under MySQL; everything else is bound as is. */
  function BindParameter(dbType: DatabaseType, v: Value): (r: Value)
    ensures dbType == MySQL && v.VBool? ==> r == VInt(if v.b then 1 else 0)
    ensures !(dbType == MySQL && v.VBool?) ==> r == v
  {
    if v.VBool? && dbType == MySQL then VInt(if v.b then 1 else 0) else v
  }

  /** getDialectQuery: the caller's SQLite text or MySQL text. */
  function DialectQuery(dbType: DatabaseType, sqliteQuery: string, mysqlQuery: string): (r: string)
    ensures dbType == SQLite ==> r == sqliteQuery
    ensures dbType == MySQL ==> r == mysqlQuery
  {
    if dbType == SQLite then sqliteQuery else mysqlQuery
  }

  /** The statements truncateTable issues, in order.  SQLite deletes every row
      and then resets the table's entry in sqlite_sequence, so the next id is 1;
      MySQL uses TRUNCATE TABLE. */
  function TruncateStatements(dbType: DatabaseType, tableName: string): (r: seq<string>)
    ensures dbType == SQLite ==> |r| == 2 && r[0] == "DELETE FROM " + tableName
    ensures dbType == SQLite ==> r[1] == "DELETE FROM sqlite_sequence WHERE name='" + tableName + "'"
    ensures dbType == MySQL ==> r == ["TRUNCATE TABLE " + tableName]
  {
    match dbType
    case SQLite => ["DELETE FROM " + tableName, "DELETE FROM sqlite_sequence WHERE name='" + tableName + "'"]
    case MySQL => ["TRUNCATE TABLE " + tableName]
  }
}
