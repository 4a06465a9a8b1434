/** The fluent table definition: each add method records one column on the
    handle (with the SQLite type name the DDL writer later translates for
    MySQL) and returns the builder; create and createOrReplace hand the
    collected columns to createTable. */
module Tables {
  import opened Values
  import opened Dialect
  import opened Database

  /** The handle's column list after addColumn(def): `def` is stored under its
      name, a new name is appended, and the pending values are untouched. */
  twostate predicate ColumnDefined(db: DBManager, def: ColumnDefinition)
    reads db
  {
    && db.columns == old(db.columns)[def.name := def]
    && db.columnOrder == (if def.name in old(db.columns) then old(db.columnOrder) else old(db.columnOrder) + [def.name])
    && db.values == old(db.values)
  }

  /** The type name of a string column of the given length. */
  function VarcharType(length: Int32): string {
    "VARCHAR(" + IntToDecimal(length) + ")"
  }

  /** The string-valued default of addStringDefault and addTextDefault: a null
      default means no default at all. */
  function StringDefault(defaultValue: Option<string>): (r: Value)
    ensures defaultValue.None? <==> r.VNull?
    ensures defaultValue.Some? ==> r == VStr(defaultValue.value)
  {
    match defaultValue
    case None => VNull
    case Some(s) => VStr(s)
  }

  /** A sized string column is written as is in both dialects. */
  lemma VarcharTypeUnchanged(length: Int32)
    ensures ColumnType(MySQL, VarcharType(length)) == VarcharType(length)
  {
    var t := VarcharType(length);
    assert t[0] == 'V';
    assert t !in {"INTEGER", "REAL", "BOOLEAN"} by {
      assert "INTEGER"[0] == 'I' && "REAL"[0] == 'R' && "BOOLEAN"[0] == 'B';
    }
  }

  class TableBuilder {
    const database: DBManager
    const tableName: string

    constructor (database: DBManager, tableName: string)
      ensures this.database == database && this.tableName == tableName
    {
      this.database := database;
      this.tableName := tableName;
    }

    method AddString(columnName: string) returns (self: TableBuilder)
      requires database.Valid()
      modifies database
      ensures database.Valid() && self == this
      ensures ColumnDefined(database, ColumnDefinition(columnName, "VARCHAR(255)", None, VNull))
    {
      database.AddColumn(columnName, "VARCHAR(255)", None);
      self := this;
    }

    method AddStringOfLength(columnName: string, length: Int32) returns (self: TableBuilder)
      requires database.Valid()
      modifies database
      ensures database.Valid() && self == this
      ensures ColumnDefined(database, ColumnDefinition(columnName, VarcharType(length), None, VNull))
    {
      database.AddColumn(columnName, "VARCHAR(" + IntToDecimal(length) + ")", None);
      self := this;
    }

    method AddInteger(columnName: string) returns (self: TableBuilder)
      requires database.Valid()
      modifies database
      ensures database.Valid() && self == this
      ensures ColumnDefined(database, ColumnDefinition(columnName, "INTEGER", None, VNull))
    {
      database.AddColumn(columnName, "INTEGER", None);
      self := this;
    }

    method AddDouble(columnName: string) returns (self: TableBuilder)
      requires database.Valid()
      modifies database
      ensures database.Valid() && self == this
      ensures ColumnDefined(database, ColumnDefinition(columnName, "REAL", None, VNull))
    {
      database.AddColumn(columnName, "REAL", None);
      self := this;
    }

    method AddBoolean(columnName: string) returns (self: TableBuilder)
      requires database.Valid()
      modifies database
      ensures database.Valid() && self == this
      ensures ColumnDefined(database, ColumnDefinition(columnName, "BOOLEAN", None, VNull))
    {
      database.AddColumn(columnName, "BOOLEAN", None);
      self := this;
    }

    method AddText(columnName: string) returns (self: TableBuilder)
      requires database.Valid()
      modifies database
      ensures database.Valid() && self == this
      ensures ColumnDefined(database, ColumnDefinition(columnName, "TEXT", None, VNull))
    {
      database.AddColumn(columnName, "TEXT", None);
      self := this;
    }

    method AddDate(columnName: string) returns (self: TableBuilder)
      requires database.Valid()
      modifies database
      ensures database.Valid() && self == this
      ensures ColumnDefined(database, ColumnDefinition(columnName, "DATE", None, VNull))
    {
      database.AddColumn(columnName, "DATE", None);
      self := this;
    }

    method AddTimestamp(columnName: string) returns (self: TableBuilder)
      requires database.Valid()
      modifies database
      ensures database.Valid() && self == this
      ensures ColumnDefined(database, ColumnDefinition(columnName, "TIMESTAMP", None, VNull))
    {
      database.AddColumn(columnName, "TIMESTAMP", None);
      self := this;
    }

    method AddStringDefault(columnName: string, defaultValue: Option<string>) returns (self: TableBuilder)
      requires database.Valid()
      modifies database
      ensures database.Valid() && self == this
      ensures ColumnDefined(database, ColumnDefinition(columnName, "VARCHAR(255)", None, StringDefault(defaultValue)))
    {
      database.AddColumnWithDefault(columnName, "VARCHAR(255)", None, StringDefault(defaultValue));
      self := this;
    }

    method AddStringOfLengthDefault(columnName: string, length: Int32, defaultValue: Option<string>)
      returns (self: TableBuilder)
      requires database.Valid()
      modifies database
      ensures database.Valid() && self == this
      ensures ColumnDefined(database, ColumnDefinition(columnName, VarcharType(length), None, StringDefault(defaultValue)))
    {
      database.AddColumnWithDefault(columnName, "VARCHAR(" + IntToDecimal(length) + ")", None, StringDefault(defaultValue));
      self := this;
    }

    method AddIntegerDefault(columnName: string, defaultValue: Int32) returns (self: TableBuilder)
      requires database.Valid()
      modifies database
      ensures database.Valid() && self == this
      ensures ColumnDefined(database, ColumnDefinition(columnName, "INTEGER", None, VInt(defaultValue)))
    {
      database.AddColumnWithDefault(columnName, "INTEGER", None, VInt(defaultValue));
      self := this;
    }

    method AddDoubleDefault(columnName: string, defaultValue: JavaDouble) returns (self: TableBuilder)
      requires database.Valid()
      modifies database
      ensures database.Valid() && self == this
      ensures ColumnDefined(database, ColumnDefinition(columnName, "REAL", None, VDouble(defaultValue)))
    {
      database.AddColumnWithDefault(columnName, "REAL", None, VDouble(defaultValue));
      self := this;
    }

    method AddBooleanDefault(columnName: string, defaultValue: bool) returns (self: TableBuilder)
      requires database.Valid()
      modifies database
      ensures database.Valid() && self == this
      ensures ColumnDefined(database, ColumnDefinition(columnName, "BOOLEAN", None, VBool(defaultValue)))
    {
      database.AddColumnWithDefault(columnName, "BOOLEAN", None, VBool(defaultValue));
      self := this;
    }

    method AddTextDefault(columnName: string, defaultValue: Option<string>) returns (self: TableBuilder)
      requires database.Valid()
      modifies database
      ensures database.Valid() && self == this
      ensures ColumnDefined(database, ColumnDefinition(columnName, "TEXT", None, StringDefault(defaultValue)))
    {
      database.AddColumnWithDefault(columnName, "TEXT", None, StringDefault(defaultValue));
      self := this;
    }

    /** create: CREATE TABLE IF NOT EXISTS over every column the handle holds;
        nothing without a connection.  createTable's result is dropped. */
    method Create(connected: bool) returns (db: DBManager, statements: seq<string>)
      requires database.Valid()
      ensures db == database
      ensures !connected ==> statements == []
      ensures connected ==> statements == [CreateTableSql(database.databaseType, tableName, database.Columns())]
    {
      var created;
      created, statements := database.CreateTableStatements(tableName, false, connected);
      db := database;
    }

    /** createOrReplace: the same, after dropping the table. */
    method CreateOrReplace(connected: bool) returns (db: DBManager, statements: seq<string>)
      requires database.Valid()
      ensures db == database
      ensures !connected ==> statements == []
      ensures connected ==> statements == ["DROP TABLE IF EXISTS " + tableName,
                                           CreateTableSql(database.databaseType, tableName, database.Columns())]
    {
      var created;
      created, statements := database.CreateTableStatements(tableName, true, connected);
      db := database;
    }
  }
}
