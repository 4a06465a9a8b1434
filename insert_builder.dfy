/** The fluent insert: each set method stages one value on the handle and
    returns the builder; execute runs insertData and remembers the key. */
module Inserts {
  import opened Values
  import opened Database

  class InsertBuilder {
    const database: DBManager
    const tableName: string
    var insertId: Int64

    constructor (database: DBManager, tableName: string)
      ensures this.database == database && this.tableName == tableName
      ensures GetLastInsertId() == -1
    {
      this.database := database;
      this.tableName := tableName;
      insertId := -1;
    }

    /** getLastInsertId: the key of the last execute, -1 before any. */
    function GetLastInsertId(): (r: Int64)
      reads this
      ensures r == insertId
    {
      insertId
    }

    /** setString: a null string is staged as the empty string, and the handle
        reads it back unchanged. */
    method SetString(columnName: string, value: Option<string>) returns (self: InsertBuilder)
      modifies database
      ensures self == this
      ensures database.values == old(database.values)[columnName := VStr(if value.Some? then value.value else "")]
      ensures database.columns == old(database.columns) && database.columnOrder == old(database.columnOrder)
      ensures forall d :: database.GetString(columnName, d) == (if value.Some? then value.value else "")
    {
      database.SetValue(columnName, VStr(if value.Some? then value.value else ""));
      self := this;
    }

    method SetInteger(columnName: string, value: Int32) returns (self: InsertBuilder)
      modifies database
      ensures self == this
      ensures database.values == old(database.values)[columnName := VInt(value)]
      ensures database.columns == old(database.columns) && database.columnOrder == old(database.columnOrder)
      ensures forall d :: database.GetInteger(columnName, d) == Returned(value)
    {
      database.SetValue(columnName, VInt(value));
      self := this;
    }

    method SetDouble(columnName: string, value: JavaDouble) returns (self: InsertBuilder)
      modifies database
      ensures self == this
      ensures database.values == old(database.values)[columnName := VDouble(value)]
      ensures database.columns == old(database.columns) && database.columnOrder == old(database.columnOrder)
    {
      database.SetValue(columnName, VDouble(value));
      self := this;
    }

    method SetBoolean(columnName: string, value: bool) returns (self: InsertBuilder)
      modifies database
      ensures self == this
      ensures database.values == old(database.values)[columnName := VBool(value)]
      ensures database.columns == old(database.columns) && database.columnOrder == old(database.columnOrder)
      ensures forall d :: database.GetBoolean(columnName, d) == value
    {
      database.SetValue(columnName, VBool(value));
      self := this;
    }

    /** setDate: a null date is staged as a null value, which the INSERT
        still names and binds. */
    method SetDate(columnName: string, value: Option<JavaDate>) returns (self: InsertBuilder)
      modifies database
      ensures self == this
      ensures database.values == old(database.values)[columnName := if value.Some? then VDate(value.value) else VNull]
      ensures database.columns == old(database.columns) && database.columnOrder == old(database.columnOrder)
    {
      database.SetValue(columnName, if value.Some? then VDate(value.value) else VNull);
      self := this;
    }

    /** execute: insertData on the builder's table; the result is also what
        getLastInsertId returns from now on.  The statement sent and the
        column order it uses are returned beside the id. */
    method Execute(connected: bool, reply: InsertReply)
      returns (id: Int64, statement: Option<Statement>, order: seq<string>)
      requires database.Valid()
      modifies this, database
      ensures database.Valid()
      ensures GetLastInsertId() == id
      ensures database.columns == old(database.columns) && database.columnOrder == old(database.columnOrder)
      ensures !connected ==> id == -1 && database.values == old(database.values)
      ensures connected ==> database.values == WithDefaults(old(database.values), old(database.Columns()))
      ensures connected ==> id == (if reply.Inserted? && reply.generatedKey.Some? then reply.generatedKey.value else -1)
      ensures !connected ==> statement == None
      ensures connected ==> OrdersKeys(order, database.values.Keys)
      ensures connected ==> statement == Some(Statement(InsertSql(tableName, order),
                                                        BoundValues(database.databaseType, database.values, order)))
    {
      id, statement, order := database.InsertData(tableName, connected, reply);
      insertId := id;
    }
  }
}
