/** The data-access handle: the insertion-ordered column definitions, the
    pending value set, DDL and INSERT assembly, the value updates made by the
    two row-fetching operations, and the handle's typed accessors.

    Statements are returned instead of executed.  What the driver would say
    is a parameter: `connected` is the outcome of the connection check every
    operation starts with, and an InsertReply or FetchReply is the driver's
    answer to the statement. */
module Database {
  import opened Values
  import opened Dialect
  import Query
  import Results

  /** One column as addColumn records it.  A `VNull` default means none. */
  datatype ColumnDefinition = ColumnDefinition(name: string, columnType: string,
                                               constraints: Option<string>, defaultValue: Value)

  /** A statement as it is handed to the driver, with its positional parameters. */
  datatype Statement = Statement(sql: string, parameters: seq<Value>)

  /** The driver's answer to an INSERT: an SQLException, or success with the
      generated key if the driver reported one. */
  datatype InsertReply = InsertRejected | Inserted(generatedKey: Option<Int64>)

  /** The driver's answer to a SELECT: an SQLException, no row, or the first
      row's columns in the order the driver reports them. */
  datatype FetchReply = FetchRejected | NoRow | Row(columns: seq<(string, Value)>)

  // ---------------------------------------------------------------- text helpers

  /** Parts separated by `sep`, as the loops with a `first` flag build them. */
  function Join(parts: seq<string>, sep: string): string
    decreases |parts|
  {
    if |parts| == 0 then ""
    else if |parts| == 1 then parts[0]
    else Join(parts[..|parts| - 1], sep) + sep + parts[|parts| - 1]
  }

  lemma JoinSnoc(parts: seq<string>, p: string, sep: string)
    ensures Join(parts + [p], sep) == if |parts| == 0 then p else Join(parts, sep) + sep + p
  {
    assert (parts + [p])[..|parts|] == parts;
  }

  /** `?, ?, ..., ?` with n marks. */
  function PlaceholderList(n: nat): string {
    if n == 0 then "" else if n == 1 then "?" else PlaceholderList(n - 1) + ", ?"
  }

  lemma {:induction false} PlaceholderListCount(n: nat)
    ensures CountPlaceholders(PlaceholderList(n)) == n
  {
    if n == 1 {
      NoPlaceholderWithoutMark("");
    } else if n > 1 {
      PlaceholderListCount(n - 1);
      NoPlaceholderWithoutMark(", ");
      PlaceholdersAppend(PlaceholderList(n - 1), ", ?");
      PlaceholdersAppend(", ", "?");
      assert ", ?" == ", " + "?";
      PlaceholdersAppend("", "?");
    }
  }

  lemma {:induction false} JoinNoPlaceholder(parts: seq<string>)
    requires forall i :: 0 <= i < |parts| ==> '?' !in parts[i]
    ensures CountPlaceholders(Join(parts, ", ")) == 0
    decreases |parts|
  {
    if |parts| == 1 {
      NoPlaceholderWithoutMark(parts[0]);
    } else if |parts| > 1 {
      var init := parts[..|parts| - 1];
      JoinNoPlaceholder(init);
      NoPlaceholderWithoutMark(", ");
      NoPlaceholderWithoutMark(parts[|parts| - 1]);
      PlaceholdersAppend(Join(init, ", "), ", ");
      PlaceholdersAppend(Join(init, ", ") + ", ", parts[|parts| - 1]);
    }
  }

  // ---------------------------------------------------------------- DDL

  /** The literal after DEFAULT: strings in single quotes (not escaped),
      Booleans as 1 or 0 in both dialects, anything else as its text. */
  function DefaultLiteral(dbType: DatabaseType, v: Value): (r: string)
    ensures v.VStr? ==> r == "'" + v.s + "'"
    ensures v.VBool? ==> r == (if v.b then "1" else "0")
    ensures !v.VStr? && !v.VBool? ==> r == ToText(v)
  {
    match v
    case VStr(s) => "'" + s + "'"
    case VBool(b) =>
      if dbType == MySQL then (if b then "1" else "0") else (if b then "1" else "0")
    case _ => ToText(v)
  }

  function DefaultClause(dbType: DatabaseType, v: Value): string {
    if v.VNull? then "" else " DEFAULT " + DefaultLiteral(dbType, v)
  }

  /** Constraints are written only when present and not empty. */
  function ConstraintClause(constraints: Option<string>): (r: string)
    ensures (constraints.None? || constraints.value == "") <==> r == ""
  {
    match constraints
    case None => ""
    case Some(c) => if |c| > 0 then " " + c else ""
  }

  /** One column's definition inside CREATE TABLE. */
  function ColumnDdl(dbType: DatabaseType, c: ColumnDefinition): string {
    c.name + " " + ColumnType(dbType, c.columnType) + DefaultClause(dbType, c.defaultValue)
      + ConstraintClause(c.constraints)
  }

  /** Each column's definition text, in order. */
  function ColumnTexts(dbType: DatabaseType, cols: seq<ColumnDefinition>): (r: seq<string>)
    ensures |r| == |cols| && forall i :: 0 <= i < |cols| ==> r[i] == ColumnDdl(dbType, cols[i])
  {
    seq(|cols|, i requires 0 <= i < |cols| => ColumnDdl(dbType, cols[i]))
  }

  /** `, <part>` for each part, in order: the column list after the key column. */
  function CommaPrefixed(parts: seq<string>): string
    decreases |parts|
  {
    if |parts| == 0 then "" else CommaPrefixed(parts[..|parts| - 1]) + ", " + parts[|parts| - 1]
  }

  /** The CREATE TABLE statement for the given columns. */
  function CreateTableSql(dbType: DatabaseType, tableName: string, cols: seq<ColumnDefinition>): string {
    "CREATE TABLE IF NOT EXISTS " + tableName + " (" + PrimaryKeyColumn(dbType)
      + CommaPrefixed(ColumnTexts(dbType, cols)) + ")" + TableSuffix(dbType)
  }

  lemma Associative(a: string, b: string, c: string)
    ensures (a + b) + c == a + (b + c)
  {
  }

  lemma CommaPrefixedStep(parts: seq<string>, i: nat)
    requires i < |parts|
    ensures CommaPrefixed(parts[..i + 1]) == CommaPrefixed(parts[..i]) + ", " + parts[i]
  {
    assert parts[..i + 1][..i] == parts[..i];
  }

  /** Appending `, part` after a prefix of the comma list extends the list by that part. */
  lemma AppendPart(start: string, parts: seq<string>, i: nat)
    requires i < |parts|
    ensures start + CommaPrefixed(parts[..i]) + (", " + parts[i]) == start + CommaPrefixed(parts[..i + 1])
  {
    CommaPrefixedStep(parts, i);
    Associative(start + CommaPrefixed(parts[..i]), ", ", parts[i]);
    Associative(start, CommaPrefixed(parts[..i]) + ", ", parts[i]);
    Associative(start, CommaPrefixed(parts[..i]), ", ");
  }

  lemma {:induction false} CommaPrefixedConcat(a: seq<string>, b: seq<string>)
    ensures CommaPrefixed(a + b) == CommaPrefixed(a) + CommaPrefixed(b)
    decreases |b|
  {
    if |b| == 0 {
      assert a + b == a;
    } else {
      assert (a + b)[..|a + b| - 1] == a + b[..|b| - 1];
      CommaPrefixedConcat(a, b[..|b| - 1]);
    }
  }

  /** The i-th column's definition sits after those of the columns before it
      and before those after it. */
  lemma ColumnListAt(dbType: DatabaseType, cols: seq<ColumnDefinition>, i: nat)
    requires i < |cols|
    ensures CommaPrefixed(ColumnTexts(dbType, cols)) ==
      CommaPrefixed(ColumnTexts(dbType, cols)[..i]) + ", " + ColumnDdl(dbType, cols[i])
        + CommaPrefixed(ColumnTexts(dbType, cols)[i + 1..])
  {
    var texts := ColumnTexts(dbType, cols);
    CommaPrefixedAt(texts, i);
  }

  lemma CommaPrefixedAt(parts: seq<string>, i: nat)
    requires i < |parts|
    ensures CommaPrefixed(parts) == CommaPrefixed(parts[..i]) + ", " + parts[i] + CommaPrefixed(parts[i + 1..])
  {
    SplitAround(parts, i);
    CommaPrefixedAround(parts[..i], parts[i], parts[i + 1..]);
  }

  lemma SplitAround(parts: seq<string>, i: nat)
    requires i < |parts|
    ensures parts == parts[..i] + [parts[i]] + parts[i + 1..]
  {
  }

  lemma CommaPrefixedAround(before: seq<string>, part: string, after: seq<string>)
    ensures CommaPrefixed(before + [part] + after) == CommaPrefixed(before) + ", " + part + CommaPrefixed(after)
  {
    CommaPrefixedConcat(before + [part], after);
    CommaPrefixedConcat(before, [part]);
    CommaPrefixedSingle(part);
    Associative(CommaPrefixed(before), ", ", part);
  }

  lemma CommaPrefixedSingle(text: string)
    ensures CommaPrefixed([text]) == ", " + text
  {
    assert [text][..0] == [];
  }

  /** The two dialects differ in the key column, the type names and the suffix
      only: columns whose types need no translation are written the same. */
  lemma DialectsShareColumnText(cols: seq<ColumnDefinition>)
    requires forall i :: 0 <= i < |cols| ==> cols[i].columnType !in {"INTEGER", "REAL", "BOOLEAN"}
    ensures ColumnTexts(SQLite, cols) == ColumnTexts(MySQL, cols)
  {
    forall i | 0 <= i < |cols| ensures ColumnDdl(SQLite, cols[i]) == ColumnDdl(MySQL, cols[i]) {
      assert DefaultClause(SQLite, cols[i].defaultValue) == DefaultClause(MySQL, cols[i].defaultValue);
    }
  }

  /** Writes one column's definition: name and type, then the DEFAULT clause
      when there is a default, then the constraints when they are not empty. */
  method DefinitionText(dbType: DatabaseType, column: ColumnDefinition) returns (definition: string)
    ensures definition == ColumnDdl(dbType, column)
  {
    definition := column.name + " " + ColumnType(dbType, column.columnType);
    if !column.defaultValue.VNull? {
      definition := definition + (" DEFAULT " + DefaultLiteral(dbType, column.defaultValue));
    }
    if column.constraints.Some? && |column.constraints.value| > 0 {
      definition := definition + (" " + column.constraints.value);
    }
  }

  /** The definitions in column order. */
  function OrderedColumns(order: seq<string>, columns: map<string, ColumnDefinition>): (r: seq<ColumnDefinition>)
    requires forall i :: 0 <= i < |order| ==> order[i] in columns
    ensures |r| == |order| && forall i :: 0 <= i < |order| ==> r[i] == columns[order[i]]
  {
    seq(|order|, i requires 0 <= i < |order| => columns[order[i]])
  }

  // ---------------------------------------------------------------- INSERT

  /** The CREATE TABLE text of createTable: the key column, then for each
      column in order `, ` and its definition, then `)` and the suffix. */
  method CreateTableText(dbType: DatabaseType, tableName: string, order: seq<string>,
                         columns: map<string, ColumnDefinition>) returns (sql: string)
    requires forall i :: 0 <= i < |order| ==> order[i] in columns
    ensures sql == CreateTableSql(dbType, tableName, OrderedColumns(order, columns))
  {
    var head := "CREATE TABLE IF NOT EXISTS " + tableName + " (";
    sql := head + PrimaryKeyColumn(dbType);
    ghost var texts := ColumnTexts(dbType, OrderedColumns(order, columns));
    var i := 0;
    while i < |order|
      invariant 0 <= i <= |order|
      invariant sql == head + PrimaryKeyColumn(dbType) + CommaPrefixed(texts[..i])
    {
      var column := columns[order[i]];
      var definition := DefinitionText(dbType, column);
      assert texts[i] == definition;
      AppendPart(head + PrimaryKeyColumn(dbType), texts, i);
      sql := sql + (", " + definition);
      i := i + 1;
    }
    assert texts[..i] == texts;
    sql := sql + ")" + TableSuffix(dbType);
  }

  /** The default fill insertData performs: in column order, each column that
      has a default and no staged value gets its default. */
  function WithDefaults(staged: map<string, Value>, cols: seq<ColumnDefinition>): map<string, Value>
    decreases |cols|
  {
    if |cols| == 0 then staged
    else
      var m := WithDefaults(staged, cols[..|cols| - 1]);
      var c := cols[|cols| - 1];
      if c.name !in m && !c.defaultValue.VNull? then m[c.name := c.defaultValue] else m
  }

  /** Staged values are kept, and a key is added only for a column with a
      non-null default. */
  lemma {:induction false} WithDefaultsKeepsStaged(staged: map<string, Value>, cols: seq<ColumnDefinition>)
    ensures forall k :: k in staged ==> k in WithDefaults(staged, cols) && WithDefaults(staged, cols)[k] == staged[k]
    ensures forall k :: k in WithDefaults(staged, cols) ==>
      k in staged || exists i :: 0 <= i < |cols| && cols[i].name == k && !cols[i].defaultValue.VNull?
    decreases |cols|
  {
    if |cols| > 0 {
      var init := cols[..|cols| - 1];
      WithDefaultsKeepsStaged(staged, init);
      forall i | 0 <= i < |init| ensures init[i] == cols[i] {
      }
    }
  }

  /** With distinct column names, every column with a default and no staged
      value ends up holding its default. */
  lemma {:induction false} WithDefaultsFills(staged: map<string, Value>, cols: seq<ColumnDefinition>, i: nat)
    requires forall a, b :: 0 <= a < b < |cols| ==> cols[a].name != cols[b].name
    requires i < |cols| && cols[i].name !in staged && !cols[i].defaultValue.VNull?
    ensures cols[i].name in WithDefaults(staged, cols)
    ensures WithDefaults(staged, cols)[cols[i].name] == cols[i].defaultValue
    decreases |cols|
  {
    var init := cols[..|cols| - 1];
    if i < |cols| - 1 {
      WithDefaultsFills(staged, init, i);
    } else {
      WithDefaultsKeepsStaged(staged, init);
      forall j | 0 <= j < |init| ensures init[j].name != cols[i].name {
        assert init[j] == cols[j];
      }
    }
  }

  /** The INSERT statement for the given column order. */
  function InsertSql(tableName: string, cols: seq<string>): string {
    "INSERT INTO " + tableName + " (" + Join(cols, ", ") + ") VALUES (" + PlaceholderList(|cols|) + ")"
  }

  /** The bound parameters: the i-th is the value of the i-th column, in the
      dialect's encoding. */
  function BoundValues(dbType: DatabaseType, values: map<string, Value>, cols: seq<string>): (r: seq<Value>)
    requires forall i :: 0 <= i < |cols| ==> cols[i] in values
    ensures |r| == |cols| && forall i :: 0 <= i < |cols| ==> r[i] == BindParameter(dbType, values[cols[i]])
  {
    seq(|cols|, i requires 0 <= i < |cols| => BindParameter(dbType, values[cols[i]]))
  }

  /** Every column named in the INSERT has its own `?`. */
  lemma InsertPlaceholderCount(tableName: string, cols: seq<string>)
    requires '?' !in tableName
    requires forall i :: 0 <= i < |cols| ==> '?' !in cols[i]
    ensures CountPlaceholders(InsertSql(tableName, cols)) == |cols|
  {
    var head := "INSERT INTO " + tableName + " (";
    var names := Join(cols, ", ");
    var mid := ") VALUES (";
    NoPlaceholderWithoutMark("INSERT INTO ");
    NoPlaceholderWithoutMark(tableName);
    NoPlaceholderWithoutMark(" (");
    NoPlaceholderWithoutMark(mid);
    NoPlaceholderWithoutMark(")");
    JoinNoPlaceholder(cols);
    PlaceholderListCount(|cols|);
    PlaceholdersAppend("INSERT INTO ", tableName);
    PlaceholdersAppend("INSERT INTO " + tableName, " (");
    PlaceholdersAppend(head, names);
    PlaceholdersAppend(head + names, mid);
    PlaceholdersAppend(head + names + mid, PlaceholderList(|cols|));
    PlaceholdersAppend(head + names + mid + PlaceholderList(|cols|), ")");
  }

  /** One column more for insertData: its name joins the list and its mark
      the placeholders, each after a comma unless it is the first. */
  method AppendColumn(columnNames: string, placeholders: string, first: bool, order: seq<string>, key: string)
    returns (names: string, marks: string)
    requires first <==> |order| == 0
    requires columnNames == Join(order, ", ") && placeholders == PlaceholderList(|order|)
    ensures names == Join(order + [key], ", ") && marks == PlaceholderList(|order + [key]|)
  {
    JoinSnoc(order, key, ", ");
    names, marks := columnNames, placeholders;
    if !first {
      names := names + ", ";
      marks := marks + ", ";
    }
    names := names + key;
    marks := marks + "?";
  }

  /** The INSERT text and its values for every pending column, visited in
      the map's own (unspecified) order. */
  method InsertStatement(tableName: string, values: map<string, Value>)
    returns (sql: string, valuesList: seq<Value>, order: seq<string>)
    ensures OrdersKeys(order, values.Keys)
    ensures sql == InsertSql(tableName, order)
    ensures |valuesList| == |order| && forall a :: 0 <= a < |order| ==> valuesList[a] == values[order[a]]
  {
    var columnNames := "";
    var placeholders := "";
    valuesList := [];
    order := [];
    var first := true;
    var remaining := values.Keys;
    while remaining != {}
      invariant remaining <= values.Keys
      invariant forall k :: k in values ==> (k in remaining <==> k !in order)
      invariant forall a, b :: 0 <= a < b < |order| ==> order[a] != order[b]
      invariant forall a :: 0 <= a < |order| ==> order[a] in values
      invariant first <==> |order| == 0
      invariant columnNames == Join(order, ", ")
      invariant placeholders == PlaceholderList(|order|)
      invariant |valuesList| == |order|
      invariant forall a :: 0 <= a < |order| ==> valuesList[a] == values[order[a]]
      decreases remaining
    {
      var key :| key in remaining;
      columnNames, placeholders := AppendColumn(columnNames, placeholders, first, order, key);
      first := false;
      valuesList := valuesList + [values[key]];
      order := order + [key];
      remaining := remaining - {key};
    }
    sql := "INSERT INTO " + tableName + " (" + columnNames + ") VALUES (" + placeholders + ")";
  }

  /** The parameter binding of insertData, one value at a time. */
  method BindParameters(dbType: DatabaseType, valuesList: seq<Value>) returns (bound: seq<Value>)
    ensures |bound| == |valuesList|
    ensures forall a :: 0 <= a < |valuesList| ==> bound[a] == BindParameter(dbType, valuesList[a])
  {
    bound := [];
    var j := 0;
    while j < |valuesList|
      invariant 0 <= j <= |valuesList|
      invariant |bound| == j
      invariant forall a :: 0 <= a < j ==> bound[a] == BindParameter(dbType, valuesList[a])
    {
      var value := valuesList[j];
      if value.VBool? && dbType == MySQL {
        bound := bound + [VInt(if value.b then 1 else 0)];
      } else {
        bound := bound + [value];
      }
      j := j + 1;
    }
  }

  /** No name appears twice and every key appears: an ordering of the keys. */
  predicate OrdersKeys(names: seq<string>, keys: set<string>) {
    && (forall i, j :: 0 <= i < j < |names| ==> names[i] != names[j])
    && (forall i :: 0 <= i < |names| ==> names[i] in keys)
    && (forall k :: k in keys ==> k in names)
  }

  lemma OrderingLength(names: seq<string>, keys: set<string>)
    requires OrdersKeys(names, keys)
    ensures |names| == |keys|
    decreases |names|
  {
    if |names| > 0 {
      var init := names[..|names| - 1];
      var last := names[|names| - 1];
      assert OrdersKeys(init, keys - {last}) by {
        forall k | k in keys - {last} ensures k in init {
          var i :| 0 <= i < |names| && names[i] == k;
          assert i < |names| - 1;
        }
      }
      OrderingLength(init, keys - {last});
    }
  }

  /** The INSERT insertData sends names every pending value once, and has as
      many `?` marks as bound parameters: one per pending value. */
  lemma InsertLockStep(dbType: DatabaseType, tableName: string, values: map<string, Value>, order: seq<string>)
    requires OrdersKeys(order, values.Keys)
    requires '?' !in tableName && forall k :: k in values ==> '?' !in k
    ensures CountPlaceholders(InsertSql(tableName, order)) == |BoundValues(dbType, values, order)| == |values|
  {
    InsertPlaceholderCount(tableName, order);
    OrderingLength(order, values.Keys);
  }

  // ---------------------------------------------------------------- fetched rows

  /** The pending values after putting a fetched row's columns into `m`, in
      order, skipping the `id` column when `skipId` holds. */
  function PutColumns(m: map<string, Value>, row: seq<(string, Value)>, skipId: bool): map<string, Value>
    decreases |row|
  {
    if |row| == 0 then m
    else
      var before := PutColumns(m, row[..|row| - 1], skipId);
      var (name, v) := row[|row| - 1];
      if skipId && name == "id" then before else before[name := v]
  }

  predicate DistinctNames(row: seq<(string, Value)>) {
    forall i, j :: 0 <= i < j < |row| ==> row[i].0 != row[j].0
  }

  /** After the put, each kept column of the row holds the row's value. */
  lemma {:induction false} PutColumnsRowValues(m: map<string, Value>, row: seq<(string, Value)>, skipId: bool)
    requires DistinctNames(row)
    ensures forall i :: 0 <= i < |row| && !(skipId && row[i].0 == "id") ==>
      row[i].0 in PutColumns(m, row, skipId) && PutColumns(m, row, skipId)[row[i].0] == row[i].1
    decreases |row|
  {
    if |row| > 0 {
      var init := row[..|row| - 1];
      assert DistinctNames(init);
      PutColumnsRowValues(m, init, skipId);
      forall i | 0 <= i < |init| ensures init[i] == row[i] {
      }
    }
  }

  /** A key the put does not write keeps its presence and its value. */
  lemma {:induction false} PutColumnsUntouched(m: map<string, Value>, row: seq<(string, Value)>, skipId: bool, k: string)
    requires forall i :: 0 <= i < |row| ==> row[i].0 != k || (skipId && k == "id")
    ensures k in PutColumns(m, row, skipId) <==> k in m
    ensures k in m ==> PutColumns(m, row, skipId)[k] == m[k]
    decreases |row|
  {
    if |row| > 0 {
      var init := row[..|row| - 1];
      assert forall i :: 0 <= i < |init| ==> init[i] == row[i];
      PutColumnsUntouched(m, init, skipId, k);
    }
  }

  /** The put adds no key that is not a column of the row. */
  lemma {:induction false} PutColumnsKeys(m: map<string, Value>, row: seq<(string, Value)>, skipId: bool, k: string)
    requires k in PutColumns(m, row, skipId)
    ensures k in m || exists i :: 0 <= i < |row| && row[i].0 == k
    decreases |row|
  {
    if |row| > 0 {
      var init := row[..|row| - 1];
      if k != row[|row| - 1].0 {
        PutColumnsKeys(m, init, skipId, k);
        if k !in m {
          var i :| 0 <= i < |init| && init[i].0 == k;
          assert row[i] == init[i];
        }
      }
    }
  }

  // ---------------------------------------------------------------- the handle

  class DBManager {
    const databaseName: string
    const databaseType: DatabaseType

    /** The LinkedHashMap of column definitions: its keys in insertion order,
        and the map itself. */
    var columnOrder: seq<string>
    var columns: map<string, ColumnDefinition>

    /** The pending value set. */
    var values: map<string, Value>

    /** Each name is listed once, the list and the map agree, and every
        definition is stored under its own name. */
    ghost predicate Valid()
      reads this
    {
      && (forall i, j :: 0 <= i < j < |columnOrder| ==> columnOrder[i] != columnOrder[j])
      && (forall n :: n in columns <==> n in columnOrder)
      && (forall n :: n in columns ==> columns[n].name == n)
    }

    constructor (databaseName: string, databaseType: DatabaseType)
      ensures Valid()
      ensures this.databaseName == databaseName && this.databaseType == databaseType
      ensures columnOrder == [] && columns == map[] && values == map[]
    {
      this.databaseName := databaseName;
      this.databaseType := databaseType;
      columnOrder := [];
      columns := map[];
      values := map[];
    }

    /** The column definitions in the order the DDL lists them. */
    ghost function Columns(): (r: seq<ColumnDefinition>)
      reads this
      requires Valid()
      ensures |r| == |columnOrder|
    {
      OrderedColumns(columnOrder, columns)
    }

    /** addColumn(name, type, constraints, default): a new name goes last; an
        existing name keeps its place and gets the new definition. */
    method AddColumnWithDefault(name: string, columnType: string, constraints: Option<string>, defaultValue: Value)
      requires Valid()
      modifies this
      ensures Valid()
      ensures columns == old(columns)[name := ColumnDefinition(name, columnType, constraints, defaultValue)]
      ensures columnOrder == if name in old(columns) then old(columnOrder) else old(columnOrder) + [name]
      ensures forall i :: 0 <= i < |old(columnOrder)| ==> columnOrder[i] == old(columnOrder)[i]
      ensures values == old(values)
    {
      if name !in columns {
        columnOrder := columnOrder + [name];
      }
      columns := columns[name := ColumnDefinition(name, columnType, constraints, defaultValue)];
    }

    /** addColumn(name, type, constraints): the same, with no default. */
    method AddColumn(name: string, columnType: string, constraints: Option<string>)
      requires Valid()
      modifies this
      ensures Valid()
      ensures columns == old(columns)[name := ColumnDefinition(name, columnType, constraints, VNull)]
      ensures columnOrder == if name in old(columns) then old(columnOrder) else old(columnOrder) + [name]
      ensures values == old(values)
    {
      AddColumnWithDefault(name, columnType, constraints, VNull);
    }

    method SetValue(columnName: string, value: Value)
      modifies this
      ensures values == old(values)[columnName := value]
      ensures columns == old(columns) && columnOrder == old(columnOrder)
    {
      values := values[columnName := value];
    }

    // -------------------------------------------------------------- accessors

    /** getString: the same as a result row's getString over the pending values. */
    function GetString(columnName: string, defaultValue: string): (r: string)
      reads this
      ensures r == Results.QueryResult(values).GetStringOr(columnName, defaultValue)
      ensures (columnName !in values || values[columnName].VNull?) ==> r == defaultValue
    {
      var value := if columnName in values then values[columnName] else VNull;
      if !value.VNull? then ToText(value) else defaultValue
    }

    /** getInteger: an Integer is returned; anything else goes through
        Integer.parseInt, which throws when the text is not an `int`. */
    function GetInteger(columnName: string, defaultValue: Int32): (r: Parse<Int32>)
      reads this
      ensures (columnName !in values || values[columnName].VNull?) ==> r == Returned(defaultValue)
      ensures columnName in values && values[columnName].VInt? ==> r == Returned(values[columnName].i)
      ensures columnName in values && !values[columnName].VNull? && !values[columnName].VInt? ==>
        (r.Returned? <==> ParseInt32(ToText(values[columnName])).Some?)
      ensures r.Returned? && columnName in values && !values[columnName].VNull? && !values[columnName].VInt? ==>
        r.value == ParseInt32(ToText(values[columnName])).value
      ensures r.NumberFormatException? ==> r.input == ToText(values[columnName])
    {
      var value := if columnName in values then values[columnName] else VNull;
      if value.VNull? then Returned(defaultValue)
      else if value.VInt? then Returned(value.i)
      else match ParseInt32(ToText(value))
        case Some(n) => Returned(n)
        case None => NumberFormatException(ToText(value))
    }

    /** getBoolean: a Boolean is itself; any other value is true for "true"
        (any case) or "1".  Unlike a result row there is no Number branch. */
    function GetBoolean(columnName: string, defaultValue: bool): (r: bool)
      reads this
      ensures (columnName !in values || values[columnName].VNull?) ==> r == defaultValue
      ensures columnName in values && values[columnName].VBool? ==> r == values[columnName].b
      ensures columnName in values && !values[columnName].VNull? && !values[columnName].VBool? ==>
        (r <==> IsTrueText(ToText(values[columnName])))
    {
      var value := if columnName in values then values[columnName] else VNull;
      if value.VNull? then defaultValue
      else if value.VBool? then value.b
      else IsTrueText(ToText(value))
    }

    function GetDialectQuery(sqliteQuery: string, mysqlQuery: string): (r: string)
      ensures r == (if databaseType == SQLite then sqliteQuery else mysqlQuery)
    {
      DialectQuery(databaseType, sqliteQuery, mysqlQuery)
    }

    // -------------------------------------------------------------- statements

    /** createTable: whether it succeeded and the statements sent, in order.
        Without a connection nothing is sent; otherwise, with dropIfExists, a
        DROP TABLE IF EXISTS comes first. */
    method CreateTableStatements(tableName: string, dropIfExists: bool, connected: bool)
      returns (created: bool, statements: seq<string>)
      requires Valid()
      ensures created == connected
      ensures !connected ==> statements == []
      ensures connected ==> statements == (if dropIfExists then ["DROP TABLE IF EXISTS " + tableName] else [])
                                          + [CreateTableSql(databaseType, tableName, Columns())]
    {
      statements := [];
      created := connected;
      if !connected {
        return;
      }
      if dropIfExists {
        statements := ["DROP TABLE IF EXISTS " + tableName];
      }
      var sql := CreateTableText(databaseType, tableName, columnOrder, columns);
      statements := statements + [sql];
    }

    /** The default fill of insertData: in column order, a column with a
        default and no pending value gets its default. */
    method FillDefaults()
      requires Valid()
      modifies this
      ensures Valid() && columns == old(columns) && columnOrder == old(columnOrder)
      ensures values == WithDefaults(old(values), old(Columns()))
    {
      ghost var cols := Columns();
      var i := 0;
      while i < |columnOrder|
        invariant 0 <= i <= |columnOrder|
        invariant columns == old(columns) && columnOrder == old(columnOrder) && |cols| == |columnOrder|
        invariant values == WithDefaults(old(values), cols[..i])
      {
        var columnName := columnOrder[i];
        var column := columns[columnName];
        if columnName !in values && !column.defaultValue.VNull? {
          values := values[columnName := column.defaultValue];
        }
        assert cols[..i + 1][..i] == cols[..i];
        i := i + 1;
      }
      assert cols[..i] == cols;
    }

    /** insertData: fill defaults into the pending values (which are not
        cleared afterwards), then build the INSERT over every pending column
        in an arbitrary order, with the i-th parameter the i-th column's
        value, and bind Booleans as 1/0 under MySQL.  The result is the
        generated key, or -1. */
    method InsertData(tableName: string, connected: bool, reply: InsertReply)
      returns (id: Int64, statement: Option<Statement>, order: seq<string>)
      requires Valid()
      modifies this
      ensures Valid() && columns == old(columns) && columnOrder == old(columnOrder)
      ensures !connected ==> id == -1 && statement == None && values == old(values)
      ensures connected ==> values == WithDefaults(old(values), old(Columns()))
      ensures connected ==> OrdersKeys(order, values.Keys)
      ensures connected ==> statement == Some(Statement(InsertSql(tableName, order), BoundValues(databaseType, values, order)))
      ensures connected ==> id == (if reply.Inserted? && reply.generatedKey.Some? then reply.generatedKey.value else -1)
    {
      order := [];
      if !connected {
        return -1, None, order;
      }
      FillDefaults();
      var sql, valuesList;
      sql, valuesList, order := InsertStatement(tableName, values);
      var bound := BindParameters(databaseType, valuesList);
      assert bound == BoundValues(databaseType, values, order);
      statement := Some(Statement(sql, bound));
      match reply {
        case InsertRejected => id := -1;
        case Inserted(key) => id := if key.Some? then key.value else -1;
      }
    }

    /** select(table, id): put every column of the row except `id` into the
        pending values, keeping the other entries. */
    method Select(tableName: string, id: Int64, connected: bool, reply: FetchReply)
      returns (found: bool, statement: Option<Statement>)
      modifies this
      ensures columns == old(columns) && columnOrder == old(columnOrder)
      ensures !connected ==> statement == None
      ensures connected ==> statement == Some(Statement("SELECT * FROM " + tableName + " WHERE id = ?", [VLong(id)]))
      ensures found <==> connected && reply.Row?
      ensures values == if found then PutColumns(old(values), reply.columns, true) else old(values)
    {
      if !connected {
        return false, None;
      }
      statement := Some(Statement("SELECT * FROM " + tableName + " WHERE id = ?", [VLong(id)]));
      if !reply.Row? {
        return false, statement;
      }
      var row := reply.columns;
      ghost var start := values;
      var i := 0;
      while i < |row|
        invariant 0 <= i <= |row|
        invariant columns == old(columns) && columnOrder == old(columnOrder)
        invariant values == PutColumns(start, row[..i], true)
      {
        var (columnName, value) := row[i];
        if columnName != "id" {
          values := values[columnName := value];
        }
        assert row[..i + 1][..i] == row[..i];
        i := i + 1;
      }
      assert row[..i] == row;
      found := true;
    }

    /** selectByQuery: on a row, clear the pending values and put every column
        of it, `id` included. */
    method SelectByQuery(qb: Query.QueryBuilder, connected: bool, reply: FetchReply)
      returns (found: bool, statement: Option<Statement>)
      modifies this
      ensures columns == old(columns) && columnOrder == old(columnOrder)
      ensures !connected ==> statement == None
      ensures connected ==> statement == Some(Statement(
        Query.CompiledQuery(qb.tableName, qb.whereClause, qb.orderByClause, qb.limitClause, false), qb.parameters))
      ensures found <==> connected && reply.Row?
      ensures values == if found then PutColumns(map[], reply.columns, false) else old(values)
    {
      if !connected {
        return false, None;
      }
      var sql := qb.BuildQuery(false);
      var parameters := qb.GetParameters();
      statement := Some(Statement(sql, parameters));
      if !reply.Row? {
        return false, statement;
      }
      values := map[];
      var row := reply.columns;
      var i := 0;
      while i < |row|
        invariant 0 <= i <= |row|
        invariant columns == old(columns) && columnOrder == old(columnOrder)
        invariant values == PutColumns(map[], row[..i], false)
      {
        var (columnName, value) := row[i];
        values := values[columnName := value];
        assert row[..i + 1][..i] == row[..i];
        i := i + 1;
      }
      assert row[..i] == row;
      found := true;
    }

    /** truncateTable: whether it succeeded and the statements sent for this
        handle's dialect; without a connection nothing is sent. */
    method TruncateTable(tableName: string, connected: bool) returns (truncated: bool, statements: seq<string>)
      ensures truncated == connected
      ensures !connected ==> statements == []
      ensures connected ==> statements == TruncateStatements(databaseType, tableName)
    {
      truncated := connected;
      if !connected {
        return truncated, [];
      }
      if databaseType == SQLite {
        statements := ["DELETE FROM " + tableName, "DELETE FROM sqlite_sequence WHERE name='" + tableName + "'"];
      } else {
        statements := ["TRUNCATE TABLE " + tableName];
      }
    }
  }

  // ---------------------------------------------------------------- lemmas about the handle

  /** After a successful selectByQuery the pending values are exactly the
      row: its names, `id` included, each with its value. */
  lemma FetchedRowIsPendingSet(row: seq<(string, Value)>)
    requires DistinctNames(row)
    ensures forall i :: 0 <= i < |row| ==>
      (row[i].0 in PutColumns(map[], row, false) && PutColumns(map[], row, false)[row[i].0] == row[i].1)
    ensures forall k :: k in PutColumns(map[], row, false) <==> exists i :: 0 <= i < |row| && row[i].0 == k
  {
    PutColumnsRowValues(map[], row, false);
    forall k | k in PutColumns(map[], row, false) ensures exists i :: 0 <= i < |row| && row[i].0 == k {
      PutColumnsKeys(map[], row, false, k);
    }
  }

  /** After select(table, id) the `id` entry and every key not in the row are
      as they were. */
  lemma SelectKeepsOtherValues(m: map<string, Value>, row: seq<(string, Value)>, k: string)
    requires k == "id" || forall i :: 0 <= i < |row| ==> row[i].0 != k
    ensures k in PutColumns(m, row, true) <==> k in m
    ensures k in m ==> PutColumns(m, row, true)[k] == m[k]
  {
    PutColumnsUntouched(m, row, true, k);
  }

  /** The handle's getBoolean reads a number through its text, so an `int`
      is true for it only when it is 1, while a result row takes any non-zero
      `int` as true. */
  lemma BooleanAccessorsDiffer(db: DBManager, key: string, i: Int32, d: bool)
    requires key in db.values && db.values[key] == VInt(i)
    ensures db.GetBoolean(key, d) == (i == 1)
    ensures Results.QueryResult(db.values).GetBooleanOr(key, d) == (i != 0)
  {
    var text := ToText(VInt(i));
    TrueTextCases(text);
    assert ParseInt32(text) == Some(i);
    assert |text| > 0 && (IsDigit(text[0]) || text[0] in "+-");
    if text == "1" {
      assert ParseDecimal("1") == Some(1);
    }
  }
}
