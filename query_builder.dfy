/** The fluent query builder: it accumulates a flat WHERE clause with a
    parameter list kept in step with its `?` placeholders, one ORDER BY and one
    LIMIT (each last-write-wins), and compiles them into a SELECT. */
module Query {
  import opened Values

  datatype Connector = And | Or

  /** where/whereLike/whereGreaterThan/whereLessThan/orWhere: the comparison each writes. */
  datatype Operator = Equals | Like | GreaterThan | LessThan

  function ConnectorText(c: Connector): string {
    match c
    case And => " AND "
    case Or => " OR "
  }

  /** The comparison text, which ends in the call's placeholder. */
  function OperatorText(op: Operator): (r: string)
    ensures |r| > 0
  {
    match op
    case Equals => " = ?"
    case Like => " LIKE ?"
    case GreaterThan => " > ?"
    case LessThan => " < ?"
  }

  lemma OperatorPlaceholder(op: Operator)
    ensures CountPlaceholders(OperatorText(op)) == 1
  {
    var t := OperatorText(op);
    var word := t[..|t| - 1];
    assert t[|t| - 1] == '?';
    NoPlaceholderWithoutMark(word);
  }

  /** One predicate call: the connector it would use, the column, the
      comparison and the bound value. */
  datatype Predicate = Predicate(connector: Connector, column: string, op: Operator, value: Value)

  /** The text a predicate call appends to a clause that currently reads `clause`:
      the connector only when the clause is not empty. */
  function Fragment(clause: string, p: Predicate): string {
    (if |clause| > 0 then ConnectorText(p.connector) else "") + p.column + OperatorText(p.op)
  }

  /** The WHERE clause text produced by a sequence of predicate calls, in call order. */
  function RenderWhere(ps: seq<Predicate>): string
    decreases |ps|
  {
    if |ps| == 0 then ""
    else
      var before := RenderWhere(ps[..|ps| - 1]);
      before + Fragment(before, ps[|ps| - 1])
  }

  /** The parameter list produced by the same calls. */
  function ParametersOf(ps: seq<Predicate>): (r: seq<Value>)
    ensures |r| == |ps| && forall i :: 0 <= i < |ps| ==> r[i] == ps[i].value
  {
    seq(|ps|, i requires 0 <= i < |ps| => ps[i].value)
  }

  predicate NoPlaceholderInColumns(ps: seq<Predicate>) {
    forall i :: 0 <= i < |ps| ==> '?' !in ps[i].column
  }

  datatype Ordering = Ordering(column: string, ascending: bool)

  /** limit(n) and limit(n, offset). */
  datatype Pagination = Limit(limit: Int32) | LimitOffset(limit: Int32, offset: Int32)

  function OrderByText(o: Option<Ordering>): string {
    match o
    case None => ""
    case Some(Ordering(column, ascending)) => " ORDER BY " + column + (if ascending then " ASC" else " DESC")
  }

  function LimitText(p: Option<Pagination>): string {
    match p
    case None => ""
    case Some(Limit(n)) => " LIMIT " + IntToDecimal(n)
    case Some(LimitOffset(n, m)) => " LIMIT " + IntToDecimal(n) + " OFFSET " + IntToDecimal(m)
  }

  function WhereSection(whereClause: string): string {
    if |whereClause| > 0 then " WHERE " + whereClause else ""
  }

  function QueryHead(selectCount: bool): string {
    if selectCount then "SELECT COUNT(*) FROM " else "SELECT * FROM "
  }

  /** The SELECT that buildQuery compiles from the builder's fields: a count
      query carries only the table and the WHERE clause; a row query adds
      ORDER BY and then LIMIT. */
  function CompiledQuery(tableName: string, whereClause: string, orderByClause: string,
                         limitClause: string, selectCount: bool): string
  {
    QueryHead(selectCount) + tableName + WhereSection(whereClause)
      + (if selectCount then "" else orderByClause + limitClause)
  }

  // ---------------------------------------------------------------- lemmas

  lemma {:induction false} RenderWhereEmpty(ps: seq<Predicate>)
    ensures RenderWhere(ps) == "" <==> ps == []
  {
    if |ps| > 0 {
      var before := RenderWhere(ps[..|ps| - 1]);
      assert |Fragment(before, ps[|ps| - 1])| > 0;
    }
  }

  /** Adding one predicate appends exactly its fragment. */
  lemma RenderWhereSnoc(ps: seq<Predicate>, p: Predicate)
    ensures RenderWhere(ps + [p]) == RenderWhere(ps) + Fragment(RenderWhere(ps), p)
  {
    assert (ps + [p])[..|ps|] == ps;
  }

  /** Adding one predicate appends exactly its value to the parameters. */
  lemma ParametersSnoc(ps: seq<Predicate>, p: Predicate)
    ensures ParametersOf(ps + [p]) == ParametersOf(ps) + [p.value]
  {
  }

  /** The clause of a prefix of the calls is a prefix of the clause. */
  lemma {:induction false} RenderWherePrefix(ps: seq<Predicate>, k: nat)
    requires k <= |ps|
    ensures RenderWhere(ps[..k]) <= RenderWhere(ps)
    decreases |ps|
  {
    if k < |ps| {
      var init := ps[..|ps| - 1];
      assert ps[..k] == init[..k];
      RenderWherePrefix(init, k);
    } else {
      assert ps[..k] == ps;
    }
  }

  /** The first predicate has no leading connector; each later one is joined
      by its own AND or OR. */
  lemma {:induction false} ConnectorPlacement(ps: seq<Predicate>, k: nat)
    requires k < |ps|
    ensures k == 0 ==> RenderWhere(ps[..1]) == ps[0].column + OperatorText(ps[0].op)
    ensures k > 0 ==>
      RenderWhere(ps[..k + 1]) == RenderWhere(ps[..k]) + ConnectorText(ps[k].connector) + ps[k].column + OperatorText(ps[k].op)
  {
    assert ps[..k + 1] == ps[..k] + [ps[k]];
    RenderWhereSnoc(ps[..k], ps[k]);
    RenderWhereEmpty(ps[..k]);
  }

  /** With no `?` inside column names, the clause has one placeholder per call. */
  lemma {:induction false} WherePlaceholderCount(ps: seq<Predicate>)
    requires NoPlaceholderInColumns(ps)
    ensures CountPlaceholders(RenderWhere(ps)) == |ps|
    decreases |ps|
  {
    if |ps| > 0 {
      var init := ps[..|ps| - 1];
      var p := ps[|ps| - 1];
      var before := RenderWhere(init);
      WherePlaceholderCount(init);
      NoPlaceholderWithoutMark(p.column);
      NoPlaceholderWithoutMark(ConnectorText(p.connector));
      PlaceholdersAppend(before, Fragment(before, p));
      var conn := if |before| > 0 then ConnectorText(p.connector) else "";
      PlaceholdersAppend(conn, p.column);
      PlaceholdersAppend(conn + p.column, OperatorText(p.op));
      OperatorPlaceholder(p.op);
    }
  }

  /** Lock-step: the placeholder that the k-th call writes is the (k+1)-th of
      the clause, and the k-th parameter is that call's value. */
  lemma PlaceholderAlignment(ps: seq<Predicate>, k: nat)
    requires NoPlaceholderInColumns(ps)
    requires k < |ps|
    ensures RenderWhere(ps[..k]) <= RenderWhere(ps[..k + 1]) <= RenderWhere(ps)
    ensures CountPlaceholders(RenderWhere(ps[..k])) == k
    ensures CountPlaceholders(RenderWhere(ps[..k + 1])) == k + 1
    ensures ParametersOf(ps)[k] == ps[k].value
  {
    PrefixPlaceholders(ps, k);
    PrefixPlaceholders(ps, k + 1);
    RenderWhereStep(ps, k);
    RenderWherePrefix(ps, k + 1);
  }

  lemma PrefixPlaceholders(ps: seq<Predicate>, k: nat)
    requires NoPlaceholderInColumns(ps)
    requires k <= |ps|
    ensures CountPlaceholders(RenderWhere(ps[..k])) == k
  {
    assert NoPlaceholderInColumns(ps[..k]);
    WherePlaceholderCount(ps[..k]);
  }

  lemma RenderWhereStep(ps: seq<Predicate>, k: nat)
    requires k < |ps|
    ensures RenderWhere(ps[..k]) <= RenderWhere(ps[..k + 1])
  {
    assert ps[..k + 1][..k] == ps[..k];
    RenderWherePrefix(ps[..k + 1], k);
  }

  lemma NoPlaceholderInOrderBy(o: Option<Ordering>)
    requires o.Some? ==> '?' !in o.value.column
    ensures CountPlaceholders(OrderByText(o)) == 0
  {
    match o {
      case None =>
      case Some(Ordering(c, asc)) =>
        var dir := if asc then " ASC" else " DESC";
        NoPlaceholderWithoutMark(c);
        NoPlaceholderWithoutMark(" ORDER BY ");
        NoPlaceholderWithoutMark(dir);
        PlaceholdersAppend(" ORDER BY ", c);
        PlaceholdersAppend(" ORDER BY " + c, dir);
    }
  }

  lemma NoPlaceholderInLimit(p: Option<Pagination>)
    ensures CountPlaceholders(LimitText(p)) == 0
  {
    NoPlaceholderWithoutMark(" LIMIT ");
    NoPlaceholderWithoutMark(" OFFSET ");
    match p {
      case None =>
      case Some(Limit(n)) =>
        DecimalNoPlaceholder(n);
        PlaceholdersAppend(" LIMIT ", IntToDecimal(n));
      case Some(LimitOffset(n, m)) =>
        DecimalNoPlaceholder(n);
        DecimalNoPlaceholder(m);
        PlaceholdersAppend(" LIMIT ", IntToDecimal(n));
        PlaceholdersAppend(" LIMIT " + IntToDecimal(n), " OFFSET ");
        PlaceholdersAppend(" LIMIT " + IntToDecimal(n) + " OFFSET ", IntToDecimal(m));
    }
  }

  lemma HeadPlaceholders(tableName: string, w: string, selectCount: bool)
    requires '?' !in tableName
    ensures CountPlaceholders(QueryHead(selectCount) + tableName + WhereSection(w)) == CountPlaceholders(w)
  {
    var head := QueryHead(selectCount);
    NoPlaceholderWithoutMark(tableName);
    NoPlaceholderWithoutMark(head);
    NoPlaceholderWithoutMark(" WHERE ");
    PlaceholdersAppend(head, tableName);
    PlaceholdersAppend(" WHERE ", w);
    PlaceholdersAppend(head + tableName, WhereSection(w));
  }

  /** The compiled SELECT, count or not, has exactly as many placeholders as
      there are parameters, when no name spliced into it holds a `?`. */
  lemma QueryPlaceholderCount(tableName: string, ps: seq<Predicate>, o: Option<Ordering>,
                              p: Option<Pagination>, selectCount: bool)
    requires '?' !in tableName && NoPlaceholderInColumns(ps)
    requires o.Some? ==> '?' !in o.value.column
    ensures CountPlaceholders(CompiledQuery(tableName, RenderWhere(ps), OrderByText(o), LimitText(p), selectCount))
            == |ParametersOf(ps)|
  {
    var w := RenderWhere(ps);
    WherePlaceholderCount(ps);
    HeadPlaceholders(tableName, w, selectCount);
    NoPlaceholderInOrderBy(o);
    NoPlaceholderInLimit(p);
    CompiledPlaceholders(tableName, w, OrderByText(o), LimitText(p), selectCount);
  }

  lemma CompiledPlaceholders(tableName: string, w: string, orderByClause: string, limitClause: string,
                             selectCount: bool)
    requires CountPlaceholders(orderByClause) == 0 && CountPlaceholders(limitClause) == 0
    ensures CountPlaceholders(CompiledQuery(tableName, w, orderByClause, limitClause, selectCount))
            == CountPlaceholders(QueryHead(selectCount) + tableName + WhereSection(w))
  {
    var base := QueryHead(selectCount) + tableName + WhereSection(w);
    var tail := if selectCount then "" else orderByClause + limitClause;
    PlaceholdersAppend(orderByClause, limitClause);
    PlaceholdersAppend(base, tail);
  }

  // ---------------------------------------------------------------- the builder

  /** What a predicate call appends to the clause: the connector unless the
      clause is empty, then the column and the comparison. */
  method AppendFragment(clause: string, p: Predicate) returns (r: string)
    ensures r == clause + Fragment(clause, p)
  {
    r := clause;
    if |r| > 0 {
      r := r + ConnectorText(p.connector);
    }
    r := r + (p.column + OperatorText(p.op));
  }

  /** The text assembly of buildQuery: the head, the table, WHERE when there
      is a clause, then ORDER BY and LIMIT when present and not counting. */
  method CompileQuery(tableName: string, whereClause: string, orderByClause: string,
                      limitClause: string, selectCount: bool) returns (query: string)
    ensures query == CompiledQuery(tableName, whereClause, orderByClause, limitClause, selectCount)
    ensures selectCount ==> query == "SELECT COUNT(*) FROM " + tableName + WhereSection(whereClause)
    ensures !selectCount ==>
      query == "SELECT * FROM " + tableName + WhereSection(whereClause) + orderByClause + limitClause
  {
    var where := "";
    if |whereClause| > 0 {
      where := " WHERE " + whereClause;
    }
    assert where == WhereSection(whereClause);
    if selectCount {
      query := "SELECT COUNT(*) FROM " + tableName + where;
    } else {
      query := "SELECT * FROM " + tableName + where;
      ghost var head := query;
      if |orderByClause| > 0 {
        query := query + orderByClause;
      }
      assert query == head + orderByClause;
      if |limitClause| > 0 {
        query := query + limitClause;
      }
      assert query == head + orderByClause + limitClause;
    }
  }

  class QueryBuilder {
    const tableName: string
    var whereClause: string
    var parameters: seq<Value>
    var orderByClause: string
    var limitClause: string

    /** The calls made so far, which the text fields are rendered from. */
    ghost var predicates: seq<Predicate>
    ghost var ordering: Option<Ordering>
    ghost var pagination: Option<Pagination>

    ghost predicate Valid()
      reads this
    {
      && whereClause == RenderWhere(predicates)
      && parameters == ParametersOf(predicates)
      && orderByClause == OrderByText(ordering)
      && limitClause == LimitText(pagination)
    }

    constructor (tableName: string)
      ensures Valid() && this.tableName == tableName
      ensures whereClause == "" && parameters == [] && orderByClause == "" && limitClause == ""
      ensures predicates == [] && ordering == None && pagination == None
    {
      this.tableName := tableName;
      whereClause := "";
      parameters := [];
      orderByClause := "";
      limitClause := "";
      predicates := [];
      ordering := None;
      pagination := None;
    }

    /** The body shared by the five predicate methods. */
    method AddPredicate(p: Predicate)
      requires Valid()
      modifies this
      ensures Valid()
      ensures whereClause == old(whereClause) + Fragment(old(whereClause), p)
      ensures parameters == old(parameters) + [p.value]
      ensures predicates == old(predicates) + [p]
      ensures orderByClause == old(orderByClause) && limitClause == old(limitClause)
      ensures ordering == old(ordering) && pagination == old(pagination)
    {
      RenderWhereSnoc(predicates, p);
      ParametersSnoc(predicates, p);
      whereClause := AppendFragment(whereClause, p);
      parameters := parameters + [p.value];
      predicates := predicates + [p];
    }

    method Where(columnName: string, value: Value) returns (self: QueryBuilder)
      requires Valid()
      modifies this
      ensures Valid() && self == this
      ensures whereClause == old(whereClause) + (if |old(whereClause)| > 0 then " AND " else "") + columnName + " = ?"
      ensures parameters == old(parameters) + [value]
      ensures predicates == old(predicates) + [Predicate(And, columnName, Equals, value)]
      ensures orderByClause == old(orderByClause) && limitClause == old(limitClause)
      ensures ordering == old(ordering) && pagination == old(pagination)
    {
      AddPredicate(Predicate(And, columnName, Equals, value));
      self := this;
    }

    /** whereLike takes a Java String, so the value is a string or null. */
    method WhereLike(columnName: string, value: Value) returns (self: QueryBuilder)
      requires Valid()
      requires value.VStr? || value.VNull?
      modifies this
      ensures Valid() && self == this
      ensures whereClause == old(whereClause) + (if |old(whereClause)| > 0 then " AND " else "") + columnName + " LIKE ?"
      ensures parameters == old(parameters) + [value]
      ensures predicates == old(predicates) + [Predicate(And, columnName, Like, value)]
      ensures orderByClause == old(orderByClause) && limitClause == old(limitClause)
      ensures ordering == old(ordering) && pagination == old(pagination)
    {
      AddPredicate(Predicate(And, columnName, Like, value));
      self := this;
    }

    method WhereGreaterThan(columnName: string, value: Value) returns (self: QueryBuilder)
      requires Valid()
      modifies this
      ensures Valid() && self == this
      ensures whereClause == old(whereClause) + (if |old(whereClause)| > 0 then " AND " else "") + columnName + " > ?"
      ensures parameters == old(parameters) + [value]
      ensures predicates == old(predicates) + [Predicate(And, columnName, GreaterThan, value)]
      ensures orderByClause == old(orderByClause) && limitClause == old(limitClause)
      ensures ordering == old(ordering) && pagination == old(pagination)
    {
      AddPredicate(Predicate(And, columnName, GreaterThan, value));
      self := this;
    }

    method WhereLessThan(columnName: string, value: Value) returns (self: QueryBuilder)
      requires Valid()
      modifies this
      ensures Valid() && self == this
      ensures whereClause == old(whereClause) + (if |old(whereClause)| > 0 then " AND " else "") + columnName + " < ?"
      ensures parameters == old(parameters) + [value]
      ensures predicates == old(predicates) + [Predicate(And, columnName, LessThan, value)]
      ensures orderByClause == old(orderByClause) && limitClause == old(limitClause)
      ensures ordering == old(ordering) && pagination == old(pagination)
    {
      AddPredicate(Predicate(And, columnName, LessThan, value));
      self := this;
    }

    method OrWhere(columnName: string, value: Value) returns (self: QueryBuilder)
      requires Valid()
      modifies this
      ensures Valid() && self == this
      ensures whereClause == old(whereClause) + (if |old(whereClause)| > 0 then " OR " else "") + columnName + " = ?"
      ensures parameters == old(parameters) + [value]
      ensures predicates == old(predicates) + [Predicate(Or, columnName, Equals, value)]
      ensures orderByClause == old(orderByClause) && limitClause == old(limitClause)
      ensures ordering == old(ordering) && pagination == old(pagination)
    {
      AddPredicate(Predicate(Or, columnName, Equals, value));
      self := this;
    }

    /** Replaces any earlier ordering. */
    method OrderBy(columnName: string, ascending: bool) returns (self: QueryBuilder)
      requires Valid()
      modifies this
      ensures Valid() && self == this
      ensures orderByClause == " ORDER BY " + columnName + (if ascending then " ASC" else " DESC")
      ensures ordering == Some(Ordering(columnName, ascending))
      ensures whereClause == old(whereClause) && parameters == old(parameters) && limitClause == old(limitClause)
      ensures predicates == old(predicates) && pagination == old(pagination)
    {
      orderByClause := " ORDER BY " + columnName + (if ascending then " ASC" else " DESC");
      ordering := Some(Ordering(columnName, ascending));
      self := this;
    }

    /** limit(n): replaces any earlier limit, with or without offset. */
    method Limit(limit: Int32) returns (self: QueryBuilder)
      requires Valid()
      modifies this
      ensures Valid() && self == this
      ensures limitClause == " LIMIT " + IntToDecimal(limit)
      ensures pagination == Some(Pagination.Limit(limit))
      ensures whereClause == old(whereClause) && parameters == old(parameters) && orderByClause == old(orderByClause)
      ensures predicates == old(predicates) && ordering == old(ordering)
    {
      limitClause := " LIMIT " + IntToDecimal(limit);
      pagination := Some(Pagination.Limit(limit));
      self := this;
    }

    /** limit(n, offset): replaces any earlier limit. */
    method LimitOffset(limit: Int32, offset: Int32) returns (self: QueryBuilder)
      requires Valid()
      modifies this
      ensures Valid() && self == this
      ensures limitClause == " LIMIT " + IntToDecimal(limit) + " OFFSET " + IntToDecimal(offset)
      ensures pagination == Some(Pagination.LimitOffset(limit, offset))
      ensures whereClause == old(whereClause) && parameters == old(parameters) && orderByClause == old(orderByClause)
      ensures predicates == old(predicates) && ordering == old(ordering)
    {
      limitClause := " LIMIT " + IntToDecimal(limit) + " OFFSET " + IntToDecimal(offset);
      pagination := Some(Pagination.LimitOffset(limit, offset));
      self := this;
    }

    /** Compiles the SELECT; reads the fields and changes none of them, so
        calling it again gives the same text. */
    method BuildQuery(selectCount: bool) returns (query: string)
      ensures query == CompiledQuery(tableName, whereClause, orderByClause, limitClause, selectCount)
      ensures selectCount ==> query == "SELECT COUNT(*) FROM " + tableName + WhereSection(whereClause)
      ensures !selectCount ==>
        query == "SELECT * FROM " + tableName + WhereSection(whereClause) + orderByClause + limitClause
      ensures Valid() && '?' !in tableName && NoPlaceholderInColumns(predicates)
              && (ordering.Some? ==> '?' !in ordering.value.column) ==>
        CountPlaceholders(query) == |parameters|
    {
      query := CompileQuery(tableName, whereClause, orderByClause, limitClause, selectCount);
      if Valid() && '?' !in tableName && NoPlaceholderInColumns(predicates)
         && (ordering.Some? ==> '?' !in ordering.value.column) {
        QueryPlaceholderCount(tableName, predicates, ordering, pagination, selectCount);
      }
    }

    method GetParameters() returns (ps: seq<Value>)
      ensures ps == parameters
    {
      ps := parameters;
    }
  }
}
