/** A fetched row wrapped with typed accessors.  Each accessor makes a
    best-effort conversion and falls back to the caller's default when the
    column is absent, null or not convertible; none of them throws. */
module Results {
  import opened Values

  datatype QueryResult = QueryResult(data: map<string, Value>) {

    /** has: the column is present and its value is not null. */
    predicate Has(key: string)
      ensures Has(key) ==> key in data
    {
      key in data && !data[key].VNull?
    }

    function GetStringOr(key: string, defaultValue: string): (r: string)
      ensures !Has(key) ==> r == defaultValue
      ensures Has(key) ==> r == ToText(data[key])
    {
      if Has(key) then ToText(data[key]) else defaultValue
    }

    function GetString(key: string): (r: string)
      ensures !Has(key) ==> r == ""
      ensures Has(key) ==> r == ToText(data[key])
    {
      GetStringOr(key, "")
    }

    /** getInt: a number gives intValue(); any other value is parsed as an
        `int`, falling back to the default when the text does not parse. */
    function GetIntOr(key: string, defaultValue: Int32): (r: Int32)
      ensures !Has(key) ==> r == defaultValue
      ensures Has(key) && data[key].IsNumber() ==> r == IntValue(data[key])
      ensures Has(key) && !data[key].IsNumber() && ParseInt32(ToText(data[key])).Some? ==>
                r == ParseInt32(ToText(data[key])).value
      ensures Has(key) && !data[key].IsNumber() && ParseInt32(ToText(data[key])).None? ==>
                r == defaultValue
    {
      if !Has(key) then defaultValue
      else
        var v := data[key];
        if v.IsNumber() then IntValue(v)
        else match ParseInt32(ToText(v))
          case Some(n) => n
          case None => defaultValue
    }

    function GetInt(key: string): (r: Int32)
      ensures !Has(key) ==> r == 0
      ensures Has(key) ==> r == GetIntOr(key, 0)
    {
      GetIntOr(key, 0)
    }

    /** getLong: the same shape as getInt, with longValue() and Long.parseLong. */
    function GetLongOr(key: string, defaultValue: Int64): (r: Int64)
      ensures !Has(key) ==> r == defaultValue
      ensures Has(key) && data[key].IsNumber() ==> r == LongValue(data[key])
      ensures Has(key) && !data[key].IsNumber() && ParseInt64(ToText(data[key])).Some? ==>
                r == ParseInt64(ToText(data[key])).value
      ensures Has(key) && !data[key].IsNumber() && ParseInt64(ToText(data[key])).None? ==>
                r == defaultValue
    {
      if !Has(key) then defaultValue
      else
        var v := data[key];
        if v.IsNumber() then LongValue(v)
        else match ParseInt64(ToText(v))
          case Some(n) => n
          case None => defaultValue
    }

    function GetLong(key: string): (r: Int64)
      ensures !Has(key) ==> r == 0
      ensures Has(key) ==> r == GetLongOr(key, 0)
    {
      GetLongOr(key, 0)
    }

    /** getBoolean: a Boolean is itself, a number is true when its intValue()
        is non-zero, and anything else is true for "true" (any case) or "1". */
    function GetBooleanOr(key: string, defaultValue: bool): (r: bool)
      ensures !Has(key) ==> r == defaultValue
      ensures Has(key) && data[key].VBool? ==> r == data[key].b
      ensures Has(key) && data[key].IsNumber() ==> (r <==> IntValue(data[key]) != 0)
      ensures Has(key) && !data[key].VBool? && !data[key].IsNumber() ==> (r <==> IsTrueText(ToText(data[key])))
    {
      if !Has(key) then defaultValue
      else
        var v := data[key];
        if v.VBool? then v.b
        else if v.IsNumber() then IntValue(v) != 0
        else IsTrueText(ToText(v))
    }

    function GetBoolean(key: string): (r: bool)
      ensures !Has(key) ==> !r
      ensures Has(key) ==> r == GetBooleanOr(key, false)
    {
      GetBooleanOr(key, false)
    }

    /** getDate: a date value is returned; every other value, absent or null
        column gives the default (which may itself be null). */
    function GetDateOr(key: string, defaultValue: Option<JavaDate>): (r: Option<JavaDate>)
      ensures Has(key) && data[key].VDate? ==> r == Some(data[key].date)
      ensures !(Has(key) && data[key].VDate?) ==> r == defaultValue
    {
      if Has(key) && data[key].VDate? then Some(data[key].date) else defaultValue
    }

    function GetDate(key: string): (r: Option<JavaDate>)
      ensures r.Some? <==> Has(key) && data[key].VDate?
    {
      GetDateOr(key, None)
    }
  }

  /** Wraps each fetched row, in order. */
  method FromList(mapList: seq<map<string, Value>>) returns (resultList: seq<QueryResult>)
    ensures |resultList| == |mapList|
    ensures forall i :: 0 <= i < |mapList| ==> resultList[i].data == mapList[i]
  {
    resultList := [];
    var i := 0;
    while i < |mapList|
      invariant 0 <= i <= |mapList|
      invariant |resultList| == i
      invariant forall j :: 0 <= j < i ==> resultList[j].data == mapList[j]
    {
      resultList := resultList + [QueryResult(mapList[i])];
      i := i + 1;
    }
  }

  // ---------------------------------------------------------------- lemmas

  /** A column holding the decimal text of an `int` reads back as that `int`,
      whatever the default. */
  lemma IntTextReadsBack(row: QueryResult, key: string, i: Int32, d: Int32)
    requires key in row.data && row.data[key] == VStr(IntToDecimal(i))
    ensures row.GetIntOr(key, d) == i
  {
    Int32RoundTrip(i);
  }

  lemma LongTextReadsBack(row: QueryResult, key: string, l: Int64, d: Int64)
    requires key in row.data && row.data[key] == VStr(IntToDecimal(l))
    ensures row.GetLongOr(key, d) == l
  {
    Int64RoundTrip(l);
  }

  /** Text that only fits a `long` is not an `int`: getInt falls back to the
      default, while getLong parses it. */
  lemma LongTextOverflowsInt(row: QueryResult, key: string, l: Int64, d: Int32)
    requires key in row.data && row.data[key] == VStr(IntToDecimal(l))
    requires l > INT32_MAX
    ensures row.GetIntOr(key, d) == d
    ensures row.GetLongOr(key, 0) == l
  {
    DecimalRoundTrip(l);
  }

  /** A stored `long` read with getInt keeps only its low 32 bits: the result
      agrees with it modulo 2^32, equals it when it fits an `int`, and differs
      from it when it does not; getLong returns it unchanged. */
  lemma LongValueWrapsInGetInt(row: QueryResult, key: string, l: Int64)
    requires key in row.data && row.data[key] == VLong(l)
    ensures (row.GetInt(key) - l) % 0x1_0000_0000 == 0
    ensures INT32_MIN <= l <= INT32_MAX ==> row.GetInt(key) == l
    ensures !(INT32_MIN <= l <= INT32_MAX) ==> row.GetInt(key) != l
    ensures row.GetLong(key) == l
  {
  }

  /** A column is present and not null exactly when has says so; it is absent
      or null exactly when getString returns its default,
      whatever the default; then every other accessor returns its default too. */
  lemma HasDecidesDefault(row: QueryResult, key: string)
    ensures key in row.data && row.data[key].VNull? ==> !row.Has(key)
    ensures key in row.data && !row.data[key].VNull? ==> row.Has(key)
    ensures !row.Has(key) <==> forall d :: row.GetStringOr(key, d) == d
    ensures !row.Has(key) ==> forall n :: row.GetIntOr(key, n) == n
    ensures !row.Has(key) ==> forall n :: row.GetLongOr(key, n) == n
    ensures !row.Has(key) ==> forall b :: row.GetBooleanOr(key, b) == b
  {
    if row.Has(key) {
      var d := ToText(row.data[key]) + "!";
      assert |row.GetStringOr(key, d)| != |d|;
    }
  }

  /** Every stored value reads back through the accessor of its own kind. */
  lemma AccessorsReturnStoredValue(row: QueryResult, key: string)
    requires key in row.data
    ensures row.data[key].VStr? ==> row.GetString(key) == row.data[key].s
    ensures row.data[key].VInt? ==> row.GetInt(key) == row.data[key].i && row.GetLong(key) == row.data[key].i
    ensures row.data[key].VLong? ==> row.GetLong(key) == row.data[key].l
    ensures row.data[key].VBool? ==> row.GetBoolean(key) == row.data[key].b
    ensures row.data[key].VDate? ==> row.GetDate(key) == Some(row.data[key].date)
  {
  }

  /** Text accepted as true by getBoolean. */
  lemma BooleanText(row: QueryResult, key: string)
    requires key in row.data && row.data[key].VStr?
    ensures row.GetBoolean(key) <==>
      (row.data[key].s == "1" ||
       (|row.data[key].s| == 4 && row.data[key].s[0] in "tT" && row.data[key].s[1] in "rR"
        && row.data[key].s[2] in "uU" && row.data[key].s[3] in "eE"))
  {
    TrueTextCases(row.data[key].s);
  }
}
