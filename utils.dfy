/**
 * The older codec of src/_common/utils.js, used by the sequelize adapter.
 * Its `fromSql` is written exactly like the shared one; its `toSql` has no
 * array check and calls `join` on whatever it is given, so anything but an
 * array throws a `TypeError`.
 */
module Utils {
  import opened Wrappers
  import opened JsText
  import opened Fragments
  import SqlCodec

  /** The error `value.join` throws when `value` is not an array. */
  datatype TypeError = JoinIsNotAFunction

  /** `fromSql(text)`: drop the outer characters, split on commas, parse each piece. */
  function FromSql(text: string): (r: seq<Option<int>>)
    ensures |r| == Count(Substring(text, 1, |text| - 1), ',') + 1
  {
    var parts := Split(Substring(text, 1, |text| - 1), ',');
    seq(|parts|, i requires 0 <= i < |parts| => ParseFloat(parts[i]))
  }

  /** `toSql(value)`: a brace, `value.join(',')`, a brace; a non-array has no `join`. */
  function ToSql(value: Value): (r: Result<string, TypeError>)
    ensures r.Success? <==> value.Arr?
    ensures r.Success? ==> |r.value| >= 2 && r.value[0] == '{' && r.value[|r.value| - 1] == '}'
  {
    match value
    case Arr(items) => Success("{" + JoinNumbers(items, ",") + "}")
    case _ => Failure(JoinIsNotAFunction)
  }

  /** Both `fromSql` functions read every text the same way. */
  lemma FromSqlAgrees(text: string)
    ensures FromSql(text) == SqlCodec.FromSql(text)
  {
  }

  /** On arrays both `toSql` functions write the same literal. */
  lemma ToSqlAgrees(v: seq<int>)
    ensures ToSql(Arr(v)) == Success(SqlCodec.Encode(v))
    ensures SqlCodec.ToSql(Arr(v)) == Str(ToSql(Arr(v)).value)
  {
  }

  /**
   * For at least one element the literal is as long as the element texts
   * together, plus a comma between each two neighbours, plus the two braces.
   */
  lemma ToSqlLength(v: seq<int>)
    requires |v| > 0
    ensures |ToSql(Arr(v)).value| == TotalLength(NumberTexts(v)) + (|v| - 1) + 2
  {
    JoinLength(NumberTexts(v), ",");
    assert |JoinNumbers(v, ",")| == TotalLength(NumberTexts(v)) + (|v| - 1) * 1;
  }

  /** Reading back a non-empty vector's literal gives the vector. */
  lemma RoundTrip(v: seq<int>)
    requires |v| > 0
    ensures FromSql(ToSql(Arr(v)).value) == SqlCodec.Parsed(v)
  {
    SqlCodec.RoundTrip(v);
    FromSqlAgrees(ToSql(Arr(v)).value);
  }
}
