/**
 * The vector literal codec of src/_common/utils/sql.js, which every adapter
 * except the sequelize one uses: `toSql` writes an array as the Postgres
 * array literal `{a,b,c}` and passes anything else through, and `fromSql`
 * reads such a literal back.
 */
module SqlCodec {
  import opened Wrappers
  import opened JsText
  import opened Fragments

  /** The array branch of `toSql`: a brace, the elements joined by commas, a brace. */
  function Encode(v: seq<int>): (r: string)
    ensures |r| >= 2 && r[0] == '{' && r[|r| - 1] == '}'
    ensures r[1..|r| - 1] == JoinNumbers(v, ",")
    ensures r == "{}" <==> |v| == 0
  {
    var inner := JoinNumbers(v, ",");
    assert |v| > 0 ==> |inner| > 0 by {
      if |v| > 0 {
        assert |NumberTexts(v)[0]| > 0;
      }
    }
    "{" + inner + "}"
  }

  /**
   * `toSql(value)`: an array becomes its literal text; any other value
   * (a string, a fragment, a column object) is returned unchanged.
   */
  function ToSql(value: Value): (r: Value)
    ensures !value.Arr? ==> r == value
    ensures value.Arr? ==>
              && r.Str? && |r.s| >= 2 && r.s[0] == '{' && r.s[|r.s| - 1] == '}'
              && r.s[1..|r.s| - 1] == JoinNumbers(value.items, ",")
  {
    if value.Arr? then Str(Encode(value.items)) else value
  }

  /**
   * `fromSql(text)`: the first and last characters are dropped (whatever
   * they are), the rest is split on commas and each piece is parsed with
   * `parseFloat`; `None` stands for `NaN`.
   */
  function FromSql(text: string): (r: seq<Option<int>>)
    ensures |r| == Count(Substring(text, 1, |text| - 1), ',') + 1
    ensures |text| >= 2 ==> |r| == Count(text[1..|text| - 1], ',') + 1
  {
    var parts := Split(Substring(text, 1, |text| - 1), ',');
    seq(|parts|, i requires 0 <= i < |parts| => ParseFloat(parts[i]))
  }

  /** Each element of `v` as a parsed number. */
  function Parsed(v: seq<int>): (r: seq<Option<int>>)
    ensures |r| == |v| && forall i :: 0 <= i < |v| ==> r[i] == Some(v[i])
  {
    seq(|v|, i requires 0 <= i < |v| => Some(v[i]))
  }

  /** The inner text of a literal splits back into the element texts. */
  lemma SplitJoinNumbers(v: seq<int>)
    requires |v| > 0
    ensures Split(JoinNumbers(v, ","), ',') == NumberTexts(v)
  {
    SplitJoin(NumberTexts(v), ',');
  }

  /** Reading back a non-empty vector's literal gives the vector. */
  lemma RoundTrip(v: seq<int>)
    requires |v| > 0
    ensures FromSql(Encode(v)) == Parsed(v)
  {
    var text := Encode(v);
    assert Substring(text, 1, |text| - 1) == JoinNumbers(v, ",");
    SplitJoinNumbers(v);
    var r := FromSql(text);
    forall i | 0 <= i < |v|
      ensures r[i] == Some(v[i])
    {
      ParseFloatNumberToString(v[i]);
    }
  }

  /** The same round trip, stated on `toSql` itself. */
  lemma ToSqlRoundTrip(v: seq<int>)
    requires |v| > 0
    ensures ToSql(Arr(v)).Str? && FromSql(ToSql(Arr(v)).s) == Parsed(v)
  {
    RoundTrip(v);
  }

  /** The empty vector is written `{}`, which reads back as one `NaN`: the round trip fails for it. */
  lemma EmptyVector()
    ensures ToSql(Arr([])) == Str("{}")
    ensures FromSql("{}") == [None]
    ensures FromSql(Encode([])) != Parsed([])
  {
    assert Substring("{}", 1, 1) == "";
    assert Split("", ',') == [""];
  }

  /**
   * `fromSql` never looks at the outer characters: any two give the same
   * result as braces do. Characters are counted as whole characters here,
   * not as UTF-16 code units.
   */
  lemma FromSqlIgnoresOuterCharacters(first: char, inner: string, last: char)
    ensures FromSql([first] + inner + [last]) == FromSql("{" + inner + "}")
  {
    var s, t := [first] + inner + [last], "{" + inner + "}";
    assert Substring(s, 1, |s| - 1) == inner == s[1..|s| - 1];
    assert Substring(t, 1, |t| - 1) == inner == t[1..|t| - 1];
  }

  /**
   * A text of at most one character is not trimmed at all, because
   * `substring(1, 0)` swaps its bounds: `fromSql("5")` reads the `5`.
   */
  lemma FromSqlShortText(text: string)
    requires |text| <= 1 && text != ","
    ensures FromSql(text) == [ParseFloat(text)]
  {
    assert Substring(text, 1, |text| - 1) == text;
    if |text| == 1 {
      assert text[1..] == "";
      assert Split(text[1..], ',') == [""];
      assert [text[0]] + "" == text;
      assert Split(text, ',') == [text];
    } else {
      assert Split(text, ',') == [""];
    }
  }
}
