/**
 * The JavaScript string and number built-ins the codec is made of:
 * `String.prototype.substring`, `String.prototype.split` with a one-character
 * separator, `Array.prototype.join`, `String(n)` for an integral number and
 * `parseFloat`, restricted to integers (see README, "Left out").
 */
module JsText {
  import opened Wrappers

  /** How often `c` occurs in `s`. */
  function Count(s: string, c: char): (n: nat)
    ensures n <= |s|
    ensures n == 0 <==> c !in s
  {
    if |s| == 0 then 0 else (if s[0] == c then 1 else 0) + Count(s[1..], c)
  }

  /** Occurrences in a concatenation are the occurrences in the two parts. */
  lemma {:induction false} CountConcat(a: string, b: string, c: char)
    ensures Count(a + b, c) == Count(a, c) + Count(b, c)
  {
    if |a| > 0 {
      assert (a + b)[1..] == a[1..] + b;
      CountConcat(a[1..], b, c);
    } else {
      assert a + b == b;
    }
  }

  /** An index argument of `substring`, clamped to `[0, n]`. */
  function Clamp(i: int, n: nat): (r: nat)
    ensures r <= n
    ensures 0 <= i <= n ==> r == i
  {
    if i < 0 then 0 else if i > n then n else i
  }

  /**
   * `s.substring(start, end)`: both indices are clamped to `[0, |s|]` and,
   * when the first exceeds the second, the two are swapped.
   */
  function Substring(s: string, start: int, end: int): (r: string)
    ensures 0 <= start <= end <= |s| ==> r == s[start..end]
    ensures 0 <= end <= start <= |s| ==> r == s[end..start]
    ensures |r| <= |s|
  {
    var a, b := Clamp(start, |s|), Clamp(end, |s|);
    if a <= b then s[a..b] else s[b..a]
  }

  /**
   * `s.split(sep)` for a one-character separator: the pieces between the
   * separators, in order. There is always one piece more than separators,
   * so the empty string splits into one empty piece.
   */
  function Split(s: string, sep: char): (parts: seq<string>)
    ensures |parts| == Count(s, sep) + 1
    ensures forall i :: 0 <= i < |parts| ==> sep !in parts[i]
  {
    if |s| == 0 then [""]
    else
      var rest := Split(s[1..], sep);
      if s[0] == sep then [""] + rest else [[s[0]] + rest[0]] + rest[1..]
  }

  /** The summed length of some strings. */
  function TotalLength(parts: seq<string>): nat
  {
    if |parts| == 0 then 0 else |parts[0]| + TotalLength(parts[1..])
  }

  /** `parts.join(sep)`: nothing for no parts, otherwise the parts with `sep` between neighbours. */
  function Join(parts: seq<string>, sep: string): string
  {
    if |parts| == 0 then ""
    else if |parts| == 1 then parts[0]
    else parts[0] + sep + Join(parts[1..], sep)
  }

  /** The joined text is as long as the parts and a separator between each two neighbours. */
  lemma {:induction false} JoinLength(parts: seq<string>, sep: string)
    requires |parts| > 0
    ensures |Join(parts, sep)| == TotalLength(parts) + (|parts| - 1) * |sep|
  {
    if |parts| > 1 {
      JoinLength(parts[1..], sep);
      assert (|parts| - 2) * |sep| + |sep| == (|parts| - 1) * |sep|;
    }
  }

  /** Splitting on `c` and joining the pieces with `c` gives the string back. */
  lemma {:induction false} JoinSplit(s: string, c: char)
    ensures Join(Split(s, c), [c]) == s
  {
    if |s| > 0 {
      var rest := Split(s[1..], c);
      JoinSplit(s[1..], c);
      if s[0] == c {
        assert ([""] + rest)[1..] == rest;
      } else {
        var parts := [[s[0]] + rest[0]] + rest[1..];
        assert parts[1..] == rest[1..];
        if |rest| > 1 {
          assert Join(rest, [c]) == rest[0] + [c] + Join(rest[1..], [c]);
        }
      }
    }
  }

  /** A piece without the separator, followed by the separator, splits off as the first piece. */
  lemma {:induction false} SplitAfterPiece(p: string, c: char, rest: string)
    requires c !in p
    ensures Split(p + [c] + rest, c) == [p] + Split(rest, c)
    decreases |p|
  {
    var s := p + [c] + rest;
    if |p| == 0 {
      assert s[0] == c && s[1..] == rest;
    } else {
      assert s[0] == p[0] && s[1..] == p[1..] + [c] + rest;
      SplitAfterPiece(p[1..], c, rest);
      assert [p[0]] + p[1..] == p;
    }
  }

  /** A string without the separator splits into itself alone. */
  lemma {:induction false} SplitWithoutSeparator(p: string, c: char)
    requires c !in p
    ensures Split(p, c) == [p]
    decreases |p|
  {
    if |p| > 0 {
      SplitWithoutSeparator(p[1..], c);
      assert [p[0]] + p[1..] == p;
    }
  }

  /** Joining at least one separator-free piece with `c` and splitting on `c` gives the pieces back. */
  lemma {:induction false} SplitJoin(parts: seq<string>, c: char)
    requires |parts| > 0
    requires forall i :: 0 <= i < |parts| ==> c !in parts[i]
    ensures Split(Join(parts, [c]), c) == parts
  {
    if |parts| == 1 {
      SplitWithoutSeparator(parts[0], c);
    } else {
      SplitJoin(parts[1..], c);
      SplitAfterPiece(parts[0], c, Join(parts[1..], [c]));
      assert [parts[0]] + parts[1..] == parts;
    }
  }

  /** A decimal digit character. */
  predicate IsDigit(ch: char)
  {
    '0' <= ch <= '9'
  }

  /** The character of the decimal digit `d`. */
  function DigitChar(d: nat): (ch: char)
    requires d < 10
    ensures IsDigit(ch)
  {
    ('0' as int + d) as char
  }

  /** The value of a decimal digit character. */
  function DigitValue(ch: char): (d: nat)
    requires IsDigit(ch)
    ensures d < 10
    ensures DigitChar(d) == ch
  {
    ch as int - '0' as int
  }

  /** The decimal digits of `n`, most significant first, without leading zeros. */
  function DecimalDigits(n: nat): (r: string)
    ensures |r| > 0
    ensures forall i :: 0 <= i < |r| ==> IsDigit(r[i])
    ensures |r| > 1 ==> r[0] != '0'
  {
    if n < 10 then [DigitChar(n)] else DecimalDigits(n / 10) + [DigitChar(n % 10)]
  }

  /** `String(n)` for an integral number: a minus sign for negatives, then the decimal digits. */
  function NumberToString(n: int): (r: string)
    ensures |r| > 0
    ensures ',' !in r
    ensures n < 0 <==> r[0] == '-'
  {
    if n < 0 then "-" + DecimalDigits(-n) else DecimalDigits(n)
  }

  /** `Array.prototype.join(sep)` over numbers: each element converted with `String`, in order. */
  function JoinNumbers(v: seq<int>, sep: string): (r: string)
  {
    Join(NumberTexts(v), sep)
  }

  /** The texts of the elements of `v`, in order. */
  function NumberTexts(v: seq<int>): (r: seq<string>)
    ensures |r| == |v|
    ensures forall i :: 0 <= i < |v| ==> r[i] == NumberToString(v[i])
  {
    seq(|v|, i requires 0 <= i < |v| => NumberToString(v[i]))
  }

  /**
   * The white-space characters `parseFloat` skips in front of a number:
   * JavaScript's white space (tab, vertical tab, form feed, the byte order
   * mark and every space separator) and its line terminators.
   */
  predicate IsSpace(ch: char)
  {
    ch == ' ' || ch == '\t' || ch == '\n' || ch == '\r' || ch == '\U{000B}' || ch == '\U{000C}'
    || ch == '\U{00A0}' || ch == '\U{1680}' || ('\U{2000}' <= ch <= '\U{200A}')
    || ch == '\U{202F}' || ch == '\U{205F}' || ch == '\U{3000}'
    || ch == '\U{FEFF}' || ch == '\U{2028}' || ch == '\U{2029}'
  }

  /** `s` without its leading white space. */
  function TrimStart(s: string): (r: string)
    ensures |r| <= |s| && r == s[|s| - |r|..]
    ensures |r| > 0 ==> !IsSpace(r[0])
    ensures |s| > 0 && !IsSpace(s[0]) ==> r == s
  {
    if |s| > 0 && IsSpace(s[0]) then TrimStart(s[1..]) else s
  }

  /** The length of the run of digits that `s` starts with. */
  function DigitRun(s: string): (n: nat)
    ensures n <= |s|
    ensures forall i :: 0 <= i < n ==> IsDigit(s[i])
    ensures n < |s| ==> !IsDigit(s[n])
  {
    if |s| > 0 && IsDigit(s[0]) then 1 + DigitRun(s[1..]) else 0
  }

  /** The number a string of decimal digits denotes. */
  function DigitsValue(ds: string): nat
    requires forall i :: 0 <= i < |ds| ==> IsDigit(ds[i])
  {
    if |ds| == 0 then 0 else DigitsValue(ds[..|ds| - 1]) * 10 + DigitValue(ds[|ds| - 1])
  }

  /** The value of the leading digits of `s`, or `None` when it does not start with a digit. */
  function ParseDigits(s: string): (r: Option<nat>)
    ensures r.None? <==> (|s| == 0 || !IsDigit(s[0]))
  {
    var k := DigitRun(s);
    if k == 0 then None else Some(DigitsValue(s[..k]))
  }

  /**
   * A number after the white space: an optional sign, then the longest run
   * of digits; whatever follows is ignored. No digit at all gives `None`.
   */
  function ParseNumber(t: string): (r: Option<int>)
    ensures r.Some? ==> |t| > 0 && (IsDigit(t[0]) || (|t| > 1 && IsDigit(t[1])))
    ensures |t| > 0 && IsDigit(t[0]) ==> r == ParseDigits(t)
  {
    if |t| > 0 && (t[0] == '-' || t[0] == '+') then
      match ParseDigits(t[1..])
      case None => None
      case Some(n) => Some(if t[0] == '-' then -(n as int) else n)
    else
      match ParseDigits(t)
      case None => None
      case Some(n) => Some(n)
  }

  /**
   * `parseFloat(s)` on integers: leading white space is skipped, then the
   * number is read. No digit at all gives `None`, which stands for `NaN`.
   */
  function ParseFloat(s: string): (r: Option<int>)
    ensures |s| == 0 ==> r.None?
    ensures r.Some? ==> exists i :: 0 <= i < |s| && IsDigit(s[i])
  {
    var t := TrimStart(s);
    var r := ParseNumber(t);
    assert r.Some? ==> IsDigit(s[|s| - |t|]) || IsDigit(s[|s| - |t| + 1]);
    r
  }

  /** The digits of `n` denote `n`. */
  lemma {:induction false} DigitsValueOfDecimalDigits(n: nat)
    ensures DigitsValue(DecimalDigits(n)) == n
    decreases n
  {
    if n >= 10 {
      var ds := DecimalDigits(n);
      assert ds[..|ds| - 1] == DecimalDigits(n / 10);
      DigitsValueOfDecimalDigits(n / 10);
    }
  }

  /** The leading digits of the decimal text of `n` are all of it, and they denote `n`. */
  lemma ParseDigitsOfDecimalDigits(n: nat)
    ensures ParseDigits(DecimalDigits(n)) == Some(n)
  {
    var ds := DecimalDigits(n);
    DigitsValueOfDecimalDigits(n);
    assert DigitRun(ds) == |ds|;
    assert ds[..|ds|] == ds;
  }

  /** `parseFloat` reads back every integer `String` writes. */
  lemma ParseFloatNumberToString(n: int)
    ensures ParseFloat(NumberToString(n)) == Some(n)
  {
    if n < 0 {
      ParseFloatNegative(n);
    } else {
      ParseFloatNonNegative(n);
    }
  }

  /** A minus sign and the digits of `-n` read back as `n`. */
  lemma ParseFloatNegative(n: int)
    requires n < 0
    ensures ParseFloat(NumberToString(n)) == Some(n)
  {
    var ds := DecimalDigits(-n);
    var s := "-" + ds;
    assert NumberToString(n) == s;
    ParseDigitsOfDecimalDigits(-n);
    assert s[0] == '-' && !IsSpace(s[0]);
    assert TrimStart(s) == s;
    assert s[1..] == ds;
    assert ParseDigits(s[1..]) == Some(-n);
  }

  /** The digits of `n` read back as `n`. */
  lemma ParseFloatNonNegative(n: int)
    requires n >= 0
    ensures ParseFloat(NumberToString(n)) == Some(n)
  {
    var ds := DecimalDigits(n);
    assert NumberToString(n) == ds;
    ParseDigitsOfDecimalDigits(n);
    assert IsDigit(ds[0]) && !IsSpace(ds[0]);
    assert TrimStart(ds) == ds;
    assert ds[0] != '-' && ds[0] != '+';
  }

  /** Leading white space does not change what `parseFloat` reads, e.g. an ideographic space before `5`. */
  lemma ParseFloatSkipsSpace(ch: char, s: string)
    requires IsSpace(ch)
    ensures ParseFloat([ch] + s) == ParseFloat(s)
  {
    TrimStartSkipsSpace(ch, s);
  }

  /** One leading white-space character is trimmed away. */
  lemma TrimStartSkipsSpace(ch: char, s: string)
    requires IsSpace(ch)
    ensures TrimStart([ch] + s) == TrimStart(s)
  {
    assert ([ch] + s)[1..] == s;
  }

  /** Empty text is not a number. */
  lemma ParseFloatEmpty()
    ensures ParseFloat("") == None
  {
  }
}
