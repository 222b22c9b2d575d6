/**
 * The values the adapters pass around and the SQL fragments the host
 * libraries build from them.
 *
 * Every fragment constructor of the host libraries (`raw`, `em.raw`,
 * `em.execute`, the kysely and drizzle `sql` tag, knex's `client.raw`,
 * `objection.raw`) is modelled as the same plain datatype: the literal text
 * pieces of the query and, between each two neighbouring pieces, one
 * parameter. A knex-style query string `'?? <-> ?'` with bindings `[c, v]`
 * is the fragment with pieces `["", " <-> ", ""]` and parameters
 * `[Ident(c), Bound(v)]`; a tagged template `` sql`f(${a}, ${b})` `` is the
 * fragment with pieces `["f(", ", ", ")"]` and the two values as parameters.
 */
module Fragments {
  import opened JsText

  /** The JavaScript values that reach a fragment builder. */
  datatype Value =
    | Undefined
    | Null
    | Bool(b: bool)
    | Num(n: int)
    | Str(s: string)
    | Arr(items: seq<int>)   // an array of numbers: a vector
    | Column(name: string)   // a column or reference object of the host library
    | Frag(f: Fragment)      // a fragment built earlier

  /** One slot of a fragment: an identifier, a bound value, or a fragment spliced in whole. */
  datatype Param =
    | Ident(name: string)
    | Bound(value: Value)
    | Nested(frag: Fragment)

  /** Literal text pieces with one parameter between each two neighbouring pieces. */
  datatype Fragment = Fragment(segments: seq<string>, params: seq<Param>)

  /** JavaScript truthiness (`NaN` is not a value of this model). */
  predicate Truthy(v: Value)
  {
    match v
    case Undefined => false
    case Null => false
    case Bool(b) => b
    case Num(n) => n != 0
    case Str(s) => s != ""
    case _ => true
  }

  /**
   * How a host library treats a value interpolated into a fragment: a
   * fragment is spliced in, a column object becomes an identifier, and
   * anything else becomes a bound parameter.
   */
  function Bind(v: Value): (p: Param)
    ensures p.Nested? <==> v.Frag?
    ensures p.Ident? <==> v.Column?
    ensures p.Bound? ==> p.value == v
    ensures p.Nested? ==> p.frag == v.f
    ensures p.Ident? ==> p.name == v.name
  {
    match v
    case Frag(f) => Nested(f)
    case Column(c) => Ident(c)
    case _ => Bound(v)
  }

  /**
   * How a knex-style `raw(query, bindings)` call treats the binding of a `?`
   * placeholder: a fragment is spliced in, anything else (a column object
   * too) is bound as a value. The `??` placeholder takes an identifier name
   * instead, which the model writes as `Ident` directly.
   */
  function BindValue(v: Value): (p: Param)
    ensures !p.Ident?
    ensures p.Nested? <==> v.Frag?
    ensures p.Bound? ==> p.value == v
    ensures p.Nested? ==> p.frag == v.f
  {
    if v.Frag? then Nested(v.f) else Bound(v)
  }

  /** The placeholder a parameter stands at: `??` for an identifier, `?` for anything else. */
  function Placeholder(p: Param): (t: string)
    ensures t == "??" <==> p.Ident?
    ensures t == "?" <==> !p.Ident?
  {
    if p.Ident? then "??" else "?"
  }

  /** The pieces interleaved with the holes; surplus holes are dropped, surplus pieces appended. */
  function Weave(segments: seq<string>, holes: seq<string>): (r: string)
    ensures |segments| == |holes| + 1 ==> |r| == TotalLength(segments) + TotalLength(holes)
  {
    if |segments| == 0 then ""
    else if |holes| == 0 then segments[0] + Weave(segments[1..], [])
    else segments[0] + holes[0] + Weave(segments[1..], holes[1..])
  }

  /** The query text with a placeholder at each parameter: what a knex-style `raw` call is written as. */
  function Template(f: Fragment): string
  {
    Weave(f.segments, Placeholders(f.params))
  }

  /** The placeholder of each parameter, in order. */
  function Placeholders(ps: seq<Param>): (r: seq<string>)
    ensures |r| == |ps|
    ensures forall i :: 0 <= i < |ps| ==> r[i] == Placeholder(ps[i])
  {
    seq(|ps|, i requires 0 <= i < |ps| => Placeholder(ps[i]))
  }

  /** The query text with every nested fragment spliced in and placeholders for the rest. */
  function Expanded(f: Fragment): string
    decreases f, 1, 0
  {
    Weave(f.segments, ExpandedParams(f, 0))
  }

  /** The texts of parameters `i` onwards. */
  function ExpandedParams(f: Fragment, i: nat): (r: seq<string>)
    ensures |r| == if i <= |f.params| then |f.params| - i else 0
    decreases f, 0, |f.params| - i
  {
    if i >= |f.params| then [] else [ParamText(f.params[i])] + ExpandedParams(f, i + 1)
  }

  /** The text of one parameter: a nested fragment's own expansion, or its placeholder. */
  function ParamText(p: Param): (t: string)
    ensures !p.Nested? ==> t == Placeholder(p)
    decreases p
  {
    match p
    case Nested(g) => Expanded(g)
    case _ => Placeholder(p)
  }

  /** The identifiers and bound values in query order, nested fragments' own ones in their place. */
  function Bindings(f: Fragment): (r: seq<Param>)
    ensures forall k :: 0 <= k < |r| ==> !r[k].Nested?
    decreases f, 1, 0
  {
    BindingsFrom(f, 0)
  }

  /** The bindings of parameters `i` onwards. */
  function BindingsFrom(f: Fragment, i: nat): (r: seq<Param>)
    ensures forall k :: 0 <= k < |r| ==> !r[k].Nested?
    ensures (forall j :: i <= j < |f.params| ==> !f.params[j].Nested?) ==>
              r == (if i <= |f.params| then f.params[i..] else [])
    decreases f, 0, |f.params| - i
  {
    if i >= |f.params| then [] else ParamBindings(f.params[i]) + BindingsFrom(f, i + 1)
  }

  /** The bindings of one parameter: a nested fragment's own ones, or the parameter itself. */
  function ParamBindings(p: Param): (r: seq<Param>)
    ensures forall k :: 0 <= k < |r| ==> !r[k].Nested?
    ensures !p.Nested? ==> r == [p]
    decreases p
  {
    match p
    case Nested(g) => Bindings(g)
    case _ => [p]
  }

  /** A statement or expression without parameters is its own text. */
  lemma TemplateOfText(a: string)
    ensures Template(Fragment([a], [])) == a
    ensures Expanded(Fragment([a], [])) == a
    ensures Bindings(Fragment([a], [])) == []
  {
  }

  /** `Weave` on two pieces and one hole. */
  lemma WeaveOne(a: string, h: string, b: string)
    ensures Weave([a, b], [h]) == a + h + b
  {
    assert [a, b][1..] == [b] && [h][1..] == [];
    assert Weave([b], []) == b + Weave([], []);
  }

  /** `Weave` on three pieces and two holes. */
  lemma WeaveTwo(a: string, h: string, b: string, k: string, c: string)
    ensures Weave([a, b, c], [h, k]) == a + h + b + k + c
  {
    assert [a, b, c][1..] == [b, c] && [h, k][1..] == [k];
    WeaveOne(b, k, c);
  }

  /** `Weave` on four pieces and three holes. */
  lemma WeaveThree(a: string, h: string, b: string, k: string, c: string, l: string, d: string)
    ensures Weave([a, b, c, d], [h, k, l]) == a + h + b + k + c + l + d
  {
    assert [a, b, c, d][1..] == [b, c, d] && [h, k, l][1..] == [k, l];
    WeaveTwo(b, k, c, l, d);
  }

  /** The texts and bindings of a fragment with one parameter. */
  lemma TemplateOfOne(a: string, p: Param, b: string)
    ensures Template(Fragment([a, b], [p])) == a + Placeholder(p) + b
    ensures Expanded(Fragment([a, b], [p])) == a + ParamText(p) + b
    ensures Bindings(Fragment([a, b], [p])) == ParamBindings(p)
  {
    var f := Fragment([a, b], [p]);
    assert Placeholders(f.params) == [Placeholder(p)];
    WeaveOne(a, Placeholder(p), b);
    assert ExpandedParams(f, 0) == [ParamText(p)];
    WeaveOne(a, ParamText(p), b);
    assert BindingsFrom(f, 0) == ParamBindings(p) + BindingsFrom(f, 1);
  }

  /** The texts and bindings of a fragment with two parameters. */
  lemma TemplateOfTwo(a: string, p: Param, b: string, q: Param, c: string)
    ensures Template(Fragment([a, b, c], [p, q])) == a + Placeholder(p) + b + Placeholder(q) + c
    ensures Expanded(Fragment([a, b, c], [p, q])) == a + ParamText(p) + b + ParamText(q) + c
    ensures Bindings(Fragment([a, b, c], [p, q])) == ParamBindings(p) + ParamBindings(q)
  {
    var f := Fragment([a, b, c], [p, q]);
    assert Placeholders(f.params) == [Placeholder(p), Placeholder(q)];
    WeaveTwo(a, Placeholder(p), b, Placeholder(q), c);
    assert ExpandedParams(f, 1) == [ParamText(q)];
    assert ExpandedParams(f, 0) == [ParamText(p), ParamText(q)];
    WeaveTwo(a, ParamText(p), b, ParamText(q), c);
    assert BindingsFrom(f, 1) == ParamBindings(q) + BindingsFrom(f, 2);
    assert BindingsFrom(f, 0) == ParamBindings(p) + BindingsFrom(f, 1);
  }

  /** The texts and bindings of a fragment that is two parameters around an operator. */
  lemma InfixOfTwo(p: Param, mid: string, q: Param)
    ensures Template(Fragment(["", mid, ""], [p, q])) == Placeholder(p) + mid + Placeholder(q)
    ensures Expanded(Fragment(["", mid, ""], [p, q])) == ParamText(p) + mid + ParamText(q)
    ensures Bindings(Fragment(["", mid, ""], [p, q])) == ParamBindings(p) + ParamBindings(q)
  {
    TemplateOfTwo("", p, mid, q, "");
    EmptyEnds(Placeholder(p), mid, Placeholder(q));
    EmptyEnds(ParamText(p), mid, ParamText(q));
  }

  /** Empty first and last pieces add nothing. */
  lemma EmptyEnds(x: string, mid: string, y: string)
    ensures "" + x + mid + y + "" == x + mid + y
  {
    assert "" + x == x;
    var t := x + mid + y;
    assert t + "" == t;
  }

  /** A placeholder and a comma after a head are the head and `?, `. */
  lemma FirstArgument(head: string)
    ensures head + "?" + ", " == head + "?, "
  {
    assert "?" + ", " == "?, ";
    assert head + "?" + ", " == head + ("?" + ", ");
  }

  /** The texts and bindings of a fragment with three parameters. */
  lemma TemplateOfThree(a: string, p: Param, b: string, q: Param, c: string, r: Param, d: string)
    ensures Template(Fragment([a, b, c, d], [p, q, r]))
            == a + Placeholder(p) + b + Placeholder(q) + c + Placeholder(r) + d
    ensures Expanded(Fragment([a, b, c, d], [p, q, r]))
            == a + ParamText(p) + b + ParamText(q) + c + ParamText(r) + d
    ensures Bindings(Fragment([a, b, c, d], [p, q, r]))
            == ParamBindings(p) + ParamBindings(q) + ParamBindings(r)
  {
    TemplateTextOfThree(a, p, b, q, c, r, d);
    ExpandedOfThree(a, p, b, q, c, r, d);
    BindingsOfThree(a, p, b, q, c, r, d);
  }

  /** The query text of a fragment with three parameters. */
  lemma TemplateTextOfThree(a: string, p: Param, b: string, q: Param, c: string, r: Param, d: string)
    ensures Template(Fragment([a, b, c, d], [p, q, r]))
            == a + Placeholder(p) + b + Placeholder(q) + c + Placeholder(r) + d
  {
    assert Placeholders([p, q, r]) == [Placeholder(p), Placeholder(q), Placeholder(r)];
    WeaveThree(a, Placeholder(p), b, Placeholder(q), c, Placeholder(r), d);
  }

  /** The expanded text of a fragment with three parameters. */
  lemma ExpandedOfThree(a: string, p: Param, b: string, q: Param, c: string, r: Param, d: string)
    ensures Expanded(Fragment([a, b, c, d], [p, q, r]))
            == a + ParamText(p) + b + ParamText(q) + c + ParamText(r) + d
  {
    var f := Fragment([a, b, c, d], [p, q, r]);
    assert ExpandedParams(f, 3) == [];
    assert ExpandedParams(f, 2) == [ParamText(r)];
    assert ExpandedParams(f, 1) == [ParamText(q), ParamText(r)];
    assert ExpandedParams(f, 0) == [ParamText(p), ParamText(q), ParamText(r)];
    WeaveThree(a, ParamText(p), b, ParamText(q), c, ParamText(r), d);
  }

  /** The bindings of a fragment with three parameters. */
  lemma BindingsOfThree(a: string, p: Param, b: string, q: Param, c: string, r: Param, d: string)
    ensures Bindings(Fragment([a, b, c, d], [p, q, r]))
            == ParamBindings(p) + ParamBindings(q) + ParamBindings(r)
  {
    var f := Fragment([a, b, c, d], [p, q, r]);
    assert BindingsFrom(f, 3) == [];
    assert BindingsFrom(f, 2) == ParamBindings(r);
    assert BindingsFrom(f, 1) == ParamBindings(q) + ParamBindings(r);
    assert BindingsFrom(f, 0) == ParamBindings(p) + ParamBindings(q) + ParamBindings(r);
  }

  /**
   * A tagged template `` tag`s0${v0}s1${v1}…` ``: the literal pieces, and each
   * interpolated value bound the way the host library binds it.
   */
  function Tag(strings: seq<string>, values: seq<Value>): (f: Fragment)
    requires |strings| == |values| + 1
    ensures f.segments == strings && |f.params| == |values|
    ensures forall i :: 0 <= i < |values| ==> f.params[i] == Bind(values[i])
  {
    Fragment(strings, seq(|values|, i requires 0 <= i < |values| => Bind(values[i])))
  }

  /** A tagged template with one interpolation. */
  lemma TagOfOne(a: string, v: Value, b: string)
    ensures Tag([a, b], [v]) == Fragment([a, b], [Bind(v)])
  {
    assert Tag([a, b], [v]).params == [Bind(v)];
  }

  /** A tagged template with two interpolations. */
  lemma TagOfTwo(a: string, v: Value, b: string, w: Value, c: string)
    ensures Tag([a, b, c], [v, w]) == Fragment([a, b, c], [Bind(v), Bind(w)])
  {
    assert Tag([a, b, c], [v, w]).params == [Bind(v), Bind(w)];
  }

  /** A tagged template with three interpolations. */
  lemma TagOfThree(a: string, v: Value, b: string, w: Value, c: string, x: Value, d: string)
    ensures Tag([a, b, c, d], [v, w, x]) == Fragment([a, b, c, d], [Bind(v), Bind(w), Bind(x)])
  {
    assert Tag([a, b, c, d], [v, w, x]).params == [Bind(v), Bind(w), Bind(x)];
  }

  /**
   * `` sql`<head>${name}, ${value})` ``: a call whose two arguments, a model
   * name and a value, are both interpolated.
   */
  function TagCall2(head: string, name: string, value: Value): (f: Fragment)
    ensures f == Tag([head, ", ", ")"], [Str(name), value])
    ensures |f.params| == 2 && f.params[0] == Bound(Str(name)) && f.params[1] == Bind(value)
    ensures Template(f) == head + "?, " + Placeholder(Bind(value)) + ")"
    ensures Expanded(f) == head + "?, " + ParamText(Bind(value)) + ")"
    ensures Bindings(f) == [Bound(Str(name))] + ParamBindings(Bind(value))
  {
    TagOfTwo(head, Str(name), ", ", value, ")");
    TemplateOfTwo(head, Bound(Str(name)), ", ", Bind(value), ")");
    FirstArgument(head);
    Fragment([head, ", ", ")"], [Bound(Str(name)), Bind(value)])
  }

  /** `` sql`<head>${name}, ${value}, ${extra})` ``: a call whose three arguments are all interpolated. */
  function TagCall3(head: string, name: string, value: Value, extra: Value): (f: Fragment)
    ensures f == Tag([head, ", ", ", ", ")"], [Str(name), value, extra])
    ensures |f.params| == 3 && f.params[0] == Bound(Str(name)) && f.params[1] == Bind(value) && f.params[2] == Bind(extra)
    ensures Expanded(f) == head + "?, " + ParamText(Bind(value)) + ", " + ParamText(Bind(extra)) + ")"
    ensures Bindings(f) == [Bound(Str(name))] + ParamBindings(Bind(value)) + ParamBindings(Bind(extra))
  {
    TagOfThree(head, Str(name), ", ", value, ", ", extra, ")");
    ExpandedOfThree(head, Bound(Str(name)), ", ", Bind(value), ", ", Bind(extra), ")");
    BindingsOfThree(head, Bound(Str(name)), ", ", Bind(value), ", ", Bind(extra), ")");
    FirstArgument(head);
    Fragment([head, ", ", ", ", ")"], [Bound(Str(name)), Bind(value), Bind(extra)])
  }

  /** `` sql`${left} <op> ${right}` ``: two interpolated operands around an operator. */
  function TagInfix(left: Value, op: string, right: Value): (f: Fragment)
    ensures f == Tag(["", " " + op + " ", ""], [left, right])
    ensures f.segments == ["", " " + op + " ", ""]
    ensures |f.params| == 2 && f.params[0] == Bind(left) && f.params[1] == Bind(right)
    ensures Template(f) == Placeholder(Bind(left)) + (" " + op + " ") + Placeholder(Bind(right))
    ensures Expanded(f) == ParamText(Bind(left)) + (" " + op + " ") + ParamText(Bind(right))
    ensures Bindings(f) == ParamBindings(Bind(left)) + ParamBindings(Bind(right))
  {
    var rest := " " + op + " ";
    TagOfTwo("", left, rest, right, "");
    InfixOfTwo(Bind(left), rest, Bind(right));
    Fragment(["", rest, ""], [Bind(left), Bind(right)])
  }

  /**
   * `raw('?? <op> ?', [column, value])`: the column name as identifier, the
   * value bound to the `?`, or spliced in when it is a fragment.
   */
  function RawInfix(op: string, column: string, value: Value): (f: Fragment)
    ensures f.segments == ["", " " + op + " ", ""]
    ensures |f.params| == 2 && f.params[0] == Ident(column) && f.params[1] == BindValue(value)
    ensures Template(f) == "?? " + op + " ?"
    ensures Expanded(f) == "?? " + op + " " + ParamText(BindValue(value))
    ensures Bindings(f) == [Ident(column)] + ParamBindings(BindValue(value))
  {
    var rest := " " + op + " ";
    InfixOfTwo(Ident(column), rest, BindValue(value));
    IdentifierFirst(op, "?");
    IdentifierFirst(op, ParamText(BindValue(value)));
    Fragment(["", rest, ""], [Ident(column), BindValue(value)])
  }

  /** `??`, then the operator between spaces, then `x`. */
  lemma IdentifierFirst(op: string, x: string)
    ensures "??" + (" " + op + " ") + x == "?? " + op + " " + x
  {
    assert "??" + (" " + op + " ") == "?? " + op + " " by {
      assert "??" + " " == "?? ";
      assert "??" + (" " + op) == "??" + " " + op;
      assert "??" + (" " + op + " ") == "??" + (" " + op) + " ";
    }
  }

  /** `x`, then the operator between spaces, then `y`. */
  lemma Spaced(x: string, op: string, y: string)
    ensures x + (" " + op + " ") + y == x + " " + op + " " + y
  {
    assert x + (" " + op + " ") == x + " " + op + " " by {
      assert x + (" " + op) == x + " " + op;
      assert x + (" " + op + " ") == x + (" " + op) + " ";
    }
  }

  /** The three distance metrics of the extension. */
  datatype Metric = L2 | Cosine | Hamming

  /** The operator token of each metric, as the extension defines it. */
  function Token(m: Metric): (t: string)
    ensures m == L2 ==> t == "<->"
    ensures m == Cosine ==> t == "<=>"
    ensures m == Hamming ==> t == "<+>"
    ensures |t| == 3 && t[0] == '<' && t[2] == '>'
  {
    match m
    case L2 => "<->"
    case Cosine => "<=>"
    case Hamming => "<+>"
  }

  /** Different metrics have different tokens. */
  lemma TokenInjective(m: Metric, n: Metric)
    ensures Token(m) == Token(n) <==> m == n
  {
    if m != n {
      assert Token(m)[1] != Token(n)[1];
    }
  }
}
