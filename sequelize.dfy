/**
 * The sequelize adapter, src/sequelize/sequelize.js.
 *
 * `supportIndexes(sequelize)` saves the dialect query generator's
 * `addIndexQuery` in a weak map keyed by the sequelize instance and installs
 * a wrapper in its place. The wrapper calls the saved function and, when the
 * index attributes carry a truthy `with`, appends
 * ` WITH (M=…, ef=…, dim=…, ef_construction=…)`, listing only the settings
 * that are not `undefined`, in that order.
 *
 * `l2`, `cosine` and `hamming` build a sequelize literal from the quoted
 * column, the operator and the escaped vector literal of the older codec.
 */
module Sequelize {
  import opened Wrappers
  import opened JsText
  import Fragments
  import Utils
  import SqlCodec

  /** A value given for an index setting (`undefined` is the absence of one). */
  datatype Setting = Null | Bool(b: bool) | Num(n: int) | Str(s: string)

  /** `${x}` in a template literal. */
  function SettingText(x: Setting): (t: string)
    ensures x.Str? ==> t == x.s
    ensures x.Num? ==> t == NumberToString(x.n)
  {
    match x
    case Null => "null"
    case Bool(b) => if b then "true" else "false"
    case Num(n) => NumberToString(n)
    case Str(s) => s
  }

  /** The four settings the wrapper reads from `attributes.with`; `None` is `undefined`. */
  datatype WithOptions = WithOptions(
    M: Option<Setting>,
    ef: Option<Setting>,
    dim: Option<Setting>,
    efConstruction: Option<Setting>)

  /**
   * The index attributes as far as the wrapper reads them: `None` for a
   * falsy `with`, the settings of a truthy one otherwise.
   */
  datatype IndexAttributes = IndexAttributes(withOptions: Option<WithOptions>)

  /** The setting names, in the order the wrapper writes them. */
  const Names: seq<string> := ["M", "ef", "dim", "ef_construction"]

  /** The settings in the order of `Names`. */
  function Fields(w: WithOptions): (fs: seq<Option<Setting>>)
    ensures |fs| == |Names| == 4
  {
    [w.M, w.ef, w.dim, w.efConstruction]
  }

  /** One element of `params`: `` `${name}=${value}` ``. */
  function Entry(name: string, x: Setting): string
  {
    name + "=" + SettingText(x)
  }

  /** `if (x !== undefined) params.push(`${name}=${x}`)` */
  function PushIfDefined(params: seq<string>, name: string, x: Option<Setting>): seq<string>
  {
    if x.Some? then params + [Entry(name, x.value)] else params
  }

  /** The four `params.push` steps of the wrapper, in order. */
  function WithParams(w: WithOptions): seq<string>
  {
    var withM := PushIfDefined([], "M", w.M);
    var withEf := PushIfDefined(withM, "ef", w.ef);
    var withDim := PushIfDefined(withEf, "dim", w.dim);
    PushIfDefined(withDim, "ef_construction", w.efConstruction)
  }

  /** `` ` WITH (${params.join(', ')})` `` */
  function WithClause(w: WithOptions): string
  {
    " WITH (" + Join(WithParams(w), ", ") + ")"
  }

  /** What the wrapper appends to the saved function's query. */
  function Suffix(attributes: IndexAttributes): string
  {
    if attributes.withOptions.Some? then WithClause(attributes.withOptions.value) else ""
  }

  /**
   * The entries for the defined settings among the first `n` positions, in
   * position order: the pushes of the wrapper, for any list of settings.
   */
  function Pushed(fs: seq<Option<Setting>>, names: seq<string>, n: nat): (ps: seq<string>)
    requires |fs| == |names| && n <= |fs|
  {
    if n == 0 then []
    else Pushed(fs, names, n - 1) + (if fs[n - 1].Some? then [Entry(names[n - 1], fs[n - 1].value)] else [])
  }

  /** The wrapper's four pushes are the entries of the defined settings among M, ef, dim, ef_construction. */
  lemma WithParamsPushed(w: WithOptions)
    ensures WithParams(w) == Pushed(Fields(w), Names, 4)
  {
    var fs := Fields(w);
    var withM := PushIfDefined([], "M", w.M);
    var withEf := PushIfDefined(withM, "ef", w.ef);
    var withDim := PushIfDefined(withEf, "dim", w.dim);
    assert Pushed(fs, Names, 1) == withM by {
      assert Pushed(fs, Names, 0) == [];
    }
    assert Pushed(fs, Names, 2) == withEf;
    assert Pushed(fs, Names, 3) == withDim;
  }

  /** The positions below `n` whose settings are defined, in increasing order. */
  function Selected(fs: seq<Option<Setting>>, n: nat): (sel: seq<nat>)
    requires n <= |fs|
    ensures forall j :: 0 <= j < |sel| ==> sel[j] < n && fs[sel[j]].Some?
  {
    if n == 0 then [] else Selected(fs, n - 1) + (if fs[n - 1].Some? then [n - 1] else [])
  }

  /** Every defined position below `n` is selected. */
  lemma {:induction false} DefinedIsSelected(fs: seq<Option<Setting>>, n: nat, i: nat)
    requires i < n <= |fs| && fs[i].Some?
    ensures i in Selected(fs, n)
  {
    if i < n - 1 {
      DefinedIsSelected(fs, n - 1, i);
    }
  }

  /** The selected positions strictly increase. */
  lemma {:induction false} SelectedIncreasing(fs: seq<Option<Setting>>, n: nat)
    requires n <= |fs|
    ensures forall a, b :: 0 <= a < b < |Selected(fs, n)| ==> Selected(fs, n)[a] < Selected(fs, n)[b]
  {
    if n > 0 {
      SelectedIncreasing(fs, n - 1);
    }
  }

  /** The `j`th pushed entry is the entry of the `j`th selected position. */
  lemma {:induction false} PushedSelected(fs: seq<Option<Setting>>, names: seq<string>, n: nat)
    requires |fs| == |names| && n <= |fs|
    ensures |Pushed(fs, names, n)| == |Selected(fs, n)|
    ensures forall j :: 0 <= j < |Selected(fs, n)| ==>
              Pushed(fs, names, n)[j] == Entry(names[Selected(fs, n)[j]], fs[Selected(fs, n)[j]].value)
  {
    if n > 0 {
      PushedSelected(fs, names, n - 1);
      var before, sel := Pushed(fs, names, n - 1), Selected(fs, n - 1);
      if fs[n - 1].Some? {
        assert Pushed(fs, names, n) == before + [Entry(names[n - 1], fs[n - 1].value)];
        assert Selected(fs, n) == sel + [n - 1];
      } else {
        assert Pushed(fs, names, n) == before;
        assert Selected(fs, n) == sel;
      }
    }
  }

  /** The text of a `name=value` entry up to its first `=`. */
  function Key(e: string): (k: string)
    ensures |k| <= |e| && k == e[..|k|]
  {
    if |e| == 0 || e[0] == '=' then "" else [e[0]] + Key(e[1..])
  }

  /** The key of an entry is its setting name, since no name has an `=`. */
  lemma {:induction false} KeyOfEntry(name: string, x: Setting)
    requires '=' !in name
    ensures Key(Entry(name, x)) == name
  {
    if |name| > 0 {
      assert Entry(name, x)[1..] == Entry(name[1..], x);
      KeyOfEntry(name[1..], x);
    }
  }

  /** No setting name has an `=`, and the four names differ. */
  lemma NamesDistinct()
    ensures forall i :: 0 <= i < 4 ==> '=' !in Names[i]
    ensures forall i, j :: 0 <= i < j < 4 ==> Names[i] != Names[j]
  {
    assert |Names[0]| == 1 && |Names[1]| == 2 && |Names[2]| == 3 && |Names[3]| == 15;
  }

  /** The keys of `params`, in order. */
  function Keys(w: WithOptions): (ks: seq<string>)
    ensures |ks| == |WithParams(w)|
  {
    var ps := WithParams(w);
    seq(|ps|, j requires 0 <= j < |ps| => Key(ps[j]))
  }

  /** The `j`th key of `params` is the name of the `j`th defined setting. */
  lemma KeysSelected(w: WithOptions)
    ensures |Keys(w)| == |Selected(Fields(w), 4)|
    ensures forall j :: 0 <= j < |Keys(w)| ==> Keys(w)[j] == Names[Selected(Fields(w), 4)[j]]
  {
    var fs := Fields(w);
    var sel := Selected(fs, 4);
    WithParamsPushed(w);
    PushedSelected(fs, Names, 4);
    NamesDistinct();
    forall j | 0 <= j < |sel|
      ensures Keys(w)[j] == Names[sel[j]]
    {
      KeyOfEntry(Names[sel[j]], fs[sel[j]].value);
    }
  }

  /** A defined setting is written as `name=value`. */
  lemma DefinedSettingWritten(w: WithOptions, i: nat)
    requires i < 4 && Fields(w)[i].Some?
    ensures Entry(Names[i], Fields(w)[i].value) in WithParams(w)
  {
    var fs := Fields(w);
    WithParamsPushed(w);
    PushedSelected(fs, Names, 4);
    DefinedIsSelected(fs, 4, i);
    var j :| 0 <= j < |Selected(fs, 4)| && Selected(fs, 4)[j] == i;
    assert WithParams(w)[j] == Entry(Names[i], fs[i].value);
  }

  /** A setting's name is a key of `params` exactly when the setting is defined. */
  lemma KeyPresentIffDefined(w: WithOptions, i: nat)
    requires i < 4
    ensures Names[i] in Keys(w) <==> Fields(w)[i].Some?
  {
    var fs := Fields(w);
    var sel := Selected(fs, 4);
    KeysSelected(w);
    NamesDistinct();
    if fs[i].Some? {
      DefinedIsSelected(fs, 4, i);
      var j :| 0 <= j < |sel| && sel[j] == i;
      assert Keys(w)[j] == Names[i];
    }
  }

  /** The keys of `params` follow the order M, ef, dim, ef_construction. */
  lemma KeysInOrder(w: WithOptions, a: nat, b: nat)
    requires a < b < |Keys(w)|
    ensures exists i, j :: 0 <= i < j < 4 && Keys(w)[a] == Names[i] && Keys(w)[b] == Names[j]
  {
    var sel := Selected(Fields(w), 4);
    KeysSelected(w);
    SelectedIncreasing(Fields(w), 4);
    assert Keys(w)[a] == Names[sel[a]] && Keys(w)[b] == Names[sel[b]];
  }

  /** There is one entry per defined setting. */
  lemma ParamsCount(w: WithOptions)
    ensures |WithParams(w)| == |set i | 0 <= i < 4 && Fields(w)[i].Some?|
  {
    var fs := Fields(w);
    var sel := Selected(fs, 4);
    KeysSelected(w);
    SelectedIncreasing(fs, 4);
    var defined := set i | 0 <= i < 4 && fs[i].Some?;
    forall i | i in defined
      ensures i in sel
    {
      DefinedIsSelected(fs, 4, i);
    }
    assert defined == set j | 0 <= j < |sel| :: sel[j];
    DistinctCount(sel);
  }

  /** A strictly increasing sequence has as many elements as values. */
  lemma {:induction false} DistinctCount(s: seq<nat>)
    requires forall a, b :: 0 <= a < b < |s| ==> s[a] < s[b]
    ensures |set j | 0 <= j < |s| :: s[j]| == |s|
  {
    if |s| > 0 {
      var rest := s[..|s| - 1];
      DistinctCount(rest);
      var last := s[|s| - 1];
      assert (set j | 0 <= j < |s| :: s[j]) == (set j | 0 <= j < |rest| :: rest[j]) + {last};
      assert last !in (set j | 0 <= j < |rest| :: rest[j]);
    }
  }

  /** A truthy `with` without any setting still appends an empty list. */
  lemma EmptyWithClause()
    ensures WithClause(WithOptions(None, None, None, None)) == " WITH ()"
  {
    assert WithParams(WithOptions(None, None, None, None)) == [];
  }

  /** `{ M: 16, ef_construction: 64 }` gives ` WITH (M=16, ef_construction=64)`. */
  lemma TwoSettingsClause()
    ensures WithClause(WithOptions(Some(Num(16)), None, None, Some(Num(64)))) == " WITH (M=16, ef_construction=64)"
  {
    TwoSettingsParams();
    TwoSettingsJoined();
    assert " WITH (" + "M=16, ef_construction=64" + ")" == " WITH (M=16, ef_construction=64)";
  }

  /** The pushes for `{ M: 16, ef_construction: 64 }`. */
  lemma TwoSettingsParams()
    ensures WithParams(WithOptions(Some(Num(16)), None, None, Some(Num(64)))) == ["M=16", "ef_construction=64"]
  {
    var w := WithOptions(Some(Num(16)), None, None, Some(Num(64)));
    TwoSettingsEntries();
    assert PushIfDefined([], "M", w.M) == ["M=16"];
  }

  /** Two entries joined with `, `. */
  lemma TwoSettingsJoined()
    ensures Join(["M=16", "ef_construction=64"], ", ") == "M=16, ef_construction=64"
  {
    var m, e := "M=16", "ef_construction=64";
    assert [m, e][1..] == [e];
    assert Join([e], ", ") == e;
    assert m + ", " + e == "M=16, ef_construction=64";
  }

  /** The two entries of `{ M: 16, ef_construction: 64 }`. */
  lemma TwoSettingsEntries()
    ensures Entry("M", Num(16)) == "M=16"
    ensures Entry("ef_construction", Num(64)) == "ef_construction=64"
  {
    assert SettingText(Num(16)) == "16" by {
      assert DecimalDigits(16) == DecimalDigits(1) + [DigitChar(6)];
    }
    assert SettingText(Num(64)) == "64" by {
      assert DecimalDigits(64) == DecimalDigits(6) + [DigitChar(4)];
    }
  }

  /** The `addIndexQuery` a query generator currently holds. */
  datatype IndexQueryFn =
    | Native                       // sequelize's own generator
    | Lantern(saved: IndexQueryFn) // the wrapper, around the function saved when it was installed

  /**
   * The query an `addIndexQuery` returns. `native` is what sequelize's own
   * generator returns for these arguments; its text is not modelled.
   */
  function Run(fn: IndexQueryFn, native: string, attributes: IndexAttributes): (query: string)
    ensures native <= query
  {
    match fn
    case Native => native
    case Lantern(saved) => Run(saved, native, attributes) + Suffix(attributes)
  }

  /**
   * `lanternSequelizeAddIndexQuery(...args)`: call the saved function, and
   * when `attributes.with` is truthy push each defined setting and append
   * the clause.
   */
  method LanternAddIndexQuery(saved: IndexQueryFn, native: string, attributes: IndexAttributes)
    returns (query: string)
    ensures query == Run(Lantern(saved), native, attributes)
  {
    query := Run(saved, native, attributes);
    if attributes.withOptions.Some? {
      var w := attributes.withOptions.value;
      var params: seq<string> := [];
      if w.M.Some? {
        params := params + [Entry("M", w.M.value)];
      }
      assert params == PushIfDefined([], "M", w.M);
      ghost var withM := params;
      if w.ef.Some? {
        params := params + [Entry("ef", w.ef.value)];
      }
      assert params == PushIfDefined(withM, "ef", w.ef);
      ghost var withEf := params;
      if w.dim.Some? {
        params := params + [Entry("dim", w.dim.value)];
      }
      assert params == PushIfDefined(withEf, "dim", w.dim);
      ghost var withDim := params;
      if w.efConstruction.Some? {
        params := params + [Entry("ef_construction", w.efConstruction.value)];
      }
      assert params == PushIfDefined(withDim, "ef_construction", w.efConstruction);
      assert params == WithParams(w);
      var clause := " WITH (" + Join(params, ", ") + ")";
      query := query + clause;
    }
  }

  /** The wrapper leaves the saved query in front and adds the clause only for a truthy `with`. */
  lemma WrapperAppends(saved: IndexQueryFn, native: string, attributes: IndexAttributes)
    ensures attributes.withOptions.None? ==> Run(Lantern(saved), native, attributes) == Run(saved, native, attributes)
    ensures attributes.withOptions.Some? ==>
              Run(Lantern(saved), native, attributes)
              == Run(saved, native, attributes) + " WITH (" + Join(WithParams(attributes.withOptions.value), ", ") + ")"
  {
  }

  /** A dialect query generator, whose `addIndexQuery` the adapter replaces. */
  class QueryGenerator {
    var addIndexQuery: IndexQueryFn

    constructor ()
      ensures addIndexQuery == Native
    {
      addIndexQuery := Native;
    }
  }

  /** A sequelize instance: its dialect's query generator and its entry in the adapter's weak map. */
  class Instance {
    const queryGenerator: QueryGenerator
    var saved: Option<IndexQueryFn>

    constructor (queryGenerator: QueryGenerator)
      ensures this.queryGenerator == queryGenerator && saved == None
    {
      this.queryGenerator := queryGenerator;
      saved := None;
    }
  }

  /**
   * `supportIndexes(sequelize)`: save the current `addIndexQuery` in the
   * weak map and install a wrapper around it.
   */
  method SupportIndexes(sequelize: Instance)
    modifies sequelize, sequelize.queryGenerator
    ensures sequelize.saved == Some(old(sequelize.queryGenerator.addIndexQuery))
    ensures sequelize.queryGenerator.addIndexQuery == Lantern(old(sequelize.queryGenerator.addIndexQuery))
  {
    var addIndexQuery := sequelize.queryGenerator.addIndexQuery;
    sequelize.saved := Some(addIndexQuery);
    sequelize.queryGenerator.addIndexQuery := Lantern(addIndexQuery);
  }

  /** Patching a fresh generator once appends the clause once. */
  lemma PatchedOnce(native: string, attributes: IndexAttributes)
    ensures Run(Lantern(Native), native, attributes) == native + Suffix(attributes)
  {
  }

  /**
   * Patching twice wraps the wrapper: the clause is appended twice, so a
   * truthy `with` gives a query with two `WITH` clauses.
   */
  lemma PatchedTwice(native: string, attributes: IndexAttributes)
    ensures Run(Lantern(Lantern(Native)), native, attributes) == native + Suffix(attributes) + Suffix(attributes)
    ensures attributes.withOptions.Some? ==> |Run(Lantern(Lantern(Native)), native, attributes)| >= |native| + 2 * |" WITH ()"|
  {
    PatchedOnce(native, attributes);
    if attributes.withOptions.Some? {
      var w := attributes.withOptions.value;
      assert |WithClause(w)| >= |" WITH ()"|;
    }
  }

  /** The quoting and escaping functions of the connected dialect, which this model takes as given. */
  datatype Dialect = Dialect(quoteIdentifier: string -> string, escape: string -> string)

  /** A `sequelize.literal(text)`: SQL text used as it is. */
  datatype Literal = Literal(text: string)

  /**
   * `distance(op, column, value, sequelize)`: the quoted column, the
   * operator and the escaped literal of `utils.toSql(value)`; a value that
   * is not an array makes `toSql` throw.
   */
  function Distance(op: string, column: string, value: Fragments.Value, dialect: Dialect): (r: Result<Literal, Utils.TypeError>)
    ensures r.Success? <==> value.Arr?
    ensures value.Arr? ==>
              r.value.text == dialect.quoteIdentifier(column) + " " + op + " " + dialect.escape(SqlCodec.Encode(value.items))
  {
    match Utils.ToSql(value)
    case Success(literal) =>
      Utils.ToSqlAgrees(value.items);
      Success(Literal(dialect.quoteIdentifier(column) + " " + op + " " + dialect.escape(literal)))
    case Failure(e) => Failure(e)
  }

  /** `l2(column, value, sequelize)`: the distance with `<->`. */
  function L2(column: string, value: Fragments.Value, dialect: Dialect): (r: Result<Literal, Utils.TypeError>)
    ensures r.Success? <==> value.Arr?
    ensures value.Arr? ==>
              r.value.text == dialect.quoteIdentifier(column) + " <-> " + dialect.escape(SqlCodec.Encode(value.items))
  {
    Distance(Fragments.Token(Fragments.L2), column, value, dialect)
  }

  /** `cosine(column, value, sequelize)`: the distance with `<=>`. */
  function Cosine(column: string, value: Fragments.Value, dialect: Dialect): (r: Result<Literal, Utils.TypeError>)
    ensures r.Success? <==> value.Arr?
    ensures value.Arr? ==>
              r.value.text == dialect.quoteIdentifier(column) + " <=> " + dialect.escape(SqlCodec.Encode(value.items))
  {
    Distance(Fragments.Token(Fragments.Cosine), column, value, dialect)
  }

  /** `hamming(column, value, sequelize)`: the distance with `<+>`. */
  function Hamming(column: string, value: Fragments.Value, dialect: Dialect): (r: Result<Literal, Utils.TypeError>)
    ensures r.Success? <==> value.Arr?
    ensures value.Arr? ==>
              r.value.text == dialect.quoteIdentifier(column) + " <+> " + dialect.escape(SqlCodec.Encode(value.items))
  {
    Distance(Fragments.Token(Fragments.Hamming), column, value, dialect)
  }
}
