/**
 * The mikro-orm adapter, src/mikro-orm/mikro-orm.js. `extend(em)` installs
 * eleven builders on the entity manager. The bootstrap and generation
 * builders run a statement with `em.execute`; the model gives the statement
 * that is executed. The literal and distance builders return a `raw`
 * fragment, whose query text uses `?` for a bound value and `??` for an
 * identifier.
 */
module MikroOrm {
  import opened JsText
  import opened Fragments
  import SqlCodec
  import opened ModelNames
  import opened HostObjects

  /** `n` placeholders. */
  function Marks(n: nat): (r: seq<string>)
    ensures |r| == n && forall i :: 0 <= i < n ==> r[i] == "?"
  {
    seq(n, _ => "?")
  }

  /** `n` separators. */
  function Commas(n: nat): (r: seq<string>)
    ensures |r| == n && forall i :: 0 <= i < n ==> r[i] == ", "
  {
    seq(n, _ => ", ")
  }

  /** `?` once per argument, separated by `, `. */
  function Holes(n: nat): (r: string)
  {
    Join(Marks(n), ", ")
  }

  /**
   * `embedding(query, values, em)` for a query `head` followed by one `?` per
   * value and a closing parenthesis: `raw(query, values)`, or
   * `em.raw(query, values)` when the `raw` export is missing; both build the
   * same fragment. Every value is bound to its `?`.
   */
  function Embedding(head: string, values: seq<Value>): (f: Fragment)
    requires |values| > 0
    ensures |f.segments| == |f.params| + 1 && |f.params| == |values|
    ensures Template(f) == head + Holes(|values|) + ")"
    ensures (forall i :: 0 <= i < |values| ==> !values[i].Frag?) ==>
              Bindings(f) == seq(|values|, i requires 0 <= i < |values| => Bound(values[i]))
  {
    var f := Fragment([head] + Commas(|values| - 1) + [")"],
                      seq(|values|, i requires 0 <= i < |values| => BindValue(values[i])));
    EmbeddingTemplate(head, f.params);
    assert (forall i :: 0 <= i < |values| ==> !values[i].Frag?) ==>
             f.params == seq(|values|, i requires 0 <= i < |values| => Bound(values[i]));
    assert f.params[0..] == f.params;
    f
  }

  /** The query text of a call fragment: the head, a `?` per parameter, the closing parenthesis. */
  lemma EmbeddingTemplate(head: string, ps: seq<Param>)
    requires |ps| > 0
    requires forall i :: 0 <= i < |ps| ==> !ps[i].Ident?
    ensures Template(Fragment([head] + Commas(|ps| - 1) + [")"], ps)) == head + Holes(|ps|) + ")"
  {
    var n := |ps|;
    var rest := Commas(n - 1) + [")"];
    assert Placeholders(ps) == Marks(n);
    assert ([head] + rest)[1..] == rest;
    assert Marks(n)[1..] == Marks(n - 1);
    var w := Weave(rest, Marks(n - 1));
    assert Weave([head] + rest, Marks(n)) == head + "?" + w;
    HolesThenClose(n - 1);
    assert [head] + Commas(n - 1) + [")"] == [head] + rest;
    calc {
      head + "?" + w;
      head + ("?" + w);
      head + (Holes(n) + ")");
      head + Holes(n) + ")";
    }
  }

  /**
   * The pieces after the head: `k` commas and the closing parenthesis,
   * woven with `k` placeholders, follow the first `?` as the rest of
   * `Holes(k + 1)` and the parenthesis.
   */
  lemma {:induction false} HolesThenClose(k: nat)
    ensures "?" + Weave(Commas(k) + [")"], Marks(k)) == Holes(k + 1) + ")"
  {
    var pieces := Commas(k) + [")"];
    if k == 0 {
      assert pieces == [")"];
      assert Weave([")"], []) == ")" + Weave([], []);
      assert Marks(1) == ["?"];
    } else {
      var tail := Commas(k - 1) + [")"];
      assert pieces[1..] == tail;
      assert Marks(k)[1..] == Marks(k - 1);
      var w := Weave(tail, Marks(k - 1));
      assert Weave(pieces, Marks(k)) == ", " + "?" + w;
      HolesThenClose(k - 1);
      assert Marks(k + 1)[1..] == Marks(k);
      assert Holes(k + 1) == "?" + ", " + Holes(k);
      calc {
        "?" + (", " + "?" + w);
        "?" + ", " + ("?" + w);
        "?" + ", " + (Holes(k) + ")");
        "?" + ", " + Holes(k) + ")";
      }
    }
  }

  /** `distance(op, column, value, em)`: `?? op ?` with the column as identifier and `toSql(value)` as value. */
  function Distance(op: string, column: string, value: Value): (f: Fragment)
    ensures Template(f) == "?? " + op + " ?"
    ensures !value.Frag? ==> Bindings(f) == [Ident(column), Bound(SqlCodec.ToSql(value))]
    ensures !value.Frag? ==> Expanded(f) == "?? " + op + " ?"
    ensures value.Frag? ==> Expanded(f) == "?? " + op + " " + Expanded(value.f)
    ensures value.Frag? ==> Bindings(f) == [Ident(column)] + Bindings(value.f)
  {
    RawInfix(op, column, SqlCodec.ToSql(value))
  }

  /** `em.createLanternExtension()`: executes the statement that installs the extension. */
  function CreateLanternExtension(): (f: Fragment)
    ensures Template(f) == Expanded(f) == "CREATE EXTENSION IF NOT EXISTS lantern"
    ensures Bindings(f) == []
  {
    TemplateOfText("CREATE EXTENSION IF NOT EXISTS lantern");
    Fragment(["CREATE EXTENSION IF NOT EXISTS lantern"], [])
  }

  /** `em.createLanternExtrasExtension()`: executes the statement that installs the extras extension. */
  function CreateLanternExtrasExtension(): (f: Fragment)
    ensures Template(f) == Expanded(f) == "CREATE EXTENSION IF NOT EXISTS lantern_extras"
    ensures Bindings(f) == []
  {
    TemplateOfText("CREATE EXTENSION IF NOT EXISTS lantern_extras");
    Fragment(["CREATE EXTENSION IF NOT EXISTS lantern_extras"], [])
  }

  /** `em.generateTextEmbedding(key, value)`: executes `SELECT text_embedding('<model>', ?)` with the value bound. */
  function GenerateTextEmbedding(names: Lookups, modelKey: string, value: Value): (f: Fragment)
    ensures Template(f) == "SELECT text_embedding('" + names.text(modelKey) + "', ?)"
    ensures !value.Frag? ==> Bindings(f) == [Bound(value)]
  {
    Embedding("SELECT text_embedding('" + names.text(modelKey) + "', ", [value])
  }

  /** `em.generateImageEmbedding(key, value)`: executes `SELECT image_embedding('<model>', ?)` with the value bound. */
  function GenerateImageEmbedding(names: Lookups, modelKey: string, value: Value): (f: Fragment)
    ensures Template(f) == "SELECT image_embedding('" + names.image(modelKey) + "', ?)"
    ensures !value.Frag? ==> Bindings(f) == [Bound(value)]
  {
    Embedding("SELECT image_embedding('" + names.image(modelKey) + "', ", [value])
  }

  /** `em.textEmbedding(key, text)`: the fragment `text_embedding('<model>', ?)` with the text bound. */
  function TextEmbedding(names: Lookups, modelKey: string, text: Value): (f: Fragment)
    ensures Template(f) == "text_embedding('" + names.text(modelKey) + "', ?)"
    ensures !text.Frag? ==> Bindings(f) == [Bound(text)]
  {
    Embedding("text_embedding('" + names.text(modelKey) + "', ", [text])
  }

  /** `em.imageEmbedding(key, url)`: the fragment `image_embedding('<model>', ?)` with the url bound. */
  function ImageEmbedding(names: Lookups, modelKey: string, url: Value): (f: Fragment)
    ensures Template(f) == "image_embedding('" + names.image(modelKey) + "', ?)"
    ensures !url.Frag? ==> Bindings(f) == [Bound(url)]
  {
    Embedding("image_embedding('" + names.image(modelKey) + "', ", [url])
  }

  /**
   * `em.openaiEmbedding(key, text, dimension)`: a truthy dimension is bound
   * as a third argument; a falsy one (missing, `0`, `null`, `""`) is left out.
   */
  function OpenAIEmbedding(names: Lookups, modelKey: string, text: Value, dimension: Value): (f: Fragment)
    ensures |f.params| == if Truthy(dimension) then 2 else 1
    ensures Truthy(dimension) ==> Template(f) == "openai_embedding('" + names.text(modelKey) + "', ?, ?)"
    ensures !Truthy(dimension) ==> Template(f) == "openai_embedding('" + names.text(modelKey) + "', ?)"
    ensures !text.Frag? && !dimension.Frag? ==>
              Bindings(f) == if Truthy(dimension) then [Bound(text), Bound(dimension)] else [Bound(text)]
  {
    var name := "openai_embedding('" + names.text(modelKey);
    var head := name + "', ";
    if Truthy(dimension) then
      assert Holes(2) == "?, ?" by {
        assert Marks(2) == ["?", "?"];
        assert ["?", "?"][1..] == ["?"];
      }
      assert "', " + "?, ?" + ")" == "', ?, ?)";
      assert head + "?, ?" + ")" == name + ("', " + "?, ?" + ")");
      Embedding(head, [text, dimension])
    else
      assert Holes(1) == "?";
      assert "', " + "?" + ")" == "', ?)";
      assert head + "?" + ")" == name + ("', " + "?" + ")");
      Embedding(head, [text])
  }

  /** `em.cohereEmbedding(key, text)`: `cohere_embedding('<model>', ?)`, the key resolved by the image lookup. */
  function CohereEmbedding(names: Lookups, modelKey: string, text: Value): (f: Fragment)
    ensures Template(f) == "cohere_embedding('" + names.image(modelKey) + "', ?)"
    ensures !text.Frag? ==> Bindings(f) == [Bound(text)]
  {
    Embedding("cohere_embedding('" + names.image(modelKey) + "', ", [text])
  }

  /** `em.l2Distance(column, value)`: the distance with the L2 operator. */
  function L2Distance(column: string, value: Value): (f: Fragment)
    ensures Template(f) == "?? <-> ?"
    ensures !value.Frag? ==> Bindings(f) == [Ident(column), Bound(SqlCodec.ToSql(value))]
  {
    Distance("<->", column, value)
  }

  /** `em.cosineDistance(column, value)`: the distance with the cosine operator. */
  function CosineDistance(column: string, value: Value): (f: Fragment)
    ensures Template(f) == "?? <=> ?"
    ensures !value.Frag? ==> Bindings(f) == [Ident(column), Bound(SqlCodec.ToSql(value))]
  {
    Distance("<=>", column, value)
  }

  /** `em.hammingDistance(column, value)`: the distance with the Hamming operator. */
  function HammingDistance(column: string, value: Value): (f: Fragment)
    ensures Template(f) == "?? <+> ?"
    ensures !value.Frag? ==> Bindings(f) == [Ident(column), Bound(SqlCodec.ToSql(value))]
  {
    Distance("<+>", column, value)
  }

  /**
   * `extend(em)`: assigns the eleven builders to the entity manager, in the
   * source's order, overwriting members of the same names; every other
   * member stays.
   */
  method Extend(em: Host)
    modifies em
    ensures em.members == old(em.members) + Installing(AllBuilders)
  {
    em.Assign("createLanternExtension", Builder.CreateLanternExtension);
    em.Assign("createLanternExtrasExtension", Builder.CreateLanternExtrasExtension);
    em.Assign("generateTextEmbedding", Builder.GenerateTextEmbedding);
    em.Assign("generateImageEmbedding", Builder.GenerateImageEmbedding);
    em.Assign("textEmbedding", Builder.TextEmbedding);
    em.Assign("imageEmbedding", Builder.ImageEmbedding);
    em.Assign("openaiEmbedding", Builder.OpenAIEmbedding);
    em.Assign("cohereEmbedding", Builder.CohereEmbedding);
    em.Assign("l2Distance", Builder.L2Distance);
    em.Assign("cosineDistance", Builder.CosineDistance);
    em.Assign("hammingDistance", Builder.HammingDistance);
    AllInstalled(old(em.members), em.members);
  }
}
