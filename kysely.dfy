/**
 * The kysely adapter, src/kysely/kysely.js. `extend(sql)` installs eleven
 * builders on kysely's `sql` tag, each one tagged template. A tagged
 * template binds every interpolated value, so the model name is a bound
 * parameter here, never part of the query text, and `sql.ref(column)` is a
 * column reference.
 */
module Kysely {
  import opened Fragments
  import SqlCodec
  import opened ModelNames
  import opened HostObjects

  /** `` sql`CREATE EXTENSION IF NOT EXISTS lantern` `` */
  function CreateLanternExtension(): (f: Fragment)
    ensures Template(f) == Expanded(f) == "CREATE EXTENSION IF NOT EXISTS lantern"
    ensures Bindings(f) == []
  {
    TemplateOfText("CREATE EXTENSION IF NOT EXISTS lantern");
    Tag(["CREATE EXTENSION IF NOT EXISTS lantern"], [])
  }

  /** `` sql`CREATE EXTENSION IF NOT EXISTS lantern_extras` `` */
  function CreateLanternExtrasExtension(): (f: Fragment)
    ensures Template(f) == Expanded(f) == "CREATE EXTENSION IF NOT EXISTS lantern_extras"
    ensures Bindings(f) == []
  {
    TemplateOfText("CREATE EXTENSION IF NOT EXISTS lantern_extras");
    Tag(["CREATE EXTENSION IF NOT EXISTS lantern_extras"], [])
  }

  /** `sql.generateTextEmbedding(key, value)`: `SELECT text_embedding(${modelName}, ${value})`. */
  function GenerateTextEmbedding(names: Lookups, modelKey: string, value: Value): (f: Fragment)
    ensures Expanded(f) == "SELECT text_embedding(?, " + ParamText(Bind(value)) + ")"
    ensures Bindings(f) == [Bound(Str(names.text(modelKey)))] + ParamBindings(Bind(value))
  {
    assert "SELECT text_embedding(" + "?, " == "SELECT text_embedding(?, ";
    TagCall2("SELECT text_embedding(", names.text(modelKey), value)
  }

  /** `sql.generateImageEmbedding(key, value)`: `SELECT image_embedding(${modelName}, ${value})`. */
  function GenerateImageEmbedding(names: Lookups, modelKey: string, value: Value): (f: Fragment)
    ensures Expanded(f) == "SELECT image_embedding(?, " + ParamText(Bind(value)) + ")"
    ensures Bindings(f) == [Bound(Str(names.image(modelKey)))] + ParamBindings(Bind(value))
  {
    assert "SELECT image_embedding(" + "?, " == "SELECT image_embedding(?, ";
    TagCall2("SELECT image_embedding(", names.image(modelKey), value)
  }

  /** `sql.textEmbedding(key, text)`: `text_embedding(${modelName}, ${text})`, without `SELECT`. */
  function TextEmbedding(names: Lookups, modelKey: string, text: Value): (f: Fragment)
    ensures Expanded(f) == "text_embedding(?, " + ParamText(Bind(text)) + ")"
    ensures Bindings(f) == [Bound(Str(names.text(modelKey)))] + ParamBindings(Bind(text))
  {
    assert "text_embedding(" + "?, " == "text_embedding(?, ";
    TagCall2("text_embedding(", names.text(modelKey), text)
  }

  /** `sql.imageEmbedding(key, url)`: `image_embedding(${modelName}, ${url})`, without `SELECT`. */
  function ImageEmbedding(names: Lookups, modelKey: string, url: Value): (f: Fragment)
    ensures Expanded(f) == "image_embedding(?, " + ParamText(Bind(url)) + ")"
    ensures Bindings(f) == [Bound(Str(names.image(modelKey)))] + ParamBindings(Bind(url))
  {
    assert "image_embedding(" + "?, " == "image_embedding(?, ";
    TagCall2("image_embedding(", names.image(modelKey), url)
  }

  /**
   * `sql.openaiEmbedding(key, text, dimension)`: a truthy dimension is a
   * third interpolated argument; a falsy one is left out.
   */
  function OpenAIEmbedding(names: Lookups, modelKey: string, text: Value, dimension: Value): (f: Fragment)
    ensures |f.params| == if Truthy(dimension) then 3 else 2
    ensures Truthy(dimension) ==>
              && Expanded(f) == "openai_embedding(?, " + ParamText(Bind(text)) + ", " + ParamText(Bind(dimension)) + ")"
              && Bindings(f) == [Bound(Str(names.text(modelKey)))] + ParamBindings(Bind(text)) + ParamBindings(Bind(dimension))
    ensures !Truthy(dimension) ==>
              && Expanded(f) == "openai_embedding(?, " + ParamText(Bind(text)) + ")"
              && Bindings(f) == [Bound(Str(names.text(modelKey)))] + ParamBindings(Bind(text))
  {
    assert "openai_embedding(" + "?, " == "openai_embedding(?, ";
    if Truthy(dimension) then TagCall3("openai_embedding(", names.text(modelKey), text, dimension)
    else TagCall2("openai_embedding(", names.text(modelKey), text)
  }

  /** `sql.cohereEmbedding(key, text)`: `cohere_embedding(${modelName}, ${text})`, the key resolved by the image lookup. */
  function CohereEmbedding(names: Lookups, modelKey: string, text: Value): (f: Fragment)
    ensures Expanded(f) == "cohere_embedding(?, " + ParamText(Bind(text)) + ")"
    ensures Bindings(f) == [Bound(Str(names.image(modelKey)))] + ParamBindings(Bind(text))
  {
    assert "cohere_embedding(" + "?, " == "cohere_embedding(?, ";
    TagCall2("cohere_embedding(", names.image(modelKey), text)
  }

  /**
   * `` sql`${sql.ref(column)} <op> ${toSql(value)}` ``: the column reference,
   * the operator, the encoded value. A value that is already a fragment
   * passes through `toSql` and is spliced in whole.
   */
  function Distance(m: Metric, column: string, value: Value): (f: Fragment)
    ensures |f.params| == 2 && f.params[0] == Ident(column) && f.params[1] == Bind(SqlCodec.ToSql(value))
    ensures Template(f) == "??" + (" " + Token(m) + " ") + Placeholder(Bind(SqlCodec.ToSql(value)))
    ensures Expanded(f) == "??" + (" " + Token(m) + " ") + ParamText(Bind(SqlCodec.ToSql(value)))
    ensures Bindings(f) == [Ident(column)] + ParamBindings(Bind(SqlCodec.ToSql(value)))
  {
    TagInfix(Column(column), Token(m), SqlCodec.ToSql(value))
  }

  /**
   * A fragment given as the value passes through `toSql` and sits nested in
   * the value slot: its text is spliced in and its bindings follow the column.
   */
  lemma DistanceOfFragment(m: Metric, column: string, g: Fragment)
    ensures Distance(m, column, Frag(g)).params[1] == Nested(g)
    ensures Expanded(Distance(m, column, Frag(g))) == "??" + (" " + Token(m) + " ") + Expanded(g)
    ensures Bindings(Distance(m, column, Frag(g))) == [Ident(column)] + Bindings(g)
  {
    assert SqlCodec.ToSql(Frag(g)) == Frag(g);
  }

  /** `sql.l2Distance(column, value)`: the distance with `<->`. */
  function L2Distance(column: string, value: Value): (f: Fragment)
    ensures Expanded(f) == "?? <-> " + ParamText(Bind(SqlCodec.ToSql(value)))
    ensures Bindings(f) == [Ident(column)] + ParamBindings(Bind(SqlCodec.ToSql(value)))
  {
    assert Token(L2) == "<->";
    assert " " + "<->" + " " == " <-> ";
    assert "??" + " <-> " == "?? <-> ";
    Distance(L2, column, value)
  }

  /** `sql.cosineDistance(column, value)`: the distance with `<=>`. */
  function CosineDistance(column: string, value: Value): (f: Fragment)
    ensures Expanded(f) == "?? <=> " + ParamText(Bind(SqlCodec.ToSql(value)))
    ensures Bindings(f) == [Ident(column)] + ParamBindings(Bind(SqlCodec.ToSql(value)))
  {
    assert Token(Cosine) == "<=>";
    assert " " + "<=>" + " " == " <=> ";
    assert "??" + " <=> " == "?? <=> ";
    Distance(Cosine, column, value)
  }

  /** `sql.hammingDistance(column, value)`: the distance with `<+>`. */
  function HammingDistance(column: string, value: Value): (f: Fragment)
    ensures Expanded(f) == "?? <+> " + ParamText(Bind(SqlCodec.ToSql(value)))
    ensures Bindings(f) == [Ident(column)] + ParamBindings(Bind(SqlCodec.ToSql(value)))
  {
    assert Token(Hamming) == "<+>";
    assert " " + "<+>" + " " == " <+> ";
    assert "??" + " <+> " == "?? <+> ";
    Distance(Hamming, column, value)
  }

  /**
   * `extend(sql)`: assigns the eleven builders to the `sql` tag, in the
   * source's order, overwriting members of the same names; every other
   * member stays.
   */
  method Extend(sql: Host)
    modifies sql
    ensures sql.members == old(sql.members) + Installing(AllBuilders)
  {
    sql.Assign("createLanternExtension", Builder.CreateLanternExtension);
    sql.Assign("createLanternExtrasExtension", Builder.CreateLanternExtrasExtension);
    sql.Assign("generateTextEmbedding", Builder.GenerateTextEmbedding);
    sql.Assign("generateImageEmbedding", Builder.GenerateImageEmbedding);
    sql.Assign("textEmbedding", Builder.TextEmbedding);
    sql.Assign("imageEmbedding", Builder.ImageEmbedding);
    sql.Assign("openaiEmbedding", Builder.OpenAIEmbedding);
    sql.Assign("cohereEmbedding", Builder.CohereEmbedding);
    sql.Assign("l2Distance", Builder.L2Distance);
    sql.Assign("cosineDistance", Builder.CosineDistance);
    sql.Assign("hammingDistance", Builder.HammingDistance);
    AllInstalled(old(sql.members), sql.members);
  }
}
