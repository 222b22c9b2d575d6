/**
 * The drizzle-orm adapter, src/drizzle-orm/drizzle-orm.js: plain exported
 * functions that each return a drizzle `sql` tagged template. Every
 * interpolated value goes through the tag: a column object of the schema
 * becomes a column reference, a `sql` fragment is spliced in, and anything
 * else is bound. The module also re-exports `fromSql` and `toSql` of the
 * shared codec.
 */
module DrizzleOrm {
  import opened Fragments
  import SqlCodec
  import opened ModelNames

  /** `` sql`CREATE EXTENSION IF NOT EXISTS lantern` `` */
  function CreateLanternExtension(): (f: Fragment)
    ensures Template(f) == Expanded(f) == "CREATE EXTENSION IF NOT EXISTS lantern"
    ensures Bindings(f) == []
  {
    TemplateOfText("CREATE EXTENSION IF NOT EXISTS lantern");
    Tag(["CREATE EXTENSION IF NOT EXISTS lantern"], [])
  }

  /** `` sql`CREATE EXTENSION IF NOT EXISTS lantern_extras` `` */
  function CreateLanternExtrasExtension(): (f: Fragment)
    ensures Template(f) == Expanded(f) == "CREATE EXTENSION IF NOT EXISTS lantern_extras"
    ensures Bindings(f) == []
  {
    TemplateOfText("CREATE EXTENSION IF NOT EXISTS lantern_extras");
    Tag(["CREATE EXTENSION IF NOT EXISTS lantern_extras"], [])
  }

  /** `generateTextEmbedding(key, value)`: `SELECT text_embedding(${modelName}, ${value})`. */
  function GenerateTextEmbedding(names: Lookups, modelKey: string, value: Value): (f: Fragment)
    ensures Expanded(f) == "SELECT text_embedding(?, " + ParamText(Bind(value)) + ")"
    ensures Bindings(f) == [Bound(Str(names.text(modelKey)))] + ParamBindings(Bind(value))
  {
    assert "SELECT text_embedding(" + "?, " == "SELECT text_embedding(?, ";
    TagCall2("SELECT text_embedding(", names.text(modelKey), value)
  }

  /** `generateImageEmbedding(key, value)`: `SELECT image_embedding(${modelName}, ${value})`. */
  function GenerateImageEmbedding(names: Lookups, modelKey: string, value: Value): (f: Fragment)
    ensures Expanded(f) == "SELECT image_embedding(?, " + ParamText(Bind(value)) + ")"
    ensures Bindings(f) == [Bound(Str(names.image(modelKey)))] + ParamBindings(Bind(value))
  {
    assert "SELECT image_embedding(" + "?, " == "SELECT image_embedding(?, ";
    TagCall2("SELECT image_embedding(", names.image(modelKey), value)
  }

  /**
   * `textEmbedding(key, column)`: `text_embedding(${modelName}, ${column})`;
   * a schema column is referenced by name, a plain value is bound.
   */
  function TextEmbedding(names: Lookups, modelKey: string, column: Value): (f: Fragment)
    ensures column.Column? ==> Template(f) == Expanded(f) == "text_embedding(?, ??)"
    ensures Expanded(f) == "text_embedding(?, " + ParamText(Bind(column)) + ")"
    ensures Bindings(f) == [Bound(Str(names.text(modelKey)))] + ParamBindings(Bind(column))
  {
    assert "text_embedding(" + "?, " == "text_embedding(?, ";
    TagCall2("text_embedding(", names.text(modelKey), column)
  }

  /** `imageEmbedding(key, column)`: `image_embedding(${modelName}, ${column})`. */
  function ImageEmbedding(names: Lookups, modelKey: string, column: Value): (f: Fragment)
    ensures column.Column? ==> Template(f) == Expanded(f) == "image_embedding(?, ??)"
    ensures Expanded(f) == "image_embedding(?, " + ParamText(Bind(column)) + ")"
    ensures Bindings(f) == [Bound(Str(names.image(modelKey)))] + ParamBindings(Bind(column))
  {
    assert "image_embedding(" + "?, " == "image_embedding(?, ";
    TagCall2("image_embedding(", names.image(modelKey), column)
  }

  /** `l2Distance(column, value)`: `${column} <-> ${toSql(value)}`. */
  function L2Distance(column: Value, value: Value): (f: Fragment)
    ensures |f.params| == 2 && f.params[0] == Bind(column) && f.params[1] == Bind(SqlCodec.ToSql(value))
    ensures Template(f) == Placeholder(Bind(column)) + " <-> " + Placeholder(Bind(SqlCodec.ToSql(value)))
    ensures Expanded(f) == ParamText(Bind(column)) + " <-> " + ParamText(Bind(SqlCodec.ToSql(value)))
    ensures Bindings(f) == ParamBindings(Bind(column)) + ParamBindings(Bind(SqlCodec.ToSql(value)))
  {
    assert Token(L2) == "<->";
    assert " " + "<->" + " " == " <-> ";
    TagInfix(column, Token(L2), SqlCodec.ToSql(value))
  }

  /** `cosineDistance(column, value)`: `${column} <=> ${toSql(value)}`. */
  function CosineDistance(column: Value, value: Value): (f: Fragment)
    ensures |f.params| == 2 && f.params[0] == Bind(column) && f.params[1] == Bind(SqlCodec.ToSql(value))
    ensures Template(f) == Placeholder(Bind(column)) + " <=> " + Placeholder(Bind(SqlCodec.ToSql(value)))
    ensures Expanded(f) == ParamText(Bind(column)) + " <=> " + ParamText(Bind(SqlCodec.ToSql(value)))
    ensures Bindings(f) == ParamBindings(Bind(column)) + ParamBindings(Bind(SqlCodec.ToSql(value)))
  {
    assert Token(Cosine) == "<=>";
    assert " " + "<=>" + " " == " <=> ";
    TagInfix(column, Token(Cosine), SqlCodec.ToSql(value))
  }

  /** `hammingDistance(column, value)`: `${column} <+> ${toSql(value)}`. */
  function HammingDistance(column: Value, value: Value): (f: Fragment)
    ensures |f.params| == 2 && f.params[0] == Bind(column) && f.params[1] == Bind(SqlCodec.ToSql(value))
    ensures Template(f) == Placeholder(Bind(column)) + " <+> " + Placeholder(Bind(SqlCodec.ToSql(value)))
    ensures Expanded(f) == ParamText(Bind(column)) + " <+> " + ParamText(Bind(SqlCodec.ToSql(value)))
    ensures Bindings(f) == ParamBindings(Bind(column)) + ParamBindings(Bind(SqlCodec.ToSql(value)))
  {
    assert Token(Hamming) == "<+>";
    assert " " + "<+>" + " " == " <+> ";
    TagInfix(column, Token(Hamming), SqlCodec.ToSql(value))
  }

  /**
   * A schema column against a vector: the column is referenced by name and
   * the vector is bound as its literal text, so the query is `?? <-> ?`.
   */
  lemma L2DistanceOfVector(column: string, v: seq<int>)
    ensures Template(L2Distance(Column(column), Arr(v))) == "?? <-> ?"
    ensures Bindings(L2Distance(Column(column), Arr(v))) == [Ident(column), Bound(Str(SqlCodec.Encode(v)))]
  {
    var f := L2Distance(Column(column), Arr(v));
    var p, q := Bind(Column(column)), Bind(SqlCodec.ToSql(Arr(v)));
    assert p == Ident(column);
    assert q == Bound(Str(SqlCodec.Encode(v)));
    assert Template(f) == "??" + " <-> " + "?" by {
      assert Template(f) == Placeholder(p) + " <-> " + Placeholder(q);
    }
    assert Bindings(f) == [p] + [q] by {
      assert Bindings(f) == ParamBindings(p) + ParamBindings(q);
    }
  }
}
