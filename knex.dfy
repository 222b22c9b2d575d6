/**
 * The knex adapter, src/knex/knex.js. Loading the module extends knex's
 * schema builder with the two bootstrap builders and its query builder with
 * seven more; each builder returns a `raw` statement or expression. Unlike
 * the other adapters, knex's builders take the model name itself rather than
 * a model key, and the generation builders write the model name and the
 * value straight into the query text, inside single quotes and without
 * escaping.
 */
module Knex {
  import opened JsText
  import opened Fragments
  import SqlCodec
  import opened HostObjects

  /** `schema.createLanternExtension()`: `this.raw('CREATE EXTENSION IF NOT EXISTS lantern')`. */
  function CreateLanternExtension(): (f: Fragment)
    ensures Template(f) == Expanded(f) == "CREATE EXTENSION IF NOT EXISTS lantern"
    ensures Bindings(f) == []
  {
    TemplateOfText("CREATE EXTENSION IF NOT EXISTS lantern");
    Fragment(["CREATE EXTENSION IF NOT EXISTS lantern"], [])
  }

  /** `schema.createLanternExtrasExtension()`: `this.raw('CREATE EXTENSION IF NOT EXISTS lantern_extras')`. */
  function CreateLanternExtrasExtension(): (f: Fragment)
    ensures Template(f) == Expanded(f) == "CREATE EXTENSION IF NOT EXISTS lantern_extras"
    ensures Bindings(f) == []
  {
    TemplateOfText("CREATE EXTENSION IF NOT EXISTS lantern_extras");
    Fragment(["CREATE EXTENSION IF NOT EXISTS lantern_extras"], [])
  }

  /** A statement `<callee>('<modelName>', '<value>')` written out in full, with nothing bound. */
  function Inlined(callee: string, modelName: string, value: string): (f: Fragment)
    ensures Template(f) == Expanded(f) == callee + "('" + modelName + "', '" + value + "')"
    ensures Bindings(f) == []
  {
    var text := callee + "('" + modelName + "', '" + value + "')";
    TemplateOfText(text);
    Fragment([text], [])
  }

  /** `query.generateTextEmbedding(modelName, value)`: `SELECT text_embedding('${modelName}', '${value}')`. */
  function GenerateTextEmbedding(modelName: string, value: string): (f: Fragment)
    ensures Template(f) == Expanded(f) == "SELECT text_embedding('" + modelName + "', '" + value + "')"
    ensures Bindings(f) == []
  {
    Inlined("SELECT text_embedding", modelName, value)
  }

  /** `query.generateImageEmbedding(modelName, value)`: `SELECT image_embedding('${modelName}', '${value}')`. */
  function GenerateImageEmbedding(modelName: string, value: string): (f: Fragment)
    ensures Template(f) == Expanded(f) == "SELECT image_embedding('" + modelName + "', '" + value + "')"
    ensures Bindings(f) == []
  {
    Inlined("SELECT image_embedding", modelName, value)
  }

  /**
   * Nothing escapes the inlined texts: the statement has its four own
   * quotes plus every quote of the model name and the value, so its
   * quotes delimit exactly the two intended literals only when neither
   * input has a quote of its own.
   */
  lemma {:induction false} InlinedQuotes(callee: string, modelName: string, value: string)
    requires '\'' !in callee
    ensures Count(Expanded(Inlined(callee, modelName, value)), '\'')
            == 4 + Count(modelName, '\'') + Count(value, '\'')
  {
    var q := '\'';
    CountConcat(callee + "('", modelName, q);
    CountConcat(callee, "('", q);
    CountConcat(callee + "('" + modelName, "', '", q);
    CountConcat(callee + "('" + modelName + "', '", value, q);
    CountConcat(callee + "('" + modelName + "', '" + value, "')", q);
    assert Count("('", q) == 1 by { assert "('"[1..] == "'"; assert "'"[1..] == ""; }
    assert Count("', '", q) == 2 by { assert "', '"[1..] == ", '"; assert ", '"[1..] == " '"; assert " '"[1..] == "'"; assert "'"[1..] == ""; }
    assert Count("')", q) == 1 by { assert "')"[1..] == ")"; assert ")"[1..] == ""; }
  }

  /** `query.generateTextEmbedding` leaves a value with a quote of its own unescaped. */
  lemma GenerateTextEmbeddingQuotes(modelName: string, value: string)
    ensures Count(Expanded(GenerateTextEmbedding(modelName, value)), '\'')
            == 4 + Count(modelName, '\'') + Count(value, '\'')
  {
    InlinedQuotes("SELECT text_embedding", modelName, value);
  }

  /** `query.generateImageEmbedding` leaves a value with a quote of its own unescaped. */
  lemma GenerateImageEmbeddingQuotes(modelName: string, value: string)
    ensures Count(Expanded(GenerateImageEmbedding(modelName, value)), '\'')
            == 4 + Count(modelName, '\'') + Count(value, '\'')
  {
    InlinedQuotes("SELECT image_embedding", modelName, value);
  }

  /** `query.textEmbedding(modelName, column)`: `text_embedding('${modelName}', ??)` with the column as identifier. */
  function TextEmbedding(modelName: string, column: string): (f: Fragment)
    ensures Template(f) == Expanded(f) == "text_embedding('" + modelName + "', ??)"
    ensures Bindings(f) == [Ident(column)]
  {
    TemplateOfOne("text_embedding('" + modelName + "', ", Ident(column), ")");
    Fragment(["text_embedding('" + modelName + "', ", ")"], [Ident(column)])
  }

  /** `query.imageEmbedding(modelName, column)`: `image_embedding('${modelName}', ??)` with the column as identifier. */
  function ImageEmbedding(modelName: string, column: string): (f: Fragment)
    ensures Template(f) == Expanded(f) == "image_embedding('" + modelName + "', ??)"
    ensures Bindings(f) == [Ident(column)]
  {
    TemplateOfOne("image_embedding('" + modelName + "', ", Ident(column), ")");
    Fragment(["image_embedding('" + modelName + "', ", ")"], [Ident(column)])
  }

  /** `query.l2Distance(column, value)`: `raw('?? <-> ?', [column, toSql(value)])`. */
  function L2Distance(column: string, value: Value): (f: Fragment)
    ensures Template(f) == "?? <-> ?"
    ensures Expanded(f) == "?? <-> " + ParamText(BindValue(SqlCodec.ToSql(value)))
    ensures Bindings(f) == [Ident(column)] + ParamBindings(BindValue(SqlCodec.ToSql(value)))
  {
    RawInfix("<->", column, SqlCodec.ToSql(value))
  }

  /** `query.cosineDistance(column, value)`: `raw('?? <=> ?', [column, toSql(value)])`. */
  function CosineDistance(column: string, value: Value): (f: Fragment)
    ensures Template(f) == "?? <=> ?"
    ensures Expanded(f) == "?? <=> " + ParamText(BindValue(SqlCodec.ToSql(value)))
    ensures Bindings(f) == [Ident(column)] + ParamBindings(BindValue(SqlCodec.ToSql(value)))
  {
    RawInfix("<=>", column, SqlCodec.ToSql(value))
  }

  /** `query.hammingDistance(column, value)`: `raw('?? <+> ?', [column, toSql(value)])`. */
  function HammingDistance(column: string, value: Value): (f: Fragment)
    ensures Template(f) == "?? <+> ?"
    ensures Expanded(f) == "?? <+> " + ParamText(BindValue(SqlCodec.ToSql(value)))
    ensures Bindings(f) == [Ident(column)] + ParamBindings(BindValue(SqlCodec.ToSql(value)))
  {
    RawInfix("<+>", column, SqlCodec.ToSql(value))
  }

  /**
   * Loading knex.js: `SchemaBuilder.extend` for the two bootstrap builders,
   * then `QueryBuilder.extend` for the other seven, in the source's order.
   * The two builders are different objects; each gets only its own table.
   */
  method Load(schema: Host, query: Host)
    requires schema != query
    modifies schema, query
    ensures schema.members == old(schema.members) + Installing(SchemaBuilders)
    ensures query.members == old(query.members) + Installing(QueryBuilders)
  {
    schema.Assign("createLanternExtension", Builder.CreateLanternExtension);
    schema.Assign("createLanternExtrasExtension", Builder.CreateLanternExtrasExtension);
    SchemaInstalled(old(schema.members), schema.members);
    query.Assign("generateTextEmbedding", Builder.GenerateTextEmbedding);
    query.Assign("generateImageEmbedding", Builder.GenerateImageEmbedding);
    query.Assign("textEmbedding", Builder.TextEmbedding);
    query.Assign("imageEmbedding", Builder.ImageEmbedding);
    query.Assign("l2Distance", Builder.L2Distance);
    query.Assign("cosineDistance", Builder.CosineDistance);
    query.Assign("hammingDistance", Builder.HammingDistance);
    QueryInstalled(old(query.members), query.members);
  }
}
