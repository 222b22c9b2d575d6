/**
 * How the adapters relate to each other: they issue the same bootstrap
 * statements, the `raw`-based distance builders of mikro-orm, knex and
 * objection build one and the same fragment, the tag-based ones of kysely
 * and drizzle agree with them on every value but a column object, and the
 * sequelize literal is the knex query with its placeholders filled in by
 * the dialect's quoting and escaping.
 */
module Consistency {
  import opened Fragments
  import SqlCodec
  import opened ModelNames
  import MikroOrm
  import Kysely
  import DrizzleOrm
  import Knex
  import Objection
  import TypeOrm
  import Sequelize

  /** Every adapter installs the extension and its extras with the statements typeorm hands out. */
  lemma BootstrapStatementsAgree()
    ensures Expanded(MikroOrm.CreateLanternExtension()) == TypeOrm.CreateLanternExtension()
    ensures Expanded(Kysely.CreateLanternExtension()) == TypeOrm.CreateLanternExtension()
    ensures Expanded(DrizzleOrm.CreateLanternExtension()) == TypeOrm.CreateLanternExtension()
    ensures Expanded(Knex.CreateLanternExtension()) == TypeOrm.CreateLanternExtension()
    ensures Expanded(MikroOrm.CreateLanternExtrasExtension()) == TypeOrm.CreateLanternExtrasExtension()
    ensures Expanded(Kysely.CreateLanternExtrasExtension()) == TypeOrm.CreateLanternExtrasExtension()
    ensures Expanded(DrizzleOrm.CreateLanternExtrasExtension()) == TypeOrm.CreateLanternExtrasExtension()
    ensures Expanded(Knex.CreateLanternExtrasExtension()) == TypeOrm.CreateLanternExtrasExtension()
  {
  }

  /** The query text of the extension statement is a proper prefix of the extras one; nothing is bound. */
  lemma BootstrapStatementsDiffer()
    ensures TypeOrm.CreateLanternExtension() < TypeOrm.CreateLanternExtrasExtension()
  {
    assert TypeOrm.CreateLanternExtrasExtension() == TypeOrm.CreateLanternExtension() + "_extras";
  }

  /** mikro-orm's, knex's and objection's `l2Distance` build the same fragment. */
  lemma RawL2DistancesAgree(column: string, value: Value)
    ensures MikroOrm.L2Distance(column, value) == Knex.L2Distance(column, value)
    ensures Objection.L2Distance(column, value) == Knex.L2Distance(column, value)
  {
  }

  /** The knex-style distance builder of each metric. */
  function RawDistance(m: Metric, column: string, value: Value): (f: Fragment)
    ensures m == L2 ==> f == Knex.L2Distance(column, value)
    ensures m == Cosine ==> f == Knex.CosineDistance(column, value)
    ensures m == Hamming ==> f == Knex.HammingDistance(column, value)
    ensures Template(f) == "??" + (" " + Token(m) + " ") + "?"
    ensures Expanded(f) == "??" + (" " + Token(m) + " ") + ParamText(BindValue(SqlCodec.ToSql(value)))
    ensures Bindings(f) == [Ident(column)] + ParamBindings(BindValue(SqlCodec.ToSql(value)))
  {
    var encoded := SqlCodec.ToSql(value);
    IdentifierFirst(Token(m), "?");
    IdentifierFirst(Token(m), ParamText(BindValue(encoded)));
    RawInfix(Token(m), column, encoded)
  }

  /**
   * The tagged distance of kysely binds the encoded value as the `raw` one
   * does, unless the value is a column object: the two fragments then have
   * the same query text, expansion and bindings.
   */
  lemma TaggedDistanceAgrees(m: Metric, column: string, value: Value)
    requires !value.Column?
    ensures Template(Kysely.Distance(m, column, value)) == Template(RawDistance(m, column, value))
    ensures Expanded(Kysely.Distance(m, column, value)) == Expanded(RawDistance(m, column, value))
    ensures Bindings(Kysely.Distance(m, column, value)) == Bindings(RawDistance(m, column, value))
  {
    var encoded := SqlCodec.ToSql(value);
    assert !encoded.Column?;
    assert Bind(encoded) == BindValue(encoded);
  }

  /**
   * A column object is where the two kinds differ: kysely's tag makes it a
   * second identifier, while `raw` binds the object itself as a value.
   */
  lemma ColumnValueDiffers(m: Metric, column: string, other: string)
    ensures Bindings(Kysely.Distance(m, column, Column(other))) == [Ident(column), Ident(other)]
    ensures Bindings(RawDistance(m, column, Column(other))) == [Ident(column), Bound(Column(other))]
  {
  }

  /** drizzle's distance of a schema column is kysely's distance of the column's name. */
  lemma DrizzleDistanceIsKysely(column: string, value: Value)
    ensures DrizzleOrm.L2Distance(Column(column), value) == Kysely.L2Distance(column, value)
    ensures DrizzleOrm.CosineDistance(Column(column), value) == Kysely.CosineDistance(column, value)
    ensures DrizzleOrm.HammingDistance(Column(column), value) == Kysely.HammingDistance(column, value)
  {
  }

  /** drizzle's and kysely's generation and literal builders build the same fragments. */
  lemma DrizzleBuildersAreKysely(names: Lookups, modelKey: string, value: Value)
    ensures DrizzleOrm.GenerateTextEmbedding(names, modelKey, value) == Kysely.GenerateTextEmbedding(names, modelKey, value)
    ensures DrizzleOrm.GenerateImageEmbedding(names, modelKey, value) == Kysely.GenerateImageEmbedding(names, modelKey, value)
    ensures DrizzleOrm.TextEmbedding(names, modelKey, value) == Kysely.TextEmbedding(names, modelKey, value)
    ensures DrizzleOrm.ImageEmbedding(names, modelKey, value) == Kysely.ImageEmbedding(names, modelKey, value)
  {
  }

  /**
   * mikro-orm writes the model name into the query text while kysely binds
   * it: the same call, with the name written in place of kysely's first
   * placeholder, is mikro-orm's query.
   */
  lemma ModelNameInlinedOrBound(names: Lookups, modelKey: string, value: Value)
    requires !value.Frag? && !value.Column?
    ensures Template(MikroOrm.GenerateTextEmbedding(names, modelKey, value))
            == "SELECT text_embedding('" + names.text(modelKey) + "', ?)"
    ensures Expanded(Kysely.GenerateTextEmbedding(names, modelKey, value)) == "SELECT text_embedding(?, ?)"
    ensures Bindings(MikroOrm.GenerateTextEmbedding(names, modelKey, value)) == [Bound(value)]
    ensures Bindings(Kysely.GenerateTextEmbedding(names, modelKey, value)) == [Bound(Str(names.text(modelKey))), Bound(value)]
  {
    assert Bind(value) == Bound(value);
  }

  /** A parameter with its value written in: quoted identifiers, escaped strings; anything else stays a placeholder. */
  function Inline(p: Param, dialect: Sequelize.Dialect): string
  {
    match p
    case Ident(name) => dialect.quoteIdentifier(name)
    case Bound(Str(s)) => dialect.escape(s)
    case _ => Placeholder(p)
  }

  /** A fragment's query text with every parameter written in. */
  function Inlined(f: Fragment, dialect: Sequelize.Dialect): string
  {
    Weave(f.segments, seq(|f.params|, i requires 0 <= i < |f.params| => Inline(f.params[i], dialect)))
  }

  /**
   * The sequelize literal for a vector is the knex query of the same metric
   * with the column quoted into `??` and the escaped vector literal into `?`.
   */
  lemma SequelizeIsRawInlined(m: Metric, column: string, v: seq<int>, dialect: Sequelize.Dialect)
    ensures Sequelize.Distance(Token(m), column, Arr(v), dialect).Success?
    ensures Sequelize.Distance(Token(m), column, Arr(v), dialect).value.text
            == Inlined(RawDistance(m, column, Arr(v)), dialect)
  {
    InlinedRawDistance(m, column, v, dialect);
  }

  /** The knex query with its column quoted in and its vector literal escaped in. */
  lemma InlinedRawDistance(m: Metric, column: string, v: seq<int>, dialect: Sequelize.Dialect)
    ensures Inlined(RawDistance(m, column, Arr(v)), dialect)
            == dialect.quoteIdentifier(column) + " " + Token(m) + " " + dialect.escape(SqlCodec.Encode(v))
  {
    var f := RawDistance(m, column, Arr(v));
    var q := dialect.quoteIdentifier(column);
    var e := dialect.escape(SqlCodec.Encode(v));
    var mid := " " + Token(m) + " ";
    assert f == Fragment(["", mid, ""], [Ident(column), Bound(Str(SqlCodec.Encode(v)))]);
    assert seq(|f.params|, i requires 0 <= i < |f.params| => Inline(f.params[i], dialect)) == [q, e];
    WeaveTwo("", q, mid, e, "");
    EmptyEnds(q, mid, e);
    Spaced(q, Token(m), e);
  }
}
