/**
 * The objects the adapters extend in place: mikro-orm's entity manager,
 * kysely's `sql` tag and knex's schema and query builders. Each of them is
 * a table of named members; extending one assigns the lantern builders under
 * their names and leaves every other member as it was.
 */
module HostObjects {

  /** The fragment builders the adapters install. */
  datatype Builder =
    | CreateLanternExtension
    | CreateLanternExtrasExtension
    | GenerateTextEmbedding
    | GenerateImageEmbedding
    | TextEmbedding
    | ImageEmbedding
    | OpenAIEmbedding
    | CohereEmbedding
    | L2Distance
    | CosineDistance
    | HammingDistance

  /** A member of a host object: one it already had, or a lantern builder installed under that name. */
  datatype Member = Own | Installed(builder: Builder)

  /** The JavaScript name each builder is installed under. */
  function MethodName(b: Builder): (name: string)
    ensures |name| > 0
  {
    match b
    case CreateLanternExtension => "createLanternExtension"
    case CreateLanternExtrasExtension => "createLanternExtrasExtension"
    case GenerateTextEmbedding => "generateTextEmbedding"
    case GenerateImageEmbedding => "generateImageEmbedding"
    case TextEmbedding => "textEmbedding"
    case ImageEmbedding => "imageEmbedding"
    case OpenAIEmbedding => "openaiEmbedding"
    case CohereEmbedding => "cohereEmbedding"
    case L2Distance => "l2Distance"
    case CosineDistance => "cosineDistance"
    case HammingDistance => "hammingDistance"
  }

  /** Different builders are installed under different names. */
  lemma MethodNameInjective(a: Builder, b: Builder)
    ensures MethodName(a) == MethodName(b) <==> a == b
  {
    assert "createLanternExtension"[0] != "generateImageEmbedding"[0];
    assert "imageEmbedding"[0] != "cosineDistance"[0];
    assert "openaiEmbedding"[0] != "cohereEmbedding"[0];
    assert "openaiEmbedding"[0] != "hammingDistance"[0];
    assert "cohereEmbedding"[0] != "hammingDistance"[0];
  }

  /** A table of builders keyed by the names they are installed under. */
  function Installing(bs: set<Builder>): (m: map<string, Member>)
    ensures m.Keys == set b | b in bs :: MethodName(b)
    ensures forall b :: b in bs ==> MethodName(b) in m && m[MethodName(b)] == Installed(b)
  {
    map b | b in bs :: MethodName(b) := Installed(b)
  }

  /** All eleven builders: what mikro-orm's and kysely's `extend` install. */
  const AllBuilders: set<Builder> := {
    Builder.CreateLanternExtension, Builder.CreateLanternExtrasExtension,
    Builder.GenerateTextEmbedding, Builder.GenerateImageEmbedding,
    Builder.TextEmbedding, Builder.ImageEmbedding, Builder.OpenAIEmbedding, Builder.CohereEmbedding,
    Builder.L2Distance, Builder.CosineDistance, Builder.HammingDistance
  }

  /**
   * Assigning the eleven builders one after the other, in the order both
   * adapters use, is overriding the old members with the table of all builders.
   */
  lemma AllInstalled(before: map<string, Member>, after: map<string, Member>)
    requires after == before["createLanternExtension" := Installed(Builder.CreateLanternExtension)]
                            ["createLanternExtrasExtension" := Installed(Builder.CreateLanternExtrasExtension)]
                            ["generateTextEmbedding" := Installed(Builder.GenerateTextEmbedding)]
                            ["generateImageEmbedding" := Installed(Builder.GenerateImageEmbedding)]
                            ["textEmbedding" := Installed(Builder.TextEmbedding)]
                            ["imageEmbedding" := Installed(Builder.ImageEmbedding)]
                            ["openaiEmbedding" := Installed(Builder.OpenAIEmbedding)]
                            ["cohereEmbedding" := Installed(Builder.CohereEmbedding)]
                            ["l2Distance" := Installed(Builder.L2Distance)]
                            ["cosineDistance" := Installed(Builder.CosineDistance)]
                            ["hammingDistance" := Installed(Builder.HammingDistance)]
    ensures after == before + Installing(AllBuilders)
  {
    var table := Installing(AllBuilders);
    assert table.Keys == {
      "createLanternExtension", "createLanternExtrasExtension", "generateTextEmbedding",
      "generateImageEmbedding", "textEmbedding", "imageEmbedding", "openaiEmbedding",
      "cohereEmbedding", "l2Distance", "cosineDistance", "hammingDistance"
    };
    forall b | b in AllBuilders
      ensures table[MethodName(b)] == Installed(b)
    {
    }
  }

  /** What knex's `SchemaBuilder.extend` is given: the two bootstrap builders. */
  const SchemaBuilders: set<Builder> := {Builder.CreateLanternExtension, Builder.CreateLanternExtrasExtension}

  /** What knex's `QueryBuilder.extend` is given: generation, literals and distances, without openai and cohere. */
  const QueryBuilders: set<Builder> := {
    Builder.GenerateTextEmbedding, Builder.GenerateImageEmbedding,
    Builder.TextEmbedding, Builder.ImageEmbedding,
    Builder.L2Distance, Builder.CosineDistance, Builder.HammingDistance
  }

  /** The two knex tables together install every builder but the openai and cohere ones. */
  lemma KnexBuilders()
    ensures SchemaBuilders !! QueryBuilders
    ensures SchemaBuilders + QueryBuilders == AllBuilders - {Builder.OpenAIEmbedding, Builder.CohereEmbedding}
  {
  }

  /** Assigning the two bootstrap builders in knex's order is overriding with their table. */
  lemma SchemaInstalled(before: map<string, Member>, after: map<string, Member>)
    requires after == before["createLanternExtension" := Installed(Builder.CreateLanternExtension)]
                            ["createLanternExtrasExtension" := Installed(Builder.CreateLanternExtrasExtension)]
    ensures after == before + Installing(SchemaBuilders)
  {
    var table := Installing(SchemaBuilders);
    assert table.Keys == {"createLanternExtension", "createLanternExtrasExtension"};
    assert table["createLanternExtension"] == Installed(Builder.CreateLanternExtension) by {
      assert MethodName(Builder.CreateLanternExtension) == "createLanternExtension";
    }
    assert table["createLanternExtrasExtension"] == Installed(Builder.CreateLanternExtrasExtension) by {
      assert MethodName(Builder.CreateLanternExtrasExtension) == "createLanternExtrasExtension";
    }
  }

  /** Assigning the seven query builders in knex's order is overriding with their table. */
  lemma QueryInstalled(before: map<string, Member>, after: map<string, Member>)
    requires after == before["generateTextEmbedding" := Installed(Builder.GenerateTextEmbedding)]
                            ["generateImageEmbedding" := Installed(Builder.GenerateImageEmbedding)]
                            ["textEmbedding" := Installed(Builder.TextEmbedding)]
                            ["imageEmbedding" := Installed(Builder.ImageEmbedding)]
                            ["l2Distance" := Installed(Builder.L2Distance)]
                            ["cosineDistance" := Installed(Builder.CosineDistance)]
                            ["hammingDistance" := Installed(Builder.HammingDistance)]
    ensures after == before + Installing(QueryBuilders)
  {
    var table := Installing(QueryBuilders);
    assert table.Keys == {
      "generateTextEmbedding", "generateImageEmbedding", "textEmbedding", "imageEmbedding",
      "l2Distance", "cosineDistance", "hammingDistance"
    };
    forall b | b in QueryBuilders
      ensures table[MethodName(b)] == Installed(b)
    {
    }
  }

  /** An object whose members the adapters add to. */
  class Host {
    var members: map<string, Member>

    constructor (members: map<string, Member>)
      ensures this.members == members
    {
      this.members := members;
    }

    /** `host[name] = builder`: assign one member, overwriting any member of that name. */
    method Assign(name: string, b: Builder)
      modifies this
      ensures members == old(members)[name := Installed(b)]
    {
      members := members[name := Installed(b)];
    }
  }
}
