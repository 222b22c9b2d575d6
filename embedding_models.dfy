/**
 * The model-key tables of src/_embeddings/enums.js: four constant objects
 * from symbolic keys to the model names the extension's embedding functions
 * take. They are fixed: nothing adds to them and a key outside a table has
 * no entry. The OpenAI and Cohere tables are views into the text table,
 * each of their values read out of it.
 */
module EmbeddingModels {
  import opened Wrappers

  /*
   * The 24 keys of the text table, in the order the object literal lists
   * them, six to a part. A key of a provider table is written as the
   * provider's prefix followed by the key it has there, which is the same
   * string. The parts are named only so that the proof of the table's size
   * can count a part at a time.
   */
  const TextKeysA: set<string> := {
    "MICROSOFT_MINILM_L12_V2", "CLIP_VIT_B_32_TEXTUAL", "BAAI_BGE_SMALL_EN",
    "THENLPER_GTE_BASE", "INTFLOAT_E5_BASE_V2", "MICROSOFT_MPNET_BASE_V2"
  }
  const TextKeysB: set<string> := {
    "MULTI_QA_MPNET_BASE_DOT_V1", "BAAI_BGE_BASE_EN", "THENLPER_GTE_LARGE",
    "LLMRAILS_EMBER_V1", "INTFLOAT_E5_LARGE_V2", "BAAI_BGE_LARGE_EN"
  }
  const TextKeysC: set<string> := {
    "JINAAI_EMBEDDINGS_V2_SMALL_EN", "JINAAI_EMBEDDINGS_V2_BASE_EN", "OPENAI_" + "ADA_002",
    "OPENAI_" + "SMALL_3", "OPENAI_" + "LARGE_3", "COHERE_" + "ENGLISH_V3_0"
  }
  const TextKeysD: set<string> := {
    "COHERE_" + "MULTILINGUAL_V3_0", "COHERE_" + "ENGLISH_V2_0",
    "COHERE_" + "ENGLISH_LIGHT_V2_0", "COHERE_" + "MULTILINGUAL_V2_0",
    "COHERE_" + "ENGLISH_LIGHT_V3_0", "COHERE_" + "MULTILINGUAL_LIGHT_V3_0"
  }

  /** The keys of the text-embedding table. */
  const TextEmbeddingModelKeys: set<string> := TextKeysA + TextKeysB + TextKeysC + TextKeysD

  /** The text-embedding models: the object literal gives every key itself as its value. */
  const TextEmbeddingModels: map<string, string> := map k | k in TextEmbeddingModelKeys :: k

  /** The image-embedding models. */
  const ImageEmbeddingModels: map<string, string> :=
    map["CLIP_VIT_B_32_VISUAL" := "CLIP_VIT_B_32_VISUAL"]

  /** The OpenAI models, each read out of the text table under its `OPENAI_` key. */
  const OpenAITextEmbeddingModels: map<string, string> :=
    map[
      "ADA_002" := TextEmbeddingModels["OPENAI_" + "ADA_002"],
      "SMALL_3" := TextEmbeddingModels["OPENAI_" + "SMALL_3"],
      "LARGE_3" := TextEmbeddingModels["OPENAI_" + "LARGE_3"]
    ]

  /** The Cohere models, each read out of the text table under its `COHERE_` key. */
  const CohereTextEmbeddingModels: map<string, string> :=
    map[
      "ENGLISH_V3_0" := TextEmbeddingModels["COHERE_" + "ENGLISH_V3_0"],
      "MULTILINGUAL_V3_0" := TextEmbeddingModels["COHERE_" + "MULTILINGUAL_V3_0"],
      "ENGLISH_V2_0" := TextEmbeddingModels["COHERE_" + "ENGLISH_V2_0"],
      "ENGLISH_LIGHT_V2_0" := TextEmbeddingModels["COHERE_" + "ENGLISH_LIGHT_V2_0"],
      "MULTILINGUAL_V2_0" := TextEmbeddingModels["COHERE_" + "MULTILINGUAL_V2_0"],
      "ENGLISH_LIGHT_V3_0" := TextEmbeddingModels["COHERE_" + "ENGLISH_LIGHT_V3_0"],
      "MULTILINGUAL_LIGHT_V3_0" := TextEmbeddingModels["COHERE_" + "MULTILINGUAL_LIGHT_V3_0"]
    ]

  /** The four tables. */
  datatype Namespace = Text | Image | OpenAI | Cohere

  /** The table of a namespace. */
  function Table(ns: Namespace): map<string, string>
  {
    match ns
    case Text => TextEmbeddingModels
    case Image => ImageEmbeddingModels
    case OpenAI => OpenAITextEmbeddingModels
    case Cohere => CohereTextEmbeddingModels
  }

  /** The prefix that turns a key of a provider table into a key of the text table. */
  function ProviderPrefix(ns: Namespace): string
  {
    match ns
    case OpenAI => "OPENAI_"
    case Cohere => "COHERE_"
    case _ => ""
  }

  /**
   * Reading `Table[key]` as an own-property lookup: the model name when the
   * key is one of the table's own keys, and `None` (JavaScript's
   * `undefined`) otherwise. A text key resolves to itself, and a provider
   * key to the text entry under the prefixed key.
   */
  function Lookup(ns: Namespace, key: string): (r: Option<string>)
    ensures r.None? <==> key !in Table(ns)
    ensures ns == Text && r.Some? ==> r.value == key
    ensures ns != Image && r.Some? ==> r.value in TextEmbeddingModels.Values
    ensures (ns == OpenAI || ns == Cohere) && r.Some? ==>
              && ProviderPrefix(ns) + key in TextEmbeddingModels
              && r.value == TextEmbeddingModels[ProviderPrefix(ns) + key] == ProviderPrefix(ns) + key
  {
    ProviderAliases();
    var table := Table(ns);
    if key in table then Some(table[key]) else None
  }

  /** Every text key maps to itself, so the names are the keys. */
  lemma TextKeysNameThemselves()
    ensures forall k :: k in TextEmbeddingModels ==> TextEmbeddingModels[k] == k
    ensures TextEmbeddingModels.Keys == TextEmbeddingModels.Values == TextEmbeddingModelKeys
  {
    forall k | k in TextEmbeddingModels.Values
      ensures k in TextEmbeddingModels.Keys
    {
      var j :| j in TextEmbeddingModels && TextEmbeddingModels[j] == k;
    }
  }

  /** The keys of the two provider tables. */
  lemma ProviderKeys()
    ensures OpenAITextEmbeddingModels.Keys == {"ADA_002", "SMALL_3", "LARGE_3"}
    ensures CohereTextEmbeddingModels.Keys == {
      "ENGLISH_V3_0", "MULTILINGUAL_V3_0", "ENGLISH_V2_0", "ENGLISH_LIGHT_V2_0",
      "MULTILINGUAL_V2_0", "ENGLISH_LIGHT_V3_0", "MULTILINGUAL_LIGHT_V3_0"
    }
  {
  }

  /** Each OpenAI key maps to the text entry under the key with the `OPENAI_` prefix. */
  lemma OpenAIAliases()
    ensures forall k :: k in OpenAITextEmbeddingModels ==>
              && "OPENAI_" + k in TextEmbeddingModels
              && OpenAITextEmbeddingModels[k] == TextEmbeddingModels["OPENAI_" + k] == "OPENAI_" + k
  {
  }

  /** Each Cohere key maps to the text entry under the key with the `COHERE_` prefix. */
  lemma CohereAliases()
    ensures forall k :: k in CohereTextEmbeddingModels ==>
              && "COHERE_" + k in TextEmbeddingModels
              && CohereTextEmbeddingModels[k] == TextEmbeddingModels["COHERE_" + k] == "COHERE_" + k
  {
  }

  /** Each provider key maps to the text entry under the key with the provider's prefix. */
  lemma ProviderAliases()
    ensures forall k :: k in OpenAITextEmbeddingModels ==>
              && "OPENAI_" + k in TextEmbeddingModels
              && OpenAITextEmbeddingModels[k] == TextEmbeddingModels["OPENAI_" + k] == "OPENAI_" + k
    ensures forall k :: k in CohereTextEmbeddingModels ==>
              && "COHERE_" + k in TextEmbeddingModels
              && CohereTextEmbeddingModels[k] == TextEmbeddingModels["COHERE_" + k] == "COHERE_" + k
  {
    OpenAIAliases();
    CohereAliases();
  }

  /** The keys of part A are six different strings. */
  lemma TextKeysACount()
    ensures |TextKeysA| == 6
  {
    assert |"MICROSOFT_MINILM_L12_V2"| == 23;
    assert |"CLIP_VIT_B_32_TEXTUAL"| == 21;
    assert |"BAAI_BGE_SMALL_EN"| == 17;
    assert |"THENLPER_GTE_BASE"| == 17;
    assert |"INTFLOAT_E5_BASE_V2"| == 19;
    assert |"MICROSOFT_MPNET_BASE_V2"| == 23;
    assert "THENLPER_GTE_BASE"[0] != "BAAI_BGE_SMALL_EN"[0];
    assert "MICROSOFT_MPNET_BASE_V2"[11] != "MICROSOFT_MINILM_L12_V2"[11];
  }

  /** The keys of part B are six different strings. */
  lemma TextKeysBCount()
    ensures |TextKeysB| == 6
  {
    assert |"MULTI_QA_MPNET_BASE_DOT_V1"| == 26;
    assert |"BAAI_BGE_BASE_EN"| == 16;
    assert |"THENLPER_GTE_LARGE"| == 18;
    assert |"LLMRAILS_EMBER_V1"| == 17;
    assert |"INTFLOAT_E5_LARGE_V2"| == 20;
    assert |"BAAI_BGE_LARGE_EN"| == 17;
    assert "BAAI_BGE_LARGE_EN"[0] != "LLMRAILS_EMBER_V1"[0];
  }

  /** The keys of part C are six different strings. */
  lemma TextKeysCCount()
    ensures |TextKeysC| == 6
  {
    assert |"JINAAI_EMBEDDINGS_V2_SMALL_EN"| == 29;
    assert |"JINAAI_EMBEDDINGS_V2_BASE_EN"| == 28;
    assert |("OPENAI_" + "ADA_002")| == 14;
    assert |("OPENAI_" + "SMALL_3")| == 14;
    assert |("OPENAI_" + "LARGE_3")| == 14;
    assert |("COHERE_" + "ENGLISH_V3_0")| == 19;
    assert ("OPENAI_" + "SMALL_3")[7] != ("OPENAI_" + "ADA_002")[7];
    assert ("OPENAI_" + "LARGE_3")[7] != ("OPENAI_" + "ADA_002")[7];
    assert ("OPENAI_" + "LARGE_3")[7] != ("OPENAI_" + "SMALL_3")[7];
  }

  /** The keys of part D are six different strings. */
  lemma TextKeysDCount()
    ensures |TextKeysD| == 6
  {
    assert |("COHERE_" + "MULTILINGUAL_V3_0")| == 24;
    assert |("COHERE_" + "ENGLISH_V2_0")| == 19;
    assert |("COHERE_" + "ENGLISH_LIGHT_V2_0")| == 25;
    assert |("COHERE_" + "MULTILINGUAL_V2_0")| == 24;
    assert |("COHERE_" + "ENGLISH_LIGHT_V3_0")| == 25;
    assert |("COHERE_" + "MULTILINGUAL_LIGHT_V3_0")| == 30;
    assert ("COHERE_" + "MULTILINGUAL_V2_0")[21] != ("COHERE_" + "MULTILINGUAL_V3_0")[21];
    assert ("COHERE_" + "ENGLISH_LIGHT_V3_0")[22] != ("COHERE_" + "ENGLISH_LIGHT_V2_0")[22];
  }

  /** No key is in both part A and part B. */
  lemma TextKeysABDisjoint()
    ensures TextKeysA !! TextKeysB
  {
    assert |"MICROSOFT_MINILM_L12_V2"| == 23;
    assert |"CLIP_VIT_B_32_TEXTUAL"| == 21;
    assert |"BAAI_BGE_SMALL_EN"| == 17;
    assert |"THENLPER_GTE_BASE"| == 17;
    assert |"INTFLOAT_E5_BASE_V2"| == 19;
    assert |"MICROSOFT_MPNET_BASE_V2"| == 23;
    assert |"MULTI_QA_MPNET_BASE_DOT_V1"| == 26;
    assert |"BAAI_BGE_BASE_EN"| == 16;
    assert |"THENLPER_GTE_LARGE"| == 18;
    assert |"LLMRAILS_EMBER_V1"| == 17;
    assert |"INTFLOAT_E5_LARGE_V2"| == 20;
    assert |"BAAI_BGE_LARGE_EN"| == 17;
    assert "BAAI_BGE_SMALL_EN"[0] != "LLMRAILS_EMBER_V1"[0];
    assert "BAAI_BGE_SMALL_EN"[9] != "BAAI_BGE_LARGE_EN"[9];
    assert "THENLPER_GTE_BASE"[0] != "LLMRAILS_EMBER_V1"[0];
    assert "THENLPER_GTE_BASE"[0] != "BAAI_BGE_LARGE_EN"[0];
  }

  /** No key is in both part A and part C. */
  lemma TextKeysACDisjoint()
    ensures TextKeysA !! TextKeysC
  {
    assert |"MICROSOFT_MINILM_L12_V2"| == 23;
    assert |"CLIP_VIT_B_32_TEXTUAL"| == 21;
    assert |"BAAI_BGE_SMALL_EN"| == 17;
    assert |"THENLPER_GTE_BASE"| == 17;
    assert |"INTFLOAT_E5_BASE_V2"| == 19;
    assert |"MICROSOFT_MPNET_BASE_V2"| == 23;
    assert |"JINAAI_EMBEDDINGS_V2_SMALL_EN"| == 29;
    assert |"JINAAI_EMBEDDINGS_V2_BASE_EN"| == 28;
    assert |("OPENAI_" + "ADA_002")| == 14;
    assert |("OPENAI_" + "SMALL_3")| == 14;
    assert |("OPENAI_" + "LARGE_3")| == 14;
    assert |("COHERE_" + "ENGLISH_V3_0")| == 19;
    assert "INTFLOAT_E5_BASE_V2"[0] != ("COHERE_" + "ENGLISH_V3_0")[0];
  }

  /** No key is in both part A and part D. */
  lemma TextKeysADDisjoint()
    ensures TextKeysA !! TextKeysD
  {
    assert |"MICROSOFT_MINILM_L12_V2"| == 23;
    assert |"CLIP_VIT_B_32_TEXTUAL"| == 21;
    assert |"BAAI_BGE_SMALL_EN"| == 17;
    assert |"THENLPER_GTE_BASE"| == 17;
    assert |"INTFLOAT_E5_BASE_V2"| == 19;
    assert |"MICROSOFT_MPNET_BASE_V2"| == 23;
    assert |("COHERE_" + "MULTILINGUAL_V3_0")| == 24;
    assert |("COHERE_" + "ENGLISH_V2_0")| == 19;
    assert |("COHERE_" + "ENGLISH_LIGHT_V2_0")| == 25;
    assert |("COHERE_" + "MULTILINGUAL_V2_0")| == 24;
    assert |("COHERE_" + "ENGLISH_LIGHT_V3_0")| == 25;
    assert |("COHERE_" + "MULTILINGUAL_LIGHT_V3_0")| == 30;
    assert "INTFLOAT_E5_BASE_V2"[0] != ("COHERE_" + "ENGLISH_V2_0")[0];
  }

  /** No key is in both part B and part C. */
  lemma TextKeysBCDisjoint()
    ensures TextKeysB !! TextKeysC
  {
    assert |"MULTI_QA_MPNET_BASE_DOT_V1"| == 26;
    assert |"BAAI_BGE_BASE_EN"| == 16;
    assert |"THENLPER_GTE_LARGE"| == 18;
    assert |"LLMRAILS_EMBER_V1"| == 17;
    assert |"INTFLOAT_E5_LARGE_V2"| == 20;
    assert |"BAAI_BGE_LARGE_EN"| == 17;
    assert |"JINAAI_EMBEDDINGS_V2_SMALL_EN"| == 29;
    assert |"JINAAI_EMBEDDINGS_V2_BASE_EN"| == 28;
    assert |("OPENAI_" + "ADA_002")| == 14;
    assert |("OPENAI_" + "SMALL_3")| == 14;
    assert |("OPENAI_" + "LARGE_3")| == 14;
    assert |("COHERE_" + "ENGLISH_V3_0")| == 19;
  }

  /** No key is in both part B and part D. */
  lemma TextKeysBDDisjoint()
    ensures TextKeysB !! TextKeysD
  {
    assert |"MULTI_QA_MPNET_BASE_DOT_V1"| == 26;
    assert |"BAAI_BGE_BASE_EN"| == 16;
    assert |"THENLPER_GTE_LARGE"| == 18;
    assert |"LLMRAILS_EMBER_V1"| == 17;
    assert |"INTFLOAT_E5_LARGE_V2"| == 20;
    assert |"BAAI_BGE_LARGE_EN"| == 17;
    assert |("COHERE_" + "MULTILINGUAL_V3_0")| == 24;
    assert |("COHERE_" + "ENGLISH_V2_0")| == 19;
    assert |("COHERE_" + "ENGLISH_LIGHT_V2_0")| == 25;
    assert |("COHERE_" + "MULTILINGUAL_V2_0")| == 24;
    assert |("COHERE_" + "ENGLISH_LIGHT_V3_0")| == 25;
    assert |("COHERE_" + "MULTILINGUAL_LIGHT_V3_0")| == 30;
  }

  /** No key is in both part C and part D. */
  lemma TextKeysCDDisjoint()
    ensures TextKeysC !! TextKeysD
  {
    assert |"JINAAI_EMBEDDINGS_V2_SMALL_EN"| == 29;
    assert |"JINAAI_EMBEDDINGS_V2_BASE_EN"| == 28;
    assert |("OPENAI_" + "ADA_002")| == 14;
    assert |("OPENAI_" + "SMALL_3")| == 14;
    assert |("OPENAI_" + "LARGE_3")| == 14;
    assert |("COHERE_" + "ENGLISH_V3_0")| == 19;
    assert |("COHERE_" + "MULTILINGUAL_V3_0")| == 24;
    assert |("COHERE_" + "ENGLISH_V2_0")| == 19;
    assert |("COHERE_" + "ENGLISH_LIGHT_V2_0")| == 25;
    assert |("COHERE_" + "MULTILINGUAL_V2_0")| == 24;
    assert |("COHERE_" + "ENGLISH_LIGHT_V3_0")| == 25;
    assert |("COHERE_" + "MULTILINGUAL_LIGHT_V3_0")| == 30;
    assert ("COHERE_" + "ENGLISH_V3_0")[16] != ("COHERE_" + "ENGLISH_V2_0")[16];
  }

  /** The text table has 24 entries. */
  lemma TextTableSize()
    ensures |TextEmbeddingModelKeys| == 24
    ensures |TextEmbeddingModels| == 24
  {
    TextKeysACount();
    TextKeysBCount();
    TextKeysCCount();
    TextKeysDCount();
    TextKeysABDisjoint();
    TextKeysACDisjoint();
    TextKeysADDisjoint();
    TextKeysBCDisjoint();
    TextKeysBDDisjoint();
    TextKeysCDDisjoint();
    assert |TextKeysA + TextKeysB| == 12;
    assert |TextKeysA + TextKeysB + TextKeysC| == 18;
    assert TextEmbeddingModels.Keys == TextEmbeddingModelKeys;
  }

  /** The image table has one entry. */
  lemma ImageTableSize()
    ensures |ImageEmbeddingModels| == 1
  {
  }

  /** The OpenAI table has three entries. */
  lemma OpenAITableSize()
    ensures |OpenAITextEmbeddingModels| == 3
  {
    ProviderKeys();
    assert |"ADA_002"| == 7;
    assert |"SMALL_3"| == 7;
    assert |"LARGE_3"| == 7;
    assert "SMALL_3"[0] != "ADA_002"[0];
    assert "LARGE_3"[0] != "ADA_002"[0];
    assert "LARGE_3"[0] != "SMALL_3"[0];
  }

  /** The Cohere table has seven entries. */
  lemma CohereTableSize()
    ensures |CohereTextEmbeddingModels| == 7
  {
    ProviderKeys();
    assert |"ENGLISH_V3_0"| == 12;
    assert |"MULTILINGUAL_V3_0"| == 17;
    assert |"ENGLISH_V2_0"| == 12;
    assert |"ENGLISH_LIGHT_V2_0"| == 18;
    assert |"MULTILINGUAL_V2_0"| == 17;
    assert |"ENGLISH_LIGHT_V3_0"| == 18;
    assert |"MULTILINGUAL_LIGHT_V3_0"| == 23;
    assert "ENGLISH_V2_0"[9] != "ENGLISH_V3_0"[9];
    assert "MULTILINGUAL_V2_0"[14] != "MULTILINGUAL_V3_0"[14];
    assert "ENGLISH_LIGHT_V3_0"[15] != "ENGLISH_LIGHT_V2_0"[15];
    assert |{"ENGLISH_V3_0", "MULTILINGUAL_V3_0"}| == 2;
    assert |{"ENGLISH_V3_0", "MULTILINGUAL_V3_0", "ENGLISH_V2_0"}| == 3;
    assert |{"ENGLISH_V3_0", "MULTILINGUAL_V3_0", "ENGLISH_V2_0", "ENGLISH_LIGHT_V2_0"}| == 4;
    assert |{"ENGLISH_V3_0", "MULTILINGUAL_V3_0", "ENGLISH_V2_0", "ENGLISH_LIGHT_V2_0", "MULTILINGUAL_V2_0"}| == 5;
    assert |{"ENGLISH_V3_0", "MULTILINGUAL_V3_0", "ENGLISH_V2_0", "ENGLISH_LIGHT_V2_0", "MULTILINGUAL_V2_0", "ENGLISH_LIGHT_V3_0"}| == 6;
  }

  /** The model names of the two provider tables. */
  lemma ProviderValueSets()
    ensures OpenAITextEmbeddingModels.Values == {"OPENAI_" + "ADA_002", "OPENAI_" + "SMALL_3", "OPENAI_" + "LARGE_3"}
    ensures CohereTextEmbeddingModels.Values == {
      "COHERE_" + "ENGLISH_V3_0", "COHERE_" + "MULTILINGUAL_V3_0", "COHERE_" + "ENGLISH_V2_0",
      "COHERE_" + "ENGLISH_LIGHT_V2_0", "COHERE_" + "MULTILINGUAL_V2_0",
      "COHERE_" + "ENGLISH_LIGHT_V3_0", "COHERE_" + "MULTILINGUAL_LIGHT_V3_0"
    }
  {
    ProviderAliases();
    ProviderKeys();
    assert OpenAITextEmbeddingModels["ADA_002"] == "OPENAI_" + "ADA_002";
    assert OpenAITextEmbeddingModels["SMALL_3"] == "OPENAI_" + "SMALL_3";
    assert OpenAITextEmbeddingModels["LARGE_3"] == "OPENAI_" + "LARGE_3";
    assert CohereTextEmbeddingModels["ENGLISH_V3_0"] == "COHERE_" + "ENGLISH_V3_0";
    assert CohereTextEmbeddingModels["MULTILINGUAL_V3_0"] == "COHERE_" + "MULTILINGUAL_V3_0";
    assert CohereTextEmbeddingModels["ENGLISH_V2_0"] == "COHERE_" + "ENGLISH_V2_0";
    assert CohereTextEmbeddingModels["ENGLISH_LIGHT_V2_0"] == "COHERE_" + "ENGLISH_LIGHT_V2_0";
    assert CohereTextEmbeddingModels["MULTILINGUAL_V2_0"] == "COHERE_" + "MULTILINGUAL_V2_0";
    assert CohereTextEmbeddingModels["ENGLISH_LIGHT_V3_0"] == "COHERE_" + "ENGLISH_LIGHT_V3_0";
    assert CohereTextEmbeddingModels["MULTILINGUAL_LIGHT_V3_0"] == "COHERE_" + "MULTILINGUAL_LIGHT_V3_0";
  }

  /** The three OpenAI model names are different. */
  lemma OpenAINamesCount()
    ensures |{"OPENAI_" + "ADA_002", "OPENAI_" + "SMALL_3", "OPENAI_" + "LARGE_3"}| == 3
  {
    assert |"OPENAI_"| == 7 && |"COHERE_"| == 7;
    assert |"ADA_002"| == 7;
    assert |"SMALL_3"| == 7;
    assert |"LARGE_3"| == 7;
    assert ("OPENAI_" + "SMALL_3")[7] != ("OPENAI_" + "ADA_002")[7];
    assert ("OPENAI_" + "LARGE_3")[7] != ("OPENAI_" + "ADA_002")[7];
    assert ("OPENAI_" + "LARGE_3")[7] != ("OPENAI_" + "SMALL_3")[7];
  }

  /** The seven Cohere model names are different. */
  lemma CohereNamesCount()
    ensures |{
        "COHERE_" + "ENGLISH_V3_0", "COHERE_" + "MULTILINGUAL_V3_0",
        "COHERE_" + "ENGLISH_V2_0", "COHERE_" + "ENGLISH_LIGHT_V2_0",
        "COHERE_" + "MULTILINGUAL_V2_0", "COHERE_" + "ENGLISH_LIGHT_V3_0",
        "COHERE_" + "MULTILINGUAL_LIGHT_V3_0"
      }| == 7
  {
    assert |"OPENAI_"| == 7 && |"COHERE_"| == 7;
    assert |"ENGLISH_V3_0"| == 12;
    assert |"MULTILINGUAL_V3_0"| == 17;
    assert |"ENGLISH_V2_0"| == 12;
    assert |"ENGLISH_LIGHT_V2_0"| == 18;
    assert |"MULTILINGUAL_V2_0"| == 17;
    assert |"ENGLISH_LIGHT_V3_0"| == 18;
    assert |"MULTILINGUAL_LIGHT_V3_0"| == 23;
    assert ("COHERE_" + "ENGLISH_V2_0")[16] != ("COHERE_" + "ENGLISH_V3_0")[16];
    assert ("COHERE_" + "MULTILINGUAL_V2_0")[21] != ("COHERE_" + "MULTILINGUAL_V3_0")[21];
    assert ("COHERE_" + "ENGLISH_LIGHT_V3_0")[22] != ("COHERE_" + "ENGLISH_LIGHT_V2_0")[22];
  }

  /** The OpenAI table names three different models. */
  lemma OpenAIValueCount()
    ensures |OpenAITextEmbeddingModels.Values| == 3
  {
    ProviderValueSets();
    OpenAINamesCount();
  }

  /** The Cohere table names seven different models. */
  lemma CohereValueCount()
    ensures |CohereTextEmbeddingModels.Values| == 7
  {
    ProviderValueSets();
    CohereNamesCount();
  }

  /** No model is named by both provider tables. */
  lemma ProviderValuesDisjoint()
    ensures OpenAITextEmbeddingModels.Values !! CohereTextEmbeddingModels.Values
  {
    ProviderValueSets();
    assert |("OPENAI_" + "ADA_002")| == 14;
    assert |("OPENAI_" + "SMALL_3")| == 14;
    assert |("OPENAI_" + "LARGE_3")| == 14;
    assert |("COHERE_" + "ENGLISH_V3_0")| == 19;
    assert |("COHERE_" + "MULTILINGUAL_V3_0")| == 24;
    assert |("COHERE_" + "ENGLISH_V2_0")| == 19;
    assert |("COHERE_" + "ENGLISH_LIGHT_V2_0")| == 25;
    assert |("COHERE_" + "MULTILINGUAL_V2_0")| == 24;
    assert |("COHERE_" + "ENGLISH_LIGHT_V3_0")| == 25;
    assert |("COHERE_" + "MULTILINGUAL_LIGHT_V3_0")| == 30;
  }

  /** Every OpenAI and Cohere model name is a text model name. */
  lemma ProviderNamesAreTextNames()
    ensures OpenAITextEmbeddingModels.Values + CohereTextEmbeddingModels.Values <= TextEmbeddingModels.Values
  {
    ProviderValueSets();
    TextKeysNameThemselves();
    assert OpenAITextEmbeddingModels.Values + CohereTextEmbeddingModels.Values <= TextKeysC + TextKeysD;
  }

  /** The first text model is neither an OpenAI nor a Cohere model. */
  lemma FirstTextNameIsNoProviderName()
    ensures "MICROSOFT_MINILM_L12_V2" in TextEmbeddingModels.Values
    ensures "MICROSOFT_MINILM_L12_V2" !in OpenAITextEmbeddingModels.Values + CohereTextEmbeddingModels.Values
  {
    ProviderValueSets();
    TextKeysNameThemselves();
    assert "MICROSOFT_MINILM_L12_V2" in TextKeysA;
    assert |"MICROSOFT_MINILM_L12_V2"| == 23;
    assert |"OPENAI_"| == 7 && |"COHERE_"| == 7;
    assert |"ADA_002"| == 7;
    assert |"SMALL_3"| == 7;
    assert |"LARGE_3"| == 7;
    assert |"ENGLISH_V3_0"| == 12;
    assert |"MULTILINGUAL_V3_0"| == 17;
    assert |"ENGLISH_V2_0"| == 12;
    assert |"ENGLISH_LIGHT_V2_0"| == 18;
    assert |"MULTILINGUAL_V2_0"| == 17;
    assert |"ENGLISH_LIGHT_V3_0"| == 18;
    assert |"MULTILINGUAL_LIGHT_V3_0"| == 23;
  }

  /**
   * The OpenAI and Cohere names are disjoint, together they are ten text
   * model names, and some text models belong to neither.
   */
  lemma ProviderValues()
    ensures OpenAITextEmbeddingModels.Values !! CohereTextEmbeddingModels.Values
    ensures |OpenAITextEmbeddingModels.Values + CohereTextEmbeddingModels.Values| == 10
    ensures OpenAITextEmbeddingModels.Values + CohereTextEmbeddingModels.Values < TextEmbeddingModels.Values
  {
    OpenAIValueCount();
    CohereValueCount();
    ProviderValuesDisjoint();
    ProviderNamesAreTextNames();
    FirstTextNameIsNoProviderName();
    assert OpenAITextEmbeddingModels.Values * CohereTextEmbeddingModels.Values == {};
  }

  /** The image model is not a text model. */
  lemma ImageIsNotText()
    ensures ImageEmbeddingModels.Values == {"CLIP_VIT_B_32_VISUAL"}
    ensures ImageEmbeddingModels.Values !! TextEmbeddingModels.Values
  {
    assert ImageEmbeddingModels["CLIP_VIT_B_32_VISUAL"] == "CLIP_VIT_B_32_VISUAL";
    TextKeysNameThemselves();
    assert "CLIP_VIT_B_32_VISUAL" !in TextKeysA by {
      assert |"CLIP_VIT_B_32_VISUAL"| == 20;
      assert |"MICROSOFT_MINILM_L12_V2"| == 23;
      assert |"CLIP_VIT_B_32_TEXTUAL"| == 21;
      assert |"BAAI_BGE_SMALL_EN"| == 17;
      assert |"THENLPER_GTE_BASE"| == 17;
      assert |"INTFLOAT_E5_BASE_V2"| == 19;
      assert |"MICROSOFT_MPNET_BASE_V2"| == 23;
    }
    assert "CLIP_VIT_B_32_VISUAL" !in TextKeysB by {
      assert |"CLIP_VIT_B_32_VISUAL"| == 20;
      assert |"MULTI_QA_MPNET_BASE_DOT_V1"| == 26;
      assert |"BAAI_BGE_BASE_EN"| == 16;
      assert |"THENLPER_GTE_LARGE"| == 18;
      assert |"LLMRAILS_EMBER_V1"| == 17;
      assert |"INTFLOAT_E5_LARGE_V2"| == 20;
      assert |"BAAI_BGE_LARGE_EN"| == 17;
      assert "CLIP_VIT_B_32_VISUAL"[0] != "INTFLOAT_E5_LARGE_V2"[0];
    }
    assert "CLIP_VIT_B_32_VISUAL" !in TextKeysC by {
      assert |"CLIP_VIT_B_32_VISUAL"| == 20;
      assert |"JINAAI_EMBEDDINGS_V2_SMALL_EN"| == 29;
      assert |"JINAAI_EMBEDDINGS_V2_BASE_EN"| == 28;
      assert |("OPENAI_" + "ADA_002")| == 14;
      assert |("OPENAI_" + "SMALL_3")| == 14;
      assert |("OPENAI_" + "LARGE_3")| == 14;
      assert |("COHERE_" + "ENGLISH_V3_0")| == 19;
    }
    assert "CLIP_VIT_B_32_VISUAL" !in TextKeysD by {
      assert |"CLIP_VIT_B_32_VISUAL"| == 20;
      assert |("COHERE_" + "MULTILINGUAL_V3_0")| == 24;
      assert |("COHERE_" + "ENGLISH_V2_0")| == 19;
      assert |("COHERE_" + "ENGLISH_LIGHT_V2_0")| == 25;
      assert |("COHERE_" + "MULTILINGUAL_V2_0")| == 24;
      assert |("COHERE_" + "ENGLISH_LIGHT_V3_0")| == 25;
      assert |("COHERE_" + "MULTILINGUAL_LIGHT_V3_0")| == 30;
    }
  }

  /** `NOT_A_MODEL` is no text model key. */
  lemma UnknownTextKey()
    ensures "NOT_A_MODEL" !in TextEmbeddingModelKeys
  {
    assert |"NOT_A_MODEL"| == 11;
    assert "NOT_A_MODEL" !in TextKeysA by {
      assert |"MICROSOFT_MINILM_L12_V2"| == 23;
      assert |"CLIP_VIT_B_32_TEXTUAL"| == 21;
      assert |"BAAI_BGE_SMALL_EN"| == 17;
      assert |"THENLPER_GTE_BASE"| == 17;
      assert |"INTFLOAT_E5_BASE_V2"| == 19;
      assert |"MICROSOFT_MPNET_BASE_V2"| == 23;
    }
    assert "NOT_A_MODEL" !in TextKeysB by {
      assert |"MULTI_QA_MPNET_BASE_DOT_V1"| == 26;
      assert |"BAAI_BGE_BASE_EN"| == 16;
      assert |"THENLPER_GTE_LARGE"| == 18;
      assert |"LLMRAILS_EMBER_V1"| == 17;
      assert |"INTFLOAT_E5_LARGE_V2"| == 20;
      assert |"BAAI_BGE_LARGE_EN"| == 17;
    }
    assert "NOT_A_MODEL" !in TextKeysC by {
      assert |"JINAAI_EMBEDDINGS_V2_SMALL_EN"| == 29;
      assert |"JINAAI_EMBEDDINGS_V2_BASE_EN"| == 28;
      assert |("OPENAI_" + "ADA_002")| == 14;
      assert |("OPENAI_" + "SMALL_3")| == 14;
      assert |("OPENAI_" + "LARGE_3")| == 14;
      assert |("COHERE_" + "ENGLISH_V3_0")| == 19;
    }
    assert "NOT_A_MODEL" !in TextKeysD by {
      assert |("COHERE_" + "MULTILINGUAL_V3_0")| == 24;
      assert |("COHERE_" + "ENGLISH_V2_0")| == 19;
      assert |("COHERE_" + "ENGLISH_LIGHT_V2_0")| == 25;
      assert |("COHERE_" + "MULTILINGUAL_V2_0")| == 24;
      assert |("COHERE_" + "ENGLISH_LIGHT_V3_0")| == 25;
      assert |("COHERE_" + "MULTILINGUAL_LIGHT_V3_0")| == 30;
    }
  }

  /** A key outside a table resolves to nothing: here, one that no table has. */
  lemma UnknownKey(ns: Namespace)
    ensures Lookup(ns, "NOT_A_MODEL").None?
  {
    ProviderKeys();
    UnknownTextKey();
    assert "NOT_A_MODEL"[0] != "CLIP_VIT_B_32_VISUAL"[0];
  }
}
