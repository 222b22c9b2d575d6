# lantern-js adapters, modelled in Dafny

lantern-js connects the Lantern Postgres extension to seven JavaScript ORMs
and query builders: mikro-orm, kysely, drizzle-orm, knex, objection,
sequelize and typeorm. Each adapter provides builders for:

- the two `CREATE EXTENSION` statements;
- calls to the extension's embedding functions (`text_embedding`,
  `image_embedding`, `openai_embedding`, `cohere_embedding`);
- the three distance operators `<->` (L2), `<=>` (cosine) and `<+>`
  (Hamming).

Around the builders sit three shared pieces:

- a vector codec between number arrays and the Postgres array literal
  `{a,b,c}`;
- the constant tables of embedding-model keys;
- for sequelize, a wrapper around the dialect's `addIndexQuery` that adds a
  ` WITH (M=…, ef=…, dim=…, ef_construction=…)` clause to index creation.

The model, module by module:

- `Fragments` (fragments.dfy) is the common model of SQL fragments.
  - Every fragment constructor of the host libraries is the same datatype: literal text pieces with one parameter between each two neighbours. This covers `raw`, `em.raw`, `em.execute`, the kysely and drizzle `sql` tag, knex's `client.raw` and `objection.raw`.
  - A parameter is an identifier (`??`), a bound value (`?`) or a nested fragment.
  - `Template` renders a fragment as a knex-style query string. `Expanded` splices nested fragments in. `Bindings` lists what the driver is sent, in order.
  - `Bind` is how a tagged template treats an interpolated value: a fragment is spliced in, a column object becomes an identifier, and anything else is bound. `BindValue` is a `?` slot of a `raw` call, where a column object is bound like any value.
- `JsText` models the JavaScript built-ins the codec uses: `substring` (clamping and swapping its indices), `split` on one character, `join`, `String(n)` for integers, and `parseFloat` on integers.
- `SqlCodec` (src/_common/utils/sql.js) and `Utils` (src/_common/utils.js) are the two codecs.
- `EmbeddingModels` (src/_embeddings/enums.js) holds the four model tables as constant maps.
- `ModelNames` makes the model-name lookups of src/_embeddings/models into parameters. That file is not part of this model.
- `HostObjects` models the objects the adapters extend in place: a `Host` class with a map of members, and the tables of builders each `extend` installs.
- `MikroOrm`, `Kysely`, `DrizzleOrm`, `Knex`, `Objection`, `TypeOrm` and `Sequelize` model one adapter each.
- `Consistency` relates the adapters to each other.

Behaviour of the code worth knowing, which the model follows as written:

- `fromSql("{}")` is `[NaN]` (modelled as `[None]`), not the empty list (`SqlCodec.EmptyVector`).
- Calling `supportIndexes` twice wraps the wrapper, so the clause is appended twice (`Sequelize.PatchedTwice`).
- `cohereEmbedding` resolves its key with the image lookup, in mikro-orm and in kysely.
- knex's generation builders write the model name and the value into the query text unescaped (`Knex.InlinedQuotes`).

## Model

| member | source | states |
|---|---|---|
| JsText.Split | src/_common/utils/sql.js:4 | `split(',')` gives one more piece than there are separators, and no piece holds a separator |
| JsText.JoinSplit | src/_common/utils/sql.js:4 | joining the pieces of a split with the separator gives the text back |
| JsText.SplitJoin | src/_common/utils/sql.js:4-7 | splitting a join of separator-free pieces on the separator gives the pieces back |
| JsText.ParseFloatNumberToString | src/_common/utils/sql.js:5 | `parseFloat(String(n))` is `n` for every integer |
| JsText.ParseFloatSkipsSpace | src/_common/utils/sql.js:5 | a leading white-space character, any space separator included, does not change what `parseFloat` reads |
| JsText.Substring | src/_common/utils/sql.js:3 | `substring` returns the slice between its indices when they are in order and in range, and swaps them when they are reversed |
| SqlCodec.Encode | src/_common/utils/sql.js:7 | an array's literal is `{`, the element texts joined by `,` in order, `}`; it is `{}` exactly for the empty array |
| SqlCodec.ToSql | src/_common/utils/sql.js:7 | an array becomes its literal as a string; every other value is returned unchanged |
| SqlCodec.FromSql | src/_common/utils/sql.js:1-5 | the result has one element more than there are commas between the first and last characters |
| SqlCodec.RoundTrip | src/_common/utils/sql.js:1-7 | `fromSql(toSql(v))` gives back every element of a non-empty vector |
| SqlCodec.ToSqlRoundTrip | src/_common/utils/sql.js:1-7 | the same round trip, stated through `toSql` on an array value |
| SqlCodec.EmptyVector | src/_common/utils/sql.js:2-7 | `toSql([])` is `{}`, `fromSql("{}")` is one NaN, so the round trip fails for the empty vector |
| SqlCodec.FromSqlIgnoresOuterCharacters | src/_common/utils/sql.js:3 | `fromSql` drops the first and last characters without looking at them |
| SqlCodec.FromSqlShortText | src/_common/utils/sql.js:3 | a text of at most one character, other than `,`, is not trimmed, because `substring(1, 0)` swaps its bounds |
| Utils.ToSql | src/_common/utils.js:9 | an array gives a literal between braces; any other value throws, since it has no `join` |
| Utils.FromSql | src/_common/utils.js:3-7 | one result element more than there are commas inside the outer characters |
| Utils.FromSqlAgrees | src/_common/utils.js:3-7 | the older `fromSql` reads every text the way the shared one does |
| Utils.ToSqlAgrees | src/_common/utils.js:9 | on arrays both `toSql` functions write the same literal |
| Utils.ToSqlLength | src/_common/utils.js:9 | for n ≥ 1 elements the literal's length is the element texts' lengths, plus n − 1 commas, plus 2 |
| Utils.RoundTrip | src/_common/utils.js:3-9 | the older codec reads back every non-empty vector it writes |
| EmbeddingModels.Lookup | src/_embeddings/enums.js:1-44 | as an own-property lookup, a key that is not one of a table's own keys gives nothing; a text key names itself; a provider key gives the text entry under the provider-prefixed key |
| EmbeddingModels.TextKeysNameThemselves | src/_embeddings/enums.js:1-26 | every text key maps to itself, so the text table's keys and values are one set |
| EmbeddingModels.TextTableSize | src/_embeddings/enums.js:1-26 | the text table has 24 entries |
| EmbeddingModels.ImageTableSize | src/_embeddings/enums.js:28 | the image table has one entry |
| EmbeddingModels.OpenAITableSize | src/_embeddings/enums.js:30-34 | the OpenAI table has three entries |
| EmbeddingModels.CohereTableSize | src/_embeddings/enums.js:36-44 | the Cohere table has seven entries |
| EmbeddingModels.ProviderKeys | src/_embeddings/enums.js:30-44 | the key sets of the OpenAI and Cohere tables |
| EmbeddingModels.OpenAIAliases | src/_embeddings/enums.js:30-34 | each OpenAI value is the text value under `OPENAI_` followed by its key |
| EmbeddingModels.CohereAliases | src/_embeddings/enums.js:36-44 | each Cohere value is the text value under `COHERE_` followed by its key |
| EmbeddingModels.ProviderAliases | src/_embeddings/enums.js:30-44 | both alias facts together |
| EmbeddingModels.ProviderValueSets | src/_embeddings/enums.js:30-44 | the value sets of the two provider tables |
| EmbeddingModels.OpenAIValueCount | src/_embeddings/enums.js:30-34 | the OpenAI table names three different models |
| EmbeddingModels.CohereValueCount | src/_embeddings/enums.js:36-44 | the Cohere table names seven different models |
| EmbeddingModels.ProviderValuesDisjoint | src/_embeddings/enums.js:30-44 | no model is named by both provider tables |
| EmbeddingModels.ProviderNamesAreTextNames | src/_embeddings/enums.js:16-44 | every provider value is a text value |
| EmbeddingModels.FirstTextNameIsNoProviderName | src/_embeddings/enums.js:2 | the first text model is a text value that no provider table names |
| EmbeddingModels.ProviderValues | src/_embeddings/enums.js:1-44 | the provider value sets are disjoint, and their 10 values form a proper subset of the text values |
| EmbeddingModels.ImageIsNotText | src/_embeddings/enums.js:1-28 | the image value `CLIP_VIT_B_32_VISUAL` is not a text value |
| EmbeddingModels.UnknownKey | src/_embeddings/enums.js:1-44 | the key `NOT_A_MODEL`, which no table has, resolves to nothing in each of the four tables |
| Fragments.Token | src/kysely/kysely.js:46-56 | L2 is `<->`, cosine `<=>` and Hamming `<+>`: three characters, one between `<` and `>` |
| Fragments.TokenInjective | src/kysely/kysely.js:46-56 | different metrics have different operators |
| HostObjects.MethodNameInjective | src/mikro-orm/mikro-orm.js:16-67 | different builders are installed under different names |
| HostObjects.Installing | src/mikro-orm/mikro-orm.js:16-67 | the table of a set of builders has exactly their names as keys, each naming its builder |
| HostObjects.AllInstalled | src/mikro-orm/mikro-orm.js:16-67 | the eleven assignments in the source's order override the old members with the table of all builders |
| HostObjects.KnexBuilders | src/knex/knex.js:5-42 | knex's schema and query tables are disjoint and install every builder except openai and cohere |
| HostObjects.SchemaInstalled | src/knex/knex.js:5-11 | the two schema assignments override the old members with their table |
| HostObjects.QueryInstalled | src/knex/knex.js:14-42 | the seven query assignments override the old members with their table |
| HostObjects.Host.Assign | src/mikro-orm/mikro-orm.js:16 | assigning one member overwrites that name and changes nothing else |
| MikroOrm.Embedding | src/mikro-orm/mikro-orm.js:6-8 | `raw(query, values)` gives the query head, one `?` per value, `)`, and binds the values in order |
| MikroOrm.EmbeddingTemplate | src/mikro-orm/mikro-orm.js:6-8 | a call fragment's query text is its head, the `?`s separated by `, `, and `)` |
| MikroOrm.Distance | src/mikro-orm/mikro-orm.js:10-12 | the text is `?? op ?`, binding `[column, toSql(value)]`; a fragment value is spliced into the value slot |
| MikroOrm.CreateLanternExtension | src/mikro-orm/mikro-orm.js:16-18 | executes exactly `CREATE EXTENSION IF NOT EXISTS lantern`, with nothing bound |
| MikroOrm.CreateLanternExtrasExtension | src/mikro-orm/mikro-orm.js:20-22 | executes exactly `CREATE EXTENSION IF NOT EXISTS lantern_extras` |
| MikroOrm.GenerateTextEmbedding | src/mikro-orm/mikro-orm.js:25-28 | `SELECT text_embedding('<model>', ?)` with the text lookup's name in quotes and the value bound |
| MikroOrm.GenerateImageEmbedding | src/mikro-orm/mikro-orm.js:30-33 | `SELECT image_embedding('<model>', ?)` with the image lookup's name and the value bound |
| MikroOrm.TextEmbedding | src/mikro-orm/mikro-orm.js:36-39 | `text_embedding('<model>', ?)` binding the text |
| MikroOrm.ImageEmbedding | src/mikro-orm/mikro-orm.js:41-44 | `image_embedding('<model>', ?)` binding the url |
| MikroOrm.OpenAIEmbedding | src/mikro-orm/mikro-orm.js:46-49 | a truthy dimension gives `?, ?` binding `[text, dimension]`; a falsy one (0, null, "", missing) gives `?` binding `[text]` |
| MikroOrm.CohereEmbedding | src/mikro-orm/mikro-orm.js:51-54 | `cohere_embedding('<model>', ?)` with the model name from the image lookup |
| MikroOrm.L2Distance | src/mikro-orm/mikro-orm.js:57-59 | `?? <-> ?` binding the column and the encoded value |
| MikroOrm.CosineDistance | src/mikro-orm/mikro-orm.js:61-63 | `?? <=> ?` binding the column and the encoded value |
| MikroOrm.HammingDistance | src/mikro-orm/mikro-orm.js:65-67 | `?? <+> ?` binding the column and the encoded value |
| MikroOrm.Extend | src/mikro-orm/mikro-orm.js:14-68 | the entity manager's members become the old ones overridden by the eleven builders under their names |
| Kysely.CreateLanternExtension | src/kysely/kysely.js:5-7 | exactly `CREATE EXTENSION IF NOT EXISTS lantern`, no parameters |
| Kysely.CreateLanternExtrasExtension | src/kysely/kysely.js:9-11 | exactly `CREATE EXTENSION IF NOT EXISTS lantern_extras`, no parameters |
| Kysely.GenerateTextEmbedding | src/kysely/kysely.js:14-17 | `SELECT text_embedding(?, <value>)`: the model name is bound first, then the value |
| Kysely.GenerateImageEmbedding | src/kysely/kysely.js:19-22 | `SELECT image_embedding(?, <value>)`: the image model name bound first, then the value |
| Kysely.TextEmbedding | src/kysely/kysely.js:25-28 | `text_embedding(?, <text>)`, without `SELECT` |
| Kysely.ImageEmbedding | src/kysely/kysely.js:30-33 | `image_embedding(?, <url>)`, without `SELECT` |
| Kysely.OpenAIEmbedding | src/kysely/kysely.js:35-38 | three parameters for a truthy dimension, two otherwise, with the texts and bindings of each form |
| Kysely.CohereEmbedding | src/kysely/kysely.js:40-43 | `cohere_embedding(?, <text>)` with the model name from the image lookup |
| Kysely.Distance | src/kysely/kysely.js:46-56 | the column reference, the operator between spaces, then `toSql(value)` as the tag treats it |
| Kysely.DistanceOfFragment | src/kysely/kysely.js:46-56 | a fragment value passes through `toSql` and sits nested in the value slot, its bindings after the column |
| Kysely.L2Distance | src/kysely/kysely.js:46-48 | `?? <-> ` then the encoded value |
| Kysely.CosineDistance | src/kysely/kysely.js:50-52 | `?? <=> ` then the encoded value |
| Kysely.HammingDistance | src/kysely/kysely.js:54-56 | `?? <+> ` then the encoded value |
| Kysely.Extend | src/kysely/kysely.js:4-57 | the tag's members become the old ones overridden by the eleven builders |
| DrizzleOrm.CreateLanternExtension | src/drizzle-orm/drizzle-orm.js:7-9 | exactly `CREATE EXTENSION IF NOT EXISTS lantern` |
| DrizzleOrm.CreateLanternExtrasExtension | src/drizzle-orm/drizzle-orm.js:11-13 | exactly `CREATE EXTENSION IF NOT EXISTS lantern_extras` |
| DrizzleOrm.GenerateTextEmbedding | src/drizzle-orm/drizzle-orm.js:16-19 | `SELECT text_embedding(?, <value>)`, model name then value |
| DrizzleOrm.GenerateImageEmbedding | src/drizzle-orm/drizzle-orm.js:21-24 | `SELECT image_embedding(?, <value>)`, model name then value |
| DrizzleOrm.TextEmbedding | src/drizzle-orm/drizzle-orm.js:27-30 | the column sits in the second slot, after the bound model name; a schema column gives `text_embedding(?, ??)` |
| DrizzleOrm.ImageEmbedding | src/drizzle-orm/drizzle-orm.js:32-35 | the same with `image_embedding` and the image lookup |
| DrizzleOrm.L2Distance | src/drizzle-orm/drizzle-orm.js:38-41 | the column, ` <-> `, then `toSql(value)`: an array is encoded, anything else passes unchanged |
| DrizzleOrm.CosineDistance | src/drizzle-orm/drizzle-orm.js:43-46 | the same with ` <=> ` |
| DrizzleOrm.HammingDistance | src/drizzle-orm/drizzle-orm.js:48-51 | the same with ` <+> ` |
| DrizzleOrm.L2DistanceOfVector | src/drizzle-orm/drizzle-orm.js:38-41 | a schema column against a vector is `?? <-> ?` binding the column and the vector's literal |
| Knex.CreateLanternExtension | src/knex/knex.js:5-7 | exactly `CREATE EXTENSION IF NOT EXISTS lantern` |
| Knex.CreateLanternExtrasExtension | src/knex/knex.js:9-11 | exactly `CREATE EXTENSION IF NOT EXISTS lantern_extras` |
| Knex.Inlined | src/knex/knex.js:14-20 | `callee('<modelName>', '<value>')` written out in full, with nothing bound |
| Knex.GenerateTextEmbedding | src/knex/knex.js:14-16 | `SELECT text_embedding('<modelName>', '<value>')` with the model name used verbatim and nothing bound |
| Knex.GenerateImageEmbedding | src/knex/knex.js:18-20 | `SELECT image_embedding('<modelName>', '<value>')`, nothing bound |
| Knex.InlinedQuotes | src/knex/knex.js:14-20 | the statement's quotes are its own four plus every quote of the inputs: nothing is escaped |
| Knex.GenerateTextEmbeddingQuotes | src/knex/knex.js:14-16 | the quote count of the text generation statement |
| Knex.GenerateImageEmbeddingQuotes | src/knex/knex.js:18-20 | the quote count of the image generation statement |
| Knex.TextEmbedding | src/knex/knex.js:23-25 | `text_embedding('<modelName>', ??)` with the value passed as an identifier |
| Knex.ImageEmbedding | src/knex/knex.js:27-29 | `image_embedding('<modelName>', ??)` with the value passed as an identifier |
| Knex.L2Distance | src/knex/knex.js:32-34 | `?? <-> ?` with the column, then `toSql(value)` |
| Knex.CosineDistance | src/knex/knex.js:36-38 | `?? <=> ?` with the column, then `toSql(value)` |
| Knex.HammingDistance | src/knex/knex.js:40-42 | `?? <+> ?` with the column, then `toSql(value)` |
| Knex.Load | src/knex/knex.js:5-42 | the schema builder gains the two bootstrap builders and the query builder the seven others; nothing else changes |
| Objection.L2Distance | src/objection/objection.js:19-21 | `?? <-> ?` with the column, then `toSql(value)`: an array's literal is bound, a string passes unchanged |
| Sequelize.SettingText | src/sequelize/sequelize.js:19 | a setting is written as JavaScript writes it into a template literal |
| Sequelize.WithParamsPushed | src/sequelize/sequelize.js:18-32 | the four pushes give the entries of the defined settings among M, ef, dim, ef_construction, in that order |
| Sequelize.PushedSelected | src/sequelize/sequelize.js:18-32 | the j-th entry is `name=value` for the j-th defined setting |
| Sequelize.SelectedIncreasing | src/sequelize/sequelize.js:18-32 | the settings are written in increasing position order |
| Sequelize.DefinedIsSelected | src/sequelize/sequelize.js:18-32 | every defined setting is written |
| Sequelize.KeyOfEntry | src/sequelize/sequelize.js:19 | the text of an entry before its `=` is the setting's name |
| Sequelize.NamesDistinct | src/sequelize/sequelize.js:15 | the four setting names differ and hold no `=` |
| Sequelize.KeysSelected | src/sequelize/sequelize.js:18-32 | the j-th key of `params` is the name of the j-th defined setting |
| Sequelize.DefinedSettingWritten | src/sequelize/sequelize.js:18-32 | a defined setting appears as `name=value` |
| Sequelize.KeyPresentIffDefined | src/sequelize/sequelize.js:18-32 | a setting's name is a key of `params` if and only if the setting is not undefined |
| Sequelize.KeysInOrder | src/sequelize/sequelize.js:18-32 | any two keys of `params` follow the order M, ef, dim, ef_construction |
| Sequelize.ParamsCount | src/sequelize/sequelize.js:18-32 | `params` has one entry per defined setting |
| Sequelize.EmptyWithClause | src/sequelize/sequelize.js:34 | a truthy `with` with every setting undefined appends ` WITH ()` |
| Sequelize.TwoSettingsClause | src/sequelize/sequelize.js:14-34 | `{ M: 16, ef_construction: 64 }` appends ` WITH (M=16, ef_construction=64)` |
| Sequelize.Run | src/sequelize/sequelize.js:10-34 | the native query is always a prefix of what an installed `addIndexQuery` returns |
| Sequelize.LanternAddIndexQuery | src/sequelize/sequelize.js:8-38 | the wrapper's pushes and `+=` compute the saved function's query followed by the clause for a truthy `with` |
| Sequelize.WrapperAppends | src/sequelize/sequelize.js:10-37 | without `with` the saved query is returned exactly; with it, the saved query followed by ` WITH (` + the entries joined by `, ` + `)` |
| Sequelize.SupportIndexes | src/sequelize/sequelize.js:43-47 | the weak-map entry holds the pre-patch `addIndexQuery`, and the installed function wraps it |
| Sequelize.PatchedOnce | src/sequelize/sequelize.js:5-47 | after one patch the query is the native one plus the suffix |
| Sequelize.PatchedTwice | src/sequelize/sequelize.js:5-47 | after a second patch the suffix is appended twice |
| Sequelize.Distance | src/sequelize/sequelize.js:49-53 | the quoted column, the operator and the escaped literal, between single spaces; a non-array value throws in `toSql` |
| Sequelize.L2 | src/sequelize/sequelize.js:55-57 | the literal with `<->` |
| Sequelize.Cosine | src/sequelize/sequelize.js:59-61 | the literal with `<=>` |
| Sequelize.Hamming | src/sequelize/sequelize.js:63-65 | the literal with `<+>` |
| Consistency.BootstrapStatementsAgree | src/typeorm/typeorm.js:6-8 | every adapter's bootstrap statements are the two strings typeorm returns |
| Consistency.BootstrapStatementsDiffer | src/typeorm/typeorm.js:6-8 | the extension statement is a proper prefix of the extras statement |
| Consistency.RawL2DistancesAgree | src/objection/objection.js:19-21 | mikro-orm's, knex's and objection's `l2Distance` build the same fragment |
| Consistency.RawDistance | src/knex/knex.js:32-42 | the knex-style distance of each metric, with its text, expansion and bindings |
| Consistency.TaggedDistanceAgrees | src/kysely/kysely.js:46-56 | kysely's tagged distance and the `raw` one agree on text, expansion and bindings for every value but a column object |
| Consistency.ColumnValueDiffers | src/kysely/kysely.js:46-56 | a column object is a second identifier under the tag but a bound value under `raw` |
| Consistency.DrizzleDistanceIsKysely | src/drizzle-orm/drizzle-orm.js:38-51 | drizzle's distance of a schema column is kysely's distance of the column's name |
| Consistency.DrizzleBuildersAreKysely | src/drizzle-orm/drizzle-orm.js:16-35 | drizzle's generation and literal builders build kysely's fragments |
| Consistency.ModelNameInlinedOrBound | src/mikro-orm/mikro-orm.js:25-28 | mikro-orm writes the model name into the text where kysely binds it |
| Consistency.InlinedRawDistance | src/knex/knex.js:32-42 | the knex distance with the column quoted in and the vector literal escaped in |
| Consistency.SequelizeIsRawInlined | src/sequelize/sequelize.js:49-53 | the sequelize literal for a vector is the knex query with its placeholders filled in by the dialect |

## Left out

- Floating point: vector elements are integers, `String(n)` writes integers only, and `parseFloat` reads an optional sign and a run of digits after leading white space. Decimals, exponents, `Infinity` and `NaN` inputs are not modelled; NaN results are `None`.
- Strings are sequences of characters, while JavaScript's `length` and `substring` count UTF-16 code units. The two agree except for characters outside the Basic Multilingual Plane.
- SqlCodec.FromSqlIgnoresOuterCharacters: holds in JavaScript only when the first and last characters are single UTF-16 code units. For `"😀1😀"` JavaScript keeps half of each emoji and reads NaN, while the model reads 1.
- JsText.Substring: indices count characters, not UTF-16 code units, so it differs from `substring` on text holding characters outside the Basic Multilingual Plane.
- EmbeddingModels.Lookup: an own-property lookup. Names inherited from `Object.prototype`, such as `toString`, `constructor` or `hasOwnProperty`, give a function in JavaScript but `None` in the model.
- The model-name lookups `getTextEmbeddingModelName` and `getImageEmbeddingModelName`: src/_embeddings/models is not part of this model. They are parameters (`ModelNames.Lookups`), and nothing is assumed about their behaviour on unknown keys.
- Execution: `em.execute`, promises and the database round trip. A mikro-orm bootstrap or generation builder is modelled as the statement it executes.
- The choice between `raw` and `em.raw` in mikro-orm: both build the same fragment, so the model has one.
- Quoting and escaping (`sql.ref`, `quoteIdentifier`, `sequelize.escape`) and `sequelize.literal`: the first are given functions (`Sequelize.Dialect`), the last is a plain datatype.
- knex's prototype-extension mechanism (`SchemaBuilder.extend`, `QueryBuilder.extend`), including the error it raises for a name that already exists: extending is modelled as assigning a member of a `Host`.
- The sequelize weak map: the instance's entry is a field holding the saved function. No other instance, and no garbage collection, is modelled.
- The sequelize dialect's own `addIndexQuery`: its result is a parameter `native`, and its text is not modelled.
- Sequelize.LanternAddIndexQuery: `attributes` is always present, and a truthy non-object `with` is not distinguished from an object whose settings are all undefined. A setting that is an object or an array is not modelled.
- Knex.GenerateTextEmbedding, Knex.GenerateImageEmbedding and Knex.Inlined: the value is the string the template literal writes into the text. How other JavaScript values turn into text is not modelled.
- The `fromSql`/`toSql` re-exports of drizzle-orm, knex, objection, kysely, mikro-orm and typeorm are the `SqlCodec` functions themselves: they have no logic of their own.
- The builders that objection.js leaves commented out (src/objection/objection.js:8-16 and 23-29) are not modelled, because the module does not export them.
- TypeOrm.CreateLanternExtension and TypeOrm.CreateLanternExtrasExtension return constant strings. They carry no contract of their own; `Consistency.BootstrapStatementsAgree` states their text.
- Tests, type declarations, src/index.js and src/_embeddings/embeddings.js hold no logic of the core.
