/**
 * The model-name lookups `getTextEmbeddingModelName` and
 * `getImageEmbeddingModelName`, which the adapters import from
 * src/_embeddings/models. That file is not part of this model, so the two
 * lookups are parameters: whatever names they return for a key, the
 * adapters build their fragments around them.
 */
module ModelNames {

  /** The two lookups from a model key to the model name the extension is given. */
  datatype Lookups = Lookups(text: string -> string, image: string -> string)
}
