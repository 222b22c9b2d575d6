/**
 * The typeorm adapter, src/typeorm/typeorm.js: the two bootstrap statements
 * as plain strings, for the caller to run, and the shared codec re-exported.
 */
module TypeOrm {

  /** `createLanternExtension()`: the statement that installs the extension. */
  function CreateLanternExtension(): string
  {
    "CREATE EXTENSION IF NOT EXISTS lantern"
  }

  /** `createLanternExtrasExtension()`: the statement that installs the extras extension. */
  function CreateLanternExtrasExtension(): string
  {
    "CREATE EXTENSION IF NOT EXISTS lantern_extras"
  }
}
