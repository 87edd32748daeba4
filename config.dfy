/** The configuration a caller hands to the server (src/types.d.ts): one
    record per domain with the schemas of its five operations and its views.
    The five optional per-operation fields of the source are kept as maps
    keyed by operation; a missing key is an absent (or falsy) field. */
module Config {
  import opened Js

  /** The five canonical operations. */
  datatype Op = Create | ReadOne | ReadMany | Update | Destroy

  /** The property name the source uses for an operation. */
  function OpName(op: Op): string {
    match op
    case Create => "create"
    case ReadOne => "readOne"
    case ReadMany => "readMany"
    case Update => "update"
    case Destroy => "destroy"
  }

  /** A JSON schema for one operation. What the foreign validator reads is
      kept opaque in `definition`; the two extensions the upload gate reads
      are explicit and `Undefined` when absent. */
  datatype Schema = Schema(definition: Value, acceptFiles: Value, acceptedKeys: Value)

  /** An input formatter receives the whole request, an output formatter the
      row the database returned; either may throw (or reject). */
  type InputFormatter = Request -> Completion<Value>
  type OutputFormatter = Value -> Completion<Value>

  /** `{input?, output?}`; `None` stands for a missing or falsy formatter. */
  datatype Formatters = Formatters(input: Option<InputFormatter>, output: Option<OutputFormatter>)

  /** `SchemasConfig`: the schemas by operation, the `keys` projection
      (`Undefined` when absent) and `formatters`, which is `None` when the
      whole `formatters` object is missing. */
  datatype SchemasConfig = SchemasConfig(
    schemas: map<Op, Schema>,
    keys: Value,
    formatters: Option<map<Op, Formatters>>)

  /** One page's view configuration: a template name and extra render data
      (`Undefined` when absent). */
  datatype ViewConfig = ViewConfig(template: string, data: Value)

  /** A domain: its schemas, and its views (`None` when `views` is missing). */
  datatype DomainConfig = DomainConfig(schemas: SchemasConfig, views: Option<map<Op, ViewConfig>>)

  /** The domains in `Object.entries` order. */
  type Domains = seq<(string, DomainConfig)>
}
