/** The configuration records the generator assembles, shaped after the
    constructor calls that build them. */
module ToolConfigs {
  import opened Wrappers
  import opened JsonValues

  /** Authentication schemes; the generator only ever picks `NoAuth`, the
      others stand for the remaining members of the enumeration. */
  datatype AuthMethod = NoAuth | OtherAuth(name: string)

  datatype AuthConfig = AuthConfig(scheme: AuthMethod)

  /** How to call the API: origin, path, HTTP method name, headers, query
      parameters, authentication and timeout in seconds. */
  datatype ApiConfig = ApiConfig(
    baseUrl: string,
    path: string,
    httpMethod: string,
    headers: map<string, string>,
    params: map<string, string>,
    auth: AuthConfig,
    timeout: int)

  /** Correspondence between tool fields and API fields. */
  datatype FieldMapping = FieldMapping(
    inputToParams: map<string, string>,
    inputToBody: map<string, string>,
    responseToOutput: map<string, string>,
    responsePath: Option<string>)

  /** `FieldMapping()` with every field at its default. */
  const EmptyFieldMapping := FieldMapping(map[], map[], map[], None)

  /** A JSON-Schema-shaped description of a tool's inputs or outputs. */
  type Schema = map<string, Json>

  /** The complete binding of one API as a named tool. */
  datatype ToolConfig = ToolConfig(
    name: string,
    description: string,
    version: int,
    enabled: bool,
    api: ApiConfig,
    inputSchema: Schema,
    outputSchema: Schema,
    mapping: FieldMapping,
    tags: seq<string>,
    metadata: map<string, Json>)
}
