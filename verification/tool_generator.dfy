/** The tool-configuration generator: five stages that turn a tool name, a
    description and API documentation into a `ToolConfig`.

    The language-model collaborator is not called: each call's reply is an
    input (`Replies`), and each stage reports the calls it would make, in
    order, so that the call sequence can be stated. Parsing text as JSON is
    the parameter `parse`. */
module ToolGenerator {
  import opened Wrappers
  import opened JsonValues
  import opened Text
  import opened Urls
  import opened ApiRequests
  import opened ToolConfigs

  /** One reply of the collaborator: a failure (its own retries exhausted),
      or content: a JSON string when the model answered in text, any other
      JSON value when it answered with structured data. */
  datatype Reply = Failed | Answered(content: Json)

  /** The replies to the three calls, in the order the calls are made. */
  datatype Replies = Replies(httpSpec: Reply, inputSchema: Reply, outputSchema: Reply)

  /** Which schema a free-text call asks for. */
  datatype SchemaKind = InputSchemaKind | OutputSchemaKind

  /** A call to the collaborator, recorded by the arguments its request is
      built from: the structured call for the HTTP specification, or a
      free-text call for a schema. `CallRequest` gives the record it sends. */
  datatype Call =
    | StructuredCall(toolDescription: string, apiDocs: string)
    | TextCall(kind: SchemaKind, toolDescription: string, apiDocs: string, guidance: Option<string>)

  /** Why a generation failed. */
  datatype GenerationError =
    | RequestRejected(errors: seq<FieldError>)
    | CollaboratorFailed
    | UnparsableContent
    | SpecNotMapping
    | MethodNotString
    | ApiConfigRejected(fields: seq<string>)

  /** What a stage produced and the collaborator calls it made. */
  datatype Stage<T> = Stage(result: Result<T, GenerationError>, calls: seq<Call>)

  /** A JSON parser: the value a text denotes, or `None` when the text is not JSON. */
  type Parser = string -> Option<Json>

  /** How both stages that talk to the collaborator read its content: text
      is parsed, any other value is taken as it is; a failed call or an
      unparsable text gives nothing. */
  function ReplyValue(reply: Reply, parse: Parser): (v: Option<Json>)
    ensures reply.Failed? ==> v == None
    ensures reply.Answered? && reply.content.JStr? ==> v == parse(reply.content.s)
    ensures reply.Answered? && !reply.content.JStr? ==> v == Some(reply.content)
  {
    match reply
    case Failed => None
    case Answered(JStr(text)) => parse(text)
    case Answered(content) => Some(content)
  }

  /* ------------------------------------------------------------------
     Stage 1: the HTTP request specification (the only fatal stage). */

  const HttpSpecInstructionsPrefix := "Generate HTTP request specification for: "
  const HttpSpecFormatPrompt :=
    "Return a valid HTTP request specification with method, url, headers, query_params, and body fields"

  /** The structured prompt of stage 1. */
  function HttpSpecRequest(toolDescription: string, apiDocs: string): (r: McpPromptRequest)
    ensures r.apiDocs == apiDocs
    ensures ValidMcpPromptRequest(r) <==> apiDocs != ""
  {
    McpPromptRequest(HttpSpecInstructionsPrefix + toolDescription, apiDocs, Some(HttpSpecFormatPrompt))
  }

  /** Stage 1: build the request (rejected when the docs are empty, before
      any call), make the structured call, and read its content. */
  function GenerateHttpSpec(toolDescription: string, apiDocs: string, reply: Reply, parse: Parser): (s: Stage<Json>)
    ensures apiDocs == "" ==> s.calls == [] && s.result.Failure? && s.result.error.RequestRejected?
    ensures apiDocs != "" ==> s.calls == [StructuredCall(toolDescription, apiDocs)]
    ensures apiDocs != "" && reply.Failed? ==> s.result == Failure(CollaboratorFailed)
    ensures apiDocs != "" && reply.Answered? ==>
      (s.result.Success? <==> ReplyValue(reply, parse).Some?)
    ensures s.result.Success? ==> Some(s.result.value) == ReplyValue(reply, parse)
  {
    var request := HttpSpecRequest(toolDescription, apiDocs);
    var errors := ValidateMcpPromptRequest(request);
    if errors != [] then
      Stage(Failure(RequestRejected(errors)), [])
    else
      var calls := [StructuredCall(toolDescription, apiDocs)];
      match ReplyValue(reply, parse)
      case Some(spec) => Stage(Success(spec), calls)
      case None => Stage(Failure(if reply.Failed? then CollaboratorFailed else UnparsableContent), calls)
  }

  /* ------------------------------------------------------------------
     Stage 2: API configuration extraction. */

  /** The members of the HTTP method enumeration: upper-case names, GET
      among them. */
  predicate ValidMethodSet(methods: set<string>) {
    "GET" in methods && forall m | m in methods :: IsUpper(m)
  }

  const DefaultTimeout := 30

  /** The specification's fields as the extractor reads them, with their defaults. */
  function SpecUrl(spec: map<string, Json>): Json { Get(spec, "url", JStr("")) }
  function SpecMethod(spec: map<string, Json>): Json { Get(spec, "method", JStr("GET")) }
  function SpecHeaders(spec: map<string, Json>): Json { Get(spec, "headers", JObj(map[])) }
  function SpecParams(spec: map<string, Json>): Json { Get(spec, "query_params", JObj(map[])) }

  /** The `ApiConfig` fields whose values would not have their declared
      types: a non-string URL, headers or parameters that are not a
      string-to-string mapping. */
  function RejectedApiFields(spec: map<string, Json>): (fields: seq<string>)
    ensures fields == [] <==>
      SpecUrl(spec).JStr? && AsStringMap(SpecHeaders(spec)).Some? && AsStringMap(SpecParams(spec)).Some?
  {
    (if SpecUrl(spec).JStr? then [] else ["base_url"])
      + (if AsStringMap(SpecHeaders(spec)).Some? then [] else ["headers"])
      + (if AsStringMap(SpecParams(spec)).Some? then [] else ["params"])
  }

  /** The method name upper-cased when it names a member, GET otherwise. */
  function NormaliseMethod(name: string, methods: set<string>): (m: string)
    requires ValidMethodSet(methods)
    ensures m in methods
    ensures Upper(name) in methods ==> m == Upper(name)
    ensures Upper(name) !in methods ==> m == "GET"
  {
    var upper := Upper(name);
    if upper in methods then upper else "GET"
  }

  /** Stage 2: read url, method, headers and query parameters from the
      specification and build the `ApiConfig`. Fails when the specification
      is not a mapping, when its method is not a string, and when a field
      would not have its declared type. */
  function ExtractApiConfig(spec: Json, methods: set<string>): (r: Result<ApiConfig, GenerationError>)
    requires ValidMethodSet(methods)
    ensures !spec.JObj? ==> r == Failure(SpecNotMapping)
    ensures spec.JObj? && !SpecMethod(spec.fields).JStr? ==> r == Failure(MethodNotString)
    ensures r.Success? <==>
      spec.JObj? && SpecMethod(spec.fields).JStr? && RejectedApiFields(spec.fields) == []
    ensures r.Success? ==>
      && WellSplit(SpecUrl(spec.fields).s, r.value.baseUrl, r.value.path)
      && r.value.httpMethod == NormaliseMethod(SpecMethod(spec.fields).s, methods)
      && AsStringMap(SpecHeaders(spec.fields)) == Some(r.value.headers)
      && AsStringMap(SpecParams(spec.fields)) == Some(r.value.params)
      && r.value.auth == AuthConfig(NoAuth)
      && r.value.timeout == DefaultTimeout
  {
    if !spec.JObj? then Failure(SpecNotMapping)
    else
      var fields := spec.fields;
      var methodValue := SpecMethod(fields);
      if !methodValue.JStr? then Failure(MethodNotString)
      else
        var rejected := RejectedApiFields(fields);
        if rejected != [] then Failure(ApiConfigRejected(rejected))
        else
          var url := SpecUrl(fields).s;
          SplitUrlIsWellSplit(url);
          var (baseUrl, path) := SplitUrl(url);
          Success(ApiConfig(
            baseUrl, path,
            NormaliseMethod(methodValue.s, methods),
            AsStringMap(SpecHeaders(fields)).value,
            AsStringMap(SpecParams(fields)).value,
            AuthConfig(NoAuth),
            DefaultTimeout))
  }

  /* ------------------------------------------------------------------
     Stages 3 and 4: input and output schemas (never fatal). */

  /** The fixed instruction text of each schema stage, before and after the
      tool description. */
  function SchemaHead(kind: SchemaKind): (s: string)
    ensures |s| > 0
  {
    match kind
    case InputSchemaKind => "Generate a JSON Schema for the input parameters of this tool.\nTool: "
    case OutputSchemaKind => "Generate a JSON Schema for the output/response of this tool.\nTool: "
  }

  function SchemaTail(kind: SchemaKind): string {
    match kind
    case InputSchemaKind =>
      "\n\nThe schema should be a valid JSON Schema (draft-7) with type='object', properties, and required fields.\nFocus on extracting the key input parameters needed to call this API."
    case OutputSchemaKind =>
      "\n\nThe schema should be a valid JSON Schema (draft-7) with type='object', properties, and required fields.\nFocus on extracting the key output fields that this API returns."
  }

  /** The instruction text without guidance; never empty. */
  function SchemaInstructionsBase(kind: SchemaKind, toolDescription: string): (s: string)
    ensures |s| > 0
  {
    SchemaHead(kind) + toolDescription + SchemaTail(kind)
  }

  const GuidanceSeparator := "\n\nAdditional guidance: "
  const SchemaFormatPrompt := "Return ONLY valid JSON Schema, nothing else. Start with { and end with }"

  /** Python truthiness of an optional string: present and non-empty. */
  predicate Truthy(guidance: Option<string>) {
    guidance.Some? && guidance.value != ""
  }

  /** `base`, with the guidance appended after a separator exactly when the
      guidance is truthy. */
  function WithGuidance(base: string, guidance: Option<string>): (s: string)
    ensures base <= s
    ensures |s| > |base| <==> Truthy(guidance)
    ensures s[|base|..] == if Truthy(guidance) then GuidanceSeparator + guidance.value else ""
  {
    if Truthy(guidance) then
      assert (base + (GuidanceSeparator + guidance.value))[|base|..] == GuidanceSeparator + guidance.value;
      base + (GuidanceSeparator + guidance.value)
    else
      base
  }

  /** The instruction text of a schema stage. */
  function SchemaInstructions(kind: SchemaKind, toolDescription: string, guidance: Option<string>): string {
    WithGuidance(SchemaInstructionsBase(kind, toolDescription), guidance)
  }

  /** The free-text prompt of a schema stage; it always passes validation. */
  function SchemaRequest(kind: SchemaKind, toolDescription: string, apiDocs: string, guidance: Option<string>): (r: PromptRequest)
    ensures ValidPromptRequest(r)
    ensures r.context == Some(apiDocs)
    ensures r.responseFormatPrompt == Some(SchemaFormatPrompt)
  {
    PromptRequest(SchemaInstructions(kind, toolDescription, guidance), Some(apiDocs), Some(SchemaFormatPrompt))
  }

  /** A request record as it goes to the collaborator. */
  datatype SentRequest =
    | StructuredRequest(mcpRequest: McpPromptRequest)
    | TextRequest(promptRequest: PromptRequest)

  /** The request a recorded call sends. */
  function CallRequest(call: Call): (r: SentRequest)
    ensures call.StructuredCall? <==> r.StructuredRequest?
    ensures call.StructuredCall? ==> r.mcpRequest.apiDocs == call.apiDocs
    ensures call.TextCall? ==> r.promptRequest.context == Some(call.apiDocs)
  {
    match call
    case StructuredCall(toolDescription, apiDocs) => StructuredRequest(HttpSpecRequest(toolDescription, apiDocs))
    case TextCall(kind, toolDescription, apiDocs, guidance) =>
      TextRequest(SchemaRequest(kind, toolDescription, apiDocs, guidance))
  }

  /** The sent request passes the validation of its model. */
  ghost predicate ValidSentRequest(r: SentRequest) {
    match r
    case StructuredRequest(request) => ValidMcpPromptRequest(request)
    case TextRequest(request) => ValidPromptRequest(request)
  }

  /** `{type: "object", properties: {}, required: []}`. */
  const DefaultSchema: Schema :=
    map["type" := JStr("object"), "properties" := JObj(map[]), "required" := JArr([])]

  /** The only shape check the generator makes: a mapping with a "type" key. */
  predicate IsSchemaShaped(j: Json) {
    j.JObj? && "type" in j.fields
  }

  /** Keep the reply's value when it is schema-shaped, else the default. */
  function AbsorbSchemaReply(reply: Reply, parse: Parser): (schema: Schema)
    ensures "type" in schema
    ensures var v := ReplyValue(reply, parse);
      if v.Some? && IsSchemaShaped(v.value) then schema == v.value.fields else schema == DefaultSchema
  {
    match ReplyValue(reply, parse)
    case Some(value) => if IsSchemaShaped(value) then value.fields else DefaultSchema
    case None => DefaultSchema
  }

  /** A schema stage's result and its one call; the type has no failure. */
  datatype SchemaRun = SchemaRun(schema: Schema, calls: seq<Call>)

  /** Stages 3 and 4: one free-text call, its reply absorbed into a schema. */
  function GenerateSchema(kind: SchemaKind, toolDescription: string, apiDocs: string, guidance: Option<string>,
                          reply: Reply, parse: Parser): (r: SchemaRun)
    ensures "type" in r.schema
    ensures r.calls == [TextCall(kind, toolDescription, apiDocs, guidance)]
    ensures r.schema == AbsorbSchemaReply(reply, parse)
  {
    SchemaRun(AbsorbSchemaReply(reply, parse), [TextCall(kind, toolDescription, apiDocs, guidance)])
  }

  /* ------------------------------------------------------------------
     Stage 5: field mapping (never fatal). */

  /** The keys of `schema.get("properties", {})`, or `None` when that value
      is not a mapping (taking its keys would raise). */
  function PropertyNames(schema: Schema): (names: Option<set<string>>)
    ensures "properties" !in schema ==> names == Some({})
    ensures "properties" in schema ==>
      (names.Some? <==> schema["properties"].JObj?)
      && (names.Some? ==> names.value == schema["properties"].fields.Keys)
  {
    if "properties" !in schema then Some({})
    else match schema["properties"]
      case JObj(properties) => Some(properties.Keys)
      case _ => None
  }

  /** Each name mapped to itself. */
  function IdentityMapping(names: set<string>): (m: map<string, string>)
    ensures m.Keys == names
    ensures forall k | k in m :: m[k] == k
  {
    map k | k in names :: k
  }

  /** Stage 5: identity mappings over the property names of both schemas;
      the empty mapping when either schema's properties is not a mapping.
      The HTTP specification and the docs are accepted and not consulted. */
  function GenerateFieldMapping(httpSpec: Json, inputSchema: Schema, outputSchema: Schema, apiDocs: string): (m: FieldMapping)
    ensures PropertyNames(inputSchema).None? || PropertyNames(outputSchema).None? ==> m == EmptyFieldMapping
    ensures PropertyNames(inputSchema).Some? && PropertyNames(outputSchema).Some? ==>
      && m.inputToParams.Keys == PropertyNames(inputSchema).value
      && m.responseToOutput.Keys == PropertyNames(outputSchema).value
      && (forall k | k in m.inputToParams :: m.inputToParams[k] == k)
      && (forall k | k in m.responseToOutput :: m.responseToOutput[k] == k)
      && m.inputToBody == map[]
      && m.responsePath == None
  {
    match (PropertyNames(inputSchema), PropertyNames(outputSchema))
    case (Some(inputNames), Some(outputNames)) =>
      FieldMapping(IdentityMapping(inputNames), map[], IdentityMapping(outputNames), None)
    case _ => EmptyFieldMapping
  }

  /** The identity mapping built key by key, as the generator's loops do;
      it agrees with `IdentityMapping`. */
  method BuildIdentityMapping(names: set<string>) returns (m: map<string, string>)
    ensures m.Keys == names
    ensures forall k | k in m :: m[k] == k
    ensures m == IdentityMapping(names)
  {
    m := map[];
    var todo := names;
    while todo != {}
      invariant todo <= names
      invariant m.Keys == names - todo
      invariant forall k | k in m :: m[k] == k
      decreases todo
    {
      var key :| key in todo;
      m := m[key := key];
      todo := todo - {key};
    }
  }

  /* ------------------------------------------------------------------
     The orchestrator. */

  /** The fields every generated configuration carries from birth: the
      caller's name and description, version 1, enabled, no tags, no
      metadata, and schemas that have a "type". */
  predicate IsFreshConfig(c: ToolConfig, toolName: string, toolDescription: string) {
    && c.name == toolName
    && c.description == toolDescription
    && c.version == 1
    && c.enabled
    && c.tags == []
    && c.metadata == map[]
    && "type" in c.inputSchema
    && "type" in c.outputSchema
  }

  /** The calls of a generation that gets past stage 2: one structured call,
      then the input-schema and the output-schema text calls. */
  function FullCallSequence(toolDescription: string, apiDocs: string,
                            inputGuidance: Option<string>, outputGuidance: Option<string>): seq<Call>
  {
    [StructuredCall(toolDescription, apiDocs),
     TextCall(InputSchemaKind, toolDescription, apiDocs, inputGuidance),
     TextCall(OutputSchemaKind, toolDescription, apiDocs, outputGuidance)]
  }

  /** The five stages in order; only stages 1 and 2 can fail the call, and
      a failure returns no configuration. */
  function GenerateToolConfig(
    toolName: string,
    toolDescription: string,
    apiDocs: string,
    inputGuidance: Option<string>,
    outputGuidance: Option<string>,
    methods: set<string>,
    parse: Parser,
    replies: Replies): (run: Stage<ToolConfig>)
    requires ValidMethodSet(methods)
    ensures run.result.Success? ==> IsFreshConfig(run.result.value, toolName, toolDescription)
    ensures run.result.Success? ==> run.calls == FullCallSequence(toolDescription, apiDocs, inputGuidance, outputGuidance)
    ensures run.result.Failure? ==> |run.calls| <= 1
  {
    var spec := GenerateHttpSpec(toolDescription, apiDocs, replies.httpSpec, parse);
    match spec.result
    case Failure(e) => Stage(Failure(e), spec.calls)
    case Success(httpSpec) =>
      match ExtractApiConfig(httpSpec, methods)
      case Failure(e) => Stage(Failure(e), spec.calls)
      case Success(api) =>
        AssembleToolConfig(toolName, toolDescription, apiDocs, inputGuidance, outputGuidance,
                           parse, replies, spec.calls, httpSpec, api)
  }

  /** Stages 3 to 5 and the assembly of the record, after stages 1 and 2
      produced `httpSpec` and `api` and made the calls `specCalls`. */
  function AssembleToolConfig(
    toolName: string,
    toolDescription: string,
    apiDocs: string,
    inputGuidance: Option<string>,
    outputGuidance: Option<string>,
    parse: Parser,
    replies: Replies,
    specCalls: seq<Call>,
    httpSpec: Json,
    api: ApiConfig): (run: Stage<ToolConfig>)
    ensures run.result.Success?
    ensures IsFreshConfig(run.result.value, toolName, toolDescription)
    ensures run.result.value.api == api
    ensures run.calls == specCalls + [
      TextCall(InputSchemaKind, toolDescription, apiDocs, inputGuidance),
      TextCall(OutputSchemaKind, toolDescription, apiDocs, outputGuidance)]
  {
    var input := GenerateSchema(InputSchemaKind, toolDescription, apiDocs, inputGuidance, replies.inputSchema, parse);
    var output := GenerateSchema(OutputSchemaKind, toolDescription, apiDocs, outputGuidance, replies.outputSchema, parse);
    var mapping := GenerateFieldMapping(httpSpec, input.schema, output.schema, apiDocs);
    var config := ToolConfig(
      toolName, toolDescription, 1, true, api,
      input.schema, output.schema, mapping, [], map[]);
    Stage(Success(config), specCalls + input.calls + output.calls)
  }
}
