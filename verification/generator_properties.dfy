/** Properties of the tool-configuration generator that relate its stages:
    when a generation fails and why, which reply feeds which field, what the
    schema and mapping stages can and cannot change, and how the extracted
    API configuration relates to the specification it came from. */
module GeneratorProperties {
  import opened Wrappers
  import opened JsonValues
  import opened Text
  import opened Urls
  import opened ApiRequests
  import opened ToolConfigs
  import opened ToolGenerator

  /** Stage 2 accepts a specification value. */
  ghost predicate SpecAccepted(spec: Json) {
    spec.JObj? && SpecMethod(spec.fields).JStr? && RejectedApiFields(spec.fields) == []
  }

  /** A generation fails exactly when stage 1 or stage 2 does: the docs are
      empty, the structured call failed or its text did not parse, or the
      value it produced is not an acceptable specification. */
  lemma GenerationFailsExactlyWhen(
    toolName: string, toolDescription: string, apiDocs: string,
    inputGuidance: Option<string>, outputGuidance: Option<string>,
    methods: set<string>, parse: Parser, replies: Replies)
    requires ValidMethodSet(methods)
    ensures GenerateToolConfig(toolName, toolDescription, apiDocs, inputGuidance, outputGuidance,
                               methods, parse, replies).result.Failure?
      <==> (|| apiDocs == ""
            || ReplyValue(replies.httpSpec, parse).None?
            || !SpecAccepted(ReplyValue(replies.httpSpec, parse).value))
  {
  }

  /** Why a generation failed, stage by stage, and which calls it made. */
  lemma FailureReasons(
    toolName: string, toolDescription: string, apiDocs: string,
    inputGuidance: Option<string>, outputGuidance: Option<string>,
    methods: set<string>, parse: Parser, replies: Replies)
    requires ValidMethodSet(methods)
    ensures var run := GenerateToolConfig(toolName, toolDescription, apiDocs, inputGuidance, outputGuidance,
                                          methods, parse, replies);
      && (apiDocs == "" ==> run.result.Failure? && run.result.error.RequestRejected? && run.calls == [])
      && (apiDocs != "" ==> |run.calls| >= 1 && run.calls[0] == StructuredCall(toolDescription, apiDocs))
      && (apiDocs != "" && replies.httpSpec.Failed? ==> run.result == Failure(CollaboratorFailed))
      && ((apiDocs != "" && replies.httpSpec.Answered? && replies.httpSpec.content.JStr?
           && parse(replies.httpSpec.content.s).None?) ==> run.result == Failure(UnparsableContent))
      && ((apiDocs != "" && ReplyValue(replies.httpSpec, parse).Some?
           && !ReplyValue(replies.httpSpec, parse).value.JObj?) ==> run.result == Failure(SpecNotMapping))
      && ((apiDocs != "" && ReplyValue(replies.httpSpec, parse).Some?
           && ReplyValue(replies.httpSpec, parse).value.JObj?
           && !SpecMethod(ReplyValue(replies.httpSpec, parse).value.fields).JStr?) ==> run.result == Failure(MethodNotString))
  {
  }

  /** On success, each field of the record comes from its own stage: the API
      configuration from the structured reply, the input schema from the
      first text reply, the output schema from the second, and the mapping
      from the two schemas. */
  lemma SuccessfulConfigSources(
    toolName: string, toolDescription: string, apiDocs: string,
    inputGuidance: Option<string>, outputGuidance: Option<string>,
    methods: set<string>, parse: Parser, replies: Replies)
    requires ValidMethodSet(methods)
    requires GenerateToolConfig(toolName, toolDescription, apiDocs, inputGuidance, outputGuidance,
                                methods, parse, replies).result.Success?
    ensures var config := GenerateToolConfig(toolName, toolDescription, apiDocs, inputGuidance, outputGuidance,
                                             methods, parse, replies).result.value;
      var spec := ReplyValue(replies.httpSpec, parse);
      && spec.Some?
      && Success(config.api) == ExtractApiConfig(spec.value, methods)
      && config.inputSchema == AbsorbSchemaReply(replies.inputSchema, parse)
      && config.outputSchema == AbsorbSchemaReply(replies.outputSchema, parse)
      && config.mapping == GenerateFieldMapping(spec.value, config.inputSchema, config.outputSchema, apiDocs)
  {
  }

  /** The schema replies never decide whether a generation fails, nor the
      API configuration it produces. */
  lemma SchemaRepliesNeverCauseFailure(
    toolName: string, toolDescription: string, apiDocs: string,
    inputGuidance: Option<string>, outputGuidance: Option<string>,
    methods: set<string>, parse: Parser, replies1: Replies, replies2: Replies)
    requires ValidMethodSet(methods)
    requires replies1.httpSpec == replies2.httpSpec
    ensures var run1 := GenerateToolConfig(toolName, toolDescription, apiDocs, inputGuidance, outputGuidance,
                                           methods, parse, replies1);
      var run2 := GenerateToolConfig(toolName, toolDescription, apiDocs, inputGuidance, outputGuidance,
                                     methods, parse, replies2);
      && (run1.result.Success? <==> run2.result.Success?)
      && (run1.result.Success? ==> run1.result.value.api == run2.result.value.api)
      && (run1.result.Failure? ==> run1 == run2)
  {
  }

  /** On success the mapping is the identity over each schema's property
      names whenever both schemas hold a properties mapping (or none), and
      it is empty otherwise. */
  lemma MappingFollowsSchemas(
    toolName: string, toolDescription: string, apiDocs: string,
    inputGuidance: Option<string>, outputGuidance: Option<string>,
    methods: set<string>, parse: Parser, replies: Replies)
    requires ValidMethodSet(methods)
    requires GenerateToolConfig(toolName, toolDescription, apiDocs, inputGuidance, outputGuidance,
                                methods, parse, replies).result.Success?
    ensures var config := GenerateToolConfig(toolName, toolDescription, apiDocs, inputGuidance, outputGuidance,
                                             methods, parse, replies).result.value;
      var inNames := PropertyNames(config.inputSchema);
      var outNames := PropertyNames(config.outputSchema);
      && (inNames.Some? && outNames.Some? ==>
            && config.mapping.inputToParams == IdentityMapping(inNames.value)
            && config.mapping.responseToOutput == IdentityMapping(outNames.value))
      && (inNames.None? || outNames.None? ==> config.mapping == EmptyFieldMapping)
      && config.mapping.inputToBody == map[]
      && config.mapping.responsePath == None
  {
    SuccessfulConfigSources(toolName, toolDescription, apiDocs, inputGuidance, outputGuidance, methods, parse, replies);
  }

  /** When both free-text calls fail, a successful generation still returns
      a full record, with the default schema twice and an empty mapping. */
  lemma TextFailuresGiveDefaults(
    toolName: string, toolDescription: string, apiDocs: string,
    inputGuidance: Option<string>, outputGuidance: Option<string>,
    methods: set<string>, parse: Parser, replies: Replies)
    requires ValidMethodSet(methods)
    requires replies.inputSchema == Failed && replies.outputSchema == Failed
    requires GenerateToolConfig(toolName, toolDescription, apiDocs, inputGuidance, outputGuidance,
                                methods, parse, replies).result.Success?
    ensures var config := GenerateToolConfig(toolName, toolDescription, apiDocs, inputGuidance, outputGuidance,
                                             methods, parse, replies).result.value;
      && config.name == toolName
      && config.enabled
      && config.inputSchema == DefaultSchema
      && config.outputSchema == DefaultSchema
      && config.mapping == EmptyFieldMapping
  {
    SuccessfulConfigSources(toolName, toolDescription, apiDocs, inputGuidance, outputGuidance, methods, parse, replies);
    DefaultSchemaHasNoProperties();
  }

  /** A generation request that passes validation always gets its
      structured call made: its docs are never the reason for failure. */
  lemma ValidRequestReachesCollaborator(request: GenerateToolConfigRequest, methods: set<string>, parse: Parser, replies: Replies)
    requires ValidGenerateToolConfigRequest(request)
    requires ValidMethodSet(methods)
    ensures var run := GenerateToolConfig(request.toolName, request.toolDescription, request.apiDocs,
                                          request.inputSchemaDescription, request.outputSchemaDescription,
                                          methods, parse, replies);
      && run.calls != []
      && run.calls[0] == StructuredCall(request.toolDescription, request.apiDocs)
      && !(run.result.Failure? && run.result.error.RequestRejected?)
  {
    assert request.apiDocs != "";
    FailureReasons(request.toolName, request.toolDescription, request.apiDocs,
                   request.inputSchemaDescription, request.outputSchemaDescription, methods, parse, replies);
  }

  /** Every call a generation makes sends a request that passes its
      model's validation: stage 1 calls only once its request validated,
      and a schema request always validates. */
  lemma EveryCallSendsValidRequest(
    toolName: string, toolDescription: string, apiDocs: string,
    inputGuidance: Option<string>, outputGuidance: Option<string>,
    methods: set<string>, parse: Parser, replies: Replies)
    requires ValidMethodSet(methods)
    ensures var run := GenerateToolConfig(toolName, toolDescription, apiDocs, inputGuidance, outputGuidance,
                                          methods, parse, replies);
      forall i | 0 <= i < |run.calls| :: ValidSentRequest(CallRequest(run.calls[i]))
  {
    var run := GenerateToolConfig(toolName, toolDescription, apiDocs, inputGuidance, outputGuidance,
                                  methods, parse, replies);
    FailureReasons(toolName, toolDescription, apiDocs, inputGuidance, outputGuidance, methods, parse, replies);
    var spec := HttpSpecRequest(toolDescription, apiDocs);
    forall i | 0 <= i < |run.calls|
      ensures ValidSentRequest(CallRequest(run.calls[i]))
    {
      if i == 0 {
        assert run.calls[0] == StructuredCall(toolDescription, apiDocs);
        assert ValidMcpPromptRequest(spec);
      } else {
        assert run.result.Success?;
        var c := run.calls[i];
        assert c.TextCall?;
        assert ValidPromptRequest(SchemaRequest(c.kind, c.toolDescription, c.apiDocs, c.guidance));
      }
    }
  }

  /** Stage 1 reads a text reply and a structured reply alike: a text that
      parses to a non-string value gives that value, just as the value
      handed back directly does. */
  lemma TextAndStructuredRepliesAgree(text: string, j: Json, parse: Parser)
    requires parse(text) == Some(j) && !j.JStr?
    ensures ReplyValue(Answered(JStr(text)), parse) == ReplyValue(Answered(j), parse) == Some(j)
  {
  }

  /** A reply yields no value exactly when the call failed or its text does
      not parse; structured content always yields itself. */
  lemma ReplyValueNoneIff(reply: Reply, parse: Parser)
    ensures ReplyValue(reply, parse).None? <==>
      (reply.Failed? || (reply.content.JStr? && parse(reply.content.s).None?))
    ensures reply.Answered? && !reply.content.JStr? ==> ReplyValue(reply, parse) == Some(reply.content)
  {
  }

  /** `schema.get("properties", {}).keys()` raises: the value is present and
      is not a mapping. */
  ghost predicate KeysRaise(schema: Schema) {
    !Get(schema, "properties", JObj(map[])).JObj?
  }

  /** The mapping stage over raw schemas: when taking either schema's
      property keys raises, the mapping is empty; otherwise its keys are
      those of `schema.get("properties", {})` for each side. */
  lemma MappingFromPropertyKeys(httpSpec: Json, inputSchema: Schema, outputSchema: Schema, apiDocs: string)
    ensures KeysRaise(inputSchema) || KeysRaise(outputSchema) ==>
      GenerateFieldMapping(httpSpec, inputSchema, outputSchema, apiDocs) == EmptyFieldMapping
    ensures !KeysRaise(inputSchema) && !KeysRaise(outputSchema) ==>
      var m := GenerateFieldMapping(httpSpec, inputSchema, outputSchema, apiDocs);
      && m.inputToParams.Keys == Get(inputSchema, "properties", JObj(map[])).fields.Keys
      && m.responseToOutput.Keys == Get(outputSchema, "properties", JObj(map[])).fields.Keys
  {
    var noFields: map<string, Json> := map[];
    assert noFields.Keys == {};
  }

  /** The default schema names no properties, so the mapping built over it
      is empty. */
  lemma DefaultSchemaHasNoProperties()
    ensures PropertyNames(DefaultSchema) == Some({})
    ensures IdentityMapping({}) == map[]
  {
    var noFields: map<string, Json> := map[];
    assert DefaultSchema["properties"] == JObj(noFields);
    assert noFields.Keys == {};
  }

  /** The schema stages run one algorithm: given the same reply, any two
      stages produce the same schema, and their requests differ only in the
      fixed text before the guidance. */
  lemma SchemaStagesShareAlgorithm(kind1: SchemaKind, kind2: SchemaKind, toolDescription: string, apiDocs: string,
                                   guidance: Option<string>, reply: Reply, parse: Parser)
    ensures GenerateSchema(kind1, toolDescription, apiDocs, guidance, reply, parse).schema
         == GenerateSchema(kind2, toolDescription, apiDocs, guidance, reply, parse).schema
    ensures var request1 := SchemaRequest(kind1, toolDescription, apiDocs, guidance);
      var request2 := SchemaRequest(kind2, toolDescription, apiDocs, guidance);
      && request1.context == request2.context
      && request1.responseFormatPrompt == request2.responseFormatPrompt
      && request1.instructions[|SchemaInstructionsBase(kind1, toolDescription)|..]
         == request2.instructions[|SchemaInstructionsBase(kind2, toolDescription)|..]
  {
  }

  /** The schema synthesiser's output is itself an acceptable reply: handing
      it back as a structured answer returns it unchanged. */
  lemma SchemaOutputIsFixpoint(reply: Reply, parse: Parser)
    ensures var schema := AbsorbSchemaReply(reply, parse);
      AbsorbSchemaReply(Answered(JObj(schema)), parse) == schema
  {
  }

  /** A specification written out from an API configuration, with the URL
      rebuilt as origin plus path. */
  function RenderSpec(api: ApiConfig): (spec: Json)
    ensures spec.JObj?
    ensures SpecUrl(spec.fields) == JStr(api.baseUrl + api.path)
    ensures SpecMethod(spec.fields) == JStr(api.httpMethod)
  {
    JObj(map[
      "method" := JStr(api.httpMethod),
      "url" := JStr(api.baseUrl + api.path),
      "headers" := FromStringMap(api.headers),
      "query_params" := FromStringMap(api.params)])
  }

  /** Extraction inverts rendering on every configuration the extractor can
      produce: a member method, no authentication, the fixed timeout, and an
      origin and path that form a well-formed split of their concatenation. */
  lemma {:induction false} ExtractInvertsRender(api: ApiConfig, methods: set<string>)
    requires ValidMethodSet(methods)
    requires api.httpMethod in methods
    requires api.auth == AuthConfig(NoAuth) && api.timeout == DefaultTimeout
    requires WellSplit(api.baseUrl + api.path, api.baseUrl, api.path)
    ensures ExtractApiConfig(RenderSpec(api), methods) == Success(api)
  {
    var spec := RenderSpec(api);
    StringMapRoundTrip(api.headers);
    StringMapRoundTrip(api.params);
    assert SpecHeaders(spec.fields) == FromStringMap(api.headers);
    assert SpecParams(spec.fields) == FromStringMap(api.params);
    assert IsUpper(api.httpMethod);
    var r := ExtractApiConfig(spec, methods);
    assert r.Success?;
    SplitUrlCharacterized(api.baseUrl + api.path, r.value.baseUrl, r.value.path);
    SplitUrlCharacterized(api.baseUrl + api.path, api.baseUrl, api.path);
    WellSplitUnique(api.baseUrl + api.path, r.value.baseUrl, r.value.path, api.baseUrl, api.path);
  }

  /** The extracted base and path are exactly the splitter's result on
      the specification's URL. */
  lemma ExtractUsesSplitUrl(spec: Json, methods: set<string>)
    requires ValidMethodSet(methods)
    requires ExtractApiConfig(spec, methods).Success?
    ensures var api := ExtractApiConfig(spec, methods).value;
      SplitUrl(SpecUrl(spec.fields).s) == (api.baseUrl, api.path)
  {
    var api := ExtractApiConfig(spec, methods).value;
    SplitUrlCharacterized(SpecUrl(spec.fields).s, api.baseUrl, api.path);
  }

  /** Every configuration the extractor produces is of that kind, so the
      round trip covers exactly the extractor's range. */
  lemma ExtractedConfigsAreRenderable(spec: Json, methods: set<string>)
    requires ValidMethodSet(methods)
    requires ExtractApiConfig(spec, methods).Success?
    ensures var api := ExtractApiConfig(spec, methods).value;
      && api.httpMethod in methods
      && api.auth == AuthConfig(NoAuth) && api.timeout == DefaultTimeout
      && WellSplit(api.baseUrl + api.path, api.baseUrl, api.path)
  {
  }
}
