# Tool-configuration generator — a Dafny model

This project models the part of the dynamic-tools backend that turns a tool's
name, description and API documentation into a complete tool configuration,
together with the request and response records of the HTTP API around it.

The generator (`ToolConfigGenerator.generate_tool_config`) runs five stages in order:

1. It asks a language-model collaborator for an HTTP request specification. This is a structured call that is rejected up front when the docs are empty. This stage fails the generation when the docs are empty, the call fails, or a text reply does not parse.
2. It extracts the API configuration from that specification. The URL is split into an origin and a path by `_split_url`. The method is upper-cased and falls back to GET when it names no member of the method enumeration. Headers and query parameters are taken as they are. Authentication is none and the timeout is 30. This stage fails the generation when the specification is not a mapping, its method is not a string, or a field has the wrong type for `ApiConfig`. These failures and the stage-1 failures are the only ones.
3. It generates an input JSON Schema with a free-text call.
4. It generates an output JSON Schema the same way. Neither schema stage can fail: an unusable reply gives the default schema `{type: "object", properties: {}, required: []}`.
5. It builds an identity field mapping over the two schemas' property names.

The collaborator is not modelled. Its replies are inputs (`Replies`), and `json.loads` is a parameter of type `string -> Option<Json>`. Every run records the calls it made, so the models can state which calls happen and in what order. The request and response records are modelled as datatypes. For each record there is a declarative validity predicate and an error-list validator, and the two are proved to agree.

Modules:

- `Wrappers`: the `Option` and `Result` types.
- `JsonValues`: JSON values and the string-to-string view of an object.
- `Text`: substring search, `split(sep, 1)` and `upper()`.
- `Urls`: the URL splitter.
- `ApiRequests`: the request and response records and their validation.
- `ToolConfigs`: the configuration records.
- `ToolGenerator`: the stages and the orchestrator.
- `GeneratorProperties`: properties that span stages.
- `Scenarios`: concrete cases from the repository's tests and model examples.

## Model

| member | source | states |
|---|---|---|
| JsonValues.Get | backend/src/dynamic_tools/services/tool_generator.py:189-200 | `dict.get`: the stored value when the key is present, the default otherwise |
| JsonValues.GetLaws | backend/src/dynamic_tools/services/tool_generator.py:189-200 | the lookup laws of `dict.get`: a key just stored is found, storing another key leaves the lookup alone, and the empty mapping gives the default |
| JsonValues.AsStringMap | backend/src/dynamic_tools/services/tool_generator.py:197-207 | a JSON value is a string-to-string dictionary exactly when it is an object whose values are all strings; the dictionary has the same keys and the same values |
| JsonValues.StringMapRoundTrip | backend/src/dynamic_tools/services/tool_generator.py:197-207 | writing a dictionary as JSON and reading it back gives the same dictionary |
| Text.FindFrom | backend/src/dynamic_tools/services/tool_generator.py:232-233 | the result is the leftmost occurrence at or after the start index, and no occurrence exists when it returns nothing |
| Text.Find | backend/src/dynamic_tools/services/tool_generator.py:232 | `pat in s` holds exactly when a first occurrence is found, and the index found is the leftmost |
| Text.SplitOnce | backend/src/dynamic_tools/services/tool_generator.py:233-234 | `split(sep, 1)` returns one part exactly when the separator is absent. Otherwise it returns two parts that rebuild the string around the separator's leftmost occurrence |
| Text.Upper | backend/src/dynamic_tools/services/tool_generator.py:193 | `upper()` keeps the length and upper-cases each ASCII letter in place |
| Urls.HostStart | backend/src/dynamic_tools/services/tool_generator.py:232-233 | the host begins just after the leftmost "://", or at 0 when the URL has none |
| Urls.CutAtSlash | backend/src/dynamic_tools/services/tool_generator.py:234-241 | cutting at the first "/" rebuilds the text, the path is empty or starts with "/", and the part before it holds no "/" |
| Urls.SplitUrl | backend/src/dynamic_tools/services/tool_generator.py:220-243 | base + path is the URL, and the path is empty or starts with "/", with and without a scheme |
| Urls.SplitUrlIsWellSplit | backend/src/dynamic_tools/services/tool_generator.py:232-243 | the split is well formed: it rebuilds the URL, has a rooted or empty path, and has a slash-free host after the scheme |
| Urls.WellSplitUnique | backend/src/dynamic_tools/services/tool_generator.py:232-243 | a URL has at most one well-formed split |
| Urls.SplitUrlCharacterized | backend/src/dynamic_tools/services/tool_generator.py:220-243 | `SplitUrl(url) == (base, path)` holds exactly when `(base, path)` is a well-formed split of `url` |
| Urls.SplitUrlPathEmptyIff | backend/src/dynamic_tools/services/tool_generator.py:236-241 | the path is empty exactly when no "/" follows the host start |
| Urls.SplitUrlWithScheme | backend/src/dynamic_tools/services/tool_generator.py:232-235 | with "://" present, the base is the text before the leftmost "://", then "://", then a slash-free host |
| Urls.JoinedUrlSplits | backend/src/dynamic_tools/services/tool_generator.py:232-236 | splitting inverts joining: `scheme://host` + path splits back into its parts when the scheme has no colon and the host no slash |
| Urls.SchemelessUrlSplits | backend/src/dynamic_tools/services/tool_generator.py:237-241 | a colon-free URL is cut at its first "/" into host and path |
| ApiRequests.CheckLength | backend/src/dynamic_tools/models/api_requests.py:216-231 | a length-bounded string field reports at most one error, always under its own name, and reports none exactly when the length is within bounds |
| ApiRequests.CheckOptionalLength | backend/src/dynamic_tools/models/api_requests.py:233-242 | an optional field with a maximum length reports no error exactly when it is absent or short enough |
| ApiRequests.CheckLiteral | backend/src/dynamic_tools/models/api_requests.py:62-65 | a literal-typed field reports no error exactly when its value is one of the allowed values |
| ApiRequests.ValidatePromptRequest | backend/src/dynamic_tools/models/api_requests.py:20-32 | no errors exactly when the record is valid: the instructions are non-empty, and the context and format prompt are free |
| ApiRequests.ValidatePromptResponse | backend/src/dynamic_tools/models/api_requests.py:58-65 | no errors exactly when the type is "text" or "http_spec"; the content is unconstrained |
| ApiRequests.ValidateMcpPromptRequest | backend/src/dynamic_tools/models/api_requests.py:99-112 | no errors exactly when the instructions and the API docs are non-empty; each field is reported exactly when it breaks its bound |
| ApiRequests.ValidateExecuteResponse | backend/src/dynamic_tools/models/api_requests.py:169-181 | no errors exactly when the status is "success" or "error"; data and error are unconstrained |
| ApiRequests.ValidateGenerateToolConfigRequest | backend/src/dynamic_tools/models/api_requests.py:216-242 | no errors exactly when the name has 1..100 characters, the description 10..500, the docs at least 10, and each optional description at most 500; every field is reported exactly when it breaks its own bound |
| ApiRequests.ValidateGenerateToolConfigResponse | backend/src/dynamic_tools/models/api_requests.py:271-282 | no errors exactly when the status is "success" or "error" |
| ToolGenerator.ReplyValue | backend/src/dynamic_tools/services/tool_generator.py:165-169 | a failed call gives nothing, a text reply gives what the parser makes of it, and any other content is taken as it is |
| ToolGenerator.CallRequest | backend/src/dynamic_tools/services/tool_generator.py:155-162 | the request record each recorded call sends: the structured request carries the docs as API docs, and the schema request carries them as context |
| ToolGenerator.HttpSpecRequest | backend/src/dynamic_tools/services/tool_generator.py:155-159 | the structured request passes validation exactly when the API docs are non-empty |
| ToolGenerator.GenerateHttpSpec | backend/src/dynamic_tools/services/tool_generator.py:136-173 | empty docs fail before any call. Otherwise there is exactly one structured call, a failed call or an unparsable text fails, and success returns the reply's value |
| ToolGenerator.RejectedApiFields | backend/src/dynamic_tools/services/tool_generator.py:189-211 | no field is rejected exactly when the URL is a string and the headers and parameters are string-to-string objects |
| ToolGenerator.NormaliseMethod | backend/src/dynamic_tools/services/tool_generator.py:193-194 | the method is always a member of the enumeration: the upper-cased name when it is one, GET otherwise |
| ToolGenerator.ExtractApiConfig | backend/src/dynamic_tools/services/tool_generator.py:175-218 | fails on a non-mapping, a non-string method, or an ill-typed field, and succeeds exactly otherwise. On success: the URL is well split, the method is normalised, headers and parameters are copied, there is no authentication and the timeout is 30 |
| ToolGenerator.SchemaInstructionsBase | backend/src/dynamic_tools/services/tool_generator.py:269-273 | the instruction text without guidance is never empty, so the prompt request always validates |
| ToolGenerator.WithGuidance | backend/src/dynamic_tools/services/tool_generator.py:275-276 | the instructions keep their base as a prefix, and they grow exactly when the guidance is truthy, by the separator and the guidance |
| ToolGenerator.SchemaRequest | backend/src/dynamic_tools/services/tool_generator.py:280-284 | the schema prompt always passes validation, carries the docs as context, and asks for a bare JSON Schema |
| ToolGenerator.AbsorbSchemaReply | backend/src/dynamic_tools/services/tool_generator.py:288-314 | the result always has a "type": it is the reply's value when that is a mapping with a "type", and the default schema in every other case |
| ToolGenerator.GenerateSchema | backend/src/dynamic_tools/services/tool_generator.py:248-382 | a schema stage makes exactly one free-text call and returns the absorbed reply |
| ToolGenerator.PropertyNames | backend/src/dynamic_tools/services/tool_generator.py:407-412 | a schema without "properties" names nothing; otherwise its names are the keys of the properties mapping, and there is no answer (`None`) when the properties value is not a mapping, because taking its keys would raise |
| ToolGenerator.IdentityMapping | backend/src/dynamic_tools/services/tool_generator.py:411-419 | the mapping has exactly the given names as keys, each mapped to itself |
| ToolGenerator.GenerateFieldMapping | backend/src/dynamic_tools/services/tool_generator.py:384-435 | identity mappings over both schemas' property names, with an empty body mapping and no response path; the empty mapping when either schema's properties is not a mapping |
| ToolGenerator.BuildIdentityMapping | backend/src/dynamic_tools/services/tool_generator.py:411-419 | the key-by-key loop builds the identity mapping over the given names |
| ToolGenerator.GenerateToolConfig | backend/src/dynamic_tools/services/tool_generator.py:40-134 | success gives a fresh record (the caller's name and description, version 1, enabled, no tags, typed schemas) after exactly the structured call and the input and output text calls in that order; failure makes at most one call |
| ToolGenerator.AssembleToolConfig | backend/src/dynamic_tools/services/tool_generator.py:88-127 | stages 3-5 never fail, keep the extracted API configuration, and add the input and then the output schema call |
| GeneratorProperties.GenerationFailsExactlyWhen | backend/src/dynamic_tools/services/tool_generator.py:71-134 | a generation fails exactly when the docs are empty, the structured reply yields no value, or that value is not an acceptable specification |
| GeneratorProperties.FailureReasons | backend/src/dynamic_tools/services/tool_generator.py:153-218 | the error of each failing stage and the calls made before it: rejected request with no call, failed call, unparsable text, non-mapping, non-string method |
| GeneratorProperties.EveryCallSendsValidRequest | backend/src/dynamic_tools/services/tool_generator.py:155-162 | every request a generation sends passes its record's validation, so no call is refused by the request models |
| GeneratorProperties.TextAndStructuredRepliesAgree | backend/src/dynamic_tools/services/tool_generator.py:165-169 | a text reply that parses to a structured value is worth the same as that value handed back directly |
| GeneratorProperties.ReplyValueNoneIff | backend/src/dynamic_tools/services/tool_generator.py:165-169 | a reply yields no value exactly when the call failed or its text does not parse; non-text content is taken as it is |
| GeneratorProperties.MappingFromPropertyKeys | backend/src/dynamic_tools/services/tool_generator.py:405-435 | when taking either schema's property keys would raise, the mapping is the empty one; otherwise its two mappings have exactly the keys of the properties mappings |
| GeneratorProperties.SuccessfulConfigSources | backend/src/dynamic_tools/services/tool_generator.py:77-127 | each field of a generated record comes from its own stage and reply |
| GeneratorProperties.SchemaRepliesNeverCauseFailure | backend/src/dynamic_tools/services/tool_generator.py:307-314 | changing the schema replies never changes whether a generation succeeds, nor the API configuration it produces |
| GeneratorProperties.MappingFollowsSchemas | backend/src/dynamic_tools/services/tool_generator.py:105-125 | the mapping of a generated record is the identity over its schemas' property names, or empty |
| GeneratorProperties.TextFailuresGiveDefaults | backend/src/dynamic_tools/services/tool_generator.py:307-314 | when both text calls fail, a successful generation carries the default schema twice and an empty mapping |
| GeneratorProperties.ValidRequestReachesCollaborator | backend/src/dynamic_tools/models/api_requests.py:228-232 | a generation request that validates always gets its structured call made, and is never rejected for its docs |
| GeneratorProperties.DefaultSchemaHasNoProperties | backend/src/dynamic_tools/services/tool_generator.py:299-303 | the default schema names no properties, so its identity mapping is empty |
| GeneratorProperties.SchemaStagesShareAlgorithm | backend/src/dynamic_tools/services/tool_generator.py:248-382 | the input and output stages produce the same schema from the same reply; their requests differ only in the fixed text |
| GeneratorProperties.SchemaOutputIsFixpoint | backend/src/dynamic_tools/services/tool_generator.py:295-305 | a synthesised schema handed back as a structured reply comes back unchanged |
| GeneratorProperties.RenderSpec | backend/src/dynamic_tools/services/tool_generator.py:189-193 | the rendered specification carries the configuration's origin + path as its URL and its method |
| GeneratorProperties.ExtractInvertsRender | backend/src/dynamic_tools/services/tool_generator.py:175-218 | extraction inverts rendering on every configuration the extractor can produce |
| GeneratorProperties.ExtractedConfigsAreRenderable | backend/src/dynamic_tools/services/tool_generator.py:194-211 | every extracted configuration has a member method, no authentication, the fixed timeout, and a well-formed split |
| GeneratorProperties.ExtractUsesSplitUrl | backend/src/dynamic_tools/services/tool_generator.py:189-190 | the extracted base and path are the splitter's result on the specification's URL |
| Scenarios.SplitUnderTestOrigin | backend/tests/test_tool_generator.py:209-221 | every URL made of the test origin and an empty or rooted path splits back into the two, which covers the three URLs of the splitter's test |
| Scenarios.SplitFullUrl | backend/tests/test_tool_generator.py:209-211 | "https://api.example.com/v1/weather" splits into "https://api.example.com" and "/v1/weather" |
| Scenarios.SplitBareOrigin | backend/tests/test_tool_generator.py:263 | "https://example.com" is all origin |
| Scenarios.SplitWithoutScheme | backend/src/dynamic_tools/services/tool_generator.py:237-241 | a URL without a scheme is cut at its first "/" |
| Scenarios.ExtractMinimalSpec | backend/src/dynamic_tools/services/tool_generator.py:189-211 | a minimal specification with a lower-case method extracts to GET, the origin, an empty path, no headers, no authentication, timeout 30 |
| Scenarios.ExtractWeatherSpec | backend/tests/test_tool_generator.py:17-24 | the weather fixture extracts to the origin "https://api.openweathermap.org", the path "/data/2.5/weather", GET, its headers and parameters, no authentication and timeout 30 |
| Scenarios.SplitUnderWeatherOrigin | backend/tests/test_tool_generator.py:17-24 | every URL made of the weather origin and an empty or rooted path splits back into the two |
| Scenarios.WeatherUrlSplits | backend/tests/test_tool_generator.py:21 | the weather URL splits into its origin and "/data/2.5/weather" |
| Scenarios.UnknownMethodFallsBackToGet | backend/src/dynamic_tools/services/tool_generator.py:193-194 | a method outside the enumeration becomes GET, and a missing URL gives an empty base and path |
| Scenarios.NumericMethodFails | backend/src/dynamic_tools/services/tool_generator.py:193 | a non-string method fails extraction |
| Scenarios.ListSpecFails | backend/src/dynamic_tools/services/tool_generator.py:189 | a specification that is not a mapping fails extraction |
| Scenarios.CitySchemaReply | backend/tests/test_tool_generator.py:28-40 | a text reply parsing to the one-property fixture is kept as is, and maps `city` to itself |
| Scenarios.UnusableSchemaReplies | backend/src/dynamic_tools/services/tool_generator.py:295-314 | a mapping without "type", a non-mapping, unparsable text and a failed call all give the default schema |
| Scenarios.OnlyTypeKeyIsChecked | backend/src/dynamic_tools/services/tool_generator.py:296 | a mapping with any "type" is accepted as a schema, even with no properties |
| Scenarios.DescriptionLengthBounds | backend/src/dynamic_tools/models/api_requests.py:222-227 | descriptions of 9 and 501 characters are rejected, and 10 and 500 accepted |
| Scenarios.NameLengthBounds | backend/src/dynamic_tools/models/api_requests.py:216-221 | names of 0 and 101 characters are rejected, and 1 and 100 accepted |
| Scenarios.ExampleRequestIsValid | backend/src/dynamic_tools/models/api_requests.py:244-257 | the documented example generation request passes validation |
| Scenarios.LiteralFields | backend/src/dynamic_tools/models/api_requests.py:62-65 | the status and type literals admit exactly their listed values, whatever the optional fields hold |
| Scenarios.MinimalToolScenario | backend/tests/test_tool_generator.py:246-294 | the minimal-docs run returns an enabled record named "minimal_tool" after three calls, whatever the schema replies are |

## Left out

- The language-model collaborator (`PromptService`, the OpenAI client, retries): its replies are inputs, and only the calls made to it are recorded. The instruction texts of the schema calls are modelled by `SchemaRequest`, and the calls record their arguments.
- `json.loads`: a parameter `parse` that may return nothing; the JSON grammar is not modelled.
- Logging, `async`/`await`, concurrency, and `model_dump()`: the record itself stands for its dictionary form.
- Floating point: the timeout 30.0 is the integer 30, and JSON numbers are integers.
- Key order of Python dictionaries: maps are unordered.
- The `except` branch of `_split_url`: nothing in its body can raise on a string, so `Urls.SplitUrl` is total on strings.
- The pydantic definitions of `ApiConfig`, `ToolConfig`, `FieldMapping`, `AuthConfig` and `HttpMethod` (models/tool_config.py, models/enums.py) are not part of this model. The records themselves are modelled in `ToolConfigs` from the fields the generator sets, and the following are assumed:
  - `ApiConfig` takes a string URL and string-to-string headers and parameters. Anything else is rejected by stage 2 (`ToolGenerator.RejectedApiFields`).
  - The method enumeration is a set of upper-case names that includes GET (`ToolGenerator.ValidMethodSet`).
  - `FieldMapping()` is all-empty with no response path.
  - `ToolConfig`'s `metadata` defaults to an empty mapping.
- `ToolConfig` validation beyond the typing above (name patterns, schema checks) is not modelled. A generated record is always accepted.
- The `ExecuteRequest`, `HTTPRequestSpec` and `HTTPResponseSpec` models; the MCP server, its tools, resources and prompts; the HTTP entry point: all outside the generator core.
- Text.Upper: upper-cases ASCII letters only. Python's `str.upper()` also maps non-ASCII letters, e.g. 'ſ' to 'S', which could turn a non-ASCII method name into a member of the enumeration.
- ToolGenerator.NormaliseMethod: inherits the ASCII-only upper-casing of `Text.Upper`.
