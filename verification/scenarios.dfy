/** Concrete cases taken from the generator's tests and from the field
    constraints of the request models. */
module Scenarios {
  import opened Wrappers
  import opened JsonValues
  import opened Text
  import opened Urls
  import opened ApiRequests
  import opened ToolConfigs
  import opened ToolGenerator
  import opened GeneratorProperties

  /** A string of `n` copies of one letter. */
  function Letters(n: nat): (s: string)
    ensures |s| == n
  {
    seq(n, _ => 'a')
  }

  /** Every URL under the test origin splits into that origin and its
      (empty or rooted) path. */
  lemma SplitUnderTestOrigin(url: string, path: string)
    requires path == "" || path[0] == '/'
    requires url == "https://api.example.com" + path
    ensures SplitUrl(url) == ("https://api.example.com", path)
  {
    var scheme, host := "https", "api.example.com";
    assert "https://api.example.com" == scheme + SchemeSeparator + host;
    JoinedUrlSplits(scheme, host, path);
  }

  /** The weather fixture's origin as scheme, "://" and a slash-free host. */
  lemma WeatherOriginParts()
    ensures "https://api.openweathermap.org" == "https" + SchemeSeparator + "api.openweathermap.org"
    ensures NoColon("https") && NoSlash("api.openweathermap.org")
  {
  }

  /** Every URL under the weather fixture's origin splits into that origin
      and its (empty or rooted) path. */
  lemma SplitUnderWeatherOrigin(url: string, path: string)
    requires path == "" || path[0] == '/'
    requires url == "https://api.openweathermap.org" + path
    ensures SplitUrl(url) == ("https://api.openweathermap.org", path)
  {
    WeatherOriginParts();
    JoinedUrlSplits("https", "api.openweathermap.org", path);
  }

  /** The full URL of the splitter's test. */
  lemma SplitFullUrl(url: string)
    requires url == "https://api.example.com/v1/weather"
    ensures SplitUrl(url) == ("https://api.example.com", "/v1/weather")
  {
    SplitUnderTestOrigin(url, "/v1/weather");
  }

  /** The origin of the minimal specification of the tests. */
  lemma SplitBareOrigin(url: string)
    requires url == "https://example.com"
    ensures SplitUrl(url) == ("https://example.com", "")
  {
    var scheme, host, path := "https", "example.com", "";
    assert url == scheme + SchemeSeparator + host + path;
    JoinedUrlSplits(scheme, host, path);
  }

  /** A URL without a scheme is cut at its first slash. */
  lemma SplitWithoutScheme(url: string)
    requires url == "example.com/a/b"
    ensures SplitUrl(url) == ("example.com", "/a/b")
  {
    var host, path := "example.com", "/a/b";
    assert url == host + path;
    SchemelessUrlSplits(host, path);
  }

  /** The minimal structured reply of the tests: a lower-case method is
      upper-cased, the origin has no path, no authentication, timeout 30. */
  lemma ExtractMinimalSpec(spec: Json, methods: set<string>)
    requires ValidMethodSet(methods)
    requires spec == JObj(map[
      "method" := JStr("get"),
      "url" := JStr("https://example.com"),
      "headers" := JObj(map[]),
      "query_params" := JObj(map[])])
    ensures var api := ExtractApiConfig(spec, methods);
      && api.Success?
      && api.value.baseUrl == "https://example.com"
      && api.value.path == ""
      && api.value.httpMethod == "GET"
      && api.value.headers == map[]
      && api.value.params == map[]
      && api.value.auth == AuthConfig(NoAuth)
      && api.value.timeout == 30
  {
    var fields := spec.fields;
    var noFields: map<string, Json> := map[];
    assert SpecHeaders(fields) == JObj(noFields) && SpecParams(fields) == JObj(noFields);
    var name := SpecMethod(fields).s;
    assert name == "get";
    assert Upper(name) == "GET";
    assert SpecUrl(fields) == JStr("https://example.com");
    SplitBareOrigin(SpecUrl(fields).s);
    ExtractUsesSplitUrl(spec, methods);
  }

  /** The weather specification of the tests. */
  lemma ExtractWeatherSpec(spec: Json, methods: set<string>)
    requires ValidMethodSet(methods)
    requires spec == JObj(map[
      "method" := JStr("GET"),
      "url" := JStr("https://api.openweathermap.org/data/2.5/weather"),
      "headers" := JObj(map["Accept" := JStr("application/json")]),
      "query_params" := JObj(map["q" := JStr("city"), "appid" := JStr("key")])])
    ensures var api := ExtractApiConfig(spec, methods);
      && api.Success?
      && api.value.baseUrl == "https://api.openweathermap.org"
      && api.value.path == "/data/2.5/weather"
      && api.value.httpMethod == "GET"
      && api.value.headers == map["Accept" := "application/json"]
      && api.value.params == map["q" := "city", "appid" := "key"]
      && api.value.auth == AuthConfig(NoAuth)
      && api.value.timeout == 30
  {
    var fields := spec.fields;
    var name := SpecMethod(fields).s;
    assert name == "GET";
    assert Upper(name) == "GET";
    assert SpecUrl(fields) == JStr("https://api.openweathermap.org/data/2.5/weather");
    var headers, params := map["Accept" := "application/json"], map["q" := "city", "appid" := "key"];
    assert SpecHeaders(fields) == FromStringMap(headers);
    assert SpecParams(fields) == FromStringMap(params);
    StringMapRoundTrip(headers);
    StringMapRoundTrip(params);
    WeatherUrlSplits();
    ExtractUsesSplitUrl(spec, methods);
  }

  /** The weather URL splits after its host. */
  lemma WeatherUrlSplits()
    ensures SplitUrl("https://api.openweathermap.org/data/2.5/weather")
         == ("https://api.openweathermap.org", "/data/2.5/weather")
  {
    var url, path := "https://api.openweathermap.org/data/2.5/weather", "/data/2.5/weather";
    assert url == "https://api.openweathermap.org" + path;
    SplitUnderWeatherOrigin(url, path);
  }

  /** A method outside the enumeration falls back to GET. */
  lemma UnknownMethodFallsBackToGet(methods: set<string>)
    requires ValidMethodSet(methods)
    requires "FETCH" !in methods
    ensures var api := ExtractApiConfig(JObj(map["method" := JStr("fetch")]), methods);
      api.Success? && api.value.httpMethod == "GET" && api.value.baseUrl == "" && api.value.path == ""
  {
    var name := "fetch";
    assert Upper(name) == "FETCH";
    var fields := map["method" := JStr(name)];
    assert SpecUrl(fields) == JStr("");
    SchemelessUrlSplits("", "");
    ExtractUsesSplitUrl(JObj(fields), methods);
  }

  /** A specification whose method is not a string fails stage 2. */
  lemma NumericMethodFails(methods: set<string>)
    requires ValidMethodSet(methods)
    ensures ExtractApiConfig(JObj(map["method" := JNum(1)]), methods) == Failure(MethodNotString)
  {
  }

  /** A list where a mapping belongs fails stage 2. */
  lemma ListSpecFails(methods: set<string>)
    requires ValidMethodSet(methods)
    ensures ExtractApiConfig(JArr([]), methods) == Failure(SpecNotMapping)
  {
  }

  /** The model's text answer with one `city` property is kept as it was
      parsed, and the mapping sends `city` to itself. */
  lemma CitySchemaReply(text: string, parse: Parser)
    requires parse(text) == Some(JObj(map[
      "type" := JStr("object"),
      "properties" := JObj(map["city" := JObj(map["type" := JStr("string"), "description" := JStr("City name")])]),
      "required" := JArr([JStr("city")])]))
    ensures var schema := AbsorbSchemaReply(Answered(JStr(text)), parse);
      && schema == parse(text).value.fields
      && GenerateFieldMapping(JNull, schema, DefaultSchema, "").inputToParams == map["city" := "city"]
  {
    var schema := AbsorbSchemaReply(Answered(JStr(text)), parse);
    assert ReplyValue(Answered(JStr(text)), parse) == parse(text);
    var noFields: map<string, Json> := map[];
    assert DefaultSchema["properties"] == JObj(noFields);
    var properties := map["city" := JObj(map["type" := JStr("string"), "description" := JStr("City name")])];
    assert schema["properties"] == JObj(properties);
    assert properties.Keys == {"city"};
    assert PropertyNames(schema) == Some({"city"});
    assert IdentityMapping({"city"}) == map["city" := "city"];
  }

  /** A reply that is a mapping without "type", a reply that is not a
      mapping, and an unparsable text all give the default schema. */
  lemma UnusableSchemaReplies(text: string, parse: Parser)
    requires parse(text).None?
    ensures AbsorbSchemaReply(Answered(JObj(map["properties" := JObj(map[])])), parse) == DefaultSchema
    ensures AbsorbSchemaReply(Answered(JArr([])), parse) == DefaultSchema
    ensures AbsorbSchemaReply(Answered(JStr(text)), parse) == DefaultSchema
    ensures AbsorbSchemaReply(Failed, parse) == DefaultSchema
  {
  }

  /** A schema-shaped reply is kept even when its type is not "object" and
      it has no properties: "type" is the only key checked. */
  lemma OnlyTypeKeyIsChecked(parse: Parser)
    ensures AbsorbSchemaReply(Answered(JObj(map["type" := JStr("string")])), parse) == map["type" := JStr("string")]
  {
  }

  /** The generation request's bounds on the description: 9 characters are
      too few, 10 and 500 are accepted, 501 are too many. */
  lemma DescriptionLengthBounds(name: string, docs: string)
    requires 1 <= |name| <= 100 && |docs| >= 10
    ensures !ValidGenerateToolConfigRequest(GenerateToolConfigRequest(name, Letters(9), docs, None, None))
    ensures ValidGenerateToolConfigRequest(GenerateToolConfigRequest(name, Letters(10), docs, None, None))
    ensures ValidGenerateToolConfigRequest(GenerateToolConfigRequest(name, Letters(500), docs, None, None))
    ensures !ValidGenerateToolConfigRequest(GenerateToolConfigRequest(name, Letters(501), docs, None, None))
  {
  }

  /** The bounds on the tool name: empty is rejected, 1 and 100 characters
      are accepted, 101 are rejected. */
  lemma NameLengthBounds(description: string, docs: string)
    requires 10 <= |description| <= 500 && |docs| >= 10
    ensures !ValidGenerateToolConfigRequest(GenerateToolConfigRequest("", description, docs, None, None))
    ensures ValidGenerateToolConfigRequest(GenerateToolConfigRequest(Letters(1), description, docs, None, None))
    ensures ValidGenerateToolConfigRequest(GenerateToolConfigRequest(Letters(100), description, docs, None, None))
    ensures !ValidGenerateToolConfigRequest(GenerateToolConfigRequest(Letters(101), description, docs, None, None))
  {
  }

  /** The example request of the generation endpoint passes validation. */
  lemma ExampleRequestIsValid()
    ensures ValidateGenerateToolConfigRequest(GenerateToolConfigRequest(
      "get_weather",
      "Get current weather information for a city",
      "GET https://api.openweathermap.org/data/2.5/weather?q={city}&appid={key}",
      Some("city as string parameter"),
      Some("temperature, humidity, conditions as strings"))) == []
  {
  }

  /** Status and type literals admit exactly their listed values; nothing
      ties the presence of `error` to the status. */
  lemma LiteralFields(content: Json, data: Option<Json>, toolConfig: Option<map<string, Json>>, error: Option<string>)
    ensures ValidPromptResponse(PromptResponse(content, "text"))
    ensures ValidPromptResponse(PromptResponse(content, "http_spec"))
    ensures !ValidPromptResponse(PromptResponse(content, "json"))
    ensures ValidExecuteResponse(ExecuteResponse("success", data, error))
    ensures ValidExecuteResponse(ExecuteResponse("error", data, error))
    ensures !ValidExecuteResponse(ExecuteResponse("failed", data, error))
    ensures ValidGenerateToolConfigResponse(GenerateToolConfigResponse("success", toolConfig, error))
    ensures ValidGenerateToolConfigResponse(GenerateToolConfigResponse("error", toolConfig, error))
    ensures !ValidGenerateToolConfigResponse(GenerateToolConfigResponse("ok", toolConfig, error))
  {
  }

  /** The minimal-docs scenario: whatever the two text calls answer, a
      structured reply holding only a method and an origin yields a complete,
      enabled record named as requested, after exactly three calls. */
  lemma MinimalToolScenario(spec: Json, inputReply: Reply, outputReply: Reply, methods: set<string>, parse: Parser)
    requires ValidMethodSet(methods)
    requires spec == JObj(map[
      "method" := JStr("GET"),
      "url" := JStr("https://example.com"),
      "headers" := JObj(map[]),
      "query_params" := JObj(map[])])
    ensures var run := GenerateToolConfig("minimal_tool", "Tool with minimal API docs", "Just a URL", None, None,
                                          methods, parse, Replies(Answered(spec), inputReply, outputReply));
      && run.result.Success?
      && run.result.value.name == "minimal_tool"
      && run.result.value.enabled
      && run.result.value.api.httpMethod == "GET"
      && run.result.value.inputSchema == AbsorbSchemaReply(inputReply, parse)
      && run.result.value.outputSchema == AbsorbSchemaReply(outputReply, parse)
      && |run.calls| == 3
  {
    var noFields: map<string, Json> := map[];
    assert SpecHeaders(spec.fields) == JObj(noFields) && SpecParams(spec.fields) == JObj(noFields);
    assert Upper("GET") == "GET";
  }
}
