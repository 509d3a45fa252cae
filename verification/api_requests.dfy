/** The request and response records of the API layer and the field
    constraints their model declarations put on them. Constructing a record
    validates every constrained field and reports each violation; a record
    is accepted exactly when the report is empty. */
module ApiRequests {
  import opened Wrappers
  import opened JsonValues

  /** Why a field was rejected. */
  datatype Problem =
    | TooShort(minLength: nat)
    | TooLong(maxLength: nat)
    | NotAllowed(allowed: seq<string>)

  /** One rejected field, named as in the wire format. */
  datatype FieldError = FieldError(field: string, problem: Problem)

  /** Some error in `errors` is about `field`. */
  predicate Reports(errors: seq<FieldError>, field: string) {
    exists e | e in errors :: e.field == field
  }

  /** A report gathered from several fields mentions a field exactly when
      one of the parts does. */
  lemma ReportsAppend(a: seq<FieldError>, b: seq<FieldError>, field: string)
    ensures Reports(a + b, field) <==> Reports(a, field) || Reports(b, field)
  {
    if Reports(a + b, field) {
      var e :| e in a + b && e.field == field;
      assert e in a || e in b;
    }
    if Reports(a, field) {
      var e :| e in a && e.field == field;
      assert e in a + b;
    }
    if Reports(b, field) {
      var e :| e in b && e.field == field;
      assert e in a + b;
    }
  }

  /** The report about one field mentions another field never. */
  lemma ReportsOneField(errors: seq<FieldError>, owner: string, field: string)
    requires forall e | e in errors :: e.field == owner
    ensures Reports(errors, field) <==> errors != [] && owner == field
  {
    if errors != [] && owner == field {
      assert errors[0] in errors;
    }
  }

  /** Length bounds on a required string field (`min_length`, `max_length`). */
  function CheckLength(field: string, value: string, minLength: nat, maxLength: Option<nat>): (errors: seq<FieldError>)
    ensures |errors| <= 1
    ensures forall e | e in errors :: e.field == field
    ensures errors == [] <==> minLength <= |value| && (maxLength.None? || |value| <= maxLength.value)
  {
    if |value| < minLength then [FieldError(field, TooShort(minLength))]
    else if maxLength.Some? && |value| > maxLength.value then [FieldError(field, TooLong(maxLength.value))]
    else []
  }

  /** `max_length` on an optional string field: an absent value passes. */
  function CheckOptionalLength(field: string, value: Option<string>, maxLength: nat): (errors: seq<FieldError>)
    ensures |errors| <= 1
    ensures forall e | e in errors :: e.field == field
    ensures errors == [] <==> value.None? || |value.value| <= maxLength
  {
    match value
    case None => []
    case Some(s) => CheckLength(field, s, 0, Some(maxLength))
  }

  /** A `Literal[...]` field: the value must be one of `allowed`. */
  function CheckLiteral(field: string, value: string, allowed: seq<string>): (errors: seq<FieldError>)
    ensures |errors| <= 1
    ensures forall e | e in errors :: e.field == field
    ensures errors == [] <==> value in allowed
  {
    if value in allowed then [] else [FieldError(field, NotAllowed(allowed))]
  }

  /** The two outcomes a status field may take. */
  const Statuses: seq<string> := ["success", "error"]

  /** The two kinds of prompt response content. */
  const ResponseTypes: seq<string> := ["text", "http_spec"]

  /* ---------------------------------------------------------------- */

  /** A plain prompt: instructions, optional context, optional format hint. */
  datatype PromptRequest = PromptRequest(instructions: string, context: Option<string>, responseFormatPrompt: Option<string>)

  ghost predicate ValidPromptRequest(r: PromptRequest) {
    |r.instructions| >= 1
  }

  function ValidatePromptRequest(r: PromptRequest): (errors: seq<FieldError>)
    ensures errors == [] <==> ValidPromptRequest(r)
    ensures Reports(errors, "instructions") <==> |r.instructions| == 0
    ensures forall e | e in errors :: e.field == "instructions"
  {
    var errors := CheckLength("instructions", r.instructions, 1, None);
    ReportsOneField(errors, "instructions", "instructions");
    errors
  }

  /** A prompt's reply: free content plus a `type` tag. */
  datatype PromptResponse = PromptResponse(content: Json, responseType: string)

  ghost predicate ValidPromptResponse(r: PromptResponse) {
    r.responseType == "text" || r.responseType == "http_spec"
  }

  function ValidatePromptResponse(r: PromptResponse): (errors: seq<FieldError>)
    ensures errors == [] <==> ValidPromptResponse(r)
    ensures forall e | e in errors :: e.field == "type"
  {
    CheckLiteral("type", r.responseType, ResponseTypes)
  }

  /** A prompt that asks for an HTTP request specification from API docs. */
  datatype McpPromptRequest = McpPromptRequest(instructions: string, apiDocs: string, responseFormatPrompt: Option<string>)

  ghost predicate ValidMcpPromptRequest(r: McpPromptRequest) {
    |r.instructions| >= 1 && |r.apiDocs| >= 1
  }

  function ValidateMcpPromptRequest(r: McpPromptRequest): (errors: seq<FieldError>)
    ensures errors == [] <==> ValidMcpPromptRequest(r)
    ensures Reports(errors, "instructions") <==> |r.instructions| == 0
    ensures Reports(errors, "api_docs") <==> |r.apiDocs| == 0
  {
    var instructions := CheckLength("instructions", r.instructions, 1, None);
    var docs := CheckLength("api_docs", r.apiDocs, 1, None);
    ReportsAppend(instructions, docs, "instructions");
    ReportsAppend(instructions, docs, "api_docs");
    ReportsOneField(instructions, "instructions", "api_docs");
    ReportsOneField(docs, "api_docs", "instructions");
    ReportsOneField(instructions, "instructions", "instructions");
    ReportsOneField(docs, "api_docs", "api_docs");
    instructions + docs
  }

  /** The result of executing an HTTP request; `data` stands for the
      response record, whose definition is not part of this model. */
  datatype ExecuteResponse = ExecuteResponse(status: string, data: Option<Json>, error: Option<string>)

  ghost predicate ValidExecuteResponse(r: ExecuteResponse) {
    r.status == "success" || r.status == "error"
  }

  function ValidateExecuteResponse(r: ExecuteResponse): (errors: seq<FieldError>)
    ensures errors == [] <==> ValidExecuteResponse(r)
    ensures forall e | e in errors :: e.field == "status"
  {
    CheckLiteral("status", r.status, Statuses)
  }

  /** A request to generate a tool configuration. */
  datatype GenerateToolConfigRequest = GenerateToolConfigRequest(
    toolName: string,
    toolDescription: string,
    apiDocs: string,
    inputSchemaDescription: Option<string>,
    outputSchemaDescription: Option<string>)

  ghost predicate ValidGenerateToolConfigRequest(r: GenerateToolConfigRequest) {
    && 1 <= |r.toolName| <= 100
    && 10 <= |r.toolDescription| <= 500
    && |r.apiDocs| >= 10
    && (r.inputSchemaDescription.None? || |r.inputSchemaDescription.value| <= 500)
    && (r.outputSchemaDescription.None? || |r.outputSchemaDescription.value| <= 500)
  }

  function ValidateGenerateToolConfigRequest(r: GenerateToolConfigRequest): (errors: seq<FieldError>)
    ensures errors == [] <==> ValidGenerateToolConfigRequest(r)
    ensures Reports(errors, "tool_name") <==> !(1 <= |r.toolName| <= 100)
    ensures Reports(errors, "tool_description") <==> !(10 <= |r.toolDescription| <= 500)
    ensures Reports(errors, "api_docs") <==> |r.apiDocs| < 10
    ensures Reports(errors, "input_schema_description") <==>
      r.inputSchemaDescription.Some? && |r.inputSchemaDescription.value| > 500
    ensures Reports(errors, "output_schema_description") <==>
      r.outputSchemaDescription.Some? && |r.outputSchemaDescription.value| > 500
  {
    var name := CheckLength("tool_name", r.toolName, 1, Some(100));
    var description := CheckLength("tool_description", r.toolDescription, 10, Some(500));
    var docs := CheckLength("api_docs", r.apiDocs, 10, None);
    var input := CheckOptionalLength("input_schema_description", r.inputSchemaDescription, 500);
    var output := CheckOptionalLength("output_schema_description", r.outputSchemaDescription, 500);
    ReportsOfFive(name, description, docs, input, output);
    name + description + docs + input + output
  }

  /** Field-by-field reading of a five-part report whose parts each speak of
      one of five distinct fields. */
  lemma ReportsOfFive(a: seq<FieldError>, b: seq<FieldError>, c: seq<FieldError>, d: seq<FieldError>, e: seq<FieldError>)
    requires forall x | x in a :: x.field == "tool_name"
    requires forall x | x in b :: x.field == "tool_description"
    requires forall x | x in c :: x.field == "api_docs"
    requires forall x | x in d :: x.field == "input_schema_description"
    requires forall x | x in e :: x.field == "output_schema_description"
    ensures Reports(a + b + c + d + e, "tool_name") <==> a != []
    ensures Reports(a + b + c + d + e, "tool_description") <==> b != []
    ensures Reports(a + b + c + d + e, "api_docs") <==> c != []
    ensures Reports(a + b + c + d + e, "input_schema_description") <==> d != []
    ensures Reports(a + b + c + d + e, "output_schema_description") <==> e != []
  {
    ReportsOfFiveAt(a, b, c, d, e, "tool_name", "tool_name", "tool_description", "api_docs", "input_schema_description", "output_schema_description");
    ReportsOfFiveAt(a, b, c, d, e, "tool_description", "tool_name", "tool_description", "api_docs", "input_schema_description", "output_schema_description");
    ReportsOfFiveAt(a, b, c, d, e, "api_docs", "tool_name", "tool_description", "api_docs", "input_schema_description", "output_schema_description");
    ReportsOfFiveAt(a, b, c, d, e, "input_schema_description", "tool_name", "tool_description", "api_docs", "input_schema_description", "output_schema_description");
    ReportsOfFiveAt(a, b, c, d, e, "output_schema_description", "tool_name", "tool_description", "api_docs", "input_schema_description", "output_schema_description");
  }

  /** One field's reading of a five-part report. */
  lemma ReportsOfFiveAt(a: seq<FieldError>, b: seq<FieldError>, c: seq<FieldError>, d: seq<FieldError>, e: seq<FieldError>,
                        f: string, fa: string, fb: string, fc: string, fd: string, fe: string)
    requires forall x | x in a :: x.field == fa
    requires forall x | x in b :: x.field == fb
    requires forall x | x in c :: x.field == fc
    requires forall x | x in d :: x.field == fd
    requires forall x | x in e :: x.field == fe
    ensures Reports(a + b + c + d + e, f) <==>
      (a != [] && fa == f) || (b != [] && fb == f) || (c != [] && fc == f) || (d != [] && fd == f) || (e != [] && fe == f)
  {
    ReportsAppend(a, b, f);
    ReportsAppend(a + b, c, f);
    ReportsAppend(a + b + c, d, f);
    ReportsAppend(a + b + c + d, e, f);
    ReportsOneField(a, fa, f);
    ReportsOneField(b, fb, f);
    ReportsOneField(c, fc, f);
    ReportsOneField(d, fd, f);
    ReportsOneField(e, fe, f);
  }

  /** The reply to a generation request; `toolConfig` is the serialized
      configuration. */
  datatype GenerateToolConfigResponse = GenerateToolConfigResponse(
    status: string,
    toolConfig: Option<map<string, Json>>,
    error: Option<string>)

  ghost predicate ValidGenerateToolConfigResponse(r: GenerateToolConfigResponse) {
    r.status == "success" || r.status == "error"
  }

  function ValidateGenerateToolConfigResponse(r: GenerateToolConfigResponse): (errors: seq<FieldError>)
    ensures errors == [] <==> ValidGenerateToolConfigResponse(r)
    ensures forall e | e in errors :: e.field == "status"
  {
    CheckLiteral("status", r.status, Statuses)
  }
}
