/** The operation descriptor `swaggerify` builds for one route handler, and
    the `document` decorator that attaches the extra mappings it merges in. */
module Operations {
  import opened Wrappers
  import opened Json
  import opened Docstring

  /** Longest summary kept; longer titles are cut without a marker. */
  const MaxTitle: nat := 120

  /** The fixed `consumes` and `produces` lists. */
  const JsonMedia: Json := JArr([JStr("application/json")])

  const ResultsText := "Results of the request"

  /** What the builder can see of a handler: its cleaned docstring lines
      (`None` when it has none), the schemas attached by request validation
      and the three mappings attached by `document`. */
  datatype Handler = Handler(
    doc: Option<seq<string>>,
    requestSchema: Option<Json>,
    responseSchema: Option<Json>,
    info: Option<Object>,
    input: Option<Object>,
    output: Option<Object>)

  /** A handler without docstring, schemas or attached mappings. */
  const Bare := Handler(None, None, None, None, None, None)

  /** `document(info, input, output)` applied to a handler: each mapping that
      is given replaces the handler's attribute, the others are left as they were. */
  function Document(info: Option<Object>, input: Option<Object>, output: Option<Object>, h: Handler): (r: Handler)
    ensures r.doc == h.doc && r.requestSchema == h.requestSchema && r.responseSchema == h.responseSchema
    ensures info.Some? ==> r.info == info
    ensures info.None? ==> r.info == h.info
    ensures input.Some? ==> r.input == input
    ensures input.None? ==> r.input == h.input
    ensures output.Some? ==> r.output == output
    ensures output.None? ==> r.output == h.output
  {
    h.(info := if info.Some? then info else h.info,
       input := if input.Some? then input else h.input,
       output := if output.Some? then output else h.output)
  }

  /** `r.handler.__doc__ or ""`: a missing docstring reads as the empty one,
      whose only cleaned line is blank. */
  function DocLines(h: Handler): seq<string>
  {
    if h.doc.Some? then h.doc.value else [""]
  }

  /** The summary length guard: at most the first 120 characters are kept. */
  function Clamp(title: string): (r: string)
    ensures |r| == if |title| > MaxTitle then MaxTitle else |title|
    ensures r <= title
  {
    if |title| > MaxTitle then title[..MaxTitle] else title
  }

  /** The boilerplate responses for 400, 500 and 405. */
  function ErrorResponses(): Object
  {
    map[
      "400" := JObj(map["description" := JStr("Request is malformed or invalid")]),
      "500" := JObj(map["description" := JStr("Response malformed or invalid")]),
      "405" := JObj(map["description" := JStr("Method is not allowed")])
    ]
  }

  /** The single body parameter: `in` and `name` set to "body", `required`
      and `schema` added when the handler has a request schema, and the
      `input` mapping merged over it. */
  function BodyParameter(h: Handler): Object
  {
    var param := map["in" := JStr("body"), "name" := JStr("body")];
    var withSchema :=
      if h.requestSchema.Some? then param["required" := JBool(true)]["schema" := h.requestSchema.value]
      else param;
    Update(withSchema, Extra(h.input))
  }

  /** The body parameter holds `in` and `name`, `required` and `schema`
      exactly when there is a request schema, and the `input` keys; an
      `input` key appears verbatim and wins over the generated one. */
  lemma BodyParameterShape(h: Handler)
    ensures BodyParameter(h).Keys
      == {"in", "name"} + (if h.requestSchema.Some? then {"required", "schema"} else {}) + Extra(h.input).Keys
    ensures forall k :: k in Extra(h.input) ==> BodyParameter(h)[k] == Extra(h.input)[k]
    ensures "in" !in Extra(h.input) ==> BodyParameter(h)["in"] == JStr("body")
    ensures "name" !in Extra(h.input) ==> BodyParameter(h)["name"] == JStr("body")
    ensures "required" !in Extra(h.input) ==>
      ("required" in BodyParameter(h) <==> h.requestSchema.Some?)
      && (h.requestSchema.Some? ==> BodyParameter(h)["required"] == JBool(true))
    ensures "schema" !in Extra(h.input) ==>
      ("schema" in BodyParameter(h) <==> h.requestSchema.Some?)
      && (h.requestSchema.Some? ==> BodyParameter(h)["schema"] == h.requestSchema.value)
  {
  }

  /** The 200 response: the fixed description, `schema` added when the
      handler has a response schema, and the `output` mapping merged over it. */
  function SuccessResponse(h: Handler): Object
  {
    var response := map["description" := JStr(ResultsText)];
    var withSchema := if h.responseSchema.Some? then response["schema" := h.responseSchema.value] else response;
    Update(withSchema, Extra(h.output))
  }

  /** The 200 response holds the description, `schema` exactly when there
      is a response schema, and the `output` keys; an `output` key appears
      verbatim and wins over the generated one. */
  lemma SuccessResponseShape(h: Handler)
    ensures SuccessResponse(h).Keys
      == {"description"} + (if h.responseSchema.Some? then {"schema"} else {}) + Extra(h.output).Keys
    ensures forall k :: k in Extra(h.output) ==> SuccessResponse(h)[k] == Extra(h.output)[k]
    ensures "description" !in Extra(h.output) ==> SuccessResponse(h)["description"] == JStr(ResultsText)
    ensures "schema" !in Extra(h.output) ==>
      ("schema" in SuccessResponse(h) <==> h.responseSchema.Some?)
      && (h.responseSchema.Some? ==> SuccessResponse(h)["schema"] == h.responseSchema.value)
  {
  }

  /** The keys every operation is generated with. */
  function GeneratedKeys(): set<string>
  {
    {"summary", "description", "consumes", "produces", "responses", "parameters"}
  }

  /** The fields generated for a handler before its `info` mapping is merged in. */
  function Generated(h: Handler): Object
  {
    var parts := SplitLines(DocLines(h));
    map[
      "summary" := JStr(Clamp(Join(parts.title))),
      "description" := JStr(Join(parts.description)),
      "consumes" := JsonMedia,
      "produces" := JsonMedia,
      "responses" := JObj(ErrorResponses()["200" := JObj(SuccessResponse(h))]),
      "parameters" := JArr([JObj(BodyParameter(h))])
    ]
  }

  /** The operation descriptor of a handler: the generated fields, with the
      handler's `info` mapping merged over them last. */
  function Operation(h: Handler): Object
  {
    Update(Generated(h), Extra(h.info))
  }

  /** The shape of every operation: exactly the generated keys plus those of
      `info`; an `info` key appears verbatim and wins; every other key holds
      its generated value. */
  lemma OperationShape(h: Handler)
    ensures Operation(h).Keys == GeneratedKeys() + Extra(h.info).Keys
    ensures forall k :: k in Extra(h.info) ==> Operation(h)[k] == Extra(h.info)[k]
    ensures "summary" !in Extra(h.info) ==>
      Operation(h)["summary"].JStr? && |Operation(h)["summary"].s| <= MaxTitle && Operation(h)["summary"].s <= Join(SplitLines(DocLines(h)).title)
    ensures "description" !in Extra(h.info) ==> Operation(h)["description"] == JStr(Join(SplitLines(DocLines(h)).description))
    ensures "consumes" !in Extra(h.info) ==> Operation(h)["consumes"] == JsonMedia
    ensures "produces" !in Extra(h.info) ==> Operation(h)["produces"] == JsonMedia
    ensures "parameters" !in Extra(h.info) ==> Operation(h)["parameters"] == JArr([JObj(BodyParameter(h))])
    ensures "responses" !in Extra(h.info) ==> Operation(h)["responses"] == JObj(ErrorResponses()["200" := JObj(SuccessResponse(h))])
  {
  }

  /** The loop body of `swaggerify` for one handler, updating the descriptor
      in place in the order the source does. */
  method DescribeRoute(h: Handler) returns (desc: Object)
    ensures desc == Operation(h)
  {
    var title, description := ParseDocstring(DocLines(h));
    if |title| > MaxTitle {
      title := title[..MaxTitle];
    }
    var responses := ErrorResponses();
    desc := map[
      "summary" := JStr(title),
      "description" := JStr(description),
      "consumes" := JsonMedia,
      "produces" := JsonMedia
    ];

    var param: Object;
    if h.requestSchema.Some? {
      param := map["in" := JStr("body"), "name" := JStr("body"), "required" := JBool(true), "schema" := h.requestSchema.value];
    } else {
      param := map["in" := JStr("body"), "name" := JStr("body")];
    }
    if h.input.Some? {
      param := Update(param, h.input.value);
    }
    assert param == BodyParameter(h);

    var ok: Object;
    if h.responseSchema.Some? {
      ok := map["description" := JStr(ResultsText), "schema" := h.responseSchema.value];
    } else {
      ok := map["description" := JStr(ResultsText)];
    }
    if h.output.Some? {
      ok := Update(ok, h.output.value);
    }
    assert ok == SuccessResponse(h);
    responses := responses["200" := JObj(ok)];
    desc := desc["responses" := JObj(responses)]["parameters" := JArr([JObj(param)])];
    assert desc == Generated(h);

    if h.info.Some? {
      desc := Update(desc, h.info.value);
    }
  }

  /** A summary that fits is the joined title unchanged; a longer one is
      exactly its first 120 characters. */
  lemma SummaryTruncation(h: Handler)
    requires "summary" !in Extra(h.info)
    ensures var title := Join(SplitLines(DocLines(h)).title);
      Operation(h)["summary"] == JStr(if |title| <= MaxTitle then title else title[..MaxTitle])
  {
  }

  /** Every operation keeps the fixed media types and error responses unless
      the `info` mapping replaces those very keys. */
  lemma FixedFields(h: Handler)
    requires "consumes" !in Extra(h.info) && "produces" !in Extra(h.info) && "responses" !in Extra(h.info)
    ensures Operation(h)["consumes"] == JsonMedia && Operation(h)["produces"] == JsonMedia
    ensures var responses := Operation(h)["responses"];
      responses.JObj? && responses.fields.Keys == {"200", "400", "405", "500"}
      && responses.fields["400"] == JObj(map["description" := JStr("Request is malformed or invalid")])
      && responses.fields["405"] == JObj(map["description" := JStr("Method is not allowed")])
      && responses.fields["500"] == JObj(map["description" := JStr("Response malformed or invalid")])
  {
  }

  /** What `document` attaches shows up verbatim in the generated
      operation: `info` at the top, `input` in the body parameter and
      `output` in the 200 response. */
  lemma DocumentedOperation(info: Object, input: Object, output: Object, h: Handler)
    requires "parameters" !in info && "responses" !in info
    ensures var op := Operation(Document(Some(info), Some(input), Some(output), h));
      && (forall k :: k in info ==> k in op && op[k] == info[k])
      && (forall k :: k in input ==> k in op["parameters"].items[0].fields && op["parameters"].items[0].fields[k] == input[k])
      && (forall k :: k in output ==> k in op["responses"].fields["200"].fields && op["responses"].fields["200"].fields[k] == output[k])
  {
  }
}
