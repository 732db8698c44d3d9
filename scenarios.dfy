/** The project's own test scenarios, stated over the model: the handlers
    and module globals of the test module and what the generated document
    must then contain. */
module Scenarios {
  import opened Wrappers
  import opened Json
  import opened Docstring
  import opened Operations
  import opened Paths
  import opened Swaggerify

  /** The `info`, `input` and `output` mappings `demo_handler` is documented with. */
  const TagsInfo: Object := map[
    "tags" := JArr([JStr("test1"), JStr("test2")]),
    "x-microservice-taxonomy" := JArr([JStr("whatever")])]
  const InputNote: Object := map["description" := JStr("Just a test of input")]
  const OutputNote: Object := map["description" := JStr("just a test of output")]

  /** The cleaned docstring of `demo_handler`. */
  const DemoDoc: seq<string> := ["Test of docstring", "", "And here is the description"]

  /** `demo_handler`: a two-paragraph docstring and all three mappings. */
  const DemoHandler: Handler :=
    Document(Some(TagsInfo), Some(InputNote), Some(OutputNote), Bare.(doc := Some(DemoDoc)))

  /** The request schema of `demo_handler_with_validation`, abridged. */
  const InputSchema: Json := JObj(map["type" := JStr("object")])
  /** The response schema of `demo_handler_with_validation`, abridged. */
  const OutputSchema: Json := JObj(map["type" := JStr("array")])

  /** The cleaned docstring of `demo_handler_with_validation`. */
  const ValidatedDoc: seq<string> := ["Test of docstring2", "", "And here is the description2"]
  const InputNote2: Object := map["description" := JStr("Just a test of input2")]
  const OutputNote2: Object := map["description" := JStr("just a test of output2")]

  /** `demo_handler_with_validation`: both schemas, `input` and `output` but no `info`. */
  const ValidatedHandler: Handler :=
    Document(None, Some(InputNote2), Some(OutputNote2),
      Bare.(doc := Some(ValidatedDoc), requestSchema := Some(InputSchema), responseSchema := Some(OutputSchema)))

  /** The globals of the test module. */
  const TestModule: ModuleInfo := ModuleInfo(
    Some(["test_aiohttp_swaggerify", "", "Tests for `aiohttp_swaggerify` module."]),
    Some(JStr("1.0.1")), Some(JStr("MIT")), Some(JStr("Dmitry Chaplinsky")),
    Some(JStr("Test Testov")), Some(JStr("chaplinsky.dmitry@gmail.com")))

  /** The keyword arguments the tests pass. */
  const TestKwargs: Object := map["basePath" := JStr("/"), "host" := JStr("127.0.0.1:8080")]

  /** GET and POST on "/" with the same handler. */
  function GetAndPost(h: Handler): seq<Route>
  {
    [Route("GET", "/", h), Route("POST", "/", h)]
  }

  /** Both methods get their own entry, and each holds the handler's operation. */
  lemma GetAndPostEntries(h: Handler)
    ensures "/" in PathsOf(GetAndPost(h))
    ensures "get" in PathsOf(GetAndPost(h))["/"] && "post" in PathsOf(GetAndPost(h))["/"]
    ensures PathsOf(GetAndPost(h))["/"]["get"] == Operation(h)
    ensures PathsOf(GetAndPost(h))["/"]["post"] == Operation(h)
  {
    assert Lower("GET") == "get" && Lower("POST") == "post";
    SamePathOtherMethod(GetAndPost(h), 0, 1);
  }

  /** What `document` and validation attach to the two test handlers. */
  lemma TestHandlers()
    ensures DemoHandler == Handler(Some(DemoDoc), None, None, Some(TagsInfo), Some(InputNote), Some(OutputNote))
    ensures ValidatedHandler
      == Handler(Some(ValidatedDoc), Some(InputSchema), Some(OutputSchema), None, Some(InputNote2), Some(OutputNote2))
  {
  }

  /** `test_basic_documentation`, for the operations: title, description
      and the `info` tags of any handler documented like `demo_handler`
      (TestHandlers shows that `demo_handler` is one). */
  lemma BasicDocumentationText(h: Handler)
    requires h.doc == Some(DemoDoc) && h.info == Some(TagsInfo)
    ensures Operation(h)["summary"] == JStr("Test of docstring")
    ensures Operation(h)["description"] == JStr("And here is the description")
    ensures "tags" in Operation(h) && "x-microservice-taxonomy" in Operation(h)
  {
    ParseExample();
    assert DocLines(h) == DemoDoc;
    OperationShape(h);
  }

  /** `test_basic_documentation`, for the body parameter: without a request
      schema no `schema` key appears, and the attached `input` description wins. */
  lemma BasicDocumentationParameter(h: Handler)
    requires h.requestSchema.None? && h.info == Some(TagsInfo) && h.input == Some(InputNote)
    ensures Operation(h)["parameters"].items[0].fields["description"] == JStr("Just a test of input")
    ensures "schema" !in Operation(h)["parameters"].items[0].fields
  {
    assert Operation(h)["parameters"] == Generated(h)["parameters"];
    BodyParameterShape(h);
  }

  /** `test_basic_documentation`, for the 200 response: without a response
      schema no `schema` key appears, and the attached `output` description wins. */
  lemma BasicDocumentationResponse(h: Handler)
    requires h.responseSchema.None? && h.info == Some(TagsInfo) && h.output == Some(OutputNote)
    ensures Operation(h)["responses"].fields["200"].fields["description"] == JStr("just a test of output")
    ensures "schema" !in Operation(h)["responses"].fields["200"].fields
  {
    assert Operation(h)["responses"] == Generated(h)["responses"];
    SuccessResponseShape(h);
  }

  /** `test_with_validation`, for the operations: title and description,
      and no tags without an `info` mapping. */
  lemma WithValidationText(h: Handler)
    requires h.doc == Some(ValidatedDoc) && h.info.None?
    ensures Operation(h)["summary"] == JStr("Test of docstring2")
    ensures Operation(h)["description"] == JStr("And here is the description2")
    ensures "tags" !in Operation(h) && "x-microservice-taxonomy" !in Operation(h)
  {
    SplitLinesShape(ValidatedDoc, 0, 1);
    assert SplitLines(DocLines(h)) == Split(["Test of docstring2"], ["And here is the description2"]);
    assert Join(["Test of docstring2"]) == "Test of docstring2";
    assert Operation(h) == Generated(h);
  }

  /** `test_with_validation`, for the body parameter: the request schema is
      there, and the attached `input` description wins. */
  lemma WithValidationParameter(h: Handler)
    requires h.requestSchema == Some(InputSchema) && h.info.None? && h.input == Some(InputNote2)
    ensures Operation(h)["parameters"].items[0].fields["description"] == JStr("Just a test of input2")
    ensures Operation(h)["parameters"].items[0].fields["schema"] == InputSchema
  {
    assert Operation(h)["parameters"] == Generated(h)["parameters"];
    BodyParameterShape(h);
  }

  /** `test_with_validation`, for the 200 response: the response schema is
      there, and the attached `output` description wins. */
  lemma WithValidationResponse(h: Handler)
    requires h.responseSchema == Some(OutputSchema) && h.info.None? && h.output == Some(OutputNote2)
    ensures Operation(h)["responses"].fields["200"].fields["description"] == JStr("just a test of output2")
    ensures Operation(h)["responses"].fields["200"].fields["schema"] == OutputSchema
  {
    assert Operation(h)["responses"] == Generated(h)["responses"];
    SuccessResponseShape(h);
  }

  /** The info block of the test module: title and description from its
      docstring, version, license, and the maintainer (not the author) as
      the contact name. */
  lemma TestModuleInfo()
    ensures var info := InfoBlock(true, TestModule, map[]);
      && info["title"] == JStr("test_aiohttp_swaggerify")
      && info["description"] == JStr("Tests for `aiohttp_swaggerify` module.")
      && info["version"] == JStr("1.0.1")
      && info["contact"] == JObj(map["name" := JStr("Test Testov"), "email" := JStr("chaplinsky.dmitry@gmail.com")])
      && info["license"] == JObj(map["name" := JStr("MIT")])
  {
    SplitLinesShape(TestModule.doc.value, 0, 1);
    ModuleDefaultsShape(TestModule);
    assert ContactOf(TestModule) == map["name" := JStr("Test Testov"), "email" := JStr("chaplinsky.dmitry@gmail.com")];
  }

  /** The top level of the document the tests fetch: the keyword arguments
      are there verbatim, next to the defaults and the info block. */
  lemma TestDocument(paths: PathsTable, m: ModuleInfo)
    ensures Descriptor(paths, true, m, TestKwargs).Success?
    ensures Descriptor(paths, true, m, TestKwargs).value["host"] == JStr("127.0.0.1:8080")
    ensures Descriptor(paths, true, m, TestKwargs).value["basePath"] == JStr("/")
    ensures Descriptor(paths, true, m, TestKwargs).value["swagger"] == JStr("2.0")
    ensures Descriptor(paths, true, m, TestKwargs).value["paths"] == PathsJson(paths)
    ensures Descriptor(paths, true, m, TestKwargs).value["info"] == JObj(InfoBlock(true, m, map[]))
  {
    assert TestKwargs - {"info"} == TestKwargs;
  }
}
