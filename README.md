# aiohttp_swaggerify, modelled in Dafny

`aiohttp_swaggerify` walks the route table of an aiohttp application and
builds a Swagger 2.0 document from it. Each handler's docstring gives an
operation's summary and description. The schemas that request validation
attaches and the mappings that `document` attaches are merged in with a
fixed precedence. The calling module's docstring and metadata globals give
the `info` block. Caller keyword arguments override the generated top level
and, through `info`, the info block.

This project models that core:

- `wrappers.dfy`: `Option` and `Result`.
- `json.dfy`: the `Json` value type. `Update` is Python's `dict.update`, a
  right-biased map union.
- `docstring.dfy`: `parse_docstring`. `SplitLines` is a recursive
  specification. `ParseDocstring` is the source's loop, proved against
  `SplitLines`. The lemmas characterise the title and the description.
- `operation.dfy`: the per-route operation descriptor. `Handler` is the
  record of what the builder reads from a handler. `Document` is the
  `document` decorator. `Operation` is the specification. `DescribeRoute`
  is the loop body, which updates the dictionaries step by step.
- `paths.dfy`: the paths table. `BuildPaths` is the route loop, proved
  against `PathsOf`. The lemmas cover membership, last-write-wins and
  independent methods.
- `swaggerify.dfy`: the module-info defaults, the info block and the whole
  document. `Swaggerify` is the imperative top level, proved against
  `Descriptor`.
- `scenarios.dfy`: the handlers and module globals of the project's tests,
  and what the generated document must contain for them.

A docstring is given as the lines that `inspect.cleandoc` produces. A line
is blank when it is the empty string. A handler without a docstring reads as
the empty docstring (`__doc__ or ""`), whose only line is blank.

A module without a docstring makes `inspect.cleandoc(None)` raise at
line 131, inside the `try` block and before any module field is applied.
The bare `except` then leaves only the default version: no title, version,
license or contact from the module. `ModuleDefaults` and `ReadModule` model
that.

## Model

| member | source | states |
|---|---|---|
| `Docstring.TitleRun` | aiohttp_swaggerify/__init__.py:16-22 | once the title has started, the title lines are a prefix of the remaining lines, all of them non-blank |
| `Docstring.SplitLines` | aiohttp_swaggerify/__init__.py:16-24 | every title line is non-blank |
| `Docstring.TitleRunShape` | aiohttp_swaggerify/__init__.py:16-22 | the title run is the lines before the first blank line; the description is every line after that blank line, or nothing when there is none |
| `Docstring.SplitLinesShape` | aiohttp_swaggerify/__init__.py:16-29 | with k leading blank lines and the first blank line after them at j, the title is lines k..j-1 and the description is every line after j (blank lines included), or empty when there is no such blank line |
| `Docstring.AllBlankSplit` | aiohttp_swaggerify/__init__.py:16-24 | an all-blank docstring gives an empty title and an empty description |
| `Docstring.TitleEmptyIffAllBlank` | aiohttp_swaggerify/__init__.py:16-24 | the title is empty if and only if every line is blank |
| `Docstring.ResumeStep` | aiohttp_swaggerify/__init__.py:16-24 | one loop iteration: a non-blank line joins the title, a blank line before the title is skipped, a blank line after it ends the title with the rest of the lines as description |
| `Docstring.ParseDocstring` | aiohttp_swaggerify/__init__.py:11-29 | the loop with `break` returns the space-joined title and description of `SplitLines` |
| `Docstring.ParseExample` | tests/test_aiohttp_swaggerify.py:142-145 | "Test of docstring", a blank line and "And here is the description" give exactly that title and that description |
| `Operations.Document` | aiohttp_swaggerify/__init__.py:170-183 | each mapping that is given replaces the handler's attribute; attributes whose argument is `None` and the docstring and schemas are unchanged |
| `Operations.Clamp` | aiohttp_swaggerify/__init__.py:51-53 | the result is a prefix of the title, of length min(length, 120) |
| `Operations.SummaryTruncation` | aiohttp_swaggerify/__init__.py:50-58 | the summary is the joined title when it has at most 120 characters, otherwise exactly its first 120 characters, with no marker |
| `Operations.FixedFields` | aiohttp_swaggerify/__init__.py:57-67 | `consumes` and `produces` are `["application/json"]`, and responses are exactly 200, 400, 405 and 500 with the fixed 400/405/500 descriptions, unless `info` overwrites those keys |
| `Operations.BodyParameterShape` | aiohttp_swaggerify/__init__.py:69-83 | the body parameter has `in` = `name` = "body"; it has `required: true` and `schema` if and only if there is a request schema; `input` keys are added verbatim and win on collision |
| `Operations.SuccessResponseShape` | aiohttp_swaggerify/__init__.py:85-97 | the 200 response has description "Results of the request" and `schema` if and only if there is a response schema; `output` keys are added verbatim and win |
| `Operations.OperationShape` | aiohttp_swaggerify/__init__.py:57-100 | the operation's keys are exactly the six generated ones plus those of `info`; `info` keys appear verbatim and win; every other key holds its generated value |
| `Operations.DocumentedOperation` | aiohttp_swaggerify/__init__.py:82-100 | the mappings `document` attaches appear verbatim: `info` at the top, `input` in the body parameter, `output` in the 200 response |
| `Operations.DescribeRoute` | aiohttp_swaggerify/__init__.py:49-100 | the step-by-step, in-place building of the descriptor yields exactly `Operation(h)` |
| `Paths.Lower` | aiohttp_swaggerify/__init__.py:102 | lower-casing keeps the length, turns every upper-case ASCII letter into its lower-case letter, leaves no upper-case ASCII letter, and leaves every other character unchanged |
| `Paths.Store` | aiohttp_swaggerify/__init__.py:102 | one write sets `paths[path][key]` and leaves every other path and every other method under that path unchanged |
| `Paths.FillStep` | aiohttp_swaggerify/__init__.py:48-102 | processing one more route extends the table by exactly that route's write |
| `Paths.BuildPaths` | aiohttp_swaggerify/__init__.py:47-102 | the route loop yields the table `PathsOf(routes)` |
| `Paths.FillPaths` | aiohttp_swaggerify/__init__.py:47-102 | a path is in the table if and only if some write has that path |
| `Paths.FillKeys` | aiohttp_swaggerify/__init__.py:47-102 | an entry exists if and only if some write sets it |
| `Paths.FillLastWins` | aiohttp_swaggerify/__init__.py:102 | an entry holds the value of the last write to it |
| `Paths.PathsOfPaths` | aiohttp_swaggerify/__init__.py:47-102 | `paths[p]` exists if and only if some route has path p |
| `Paths.PathsOfMethods` | aiohttp_swaggerify/__init__.py:47-102 | `paths[p][m]` exists if and only if some route has path p and a method that lower-cases to m |
| `Paths.PathsOfLastWins` | aiohttp_swaggerify/__init__.py:102 | a repeated (path, method) keeps only the operation of the last such route |
| `Paths.SamePathOtherMethod` | aiohttp_swaggerify/__init__.py:47-102 | routes with the same path and different methods get independent entries, each holding its own route's operation |
| `Swaggerify.ContactOf` | aiohttp_swaggerify/__init__.py:144-153 | contact `name` is the maintainer, or else the author; `email` is present exactly when the module has one; no other key |
| `Swaggerify.ReadModule` | aiohttp_swaggerify/__init__.py:119-156 | the in-place updates of the info defaults yield `ModuleDefaults(m)` |
| `Swaggerify.ModuleDefaultsShape` | aiohttp_swaggerify/__init__.py:125-156 | without a docstring only the default version remains. Otherwise: title and description come from the docstring; the version is the module's or "1.0.0"; `license` is `{name: __license__}` exactly when there is a license; `contact` is present exactly when a name or an email was found; no other key is present |
| `Swaggerify.InfoPrecedence` | aiohttp_swaggerify/__init__.py:119-161 | `info.version` is the caller's if given, else the module's if read, else "1.0.0"; the caller's `info` keys appear verbatim; with module parsing the keys are the module defaults' plus the caller's, and every module-derived key the caller leaves alone keeps its module value; without module parsing only `version` and the caller's keys remain |
| `Swaggerify.DescriptorShape` | aiohttp_swaggerify/__init__.py:107-161 | it fails exactly when `info` is not a mapping. Otherwise: keys are swagger, schemes, paths and info plus every keyword argument; keyword arguments other than `info` win verbatim; defaults remain where not overridden; `info` is always the info block |
| `Swaggerify.Swaggerify` | aiohttp_swaggerify/__init__.py:46-161 | the imperative build yields exactly `Descriptor(PathsOf(routes), ...)` |
| `Scenarios.GetAndPostEntries` | tests/test_aiohttp_swaggerify.py:118-146 | GET and POST on "/" with one handler give entries "get" and "post" under "/", each that handler's operation |
| `Scenarios.TestHandlers` | tests/test_aiohttp_swaggerify.py:50-89 | the decorators give the demo handler its docstring and all three mappings, and the validated handler both schemas, `input` and `output` but no `info` |
| `Scenarios.BasicDocumentationText` | tests/test_aiohttp_swaggerify.py:142-152 | a handler with the demo docstring and the demo `info` gets the expected summary and description, and the `info` tags |
| `Scenarios.BasicDocumentationParameter` | tests/test_aiohttp_swaggerify.py:147-148 | a handler documented like the demo handler, without a request schema, gets the attached parameter description and no parameter `schema` |
| `Scenarios.BasicDocumentationResponse` | tests/test_aiohttp_swaggerify.py:146-149 | such a handler, without a response schema, gets the attached 200 description and no 200 `schema` |
| `Scenarios.WithValidationText` | tests/test_aiohttp_swaggerify.py:179-188 | a handler with the validated docstring and no `info` gets the expected summary and description, and no tags |
| `Scenarios.WithValidationParameter` | tests/test_aiohttp_swaggerify.py:184-185 | a handler with a request schema and the attached `input` gets both the schema and the overridden description in its body parameter |
| `Scenarios.WithValidationResponse` | tests/test_aiohttp_swaggerify.py:183-186 | a handler with a response schema and the attached `output` gets both the schema and the overridden description in its 200 response |
| `Scenarios.TestModuleInfo` | tests/test_aiohttp_swaggerify.py:133-140 | the test module's info block has its title, description, version 1.0.1, MIT license and the maintainer, not the author, as contact name |
| `Scenarios.TestDocument` | tests/test_aiohttp_swaggerify.py:133-137 | with `basePath` and `host` passed as keyword arguments, both appear verbatim next to `swagger` "2.0", the paths table and the info block |

The specification functions have no contract of their own. The lemmas above characterise them:
- `Operations.Operation` (lines 49-100) by `OperationShape`, `BodyParameterShape` and `SuccessResponseShape`;
- `Paths.PathsOf` (lines 47-102) by `PathsOfPaths`, `PathsOfMethods` and `PathsOfLastWins`;
- `Swaggerify.ModuleDefaults` (lines 119-156) by `ModuleDefaultsShape`;
- `Swaggerify.InfoBlock` (lines 119-161) by `InfoPrecedence`;
- `Swaggerify.Descriptor` (lines 107-161) by `DescriptorShape`.

## Left out

- The aiohttp plumbing is not modelled. That covers `app.router.routes()`, the `swagger_handler` coroutine, `web.json_response`, storing the document in `app["_swagger_config"]` and registering `GET /swagger.json`. Routes are an input sequence and the document is the return value.
- Stack-frame and `sys.modules` introspection is replaced by an explicit `ModuleInfo` parameter. Other ways the `try` block can fail, such as the caller's module being missing from `sys.modules`, are not modelled separately.
- The whitespace rules of `inspect.cleandoc` (tab expansion, margin removal, stripping of leading and trailing blank lines) are not modelled. Docstrings are given as the cleaned lines, and "blank" means the empty string.
- `Paths.Lower` lower-cases ASCII letters only. Python's `str.lower` also lower-cases other Unicode letters, which HTTP method names do not use.
- `Swaggerify.Descriptor` treats any non-object `info` keyword argument as the error `InfoNotMapping`. Python's `dict.update` would also accept an iterable of key/value pairs.
- The `info`, `input` and `output` attributes of a `Handler` are mappings only. `document` accepts any value other than `None`, and `swaggerify` then calls `.update` with it: a non-mapping makes the build raise, and a list of key/value pairs is merged as pairs. Neither case is represented.
- JSON numbers are integers only. Schemas and metadata containing floating-point values are not represented.
- The `hasattr`/`setattr` attribute checks become the fields of the `Handler` record. The request and response schemas come from a validation decorator in another package, which is not part of this model.
- Python dictionaries keep insertion order; the model's maps do not.
- The source stores references to the attached mappings and schemas, so one dict may be shared by several descriptors. The model uses immutable values, so aliasing does not arise.
- `Operations.Document`: the decorator sets attributes on the function object in place and returns the same object. The model returns an updated `Handler` record instead.
