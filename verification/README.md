# Vertex ML Metadata query layer, in Dafny

This project models the metadata query layer of the `fancy_fashion` MLOps
repository. It also models the pure logic inside the HTTP handler that
launches a training pipeline.

- **Filter expressions** (`metadata_expr.dfy`, module `MetadataExpr`). Covers:
  - the `Expr` sum type: `Equals`, `InContext`, `HasParentContext`, and variadic `And` and `Or`;
  - how each renders into the ML-metadata filter language;
  - the `&` and `|` combinators, and `schema_title`;
  - the resource-path builders `metastore_context`, `pipeline_context` and `run_context`.
- **Reading filters back** (`filter_parse.dfy`, module `FilterParse`).
  - A reader for the rendered text, with the proof that it inverts `Render` on the expressions it can read back. These have no quote in any attribute, value or context, and no attribute that starts with a parenthesis.
  - On those expressions one thing is lost: a composite with fewer than two operands prints the same under AND and OR.
  - Outside them nothing is promised. One case is stated: a quote in a value is not escaped, so the value can forge a second operand.
- **Record models** (`metadata_model.dfy`, module `MetadataModel`).
  - `Pipeline`, `PipelineRun` and `Artifact`, built from service records.
  - The derived fields. A run's pipeline name and an artifact's project id and run are each a `Result` whose error is the source's `IndexError`. An artifact's pipeline name never fails: it is `""` when the run holds no `-`.
  - `from_records` as a lazy map consumed to the end: the models yielded before the first failing record, plus that failure.
- **The client** (`metadata_client.dfy`, module `MetadataClient`).
  - Each `list_*` operation is modelled as the request it sends (a parent scope and a filter) and the mapping of the returned records.
  - The service is a parameter: a function from a request to the records it returns.
- **The HTTP handler** (`cloud_function.dfy`, module `CloudFunction`). Covers:
  - `to_flask` for both response types;
  - reading the request body;
  - filtering the environment parameters and merging them into the request parameters;
  - mapping an escaped exception to an RFC 7807 problem, both as written and corrected (see "## Findings");
  - the detail sanitiser.

  Fetching the pipeline, reading its parameter set and submitting the job are one parameter, `Remote`, whose calls may raise.
- **Python semantics** (`py_strings.dfy`, module `PyStrings`). `str.split`, `split(sep, 1)`, `rsplit(c, 1)[-1]`, `join`, `replace`, `startswith` and slicing, with the CPython semantics the derivations rely on.
- **Shared types.** `wrappers.dfy` holds `Option` and `Result`; `json_values.dfy` holds a JSON value type.

All paths below are relative to the repository root.

## Model

| member | source | states |
|---|---|---|
| MetadataExpr.Render | src/fancy_fashion/utils/metadata/expr.py:21-71 | Every rendering is non-empty. `Equals(a, v)` renders as `a="v"`, with nothing escaped. `InContext(c)` renders as `in_context("c")` and `HasParentContext(c)` as `parent_contexts: "c"`. A composite renders as `(`, its operands joined by ` AND ` or ` OR `, then `)`. |
| MetadataExpr.RenderEach | src/fancy_fashion/utils/metadata/expr.py:57-58 | The operand texts, one per operand and in order, as the generator inside `join` produces them. |
| MetadataExpr.Conj | src/fancy_fashion/utils/metadata/expr.py:4-5 | `a & b` renders as `(` + text of a + ` AND ` + text of b + `)`. |
| MetadataExpr.Disj | src/fancy_fashion/utils/metadata/expr.py:7-8 | `__or__(a, b)` renders as `(` + text of a + ` OR ` + text of b + `)`. |
| MetadataExpr.SchemaTitle | src/fancy_fashion/utils/metadata/expr.py:92-94 | `schema_title(n)` is `equals("schema_title", n)` and renders `schema_title="n"`. |
| MetadataExpr.CompositeParenthesised | src/fancy_fashion/utils/metadata/expr.py:54-58 | Every `And`/`Or` text starts with `(` and ends with `)`. Zero operands give `()`, and one operand gives that operand's text in parentheses. |
| MetadataExpr.NoFlattening | src/fancy_fashion/utils/metadata/expr.py:4-5 | `(a & b) & c` keeps its inner parentheses, so its text differs from the ternary `And(a, b, c)`. |
| MetadataExpr.MetastoreContext | src/fancy_fashion/utils/metadata/expr.py:97-99 | A store path is the `/`-join of `projects`, p, `locations`, r, `metadataStores`, s. |
| MetadataExpr.PipelineContext | src/fancy_fashion/utils/metadata/expr.py:102-107 | A pipeline context is its store's path + `/contexts/` + name. |
| MetadataExpr.RunContext | src/fancy_fashion/utils/metadata/expr.py:110-115 | A run context equals the pipeline context for the same arguments. |
| MetadataExpr.SegmentsNotValidated | src/fancy_fashion/utils/metadata/expr.py:97-107 | Segments are not checked: a store name holding `/contexts/<n>` yields the path of context `<n>`. |
| MetadataExpr.ContextPathSegments | src/fancy_fashion/utils/metadata/expr.py:102-107 | A context path is the store segments followed by `contexts` and the name, joined with `/`. |
| MetadataExpr.ContextPathRoundTrip | src/fancy_fashion/utils/metadata/expr.py:102-107 | With slash-free components, splitting a path at `/` gives back its segments. The last segment of a context path is its name. |
| FilterParse.ParseRenderRoundTrip | src/fancy_fashion/utils/metadata/expr.py:21-71 | An expression satisfying `Unambiguous` reads back from its text as its canonical form: `Parse(Render(e)) == Some(Norm(e))`. `Unambiguous` means no quote in any attribute, value or context, and no attribute that starts with a parenthesis. |
| FilterParse.RenderNorm | src/fancy_fashion/utils/metadata/expr.py:54-71 | Writing a composite with fewer than two operands as `And` leaves its text unchanged. |
| FilterParse.RenderInjectiveUpToNorm | src/fancy_fashion/utils/metadata/expr.py:21-71 | For readable expressions, two texts are equal exactly when the canonical forms are equal. This holds in both directions. |
| FilterParse.QuoteInjection | src/fancy_fashion/utils/metadata/expr.py:22 | For any fields, the value `b" AND c="d` makes the one-operand conjunction `a = that` print like the two-operand one `a = b` AND `c = d`, though the two differ. |
| FilterParse.ParseRender | src/fancy_fashion/utils/metadata/expr.py:21-71 | Reading from the front of `Render(e) + rest` returns the canonical form of `e` and leaves `rest`. |
| MetadataModel.MapUntilFailure | src/fancy_fashion/utils/metadata/model.py:130-135 | Consuming a lazily mapped sequence yields one converted item per record, in order, up to the first record the conversion rejects. It then stops with that record's error. |
| MetadataModel.StateName | src/fancy_fashion/utils/metadata/model.py:121 | `state.name`: reading the name back gives the state, so distinct states have distinct names. |
| MetadataModel.PipelineFromRecord | src/fancy_fashion/utils/metadata/model.py:24-34 | The seven fields are copied unchanged. |
| MetadataModel.PipelineIgnoresOtherFields | src/fancy_fashion/utils/metadata/model.py:24-34 | A note rather than a property: nothing is derived, so records that agree on the seven fields give the same pipeline. |
| MetadataModel.PipelinesFromRecords | src/fancy_fashion/utils/metadata/model.py:37-41 | One pipeline per record, in order, with the same length. |
| MetadataModel.PipelineNameOfRun | src/fancy_fashion/utils/metadata/model.py:75 | Fails exactly when `parent_contexts` is empty. Otherwise the result has no `/`, is a suffix of the first parent, and is that whole parent or follows its last `/`. |
| MetadataModel.RunFromRecord | src/fancy_fashion/utils/metadata/model.py:62-76 | Fails exactly when there is no parent context. Otherwise the nine record fields are copied and the pipeline name is derived from the first parent. |
| MetadataModel.RunPipelineNameFromContext | src/fancy_fashion/utils/metadata/model.py:75 | A run whose first parent is `<prefix>/<n>`, with `n` slash-free, belongs to pipeline `n`. |
| MetadataModel.RunsFromRecords | src/fancy_fashion/utils/metadata/model.py:79-83 | Runs are yielded in order up to the first record without a parent. Nothing fails exactly when every record has a parent. |
| MetadataModel.ProjectIdOf | src/fancy_fashion/utils/metadata/model.py:110 | Fails exactly when the name holds no `/`. Otherwise the project id is a slash-free segment; which segment is stated by `ProjectIdIsSecondSegment`. |
| MetadataModel.ProjectIdIsSecondSegment | src/fancy_fashion/utils/metadata/model.py:110 | For slash-free `h` and `p`, the project id of `h/p` and of `h/p/<rest>` is `p`. Every name holding a `/` has one of these two forms, so this pins the result. |
| MetadataModel.ProjectIdOfResourceName | src/fancy_fashion/utils/metadata/model.py:110 | In `projects/<p>/...` the project id is `<p>`. |
| MetadataModel.RunOfUri | src/fancy_fashion/utils/metadata/model.py:111 | Fails exactly when `/<project>/` does not occur in the URI. Otherwise the run is the slash-free text after its first occurrence, up to the next `/` or the end. |
| MetadataModel.RunOfConventionalUri | src/fancy_fashion/utils/metadata/model.py:111 | For a URI `<prefix>/<p>/<run>[/...]` whose first marker follows `<prefix>`, the run is `<run>`. |
| MetadataModel.PipelineNameOfArtifactRun | src/fancy_fashion/utils/metadata/model.py:112 | With a `-` in the run: name + `-` + the last token is the run. Without one, the name is `""`, not an error. |
| MetadataModel.ArtifactFromRecord | src/fancy_fashion/utils/metadata/model.py:108-128 | Succeeds exactly when the name has a project id whose marker occurs in the URI. On success the fields are copied, the state becomes its name, and run and pipeline are derived. |
| MetadataModel.ArtifactDerivedFromConvention | src/fancy_fashion/utils/metadata/model.py:110-112 | A conventionally named and stored artifact gets its run from the URI, and a pipeline name that is the run minus its last token. |
| MetadataModel.ArtifactsFromRecords | src/fancy_fashion/utils/metadata/model.py:130-135 | Artifacts are yielded in order up to the first record that breaks the naming convention, whose error is reported. |
| MetadataClient.StorePath | src/fancy_fashion/utils/metadata/client.py:76-81 | The client's store path is the `/`-join of its six segments. |
| MetadataClient.PipelinePath | src/fancy_fashion/utils/metadata/client.py:83-89 | A pipeline's context is the store path + `/contexts/` + name. |
| MetadataClient.RunPath | src/fancy_fashion/utils/metadata/client.py:91-97 | A run's context is addressed exactly like a pipeline's of the same name. |
| MetadataClient.PipelineRunsFilter | src/fancy_fashion/utils/metadata/client.py:35-38 | The run filter is the binary `And` of the parent-context test on the pipeline's context and `schema_title == "system.PipelineRun"`. |
| MetadataClient.NewClient | src/fancy_fashion/utils/metadata/client.py:12-15 | The store defaults to `"default"`. |
| MetadataClient.PipelinesRequest | src/fancy_fashion/utils/metadata/client.py:25-28 | Parent is the store path; filter is `schema_title="system.Pipeline"`. |
| MetadataClient.PipelineRunsRequest | src/fancy_fashion/utils/metadata/client.py:33-39 | Parent is the store path; filter is `(parent_contexts: "<store>/contexts/<n>" AND schema_title="system.PipelineRun")`. |
| MetadataClient.ArtifactsRequestFor | src/fancy_fashion/utils/metadata/client.py:44-49 | No filter is sent exactly when the argument is absent or empty. Otherwise the text, or the expression's rendering, is sent. |
| MetadataClient.InContextWithOptionalSchema | src/fancy_fashion/utils/metadata/client.py:101-106 | With a non-empty title: `(in_context("c") AND schema_title="s")`. Otherwise the bare `in_context("c")`. |
| MetadataClient.ArtifactsForPipelineRequest | src/fancy_fashion/utils/metadata/client.py:52-63 | Parent is the store path; filter is the pipeline context with the optional schema. |
| MetadataClient.ArtifactsForRunRequest | src/fancy_fashion/utils/metadata/client.py:65-75 | Parent is the store path; filter is the run context with the optional schema. |
| MetadataClient.ListPipelines | src/fancy_fashion/utils/metadata/client.py:23-29 | One pipeline per returned record, in order. |
| MetadataClient.ListPipelineRuns | src/fancy_fashion/utils/metadata/client.py:31-40 | The returned records are mapped through `PipelineRun.from_record` until the first failure. |
| MetadataClient.ListArtifacts | src/fancy_fashion/utils/metadata/client.py:42-50 | The returned records are mapped through `Artifact.from_record` until the first failure. |
| MetadataClient.ListArtifactsForPipeline | src/fancy_fashion/utils/metadata/client.py:52-63 | The same mapping, for the pipeline's request. |
| MetadataClient.ListArtifactsForRun | src/fancy_fashion/utils/metadata/client.py:65-75 | The same mapping, for the run's request. |
| MetadataClient.PipelineAndRunArtifactsAgree | src/fancy_fashion/utils/metadata/client.py:52-98 | Asking for a pipeline's or a run's artifacts under the same name sends the same request. |
| MetadataClient.ArtifactsForRunFilter | src/fancy_fashion/utils/metadata/client.py:65-75 | With a title, the run filter is `(in_context("<store>/contexts/<run>") AND schema_title="<title>")`. |
| MetadataClient.PipelineRunsFilterReadsBack | src/fancy_fashion/utils/metadata/client.py:33-39 | The request's filter is the rendering of the run filter. When the context holds no quote, that text reads back as the conjunction of the parent-context and schema tests. |
| MetadataClient.RunsReportTheirPipeline | src/fancy_fashion/utils/metadata/client.py:31-40 | If the service returns runs whose first parent is pipeline `n`'s context, every run is yielded and reports `n` as its pipeline. |
| CloudFunction.SuccessToFlask | src/cloud-function/main.py:53-54 | Status 200; the payload is exactly `project_id`, `region` and `job_id`. |
| CloudFunction.ErrorToFlask | src/cloud-function/main.py:68-70 | The payload is every field but `status_code`, which becomes the status. |
| CloudFunction.ReplyRoundTrip | src/cloud-function/main.py:53-70 | Both responses can be read back from their Flask replies. |
| CloudFunction.MissingParameter | src/cloud-function/main.py:137-143 | Status 400, type `missing_parameter`; the detail contains the quoted key. |
| CloudFunction.ParseRequest | src/cloud-function/main.py:131-143 | Fails exactly when `model_name` or `model_version` is absent, naming the first one missing. `pipeline_name` defaults to `"pipeline"` and `pipeline_parameters` to `{}`. |
| CloudFunction.EnvValues | src/cloud-function/main.py:151-159 | The seven project-specific parameters, each read from the configuration entry of the same name. |
| CloudFunction.EnvParameters | src/cloud-function/main.py:149-163 | The environment keys the pipeline declares, and only those, each with its configured value. |
| CloudFunction.MergeParameters | src/cloud-function/main.py:169-174 | Every key of either side. The environment wins collisions, and the request's other values pass through. |
| CloudFunction.EnvironmentOverridesOnlyDeclared | src/cloud-function/main.py:149-174 | A note on provenance: a merged key comes from the request or from a declared environment key. A declared environment value always wins, and an undeclared key keeps the request's value. |
| CloudFunction.ClassifyAsWritten | src/cloud-function/main.py:189-236 | The handlers as written build no response exactly for `KeyError`, `ValueError` and `ParserError`. |
| CloudFunction.HandlerOf | src/cloud-function/main.py:189-227 | Which `except` clause catches an exception: `ParserError`/`KeyError` the parse clause, `InvalidArgument`/`ValueError` the argument clause, and exactly `OtherError` and other API errors the broad clause. |
| CloudFunction.MessageOf | src/cloud-function/main.py:193-232 | `getattr(exc, "message", str(exc))`: the `message` attribute when there is one; a `KeyError` gives its quoted key. |
| CloudFunction.MessageAttribute | src/cloud-function/main.py:193-224 | `exc.message`: present exactly on the API exceptions, absent (so the read raises) on `KeyError`, `ValueError` and `ParserError`. `OtherError` stands for the exceptions only the broad clause catches, whose `message` is read through `getattr` alone, so whether they carry one does not change the reply. |
| CloudFunction.ProblemFor | src/cloud-function/main.py:189-236 | Status 400 exactly for the argument clause with a message not starting with the service-account complaint; the service-account problem exactly when it does start with it. |
| CloudFunction.Respond | src/cloud-function/main.py:189-236 | Each `except` clause's body: the problem's type, title and status, with the message as the detail. Only the broad clause sanitises it, to at most 989 characters without raw line breaks. |
| CloudFunction.Classify | src/cloud-function/main.py:189-236 | The corrected handlers always respond, with status 400 or 500, and with the `type` and `title` of one problem. |
| CloudFunction.TypesDistinct | src/cloud-function/main.py:189-236 | A note: no two problems share a `type`, so a client can dispatch on it. |
| CloudFunction.HandlerProblems | src/cloud-function/main.py:189-209 | Corrected handlers: `NotFound` gives `pipeline_not_found`, `Forbidden` gives `pipeline_access_denied`, `ParserError`/`KeyError` give `invalid_pipeline`, anything else gives `unexpected_error`. The status is the problem's. |
| CloudFunction.ClassifyStatus | src/cloud-function/main.py:210-226 | Corrected handlers: status 400 exactly for an `InvalidArgument`/`ValueError` whose message does not start with the service-account complaint. |
| CloudFunction.ServiceAccountRule | src/cloud-function/main.py:210-226 | Corrected handlers: an `InvalidArgument`/`ValueError` is the service-account problem exactly when its message starts with the complaint. Otherwise it is the invalid-parameters problem. |
| CloudFunction.DetailOfResponse | src/cloud-function/main.py:189-236 | Only the broad handler sanitises its detail, which then has no CR or LF. The others pass the message through. |
| CloudFunction.ClassifyAgreesWhereDefined | src/cloud-function/main.py:189-236 | Where the handlers as written respond, the corrected ones respond identically. |
| CloudFunction.MessageAttributeMissing | src/cloud-function/main.py:203-226 | `KeyError` and `ValueError` escape the handlers as written. The corrected ones answer the invalid-pipeline problem with the quoted key as detail, and one of the two argument problems, respectively. |
| CloudFunction.EscapeLineBreaks | src/cloud-function/main.py:233-234 | The escaped text contains no CR or LF. |
| CloudFunction.EscapeIsCharacterwise | src/cloud-function/main.py:233-234 | The two chained replacements equal a single-pass, per-character escape. |
| CloudFunction.Sanitize | src/cloud-function/main.py:232-234 | At most 989 characters, no CR or LF, and a prefix of the escaped text. It is the whole escaped text when that fits, and exactly its first 989 characters otherwise. |
| CloudFunction.SanitizeKeepsClean | src/cloud-function/main.py:232-234 | A short text without line breaks is kept as is. |
| CloudFunction.SanitizeIdempotent | src/cloud-function/main.py:232-234 | Sanitising twice is sanitising once. |
| CloudFunction.EscapeLosesLineBreaks | src/cloud-function/main.py:233-234 | A real line break and a written-out `\n` give the same detail. |
| CloudFunction.Launch | src/cloud-function/main.py:147-179 | An exception while reading the pipeline's parameters escapes unchanged. |
| CloudFunction.ProcessRequest | src/cloud-function/main.py:121-238 | `process_request` with the corrected handlers: every reply has status 200, 400 or 500. |
| CloudFunction.ProcessRequestAsWritten | src/cloud-function/main.py:121-238 | `process_request` as written: no reply exactly when the body is complete, the pipeline stage raises, and the clause that catches the exception fails on `exc.message`. |
| CloudFunction.ProcessRequestAgreesWhereDefined | src/cloud-function/main.py:121-238 | Wherever the handler as written replies, the corrected one sends the same reply. |
| CloudFunction.PipelineStageFailureClassified | src/cloud-function/main.py:145-209 | An exception while fetching the pipeline is answered with its classified problem. `NotFound` gives 500 `pipeline_not_found` and `Forbidden` gives 500 `pipeline_access_denied`. For API errors the handler as written sends the same reply. |
| CloudFunction.MissingPipelineKeyEscapes | src/cloud-function/main.py:203-209 | A `KeyError` while reading the pipeline's parameters gets no reply as written; the corrected handler answers 500 `invalid_pipeline`. |
| CloudFunction.MissingParameterRefused | src/cloud-function/main.py:131-145 | A body without a required key gets 400 `missing_parameter` naming the key, whatever the remote side would do. |
| CloudFunction.SubmitsMergedParameters | src/cloud-function/main.py:145-188 | A well-formed request submits the merged parameters. It gets 200 with the job's details exactly when the submission succeeds. Otherwise the corrected handlers answer with the classified error, and the handler as written replies exactly when its clause can read `exc.message`. |
| CloudFunction.TypeName | src/cloud-function/main.py:165-174 | The type name in the `TypeError` raised by unpacking a non-mapping: `dict`, `list`, `str`, `int`, `float`, `bool` or `NoneType`, each naming exactly one kind of JSON value. |
| CloudFunction.NonObjectParametersUnexpected | src/cloud-function/main.py:165-174 | Non-object `pipeline_parameters` give 500, with the classified `'<type>' object is not a mapping` error; nothing is submitted. |
| PyStrings.StartsWithIsPrefix | src/cloud-function/main.py:211 | `s.startswith(p)` holds exactly when `s` is `p` followed by more text. |
| PyStrings.Join | src/fancy_fashion/utils/metadata/expr.py:58 | `sep.join(parts)` of one or more parts is as long as the parts plus one separator between each neighbouring pair; `JoinSplit` and `SplitJoin` relate it to `split`. |
| PyStrings.Split | src/fancy_fashion/utils/metadata/model.py:110 | `split(c)` gives at least one piece and no piece holds `c`. Without `c` the result is the whole string. |
| PyStrings.SplitConcat | src/fancy_fashion/utils/metadata/model.py:110 | Splitting at a separator splits the text on each side independently. |
| FilterParse.PairReadsBack | src/fancy_fashion/utils/metadata/expr.py:4-5 | A conjunction of two readable leaves reads back as itself. |
| PyStrings.JoinSplit | src/fancy_fashion/utils/metadata/model.py:112 | Joining the pieces of a split with the separator restores the string. |
| PyStrings.SplitJoin | src/fancy_fashion/utils/metadata/expr.py:97-107 | Splitting a join of separator-free parts gives the parts back. |
| PyStrings.SplitOnce | src/fancy_fashion/utils/metadata/model.py:111 | `split(sep, 1)` gives one piece exactly when `sep` does not occur. Otherwise it gives the text before and after the first occurrence. |
| PyStrings.FindFirst | src/fancy_fashion/utils/metadata/model.py:111 | The first occurrence, or none exactly when there is no occurrence. |
| PyStrings.AfterLast | src/fancy_fashion/utils/metadata/model.py:75 | `rsplit(c, 1)[-1]` has no `c`, is a suffix, and is the whole string or follows a `c`. |
| PyStrings.AfterLastIsLastPiece | src/fancy_fashion/utils/metadata/model.py:75 | `rsplit(c, 1)[-1]` is the last piece of `split(c)`. |
| PyStrings.ReplaceChar | src/cloud-function/main.py:233-234 | Every character of the result comes from the replacement or is a non-pattern character of the input; its value is stated by `ReplaceCharIsSplitJoin`. |
| PyStrings.ReplaceCharIsSplitJoin | src/cloud-function/main.py:233-234 | `s.replace(c, rep)` equals `rep.join(s.split(c))`: each `c` is replaced in place and nothing else changes. |
| PyStrings.Take | src/cloud-function/main.py:234 | `s[:n]` is a prefix of `s`: the whole string when it fits, and exactly `n` characters otherwise. |

## Left out

- `to_dataframe` (model.py) is a pandas projection. It is not part of this model.
- `get_client` and the `list_contexts`/`list_artifacts` RPCs are not modelled. The service is a function from request to a finite sequence of records. Pagination and laziness become plain sequences; laziness survives only as "stop at the first failing record".
- From main.py:
  - loading the environment variables: they become an `EnvConfig` value;
  - `get_pipeline`, which downloads from Cloud Storage;
  - `get_pipeline_parameters`, which reads a JSON file;
  - building and submitting the `PipelineJob`.

  Together these are the `Remote` parameter, which returns the declared parameter set or the job, or raises.
- Logging (`CloudLoggingFormatter`, `setup_logging`, `logger.error`) has no observable effect on the reply and is not modelled.
- `pipeline.py`, `app.py`, `validation.py`, `llm.py` and the serving tests are outside the metadata layer and are not part of this model.
- A request body that is not a JSON object is not modelled. Indexing it with `request_data["model_name"]` raises `TypeError` inside the first `try`, which catches only `KeyError`, so the exception escapes `process_request`. `ProcessRequest` takes an object's fields.
- A JSON number with a fraction or exponent is a Python `float`, kept here as an exact real. Rounding to binary64 is not modelled, because the handler only copies numbers and names their type.
- Record timestamps are opaque values that are only copied. Protobuf `Struct` metadata is a map of JSON values.
- MetadataClient.ListPipelineRuns: models consuming the generator to the end. A caller that stops early sees a prefix of `items`, and that prefix is not stated separately.
- MetadataClient.ListArtifacts: the same; partial consumption is not stated separately.
- CloudFunction.MessageOf: `str(KeyError(k))` is written as `'` + k + `'`, which is Python's `repr` of a key without a single quote inside. Keys that contain quotes are rendered differently by Python.
- CloudFunction.Classify: which exception classes each remote step can raise is not modelled; any `Raised` value may come from either step.
- MetadataModel.ArtifactFromRecord: states the derivation through `RunOfUri` and `PipelineNameOfArtifactRun`. Their meaning is stated on those members, not repeated here.

## Findings

| source | as written | input that shows it | evidently intended | confidence | as-written member | corrected member |
|---|---|---|---|---|---|---|
| src/cloud-function/main.py:203-226 | The `(ParserError, KeyError)` and `(InvalidArgument, ValueError)` handlers read `exc.message`. Python's `KeyError` and `ValueError`, and YAML's `ParserError`, have no such attribute, so the handler raises `AttributeError` and no problem response is built. | A pipeline file without the `pipelineSpec` key: `get_pipeline_parameters` raises `KeyError('pipelineSpec')`. | Respond `invalid_pipeline` (resp. `invalid_pipeline_parameters` or `invalid_pipeline_service_account`), with the detail read as the broad handler reads it, `getattr(exc, "message", str(exc))`. | high; not executed | CloudFunction.ClassifyAsWritten, CloudFunction.ProcessRequestAsWritten (shown by CloudFunction.MessageAttributeMissing, CloudFunction.MissingPipelineKeyEscapes) | CloudFunction.Classify, CloudFunction.ProcessRequest (proved by CloudFunction.ClassifyAgreesWhereDefined, CloudFunction.ClassifyStatus, CloudFunction.ProcessRequestAgreesWhereDefined) |
