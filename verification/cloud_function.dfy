/** The pure core of the pipeline-launching HTTP handler
    (src/cloud-function/main.py): responses and their Flask form, reading
    the request, the parameter merge, the mapping from exception to error
    response, and the detail sanitiser. Fetching the pipeline, reading its
    parameter set and submitting the job are one parameter, `Remote`. */
module CloudFunction {
  import opened Wrappers
  import opened JsonValues
  import opened PyStrings

  // ---------------------------------------------------------------------
  // Responses

  /** A submitted job (`SuccessResponse`). */
  datatype SuccessResponse = SuccessResponse(projectId: string, region: string, jobId: string)

  /** An RFC 7807 problem (`ErrorResponse`); `kind` is the `type` field. */
  datatype ErrorResponse = ErrorResponse(kind: string, title: string, detail: string, statusCode: int)

  /** What the handler returns to Flask: a JSON payload and a status code. */
  datatype FlaskReply = FlaskReply(payload: map<string, Json>, status: int)

  /** The dataclass's `__dict__`. */
  function SuccessFields(r: SuccessResponse): (fields: map<string, Json>)
  {
    map["project_id" := JString(r.projectId), "region" := JString(r.region), "job_id" := JString(r.jobId)]
  }

  /** The dataclass's `__dict__`, the status code included. */
  function ErrorFields(r: ErrorResponse): (fields: map<string, Json>)
  {
    map["type" := JString(r.kind), "title" := JString(r.title), "detail" := JString(r.detail),
        "status_code" := JNumber(r.statusCode)]
  }

  /** `SuccessResponse.to_flask`: every field, with status 200. */
  function SuccessToFlask(r: SuccessResponse): (reply: FlaskReply)
    ensures reply.status == 200
    ensures reply.payload.Keys == {"project_id", "region", "job_id"}
    ensures reply.payload == SuccessFields(r)
  {
    FlaskReply(SuccessFields(r), 200)
  }

  /** `ErrorResponse.to_flask`: every field except the status code, which
      becomes the status. */
  function ErrorToFlask(r: ErrorResponse): (reply: FlaskReply)
    ensures reply.status == r.statusCode
    ensures reply.payload.Keys == {"type", "title", "detail"}
    ensures reply.payload == ErrorFields(r) - {"status_code"}
  {
    var fields := ErrorFields(r);
    FlaskReply(map k | k in fields && k != "status_code" :: fields[k], r.statusCode)
  }

  /** Reads a success back from its reply. */
  function SuccessFromReply(reply: FlaskReply): (response: Option<SuccessResponse>)
  {
    var p := reply.payload;
    if reply.status == 200 && p.Keys == {"project_id", "region", "job_id"}
      && p["project_id"].JString? && p["region"].JString? && p["job_id"].JString?
    then Some(SuccessResponse(p["project_id"].s, p["region"].s, p["job_id"].s))
    else None
  }

  /** Reads an error back from its reply. */
  function ErrorFromReply(reply: FlaskReply): (response: Option<ErrorResponse>)
  {
    var p := reply.payload;
    if p.Keys == {"type", "title", "detail"}
      && p["type"].JString? && p["title"].JString? && p["detail"].JString?
    then Some(ErrorResponse(p["type"].s, p["title"].s, p["detail"].s, reply.status))
    else None
  }

  /** No information is lost on the way to Flask: the response can be read
      back from the reply. */
  lemma ReplyRoundTrip(s: SuccessResponse, e: ErrorResponse)
    ensures SuccessFromReply(SuccessToFlask(s)) == Some(s)
    ensures ErrorFromReply(ErrorToFlask(e)) == Some(e)
  {
    var p := ErrorToFlask(e).payload;
    assert p["type"] == JString(e.kind) && p["title"] == JString(e.title) && p["detail"] == JString(e.detail);
  }

  // ---------------------------------------------------------------------
  // The request

  /** The fields of a request body the handler uses. */
  datatype JobRequest = JobRequest(modelName: Json, modelVersion: Json, pipelineName: Json, parameters: Json)

  /** The answer to a body without a required key. */
  function MissingParameter(key: string): (r: ErrorResponse)
    ensures r.statusCode == 400 && r.kind == "missing_parameter"
    ensures Occurs(r.detail, "'" + key + "'")
  {
    var detail := "Missing required parameter " + ("'" + key + "'");
    assert OccursAt(detail, "'" + key + "'", |"Missing required parameter "|);
    ProblemResponse(MissingParameterProblem, detail)
  }

  /** Reads the request body: `model_name`, then `model_version`, are
      required; `pipeline_name` defaults to "pipeline" and
      `pipeline_parameters` to an empty object. */
  function ParseRequest(data: map<string, Json>): (r: Result<JobRequest, ErrorResponse>)
    ensures r.Failure? <==> "model_name" !in data || "model_version" !in data
    ensures "model_name" !in data ==> r == Failure(MissingParameter("model_name"))
    ensures "model_name" in data && "model_version" !in data ==> r == Failure(MissingParameter("model_version"))
    ensures r.Success? ==> r.value.modelName == data["model_name"] && r.value.modelVersion == data["model_version"]
    ensures r.Success? && "pipeline_name" in data ==> r.value.pipelineName == data["pipeline_name"]
    ensures r.Success? && "pipeline_name" !in data ==> r.value.pipelineName == JString("pipeline")
    ensures r.Success? && "pipeline_parameters" in data ==> r.value.parameters == data["pipeline_parameters"]
    ensures r.Success? && "pipeline_parameters" !in data ==> r.value.parameters == JObject(map[])
  {
    if "model_name" !in data then Failure(MissingParameter("model_name"))
    else if "model_version" !in data then Failure(MissingParameter("model_version"))
    else
      var pipelineName := if "pipeline_name" in data then data["pipeline_name"] else JString("pipeline");
      var parameters := if "pipeline_parameters" in data then data["pipeline_parameters"] else JObject(map[]);
      Success(JobRequest(data["model_name"], data["model_version"], pipelineName, parameters))
  }

  // ---------------------------------------------------------------------
  // Pipeline parameters

  /** The deployment's configuration, read from the environment. */
  datatype EnvConfig = EnvConfig(
    projectId: string, region: string, zone: string,
    artifactBucket: string, artifactPath: string,
    inputBucket: string, outputBucket: string)

  /** The project-specific parameters the function offers every pipeline. */
  function EnvValues(cfg: EnvConfig): (values: map<string, string>)
    ensures values.Keys == {"project_id", "region", "zone", "artifact_bucket", "artifact_path", "input_bucket", "output_bucket"}
    ensures values["project_id"] == cfg.projectId && values["region"] == cfg.region && values["zone"] == cfg.zone
    ensures values["artifact_bucket"] == cfg.artifactBucket && values["artifact_path"] == cfg.artifactPath
    ensures values["input_bucket"] == cfg.inputBucket && values["output_bucket"] == cfg.outputBucket
  {
    map["project_id" := cfg.projectId, "region" := cfg.region, "zone" := cfg.zone,
        "artifact_bucket" := cfg.artifactBucket, "artifact_path" := cfg.artifactPath,
        "input_bucket" := cfg.inputBucket, "output_bucket" := cfg.outputBucket]
  }

  /** The environment parameters the pipeline accepts, and only those. */
  function EnvParameters(cfg: EnvConfig, accepted: set<string>): (env: map<string, Json>)
    ensures env.Keys == EnvValues(cfg).Keys * accepted
    ensures forall k :: k in env ==> env[k] == JString(EnvValues(cfg)[k])
  {
    var values := EnvValues(cfg);
    map k | k in values && k in accepted :: JString(values[k])
  }

  /** `{**request, **env}`: every key of either, the environment winning a
      collision and the request's other values passing through. */
  function MergeParameters(request: map<string, Json>, env: map<string, Json>): (merged: map<string, Json>)
    ensures merged.Keys == request.Keys + env.Keys
    ensures forall k :: k in env ==> merged[k] == env[k]
    ensures forall k :: k in request && k !in env ==> merged[k] == request[k]
  {
    request + env
  }

  /** Only a key the pipeline declares can come from the environment, and
      an environment key the pipeline declares always wins. */
  lemma EnvironmentOverridesOnlyDeclared(request: map<string, Json>, cfg: EnvConfig, accepted: set<string>, k: string)
    ensures var merged := MergeParameters(request, EnvParameters(cfg, accepted));
      && (k in merged <==> k in request || (k in EnvValues(cfg) && k in accepted))
      && (k in EnvValues(cfg) && k in accepted ==> merged[k] == JString(EnvValues(cfg)[k]))
      && (k !in accepted && k in request ==> merged[k] == request[k])
  {
  }

  // ---------------------------------------------------------------------
  // Exceptions

  /** The `google.api_core` exception classes the handler tells apart. */
  datatype ApiKind = NotFound | Forbidden | InvalidArgument | OtherApi

  /** An exception escaping the pipeline stage. The API exceptions carry a
      `.message` attribute; `KeyError`, `ValueError` and `ParserError` do
      not. `OtherError` is any exception only the broad clause catches; its
      `message` is read only through `getattr`, so it is modelled by the
      text the reply shows. */
  datatype Raised =
    | ApiError(api: ApiKind, message: string)
    | KeyError(key: string)
    | ValueError(text: string)
    | ParserError(text: string)
    | OtherError(text: string)

  /** The problem types the handler answers with (the RFC 7807 `type`),
      each with its fixed title and status code. */
  datatype Problem =
    | MissingParameterProblem
    | PipelineNotFound
    | PipelineAccessDenied
    | InvalidPipeline
    | InvalidServiceAccount
    | InvalidParameters
    | UnexpectedError

  /** The `type` field each handler writes. */
  function TypeOf(p: Problem): (kind: string)
  {
    match p
    case MissingParameterProblem => "missing_parameter"
    case PipelineNotFound => "pipeline_not_found"
    case PipelineAccessDenied => "pipeline_access_denied"
    case InvalidPipeline => "invalid_pipeline"
    case InvalidServiceAccount => "invalid_pipeline_service_account"
    case InvalidParameters => "invalid_pipeline_parameters"
    case UnexpectedError => "unexpected_error"
  }

  /** The `title` field each handler writes. */
  function TitleOf(p: Problem): (title: string)
  {
    match p
    case MissingParameterProblem => "Missing required parameter"
    case PipelineNotFound => "The specified pipeline could not be found"
    case PipelineAccessDenied => "Insufficient permissions to fetch the pipeline"
    case InvalidPipeline => "An error occurred while parsing the pipeline"
    case InvalidServiceAccount => "An invalid service account was used for running the pipeline"
    case InvalidParameters => "Invalid parameters were passed to the pipeline"
    case UnexpectedError => "An unexpected error occurred"
  }

  /** Only a missing parameter and invalid pipeline parameters are the
      caller's fault. */
  function StatusOf(p: Problem): (status: int)
  {
    if p == MissingParameterProblem || p == InvalidParameters then 400 else 500
  }

  /** The response for a problem with the given detail. */
  function ProblemResponse(p: Problem, detail: string): (response: ErrorResponse)
  {
    ErrorResponse(TypeOf(p), TitleOf(p), detail, StatusOf(p))
  }

  /** The `except` clause that catches an exception. */
  datatype Handler = NotFoundHandler | ForbiddenHandler | ParseHandler | ArgumentHandler | BroadHandler

  function HandlerOf(exc: Raised): (h: Handler)
    ensures h == ParseHandler <==> exc.ParserError? || exc.KeyError?
    ensures h == ArgumentHandler <==> exc.ValueError? || (exc.ApiError? && exc.api == InvalidArgument)
    ensures h == BroadHandler <==> exc.OtherError? || (exc.ApiError? && exc.api == OtherApi)
  {
    match exc
    case ApiError(NotFound, _) => NotFoundHandler
    case ApiError(Forbidden, _) => ForbiddenHandler
    case ParserError(_) => ParseHandler
    case KeyError(_) => ParseHandler
    case ApiError(InvalidArgument, _) => ArgumentHandler
    case ValueError(_) => ArgumentHandler
    case _ => BroadHandler
  }

  /** `exc.message`: absent on the built-in and YAML exceptions. */
  function MessageAttribute(exc: Raised): (message: Option<string>)
    ensures message.None? <==> exc.KeyError? || exc.ValueError? || exc.ParserError? || exc.OtherError?
    ensures exc.ApiError? ==> message == Some(exc.message)
  {
    if exc.ApiError? then Some(exc.message) else None
  }

  /** `getattr(exc, "message", str(exc))`; `str` of a `KeyError` is the
      quoted key. */
  function MessageOf(exc: Raised): (m: string)
    ensures MessageAttribute(exc).Some? ==> m == MessageAttribute(exc).value
    ensures exc.KeyError? ==> m == "'" + exc.key + "'"
  {
    match exc
    case ApiError(_, m) => m
    case KeyError(k) => "'" + k + "'"
    case ValueError(t) => t
    case ParserError(t) => t
    case OtherError(t) => t
  }

  const ServiceAccountPrefix: string := "You do not have permission to act as service_account"

  /** The problem a handler reports for an exception with this message. */
  function ProblemFor(h: Handler, message: string): (p: Problem)
    ensures StatusOf(p) == 400 <==> h == ArgumentHandler && !StartsWith(message, ServiceAccountPrefix)
    ensures p == InvalidServiceAccount <==> h == ArgumentHandler && StartsWith(message, ServiceAccountPrefix)
  {
    match h
    case NotFoundHandler => PipelineNotFound
    case ForbiddenHandler => PipelineAccessDenied
    case ParseHandler => InvalidPipeline
    case ArgumentHandler =>
      if StartsWith(message, ServiceAccountPrefix) then InvalidServiceAccount else InvalidParameters
    case BroadHandler => UnexpectedError
  }

  /** The response a handler builds; only the broad handler sanitises the
      message before using it as the detail. */
  function Respond(h: Handler, message: string): (response: ErrorResponse)
    ensures response.kind == TypeOf(ProblemFor(h, message)) && response.title == TitleOf(ProblemFor(h, message))
    ensures response.statusCode == StatusOf(ProblemFor(h, message))
    ensures h != BroadHandler ==> response.detail == message
    ensures h == BroadHandler ==> |response.detail| <= 989 && '\n' !in response.detail && '\r' !in response.detail
  {
    ProblemResponse(ProblemFor(h, message), if h == BroadHandler then Sanitize(message) else message)
  }

  /** The handlers as written: the four specific ones read `exc.message`,
      so for an exception without that attribute the handler itself fails
      and no response is built (`None`). */
  function ClassifyAsWritten(exc: Raised): (r: Option<ErrorResponse>)
    ensures r.None? <==> exc.KeyError? || exc.ValueError? || exc.ParserError?
  {
    var h := HandlerOf(exc);
    if h == BroadHandler then Some(Respond(h, MessageOf(exc)))
    else match MessageAttribute(exc)
      case None => None
      case Some(m) => Some(Respond(h, m))
  }

  /** The problem the corrected handlers report for an exception. */
  function ClassifyProblem(exc: Raised): (p: Problem)
  {
    ProblemFor(HandlerOf(exc), MessageOf(exc))
  }

  /** The handlers with the message read as the broad handler reads it,
      `getattr(exc, "message", str(exc))`. */
  function Classify(exc: Raised): (r: ErrorResponse)
    ensures r.statusCode == 400 || r.statusCode == 500
    ensures r.kind == TypeOf(ClassifyProblem(exc)) && r.title == TitleOf(ClassifyProblem(exc))
  {
    Respond(HandlerOf(exc), MessageOf(exc))
  }

  /** The `type` of a response names its problem unambiguously, so a
      client can dispatch on it. */
  lemma TypesDistinct(p: Problem, q: Problem)
    ensures TypeOf(p) == TypeOf(q) ==> p == q
  {
  }

  /** Which `except` clause answers which exception: a missing pipeline, a
      forbidden one, an unreadable one, and anything else unexpected. */
  lemma HandlerProblems(exc: Raised)
    ensures exc.ApiError? && exc.api == NotFound ==> Classify(exc).kind == "pipeline_not_found"
    ensures exc.ApiError? && exc.api == Forbidden ==> Classify(exc).kind == "pipeline_access_denied"
    ensures exc.ParserError? || exc.KeyError? ==> Classify(exc).kind == "invalid_pipeline"
    ensures exc.OtherError? ==> Classify(exc).kind == "unexpected_error"
    ensures Classify(exc).statusCode == StatusOf(ClassifyProblem(exc))
  {
  }

  /** Status 400 means exactly a rejected argument that is not the
      service-account complaint; everything else is a 500. */
  lemma ClassifyStatus(exc: Raised)
    ensures Classify(exc).statusCode == 400
      <==> HandlerOf(exc) == ArgumentHandler && !StartsWith(MessageOf(exc), ServiceAccountPrefix)
  {
  }

  /** A rejected argument is blamed on the service account exactly when its
      message starts with the service-account complaint, and on the
      parameters otherwise. */
  lemma ServiceAccountRule(exc: Raised)
    requires exc.ValueError? || (exc.ApiError? && exc.api == InvalidArgument)
    ensures ClassifyProblem(exc) == InvalidServiceAccount <==> StartsWith(MessageOf(exc), ServiceAccountPrefix)
    ensures ClassifyProblem(exc) != InvalidServiceAccount ==> ClassifyProblem(exc) == InvalidParameters
  {
  }

  /** Only the broad handler sanitises its detail; the others pass the
      message through as it is. */
  lemma DetailOfResponse(exc: Raised)
    ensures HandlerOf(exc) == BroadHandler ==> Classify(exc).detail == Sanitize(MessageOf(exc))
    ensures HandlerOf(exc) != BroadHandler ==> Classify(exc).detail == MessageOf(exc)
    ensures HandlerOf(exc) == BroadHandler ==> '\n' !in Classify(exc).detail && '\r' !in Classify(exc).detail
  {
  }

  /** Wherever the handlers as written build a response, the corrected
      ones build the same response. */
  lemma ClassifyAgreesWhereDefined(exc: Raised)
    ensures ClassifyAsWritten(exc).Some? ==> ClassifyAsWritten(exc) == Some(Classify(exc))
  {
  }

  /** A missing key in the pipeline file, or a `ValueError` from building
      the job, escapes the handlers as written, while the corrected
      handlers answer with the matching problem. */
  lemma MessageAttributeMissing(key: string, text: string)
    ensures ClassifyAsWritten(KeyError(key)).None?
    ensures ClassifyProblem(KeyError(key)) == InvalidPipeline
    ensures Classify(KeyError(key)).detail == "'" + key + "'"
    ensures ClassifyAsWritten(ValueError(text)).None?
    ensures ClassifyProblem(ValueError(text)) == InvalidServiceAccount
      || ClassifyProblem(ValueError(text)) == InvalidParameters
  {
  }

  // ---------------------------------------------------------------------
  // The detail sanitiser

  /** `.replace("\n", "\\n").replace("\r", "\\r")`. */
  function EscapeLineBreaks(s: string): (r: string)
    ensures '\n' !in r && '\r' !in r
  {
    ReplaceChar(ReplaceChar(s, '\n', "\\n"), '\r', "\\r")
  }

  /** The escape of one character. */
  function EscapeChar(x: char): (e: string)
  {
    if x == '\n' then "\\n" else if x == '\r' then "\\r" else [x]
  }

  /** A single-pass reference: each character escaped on its own. */
  function EscapeEach(s: string): (r: string)
  {
    if s == [] then [] else EscapeChar(s[0]) + EscapeEach(s[1..])
  }

  /** The two chained replacements are the single-pass escape: the second
      never touches what the first inserted. */
  lemma {:induction false} EscapeIsCharacterwise(s: string)
    ensures EscapeLineBreaks(s) == EscapeEach(s)
    decreases |s|
  {
    if s != [] {
      var head := if s[0] == '\n' then "\\n" else [s[0]];
      var first := ReplaceChar(s, '\n', "\\n");
      assert first == head + ReplaceChar(s[1..], '\n', "\\n");
      ReplaceCharConcat(head, ReplaceChar(s[1..], '\n', "\\n"), '\r', "\\r");
      if s[0] == '\n' {
        ReplaceCharAbsent(head, '\r', "\\r");
      } else {
        assert ReplaceChar(head, '\r', "\\r") == EscapeChar(s[0]) by {
          assert head[1..] == [];
        }
      }
      EscapeIsCharacterwise(s[1..]);
    }
  }

  /** The detail of an unexpected error: line breaks escaped, then cut to
      at most 989 characters. */
  function Sanitize(s: string): (r: string)
    ensures |r| <= 989
    ensures '\n' !in r && '\r' !in r
    ensures StartsWith(EscapeLineBreaks(s), r)
    ensures |EscapeLineBreaks(s)| <= 989 ==> r == EscapeLineBreaks(s)
    ensures |EscapeLineBreaks(s)| > 989 ==> |r| == 989
  {
    var escaped := EscapeLineBreaks(s);
    var r := Take(escaped, 989);
    assert forall x :: x in r ==> x in escaped;
    r
  }

  /** A text that is already short and free of line breaks is kept. */
  lemma SanitizeKeepsClean(s: string)
    requires '\n' !in s && '\r' !in s && |s| <= 989
    ensures Sanitize(s) == s
  {
    ReplaceCharAbsent(s, '\n', "\\n");
    ReplaceCharAbsent(s, '\r', "\\r");
  }

  /** Sanitising twice is sanitising once. */
  lemma SanitizeIdempotent(s: string)
    ensures Sanitize(Sanitize(s)) == Sanitize(s)
  {
    SanitizeKeepsClean(Sanitize(s));
  }

  /** The escape is not reversible: a real line break and a written-out
      `\n` give the same detail. */
  lemma EscapeLosesLineBreaks()
    ensures EscapeLineBreaks("\n") == EscapeLineBreaks("\\n")
  {
    EscapeIsCharacterwise("\n");
    EscapeIsCharacterwise("\\n");
    assert "\\n"[1..] == "n" && "n"[1..] == [];
  }

  // ---------------------------------------------------------------------
  // The handler

  /** A job as the service reports it after submission. */
  datatype JobInfo = JobInfo(project: string, location: string, jobId: string)

  /** The remote side: fetching the pipeline of a model version and reading
      the parameters it declares, and building and submitting a job with
      the given parameter values. Either may raise. */
  datatype Remote = Remote(
    pipelineParameters: (Json, Json, Json) -> Result<set<string>, Raised>,
    submit: map<string, Json> -> Result<JobInfo, Raised>)

  /** Python's name for the type of a decoded JSON value; the name tells
      the kinds apart. */
  function TypeName(j: Json): (name: string)
    ensures name == "dict" <==> j.JObject?
    ensures name == "list" <==> j.JArray?
    ensures name == "str" <==> j.JString?
    ensures name == "int" <==> j.JNumber?
    ensures name == "float" <==> j.JFloat?
    ensures name == "bool" <==> j.JBool?
    ensures name == "NoneType" <==> j.JNull?
  {
    match j
    case JNull => "NoneType"
    case JBool(_) => "bool"
    case JNumber(_) => "int"
    case JFloat(_) => "float"
    case JString(_) => "str"
    case JArray(_) => "list"
    case JObject(_) => "dict"
  }

  /** The pipeline stage of the handler: what is submitted, or the
      exception that escapes it. Unpacking a non-object
      `pipeline_parameters` raises a `TypeError`. */
  function Launch(req: JobRequest, cfg: EnvConfig, remote: Remote): (r: Result<JobInfo, Raised>)
    ensures remote.pipelineParameters(req.modelName, req.modelVersion, req.pipelineName).Failure?
      ==> r == Failure(remote.pipelineParameters(req.modelName, req.modelVersion, req.pipelineName).error)
  {
    match remote.pipelineParameters(req.modelName, req.modelVersion, req.pipelineName)
    case Failure(exc) => Failure(exc)
    case Success(accepted) =>
      var env := EnvParameters(cfg, accepted);
      match req.parameters
      case JObject(fields) => remote.submit(MergeParameters(fields, env))
      case other => Failure(OtherError("'" + TypeName(other) + "' object is not a mapping"))
  }

  /** `process_request` on a JSON object body, with the corrected
      exception handlers (`Classify`); `ProcessRequestAsWritten` is the
      handler as written. */
  function ProcessRequest(data: map<string, Json>, cfg: EnvConfig, remote: Remote): (reply: FlaskReply)
    ensures reply.status == 200 || reply.status == 400 || reply.status == 500
  {
    match ParseRequest(data)
    case Failure(problem) => ErrorToFlask(problem)
    case Success(req) =>
      match Launch(req, cfg, remote)
      case Success(job) => SuccessToFlask(SuccessResponse(job.project, job.location, job.jobId))
      case Failure(exc) => ErrorToFlask(Classify(exc))
  }

  /** A body without `model_name` or `model_version` is refused with 400
      before anything remote is done, and the detail names the key. */
  lemma MissingParameterRefused(data: map<string, Json>, cfg: EnvConfig, remote: Remote, other: Remote)
    requires "model_name" !in data || "model_version" !in data
    ensures ProcessRequest(data, cfg, remote).status == 400
    ensures ProcessRequest(data, cfg, remote) == ProcessRequest(data, cfg, other)
    ensures var key := if "model_name" !in data then "model_name" else "model_version";
      ProcessRequest(data, cfg, remote) == ErrorToFlask(MissingParameter(key))
  {
  }

  /** A well-formed request submits the request's parameters overridden by
      the declared environment parameters, and succeeds with 200 exactly
      when the submission does; a failed submission is answered by the
      corrected handlers. */
  lemma SubmitsMergedParameters(data: map<string, Json>, cfg: EnvConfig, remote: Remote, accepted: set<string>)
    requires "model_name" in data && "model_version" in data
    requires "pipeline_parameters" !in data || data["pipeline_parameters"].JObject?
    requires var req := ParseRequest(data).value;
      remote.pipelineParameters(req.modelName, req.modelVersion, req.pipelineName) == Success(accepted)
    ensures var fields := if "pipeline_parameters" in data then data["pipeline_parameters"].fields else map[];
      var submitted := remote.submit(MergeParameters(fields, EnvParameters(cfg, accepted)));
      && (ProcessRequest(data, cfg, remote).status == 200 <==> submitted.Success?)
      && (submitted.Success? ==>
            ProcessRequest(data, cfg, remote)
              == SuccessToFlask(SuccessResponse(submitted.value.project, submitted.value.location, submitted.value.jobId)))
      && (submitted.Failure? ==> ProcessRequest(data, cfg, remote) == ErrorToFlask(Classify(submitted.error)))
      && (submitted.Failure? ==>
            (ProcessRequestAsWritten(data, cfg, remote).None? <==> ClassifyAsWritten(submitted.error).None?))
  {
    var req := ParseRequest(data).value;
    assert ParseRequest(data) == Success(req);
    var fields := if "pipeline_parameters" in data then data["pipeline_parameters"].fields else map[];
    assert req.parameters == JObject(fields);
    var submitted := remote.submit(MergeParameters(fields, EnvParameters(cfg, accepted)));
    assert Launch(req, cfg, remote) == submitted;
    if submitted.Failure? {
      assert Classify(submitted.error).statusCode != 200;
    }
  }

  /** Parameters that are not a JSON object never reach the submission:
      the request fails as an unexpected error naming the value's type. */
  lemma NonObjectParametersUnexpected(data: map<string, Json>, cfg: EnvConfig, remote: Remote, accepted: set<string>)
    requires "model_name" in data && "model_version" in data
    requires "pipeline_parameters" in data && !data["pipeline_parameters"].JObject?
    requires var req := ParseRequest(data).value;
      remote.pipelineParameters(req.modelName, req.modelVersion, req.pipelineName) == Success(accepted)
    ensures ProcessRequest(data, cfg, remote).status == 500
    ensures ProcessRequest(data, cfg, remote)
      == ErrorToFlask(Classify(OtherError("'" + TypeName(data["pipeline_parameters"]) + "' object is not a mapping")))
  {
    var req := ParseRequest(data).value;
    assert ParseRequest(data) == Success(req);
    assert req.parameters == data["pipeline_parameters"];
    var exc := OtherError("'" + TypeName(data["pipeline_parameters"]) + "' object is not a mapping");
    assert Launch(req, cfg, remote) == Failure(exc);
    assert Classify(exc).statusCode == 500;
  }

  /** `process_request` as written: `None` where an exception handler
      itself fails on `exc.message`, so that no reply is built and the
      `AttributeError` escapes. */
  function ProcessRequestAsWritten(data: map<string, Json>, cfg: EnvConfig, remote: Remote): (reply: Option<FlaskReply>)
    ensures reply.None? <==>
      && ParseRequest(data).Success?
      && Launch(ParseRequest(data).value, cfg, remote).Failure?
      && ClassifyAsWritten(Launch(ParseRequest(data).value, cfg, remote).error).None?
  {
    match ParseRequest(data)
    case Failure(problem) => Some(ErrorToFlask(problem))
    case Success(req) =>
      match Launch(req, cfg, remote)
      case Success(job) => Some(SuccessToFlask(SuccessResponse(job.project, job.location, job.jobId)))
      case Failure(exc) =>
        match ClassifyAsWritten(exc)
        case None => None
        case Some(response) => Some(ErrorToFlask(response))
  }

  /** Wherever `process_request` as written replies, the corrected one
      sends the same reply. */
  lemma ProcessRequestAgreesWhereDefined(data: map<string, Json>, cfg: EnvConfig, remote: Remote)
    ensures ProcessRequestAsWritten(data, cfg, remote).Some?
      ==> ProcessRequestAsWritten(data, cfg, remote) == Some(ProcessRequest(data, cfg, remote))
  {
    if ParseRequest(data).Success? {
      var req := ParseRequest(data).value;
      if Launch(req, cfg, remote).Failure? {
        ClassifyAgreesWhereDefined(Launch(req, cfg, remote).error);
      }
    }
  }

  /** A pipeline file without a required key: reading its parameters raises
      `KeyError`, for which `process_request` as written builds no reply,
      while the corrected handler answers 500 `invalid_pipeline`. */
  lemma MissingPipelineKeyEscapes(data: map<string, Json>, cfg: EnvConfig, remote: Remote, key: string)
    requires "model_name" in data && "model_version" in data
    requires var req := ParseRequest(data).value;
      remote.pipelineParameters(req.modelName, req.modelVersion, req.pipelineName) == Failure(KeyError(key))
    ensures ProcessRequestAsWritten(data, cfg, remote).None?
    ensures ProcessRequest(data, cfg, remote) == ErrorToFlask(Classify(KeyError(key)))
    ensures ProcessRequest(data, cfg, remote).status == 500
    ensures Classify(KeyError(key)).kind == "invalid_pipeline"
  {
    var req := ParseRequest(data).value;
    assert ParseRequest(data) == Success(req);
    assert Launch(req, cfg, remote) == Failure(KeyError(key));
    assert ClassifyProblem(KeyError(key)) == InvalidPipeline;
  }

  /** An exception raised while reading the pipeline's parameters is
      answered with its classified problem: a missing pipeline gives 500
      `pipeline_not_found`, a refused fetch 500 `pipeline_access_denied`,
      and for API errors the handler as written sends the same reply. */
  lemma PipelineStageFailureClassified(data: map<string, Json>, cfg: EnvConfig, remote: Remote, exc: Raised)
    requires "model_name" in data && "model_version" in data
    requires var req := ParseRequest(data).value;
      remote.pipelineParameters(req.modelName, req.modelVersion, req.pipelineName) == Failure(exc)
    ensures ProcessRequest(data, cfg, remote) == ErrorToFlask(Classify(exc))
    ensures ProcessRequest(data, cfg, remote).status == StatusOf(ClassifyProblem(exc))
    ensures exc.ApiError? && exc.api == NotFound ==>
      ProcessRequest(data, cfg, remote).status == 500
      && ProcessRequest(data, cfg, remote).payload["type"] == JString("pipeline_not_found")
    ensures exc.ApiError? && exc.api == Forbidden ==>
      ProcessRequest(data, cfg, remote).status == 500
      && ProcessRequest(data, cfg, remote).payload["type"] == JString("pipeline_access_denied")
    ensures exc.ApiError? ==> ProcessRequestAsWritten(data, cfg, remote) == Some(ProcessRequest(data, cfg, remote))
  {
    var req := ParseRequest(data).value;
    assert ParseRequest(data) == Success(req);
    assert Launch(req, cfg, remote) == Failure(exc);
    var reply := ErrorToFlask(Classify(exc));
    assert ProcessRequest(data, cfg, remote) == reply;
    if exc.ApiError? {
      ClassifyAgreesWhereDefined(exc);
      assert ClassifyAsWritten(exc) == Some(Classify(exc));
      if exc.api == NotFound {
        assert ClassifyProblem(exc) == PipelineNotFound;
        assert reply.payload["type"] == JString(Classify(exc).kind);
      } else if exc.api == Forbidden {
        assert ClassifyProblem(exc) == PipelineAccessDenied;
        assert reply.payload["type"] == JString(Classify(exc).kind);
      }
    }
  }
}
