/** The metadata client (src/fancy_fashion/utils/metadata/client.py): each
    list operation is a request (parent scope plus filter text) sent to the
    service, whose records are then mapped one to one through the models.
    The service itself is a parameter: a function from request to the
    records it returns, with pagination already flattened. */
module MetadataClient {
  import opened Wrappers
  import opened MetadataExpr
  import opened MetadataModel
  import FilterParse
  import opened PyStrings

  /** A client bound to one metadata store for its whole life. */
  datatype Client = Client(projectId: string, region: string, metadataStore: string)

  /** A `ListContextsRequest`. */
  datatype ContextsRequest = ContextsRequest(parent: string, filter: string)

  /** A `ListArtifactsRequest`; `None` sends no filter at all. */
  datatype ArtifactsRequest = ArtifactsRequest(parent: string, filter: Option<string>)

  /** What the service returns for each kind of request. */
  datatype Transport = Transport(
    listContexts: ContextsRequest -> seq<ContextRecord>,
    listArtifacts: ArtifactsRequest -> seq<ArtifactRecord>)

  /** The `filter_expr` argument of `list_artifacts`: absent, a text, or an
      expression object (which Python always treats as true). */
  datatype FilterArg = NoFilter | TextFilter(text: string) | ExprFilter(expr: Expr)

  /** `VertexMlMetadataClient(project_id, region)`, with the store left at
      its default. */
  function NewClient(projectId: string, region: string): (c: Client)
    ensures c.projectId == projectId && c.region == region
    ensures c.metadataStore == "default"
  {
    Client(projectId, region, "default")
  }

  /** `_metastore_context`: the client's store, as a resource path. */
  function StorePath(c: Client): (path: string)
    ensures path == Join(["projects", c.projectId, "locations", c.region, "metadataStores", c.metadataStore], "/")
  {
    MetastoreContext(c.projectId, c.region, c.metadataStore)
  }

  /** `_pipeline_context`: a context inside the client's store. */
  function PipelinePath(c: Client, pipelineName: string): (path: string)
    ensures path == StorePath(c) + "/contexts/" + pipelineName
  {
    PipelineContext(c.projectId, c.region, c.metadataStore, pipelineName)
  }

  /** `_run_context`: addressed exactly like `_pipeline_context`. */
  function RunPath(c: Client, runName: string): (path: string)
    ensures path == PipelinePath(c, runName)
  {
    RunContext(c.projectId, c.region, c.metadataStore, runName)
  }

  // ---------------------------------------------------------------------
  // Requests

  /** The request `list_pipelines` sends. */
  function PipelinesRequest(c: Client): (req: ContextsRequest)
    ensures req.parent == MetastoreContext(c.projectId, c.region, c.metadataStore)
    ensures req.filter == "schema_title=\"" + "system.Pipeline" + "\""
  {
    ContextsRequest(StorePath(c), Render(SchemaTitle("system.Pipeline")))
  }

  /** The request `list_pipeline_runs(pipeline_name)` sends. */
  function PipelineRunsRequest(c: Client, pipelineName: string): (req: ContextsRequest)
    ensures req.parent == MetastoreContext(c.projectId, c.region, c.metadataStore)
    ensures req.filter
      == "(" + ("parent_contexts: \"" + (MetastoreContext(c.projectId, c.region, c.metadataStore)
         + "/contexts/" + pipelineName) + "\"") + " AND " + "schema_title=\"system.PipelineRun\"" + ")"
  {
    ContextsRequest(StorePath(c), Render(PipelineRunsFilter(c, pipelineName)))
  }

  /** The expression `list_pipeline_runs(pipeline_name)` filters by. */
  function PipelineRunsFilter(c: Client, pipelineName: string): (e: Expr)
    ensures e == And([HasParentContext(PipelinePath(c, pipelineName)), Equals("schema_title", "system.PipelineRun")])
  {
    Conj(HasParentContext(PipelinePath(c, pipelineName)), SchemaTitle("system.PipelineRun"))
  }

  /** The request `list_artifacts(filter_expr)` sends: no filter when the
      argument is falsy (absent or empty), its text otherwise. */
  function ArtifactsRequestFor(c: Client, filterExpr: FilterArg): (req: ArtifactsRequest)
    ensures req.parent == MetastoreContext(c.projectId, c.region, c.metadataStore)
    ensures req.filter.None? <==> (filterExpr.NoFilter? || filterExpr == TextFilter(""))
    ensures filterExpr.TextFilter? && filterExpr.text != "" ==> req.filter == Some(filterExpr.text)
    ensures filterExpr.ExprFilter? ==> req.filter == Some(Render(filterExpr.expr))
  {
    var filter :=
      match filterExpr
      case NoFilter => None
      case TextFilter(text) => if text == "" then None else Some(text)
      case ExprFilter(e) => Some(Render(e));
    ArtifactsRequest(StorePath(c), filter)
  }

  /** `_in_context_with_optional_schema`: membership in the context, and the
      schema title too when one is given (a falsy title is ignored). */
  function InContextWithOptionalSchema(context: string, schemaTitle: Option<string>): (e: Expr)
    ensures schemaTitle.Some? && schemaTitle.value != "" ==>
      Render(e) == "(" + ("in_context(\"" + context + "\")") + " AND " + ("schema_title=\"" + schemaTitle.value + "\"") + ")"
    ensures schemaTitle.None? || schemaTitle.value == "" ==>
      Render(e) == "in_context(\"" + context + "\")"
  {
    if schemaTitle.Some? && schemaTitle.value != "" then
      Conj(InContext(context), SchemaTitle(schemaTitle.value))
    else InContext(context)
  }

  /** The request `list_artifacts_for_pipeline(name, schema_title)` sends. */
  function ArtifactsForPipelineRequest(c: Client, pipelineName: string, schemaTitle: Option<string>): (req: ArtifactsRequest)
    ensures req.parent == MetastoreContext(c.projectId, c.region, c.metadataStore)
    ensures req.filter == Some(Render(InContextWithOptionalSchema(PipelinePath(c, pipelineName), schemaTitle)))
  {
    ArtifactsRequestFor(c, TextFilter(Render(InContextWithOptionalSchema(PipelinePath(c, pipelineName), schemaTitle))))
  }

  /** The request `list_artifacts_for_run(run, schema_title)` sends. */
  function ArtifactsForRunRequest(c: Client, runName: string, schemaTitle: Option<string>): (req: ArtifactsRequest)
    ensures req.parent == MetastoreContext(c.projectId, c.region, c.metadataStore)
    ensures req.filter == Some(Render(InContextWithOptionalSchema(RunPath(c, runName), schemaTitle)))
  {
    ArtifactsRequestFor(c, TextFilter(Render(InContextWithOptionalSchema(RunPath(c, runName), schemaTitle))))
  }

  // ---------------------------------------------------------------------
  // List operations, consumed to the end

  /** `list_pipelines`. */
  function ListPipelines(c: Client, t: Transport): (ps: seq<Pipeline>)
    ensures var rs := t.listContexts(PipelinesRequest(c));
      |ps| == |rs| && forall i :: 0 <= i < |rs| ==> ps[i] == PipelineFromRecord(rs[i])
  {
    PipelinesFromRecords(t.listContexts(PipelinesRequest(c)))
  }

  /** `list_pipeline_runs`. */
  function ListPipelineRuns(c: Client, t: Transport, pipelineName: string): (y: Yielded<PipelineRun>)
    ensures YieldedBy(y, t.listContexts(PipelineRunsRequest(c, pipelineName)), RunFromRecord)
  {
    RunsFromRecords(t.listContexts(PipelineRunsRequest(c, pipelineName)))
  }

  /** `list_artifacts`. */
  function ListArtifacts(c: Client, t: Transport, filterExpr: FilterArg): (y: Yielded<Artifact>)
    ensures YieldedBy(y, t.listArtifacts(ArtifactsRequestFor(c, filterExpr)), ArtifactFromRecord)
  {
    ArtifactsFromRecords(t.listArtifacts(ArtifactsRequestFor(c, filterExpr)))
  }

  /** `list_artifacts_for_pipeline`. */
  function ListArtifactsForPipeline(c: Client, t: Transport, pipelineName: string, schemaTitle: Option<string>): (y: Yielded<Artifact>)
    ensures YieldedBy(y, t.listArtifacts(ArtifactsForPipelineRequest(c, pipelineName, schemaTitle)), ArtifactFromRecord)
  {
    ArtifactsFromRecords(t.listArtifacts(ArtifactsForPipelineRequest(c, pipelineName, schemaTitle)))
  }

  /** `list_artifacts_for_run`. */
  function ListArtifactsForRun(c: Client, t: Transport, runName: string, schemaTitle: Option<string>): (y: Yielded<Artifact>)
    ensures YieldedBy(y, t.listArtifacts(ArtifactsForRunRequest(c, runName, schemaTitle)), ArtifactFromRecord)
  {
    ArtifactsFromRecords(t.listArtifacts(ArtifactsForRunRequest(c, runName, schemaTitle)))
  }

  // ---------------------------------------------------------------------
  // Properties

  /** Asking for a pipeline's artifacts and for a run's artifacts under the
      same name sends the same request: the two context builders agree. */
  lemma PipelineAndRunArtifactsAgree(c: Client, name: string, schemaTitle: Option<string>)
    ensures ArtifactsForPipelineRequest(c, name, schemaTitle) == ArtifactsForRunRequest(c, name, schemaTitle)
  {
  }

  /** The filter of `list_artifacts_for_run(run, "<title>")`. */
  lemma ArtifactsForRunFilter(c: Client, runName: string, title: string)
    requires title != ""
    ensures ArtifactsForRunRequest(c, runName, Some(title)).filter
      == Some("(" + ("in_context(\"" + (MetastoreContext(c.projectId, c.region, c.metadataStore)
              + "/contexts/" + runName) + "\")") + " AND " + ("schema_title=\"" + title + "\"") + ")")
  {
  }

  /** The run filter reads back as the conjunction it was built from, so
      the service sees exactly the intended predicate, provided the names
      hold no quote. */
  lemma PipelineRunsFilterReadsBack(c: Client, pipelineName: string)
    requires '"' !in PipelinePath(c, pipelineName)
    ensures PipelineRunsRequest(c, pipelineName).filter == Render(PipelineRunsFilter(c, pipelineName))
    ensures FilterParse.Parse(Render(PipelineRunsFilter(c, pipelineName)))
      == Some(And([HasParentContext(PipelinePath(c, pipelineName)), Equals("schema_title", "system.PipelineRun")]))
  {
    var parent, schema := HasParentContext(PipelinePath(c, pipelineName)), SchemaTitle("system.PipelineRun");
    assert PipelineRunsFilter(c, pipelineName) == And([parent, schema]);
    assert schema == Equals("schema_title", "system.PipelineRun");
    assert FilterParse.Unambiguous(schema) by {
      assert "schema_title"[0] == 's';
    }
    FilterParse.PairReadsBack(parent, schema);
  }

  /** When the service answers `list_pipeline_runs(n)` with runs whose first
      parent is pipeline `n`'s context, every run is yielded, in order, and
      each one reports `n` as its pipeline. */
  lemma RunsReportTheirPipeline(c: Client, t: Transport, n: string)
    requires '/' !in n
    requires var rs := t.listContexts(PipelineRunsRequest(c, n));
      forall i :: 0 <= i < |rs| ==>
        |rs[i].parentContexts| > 0 && rs[i].parentContexts[0] == PipelinePath(c, n)
    ensures var y := ListPipelineRuns(c, t, n);
      && y.failure.None?
      && |y.items| == |t.listContexts(PipelineRunsRequest(c, n))|
      && forall i :: 0 <= i < |y.items| ==> y.items[i].pipelineName == n
  {
    var rs := t.listContexts(PipelineRunsRequest(c, n));
    var y := ListPipelineRuns(c, t, n);
    var store := MetastoreContext(c.projectId, c.region, c.metadataStore);
    var prefix := store + "/contexts";
    assert PipelinePath(c, n) == prefix + "/" + n by {
      assert "/contexts/" == "/contexts" + "/";
      ConcatAssoc(store, "/contexts", "/");
    }
    forall i | 0 <= i < |y.items|
      ensures y.items[i].pipelineName == n
    {
      RunPipelineNameFromContext(rs[i], prefix, n);
    }
  }
}
