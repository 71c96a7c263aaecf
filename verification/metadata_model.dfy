/** Typed projections of metadata-store records
    (src/fancy_fashion/utils/metadata/model.py). Pipelines copy their record;
    runs and artifacts also derive the pipeline (and run) they belong to
    from naming conventions, and those derivations can fail. */
module MetadataModel {
  import opened Wrappers
  import opened PyStrings
  import opened JsonValues

  /** A record timestamp. It is only ever copied. */
  datatype Timestamp = Timestamp(seconds: int, nanos: int)

  /** The service's artifact lifecycle states. */
  datatype ArtifactState = STATE_UNSPECIFIED | PENDING | LIVE

  /** A context record as the service returns it (pipelines and runs are
      both contexts, told apart by `schemaTitle`). */
  datatype ContextRecord = ContextRecord(
    name: string,
    displayName: string,
    etag: string,
    createTime: Timestamp,
    updateTime: Timestamp,
    parentContexts: seq<string>,
    schemaTitle: string,
    schemaVersion: string,
    metadata: map<string, Json>)

  /** An artifact record as the service returns it. */
  datatype ArtifactRecord = ArtifactRecord(
    name: string,
    displayName: string,
    uri: string,
    etag: string,
    createTime: Timestamp,
    updateTime: Timestamp,
    state: ArtifactState,
    description: string,
    schemaTitle: string,
    schemaVersion: string,
    metadata: map<string, Json>)

  datatype Pipeline = Pipeline(
    name: string,
    displayName: string,
    etag: string,
    createTime: Timestamp,
    updateTime: Timestamp,
    schemaTitle: string,
    schemaVersion: string)

  datatype PipelineRun = PipelineRun(
    name: string,
    displayName: string,
    etag: string,
    createTime: Timestamp,
    updateTime: Timestamp,
    parentContexts: seq<string>,
    schemaTitle: string,
    schemaVersion: string,
    metadata: map<string, Json>,
    pipelineName: string)

  datatype Artifact = Artifact(
    name: string,
    displayName: string,
    uri: string,
    etag: string,
    createTime: Timestamp,
    updateTime: Timestamp,
    state: string,
    description: string,
    schemaTitle: string,
    schemaVersion: string,
    metadata: map<string, Json>,
    pipelineName: string,
    pipelineRun: string)

  /** Why a derivation fails. Each is an IndexError in the source. */
  datatype DerivationError =
    | NoParentContext     // `parent_contexts[0]` of an empty list
    | NameWithoutProject  // `name.split("/")[1]` of a name without `/`
    | UriWithoutProject   // `uri.split("/<project>/", 1)[1]` when it does not occur

  /** What consuming a lazily mapped sequence produces: the models yielded
      before the first failing record, and that failure if there was one. */
  datatype Yielded<T> = Yielded(items: seq<T>, failure: Option<DerivationError>)

  /** `y` is what mapping `f` over `rs` yields when consumed to the end. */
  ghost predicate YieldedBy<R, T>(y: Yielded<T>, rs: seq<R>, f: R -> Result<T, DerivationError>)
  {
    && |y.items| <= |rs|
    && (forall i :: 0 <= i < |y.items| ==> f(rs[i]) == Success(y.items[i]))
    && (y.failure.None? <==> |y.items| == |rs|)
    && (y.failure.Some? ==> f(rs[|y.items|]) == Failure(y.failure.value))
  }

  /** A generator over `rs` that converts each record with `f`: it yields in
      order and stops at the first record `f` rejects. */
  function MapUntilFailure<R, T>(rs: seq<R>, f: R -> Result<T, DerivationError>): (y: Yielded<T>)
    ensures YieldedBy(y, rs, f)
  {
    if rs == [] then Yielded([], None)
    else
      match f(rs[0])
      case Failure(err) => Yielded([], Some(err))
      case Success(m) =>
        var tail := MapUntilFailure(rs[1..], f);
        Yielded([m] + tail.items, tail.failure)
  }

  /** `Artifact.State.name`: the enum member's name. */
  function StateName(s: ArtifactState): (name: string)
    ensures StateFromName(name) == Some(s)
  {
    match s
    case STATE_UNSPECIFIED => "STATE_UNSPECIFIED"
    case PENDING => "PENDING"
    case LIVE => "LIVE"
  }

  /** Reading a state back from its name. */
  function StateFromName(name: string): (state: Option<ArtifactState>)
  {
    if name == "STATE_UNSPECIFIED" then Some(STATE_UNSPECIFIED)
    else if name == "PENDING" then Some(PENDING)
    else if name == "LIVE" then Some(LIVE)
    else None
  }

  // ---------------------------------------------------------------------
  // Pipeline

  /** `Pipeline.from_record`: the seven fields, copied unchanged. */
  function PipelineFromRecord(r: ContextRecord): (p: Pipeline)
    ensures p.name == r.name && p.displayName == r.displayName && p.etag == r.etag
    ensures p.createTime == r.createTime && p.updateTime == r.updateTime
    ensures p.schemaTitle == r.schemaTitle && p.schemaVersion == r.schemaVersion
  {
    Pipeline(r.name, r.displayName, r.etag, r.createTime, r.updateTime, r.schemaTitle, r.schemaVersion)
  }

  /** Nothing is derived for a pipeline: records that agree on the copied
      fields give the same pipeline, whatever their parents and metadata. */
  lemma PipelineIgnoresOtherFields(r1: ContextRecord, r2: ContextRecord)
    requires r1.name == r2.name && r1.displayName == r2.displayName && r1.etag == r2.etag
    requires r1.createTime == r2.createTime && r1.updateTime == r2.updateTime
    requires r1.schemaTitle == r2.schemaTitle && r1.schemaVersion == r2.schemaVersion
    ensures PipelineFromRecord(r1) == PipelineFromRecord(r2)
  {
  }

  /** `Pipeline.from_records`: one pipeline per record, in order. */
  function PipelinesFromRecords(rs: seq<ContextRecord>): (ps: seq<Pipeline>)
    ensures |ps| == |rs|
    ensures forall i :: 0 <= i < |rs| ==> ps[i] == PipelineFromRecord(rs[i])
  {
    if rs == [] then [] else [PipelineFromRecord(rs[0])] + PipelinesFromRecords(rs[1..])
  }

  // ---------------------------------------------------------------------
  // PipelineRun

  /** `str(parent_contexts[0]).rsplit("/", 1)[-1]`: the last path segment of
      the first parent context, which fails when there is no parent. */
  function PipelineNameOfRun(parentContexts: seq<string>): (r: Result<string, DerivationError>)
    ensures r.Failure? <==> parentContexts == []
    ensures r.Failure? ==> r.error == NoParentContext
    ensures r.Success? ==> '/' !in r.value
    ensures r.Success? ==> var p := parentContexts[0];
      && |r.value| <= |p| && p[|p| - |r.value|..] == r.value
      && (|r.value| == |p| || p[|p| - |r.value| - 1] == '/')
  {
    if parentContexts == [] then Failure(NoParentContext)
    else Success(AfterLast(parentContexts[0], '/'))
  }

  /** `PipelineRun.from_record`: the record's fields plus the derived
      pipeline name. */
  function RunFromRecord(r: ContextRecord): (res: Result<PipelineRun, DerivationError>)
    ensures res.Failure? <==> r.parentContexts == []
    ensures res.Success? ==> var run := res.value;
      && run.name == r.name && run.displayName == r.displayName && run.etag == r.etag
      && run.createTime == r.createTime && run.updateTime == r.updateTime
      && run.parentContexts == r.parentContexts
      && run.schemaTitle == r.schemaTitle && run.schemaVersion == r.schemaVersion
      && run.metadata == r.metadata
      && PipelineNameOfRun(r.parentContexts) == Success(run.pipelineName)
  {
    match PipelineNameOfRun(r.parentContexts)
    case Failure(e) => Failure(e)
    case Success(pipelineName) =>
      Success(PipelineRun(r.name, r.displayName, r.etag, r.createTime, r.updateTime,
        r.parentContexts, r.schemaTitle, r.schemaVersion, r.metadata, pipelineName))
  }

  /** A run whose first parent is a context path ending in `/<n>`, with no
      `/` in `n`, belongs to the pipeline named `n`. */
  lemma RunPipelineNameFromContext(r: ContextRecord, prefix: string, n: string)
    requires |r.parentContexts| > 0 && r.parentContexts[0] == prefix + "/" + n
    requires '/' !in n
    ensures RunFromRecord(r).Success? && RunFromRecord(r).value.pipelineName == n
  {
    AfterLastOfSuffix(prefix, n, '/');
  }

  /** `PipelineRun.from_records`, consumed: runs in order up to the first
      record without a parent context. */
  function RunsFromRecords(rs: seq<ContextRecord>): (y: Yielded<PipelineRun>)
    ensures YieldedBy(y, rs, RunFromRecord)
    ensures y.failure.None? <==> forall i :: 0 <= i < |rs| ==> rs[i].parentContexts != []
  {
    var y := MapUntilFailure(rs, RunFromRecord);
    assert y.failure.Some? ==> rs[|y.items|].parentContexts == [];
    y
  }

  // ---------------------------------------------------------------------
  // Artifact

  /** `name.split("/")[1]`: the second `/`-segment of the resource name. */
  function ProjectIdOf(name: string): (r: Result<string, DerivationError>)
    ensures r.Failure? <==> '/' !in name
    ensures r.Failure? ==> r.error == NameWithoutProject
    ensures r.Success? ==> '/' !in r.value
  {
    var pieces := Split(name, '/');
    SplitSeveral(name, '/');
    if |pieces| < 2 then Failure(NameWithoutProject) else Success(pieces[1])
  }

  /** The project id is the second `/`-segment of the name, whether or not
      further segments follow. */
  lemma ProjectIdIsSecondSegment(h: string, p: string, rest: string)
    requires '/' !in h && '/' !in p
    ensures ProjectIdOf(h + "/" + p) == Success(p)
    ensures ProjectIdOf(h + "/" + p + "/" + rest) == Success(p)
  {
    assert "/" == ['/'];
    assert Split(h, '/') == [h] && Split(p, '/') == [p];
    SplitConcat(h, p, '/');
    assert h + "/" + p + "/" + rest == h + ['/'] + (p + ['/'] + rest) by {
      ConcatAssoc(h + ['/'], p, ['/']);
      ConcatAssoc(h + ['/'], p + ['/'], rest);
    }
    SplitConcat(h, p + ['/'] + rest, '/');
    SplitConcat(p, rest, '/');
  }

  /** In a resource name `projects/<p>/...` the project is `<p>`. */
  lemma ProjectIdOfResourceName(p: string, rest: string)
    requires '/' !in p
    ensures ProjectIdOf("projects/" + p + "/" + rest) == Success(p)
  {
    assert "projects/" == "projects" + "/";
    ProjectIdIsSecondSegment("projects", p, rest);
  }

  /** `uri.split("/<project>/", 1)[1].split("/", 1)[0]`: the segment right
      after the first `/<project>/` of the URI. */
  function RunOfUri(uri: string, projectId: string): (r: Result<string, DerivationError>)
    ensures r.Failure? <==> !Occurs(uri, "/" + projectId + "/")
    ensures r.Failure? ==> r.error == UriWithoutProject
    ensures r.Success? ==> var marker := "/" + projectId + "/";
      && FindFirst(uri, marker).Some?
      && '/' !in r.value
      && var after := uri[FindFirst(uri, marker).value + |marker|..];
         StartsWith(after, r.value) && (|after| == |r.value| || after[|r.value|] == '/')
  {
    var marker := "/" + projectId + "/";
    var parts := SplitOnce(uri, marker);
    if |parts| < 2 then Failure(UriWithoutProject)
    else
      assert parts[1] == uri[|parts[0]| + |marker|..];
      SplitOnceHead(parts[1], '/');
      Success(SplitOnce(parts[1], "/")[0])
  }

  /** `"-".join(run.split("-")[:-1])`: the run name without its last
      hyphen-separated token. */
  function PipelineNameOfArtifactRun(run: string): (name: string)
    ensures '-' in run ==> name + "-" + AfterLast(run, '-') == run
    ensures '-' !in run ==> name == ""
  {
    var parts := Split(run, '-');
    SplitSeveral(run, '-');
    var name := Join(parts[..|parts| - 1], "-");
    if |parts| >= 2 then
      JoinSplit(run, '-');
      JoinSnoc(parts[..|parts| - 1], parts[|parts| - 1], "-");
      assert parts[..|parts| - 1] + [parts[|parts| - 1]] == parts;
      AfterLastIsLastPiece(run, '-');
      name
    else
      name
  }

  /** `Artifact.from_record`: the record's fields, the state's name, and
      the run and pipeline derived from the name and the URI. */
  function ArtifactFromRecord(r: ArtifactRecord): (res: Result<Artifact, DerivationError>)
    ensures res.Success? <==>
      (ProjectIdOf(r.name).Success? && Occurs(r.uri, "/" + ProjectIdOf(r.name).value + "/"))
    ensures res.Success? ==> var a := res.value;
      && a.name == r.name && a.displayName == r.displayName && a.uri == r.uri
      && a.etag == r.etag && a.createTime == r.createTime && a.updateTime == r.updateTime
      && a.state == StateName(r.state) && a.description == r.description
      && a.schemaTitle == r.schemaTitle && a.schemaVersion == r.schemaVersion
      && a.metadata == r.metadata
      && RunOfUri(r.uri, ProjectIdOf(r.name).value) == Success(a.pipelineRun)
      && a.pipelineName == PipelineNameOfArtifactRun(a.pipelineRun)
  {
    match ProjectIdOf(r.name)
    case Failure(e) => Failure(e)
    case Success(projectId) =>
      match RunOfUri(r.uri, projectId)
      case Failure(e) => Failure(e)
      case Success(run) =>
        Success(Artifact(r.name, r.displayName, r.uri, r.etag, r.createTime, r.updateTime,
          StateName(r.state), r.description, r.schemaTitle, r.schemaVersion, r.metadata,
          PipelineNameOfArtifactRun(run), run))
  }

  /** The run segment of a URI `<prefix>/<project>/<run>[/...]` whose first
      `/<project>/` is the one after `<prefix>` is `<run>`. */
  lemma RunOfConventionalUri(uri: string, p: string, prefix: string, run: string, tail: string)
    requires '/' !in run
    requires uri == prefix + "/" + p + "/" + run + tail
    requires !Occurs(prefix + "/" + p, "/" + p + "/")
    requires tail == "" || tail[0] == '/'
    ensures RunOfUri(uri, p) == Success(run)
  {
    var marker := "/" + p + "/";
    assert uri == prefix + marker + (run + tail);
    assert OccursAt(uri, marker, |prefix|) by {
      assert uri[|prefix|..|prefix| + |marker|] == marker;
    }
    forall j | 0 <= j < |prefix|
      ensures !OccursAt(uri, marker, j)
    {
      var head := prefix + "/" + p;
      assert uri[..|head|] == head;
      if OccursAt(uri, marker, j) {
        assert head[j..j + |marker|] == uri[j..j + |marker|];
        assert OccursAt(head, marker, j);
      }
    }
    var i := FindFirst(uri, marker).value;
    assert i == |prefix|;
    assert uri[i + |marker|..] == run + tail;
    SplitOnceHead(run + tail, '/');
    HeadBeforeSlash(run + tail, run, tail, SplitOnce(run + tail, "/")[0]);
  }

  /** The text before the first `/` of `run + tail`, when `run` has no `/`
      and `tail` is empty or starts with one, is `run`. */
  lemma HeadBeforeSlash(after: string, run: string, tail: string, got: string)
    requires after == run + tail && '/' !in run && (tail == "" || tail[0] == '/')
    requires '/' !in got && StartsWith(after, got) && (|got| == |after| || after[|got|] == '/')
    ensures got == run
  {
    assert got == after[..|got|];
    assert forall k :: 0 <= k < |got| ==> got[k] == after[k];
    assert forall k :: 0 <= k < |run| ==> run[k] == after[k];
    assert |tail| > 0 ==> after[|run|] == tail[0];
    if |got| < |run| {
    } else if |got| > |run| {
    }
  }

  /** An artifact named `projects/<project>/...` and stored under
      `<prefix>/<project>/<run>[/...]` belongs to run `<run>`; its pipeline
      is `<run>` without the last hyphen-separated token. */
  lemma ArtifactDerivedFromConvention(
    r: ArtifactRecord, p: string, nameRest: string, prefix: string, run: string, tail: string)
    requires '/' !in p && '/' !in run
    requires r.name == "projects/" + p + "/" + nameRest
    requires r.uri == prefix + "/" + p + "/" + run + tail
    requires !Occurs(prefix + "/" + p, "/" + p + "/")
    requires tail == "" || tail[0] == '/'
    ensures ArtifactFromRecord(r).Success?
    ensures ArtifactFromRecord(r).value.pipelineRun == run
    ensures '-' in run ==> ArtifactFromRecord(r).value.pipelineName + "-" + AfterLast(run, '-') == run
  {
    ProjectIdOfResourceName(p, nameRest);
    RunOfConventionalUri(r.uri, p, prefix, run, tail);
  }

  /** `Artifact.from_records`, consumed: artifacts in order up to the first
      record whose name or URI breaks the convention. */
  function ArtifactsFromRecords(rs: seq<ArtifactRecord>): (y: Yielded<Artifact>)
    ensures YieldedBy(y, rs, ArtifactFromRecord)
  {
    MapUntilFailure(rs, ArtifactFromRecord)
  }
}
