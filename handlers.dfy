/** pkg/plugin/handlers_query.go: project slug resolution, the per-query
    dispatch and the batch handler. The issue and stats fetches, the frame
    conversions and the frame metadata update live elsewhere and are given
    functions here. */
module Handlers {
  import opened Wrappers
  import opened Strconv
  import opened TimeFormat
  import opened Client
  import Cache
  import Projects
  import Events

  /** The decoded query description; the limits are int64 in Go. */
  datatype SentryQuery = SentryQuery(
    QueryType: string,
    ProjectIds: seq<string>,
    Environments: seq<string>,
    IssuesQuery: string,
    IssuesSort: string,
    IssuesLimit: int,
    EventsQuery: string,
    EventsSort: string,
    EventsLimit: int,
    StatsCategory: seq<string>,
    StatsFields: seq<string>,
    StatsGroupBy: seq<string>,
    StatsOutcome: seq<string>,
    StatsReason: seq<string>)

  /** backend.DataQuery: its RefID, the outcome of decoding its JSON
      (GetQuery), and its time range. */
  datatype DataQuery = DataQuery(RefID: string, Decoded: Result<SentryQuery>, From: DateTime, To: DateTime)

  /** The inputs of the issue and stats fetches, as the dispatch fills them. */
  datatype GetIssuesInput = GetIssuesInput(OrganizationSlug: string, ProjectIds: seq<string>,
                                           Environments: seq<string>, Query: string, Sort: string,
                                           Limit: int, From: DateTime, To: DateTime)

  datatype GetStatsV2Input = GetStatsV2Input(OrganizationSlug: string, From: DateTime, To: DateTime,
                                             ProjectIds: seq<string>, Category: seq<string>,
                                             Fields: seq<string>, GroupBy: seq<string>,
                                             Outcome: seq<string>, Reason: seq<string>)

  /** Records the core passes through without looking inside. */
  datatype Issue = Issue(ID: string, Title: string)
  datatype StatsResponse = StatsResponse(Groups: seq<string>)
  datatype Frame = Frame(Name: string, Content: string)

  /** What a client fetch method returns: records, executed string, error. */
  datatype Fetched<T> = Fetched(records: T, executed: string, err: Option<Error>)

  /** backend.DataResponse: its frames and its error. */
  datatype DataResponse = DataResponse(Frames: seq<Frame>, Error: Option<Error>)

  /** The collaborators that are not part of this model. */
  datatype Backend = Backend(
    getIssues: GetIssuesInput -> Fetched<seq<Issue>>,
    getStatsV2: GetStatsV2Input -> Fetched<StatsResponse>,
    frameName: (string, string) -> string,
    issuesFrame: (string, seq<Issue>) -> Result<Frame>,
    eventsFrame: (string, seq<SentryEvent>) -> Result<Frame>,
    statsFrame: (string, StatsResponse) -> Result<Frame>,
    updateFrameMeta: (Frame, string, SentryQuery, string, string) -> Frame,
    getErrorResponse: (DataResponse, string, Error) -> DataResponse)

  const EmptyResponse: DataResponse := DataResponse([], None)

  /** The response is one that GetErrorResponse built from an empty response,
      for some executed string and error. */
  ghost predicate ReportedError(backend: Backend, r: DataResponse)
  {
    exists executed: string, e: Error :: r == backend.getErrorResponse(EmptyResponse, executed, e)
  }

  // ---- ConvertProjectSlugsToIDs ----

  /** slugsToReplace: the entries strconv.Atoi rejects, in order. */
  function Slugs(ids: seq<string>): seq<string>
  {
    if ids == [] then []
    else Slugs(ids[..|ids| - 1]) + (if Atoi(ids[|ids| - 1]).None? then [ids[|ids| - 1]] else [])
  }

  /** The slugs are exactly the entries that do not parse as an integer. */
  lemma {:induction false} SlugsAreNonIntegers(ids: seq<string>)
    ensures forall s :: s in Slugs(ids) <==> s in ids && Atoi(s).None?
    ensures |Slugs(ids)| > 0 <==> exists i :: 0 <= i < |ids| && Atoi(ids[i]).None?
  {
    if ids != [] {
      var init := ids[..|ids| - 1];
      SlugsAreNonIntegers(init);
      assert ids == init + [ids[|ids| - 1]];
      forall s
        ensures s in ids <==> s in init || s == ids[|ids| - 1]
      {
        assert s in init ==> s in ids;
      }
      if Atoi(ids[|ids| - 1]).None? {
        assert |Slugs(ids)| > 0;
      } else if exists i :: 0 <= i < |ids| && Atoi(ids[i]).None? {
        var i :| 0 <= i < |ids| && Atoi(ids[i]).None?;
        assert 0 <= i < |init| && Atoi(init[i]).None?;
      }
    }
  }

  /** Resolution runs exactly when some entry is a slug. */
  predicate HasSlug(ids: seq<string>)
  {
    |Slugs(ids)| > 0
  }

  /** slugToIDMap: each project's slug mapped to its ID, later projects
      overwriting earlier ones with the same slug. */
  function SlugMap(ps: seq<SentryProject>): map<string, string>
  {
    if ps == [] then map[]
    else SlugMap(ps[..|ps| - 1])[ps[|ps| - 1].Slug := ps[|ps| - 1].ID]
  }

  /** The map holds exactly the fetched slugs, each bound to the ID of the last
      project carrying it. */
  lemma {:induction false} SlugMapLastMatch(ps: seq<SentryProject>, slug: string)
    ensures slug in SlugMap(ps) <==> exists i :: 0 <= i < |ps| && ps[i].Slug == slug
    ensures forall i :: 0 <= i < |ps| && ps[i].Slug == slug && (forall j :: i < j < |ps| ==> ps[j].Slug != slug)
              ==> slug in SlugMap(ps) && SlugMap(ps)[slug] == ps[i].ID
  {
    if ps != [] {
      var init := ps[..|ps| - 1];
      SlugMapLastMatch(init, slug);
      if ps[|ps| - 1].Slug != slug {
        if exists i :: 0 <= i < |ps| && ps[i].Slug == slug {
          var i :| 0 <= i < |ps| && ps[i].Slug == slug;
          assert init[i].Slug == slug;
        }
        forall i | 0 <= i < |ps| && ps[i].Slug == slug && (forall j :: i < j < |ps| ==> ps[j].Slug != slug)
          ensures slug in SlugMap(ps) && SlugMap(ps)[slug] == ps[i].ID
        {
          assert init[i].Slug == slug;
          assert forall j :: i < j < |init| ==> init[j].Slug != slug by {
            forall j | i < j < |init| ensures init[j].Slug != slug { assert init[j] == ps[j]; }
          }
        }
      }
    }
  }

  /** One position after the replacement loop: a known slug becomes its ID. */
  function Resolve(idOrSlug: string, slugToID: map<string, string>): string
  {
    if idOrSlug in slugToID then slugToID[idOrSlug] else idOrSlug
  }

  /** The replacement loop, applied to every position. */
  function Replace(ids: seq<string>, slugToID: map<string, string>): (r: seq<string>)
    ensures |r| == |ids|
    ensures forall i :: 0 <= i < |ids| ==> r[i] == Resolve(ids[i], slugToID)
  {
    seq(|ids|, i requires 0 <= i < |ids| => Resolve(ids[i], slugToID))
  }

  /** The paginated project listing of the client's own organisation ends. */
  ghost predicate ListingEnds(client: SentryClient)
  {
    Projects.Terminates(client.upstream.fetchProjectsPage, Projects.ProjectsURL(client.OrgSlug))
  }

  /** What ConvertProjectSlugsToIDs does: the new cache state and the query
      with its resolved project list. */
  ghost function ConvertSpec(s: Cache.CacheState<CacheValue>, client: SentryClient, query: SentryQuery, now: int)
    : (Cache.CacheState<CacheValue>, SentryQuery)
    requires HasSlug(query.ProjectIds) ==> ListingEnds(client)
  {
    if !HasSlug(query.ProjectIds) then (s, query)
    else
      var fetched := Projects.GetProjectsSpec(s, client, client.OrgSlug, true, false, now);
      match fetched.1
      case Err(_) => (fetched.0, query)
      case Ok(projects) => (fetched.0, query.(ProjectIds := Replace(query.ProjectIds, SlugMap(projects))))
  }

  /** The resolution only touches ProjectIds and keeps its length. Without a
      slug nothing is fetched and nothing changes; a failed listing changes
      only the cache; otherwise every position, numeric ones included, is
      looked up in the listing. */
  lemma ConvertSpecShape(s: Cache.CacheState<CacheValue>, client: SentryClient, query: SentryQuery, now: int)
    requires HasSlug(query.ProjectIds) ==> ListingEnds(client)
    ensures var (s', updated) := ConvertSpec(s, client, query, now);
            updated == query.(ProjectIds := updated.ProjectIds)
            && |updated.ProjectIds| == |query.ProjectIds|
            && (!HasSlug(query.ProjectIds) ==> s' == s && updated == query)
            && (HasSlug(query.ProjectIds) ==>
                  var fetched := Projects.GetProjectsSpec(s, client, client.OrgSlug, true, false, now);
                  s' == fetched.0
                  && (fetched.1.Err? ==> updated == query)
                  && (fetched.1.Ok? ==> forall i :: 0 <= i < |query.ProjectIds| ==>
                        updated.ProjectIds[i] == Resolve(query.ProjectIds[i], SlugMap(fetched.1.value))))
  {
  }

  /** Every entry becomes the ID of the last listed project with that slug,
      and stays as it is when no project has it. */
  lemma ResolvedEntry(ids: seq<string>, ps: seq<SentryProject>, i: nat)
    requires i < |ids|
    ensures (forall k :: 0 <= k < |ps| ==> ps[k].Slug != ids[i]) ==> Replace(ids, SlugMap(ps))[i] == ids[i]
    ensures forall k :: 0 <= k < |ps| && ps[k].Slug == ids[i] && (forall j :: k < j < |ps| ==> ps[j].Slug != ids[i])
              ==> Replace(ids, SlugMap(ps))[i] == ps[k].ID
  {
    SlugMapLastMatch(ps, ids[i]);
  }

  /** When every entry parses as an integer, nothing is fetched and nothing
      changes. */
  lemma AllNumericUntouched(s: Cache.CacheState<CacheValue>, client: SentryClient, query: SentryQuery, now: int)
    requires forall i :: 0 <= i < |query.ProjectIds| ==> Atoi(query.ProjectIds[i]).Some?
    ensures !HasSlug(query.ProjectIds)
    ensures ConvertSpec(s, client, query, now) == (s, query)
  {
    SlugsAreNonIntegers(query.ProjectIds);
  }

  /** One slug among numeric ids: the slug is replaced, the numeric id kept. */
  lemma ResolutionExample()
    ensures HasSlug(["my-proj", "99"])
    ensures Replace(["my-proj", "99"], SlugMap([SentryProject("42", "my-proj", "My project")])) == ["42", "99"]
    ensures Replace(["ghost-proj"], SlugMap([SentryProject("42", "my-proj", "My project")])) == ["ghost-proj"]
  {
    var ids: seq<string> := ["my-proj", "99"];
    AtoiRejectsNonDigit(ids[0], 0);
    SlugsAreNonIntegers(ids);
    var ps := [SentryProject("42", "my-proj", "My project")];
    assert ps[..0] == [];
    var m := SlugMap(ps);
    assert m == map["my-proj" := "42"];
    var r := Replace(ids, m);
    assert r[0] == "42" && r[1] == "99";
    var other: seq<string> := ["ghost-proj"];
    assert Replace(other, m)[0] == "ghost-proj";
  }

  /** Because every position is looked up once any slug exists, a numeric id
      that equals some project's slug is replaced too. */
  lemma NumericIdAlsoReplaced()
    ensures HasSlug(["x", "42"])
    ensures Replace(["x", "42"], SlugMap([SentryProject("7", "42", "Numeric slug")])) == ["x", "7"]
  {
    var ids: seq<string> := ["x", "42"];
    AtoiRejectsNonDigit(ids[0], 0);
    SlugsAreNonIntegers(ids);
    var ps := [SentryProject("7", "42", "Numeric slug")];
    assert ps[..0] == [];
    var m := SlugMap(ps);
    assert m == map["42" := "7"];
    var r := Replace(ids, m);
    assert r[0] == "x" && r[1] == "7";
  }

  /** The first loop of ConvertProjectSlugsToIDs: collect the entries
      strconv.Atoi rejects. */
  method CollectSlugs(ids: seq<string>) returns (slugsToReplace: seq<string>)
    ensures slugsToReplace == Slugs(ids)
  {
    slugsToReplace := [];
    for i := 0 to |ids|
      invariant slugsToReplace == Slugs(ids[..i])
    {
      assert ids[..i + 1][..i] == ids[..i];
      if Atoi(ids[i]).None? {
        slugsToReplace := slugsToReplace + [ids[i]];
      }
    }
    assert ids[..|ids|] == ids;
  }

  /** The second loop: map each listed project's slug to its ID. */
  method BuildSlugMap(ps: seq<SentryProject>) returns (slugToIDMap: map<string, string>)
    ensures slugToIDMap == SlugMap(ps)
  {
    slugToIDMap := map[];
    for i := 0 to |ps|
      invariant slugToIDMap == SlugMap(ps[..i])
    {
      assert ps[..i + 1][..i] == ps[..i];
      slugToIDMap := slugToIDMap[ps[i].Slug := ps[i].ID];
    }
    assert ps[..|ps|] == ps;
  }

  /** The third loop: overwrite, in place, every entry that is a known slug. */
  method ReplaceIds(projectIds: seq<string>, slugToIDMap: map<string, string>) returns (ids: seq<string>)
    ensures ids == Replace(projectIds, slugToIDMap)
  {
    ids := projectIds;
    for i := 0 to |ids|
      invariant |ids| == |projectIds|
      invariant forall j :: 0 <= j < i ==> ids[j] == Resolve(projectIds[j], slugToIDMap)
      invariant forall j :: i <= j < |ids| ==> ids[j] == projectIds[j]
    {
      if ids[i] in slugToIDMap {
        ids := ids[i := slugToIDMap[ids[i]]];
      }
    }
  }

  /** ConvertProjectSlugsToIDs(client, &query) at time now; the query is a
      local value of the caller, so the method returns its new value. */
  method ConvertProjectSlugsToIDs(client: SentryClient, query: SentryQuery, now: int) returns (updated: SentryQuery)
    requires HasSlug(query.ProjectIds) ==> ListingEnds(client)
    modifies client.cache
    ensures (client.cache.Snapshot(), updated) == ConvertSpec(old(client.cache.Snapshot()), client, query, now)
  {
    var slugsToReplace := CollectSlugs(query.ProjectIds);
    updated := query;
    if |slugsToReplace| > 0 {
      var projects := Projects.GetProjects(client, client.OrgSlug, true, false, now);
      if projects.Ok? {
        var slugToIDMap := BuildSlugMap(projects.value);
        var ids := ReplaceIds(query.ProjectIds, slugToIDMap);
        updated := query.(ProjectIds := ids);
      }
    }
  }

  // ---- QueryData for one query ----

  /** A successful branch: the converted frame, with its metadata updated,
      is the one frame of the response; a failed conversion is reported with
      the executed string. */
  function Finish(backend: Backend, frame: Result<Frame>, executed: string, query: SentryQuery,
                  client: SentryClient): (r: DataResponse)
    ensures frame.Err? ==> r == backend.getErrorResponse(EmptyResponse, executed, frame.error)
    ensures frame.Ok? ==>
              r.Error == None && |r.Frames| == 1
              && r.Frames[0] == backend.updateFrameMeta(frame.value, executed, query, client.BaseURL, client.OrgSlug)
  {
    match frame
    case Err(e) => backend.getErrorResponse(EmptyResponse, executed, e)
    case Ok(f) => EmptyResponse.(Frames := EmptyResponse.Frames + [backend.updateFrameMeta(f, executed, query, client.BaseURL, client.OrgSlug)])
  }

  predicate KnownType(queryType: string)
  {
    queryType == "issues" || queryType == "events" || queryType == "statsV2"
  }

  function IssuesInput(client: SentryClient, q: DataQuery, query: SentryQuery): GetIssuesInput
  {
    GetIssuesInput(client.OrgSlug, query.ProjectIds, query.Environments, query.IssuesQuery,
                   query.IssuesSort, query.IssuesLimit, q.From, q.To)
  }

  function StatsInput(client: SentryClient, q: DataQuery, query: SentryQuery): GetStatsV2Input
  {
    GetStatsV2Input(client.OrgSlug, q.From, q.To, query.ProjectIds, query.StatsCategory,
                    query.StatsFields, query.StatsGroupBy, query.StatsOutcome, query.StatsReason)
  }

  /** The events request string for a resolved query. */
  function EventsRequest(client: SentryClient, q: DataQuery, query: SentryQuery): string
  {
    Events.EventsQueryString(client.OrgSlug, query.ProjectIds, query.Environments, query.EventsQuery,
                             q.From, q.To, query.EventsSort, query.EventsLimit)
  }

  /** What GetEvents returns for a resolved query. */
  function EventsFetched(client: SentryClient, q: DataQuery, query: SentryQuery): Fetched<seq<SentryEvent>>
  {
    var path := EventsRequest(client, q, query);
    match client.upstream.fetchEvents(path)
    case Err(e) => Fetched([], client.BaseURL + path, Some(e))
    case Ok(events) => Fetched(events, client.BaseURL + path, None)
  }

  /** One branch after its fetch: a fetch error or a conversion error is
      reported with the executed string, otherwise the converted frame is the
      response's one frame. */
  function Answer<T>(client: SentryClient, backend: Backend, q: DataQuery, query: SentryQuery,
                     kind: string, out: Fetched<T>, toFrame: (string, T) -> Result<Frame>): DataResponse
  {
    if out.err.Some? then backend.getErrorResponse(EmptyResponse, out.executed, out.err.value)
    else Finish(backend, toFrame(backend.frameName(kind, q.RefID), out.records), out.executed, query, client)
  }

  /** A branch after its fetch either reports an error through
      GetErrorResponse or appends exactly one frame to the empty response. */
  lemma AnswerShape<T>(client: SentryClient, backend: Backend, q: DataQuery, query: SentryQuery,
                       kind: string, out: Fetched<T>, toFrame: (string, T) -> Result<Frame>)
    ensures var r := Answer(client, backend, q, query, kind, out, toFrame);
            ReportedError(backend, r) || (r.Error.None? && |r.Frames| == 1)
  {
    if out.err.Some? {
      assert Answer(client, backend, q, query, kind, out, toFrame)
             == backend.getErrorResponse(EmptyResponse, out.executed, out.err.value);
    } else {
      var frame := toFrame(backend.frameName(kind, q.RefID), out.records);
      if frame.Err? {
        assert Answer(client, backend, q, query, kind, out, toFrame)
               == backend.getErrorResponse(EmptyResponse, out.executed, frame.error);
      }
    }
  }

  /** The switch on the query type, once the query is decoded and resolved. */
  function Respond(client: SentryClient, backend: Backend, q: DataQuery, query: SentryQuery): DataResponse
  {
    if !KnownType(query.QueryType) then EmptyResponse.(Error := Some(UnknownQueryType))
    else if client.OrgSlug == "" then backend.getErrorResponse(EmptyResponse, "", InvalidOrganizationSlug)
    else if query.QueryType == "issues" then
      Answer(client, backend, q, query, "Issues", backend.getIssues(IssuesInput(client, q, query)), backend.issuesFrame)
    else if query.QueryType == "events" then
      Answer(client, backend, q, query, "Events", EventsFetched(client, q, query), backend.eventsFrame)
    else
      Answer(client, backend, q, query, "Stats", backend.getStatsV2(StatsInput(client, q, query)), backend.statsFrame)
  }

  /** An unknown type sets UnknownQueryType on the empty response, with no
      frames; a known type with an empty organisation slug is the
      GetErrorResponse of InvalidOrganizationSlug with an empty executed
      string, before anything is fetched; any other answer is either built
      by GetErrorResponse or holds exactly one frame and no error. */
  lemma RespondShape(client: SentryClient, backend: Backend, q: DataQuery, query: SentryQuery)
    ensures var r := Respond(client, backend, q, query);
            (!KnownType(query.QueryType) ==> r == DataResponse([], Some(UnknownQueryType)))
            && (KnownType(query.QueryType) && client.OrgSlug == "" ==>
                  r == backend.getErrorResponse(EmptyResponse, "", InvalidOrganizationSlug))
            && (KnownType(query.QueryType) ==> ReportedError(backend, r) || (r.Error.None? && |r.Frames| == 1))
  {
    var r := Respond(client, backend, q, query);
    if KnownType(query.QueryType) {
      if client.OrgSlug == "" {
        assert r == backend.getErrorResponse(EmptyResponse, "", InvalidOrganizationSlug);
      } else if query.QueryType == "issues" {
        AnswerShape(client, backend, q, query, "Issues", backend.getIssues(IssuesInput(client, q, query)), backend.issuesFrame);
      } else if query.QueryType == "events" {
        AnswerShape(client, backend, q, query, "Events", EventsFetched(client, q, query), backend.eventsFrame);
      } else {
        AnswerShape(client, backend, q, query, "Stats", backend.getStatsV2(StatsInput(client, q, query)), backend.statsFrame);
      }
    }
  }

  /** Resolution of this query, if it runs, needs the project listing to end. */
  ghost predicate ResolutionEnds(client: SentryClient, q: DataQuery)
  {
    q.Decoded.Ok? && HasSlug(q.Decoded.value.ProjectIds) ==> ListingEnds(client)
  }

  /** What QueryData does for one query: the new cache state and the response. */
  ghost function QueryOneSpec(s: Cache.CacheState<CacheValue>, client: SentryClient, backend: Backend,
                               q: DataQuery, now: int): (Cache.CacheState<CacheValue>, DataResponse)
    requires ResolutionEnds(client, q)
  {
    match q.Decoded
    case Err(e) => (s, backend.getErrorResponse(EmptyResponse, "", e))
    case Ok(decoded) =>
      var (s', query) := ConvertSpec(s, client, decoded, now);
      (s', Respond(client, backend, q, query))
  }

  /** The package-level QueryData(ctx, pCtx, backendQuery, client) at time now. */
  method QueryOne(client: SentryClient, backend: Backend, q: DataQuery, now: int) returns (r: DataResponse)
    requires ResolutionEnds(client, q)
    modifies client.cache
    ensures (client.cache.Snapshot(), r) == QueryOneSpec(old(client.cache.Snapshot()), client, backend, q, now)
  {
    if q.Decoded.Err? {
      return backend.getErrorResponse(EmptyResponse, "", q.Decoded.error);
    }
    var query := ConvertProjectSlugsToIDs(client, q.Decoded.value, now);
    r := Dispatch(client, backend, q, query);
  }

  /** What every branch does once its fetch has returned: report a fetch
      error with the executed string, otherwise convert the records into a
      frame named after the kind and the RefID, report a conversion error,
      or append the frame with its metadata updated. */
  method Deliver<T>(client: SentryClient, backend: Backend, q: DataQuery, query: SentryQuery,
                    kind: string, out: Fetched<T>, toFrame: (string, T) -> Result<Frame>) returns (r: DataResponse)
    ensures r == Answer(client, backend, q, query, kind, out, toFrame)
  {
    var response := EmptyResponse;
    match out.err {
      case Some(e) => return backend.getErrorResponse(response, out.executed, e);
      case None =>
    }
    var frame := toFrame(backend.frameName(kind, q.RefID), out.records);
    match frame {
      case Err(e) => return backend.getErrorResponse(response, out.executed, e);
      case Ok(f) =>
        var updatedFrame := backend.updateFrameMeta(f, out.executed, query, client.BaseURL, client.OrgSlug);
        response := response.(Frames := response.Frames + [updatedFrame]);
    }
    return response;
  }

  /** The switch of QueryData, on the decoded and resolved query. */
  method Dispatch(client: SentryClient, backend: Backend, q: DataQuery, query: SentryQuery) returns (r: DataResponse)
    ensures r == Respond(client, backend, q, query)
  {
    if query.QueryType == "issues" {
      if client.OrgSlug == "" {
        return backend.getErrorResponse(EmptyResponse, "", InvalidOrganizationSlug);
      }
      var out := backend.getIssues(IssuesInput(client, q, query));
      r := Deliver(client, backend, q, query, "Issues", out, backend.issuesFrame);
    } else if query.QueryType == "events" {
      if client.OrgSlug == "" {
        return backend.getErrorResponse(EmptyResponse, "", InvalidOrganizationSlug);
      }
      var events, executedQueryString, err := Events.GetEvents(client, client.OrgSlug, query.ProjectIds,
        query.Environments, query.EventsQuery, q.From, q.To, query.EventsSort, query.EventsLimit);
      r := Deliver(client, backend, q, query, "Events", Fetched(events, executedQueryString, err), backend.eventsFrame);
    } else if query.QueryType == "statsV2" {
      if client.OrgSlug == "" {
        return backend.getErrorResponse(EmptyResponse, "", InvalidOrganizationSlug);
      }
      var out := backend.getStatsV2(StatsInput(client, q, query));
      r := Deliver(client, backend, q, query, "Stats", out, backend.statsFrame);
    } else {
      r := EmptyResponse.(Error := Some(UnknownQueryType));
    }
  }

  /** A query that does not decode fails with an empty executed string and
      touches neither the cache nor the upstream. */
  lemma DecodeFailureIsTerminal(s: Cache.CacheState<CacheValue>, client: SentryClient, backend: Backend,
                                q: DataQuery, now: int)
    requires q.Decoded.Err?
    ensures QueryOneSpec(s, client, backend, q, now) == (s, backend.getErrorResponse(EmptyResponse, "", q.Decoded.error))
  {
  }

  /** With an empty organisation slug a known query type fails with
      InvalidOrganizationSlug and an empty executed string, after the
      resolution has run (and possibly fetched and cached the listing). */
  lemma EmptyOrgSlugAfterResolution(s: Cache.CacheState<CacheValue>, client: SentryClient, backend: Backend,
                                    q: DataQuery, now: int)
    requires ResolutionEnds(client, q)
    requires q.Decoded.Ok? && client.OrgSlug == ""
    requires KnownType(q.Decoded.value.QueryType)
    ensures QueryOneSpec(s, client, backend, q, now)
            == (ConvertSpec(s, client, q.Decoded.value, now).0,
                backend.getErrorResponse(EmptyResponse, "", InvalidOrganizationSlug))
  {
    ConvertSpecShape(s, client, q.Decoded.value, now);
  }

  /** An unknown query type gives UnknownQueryType and no frames; the
      resolution has run. */
  lemma UnknownTypeNoFrames(s: Cache.CacheState<CacheValue>, client: SentryClient, backend: Backend,
                            q: DataQuery, now: int)
    requires ResolutionEnds(client, q)
    requires q.Decoded.Ok? && !KnownType(q.Decoded.value.QueryType)
    ensures QueryOneSpec(s, client, backend, q, now)
            == (ConvertSpec(s, client, q.Decoded.value, now).0, DataResponse([], Some(UnknownQueryType)))
  {
    ConvertSpecShape(s, client, q.Decoded.value, now);
  }

  /** Every response is the unknown-type response (no frames), one built by
      GetErrorResponse, or a response with exactly one frame and no error. */
  lemma SuccessHasOneFrame(s: Cache.CacheState<CacheValue>, client: SentryClient, backend: Backend,
                           q: DataQuery, now: int)
    requires ResolutionEnds(client, q)
    ensures var r := QueryOneSpec(s, client, backend, q, now).1;
            r == DataResponse([], Some(UnknownQueryType))
            || ReportedError(backend, r)
            || (r.Error.None? && |r.Frames| == 1)
  {
    match q.Decoded
    case Err(e) =>
      assert QueryOneSpec(s, client, backend, q, now).1 == backend.getErrorResponse(EmptyResponse, "", e);
    case Ok(decoded) =>
      RespondShape(client, backend, q, ConvertSpec(s, client, decoded, now).1);
  }

  /** An events query requests the resolved project ids; when the fetch fails
      the error is reported with BaseURL followed by that request string. */
  lemma EventsFailureCarriesExecuted(s: Cache.CacheState<CacheValue>, client: SentryClient, backend: Backend,
                                     q: DataQuery, now: int)
    requires ResolutionEnds(client, q)
    requires q.Decoded.Ok? && q.Decoded.value.QueryType == "events" && client.OrgSlug != ""
    ensures var query := ConvertSpec(s, client, q.Decoded.value, now).1;
            var path := EventsRequest(client, q, query);
            client.upstream.fetchEvents(path).Err? ==>
              QueryOneSpec(s, client, backend, q, now).1
              == backend.getErrorResponse(EmptyResponse, client.BaseURL + path, client.upstream.fetchEvents(path).error)
  {
    ConvertSpecShape(s, client, q.Decoded.value, now);
  }

  // ---- SentryDatasource.QueryData: the batch ----

  /** One step of the batch loop: the cache state before a query, and the
      query, to the cache state after it and its response. */
  type Step = (Cache.CacheState<CacheValue>, DataQuery) -> (Cache.CacheState<CacheValue>, DataResponse)

  /** The batch loop over the queries: the cache state they leave and the
      responses recorded, keyed by RefID, a later query overwriting an
      earlier one with the same RefID. */
  function Batch(s: Cache.CacheState<CacheValue>, queries: seq<DataQuery>, step: Step)
    : (Cache.CacheState<CacheValue>, map<string, DataResponse>)
    decreases |queries|
  {
    if queries == [] then (s, map[])
    else
      var last := queries[|queries| - 1];
      var before := Batch(s, queries[..|queries| - 1], step);
      var answered := step(before.0, last);
      (answered.0, before.1[last.RefID := answered.1])
  }

  /** The response of query i, run at the cache state the earlier ones left. */
  function ResponseAt(s: Cache.CacheState<CacheValue>, queries: seq<DataQuery>, i: nat, step: Step): DataResponse
    requires i < |queries|
  {
    step(Batch(s, queries[..i], step).0, queries[i]).1
  }

  /** Every query leaves an entry, failing or not: the keys are exactly the
      RefIDs of the queries. */
  lemma {:induction false} BatchKeys(s: Cache.CacheState<CacheValue>, queries: seq<DataQuery>, step: Step)
    ensures Batch(s, queries, step).1.Keys == set i | 0 <= i < |queries| :: queries[i].RefID
    decreases |queries|
  {
    if queries != [] {
      var n := |queries| - 1;
      var init := queries[..n];
      BatchKeys(s, init, step);
      var all := set i | 0 <= i < |queries| :: queries[i].RefID;
      var earlier := set i | 0 <= i < n :: init[i].RefID;
      forall x | x in all
        ensures x in earlier || x == queries[n].RefID
      {
        var i :| 0 <= i < |queries| && queries[i].RefID == x;
        if i < n { assert init[i] == queries[i]; }
      }
      forall x | x in earlier
        ensures x in all
      {
        var i :| 0 <= i < n && init[i].RefID == x;
        assert queries[i] == init[i];
      }
      assert all == earlier + {queries[n].RefID};
    }
  }

  /** The entry of a RefID holds the response of the last query with that
      RefID, run at the cache state the queries before it left. */
  lemma {:induction false} BatchLastWins(s: Cache.CacheState<CacheValue>, queries: seq<DataQuery>, step: Step, i: nat)
    requires i < |queries|
    requires forall j :: i < j < |queries| ==> queries[j].RefID != queries[i].RefID
    ensures queries[i].RefID in Batch(s, queries, step).1
    ensures Batch(s, queries, step).1[queries[i].RefID] == ResponseAt(s, queries, i, step)
    decreases |queries|
  {
    var n := |queries| - 1;
    var init := queries[..n];
    if i == n {
      assert queries[..n] == init;
    } else {
      assert init[i] == queries[i];
      forall j | i < j < |init|
        ensures init[j].RefID != init[i].RefID
      {
        assert init[j] == queries[j];
      }
      BatchLastWins(s, init, step, i);
      assert init[..i] == queries[..i];
    }
  }

  /** The step the datasource takes for each query: QueryData for one query,
      on a query whose resolution ends (the batch requires every one to). */
  ghost function QueryStep(client: SentryClient, backend: Backend, now: int): Step
  {
    (st: Cache.CacheState<CacheValue>, q: DataQuery) =>
      if ResolutionEnds(client, q) then QueryOneSpec(st, client, backend, q, now) else (st, EmptyResponse)
  }

  /** The datasource: the instance lookup is given as its outcome. */
  class SentryDatasource {
    const instance: Result<SentryClient>
    const backend: Backend

    constructor (instance: Result<SentryClient>, backend: Backend)
      ensures this.instance == instance && this.backend == backend
    {
      this.instance, this.backend := instance, backend;
    }

    /** QueryData(ctx, req) at time now: an instance error yields only an
        "error" entry; otherwise every query is answered in order, with one
        entry per RefID. */
    method QueryData(queries: seq<DataQuery>, now: int) returns (responses: map<string, DataResponse>)
      requires instance.Ok? ==> forall i :: 0 <= i < |queries| ==> ResolutionEnds(instance.value, queries[i])
      modifies if instance.Ok? then {instance.value.cache} else {}
      ensures instance.Err? ==> responses == map["error" := DataResponse([], Some(instance.error))]
      ensures instance.Ok? ==>
                (instance.value.cache.Snapshot(), responses)
                == Batch(old(instance.value.cache.Snapshot()), queries, QueryStep(instance.value, backend, now))
    {
      if instance.Err? {
        return map["error" := EmptyResponse.(Error := Some(instance.error))];
      }
      var client := instance.value;
      responses := map[];
      ghost var s0 := client.cache.Snapshot();
      for i := 0 to |queries|
        invariant (client.cache.Snapshot(), responses) == Batch(s0, queries[..i], QueryStep(client, backend, now))
      {
        assert queries[..i + 1][..i] == queries[..i];
        var res := QueryOne(client, backend, queries[i], now);
        responses := responses[queries[i].RefID := res];
      }
      assert queries[..|queries|] == queries;
    }
  }
}
