/** pkg/sentry/events.go: the events request compiler (GetEventsInput.ToQuery)
    and GetEvents, which reports the executed request string. */
module Events {
  import opened Wrappers
  import opened Strconv
  import opened TimeFormat
  import opened UrlValues
  import opened Client

  /** reqFields: the fixed projection every events request asks for. */
  const ReqFields: seq<string> := [
    "id", "title", "project", "project.id", "release", "count()",
    "epm()", "last_seen()", "failure_rate()", "level", "event.type", "platform"
  ]

  /** The limit actually requested: anything outside [1, 100] becomes 100. */
  function ClampLimit(limit: int): (r: int)
    ensures 1 <= r <= 100
    ensures r == limit || r == 100
    ensures 1 <= limit <= 100 ==> r == limit
  {
    if limit < 1 || limit > 100 then 100 else limit
  }

  /** Applying the clamp to a clamped limit changes nothing. */
  lemma ClampLimitIdempotent(limit: int)
    ensures ClampLimit(ClampLimit(limit)) == ClampLimit(limit)
  {
  }

  /** The organisation-scoped target path, up to and including '?'. */
  function EventsPath(org: string): string
  {
    "/api/0/organizations/" + org + "/events/?"
  }

  /** v with key holding exactly vs, or v itself when vs is empty: what a
      loop of Add calls over vs makes of a key v does not hold. */
  function WithValues(v: Values, key: string, vs: seq<string>): Values
    requires key !in v
  {
    if vs == [] then v else v[key := vs]
  }

  /** One more Add extends the key's list by the next value. */
  lemma AddExtends(before: Values, key: string, vs: seq<string>, i: nat)
    requires key !in before && i < |vs|
    ensures Add(WithValues(before, key, vs[..i]), key, vs[i]) == WithValues(before, key, vs[..i + 1])
  {
    assert vs[..i + 1] == vs[..i] + [vs[i]];
  }

  /** The single-valued parameters: query, start, end, sort when set, per_page. */
  function SingleParams(query: string, start: string, end: string, sort: string, perPage: string): Values
  {
    var base := map["query" := [query], "start" := [start], "end" := [end]];
    var sorted := if sort != "" then base["sort" := [sort]] else base;
    sorted["per_page" := [perPage]]
  }

  /** Each multi-valued key is still absent when its Add loop starts. */
  lemma MultiKeysFresh(query: string, start: string, end: string, sort: string, perPage: string,
                       projectIds: seq<string>)
    ensures var single := SingleParams(query, start, end, sort, perPage);
            "field" !in single && "project" !in WithValues(single, "field", ReqFields)
            && "environment" !in WithValues(WithValues(single, "field", ReqFields), "project", projectIds)
  {
  }

  /** The request parameters of one events query, given the rendered start
      and end times and the rendered (clamped) limit. */
  function EventsParams(query: string, start: string, end: string, sort: string, perPage: string,
                        projectIds: seq<string>, environments: seq<string>): Values
  {
    var fields := WithValues(SingleParams(query, start, end, sort, perPage), "field", ReqFields);
    var projects := WithValues(fields, "project", projectIds);
    WithValues(projects, "environment", environments)
  }

  /** What the parameters hold: query, start, end and per_page once each,
      sort only when set,
      every requested field in order, and project and environment exactly when
      there are any, holding the caller's values in order. No other key. */
  lemma EventsParamsContent(query: string, start: string, end: string, sort: string, perPage: string,
                            projectIds: seq<string>, environments: seq<string>)
    ensures var v := EventsParams(query, start, end, sort, perPage, projectIds, environments);
            Get(v, "query") == [query]
            && Get(v, "start") == [start] && Get(v, "end") == [end]
            && Get(v, "per_page") == [perPage]
            && ("sort" in v <==> sort != "") && (sort != "" ==> Get(v, "sort") == [sort])
            && Get(v, "field") == ReqFields
            && ("project" in v <==> projectIds != []) && Get(v, "project") == projectIds
            && ("environment" in v <==> environments != []) && Get(v, "environment") == environments
            && v.Keys <= {"query", "start", "end", "sort", "per_page", "field", "project", "environment"}
  {
  }

  /** The parameters of one events query: the times rendered in the fixed
      layout and the clamped limit in decimal. */
  function QueryParams(projectIds: seq<string>, environments: seq<string>, query: string,
                       from: DateTime, to: DateTime, sort: string, limit: int): Values
  {
    EventsParams(query, Format(from), Format(to), sort, FormatInt(ClampLimit(limit)), projectIds, environments)
  }

  /** The request string ToQuery returns for these inputs. */
  function EventsQueryString(org: string, projectIds: seq<string>, environments: seq<string>, query: string,
                             from: DateTime, to: DateTime, sort: string, limit: int): string
  {
    EventsPath(org) + Encode(QueryParams(projectIds, environments, query, from, to, sort, limit))
  }

  /** The request string is the organisation-scoped path followed by the
      encoded parameters, and under each key the encoding lists the values
      ToQuery sets: the rendered times, the clamped limit, the fields, the
      project ids and the environments, each in order. */
  lemma EventsQueryStringShape(org: string, projectIds: seq<string>, environments: seq<string>, query: string,
                               from: DateTime, to: DateTime, sort: string, limit: int)
    ensures var q := EventsQueryString(org, projectIds, environments, query, from, to, sort, limit);
            var ps := Pairs(QueryParams(projectIds, environments, query, from, to, sort, limit));
            EventsPath(org) <= q && q[|EventsPath(org)|..] == Join(ps)
            && ValuesFor(ps, "query") == [query]
            && ValuesFor(ps, "start") == [Format(from)] && ValuesFor(ps, "end") == [Format(to)]
            && ValuesFor(ps, "sort") == (if sort != "" then [sort] else [])
            && ValuesFor(ps, "per_page") == [FormatInt(ClampLimit(limit))]
            && ValuesFor(ps, "field") == ReqFields
            && ValuesFor(ps, "project") == projectIds
            && ValuesFor(ps, "environment") == environments
  {
    var params := QueryParams(projectIds, environments, query, from, to, sort, limit);
    EventsParamsContent(query, Format(from), Format(to), sort, FormatInt(ClampLimit(limit)), projectIds, environments);
    EncodedValuesOfKey(params, "query");
    EncodedValuesOfKey(params, "start");
    EncodedValuesOfKey(params, "end");
    EncodedValuesOfKey(params, "sort");
    EncodedValuesOfKey(params, "per_page");
    EncodedValuesOfKey(params, "field");
    EncodedValuesOfKey(params, "project");
    EncodedValuesOfKey(params, "environment");
  }

  /** A one-day range in 2024, no limit set and one project id. */
  lemma EventsExample()
    ensures var ps := Pairs(QueryParams(["10"], [], "", DateTime(2024, 1, 1, 0, 0, 0), DateTime(2024, 1, 2, 0, 0, 0), "", 0));
            ValuesFor(ps, "per_page") == ["100"]
            && ValuesFor(ps, "start") == ["2024-01-01T00:00:00"]
            && ValuesFor(ps, "end") == ["2024-01-02T00:00:00"]
            && ValuesFor(ps, "project") == ["10"]
            && ValuesFor(ps, "environment") == []
  {
    var from, to := DateTime(2024, 1, 1, 0, 0, 0), DateTime(2024, 1, 2, 0, 0, 0);
    var params := QueryParams(["10"], [], "", from, to, "", 0);
    assert FormatInt(ClampLimit(0)) == "100" by {
      assert FormatNat(1) == "1" && FormatNat(10) == "10" by { assert DigitChar(1) == '1' && DigitChar(0) == '0'; }
      assert DigitChar(0) == '0';
    }
    FormatExample();
    EventsParamsContent("", Format(from), Format(to), "", FormatInt(ClampLimit(0)), ["10"], []);
    EncodedValuesOfKey(params, "per_page");
    EncodedValuesOfKey(params, "start");
    EncodedValuesOfKey(params, "end");
    EncodedValuesOfKey(params, "project");
    EncodedValuesOfKey(params, "environment");
  }

  /** One range loop of Add calls: key, absent before, ends up holding
      exactly the values, in order. */
  method AddEach(params: Values, key: string, vs: seq<string>) returns (r: Values)
    requires key !in params
    ensures r == WithValues(params, key, vs)
  {
    r := params;
    for i := 0 to |vs|
      invariant r == WithValues(params, key, vs[..i])
    {
      AddExtends(params, key, vs, i);
      r := Add(r, key, vs[i]);
    }
    assert vs[..|vs|] == vs;
  }

  /** The body of ToQuery between the clamp and the encoding: three Set calls,
      an optional Set of sort, the Set of per_page, then one Add per field,
      per project id and per environment, in order. */
  method BuildParams(query: string, from: DateTime, to: DateTime, sort: string, limit: int,
                     projectIds: seq<string>, environments: seq<string>) returns (params: Values)
    ensures params == EventsParams(query, Format(from), Format(to), sort, FormatInt(limit), projectIds, environments)
  {
    MultiKeysFresh(query, Format(from), Format(to), sort, FormatInt(limit), projectIds);
    params := map[];
    params := Set(params, "query", query);
    params := Set(params, "start", Format(from));
    params := Set(params, "end", Format(to));
    if sort != "" {
      params := Set(params, "sort", sort);
    }
    params := Set(params, "per_page", FormatInt(limit));
    params := AddEach(params, "field", ReqFields);
    params := AddEach(params, "project", projectIds);
    params := AddEach(params, "environment", environments);
  }

  /** GetEventsInput: ToQuery overwrites Limit in place. */
  class GetEventsInput {
    var OrganizationSlug: string
    var ProjectIds: seq<string>
    var Environments: seq<string>
    var Query: string
    var From: DateTime
    var To: DateTime
    var Sort: string
    var Limit: int

    constructor (organizationSlug: string, projectIds: seq<string>, environments: seq<string>, query: string,
                 from: DateTime, to: DateTime, sort: string, limit: int)
      ensures OrganizationSlug == organizationSlug && ProjectIds == projectIds && Environments == environments
      ensures Query == query && From == from && To == to && Sort == sort && Limit == limit
    {
      OrganizationSlug, ProjectIds, Environments := organizationSlug, projectIds, environments;
      Query, From, To, Sort, Limit := query, from, to, sort, limit;
    }

    /** ToQuery: clamps Limit, then builds the parameters with Set and Add and
        returns the path followed by their encoding. */
    method ToQuery() returns (q: string)
      modifies this`Limit
      ensures Limit == ClampLimit(old(Limit))
      ensures q == EventsQueryString(OrganizationSlug, ProjectIds, Environments, Query, From, To, Sort, old(Limit))
    {
      var urlPath := "/api/0/organizations/" + OrganizationSlug + "/events/?";
      if Limit < 1 || Limit > 100 {
        Limit := 100;
      }
      var params := BuildParams(Query, From, To, Sort, Limit, ProjectIds, Environments);
      q := urlPath + Encode(params);
    }
  }

  /** GetEvents: the input is a copy, so the caller's value is not clamped.
      The executed string is BaseURL followed by the request string, whether
      or not the fetch fails. */
  method GetEvents(sc: SentryClient, organizationSlug: string, projectIds: seq<string>, environments: seq<string>,
                   query: string, from: DateTime, to: DateTime, sort: string, limit: int)
    returns (events: seq<SentryEvent>, executed: string, err: Option<Error>)
    ensures var path := EventsQueryString(organizationSlug, projectIds, environments, query, from, to, sort, limit);
            executed == sc.BaseURL + path
            && (sc.upstream.fetchEvents(path).Ok? ==> events == sc.upstream.fetchEvents(path).value && err == None)
            && (sc.upstream.fetchEvents(path).Err? ==> events == [] && err == Some(sc.upstream.fetchEvents(path).error))
  {
    var gii := new GetEventsInput(organizationSlug, projectIds, environments, query, from, to, sort, limit);
    var executedQueryString := gii.ToQuery();
    var out := sc.upstream.fetchEvents(executedQueryString);
    executed := sc.BaseURL + executedQueryString;
    match out {
      case Ok(data) => events, err := data, None;
      case Err(e) => events, err := [], Some(e);
    }
  }
}
