/** pkg/sentry/projects.go: the project listing with a read-through cache, the
    cursor-following pagination loop, and the team-scoped listing. */
module Projects {
  import opened Wrappers
  import opened Client
  import Cache

  /** projectCacheKey: the key every successful listing is stored under. */
  const ProjectCacheKey: string := "projects"

  /** The key a listing is looked up under: "-pagination" is appended in
      paginated mode, so lookup and store keys differ in that mode. */
  function LookupKey(withPagination: bool): (k: string)
    ensures withPagination ==> k == ProjectCacheKey + "-pagination"
    ensures k == ProjectCacheKey <==> !withPagination
  {
    if withPagination then ProjectCacheKey + "-pagination" else ProjectCacheKey
  }

  /** An empty organisation slug falls back to the client's own. */
  function OrgOrDefault(sc: SentryClient, organizationSlug: string): (org: string)
    ensures organizationSlug != "" ==> org == organizationSlug
    ensures organizationSlug == "" ==> org == sc.OrgSlug
  {
    if organizationSlug == "" then sc.OrgSlug else organizationSlug
  }

  function ProjectsURL(org: string): string
  {
    "/api/0/organizations/" + org + "/projects/"
  }

  function TeamProjectsURL(org: string, team: string): string
  {
    "/api/0/teams/" + org + "/" + team + "/projects/"
  }

  // ---- the pagination loop, against an abstract page source ----

  /** Following next-page targets from url reaches "" or a failing page
      within n fetches. The Go loop has no bound; it ends only if this holds
      for some n. */
  ghost predicate EndsWithin(fetchPage: string -> Result<Page>, url: string, n: nat)
    decreases n
  {
    url == "" ||
    (n > 0 && match fetchPage(url)
              case Err(_) => true
              case Ok(page) => EndsWithin(fetchPage, page.nextURL, n - 1))
  }

  ghost predicate Terminates(fetchPage: string -> Result<Page>, url: string)
  {
    exists n: nat :: EndsWithin(fetchPage, url, n)
  }

  /** The listing starting at url: all batches concatenated in page order,
      or the first page error (earlier batches are discarded). */
  ghost function Collect(fetchPage: string -> Result<Page>, url: string, n: nat): Result<seq<SentryProject>>
    requires EndsWithin(fetchPage, url, n)
    decreases n
  {
    if url == "" then Ok([])
    else match fetchPage(url)
      case Err(e) => Err(e)
      case Ok(page) => Prepend(page.batch, Collect(fetchPage, page.nextURL, n - 1))
  }

  function Prepend(batch: seq<SentryProject>, rest: Result<seq<SentryProject>>): Result<seq<SentryProject>>
  {
    match rest
    case Ok(ps) => Ok(batch + ps)
    case Err(e) => Err(e)
  }

  lemma PrependTwice(a: seq<SentryProject>, b: seq<SentryProject>, rest: Result<seq<SentryProject>>)
    ensures Prepend(a, Prepend(b, rest)) == Prepend(a + b, rest)
  {
    if rest.Ok? { assert a + (b + rest.value) == (a + b) + rest.value; }
  }

  /** The page bound only has to be large enough: any two bounds give the same listing. */
  lemma {:induction false} CollectIndependent(fetchPage: string -> Result<Page>, url: string, n: nat, m: nat)
    requires EndsWithin(fetchPage, url, n) && EndsWithin(fetchPage, url, m)
    ensures Collect(fetchPage, url, n) == Collect(fetchPage, url, m)
    decreases n
  {
    if url != "" && fetchPage(url).Ok? {
      CollectIndependent(fetchPage, fetchPage(url).value.nextURL, n - 1, m - 1);
    }
  }

  ghost function AllPages(fetchPage: string -> Result<Page>, url: string): Result<seq<SentryProject>>
    requires Terminates(fetchPage, url)
  {
    var n :| EndsWithin(fetchPage, url, n);
    Collect(fetchPage, url, n)
  }

  lemma AllPagesIsCollect(fetchPage: string -> Result<Page>, url: string, n: nat)
    requires EndsWithin(fetchPage, url, n)
    ensures Terminates(fetchPage, url) && AllPages(fetchPage, url) == Collect(fetchPage, url, n)
  {
    var k :| EndsWithin(fetchPage, url, k) && AllPages(fetchPage, url) == Collect(fetchPage, url, k);
    CollectIndependent(fetchPage, url, n, k);
  }

  /** A successful listing fetched its first page successfully, and that
      page's records come first. */
  lemma {:induction false} CollectOkStartsWithFirstBatch(fetchPage: string -> Result<Page>, url: string, n: nat)
    requires EndsWithin(fetchPage, url, n) && url != ""
    requires Collect(fetchPage, url, n).Ok?
    ensures fetchPage(url).Ok?
    ensures fetchPage(url).value.batch <= Collect(fetchPage, url, n).value
  {
  }

  /** One failing page anywhere makes the whole listing fail with that error. */
  lemma {:induction false} CollectFailsOnFailingPage(fetchPage: string -> Result<Page>, url: string, n: nat, k: nat, e: Error)
    requires EndsWithin(fetchPage, url, n)
    requires FollowN(fetchPage, url, k) != "" && fetchPage(FollowN(fetchPage, url, k)) == Err(e)
    requires forall j :: 0 <= j < k ==> FollowN(fetchPage, url, j) != "" && fetchPage(FollowN(fetchPage, url, j)).Ok?
    ensures Collect(fetchPage, url, n) == Err(e)
    decreases k
  {
    assert FollowN(fetchPage, url, 0) == url;
    if k > 0 {
      assert url != "" && fetchPage(url).Ok?;
      var next := fetchPage(url).value.nextURL;
      forall j | 0 <= j < k - 1
        ensures FollowN(fetchPage, next, j) != "" && fetchPage(FollowN(fetchPage, next, j)).Ok?
      {
        FollowNStep(fetchPage, url, j);
      }
      FollowNStep(fetchPage, url, k - 1);
      CollectFailsOnFailingPage(fetchPage, next, n - 1, k - 1, e);
    }
  }

  /** The target reached after following k next-page links from url. */
  ghost function FollowN(fetchPage: string -> Result<Page>, url: string, k: nat): string
    decreases k
  {
    if k == 0 || url == "" then url
    else match fetchPage(url)
      case Err(_) => url
      case Ok(page) => FollowN(fetchPage, page.nextURL, k - 1)
  }

  lemma FollowNStep(fetchPage: string -> Result<Page>, url: string, j: nat)
    requires url != "" && fetchPage(url).Ok?
    ensures FollowN(fetchPage, url, j + 1) == FollowN(fetchPage, fetchPage(url).value.nextURL, j)
  {
  }

  // ---- GetProjects ----

  /** What GetProjects does, as a function of the cache state it starts from:
      the new cache state and the result. */
  ghost function GetProjectsSpec(s: Cache.CacheState<CacheValue>, sc: SentryClient, organizationSlug: string,
                                 withPagination: bool, bypassCache: bool, now: int)
    : (Cache.CacheState<CacheValue>, Result<seq<SentryProject>>)
    requires withPagination ==> Terminates(sc.upstream.fetchProjectsPage, ProjectsURL(OrgOrDefault(sc, organizationSlug)))
  {
    var looked := if bypassCache then (s, None) else Cache.ApplyGet(s, LookupKey(withPagination), now);
    if looked.1.Some? && looked.1.value.ProjectList? then (looked.0, Ok(looked.1.value.projects))
    else
      var url := ProjectsURL(OrgOrDefault(sc, organizationSlug));
      var fetched := if withPagination then AllPages(sc.upstream.fetchProjectsPage, url)
                     else sc.upstream.fetchProjects(url);
      match fetched
      case Err(e) => (looked.0, Err(e))
      case Ok(ps) => (Cache.ApplySet(looked.0, ProjectCacheKey, ProjectList(ps), Cache.DefaultCacheTTL, now), Ok(ps))
  }

  /** GetProjects(organizationSlug, withPagination, bypassCache) at time now. */
  method GetProjects(sc: SentryClient, organizationSlug: string, withPagination: bool, bypassCache: bool, now: int)
    returns (r: Result<seq<SentryProject>>)
    requires withPagination ==> Terminates(sc.upstream.fetchProjectsPage, ProjectsURL(OrgOrDefault(sc, organizationSlug)))
    modifies sc.cache
    ensures (sc.cache.Snapshot(), r)
            == GetProjectsSpec(old(sc.cache.Snapshot()), sc, organizationSlug, withPagination, bypassCache, now)
  {
    if !bypassCache {
      var cacheKey := ProjectCacheKey;
      if withPagination {
        cacheKey := cacheKey + "-pagination";
      }
      var cacheValue := sc.cache.Get(cacheKey, now);
      if cacheValue.Some? && cacheValue.value.ProjectList? {
        return Ok(cacheValue.value.projects);
      }
    }
    ghost var looked := sc.cache.Snapshot();
    var projects: seq<SentryProject> := [];
    var org := organizationSlug;
    if org == "" {
      org := sc.OrgSlug;
    }
    var url := "/api/0/organizations/" + org + "/projects/";
    if withPagination {
      var fetchPage := sc.upstream.fetchProjectsPage;
      ghost var start := url;
      ghost var n: nat :| EndsWithin(fetchPage, url, n);
      ghost var left: nat := n;
      assert Prepend([], Collect(fetchPage, url, left)) == Collect(fetchPage, url, left) by {
        if Collect(fetchPage, url, left).Ok? { assert [] + Collect(fetchPage, url, left).value == Collect(fetchPage, url, left).value; }
      }
      while url != ""
        invariant EndsWithin(fetchPage, url, left)
        invariant Collect(fetchPage, start, n) == Prepend(projects, Collect(fetchPage, url, left))
        invariant sc.cache.Snapshot() == looked
        decreases left
      {
        var page := fetchPage(url);
        if page.Err? {
          AllPagesIsCollect(fetchPage, start, n);
          return Err(page.error);
        }
        assert Collect(fetchPage, url, left) == Prepend(page.value.batch, Collect(fetchPage, page.value.nextURL, left - 1));
        PrependTwice(projects, page.value.batch, Collect(fetchPage, page.value.nextURL, left - 1));
        projects := projects + page.value.batch;
        url := page.value.nextURL;
        left := left - 1;
      }
      AllPagesIsCollect(fetchPage, start, n);
      assert projects + [] == projects;
    } else {
      var fetched := sc.upstream.fetchProjects(url);
      if fetched.Err? {
        return Err(fetched.error);
      }
      projects := fetched.value;
    }
    sc.cache.Set(ProjectCacheKey, ProjectList(projects), Cache.DefaultCacheTTL, now);
    return Ok(projects);
  }

  /** A cache hit holding a project list is returned at once: nothing is
      fetched and the cache is left exactly as it was. */
  lemma CacheHitReturnsCached(s: Cache.CacheState<CacheValue>, sc: SentryClient, organizationSlug: string,
                              withPagination: bool, now: int, ps: seq<SentryProject>)
    requires withPagination ==> Terminates(sc.upstream.fetchProjectsPage, ProjectsURL(OrgOrDefault(sc, organizationSlug)))
    requires Cache.ApplyGet(s, LookupKey(withPagination), now).1 == Some(ProjectList(ps))
    ensures GetProjectsSpec(s, sc, organizationSlug, withPagination, false, now) == (s, Ok(ps))
  {
  }

  /** The listing GetProjects fetches when it does fetch. */
  ghost function Fetched(sc: SentryClient, organizationSlug: string, withPagination: bool): Result<seq<SentryProject>>
    requires withPagination ==> Terminates(sc.upstream.fetchProjectsPage, ProjectsURL(OrgOrDefault(sc, organizationSlug)))
  {
    var url := ProjectsURL(OrgOrDefault(sc, organizationSlug));
    if withPagination then AllPages(sc.upstream.fetchProjectsPage, url) else sc.upstream.fetchProjects(url)
  }

  /** A miss, a hit of another type, or bypassCache all fetch. A fetch error
      is returned and the cache keeps only what the lookup left; a success is
      returned and stored under "projects" for five minutes. */
  lemma MissFetchesAndStores(s: Cache.CacheState<CacheValue>, sc: SentryClient, organizationSlug: string,
                             withPagination: bool, bypassCache: bool, now: int)
    requires withPagination ==> Terminates(sc.upstream.fetchProjectsPage, ProjectsURL(OrgOrDefault(sc, organizationSlug)))
    requires !bypassCache ==> !(Cache.ApplyGet(s, LookupKey(withPagination), now).1.Some?
                                && Cache.ApplyGet(s, LookupKey(withPagination), now).1.value.ProjectList?)
    ensures var after := if bypassCache then s else Cache.ApplyGet(s, LookupKey(withPagination), now).0;
            var r := GetProjectsSpec(s, sc, organizationSlug, withPagination, bypassCache, now);
            r.1 == Fetched(sc, organizationSlug, withPagination)
            && (r.1.Err? ==> r.0 == after)
            && (r.1.Ok? ==> r.0 == Cache.ApplySet(after, ProjectCacheKey, ProjectList(r.1.value), Cache.DefaultCacheTTL, now))
  {
  }

  /** bypassCache never reads the cache, so nothing is deleted by a lookup. */
  lemma BypassNeverReads(s: Cache.CacheState<CacheValue>, sc: SentryClient, organizationSlug: string,
                         withPagination: bool, now: int)
    requires withPagination ==> Terminates(sc.upstream.fetchProjectsPage, ProjectsURL(OrgOrDefault(sc, organizationSlug)))
    ensures var r := GetProjectsSpec(s, sc, organizationSlug, withPagination, true, now);
            r.1 == Fetched(sc, organizationSlug, withPagination)
            && r.0 == (if r.1.Ok? then Cache.ApplySet(s, ProjectCacheKey, ProjectList(r.1.value), Cache.DefaultCacheTTL, now) else s)
  {
  }

  /** The only key GetProjects writes is "projects": an absent
      "projects-pagination" entry stays absent. */
  lemma PaginationKeyNeverWritten(s: Cache.CacheState<CacheValue>, sc: SentryClient, organizationSlug: string,
                                  withPagination: bool, bypassCache: bool, now: int)
    requires withPagination ==> Terminates(sc.upstream.fetchProjectsPage, ProjectsURL(OrgOrDefault(sc, organizationSlug)))
    requires LookupKey(true) !in s.data
    ensures LookupKey(true) !in GetProjectsSpec(s, sc, organizationSlug, withPagination, bypassCache, now).0.data
  {
    assert LookupKey(true) != ProjectCacheKey;
  }

  /** Hence a paginated lookup is never served from the cache GetProjects
      fills: with no "projects-pagination" entry it always fetches. */
  lemma PaginatedAlwaysFetches(s: Cache.CacheState<CacheValue>, sc: SentryClient, organizationSlug: string, now: int)
    requires Terminates(sc.upstream.fetchProjectsPage, ProjectsURL(OrgOrDefault(sc, organizationSlug)))
    requires LookupKey(true) !in s.data
    ensures GetProjectsSpec(s, sc, organizationSlug, true, false, now).1
            == AllPages(sc.upstream.fetchProjectsPage, ProjectsURL(OrgOrDefault(sc, organizationSlug)))
  {
  }

  /** A successful non-paginated fetch is served from the cache by the next
      non-paginated call within five minutes. */
  lemma StoredListingIsServed(s: Cache.CacheState<CacheValue>, sc: SentryClient, organizationSlug: string,
                              withPagination: bool, bypassCache: bool, now: int, later: int)
    requires withPagination ==> Terminates(sc.upstream.fetchProjectsPage, ProjectsURL(OrgOrDefault(sc, organizationSlug)))
    requires GetProjectsSpec(s, sc, organizationSlug, withPagination, bypassCache, now).1.Ok?
    requires now <= later <= now + Cache.DefaultCacheTTL
    requires !bypassCache ==> !(Cache.ApplyGet(s, LookupKey(withPagination), now).1.Some?
                                && Cache.ApplyGet(s, LookupKey(withPagination), now).1.value.ProjectList?)
    ensures var r := GetProjectsSpec(s, sc, organizationSlug, withPagination, bypassCache, now);
            GetProjectsSpec(r.0, sc, organizationSlug, false, false, later) == (r.0, r.1)
  {
    MissFetchesAndStores(s, sc, organizationSlug, withPagination, bypassCache, now);
  }

  /** Pages of 2, 2 and 1 records concatenate in page order; a failure on
      page 2 loses page 1. */
  lemma PaginationExample(a: SentryProject, b: SentryProject, c: SentryProject, d: SentryProject, e: SentryProject)
    ensures var pages := (u: string) =>
              if u == "p1" then Ok(Page([a, b], "p2"))
              else if u == "p2" then Ok(Page([c, d], "p3"))
              else if u == "p3" then Ok(Page([e], ""))
              else Err(FetchFailure("not found"));
            EndsWithin(pages, "p1", 3) && Collect(pages, "p1", 3) == Ok([a, b, c, d, e])
    ensures var failing := (u: string) =>
              if u == "p1" then Ok(Page([a, b], "p2"))
              else if u == "p2" then Err(FetchFailure("page 2"))
              else Ok(Page([e], ""));
            EndsWithin(failing, "p1", 3) && Collect(failing, "p1", 3) == Err(FetchFailure("page 2"))
  {
    assert [a, b] + ([c, d] + ([e] + [])) == [a, b, c, d, e];
  }

  // ---- GetTeamsProjects ----

  /** GetTeamsProjects: an empty team slug is an error and nothing is
      fetched; otherwise the team-scoped listing of the organisation
      (defaulting to the client's) is fetched. */
  function GetTeamsProjects(sc: SentryClient, organizationSlug: string, teamSlug: string): (r: Result<seq<SentryProject>>)
    ensures teamSlug == "" ==> r == Err(InvalidTeamSlug)
    ensures teamSlug != "" ==> r == sc.upstream.fetchProjects(TeamProjectsURL(OrgOrDefault(sc, organizationSlug), teamSlug))
  {
    var org := if organizationSlug == "" then sc.OrgSlug else organizationSlug;
    if teamSlug == "" then Err(InvalidTeamSlug)
    else sc.upstream.fetchProjects("/api/0/teams/" + org + "/" + teamSlug + "/projects/")
  }

  /** An empty organisation slug means the client's own organisation. */
  lemma TeamsProjectsDefaultOrg(sc: SentryClient, teamSlug: string)
    ensures GetTeamsProjects(sc, "", teamSlug) == GetTeamsProjects(sc, sc.OrgSlug, teamSlug)
  {
  }
}
