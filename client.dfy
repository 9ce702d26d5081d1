/** The Sentry API client: its configuration, its cache, the records it
    fetches, and the HTTP transport it fetches them with. The transport is
    not modelled: each endpoint is a given function from request path to
    outcome. */
module Client {
  import opened Wrappers
  import Cache

  /** A project as listed by the API (pkg/sentry/projects.go); only the
      fields the core reads are kept. */
  datatype SentryProject = SentryProject(ID: string, Slug: string, Name: string)

  /** An event row as returned by the events endpoint (pkg/sentry/events.go);
      its float and time columns are left out. */
  datatype SentryEvent = SentryEvent(ID: string, Title: string, Project: string, ProjectId: int,
                                     Release: string, Count: int, Level: string,
                                     EventType: string, Platform: string)

  /** One page of a paginated listing: its records and the next-page target,
      "" when there is none. */
  datatype Page = Page(batch: seq<SentryProject>, nextURL: string)

  /** What the cache holds. Go stores interface{}; a value that is not a
      project list models a hit that fails the type assertion. */
  datatype CacheValue = ProjectList(projects: seq<SentryProject>) | OtherValue(description: string)

  /** The transport: Fetch into a project list, FetchWithPagination into one
      page, and Fetch into the events envelope. */
  datatype Upstream = Upstream(
    fetchProjects: string -> Result<seq<SentryProject>>,
    fetchProjectsPage: string -> Result<Page>,
    fetchEvents: string -> Result<seq<SentryEvent>>)

  class SentryClient {
    const BaseURL: string
    const OrgSlug: string
    const upstream: Upstream
    const cache: Cache.Cache<CacheValue>

    constructor (baseURL: string, orgSlug: string, upstream: Upstream)
      ensures BaseURL == baseURL && OrgSlug == orgSlug && this.upstream == upstream
      ensures fresh(cache) && cache.Snapshot() == Cache.Empty()
    {
      BaseURL, OrgSlug, this.upstream := baseURL, orgSlug, upstream;
      cache := new Cache.Cache();
    }
  }
}
