# Sentry datasource backend core, modelled in Dafny

This project models the deterministic core of the Go backend of the Grafana
Sentry datasource, and proves properties of the model:

- the **TTL cache** of `pkg/sentry/cache.go`: two maps written together by
  `Set` and cleaned lazily by `Get`, with the current time passed as a parameter;
- the **events request compiler** `GetEventsInput.ToQuery` and the
  `GetEvents` wrapper of `pkg/sentry/events.go`;
- the **project listing** `GetProjects` of `pkg/sentry/projects.go`, which is
  read through the cache and follows next-page links, and the team listing
  `GetTeamsProjects`;
- in `pkg/plugin/handlers_query.go`:
  - the **slug resolution** `ConvertProjectSlugsToIDs`;
  - the **per-query dispatch** `QueryData`;
  - the **batch handler** `SentryDatasource.QueryData`.

The modules follow the program's packages. Each module follows the style of
its source file:

- `Cache` (`cache.dfy`): the class `Cache.Cache` with `data` and `expiration`
  map fields, and `Set` and `Get` methods that update them in place.
  - Each method is proved against a value-level function (`ApplySet`,
    `ApplyGet`) on a `CacheState` snapshot.
  - The properties are lemmas about those functions.
- `Client` (`client.dfy`): the records the core reads, and `SentryClient`.
  - `SentryClient` holds the base URL, the organisation slug, the cache and
    the transport.
  - The transport is represented by one function per endpoint, from request
    path to outcome.
- `Events` (`events.dfy`): the events request compiler.
  - `ToQuery` is a method of the class `GetEventsInput`. It clamps `Limit` in
    place.
  - It fills the parameter multimap with `Set` calls, then three `Add` loops
    (`AddEach`).
  - It is proved equal to the function `EventsQueryString`. The lemmas state
    what the encoded string holds under each key.
  - Three modules model the Go standard library calls the compiler and the
    resolution make:
    - `UrlValues` (`urlvalues.dfy`): `url.Values`. `Encode` sorts the keys
      and keeps each key's values in insertion order.
    - `TimeFormat` (`timeformat.dfy`): `time.Format` with the layout
      `2006-01-02T15:04:05`, and its inverse.
    - `Strconv` (`strconv.dfy`): `strconv.Atoi` and `strconv.FormatInt`.
- `Projects` (`projects.dfy`): `GetProjects`.
  - It is a method whose cache lookup, pagination `while` loop and store are
    proved against the ghost function `GetProjectsSpec`.
  - Pagination is read against an abstract page source. `Terminates` says
    that following next links reaches `""` or a failing page. The Go loop has
    no bound, so the method requires this.
- `Handlers` (`handlers.dfy`):
  - `ConvertProjectSlugsToIDs` keeps the three loops of the source. Each is a
    method (`CollectSlugs`, `BuildSlugMap`, `ReplaceIds`) proved against a
    function (`Slugs`, `SlugMap`, `Replace`).
  - The per-query `QueryData`, here `QueryOne`, decodes, resolves, then
    switches on the query type (`Dispatch`). The function `Respond` states
    what the switch answers.
  - The batch loop `SentryDatasource.QueryData` is proved against `Batch`, a
    fold over the queries that threads the cache state. Its lemmas are stated
    for any per-query step.

Two behaviours of the code worth noting:

- **Every position is looked up.** The comment at `handlers_query.go:50`
  speaks of converting project slugs. Once any entry fails `strconv.Atoi`,
  though, *every* position of `ProjectIds` is looked up in the slug map,
  numeric ones included (`handlers_query.go:60`, `67-71`).
  `NumericIdAlsoReplaced` proves that `["x", "42"]` with a project of slug
  `"42"` and ID `"7"` becomes `["x", "7"]`.
- **Resolution runs before the slug check.** Resolution runs first
  (`handlers_query.go:82`), and only then does each branch check for an
  empty organisation slug (`handlers_query.go:85`, `108`, `131`). So the
  project listing may be fetched and cached before that error is returned
  (`EmptyOrgSlugAfterResolution`).

## Model

| member | source | states |
|---|---|---|
| Cache.ApplyGet | pkg/sentry/cache.go:32-46 | A key missing from `data` reads as absent, and nothing changes. If the key has an expiry at or after `now`, its value is returned, and nothing changes. If its expiry is strictly before `now`, or it has none, it reads as absent and is removed from both maps, and nothing else is removed. |
| Cache.Cache.constructor | pkg/sentry/cache.go:18-23 | `NewCache` starts with both maps empty, and their key sets agree. |
| Cache.Cache.Set | pkg/sentry/cache.go:25-30 | `data[key]` becomes the value and `expiration[key]` becomes `now + ttl`, overwriting both. Every other key is kept. The key-set invariant is preserved. |
| Cache.Cache.Get | pkg/sentry/cache.go:32-46 | The new maps and the value found are exactly what `ApplyGet` gives for the old maps. The key-set invariant is preserved. |
| Cache.SetKeepsKeysAgree | pkg/sentry/cache.go:28-29 | `Set` keeps the key sets of `data` and `expiration` equal. |
| Cache.GetKeepsKeysAgree | pkg/sentry/cache.go:39-44 | `Get` keeps the key sets of `data` and `expiration` equal. |
| Cache.SetThenGet | pkg/sentry/cache.go:25-45 | A value stored with `ttl >= 0` is found by every read from the store instant up to and including the expiry instant (`After` is strict), and the read changes nothing. |
| Cache.SetThenGetExpired | pkg/sentry/cache.go:39-44 | A read after the expiry instant misses and removes the key from both maps. |
| Cache.SetOverwrites | pkg/sentry/cache.go:25-30 | A second `Set` of the same key replaces value and expiry completely. |
| Cache.OtherKeysUntouched | pkg/sentry/cache.go:25-46 | `Set` and `Get` of one key leave the entries of every other key in both maps as they were. |
| Cache.GetIdempotent | pkg/sentry/cache.go:32-46 | Two reads of a key at the same instant give the same result and state as one. |
| Cache.MissIsPermanent | pkg/sentry/cache.go:36-44 | Once a read misses, every later read of that key misses and changes nothing, until something is stored. |
| Strconv.Atoi | pkg/plugin/handlers_query.go:55 | `strconv.Atoi` succeeds exactly on an optional sign followed by one or more ASCII digits whose signed value is in the 64-bit range, and then returns that signed value. |
| Strconv.AtoiRejectsNonDigit | pkg/plugin/handlers_query.go:55 | A string with a non-digit after the optional sign is not an integer, so it counts as a slug. |
| Strconv.AtoiAcceptsDigits | pkg/plugin/handlers_query.go:55 | A run of digits whose value is within the 64-bit range parses to that value. |
| Strconv.AtoiAcceptsSigned | pkg/plugin/handlers_query.go:55 | An empty, `+` or `-` sign followed by digits whose signed value is in the 64-bit range parses to that value, so such an entry is never a slug. |
| Strconv.AtoiRejectsBareSign | pkg/plugin/handlers_query.go:55 | The empty string, `"+"` and `"-"` are not integers. |
| Strconv.FormatNat | pkg/sentry/events.go:68 | The decimal form of a natural number is non-empty, all digits, and has no leading zero. |
| Strconv.DigitsValueFormatNat | pkg/sentry/events.go:68 | Reading the decimal digits back gives the number. |
| Strconv.AtoiFormatInt | pkg/sentry/events.go:68 | `strconv.Atoi` inverts `strconv.FormatInt(n, 10)` for every 64-bit `n`. |
| TimeFormat.Pad2Digits | pkg/sentry/events.go:63-64 | A two-digit field is written as exactly two digits that read back as its value. |
| TimeFormat.Pad4Digits | pkg/sentry/events.go:63-64 | The year is written as exactly four digits that read back as its value. |
| TimeFormat.FormatLayout | pkg/sentry/events.go:63-64 | The rendered time is 19 characters long, with `-`, `-`, `T`, `:` and `:` at the layout's positions and each zero-padded field between them. |
| TimeFormat.ParseFormat | pkg/sentry/events.go:63-64 | Parsing the rendered time with the same layout gives back every calendar field. |
| TimeFormat.FormatInjective | pkg/sentry/events.go:63-64 | Distinct instants render to distinct strings. |
| TimeFormat.FormatExample | pkg/sentry/events.go:63-64 | 1 January 2024 at midnight renders as `2024-01-01T00:00:00`, and 2 January as `2024-01-02T00:00:00`. |
| UrlValues.Set | pkg/sentry/events.go:62-68 | `Set` leaves the key holding exactly the one value, adds the key, and keeps every other key. |
| UrlValues.Add | pkg/sentry/events.go:69-77 | `Add` appends the value after the key's existing values and keeps every other key. |
| UrlValues.SortedKeysSorted | pkg/sentry/events.go:78 | `Encode` visits exactly the keys of the multimap, in strictly increasing byte order. |
| UrlValues.EncodedValuesOfKey | pkg/sentry/events.go:78 | The encoded pairs list, under each key, exactly that key's values, in insertion order. |
| UrlValues.EncodedKeysSorted | pkg/sentry/events.go:78 | In the encoded pairs, a later pair never has a smaller key than an earlier one. |
| Events.ClampLimit | pkg/sentry/events.go:58-60 | The clamped limit is in [1, 100]. A limit already in [1, 100] is kept, and any other becomes 100. |
| Events.ClampLimitIdempotent | pkg/sentry/events.go:58-60 | Clamping a clamped limit changes nothing. |
| Events.AddExtends | pkg/sentry/events.go:69-77 | One more `Add` in a range loop extends the key's list by the next element. |
| Events.MultiKeysFresh | pkg/sentry/events.go:61-77 | `field`, `project` and `environment` are not set by the single-valued `Set` calls, nor by each other's loops. |
| Events.AddEach | pkg/sentry/events.go:69-77 | A range loop of `Add` calls makes an absent key hold exactly the list, in order. It leaves the key absent when the list is empty. |
| Events.BuildParams | pkg/sentry/events.go:61-77 | The `Set` calls, the optional `sort`, and the three `Add` loops build exactly the parameter multimap `EventsParams`. |
| Events.EventsParamsContent | pkg/sentry/events.go:61-77 | The parameters are: `query`, `start`, `end` and `per_page` once each; `sort` once, iff `Sort` is non-empty; the 12 `reqFields` under `field` in order; `project` and `environment` iff non-empty, holding the lists in order; and no other key. |
| Events.GetEventsInput.ToQuery | pkg/sentry/events.go:56-79 | `Limit` is overwritten with its clamped value. The result is the request string `EventsQueryString` of the inputs. |
| Events.EventsQueryStringShape | pkg/sentry/events.go:56-79 | The request string is `/api/0/organizations/{org}/events/?` followed by the encoded parameters. The encoding lists, under each key: the query; the rendered `From` and `To`; the sort when set; the decimal clamped limit; the fields; the project ids; and the environments. |
| Events.EventsExample | pkg/sentry/events.go:56-79 | Project `10`, limit `0` and a one-day range in 2024 give `per_page=100`, `start=2024-01-01T00:00:00`, `end=2024-01-02T00:00:00`, `project=10`, and no environment. |
| Events.GetEvents | pkg/sentry/events.go:81-86 | The executed string is `BaseURL` followed by the request string, whether or not the fetch fails. On success the fetched events are returned with no error. On failure the fetch's error is returned. |
| Projects.LookupKey | pkg/sentry/projects.go:33-37 | The lookup key is `projects`, or `projects-pagination` exactly when paginating. |
| Projects.OrgOrDefault | pkg/sentry/projects.go:47-49 | An empty organisation slug is replaced by the client's own. |
| Projects.PrependTwice | pkg/sentry/projects.go:53-63 | Appending two batches in turn is appending their concatenation. An error stays an error. |
| Projects.CollectIndependent | pkg/sentry/projects.go:53-63 | Any two fetch bounds within which the page chain ends assemble the same listing. |
| Projects.AllPagesIsCollect | pkg/sentry/projects.go:53-63 | The listing of a terminating page chain is its assembly under any bound within which the chain ends. |
| Projects.CollectOkStartsWithFirstBatch | pkg/sentry/projects.go:53-63 | When the listing succeeds, its first page was fetched without error, and that page's records come first. |
| Projects.CollectFailsOnFailingPage | pkg/sentry/projects.go:55-58 | A page error anywhere along the chain makes the whole listing that error, and earlier batches are discarded. |
| Projects.FollowNStep | pkg/sentry/projects.go:53-63 | Following `n + 1` next links is one link, then `n` more. |
| Projects.GetProjects | pkg/sentry/projects.go:31-72 | The new cache state and the result are those of `GetProjectsSpec`: the cache lookup, the fetch (single or paginated), and the store. |
| Projects.CacheHitReturnsCached | pkg/sentry/projects.go:32-44 | A hit that holds a project list is returned, with no fetch and no cache write. |
| Projects.MissFetchesAndStores | pkg/sentry/projects.go:46-71 | A miss, a hit of another type, or `bypassCache` fetches. A fetch error is returned with no cache write. A success is stored under `projects` with the five-minute TTL. |
| Projects.BypassNeverReads | pkg/sentry/projects.go:32-71 | With `bypassCache` the cache is not read (so a lookup never deletes anything), but a success is still stored. |
| Projects.PaginationKeyNeverWritten | pkg/sentry/projects.go:33-70 | `GetProjects` never writes `projects-pagination`: an absent entry under that key stays absent. |
| Projects.PaginatedAlwaysFetches | pkg/sentry/projects.go:33-70 | Hence a paginated call without such an entry always returns the fetched listing. |
| Projects.StoredListingIsServed | pkg/sentry/projects.go:32-71 | After a call that fetches and succeeds, a non-paginated call within five minutes returns that listing from the cache and changes nothing. |
| Projects.PaginationExample | pkg/sentry/projects.go:53-63 | Pages of 2, 2 and 1 records concatenate in page order. An error on page 2 discards page 1. |
| Projects.GetTeamsProjects | pkg/sentry/projects.go:74-84 | An empty team slug is the invalid-team-slug error, and nothing is fetched. Otherwise the result is the fetch of `/api/0/teams/{org}/{team}/projects/`. |
| Projects.TeamsProjectsDefaultOrg | pkg/sentry/projects.go:76-78 | An empty organisation slug means the client's own organisation. |
| Handlers.SlugsAreNonIntegers | pkg/plugin/handlers_query.go:52-58 | The slugs to replace are exactly the entries `strconv.Atoi` rejects. There are some iff some entry is rejected. |
| Handlers.CollectSlugs | pkg/plugin/handlers_query.go:52-58 | The first loop collects exactly `Slugs` of the project ids. |
| Handlers.SlugMapLastMatch | pkg/plugin/handlers_query.go:61-66 | The slug map holds exactly the listed slugs. Each maps to the ID of the last project carrying that slug. |
| Handlers.BuildSlugMap | pkg/plugin/handlers_query.go:61-66 | The second loop builds exactly `SlugMap` of the listing. |
| Handlers.Replace | pkg/plugin/handlers_query.go:67-71 | The length is kept. Each position holds its entry's mapped ID if the entry is a key of the map, and the entry otherwise. |
| Handlers.ReplaceIds | pkg/plugin/handlers_query.go:67-71 | The in-place overwrite loop leaves exactly `Replace` of the project ids. |
| Handlers.ResolvedEntry | pkg/plugin/handlers_query.go:61-71 | An entry becomes the ID of the last listed project with that slug, or stays as it is when no project has it. |
| Handlers.ConvertProjectSlugsToIDs | pkg/plugin/handlers_query.go:51-74 | The new cache state and the query are those of `ConvertSpec`. |
| Handlers.ConvertSpecShape | pkg/plugin/handlers_query.go:51-74 | Only `ProjectIds` changes, and its length is kept. With no slug, nothing is fetched and nothing changes. A failed listing changes the ids not at all. Otherwise every position is looked up. |
| Handlers.AllNumericUntouched | pkg/plugin/handlers_query.go:52-60 | When every entry parses as an integer, the cache and the query are unchanged. |
| Handlers.ResolutionExample | pkg/plugin/handlers_query.go:60-71 | `["my-proj", "99"]` with project `my-proj` of ID `42` becomes `["42", "99"]`. An unknown slug stays unchanged. |
| Handlers.NumericIdAlsoReplaced | pkg/plugin/handlers_query.go:60-71 | Once a slug exists, a numeric entry equal to some project's slug is replaced too. |
| Handlers.Finish | pkg/plugin/handlers_query.go:101-106 | A conversion error gives `GetErrorResponse` of the empty response, the executed string and that error. A frame gives a response with that one frame, its metadata updated, and no error. |
| Handlers.Deliver | pkg/plugin/handlers_query.go:98-106 | After a branch's fetch: a fetch error goes to `GetErrorResponse` with the executed string. Otherwise the converted frame is appended, or a conversion error goes to `GetErrorResponse`. |
| Handlers.AnswerShape | pkg/plugin/handlers_query.go:98-106 | After a branch's fetch, the response is either built by `GetErrorResponse` from the empty response, or holds exactly one frame and no error. |
| Handlers.Dispatch | pkg/plugin/handlers_query.go:83-157 | The switch answers exactly `Respond`. `issues`, `events` and `statsV2` each check the organisation slug, fetch, and deliver. Any other type gives the unknown-query-type error. |
| Handlers.RespondShape | pkg/plugin/handlers_query.go:83-157 | An unknown type sets the unknown-query-type error on the empty response, so it has no frames (lines 154-156). A known type with an empty organisation slug gives `GetErrorResponse` of the empty response, an empty executed string and the invalid-slug error, before any fetch. Any other answer of a known type is built by `GetErrorResponse`, or holds the one frame appended to the empty response and no error (lines 106, 129, 153). |
| Handlers.QueryOne | pkg/plugin/handlers_query.go:76-158 | The new cache state and the response of one query are those of `QueryOneSpec`: decode, then resolve, then dispatch. |
| Handlers.DecodeFailureIsTerminal | pkg/plugin/handlers_query.go:78-81 | A query that fails to decode answers `GetErrorResponse` of the empty response, an empty executed string and the decode error. The cache is untouched, so no resolution ran. |
| Handlers.EmptyOrgSlugAfterResolution | pkg/plugin/handlers_query.go:82-87 | With an empty organisation slug, a known type answers `GetErrorResponse` of the empty response, an empty executed string and the invalid-slug error. The cache is the one left by the resolution, which has already run. |
| Handlers.UnknownTypeNoFrames | pkg/plugin/handlers_query.go:154-156 | An unknown type yields the unknown-query-type error and no frames, after the resolution. |
| Handlers.SuccessHasOneFrame | pkg/plugin/handlers_query.go:76-158 | Every response is one of three: the unknown-type response with no frames; one built by `GetErrorResponse` from the empty response; or one holding exactly one frame and no error. |
| Handlers.EventsFailureCarriesExecuted | pkg/plugin/handlers_query.go:107-123 | An events query sends the request string of the resolved ids. When that fetch fails, the answer is `GetErrorResponse` of the empty response, `BaseURL` followed by the request string, and the fetch error. |
| Handlers.BatchKeys | pkg/plugin/handlers_query.go:43-46 | Every query leaves an entry, failing or not: the keys of the responses are exactly the RefIDs. |
| Handlers.BatchLastWins | pkg/plugin/handlers_query.go:43-46 | The entry of a RefID is the response of the last query with that RefID, run on the cache the earlier queries left. |
| Handlers.SentryDatasource.QueryData | pkg/plugin/handlers_query.go:36-48 | An instance error yields only an `error` entry. Otherwise the queries are answered in order, threading the cache: the new cache and the responses are those of `Batch` with the per-query step. |

## Left out

- Locking: the cache's mutex only serialises map access, and the model is single-threaded.
- Time:
  - `time.Now()` is a parameter `now` in nanoseconds.
  - The batch handler passes one `now` to all its queries, where Go reads the clock on every cache call.
- The HTTP transport (`Fetch`, `FetchWithPagination`) is given functions, from request path to outcome.
  - `SentryClient`'s defining file is not part of this model.
  - Pagination requires that following next links ends (`Terminates`). The Go loop need not end.
- JSON decoding (`GetQuery`) is given as its outcome, stored in `DataQuery.Decoded`.
- The datasource-instance lookup is given as its outcome, stored in `SentryDatasource.instance`.
- `GetIssues`, `GetStatsV2`, `framestruct.ToDataFrame`, `ConvertStatsV2ResponseToFrame`, `GetFrameName`, `UpdateFrameMeta` and `GetErrorResponse` are given functions of the model's `Backend`, because their code is not part of this model.
- Error responses: what `GetErrorResponse` puts in a response (its error, any frame carrying the executed string) is unknown, so the model states only which arguments it is called with. `DataResponse` holds frames and an error only.
- Handlers.QueryStep: gives a query whose resolution need not end an empty response. The batch handler requires every query's resolution to end, so this case never arises.
- `url.Values.Encode`: percent-escaping is not modelled, and keys and values are written verbatim. Key order and value order are modelled.
- `time.Format`: time zones are not modelled, and years are limited to 0..9999.
- Records: float and time columns of events, and all project fields except ID, slug and name, are dropped.
- Strconv.Atoi: out-of-range values are modelled as an error, as on a 64-bit platform; the error's kind is not distinguished.
- Events.GetEvents: returns no events on a failed fetch, where Go returns whatever was decoded; `QueryData` discards it.
- Projects.GetTeamsProjects: returns only the error on a failed fetch or an empty team slug, where Go also returns a possibly partial list. No caller in the core reads that list.
