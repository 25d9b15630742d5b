# Exceptionless: repository API controller and project repository, in Dafny

This project models two pieces of the Exceptionless server.

**The generic REST controller** (`RepositoryApiController`) sits in front of a document store. Its operations:

- listing with `before`/`after` cursors, a clamped page size and a look-ahead record that says whether more results exist;
- a tenant filter for entity types owned by an organization;
- get by id, which hides entities of other organizations;
- create, which fills in the caller's default organization;
- partial update through a delta, and delete.

Each write is gated by a three-valued permission (allow, deny with a result, deny).

**The project repository** (`ProjectRepository`) has these parts:

- the argument guards and cache-key choice of its two organization lookups;
- the daily bump of a project's next-summary time;
- the cache eviction that follows added or changed projects: count keys in one batch, then paged keys by prefix.

## Files

- `wrappers.dfy`: `Option` and `Result`.
  - A null collection argument or optional value is `None`, and a thrown argument exception is `Failure`.
  - A null string is modelled as `""`. That is sound because the source tests every string with `String.IsNullOrEmpty`.
  - The null payload of `Post` is a null `NewModel?` reference.
- `document_store.dfy`, module `DocumentStore`: the document store the controller calls.
  - Entities are stored as a sequence sorted by identifier, with a map view `Documents()`.
  - Queries are predicates, and `Find` is filter-then-take in identifier order.
  - Add, update and delete are proved to keep the order and to act on the map view as an insert, an upsert and a removal.
- `repository_api_controller.dfy`, module `RepositoryApi`: the controller. It has:
  - pure functions for the permission checks, `GetModel`, the default organization and the listing query;
  - classes for the options object and the create payload that the source updates in place;
  - the controller class, whose methods state the outcome and the new store for each branch of the source.
- `cache_client.dfy`, module `CacheClient`: the cache, as a key/value map plus a log of removal calls. The log lets "no call was made" be told apart from "a call removed nothing".
- `projects.dfy`, module `Projects`:
  - the two lookups as pure functions that return the query to run or the argument error;
  - the eviction as reference functions (`Invalidated`, `CountCalls`, `PagedCalls`);
  - the repository class, whose methods, including the paged-eviction loop, are proved against those functions;
  - the lemmas that say what eviction removes.

## Behaviour of the code worth knowing

- **`after` cursor.** The parameter is named `after`, but it is turned into the same "identifier below the value" predicate as `before` (`Query.LT` at RepositoryApiController.cs:67). So a page "after" a cursor never lists a record past it (`AfterCursorListsOnlyLowerIds`).
- **Delete of a hidden entity.** `CanDelete` (RepositoryApiController.cs:209-215) answers a foreign entity with `NotFound`. `Delete` asks `GetModel` first, though, and `GetModel` already hides such an entity, so the answer is `BadRequest` (RepositoryApiController.cs:198-199). With the base `GetModel`, the deny branches of `CanDelete` and `CanUpdate` cannot be reached (`VisibleModelIsPermitted`).
- **Moving an entity by update.** `CanUpdate` checks only the original's organization, and a delta may change the organization. So a permitted update can move an entity into an organization the caller is not in, and the caller can no longer see it (`UpdateCanMoveEntityOutOfReach`).

## Model

| member | source | states |
|---|---|---|
| RepositoryApi.Delta.Patch | Source/Api/Controllers/Base/RepositoryApiController.cs:188 | a changed `OrganizationId` property becomes the entity's organization, otherwise the organization stays; the other changed properties take their new values; every other field keeps its value |
| RepositoryApi.Delta.ChangedPropertyNames | Source/Api/Controllers/Base/RepositoryApiController.cs:163 | the changed property names are exactly the delta's keys, and there are none iff the delta is empty |
| RepositoryApi.UpdateCanMoveEntityOutOfReach | Source/Api/Controllers/Base/RepositoryApiController.cs:179-189 | an update the caller is permitted can move the entity to an organization outside the caller's, after which GetModel hides it |
| RepositoryApi.Permission.ResultOr | Source/Api/Controllers/Base/RepositoryApiController.cs:125 | a denial with a result answers that result; a plain denial answers the caller's fallback (BadRequest at lines 125 and 172, NotFound at line 203) |
| RepositoryApi.ListingQuery | Source/Api/Controllers/Base/RepositoryApiController.cs:59-72 | the listing query is absent (everything is fetched) iff the type is unowned and there is no query and no cursor query |
| RepositoryApi.RepositoryApiController.GetModel | Source/Api/Controllers/Base/RepositoryApiController.cs:98-107 | absent iff the id is empty, the cached lookup finds nothing, or the type is owned and the entity's organization is not the caller's; otherwise the cached entity |
| RepositoryApi.NewModel.constructor | Source/Api/Controllers/Base/RepositoryApiController.cs:113-120 | the create payload holds the given organization and fields; Post updates its organization in place |
| RepositoryApi.PatchIdempotent | Source/Api/Controllers/Base/RepositoryApiController.cs:188 | applying a delta twice equals applying it once; an empty delta changes nothing |
| RepositoryApi.GetModelOf | Source/Api/Controllers/Base/RepositoryApiController.cs:98-107 | absent iff the id is empty, not stored, or owned by an organization the caller is not in; otherwise the stored entity |
| RepositoryApi.CanAdd | Source/Api/Controllers/Base/RepositoryApiController.cs:142-151 | allowed iff the type is unowned or the entity's organization is the caller's; otherwise denied with BadRequest and the fixed message |
| RepositoryApi.CanUpdate | Source/Api/Controllers/Base/RepositoryApiController.cs:179-185 | allowed iff unowned or the original is in the caller's organizations; otherwise BadRequest with the fixed message |
| RepositoryApi.CanDelete | Source/Api/Controllers/Base/RepositoryApiController.cs:209-215 | allowed iff unowned or the entity is in the caller's organizations; otherwise denied with NotFound |
| RepositoryApi.VisibleModelIsPermitted | Source/Api/Controllers/Base/RepositoryApiController.cs:166-172 | whatever GetModel returns passes CanUpdate and CanDelete, so their deny branches are unreachable with the base GetModel |
| RepositoryApi.OtherOrganizationIsHidden | Source/Api/Controllers/Base/RepositoryApiController.cs:102-104 | a stored entity of a foreign organization is hidden for owned types and visible for unowned ones |
| RepositoryApi.UnownedIgnoresCaller | Source/Api/Controllers/Base/RepositoryApiController.cs:60-61 | for unowned types, lookup and listing query do not depend on the caller |
| RepositoryApi.WithDefaultOrganization | Source/Api/Controllers/Base/RepositoryApiController.cs:117-120 | the organization changes only from empty to the caller's default, and does so exactly when the type is owned and the caller has an organization |
| RepositoryApi.DefaultOrganizationOnCreate | Source/Api/Controllers/Base/RepositoryApiController.cs:117-125 | a payload without organization from a caller with one organization gets it and is admitted; with no organization it is refused |
| RepositoryApi.OrganizationQuery | Source/Api/Controllers/Base/RepositoryApiController.cs:47-49 | an organization filter exists iff the type is owned and the argument is non-empty, and it matches exactly that organization |
| RepositoryApi.CursorQuery | Source/Api/Controllers/Base/RepositoryApiController.cs:63-67 | a preset cursor query wins; otherwise a non-empty value keeps identifiers strictly below it and an empty one keeps all |
| RepositoryApi.ListingQueryMatches | Source/Api/Controllers/Base/RepositoryApiController.cs:59-70 | a record matches the listing query iff it matches the given query, the tenant filter (owned types) and both cursor queries |
| RepositoryApi.LookAheadPage | Source/Api/Controllers/Base/RepositoryApiController.cs:72-84 | fetching limit+1 and keeping limit is taking limit matches; HasMore iff more than limit match; the look-ahead record is not on the page |
| RepositoryApi.PageItemsMatch | Source/Api/Controllers/Base/RepositoryApiController.cs:72-84 | a page is in identifier order and holds only stored records matching the query |
| RepositoryApi.ListedItemsInCallerOrganizations | Source/Api/Controllers/Base/RepositoryApiController.cs:59-61 | every listed entity of an owned type belongs to one of the caller's organizations |
| RepositoryApi.AfterCursorListsOnlyLowerIds | Source/Api/Controllers/Base/RepositoryApiController.cs:66-67 | with a non-empty `after` and no preset query, every listed identifier is strictly below the cursor |
| RepositoryApi.GetEntitiesOptions.constructor | Source/Api/Controllers/Base/RepositoryApiController.cs:224-234 | options start with the given query, cursors and limit, no cursor queries and HasMore false |
| RepositoryApi.RepositoryApiController.Get | Source/Api/Controllers/Base/RepositoryApiController.cs:46-54 | the answer is the first clamped-limit entities matching the listing query, with HasMore iff more match |
| RepositoryApi.RepositoryApiController.GetEntities | Source/Api/Controllers/Base/RepositoryApiController.cs:56-85 | the options end with the clamped limit, the cursor queries and the AND-ed query; items and HasMore are the page of that query |
| RepositoryApi.RepositoryApiController.FetchPage | Source/Api/Controllers/Base/RepositoryApiController.cs:72-84 | HasMore iff the limit+1 fetch returned more than limit; items are its first limit records |
| RepositoryApi.RepositoryApiController.GetById | Source/Api/Controllers/Base/RepositoryApiController.cs:87-96 | NotFound iff GetModel is absent, otherwise Ok with the model |
| RepositoryApi.RepositoryApiController.Post | Source/Api/Controllers/Base/RepositoryApiController.cs:113-136 | null payload gives BadRequest; the payload gets its default organization; a denial gives its result; an existing id gives Conflict; otherwise Created and the store gains exactly the new entity |
| RepositoryApi.RepositoryApiController.AddModel | Source/Api/Controllers/Base/RepositoryApiController.cs:153-155 | absent iff the id is already stored; otherwise the store gains exactly that entity |
| RepositoryApi.RepositoryApiController.Patch | Source/Api/Controllers/Base/RepositoryApiController.cs:161-177 | a missing or empty delta gives Ok and no change; hidden gives NotFound; a denial gives its result; otherwise the entity is replaced by its patched version |
| RepositoryApi.RepositoryApiController.UpdateModel | Source/Api/Controllers/Base/RepositoryApiController.cs:187-190 | the stored entity becomes the patched original and nothing else changes |
| RepositoryApi.RepositoryApiController.Delete | Source/Api/Controllers/Base/RepositoryApiController.cs:196-207 | hidden or absent gives BadRequest; a denial gives its result or NotFound; otherwise NoContent and exactly that id is removed |
| RepositoryApi.RepositoryApiController.DeleteModel | Source/Api/Controllers/Base/RepositoryApiController.cs:217-219 | exactly the entity's identifier leaves the store |
| DocumentStore.AndMatches | Source/Api/Controllers/Base/RepositoryApiController.cs:69-70 | AND-ing an optional query with an optional query matches iff both match, an absent query matching everything |
| DocumentStore.And | Source/Api/Controllers/Base/RepositoryApiController.cs:61-70 | the null-tolerant AND is absent iff both sides are |
| DocumentStore.Take | Source/Api/Controllers/Base/RepositoryApiController.cs:72-84 | at most n records, the first ones of the input, and all of them when there are fewer than n |
| DocumentStore.Filter | Source/Api/Controllers/Base/RepositoryApiController.cs:72 | the matching records are exactly the stored records the query matches, no more of them than stored |
| DocumentStore.FilterKeepsOrder | Source/Api/Controllers/Base/RepositoryApiController.cs:72 | filtering a sorted store gives a sorted result |
| DocumentStore.Repository.GetByIdCached | Source/Api/Controllers/Base/RepositoryApiController.cs:102 | present iff the identifier is stored, and then the stored entity |
| DocumentStore.Repository.Find | Source/Api/Controllers/Base/RepositoryApiController.cs:72 | the first limit matching records in identifier order |
| DocumentStore.Repository.Add | Source/Api/Controllers/Base/RepositoryApiController.cs:154 | inserts iff the identifier is new, keeping identifier order; otherwise nothing changes |
| DocumentStore.Repository.Update | Source/Api/Controllers/Base/RepositoryApiController.cs:189 | the identifier now maps to the given entity and nothing else changes |
| DocumentStore.Repository.Delete | Source/Api/Controllers/Base/RepositoryApiController.cs:218 | the identifier leaves the store and nothing else changes |
| Projects.GetCountByOrganizationIdQuery | Source/Core/Repositories/ProjectRepository.cs:24-31 | an empty or null id is an ArgumentNull error; otherwise a count over that one organization cached under "Organization:" + id |
| Projects.GetByOrganizationIdsQuery | Source/Core/Repositories/ProjectRepository.cs:33-45 | null is an error, empty gives empty results without a query, otherwise the query with the given ids and paging, cached iff exactly one id, under "paged:Organization:" + id |
| Projects.Distinct | Source/Core/Repositories/ProjectRepository.cs:71 | same members as the input and no repeats |
| Projects.NonEmptyIds | Source/Core/Repositories/ProjectRepository.cs:86 | exactly the non-empty ids of the input |
| Projects.NonEmptyIdsAppend | Source/Core/Repositories/ProjectRepository.cs:92 | filtering a concatenation is concatenating the filtered parts, so the filter keeps order and repeats |
| Projects.NonEmptyIdsSingle | Source/Core/Repositories/ProjectRepository.cs:92 | a single id is kept iff it is non-empty |
| Projects.NonEmptyIdsShorter | Source/Core/Repositories/ProjectRepository.cs:86 | the filter never adds ids |
| Projects.OrganizationsOfModified | Source/Core/Repositories/ProjectRepository.cs:71 | exactly the organizations of the changes' new values, each once |
| Projects.OrganizationsOfAdded | Source/Core/Repositories/ProjectRepository.cs:80 | exactly the organizations of the added projects, each once |
| Projects.CountCacheKeys | Source/Core/Repositories/ProjectRepository.cs:86 | one key per non-empty id, each a "count:Organization:" key with a non-empty id |
| Projects.PagedEvicted | Source/Core/Repositories/ProjectRepository.cs:91-94 | the prefix removals only remove entries and never change a value |
| Projects.CountCalls | Source/Core/Repositories/ProjectRepository.cs:87-88 | at most one call, none iff there is no non-empty id, and that call removes exactly the count keys |
| Projects.PagedCalls | Source/Core/Repositories/ProjectRepository.cs:92-93 | one prefix removal per non-empty id, each with a "paged:Organization:" pattern |
| Projects.PagedCallsAppend | Source/Core/Repositories/ProjectRepository.cs:92-93 | the removals for later ids come after those for earlier ids, in the ids' order |
| Projects.PagedStep | Source/Core/Repositories/ProjectRepository.cs:92-93 | one more id adds its prefix removal, when non-empty, to the calls and to the eviction |
| Projects.Invalidated | Source/Core/Repositories/ProjectRepository.cs:72-73 | count-then-paged eviction only removes entries and never changes a value |
| Projects.IncrementTicks | Source/Core/Repositories/ProjectRepository.cs:59-60 | the patch script keeps the stored ids and every project's id and organization |
| Projects.RecordsAffected | Source/Core/Repositories/ProjectRepository.cs:60 | the count is at most the number stored and the number listed, and zero iff no listed id is stored |
| Projects.CommonBounds | Source/Core/Repositories/ProjectRepository.cs:60 | the matched ids are no more than either side and none iff the sides share nothing |
| Projects.AllEmptyIdsDropped | Source/Core/Repositories/ProjectRepository.cs:86 | a list of only empty ids leaves no id |
| Projects.CountCacheKeysMeaning | Source/Core/Repositories/ProjectRepository.cs:86 | the count keys are exactly "count:Organization:" + each non-empty id |
| Projects.PagedPatternPrefix | Source/Core/Repositories/ProjectRepository.cs:93 | the wildcard pattern removes exactly the keys under "paged:Organization:" + id + ":" |
| Projects.PagedEvictedMeaning | Source/Core/Repositories/ProjectRepository.cs:91-94 | a key survives the prefix removals iff it is under no non-empty id's paged prefix, with its value unchanged |
| Projects.InvalidatedMeaning | Source/Core/Repositories/ProjectRepository.cs:85-94 | eviction removes exactly the count and paged keys of the organizations; other entries keep their values |
| Projects.SameMembersSameKeys | Source/Core/Repositories/ProjectRepository.cs:85-94 | id lists with the same non-empty members mark the same keys |
| Projects.SameMembersSameSurvivors | Source/Core/Repositories/ProjectRepository.cs:85-94 | id lists with the same non-empty members leave the same keys |
| Projects.SameKeysSameRestriction | Source/Core/Repositories/ProjectRepository.cs:85-94 | two removals from one cache that leave the same keys leave the same cache |
| Projects.SameMembersSameEviction | Source/Core/Repositories/ProjectRepository.cs:85-94 | id lists with the same non-empty members evict the same entries |
| Projects.InvalidationIgnoresEmptyAndRepeatedIds | Source/Core/Repositories/ProjectRepository.cs:71 | dropping repeats or empty ids does not change what is evicted |
| Projects.NoOrganizationsNoEviction | Source/Core/Repositories/ProjectRepository.cs:86-93 | with no non-empty id nothing is evicted and no removal call is made |
| Projects.CountQueryEvicted | Source/Core/Repositories/ProjectRepository.cs:28-30 | eviction for an organization removes the cached count of GetCountByOrganizationId for it |
| Projects.PagedQueryEvicted | Source/Core/Repositories/ProjectRepository.cs:40-44 | eviction for an organization removes every cached page of its single-organization lookup |
| Projects.ModifiedEvictsByNewValues | Source/Core/Repositories/ProjectRepository.cs:71 | the organizations evicted for changes are those of the new values, whatever the originals |
| Projects.AsModified | Source/Core/Repositories/ProjectRepository.cs:62 | each bumped project is handed on as a change with that value and no original |
| Projects.BumpEvictsLikeAdd | Source/Core/Repositories/ProjectRepository.cs:62 | a bump evicts the same organizations as adding those projects would |
| Projects.IncrementTicksMeaning | Source/Core/Repositories/ProjectRepository.cs:59-60 | listed stored projects move exactly one day on, nothing else changes, and the count reported is the number changed |
| Projects.RecordsAffectedPositive | Source/Core/Repositories/ProjectRepository.cs:60-62 | records were affected iff some listed project is stored |
| Projects.ProjectRepository.InvalidateCountCache | Source/Core/Repositories/ProjectRepository.cs:85-89 | the count keys are removed in one call, and no call is made when there are none |
| Projects.ProjectRepository.InvalidatePagedCacheFor | Source/Core/Repositories/ProjectRepository.cs:92-93 | an empty id is skipped with no call; a non-empty id makes exactly one `paged:Organization:<id>:*` removal, which drops the keys with that prefix |
| Projects.ProjectRepository.InvalidatePagedCache | Source/Core/Repositories/ProjectRepository.cs:91-94 | one prefix removal per non-empty id in order; the cache ends as the reference eviction |
| Projects.ProjectRepository.InvalidateCache | Source/Core/Repositories/ProjectRepository.cs:67-74 | disabled cache: nothing happens; otherwise the count then paged eviction for the distinct organizations of the new values |
| Projects.ProjectRepository.OnDocumentsAdded | Source/Core/Repositories/ProjectRepository.cs:76-83 | disabled cache: nothing happens; otherwise the count then paged eviction for the added projects' distinct organizations |
| Projects.ProjectRepository.IncrementNextSummaryEndOfDayTicks | Source/Core/Repositories/ProjectRepository.cs:52-65 | null is an error and empty counts zero, both without change; otherwise the bump, eviction iff something changed and the cache is enabled, and the affected count |
| CacheClient.WithoutKeys | Source/Core/Repositories/ProjectRepository.cs:88 | exactly the listed keys are gone; other entries keep their values |
| CacheClient.PatternPrefix | Source/Core/Repositories/ProjectRepository.cs:93 | the prefix is the pattern itself or the pattern without its trailing `*`, and the pattern starts with it |
| CacheClient.WithoutPrefix | Source/Core/Repositories/ProjectRepository.cs:93 | exactly the keys with the prefix are gone; other entries keep their values |
| CacheClient.Cache.RemoveAll | Source/Core/Repositories/ProjectRepository.cs:88 | the entries lose the keys and the call is logged |
| CacheClient.Cache.RemoveByPrefix | Source/Core/Repositories/ProjectRepository.cs:93 | the entries lose the keys under the pattern's prefix and the call is logged |

## Left out

- Object mapping between view, create and storage shapes (AutoMapper, `CreateMaps`): modelled as the identity.
- `Url.Link`/`GetEntityLink`: the created location is the new identifier.
- The create shape is owned by an organization exactly when the storage shape is. The source tests this separately for the create shape (`value as IOwnedByOrganization`, line 117).
- `ObjectId.Parse` of `organization`, `before` and `after` (lines 49, 64, 67), and `new ObjectId(id)` over each of the caller's associated organization ids (line 61): malformed identifiers, which throw in the source, are not modelled. Identifiers are strings in lexicographic order.
- Field projection (`Fields`) and sort order (`SortBy`) of a listing: a listing is in identifier order.
- `GetLimit` lives in the base controller, which is not part of this model. It is a function parameter `getLimit`, and which value it clamps to is not modelled.
- RepositoryApi.RepositoryApiController.GetEntities: `getLimit` is typed `int -> nat`, so the model assumes the clamp never returns a negative limit. It also does not model the 32-bit overflow of `options.Limit + 1` (RepositoryApiController.cs:72), because integers are unbounded.
- RepositoryApi.Caller.IsInOrganization: membership is tested in the same list `GetAssociatedOrganizationIds` returns. Those base-controller helpers are not part of this model, and `DefaultOrganizationOnCreate` relies on this coupling.
- RepositoryApi.CursorQuery: cursor values are compared with stored identifiers as strings. The source parses them with `ObjectId.Parse`, which also accepts upper-case hex, so the model assumes cursors are written in lower case like stored identifiers.
- RepositoryApi.OrganizationQuery: the organization argument is compared with stored organization ids as a string, so the model assumes it is written in lower case. The source parses it as an object id (line 49), which would also match the upper-case spelling.
- RepositoryApi.Delta.Patch: a changed `Id` property is treated like any other field, so a delta never changes the identifier a document is stored under. The source would copy it onto the model before `Update` (line 188). A change of the organization, under the `OrganizationId` property, is modelled.
- `OkWithResourceLinks` (line 53) becomes `OkPage` with the items and HasMore; the paging links are left out.
- `Get`'s default `limit = 10` is a C# default argument; the model always takes `limit` explicitly.
- `GetByIdCached` reads through the store's cache. The cache is left out, and the lookup reads the stored documents directly.
- `GetAssociatedOrganizationIds`, `GetDefaultOrganizationId` and `IsInOrganization` are taken from a `Caller` value; their own lookup is not modelled.
- Write concerns: the identifier the store assigns on insert is a parameter, and only a duplicate identifier raises the conflict.
- Entities are values: the source patches the cached model object in place, and aliasing of that object is not modelled.
- `GetByNextSummaryNotificationOffsetAsync`: it reads the system clock and an Elasticsearch range filter, so it is left out.
- `IncrementNextSummaryEndOfDayTicks` does not model 64-bit overflow of the tick counter, because integers are unbounded.
- The Elasticsearch patch script is modelled by its effect (`IncrementTicks`). Its bulk-patch transport and the async/await scheduling are left out.
- The base repository's `InvalidateCacheAsync(projects)` overload is not part of this model. It is assumed to wrap each project as a change without an original (`AsModified`).
- CacheClient.PatternPrefix: a trailing `*` in the argument of `RemoveByPrefixAsync` (ProjectRepository.cs:93) is read as a wildcard, so the call removes the keys starting with what precedes it. The cache client's implementation is not part of this model; a client that took the argument literally would remove nothing. `PagedPatternPrefix`, `PagedEvictedMeaning` and `PagedQueryEvicted` rest on this reading.
- How the base repository stores counts and pages under a query's cache key is not part of this model. It is assumed to use "count:" + key for counts and key + ":" + a page suffix for pages (`CountQueryEvicted`, `PagedQueryEvicted`).
- `StorageOptions` and the repository configuration (index names, the validator) are not part of this model.
