/**
 * The project repository: argument guards and cache-key choice of its two
 * organization lookups, the daily bump of the next summary time, and the
 * cache eviction that follows every change to a project.
 */
module Projects {
  import opened Wrappers
  import opened CacheClient

  /** One day in 100-nanosecond ticks. */
  const TicksPerDay: int := 864_000_000_000

  const OrganizationKeyPrefix := "Organization:"
  const CountKeyPrefix := "count:Organization:"
  const PagedKeyPrefix := "paged:Organization:"

  datatype Project = Project(id: string, organizationId: string, nextSummaryEndOfDayTicks: int)

  /** A changed document with the version it replaced, when there was one. */
  datatype ModifiedDocument = ModifiedDocument(value: Project, original: Option<Project>)

  datatype Paging = Paging(page: int, limit: int)

  /** The store query an operation hands on: its organization filter, paging and cache key. */
  datatype ProjectQuery = ProjectQuery(organizationIds: seq<string>, paging: Option<Paging>, cacheKey: Option<string>)

  /** Either an answer without asking the store (empty results) or the query to run. */
  datatype FindPlan = EmptyResults | RunFind(query: ProjectQuery)

  datatype ArgumentError = ArgumentNull(paramName: string)

  // ---------------------------------------------------------------------------
  // Lookups by organization
  // ---------------------------------------------------------------------------

  /** `GetCountByOrganizationIdAsync`: the count query, or the error for a missing id. */
  function GetCountByOrganizationIdQuery(organizationId: string): (r: Result<ProjectQuery, ArgumentError>)
    ensures r.Failure? <==> organizationId == ""
    ensures r.Failure? ==> r.error == ArgumentNull("organizationId")
    ensures r.Success? ==>
      r.value.organizationIds == [organizationId] && r.value.paging.None? &&
      r.value.cacheKey == Some(OrganizationKeyPrefix + organizationId)
  {
    if organizationId == "" then Failure(ArgumentNull("organizationId"))
    else Success(ProjectQuery([organizationId], None, Some("Organization:" + organizationId)))
  }

  /**
   * `GetByOrganizationIdsAsync`: a missing collection is an error, an empty one
   * answers without a query, and only a single-organization lookup is cached.
   */
  function GetByOrganizationIdsQuery(organizationIds: Option<seq<string>>, paging: Option<Paging>): (r: Result<FindPlan, ArgumentError>)
    ensures r.Failure? <==> organizationIds.None?
    ensures r.Failure? ==> r.error == ArgumentNull("organizationIds")
    ensures organizationIds == Some([]) ==> r == Success(EmptyResults)
    ensures organizationIds.Some? && organizationIds.value != [] ==>
      r.Success? && r.value.RunFind? &&
      r.value.query.organizationIds == organizationIds.value && r.value.query.paging == paging
    ensures r.Success? && r.value.RunFind? ==>
      (r.value.query.cacheKey.Some? <==> |organizationIds.value| == 1)
    ensures r.Success? && r.value.RunFind? && r.value.query.cacheKey.Some? ==>
      r.value.query.cacheKey.value == PagedKeyPrefix + organizationIds.value[0]
  {
    match organizationIds
    case None => Failure(ArgumentNull("organizationIds"))
    case Some(ids) =>
      if |ids| == 0 then Success(EmptyResults)
      else
        var cacheKey := if |ids| == 1 then Some("paged:Organization:" + ids[0]) else None;
        Success(RunFind(ProjectQuery(ids, paging, cacheKey)))
  }

  // ---------------------------------------------------------------------------
  // Organizations touched by a change, and the keys to evict for them
  // ---------------------------------------------------------------------------

  /** The ids in order with every duplicate after its first occurrence dropped (LINQ `Distinct`). */
  function Distinct(s: seq<string>): (r: seq<string>)
    ensures forall x :: x in r <==> x in s
    ensures forall i, j :: 0 <= i < j < |r| ==> r[i] != r[j]
  {
    if s == [] then []
    else
      assert s == s[..|s| - 1] + [s[|s| - 1]];
      var r := Distinct(s[..|s| - 1]);
      if s[|s| - 1] in r then r else r + [s[|s| - 1]]
  }

  /** The ids in order with the null or empty ones dropped. */
  function NonEmptyIds(s: seq<string>): (r: seq<string>)
    ensures forall x :: x in r <==> x in s && x != ""
  {
    if s == [] then []
    else
      assert s == s[..|s| - 1] + [s[|s| - 1]];
      NonEmptyIds(s[..|s| - 1]) + (if s[|s| - 1] != "" then [s[|s| - 1]] else [])
  }

  /** Appending ids appends their non-empty ids: the filter keeps order and multiplicity. */
  lemma {:induction false} NonEmptyIdsAppend(s: seq<string>, t: seq<string>)
    ensures NonEmptyIds(s + t) == NonEmptyIds(s) + NonEmptyIds(t)
  {
    if t == [] {
      assert s + t == s;
    } else {
      var init := t[..|t| - 1];
      var last := t[|t| - 1];
      assert (s + t)[..|s + t| - 1] == s + init;
      assert (s + t)[|s + t| - 1] == last;
      NonEmptyIdsAppend(s, init);
    }
  }

  /** A single id is kept iff it is non-empty. */
  lemma NonEmptyIdsSingle(x: string)
    ensures NonEmptyIds([x]) == if x != "" then [x] else []
  {
    assert [x][..0] == [];
  }

  /** The distinct organizations of the changes' new values, in first-occurrence order. */
  function OrganizationsOfModified(documents: seq<ModifiedDocument>): (r: seq<string>)
    ensures forall o :: o in r <==> exists i :: 0 <= i < |documents| && documents[i].value.organizationId == o
    ensures forall i, j :: 0 <= i < j < |r| ==> r[i] != r[j]
  {
    var organizations := seq(|documents|, i requires 0 <= i < |documents| => documents[i].value.organizationId);
    assert forall o :: o in organizations <==>
      exists i :: 0 <= i < |documents| && documents[i].value.organizationId == o by {
      forall o | exists i :: 0 <= i < |documents| && documents[i].value.organizationId == o
        ensures o in organizations
      {
        var i :| 0 <= i < |documents| && documents[i].value.organizationId == o;
        assert organizations[i] == o;
      }
    }
    Distinct(organizations)
  }

  /** The distinct organizations of the added projects, in first-occurrence order. */
  function OrganizationsOfAdded(documents: seq<Project>): (r: seq<string>)
    ensures forall o :: o in r <==> exists i :: 0 <= i < |documents| && documents[i].organizationId == o
    ensures forall i, j :: 0 <= i < j < |r| ==> r[i] != r[j]
  {
    var organizations := seq(|documents|, i requires 0 <= i < |documents| => documents[i].organizationId);
    assert forall o :: o in organizations <==>
      exists i :: 0 <= i < |documents| && documents[i].organizationId == o by {
      forall o | exists i :: 0 <= i < |documents| && documents[i].organizationId == o
        ensures o in organizations
      {
        var i :| 0 <= i < |documents| && documents[i].organizationId == o;
        assert organizations[i] == o;
      }
    }
    Distinct(organizations)
  }

  function CountCacheKey(organizationId: string): string
  {
    CountKeyPrefix + organizationId
  }

  function PagedCachePrefix(organizationId: string): string
  {
    PagedKeyPrefix + organizationId + ":"
  }

  function PagedCachePattern(organizationId: string): string
  {
    PagedCachePrefix(organizationId) + "*"
  }

  /** The count keys `InvalidateCountCacheAsync` removes, one per non-empty id, in order. */
  function CountCacheKeys(organizationIds: seq<string>): (r: seq<string>)
    ensures |r| == |NonEmptyIds(organizationIds)| <= |organizationIds|
    ensures forall k :: k in r ==> |k| > |CountKeyPrefix| && StartsWith(k, CountKeyPrefix)
  {
    var ids := NonEmptyIds(organizationIds);
    NonEmptyIdsShorter(organizationIds);
    var r := seq(|ids|, i requires 0 <= i < |ids| => CountCacheKey(ids[i]));
    assert forall k :: k in r ==> |k| > |CountKeyPrefix| && StartsWith(k, CountKeyPrefix) by {
      forall k | k in r
        ensures |k| > |CountKeyPrefix| && StartsWith(k, CountKeyPrefix)
      {
        var i :| 0 <= i < |r| && r[i] == k;
        assert ids[i] in ids;
        assert (CountKeyPrefix + ids[i])[..|CountKeyPrefix|] == CountKeyPrefix;
      }
    }
    r
  }

  lemma {:induction false} NonEmptyIdsShorter(organizationIds: seq<string>)
    ensures |NonEmptyIds(organizationIds)| <= |organizationIds|
  {
    if organizationIds != [] {
      NonEmptyIdsShorter(organizationIds[..|organizationIds| - 1]);
    }
  }

  /** The removal calls `InvalidateCountCacheAsync` makes: one batch, and none when there are no keys. */
  function CountCalls(organizationIds: seq<string>): (r: seq<CacheCall>)
    ensures |r| <= 1
    ensures r == [] <==> NonEmptyIds(organizationIds) == []
    ensures forall c :: c in r ==> c == RemoveAllCall(CountCacheKeys(organizationIds))
  {
    var keys := CountCacheKeys(organizationIds);
    if |keys| > 0 then [RemoveAllCall(keys)] else []
  }

  /** The removal calls `InvalidatePagedCacheAsync` makes: one prefix removal per non-empty id, in order. */
  function PagedCalls(organizationIds: seq<string>): (r: seq<CacheCall>)
    ensures |r| == |NonEmptyIds(organizationIds)|
    ensures forall c :: c in r ==> c.RemoveByPrefixCall? && StartsWith(c.pattern, PagedKeyPrefix)
  {
    var ids := NonEmptyIds(organizationIds);
    seq(|ids|, i requires 0 <= i < |ids| => RemoveByPrefixCall(PagedCachePattern(ids[i])))
  }

  /** The prefix removals for appended ids come after those for the ids before them. */
  lemma PagedCallsAppend(s: seq<string>, t: seq<string>)
    ensures PagedCalls(s + t) == PagedCalls(s) + PagedCalls(t)
  {
    NonEmptyIdsAppend(s, t);
  }

  /** The entries left after the prefix removals of `InvalidatePagedCacheAsync`, run in order. */
  function PagedEvicted<V>(entries: map<string, V>, organizationIds: seq<string>): (r: map<string, V>)
    ensures r.Keys <= entries.Keys
    ensures forall k :: k in r ==> r[k] == entries[k]
  {
    if organizationIds == [] then entries
    else
      var last := organizationIds[|organizationIds| - 1];
      var rest := PagedEvicted(entries, organizationIds[..|organizationIds| - 1]);
      if last != "" then WithoutPrefix(rest, PatternPrefix(PagedCachePattern(last))) else rest
  }

  /** One more id adds its prefix removal, when it is non-empty, to the calls and to the eviction. */
  lemma PagedStep<V>(entries: map<string, V>, organizationIds: seq<string>, i: nat)
    requires i < |organizationIds|
    ensures var id := organizationIds[i];
            PagedEvicted(entries, organizationIds[..i + 1]) ==
              if id != "" then WithoutPrefix(PagedEvicted(entries, organizationIds[..i]), PatternPrefix(PagedCachePattern(id)))
              else PagedEvicted(entries, organizationIds[..i])
    ensures var id := organizationIds[i];
            PagedCalls(organizationIds[..i + 1]) ==
              PagedCalls(organizationIds[..i]) + (if id != "" then [RemoveByPrefixCall(PagedCachePattern(id))] else [])
  {
    var id := organizationIds[i];
    assert organizationIds[..i + 1] == organizationIds[..i] + [id];
    assert organizationIds[..i + 1][..i] == organizationIds[..i];
    PagedCallsAppend(organizationIds[..i], [id]);
    NonEmptyIdsSingle(id);
  }

  /** The entries left after the count keys and then the paged keys of the organizations are evicted. */
  function Invalidated<V>(entries: map<string, V>, organizationIds: seq<string>): (r: map<string, V>)
    ensures r.Keys <= entries.Keys
    ensures forall k :: k in r ==> r[k] == entries[k]
  {
    PagedEvicted(WithoutKeys(entries, CountCacheKeys(organizationIds)), organizationIds)
  }

  /** k is the count key of one of the non-empty ids. */
  ghost predicate IsCountKeyFor(k: string, organizationIds: seq<string>)
  {
    exists id :: id in organizationIds && id != "" && k == CountCacheKey(id)
  }

  /** k is a paged key of one of the non-empty ids. */
  ghost predicate IsPagedKeyFor(k: string, organizationIds: seq<string>)
  {
    exists id :: id in organizationIds && id != "" && StartsWith(k, PagedCachePrefix(id))
  }

  // ---------------------------------------------------------------------------
  // What eviction removes
  // ---------------------------------------------------------------------------

  /** The wildcard pattern removes exactly the keys under the organization's paged prefix. */
  lemma PagedPatternPrefix(organizationId: string)
    ensures PatternPrefix(PagedCachePattern(organizationId)) == PagedCachePrefix(organizationId)
  {
    var p := PagedCachePattern(organizationId);
    assert p[|p| - 1] == '*';
    assert p[..|p| - 1] == PagedCachePrefix(organizationId);
  }

  /** The count keys are exactly the count keys of the non-empty ids. */
  lemma CountCacheKeysMeaning(organizationIds: seq<string>)
    ensures forall k :: k in CountCacheKeys(organizationIds) <==> IsCountKeyFor(k, organizationIds)
  {
    var ids := NonEmptyIds(organizationIds);
    var keys := CountCacheKeys(organizationIds);
    forall k | IsCountKeyFor(k, organizationIds)
      ensures k in keys
    {
      var id :| id in organizationIds && id != "" && k == CountCacheKey(id);
      assert id in ids;
      var i :| 0 <= i < |ids| && ids[i] == id;
      assert keys[i] == k;
    }
    forall k | k in keys
      ensures IsCountKeyFor(k, organizationIds)
    {
      var i :| 0 <= i < |keys| && keys[i] == k;
      assert ids[i] in ids;
    }
  }

  /** A key survives the paged removals iff it is under none of the non-empty ids' paged prefixes. */
  lemma {:induction false} PagedEvictedMeaning<V>(entries: map<string, V>, organizationIds: seq<string>)
    ensures forall k :: k in PagedEvicted(entries, organizationIds) <==>
      k in entries && !IsPagedKeyFor(k, organizationIds)
    ensures forall k :: k in PagedEvicted(entries, organizationIds) ==>
      PagedEvicted(entries, organizationIds)[k] == entries[k]
  {
    if organizationIds != [] {
      var init := organizationIds[..|organizationIds| - 1];
      var last := organizationIds[|organizationIds| - 1];
      assert organizationIds == init + [last];
      PagedEvictedMeaning(entries, init);
      PagedPatternPrefix(last);
      forall k
        ensures IsPagedKeyFor(k, organizationIds) <==>
          IsPagedKeyFor(k, init) || (last != "" && StartsWith(k, PagedCachePrefix(last)))
      {
        if IsPagedKeyFor(k, organizationIds) {
          var id :| id in organizationIds && id != "" && StartsWith(k, PagedCachePrefix(id));
          if id != last {
            assert id in init;
          }
        }
        if last != "" && StartsWith(k, PagedCachePrefix(last)) {
          assert last in organizationIds;
        }
        if IsPagedKeyFor(k, init) {
          var id :| id in init && id != "" && StartsWith(k, PagedCachePrefix(id));
          assert id in organizationIds;
        }
      }
    }
  }

  /**
   * Eviction removes exactly the count keys and the paged keys of the
   * organizations; every other entry stays with its value.
   */
  lemma InvalidatedMeaning<V>(entries: map<string, V>, organizationIds: seq<string>)
    ensures forall k :: k in Invalidated(entries, organizationIds) <==>
      k in entries && !IsCountKeyFor(k, organizationIds) && !IsPagedKeyFor(k, organizationIds)
    ensures forall k :: k in Invalidated(entries, organizationIds) ==>
      Invalidated(entries, organizationIds)[k] == entries[k]
  {
    CountCacheKeysMeaning(organizationIds);
    PagedEvictedMeaning(WithoutKeys(entries, CountCacheKeys(organizationIds)), organizationIds);
  }

  /** Id lists with the same non-empty members mark the same keys for eviction. */
  lemma SameMembersSameKeys(a: seq<string>, b: seq<string>)
    requires forall x :: x != "" ==> (x in a <==> x in b)
    ensures forall k :: IsCountKeyFor(k, a) == IsCountKeyFor(k, b)
    ensures forall k :: IsPagedKeyFor(k, a) == IsPagedKeyFor(k, b)
  {
    forall k
      ensures IsCountKeyFor(k, a) == IsCountKeyFor(k, b)
      ensures IsPagedKeyFor(k, a) == IsPagedKeyFor(k, b)
    {
      if IsCountKeyFor(k, a) {
        var id :| id in a && id != "" && k == CountCacheKey(id);
        assert id in b;
      }
      if IsCountKeyFor(k, b) {
        var id :| id in b && id != "" && k == CountCacheKey(id);
        assert id in a;
      }
      if IsPagedKeyFor(k, a) {
        var id :| id in a && id != "" && StartsWith(k, PagedCachePrefix(id));
        assert id in b;
      }
      if IsPagedKeyFor(k, b) {
        var id :| id in b && id != "" && StartsWith(k, PagedCachePrefix(id));
        assert id in a;
      }
    }
  }

  /** Id lists with the same non-empty members leave the same keys. */
  lemma SameMembersSameSurvivors<V>(entries: map<string, V>, a: seq<string>, b: seq<string>)
    requires forall x :: x != "" ==> (x in a <==> x in b)
    ensures Invalidated(entries, a).Keys == Invalidated(entries, b).Keys
  {
    SameMembersSameKeys(a, b);
    InvalidatedMeaning(entries, a);
    InvalidatedMeaning(entries, b);
  }

  /** Two restrictions of one map with the same keys are the same map. */
  lemma SameKeysSameRestriction<V>(entries: map<string, V>, ra: map<string, V>, rb: map<string, V>)
    requires ra.Keys == rb.Keys && ra.Keys <= entries.Keys
    requires forall k :: k in ra ==> ra[k] == entries[k]
    requires forall k :: k in rb ==> rb[k] == entries[k]
    ensures ra == rb
  {
  }

  /** Id lists with the same non-empty members evict the same entries. */
  lemma SameMembersSameEviction<V>(entries: map<string, V>, a: seq<string>, b: seq<string>)
    requires forall x :: x != "" ==> (x in a <==> x in b)
    ensures Invalidated(entries, a) == Invalidated(entries, b)
  {
    SameMembersSameSurvivors(entries, a, b);
    SameKeysSameRestriction(entries, Invalidated(entries, a), Invalidated(entries, b));
  }

  /** Eviction depends only on which non-empty ids occur: empty ids and repeats change nothing. */
  lemma InvalidationIgnoresEmptyAndRepeatedIds<V>(entries: map<string, V>, organizationIds: seq<string>)
    ensures Invalidated(entries, Distinct(organizationIds)) == Invalidated(entries, organizationIds)
    ensures Invalidated(entries, NonEmptyIds(organizationIds)) == Invalidated(entries, organizationIds)
  {
    SameMembersSameEviction(entries, Distinct(organizationIds), organizationIds);
    SameMembersSameEviction(entries, NonEmptyIds(organizationIds), organizationIds);
  }

  lemma {:induction false} AllEmptyIdsDropped(organizationIds: seq<string>)
    requires forall i :: 0 <= i < |organizationIds| ==> organizationIds[i] == ""
    ensures NonEmptyIds(organizationIds) == []
  {
    if organizationIds != [] {
      AllEmptyIdsDropped(organizationIds[..|organizationIds| - 1]);
    }
  }

  /** With no non-empty organization id, eviction leaves the cache as it is and makes no call. */
  lemma NoOrganizationsNoEviction<V>(entries: map<string, V>, organizationIds: seq<string>)
    requires forall i :: 0 <= i < |organizationIds| ==> organizationIds[i] == ""
    ensures Invalidated(entries, organizationIds) == entries
    ensures CountCalls(organizationIds) == [] && PagedCalls(organizationIds) == []
  {
    AllEmptyIdsDropped(organizationIds);
    SameMembersSameEviction(entries, organizationIds, []);
    var none: seq<string> := [];
    assert CountCacheKeys(none) == [];
    assert Invalidated(entries, none) == WithoutKeys(entries, []);
    assert WithoutKeys(entries, []) == entries;
  }

  /**
   * Eviction for an organization removes the entry of its cached count query:
   * the count cache stores the query's key under the "count:" prefix.
   */
  lemma CountQueryEvicted<V>(entries: map<string, V>, organizationIds: seq<string>, organizationId: string)
    requires organizationId in organizationIds
    requires GetCountByOrganizationIdQuery(organizationId).Success?
    ensures "count:" + GetCountByOrganizationIdQuery(organizationId).value.cacheKey.value
      !in Invalidated(entries, organizationIds)
  {
    var key := GetCountByOrganizationIdQuery(organizationId).value.cacheKey.value;
    assert "count:" + key == CountCacheKey(organizationId);
    InvalidatedMeaning(entries, organizationIds);
  }

  /**
   * Eviction for an organization removes every page cached for its
   * single-organization lookup: pages are stored under the query's key
   * followed by ":" and a page suffix.
   */
  lemma PagedQueryEvicted<V>(entries: map<string, V>, organizationIds: seq<string>, organizationId: string,
                             paging: Option<Paging>, suffix: string)
    requires organizationId in organizationIds && organizationId != ""
    ensures GetByOrganizationIdsQuery(Some([organizationId]), paging).Success?
    ensures GetByOrganizationIdsQuery(Some([organizationId]), paging).value.RunFind?
    ensures GetByOrganizationIdsQuery(Some([organizationId]), paging).value.query.cacheKey.Some?
    ensures GetByOrganizationIdsQuery(Some([organizationId]), paging).value.query.cacheKey.value + ":" + suffix
      !in Invalidated(entries, organizationIds)
  {
    var key := GetByOrganizationIdsQuery(Some([organizationId]), paging).value.query.cacheKey.value;
    var k := key + ":" + suffix;
    var prefix := PagedCachePrefix(organizationId);
    assert key + ":" == prefix;
    assert k == prefix + suffix;
    assert k[..|prefix|] == prefix;
    InvalidatedMeaning(entries, organizationIds);
  }

  /** What a change evicts depends only on the new versions, never on the replaced originals. */
  lemma ModifiedEvictsByNewValues(documents: seq<ModifiedDocument>)
    ensures OrganizationsOfModified(documents) ==
      OrganizationsOfAdded(seq(|documents|, i requires 0 <= i < |documents| => documents[i].value))
  {
    var values := seq(|documents|, i requires 0 <= i < |documents| => documents[i].value);
    assert seq(|documents|, i requires 0 <= i < |documents| => documents[i].value.organizationId)
        == seq(|values|, i requires 0 <= i < |values| => values[i].organizationId);
  }

  /** The documents handed to eviction after a bump of the summary time: current values, no originals. */
  function AsModified(projects: seq<Project>): (r: seq<ModifiedDocument>)
    ensures |r| == |projects|
    ensures forall i :: 0 <= i < |r| ==> r[i].value == projects[i] && r[i].original.None?
  {
    seq(|projects|, i requires 0 <= i < |projects| => ModifiedDocument(projects[i], None))
  }

  /** A bump evicts the same organizations as adding those projects would. */
  lemma BumpEvictsLikeAdd(projects: seq<Project>)
    ensures OrganizationsOfModified(AsModified(projects)) == OrganizationsOfAdded(projects)
  {
    var documents := AsModified(projects);
    ModifiedEvictsByNewValues(documents);
    assert seq(|documents|, i requires 0 <= i < |documents| => documents[i].value) == projects;
  }

  // ---------------------------------------------------------------------------
  // The daily bump of the next summary time
  // ---------------------------------------------------------------------------

  function ProjectIds(projects: seq<Project>): set<string>
  {
    set p | p in projects :: p.id
  }

  /** The store after the patch script ran on every stored project whose id is listed. */
  function IncrementTicks(store: map<string, Project>, ids: set<string>): (r: map<string, Project>)
    ensures r.Keys == store.Keys
    ensures forall id :: id in r ==> r[id].id == store[id].id && r[id].organizationId == store[id].organizationId
  {
    map id | id in store ::
      if id in ids then store[id].(nextSummaryEndOfDayTicks := store[id].nextSummaryEndOfDayTicks + TicksPerDay)
      else store[id]
  }

  /** The number of stored projects the patch matches. */
  function RecordsAffected(store: map<string, Project>, ids: set<string>): (r: nat)
    ensures r <= |store.Keys| && r <= |ids|
    ensures r == 0 <==> forall id :: id in ids ==> id !in store
  {
    CommonBounds(store.Keys, ids);
    |store.Keys * ids|
  }

  /** The common part of two sets is no larger than either, and empty iff they share nothing. */
  lemma CommonBounds<T>(a: set<T>, b: set<T>)
    ensures |a * b| <= |a| && |a * b| <= |b|
    ensures |a * b| == 0 <==> forall x :: x in b ==> x !in a
  {
    assert a == (a - b) + (a * b);
    assert (a - b) * (a * b) == {};
    assert b == (b - a) + (a * b);
    assert (b - a) * (a * b) == {};
    if |a * b| != 0 {
      var x :| x in a * b;
      assert x in b && x in a;
    }
  }

  /**
   * The bump moves the next summary of exactly the listed stored projects one
   * day on, leaves everything else about the store alone, and the number it
   * reports is the number of projects it changed.
   */
  lemma IncrementTicksMeaning(store: map<string, Project>, ids: set<string>)
    ensures IncrementTicks(store, ids).Keys == store.Keys
    ensures forall id :: id in store && id in ids ==>
      IncrementTicks(store, ids)[id] ==
        Project(store[id].id, store[id].organizationId, store[id].nextSummaryEndOfDayTicks + TicksPerDay)
    ensures forall id :: id in store && id !in ids ==> IncrementTicks(store, ids)[id] == store[id]
    ensures (set id | id in store && IncrementTicks(store, ids)[id] != store[id]) == store.Keys * ids
    ensures RecordsAffected(store, ids) == |set id | id in store && IncrementTicks(store, ids)[id] != store[id]|
  {
    var r := IncrementTicks(store, ids);
    assert (set id | id in store && r[id] != store[id]) == store.Keys * ids by {
      forall id | id in store && id in ids
        ensures r[id] != store[id]
      {
        assert r[id].nextSummaryEndOfDayTicks != store[id].nextSummaryEndOfDayTicks;
      }
    }
  }

  /** Some project was changed iff some listed project is stored. */
  lemma RecordsAffectedPositive(store: map<string, Project>, projects: seq<Project>)
    ensures RecordsAffected(store, ProjectIds(projects)) > 0 <==> exists p :: p in projects && p.id in store
  {
    var common := store.Keys * ProjectIds(projects);
    if exists p :: p in projects && p.id in store {
      var p :| p in projects && p.id in store;
      assert p.id in common;
    }
    if |common| > 0 {
      var id :| id in common;
      var p :| p in projects && p.id == id;
      assert p in projects && p.id in store;
    }
  }

  // ---------------------------------------------------------------------------
  // The repository
  // ---------------------------------------------------------------------------

  class ProjectRepository<V> {
    /** Stored projects by id. */
    var documents: map<string, Project>
    const cache: Cache<V>
    const isCacheEnabled: bool

    constructor (documents: map<string, Project>, cache: Cache<V>, isCacheEnabled: bool)
      ensures this.documents == documents && this.cache == cache && this.isCacheEnabled == isCacheEnabled
    {
      this.documents := documents;
      this.cache := cache;
      this.isCacheEnabled := isCacheEnabled;
    }

    /** `InvalidateCountCacheAsync`. */
    method InvalidateCountCache(organizationIds: seq<string>)
      modifies cache
      ensures cache.entries == WithoutKeys(old(cache.entries), CountCacheKeys(organizationIds))
      ensures cache.calls == old(cache.calls) + CountCalls(organizationIds)
    {
      var keys := CountCacheKeys(organizationIds);
      if |keys| > 0 {
        cache.RemoveAll(keys);
      } else {
        assert WithoutKeys(cache.entries, keys) == cache.entries;
        assert cache.calls + [] == cache.calls;
      }
    }

    /** The loop body of `InvalidatePagedCacheAsync`: the prefix removal for one id, skipped when it is empty. */
    method InvalidatePagedCacheFor(organizationId: string)
      modifies cache
      ensures cache.entries == if organizationId != "" then WithoutPrefix(old(cache.entries), PatternPrefix(PagedCachePattern(organizationId)))
                               else old(cache.entries)
      ensures cache.calls == old(cache.calls) + if organizationId != "" then [RemoveByPrefixCall(PagedCachePattern(organizationId))] else []
    {
      if organizationId != "" {
        cache.RemoveByPrefix(PagedCachePattern(organizationId));
      } else {
        assert cache.calls + [] == cache.calls;
      }
    }

    /** `InvalidatePagedCacheAsync`: one prefix removal per non-empty id, in order. */
    method InvalidatePagedCache(organizationIds: seq<string>)
      modifies cache
      ensures cache.entries == PagedEvicted(old(cache.entries), organizationIds)
      ensures cache.calls == old(cache.calls) + PagedCalls(organizationIds)
    {
      var i := 0;
      assert PagedCalls(organizationIds[..0]) == [];
      while i < |organizationIds|
        invariant 0 <= i <= |organizationIds|
        invariant cache.entries == PagedEvicted(old(cache.entries), organizationIds[..i])
        invariant cache.calls == old(cache.calls) + PagedCalls(organizationIds[..i])
      {
        PagedStep(old(cache.entries), organizationIds, i);
        InvalidatePagedCacheFor(organizationIds[i]);
        i := i + 1;
      }
      assert organizationIds[..i] == organizationIds;
    }

    /** `InvalidateCacheAsync(documents)`: evicts for the new versions' organizations. */
    method InvalidateCache(changes: seq<ModifiedDocument>)
      modifies cache
      ensures !isCacheEnabled ==> cache.entries == old(cache.entries) && cache.calls == old(cache.calls)
      ensures isCacheEnabled ==>
        cache.entries == Invalidated(old(cache.entries), OrganizationsOfModified(changes)) &&
        cache.calls == old(cache.calls) + CountCalls(OrganizationsOfModified(changes))
                                        + PagedCalls(OrganizationsOfModified(changes))
    {
      if !isCacheEnabled {
        return;
      }
      var organizations := OrganizationsOfModified(changes);
      InvalidateCountCache(organizations);
      InvalidatePagedCache(organizations);
    }

    /** The `DocumentsAdded` handler: evicts for the added projects' organizations. */
    method OnDocumentsAdded(added: seq<Project>)
      modifies cache
      ensures !isCacheEnabled ==> cache.entries == old(cache.entries) && cache.calls == old(cache.calls)
      ensures isCacheEnabled ==>
        cache.entries == Invalidated(old(cache.entries), OrganizationsOfAdded(added)) &&
        cache.calls == old(cache.calls) + CountCalls(OrganizationsOfAdded(added))
                                        + PagedCalls(OrganizationsOfAdded(added))
    {
      if !isCacheEnabled {
        return;
      }
      var organizations := OrganizationsOfAdded(added);
      InvalidateCountCache(organizations);
      InvalidatePagedCache(organizations);
    }

    /**
     * `IncrementNextSummaryEndOfDayTicksAsync`: a missing collection is an
     * error, an empty one changes nothing and counts zero; otherwise the listed
     * stored projects move one day on, and the cache is evicted for the given
     * projects' organizations when any project was changed.
     */
    method IncrementNextSummaryEndOfDayTicks(projects: Option<seq<Project>>) returns (r: Result<nat, ArgumentError>)
      modifies this, cache
      ensures projects.None? ==>
        r == Failure(ArgumentNull("projects")) &&
        documents == old(documents) && cache.entries == old(cache.entries) && cache.calls == old(cache.calls)
      ensures projects == Some([]) ==>
        r == Success(0) &&
        documents == old(documents) && cache.entries == old(cache.entries) && cache.calls == old(cache.calls)
      ensures projects.Some? && projects.value != [] ==>
        var affected := RecordsAffected(old(documents), ProjectIds(projects.value));
        var organizations := OrganizationsOfModified(AsModified(projects.value));
        r == Success(affected) &&
        documents == IncrementTicks(old(documents), ProjectIds(projects.value)) &&
        (affected > 0 && isCacheEnabled ==>
          cache.entries == Invalidated(old(cache.entries), organizations) &&
          cache.calls == old(cache.calls) + CountCalls(organizations) + PagedCalls(organizations)) &&
        (affected == 0 || !isCacheEnabled ==>
          cache.entries == old(cache.entries) && cache.calls == old(cache.calls))
    {
      if projects.None? {
        return Failure(ArgumentNull("projects"));
      }
      var list := projects.value;
      if |list| == 0 {
        return Success(0);
      }
      var ids := ProjectIds(list);
      var recordsAffected := RecordsAffected(documents, ids);
      documents := IncrementTicks(documents, ids);
      if recordsAffected > 0 {
        InvalidateCache(AsModified(list));
      }
      return Success(recordsAffected);
    }
  }
}
