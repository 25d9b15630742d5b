/**
 * The generic CRUD controller over an organization-scoped document store:
 * listing with cursors and a look-ahead record, get by id with tenant hiding,
 * create with a default organization, partial update and delete, each gated by
 * a three-valued permission and answering with an abstract outcome code.
 * View, create and storage shapes are mapped into one another by the identity.
 */
module RepositoryApi {
  import opened Wrappers
  import opened DocumentStore

  const InvalidOrganizationId := "Invalid organization id specified."

  /** The outcome codes the controller answers with (HTTP results, without the transport). */
  datatype Outcome =
    | Ok
    | OkItem(item: Entity)
    | OkPage(items: seq<Entity>, hasMore: bool)
    | Created(id: Id, item: Entity)
    | NoContent
    | BadRequest(reason: Option<string>)
    | NotFound
    | Conflict

  /** `PermissionResult`: allow, deny with a tailored outcome, or deny leaving the outcome to the caller. */
  datatype Permission = Allow | DenyWithResult(result: Outcome) | Deny
  {
    predicate Allowed()
    {
      Allow?
    }

    /** `permission.HttpActionResult ?? fallback`: a plain denial leaves the answer to the caller. */
    function ResultOr(fallback: Outcome): (r: Outcome)
      ensures DenyWithResult? ==> r == result
      ensures Deny? ==> r == fallback
    {
      if DenyWithResult? then result else fallback
    }
  }

  /**
   * The caller as the controller sees it: the organizations it is associated
   * with and its default organization.
   */
  datatype Caller = Caller(organizationIds: seq<string>, defaultOrganizationId: string)
  {
    /** `IsInOrganization`: membership in the associated organizations. */
    predicate IsInOrganization(organizationId: string)
    {
      organizationId in organizationIds
    }
  }

  /** The property name under which a delta changes an entity's organization. */
  const OrganizationIdProperty := "OrganizationId"

  /**
   * `Delta<TUpdateModel>`: the changed properties of the update shape with
   * their new values. The entity keeps its organization outside its fields,
   * so a change under `OrganizationIdProperty` is a change of organization.
   */
  datatype Delta = Delta(changed: map<string, string>)
  {
    /** `GetChangedPropertyNames()`: there are none exactly when the delta is empty. */
    function ChangedPropertyNames(): (names: set<string>)
      ensures names == {} <==> changed == map[]
      ensures forall f :: f in names <==> f in changed
    {
      changed.Keys
    }

    /**
     * `changes.Patch(original)`: copies every changed property onto the
     * entity, the organization included, and nothing else.
     */
    function Patch(original: Entity): (r: Entity)
      ensures r.id == original.id
      ensures r.organizationId ==
                if OrganizationIdProperty in changed then changed[OrganizationIdProperty] else original.organizationId
      ensures r.fields.Keys == original.fields.Keys + (changed.Keys - {OrganizationIdProperty})
      ensures forall f :: f in changed && f != OrganizationIdProperty ==> r.fields[f] == changed[f]
      ensures forall f :: f in original.fields && (f !in changed || f == OrganizationIdProperty) ==>
                r.fields[f] == original.fields[f]
    {
      var organizationId :=
        if OrganizationIdProperty in changed then changed[OrganizationIdProperty] else original.organizationId;
      Entity(original.id, organizationId, original.fields + (changed - {OrganizationIdProperty}))
    }
  }

  /** Applying the same delta twice is applying it once; an empty delta changes nothing. */
  lemma PatchIdempotent(d: Delta, e: Entity)
    ensures d.Patch(d.Patch(e)) == d.Patch(e)
    ensures d.ChangedPropertyNames() == {} ==> d.Patch(e) == e
  {
    assert d.Patch(d.Patch(e)).fields == d.Patch(e).fields;
    if d.ChangedPropertyNames() == {} {
      assert d.Patch(e).fields == e.fields;
    }
  }

  /**
   * `CanUpdate` looks only at the original: an update permitted to the caller
   * can move the entity into an organization the caller is not in, after
   * which `GetModel` hides it from that caller.
   */
  lemma UpdateCanMoveEntityOutOfReach(caller: Caller, documents: map<Id, Entity>, id: Id, target: string,
                                       changed: map<string, string>)
    requires id != "" && id in documents
    requires caller.IsInOrganization(documents[id].organizationId) && !caller.IsInOrganization(target)
    ensures var d := Delta(changed[OrganizationIdProperty := target]);
            var original := GetModelOf(true, caller, documents, id);
            && original == Some(documents[id])
            && CanUpdate(true, caller, original.value, d) == Allow
            && d.Patch(original.value).organizationId == target
            && GetModelOf(true, caller, documents[id := d.Patch(original.value)], id) == None
  {
  }

  /**
   * `GetModel`: absent for an empty id, for an id the store does not hold, and
   * for an organization-owned entity outside the caller's organizations.
   */
  function GetModelOf(owned: bool, caller: Caller, documents: map<Id, Entity>, id: Id): (r: Option<Entity>)
    ensures r.None? <==>
              || id == ""
              || id !in documents
              || (owned && !caller.IsInOrganization(documents[id].organizationId))
    ensures r.Some? ==> r.value == documents[id]
  {
    if id == "" then None
    else
      var model := if id in documents then Some(documents[id]) else None;
      if owned && model.Some? && !caller.IsInOrganization(model.value.organizationId) then None
      else model
  }

  /** `CanAdd`: an organization-owned entity must name one of the caller's organizations. */
  function CanAdd(owned: bool, caller: Caller, value: Entity): (p: Permission)
    ensures p.Allowed() <==> !owned || caller.IsInOrganization(value.organizationId)
    ensures !p.Allowed() ==> p == DenyWithResult(BadRequest(Some(InvalidOrganizationId)))
  {
    if !owned then Allow
    else if !caller.IsInOrganization(value.organizationId) then DenyWithResult(BadRequest(Some(InvalidOrganizationId)))
    else Allow
  }

  /** `CanUpdate`: the original must belong to one of the caller's organizations. */
  function CanUpdate(owned: bool, caller: Caller, original: Entity, changes: Delta): (p: Permission)
    ensures p.Allowed() <==> !owned || caller.IsInOrganization(original.organizationId)
    ensures !p.Allowed() ==> p == DenyWithResult(BadRequest(Some(InvalidOrganizationId)))
  {
    if owned && !caller.IsInOrganization(original.organizationId) then
      DenyWithResult(BadRequest(Some(InvalidOrganizationId)))
    else Allow
  }

  /** `CanDelete`: an entity of another organization is denied as not found. */
  function CanDelete(owned: bool, caller: Caller, value: Entity): (p: Permission)
    ensures p.Allowed() <==> !owned || caller.IsInOrganization(value.organizationId)
    ensures !p.Allowed() ==> p == DenyWithResult(NotFound)
  {
    if owned && !caller.IsInOrganization(value.organizationId) then DenyWithResult(NotFound)
    else Allow
  }

  /**
   * Whatever `GetModel` returns passes `CanUpdate` and `CanDelete`: with the
   * base `GetModel`, their deny branches cannot be reached.
   */
  lemma VisibleModelIsPermitted(owned: bool, caller: Caller, documents: map<Id, Entity>, id: Id, changes: Delta)
    requires GetModelOf(owned, caller, documents, id).Some?
    ensures var e := GetModelOf(owned, caller, documents, id).value;
            CanUpdate(owned, caller, e, changes) == Allow && CanDelete(owned, caller, e) == Allow
  {
  }

  /**
   * An entity of an organization the caller is not associated with is hidden
   * even though its identifier is stored.
   */
  lemma OtherOrganizationIsHidden(caller: Caller, documents: map<Id, Entity>, id: Id)
    requires id in documents && !caller.IsInOrganization(documents[id].organizationId)
    ensures GetModelOf(true, caller, documents, id) == None
    ensures id != "" ==> GetModelOf(false, caller, documents, id) == Some(documents[id])
  {
  }

  /** For types not owned by an organization, the caller's organizations do not matter. */
  lemma UnownedIgnoresCaller(c1: Caller, c2: Caller, documents: map<Id, Entity>, id: Id,
                             query: Option<Query>, beforeQuery: Option<Query>, afterQuery: Option<Query>)
    ensures GetModelOf(false, c1, documents, id) == GetModelOf(false, c2, documents, id)
    ensures ListingQuery(false, c1.organizationIds, query, beforeQuery, afterQuery)
         == ListingQuery(false, c2.organizationIds, query, beforeQuery, afterQuery)
  {
  }

  /**
   * The organization `Post` stores: an owned payload without one gets the
   * caller's default organization, provided the caller has any organization.
   */
  function WithDefaultOrganization(owned: bool, caller: Caller, organizationId: string): (r: string)
    ensures r != organizationId ==> organizationId == "" && r == caller.defaultOrganizationId
    ensures owned && organizationId == "" && |caller.organizationIds| > 0 ==> r == caller.defaultOrganizationId
    ensures !owned || organizationId != "" || |caller.organizationIds| == 0 ==> r == organizationId
  {
    if owned && organizationId == "" && |caller.organizationIds| > 0 then caller.defaultOrganizationId
    else organizationId
  }

  /**
   * A caller whose only organization is its default gets that organization on
   * a payload without one, and the create is permitted; a caller with no
   * organization keeps the empty organization and is refused.
   */
  lemma DefaultOrganizationOnCreate(caller: Caller, id: Id, fields: map<string, string>)
    ensures caller.organizationIds == [caller.defaultOrganizationId] ==>
              var o := WithDefaultOrganization(true, caller, "");
              o == caller.defaultOrganizationId && CanAdd(true, caller, Entity(id, o, fields)).Allowed()
    ensures caller.organizationIds == [] ==>
              var o := WithDefaultOrganization(true, caller, "");
              o == "" && CanAdd(true, caller, Entity(id, o, fields))
                         == DenyWithResult(BadRequest(Some(InvalidOrganizationId)))
  {
  }

  /** `Query.EQ("oid", organization)`, added only for owned types and a non-empty argument. */
  function OrganizationQuery(owned: bool, organization: string): (r: Option<Query>)
    ensures r.Some? <==> owned && organization != ""
    ensures r.Some? ==> forall e :: Matches(r.value, e) <==> e.organizationId == organization
  {
    if owned && organization != "" then Some(OrganizationIs(organization)) else None
  }

  /**
   * The cursor predicate `GetEntities` installs for a cursor value: a preset
   * query wins; otherwise a non-empty value gives "identifier strictly below
   * the value". Both `before` and `after` are given this one.
   */
  function CursorQuery(value: string, preset: Option<Query>): (r: Option<Query>)
    ensures forall e :: MatchesAll(r, e) <==>
              if preset.Some? then Matches(preset.value, e) else value == "" || IdLess(e.id, value)
  {
    if value != "" && preset.None? then Some(IdBelow(value)) else preset
  }

  /**
   * The query `GetEntities` sends: the given query, the tenant filter and both
   * cursor predicates, AND-ed. An owned type is never listed unfiltered; with
   * no query at all the store is asked for everything (`Query.Null`).
   */
  function ListingQuery(owned: bool, organizationIds: seq<string>, query: Option<Query>,
                        beforeQuery: Option<Query>, afterQuery: Option<Query>): (r: Option<Query>)
    ensures r.None? <==> !owned && query.None? && beforeQuery.None? && afterQuery.None?
  {
    var scoped := if owned then And(query, Some(OrganizationIn(organizationIds))) else query;
    And(And(scoped, beforeQuery), afterQuery)
  }

  lemma ListingQueryMatches(owned: bool, organizationIds: seq<string>, query: Option<Query>,
                            beforeQuery: Option<Query>, afterQuery: Option<Query>, e: Entity)
    ensures MatchesAll(ListingQuery(owned, organizationIds, query, beforeQuery, afterQuery), e) <==>
              && MatchesAll(query, e)
              && (owned ==> e.organizationId in organizationIds)
              && MatchesAll(beforeQuery, e)
              && MatchesAll(afterQuery, e)
  {
    var scoped := if owned then And(query, Some(OrganizationIn(organizationIds))) else query;
    AndMatches(query, Some(OrganizationIn(organizationIds)), e);
    AndMatches(scoped, beforeQuery, e);
    AndMatches(And(scoped, beforeQuery), afterQuery, e);
  }

  /**
   * Fetching limit+1 records and keeping the first limit is the same as taking
   * limit of the matching records; there are more exactly when more than limit
   * match; the look-ahead record is never on the page.
   */
  lemma LookAheadPage(docs: seq<Entity>, q: Option<Query>, limit: nat)
    requires Sorted(docs)
    ensures var fetched := Take(Filter(docs, q), limit + 1);
            var page := Take(fetched, limit);
            && page == Take(Filter(docs, q), limit)
            && (|fetched| > limit <==> |Filter(docs, q)| > limit)
            && (|fetched| > limit ==> fetched[limit] !in page)
  {
    var matching := Filter(docs, q);
    FilterKeepsOrder(docs, q);
    var fetched := Take(matching, limit + 1);
    var page := Take(fetched, limit);
    assert page == matching[..|page|];
    if |fetched| > limit && fetched[limit] in page {
      var i :| 0 <= i < |page| && page[i] == fetched[limit];
      assert matching[i] == matching[limit];
      IdLessIrreflexive(matching[i].id);
    }
  }

  /** A page holds only stored records that match the query, in identifier order. */
  lemma PageItemsMatch(docs: seq<Entity>, q: Option<Query>, limit: nat)
    requires Sorted(docs)
    ensures Sorted(Take(Filter(docs, q), limit))
    ensures forall x :: x in Take(Filter(docs, q), limit) ==> x in docs && MatchesAll(q, x)
  {
    var matching := Filter(docs, q);
    FilterKeepsOrder(docs, q);
    var page := Take(matching, limit);
    forall i, j | 0 <= i < j < |page| ensures IdLess(page[i].id, page[j].id) {
      assert page[i] == matching[i] && page[j] == matching[j];
    }
    forall x | x in page ensures x in docs && MatchesAll(q, x) {
      assert x in matching;
    }
  }

  /** Every listed entity of an owned type belongs to one of the caller's organizations. */
  lemma ListedItemsInCallerOrganizations(docs: seq<Entity>, organizationIds: seq<string>, query: Option<Query>,
                                         beforeQuery: Option<Query>, afterQuery: Option<Query>, limit: nat)
    ensures forall e :: e in Take(Filter(docs, ListingQuery(true, organizationIds, query, beforeQuery, afterQuery)), limit) ==>
              e.organizationId in organizationIds
  {
    var q := ListingQuery(true, organizationIds, query, beforeQuery, afterQuery);
    forall e | e in Take(Filter(docs, q), limit)
      ensures e.organizationId in organizationIds
    {
      assert e in Filter(docs, q);
      ListingQueryMatches(true, organizationIds, query, beforeQuery, afterQuery, e);
    }
  }

  /**
   * As written, a non-empty `after` cursor without a preset query keeps only
   * identifiers strictly BELOW the cursor, exactly as `before` does: no record
   * past the cursor is ever listed.
   */
  lemma AfterCursorListsOnlyLowerIds(docs: seq<Entity>, owned: bool, organizationIds: seq<string>,
                                     query: Option<Query>, beforeQuery: Option<Query>, after: Id, limit: nat, e: Entity)
    requires after != ""
    requires e in Take(Filter(docs, ListingQuery(owned, organizationIds, query, beforeQuery, CursorQuery(after, None))), limit)
    ensures IdLess(e.id, after)
    ensures !IdLess(after, e.id) && e.id != after
  {
    var q := ListingQuery(owned, organizationIds, query, beforeQuery, CursorQuery(after, None));
    assert e in Filter(docs, q);
    ListingQueryMatches(owned, organizationIds, query, beforeQuery, CursorQuery(after, None), e);
    IdLessAsymmetric(e.id, after);
  }

  /** The create shape (`TNewModel`): an object `Post` may update in place. */
  class NewModel {
    var organizationId: string
    var fields: map<string, string>

    constructor (organizationId: string, fields: map<string, string>)
      ensures this.organizationId == organizationId && this.fields == fields
    {
      this.organizationId := organizationId;
      this.fields := fields;
    }
  }

  /** `GetEntitiesOptions`; field projection and sort order are not modelled. */
  class GetEntitiesOptions {
    var hasMore: bool
    var query: Option<Query>
    var beforeValue: string
    var beforeQuery: Option<Query>
    var afterValue: string
    var afterQuery: Option<Query>
    var limit: int

    constructor (query: Option<Query>, beforeValue: string, afterValue: string, limit: int)
      ensures this.query == query && this.beforeValue == beforeValue && this.afterValue == afterValue
      ensures this.limit == limit && beforeQuery.None? && afterQuery.None? && !hasMore
    {
      this.query := query;
      this.beforeValue := beforeValue;
      this.afterValue := afterValue;
      this.limit := limit;
      beforeQuery := None;
      afterQuery := None;
      hasMore := false;
    }
  }

  /**
   * `RepositoryApiController`: one store, whether its entity type is owned by
   * an organization, the caller, and the base controller's `GetLimit` clamp
   * (taken as given; what it clamps to is not modelled).
   */
  class RepositoryApiController {
    const repository: Repository
    const isOwnedByOrganization: bool
    const caller: Caller
    const getLimit: int -> nat

    constructor (repository: Repository, isOwnedByOrganization: bool, caller: Caller, getLimit: int -> nat)
      ensures this.repository == repository && this.isOwnedByOrganization == isOwnedByOrganization
      ensures this.caller == caller && this.getLimit == getLimit
    {
      this.repository := repository;
      this.isOwnedByOrganization := isOwnedByOrganization;
      this.caller := caller;
      this.getLimit := getLimit;
    }

    /** `GetModel`: the store's cached lookup, hidden for an empty id or a foreign organization. */
    function GetModel(id: Id): (r: Option<Entity>)
      reads repository
      ensures r.None? <==>
                || id == ""
                || repository.GetByIdCached(id).None?
                || (isOwnedByOrganization && !caller.IsInOrganization(repository.GetByIdCached(id).value.organizationId))
      ensures r.Some? ==> r == repository.GetByIdCached(id)
    {
      GetModelOf(isOwnedByOrganization, caller, repository.Documents(), id)
    }

    /** `Get`: one page of the entities visible to the caller, and whether there are more. */
    method Get(organization: string, before: string, after: string, limit: int) returns (r: Outcome)
      requires repository.Valid()
      ensures var q := ListingQuery(isOwnedByOrganization, caller.organizationIds,
                                    OrganizationQuery(isOwnedByOrganization, organization),
                                    CursorQuery(before, None), CursorQuery(after, None));
              var matching := Filter(repository.documents, q);
              r == OkPage(Take(matching, getLimit(limit)), |matching| > getLimit(limit))
    {
      var query: Option<Query> := None;
      if isOwnedByOrganization && organization != "" {
        query := Some(OrganizationIs(organization));
      }
      var options := new GetEntitiesOptions(query, before, after, limit);
      var results := GetEntities(options);
      r := OkPage(results, options.hasMore);
    }

    /**
     * `GetEntities`: completes the options step by step (clamped limit, tenant
     * filter, cursor predicates), then fetches the page.
     */
    method GetEntities(options: GetEntitiesOptions) returns (items: seq<Entity>)
      requires repository.Valid()
      modifies options
      ensures options.limit == getLimit(old(options.limit))
      ensures options.beforeValue == old(options.beforeValue) && options.afterValue == old(options.afterValue)
      ensures options.beforeQuery == CursorQuery(old(options.beforeValue), old(options.beforeQuery))
      ensures options.afterQuery == CursorQuery(old(options.afterValue), old(options.afterQuery))
      ensures options.query == ListingQuery(isOwnedByOrganization, caller.organizationIds, old(options.query),
                                            options.beforeQuery, options.afterQuery)
      ensures options.limit >= 0
      ensures var fetched := Take(Filter(repository.documents, options.query), options.limit + 1);
              options.hasMore == (|fetched| > options.limit) && items == Take(fetched, options.limit)
      ensures options.hasMore <==> |Filter(repository.documents, options.query)| > options.limit
      ensures items == Take(Filter(repository.documents, options.query), options.limit)
    {
      options.limit := getLimit(options.limit);
      var query := options.query;
      if isOwnedByOrganization {
        query := And(query, Some(OrganizationIn(caller.organizationIds)));
      }
      if options.beforeValue != "" && options.beforeQuery.None? {
        options.beforeQuery := Some(IdBelow(options.beforeValue));
      }
      if options.afterValue != "" && options.afterQuery.None? {
        options.afterQuery := Some(IdBelow(options.afterValue));
      }
      query := And(query, options.beforeQuery);
      query := And(query, options.afterQuery);
      options.query := query;
      items := FetchPage(options);
    }

    /**
     * The fetch at the end of `GetEntities`: limit+1 records of the completed
     * query, `HasMore` when more than limit came back, the first limit returned.
     */
    method FetchPage(options: GetEntitiesOptions) returns (items: seq<Entity>)
      requires repository.Valid() && options.limit >= 0
      modifies options`hasMore
      ensures var fetched := Take(Filter(repository.documents, options.query), options.limit + 1);
              options.hasMore == (|fetched| > options.limit) && items == Take(fetched, options.limit)
      ensures options.hasMore <==> |Filter(repository.documents, options.query)| > options.limit
      ensures items == Take(Filter(repository.documents, options.query), options.limit)
    {
      var limit: nat := options.limit;
      var result := repository.Find(options.query, limit + 1);
      options.hasMore := |result| > limit;
      items := Take(result, limit);
      LookAheadPage(repository.documents, options.query, limit);
    }

    /** `GetById`: not found exactly when `GetModel` is absent. */
    method GetById(id: Id) returns (r: Outcome)
      ensures r == NotFound <==> GetModel(id).None?
      ensures GetModel(id).Some? ==> r == OkItem(GetModel(id).value)
    {
      var model := GetModel(id);
      if model.None? {
        return NotFound;
      }
      return OkItem(model.value);
    }

    /**
     * `Post`. The identifier the store assigns on insert is the parameter
     * `newId`; a document already stored under it is a write conflict.
     */
    method Post(value: NewModel?, newId: Id) returns (r: Outcome)
      requires repository.Valid()
      modifies repository, value
      ensures repository.Valid()
      ensures value == null ==> r == BadRequest(None) && repository.documents == old(repository.documents)
      ensures value != null ==>
                && value.fields == old(value.fields)
                && value.organizationId == WithDefaultOrganization(isOwnedByOrganization, caller, old(value.organizationId))
      ensures value != null ==>
                var mapped := Entity(newId, value.organizationId, value.fields);
                var permission := CanAdd(isOwnedByOrganization, caller, mapped);
                if !permission.Allowed() then
                  r == permission.ResultOr(BadRequest(None)) && repository.documents == old(repository.documents)
                else if newId in old(repository.Documents()) then
                  r == Conflict && repository.Documents() == old(repository.Documents())
                else
                  r == Created(newId, mapped) && repository.Documents() == old(repository.Documents())[newId := mapped]
    {
      if value == null {
        return BadRequest(None);
      }
      if isOwnedByOrganization && value.organizationId == "" && |caller.organizationIds| > 0 {
        value.organizationId := caller.defaultOrganizationId;
      }
      var mapped := Entity(newId, value.organizationId, value.fields);
      var permission := CanAdd(isOwnedByOrganization, caller, mapped);
      if !permission.Allowed() {
        return permission.ResultOr(BadRequest(None));
      }
      var model := AddModel(mapped);
      if model.None? {
        return Conflict;
      }
      return Created(model.value.id, model.value);
    }

    /** `AddModel`: none when the store reports a write conflict. */
    method AddModel(value: Entity) returns (model: Option<Entity>)
      requires repository.Valid()
      modifies repository
      ensures repository.Valid()
      ensures model.None? <==> value.id in old(repository.Documents())
      ensures model.Some? ==> model.value == value
      ensures repository.Documents() == if model.None? then old(repository.Documents())
                                        else old(repository.Documents())[value.id := value]
    {
      var added := repository.Add(value);
      model := if added then Some(value) else None;
    }

    /** `Patch`: an empty delta is answered without touching the store. */
    method Patch(id: Id, changes: Option<Delta>) returns (r: Outcome)
      requires repository.Valid()
      modifies repository
      ensures repository.Valid()
      ensures changes.None? || changes.value.ChangedPropertyNames() == {} ==>
                r == Ok && repository.documents == old(repository.documents)
      ensures changes.Some? && changes.value.ChangedPropertyNames() != {} ==>
                var original := old(GetModel(id));
                if original.None? then
                  r == NotFound && repository.documents == old(repository.documents)
                else
                  var permission := CanUpdate(isOwnedByOrganization, caller, original.value, changes.value);
                  if !permission.Allowed() then
                    r == permission.ResultOr(BadRequest(None)) && repository.documents == old(repository.documents)
                  else
                    r == Ok && repository.Documents() == old(repository.Documents())[id := changes.value.Patch(original.value)]
    {
      if changes.None? || changes.value.ChangedPropertyNames() == {} {
        return Ok;
      }
      var original := GetModel(id);
      if original.None? {
        return NotFound;
      }
      var permission := CanUpdate(isOwnedByOrganization, caller, original.value, changes.value);
      if !permission.Allowed() {
        return permission.ResultOr(BadRequest(None));
      }
      var _ := UpdateModel(original.value, changes.value);
      return Ok;
    }

    /** `UpdateModel`: applies the delta and saves the result. */
    method UpdateModel(original: Entity, changes: Delta) returns (updated: Entity)
      requires repository.Valid()
      modifies repository
      ensures repository.Valid()
      ensures updated == changes.Patch(original)
      ensures repository.Documents() == old(repository.Documents())[original.id := updated]
    {
      updated := changes.Patch(original);
      repository.Update(updated);
    }

    /** `Delete`: an absent or hidden entity is a bad request, a denial is not found by default. */
    method Delete(id: Id) returns (r: Outcome)
      requires repository.Valid()
      modifies repository
      ensures repository.Valid()
      ensures var item := old(GetModel(id));
              if item.None? then
                r == BadRequest(None) && repository.documents == old(repository.documents)
              else
                var permission := CanDelete(isOwnedByOrganization, caller, item.value);
                if !permission.Allowed() then
                  r == permission.ResultOr(NotFound) && repository.documents == old(repository.documents)
                else
                  r == NoContent && repository.Documents() == old(repository.Documents()) - {id}
    {
      var item := GetModel(id);
      if item.None? {
        return BadRequest(None);
      }
      var permission := CanDelete(isOwnedByOrganization, caller, item.value);
      if !permission.Allowed() {
        return permission.ResultOr(NotFound);
      }
      DeleteModel(item.value);
      return NoContent;
    }

    method DeleteModel(value: Entity)
      requires repository.Valid()
      modifies repository
      ensures repository.Valid()
      ensures repository.Documents() == old(repository.Documents()) - {value.id}
    {
      repository.Delete(value);
    }
  }
}
