/**
 * The document collection behind the generic controller: entities with an
 * identifier and an organization id, kept in ascending identifier order (the
 * order listing returns them in), queried by predicates over the in-memory
 * sequence that stand for the store's query builders.
 */
module DocumentStore {
  import opened Wrappers

  type Id = string

  /**
   * Lexicographic order on identifiers. For the store's 24-digit lower-case
   * hexadecimal ObjectIds this is the order `Query.LT("_id", ...)` compares by.
   */
  predicate IdLess(a: Id, b: Id)
  {
    |b| > 0 && (|a| == 0 || if a[0] == b[0] then IdLess(a[1..], b[1..]) else a[0] < b[0])
  }

  lemma {:induction false} IdLessIrreflexive(a: Id)
    ensures !IdLess(a, a)
  {
    if |a| > 0 {
      IdLessIrreflexive(a[1..]);
    }
  }

  lemma {:induction false} IdLessTransitive(a: Id, b: Id, c: Id)
    requires IdLess(a, b) && IdLess(b, c)
    ensures IdLess(a, c)
  {
    if |a| > 0 && a[0] == b[0] && b[0] == c[0] {
      IdLessTransitive(a[1..], b[1..], c[1..]);
    }
  }

  lemma {:induction false} IdLessTotal(a: Id, b: Id)
    requires a != b
    ensures IdLess(a, b) || IdLess(b, a)
  {
    if |a| > 0 && |b| > 0 && a[0] == b[0] {
      assert a == [a[0]] + a[1..] && b == [b[0]] + b[1..];
      IdLessTotal(a[1..], b[1..]);
    }
  }

  lemma IdLessAsymmetric(a: Id, b: Id)
    requires IdLess(a, b)
    ensures !IdLess(b, a) && a != b
  {
    IdLessIrreflexive(a);
    if IdLess(b, a) {
      IdLessTransitive(a, b, a);
    }
  }

  /**
   * The storage shape of a document. `organizationId` is meaningful only for
   * entity types that are owned by an organization; `fields` holds the rest of
   * the record, field name to value.
   */
  datatype Entity = Entity(id: Id, organizationId: string, fields: map<string, string>)

  /** The query parts the controller builds (`Query.EQ`, `Query.In`, `Query.LT`, `And`). */
  datatype Query =
    | OrganizationIs(organizationId: string)
    | OrganizationIn(organizationIds: seq<string>)
    | IdBelow(bound: Id)
    | Both(left: Query, right: Query)

  predicate Matches(q: Query, e: Entity)
  {
    match q
    case OrganizationIs(o) => e.organizationId == o
    case OrganizationIn(os) => e.organizationId in os
    case IdBelow(b) => IdLess(e.id, b)
    case Both(l, r) => Matches(l, e) && Matches(r, e)
  }

  /** A missing query (null, sent to the store as `Query.Null`) matches every document. */
  predicate MatchesAll(q: Option<Query>, e: Entity)
  {
    q.None? || Matches(q.value, e)
  }

  /** The null-tolerant `And` the controller combines query parts with. */
  /**
   * The null-tolerant `And` extension: the result is absent only when both
   * sides are; what it matches is stated by `AndMatches`.
   */
  function And(q: Option<Query>, other: Option<Query>): (r: Option<Query>)
    ensures r.None? <==> q.None? && other.None?
  {
    if q.None? then other
    else if other.None? then q
    else Some(Both(q.value, other.value))
  }

  lemma AndMatches(q: Option<Query>, other: Option<Query>, e: Entity)
    ensures MatchesAll(And(q, other), e) <==> MatchesAll(q, e) && MatchesAll(other, e)
  {
  }

  /** Identifiers strictly ascend along the sequence, so they are also unique. */
  ghost predicate Sorted(docs: seq<Entity>)
  {
    forall i, j :: 0 <= i < j < |docs| ==> IdLess(docs[i].id, docs[j].id)
  }

  function Ids(docs: seq<Entity>): set<Id>
  {
    set e | e in docs :: e.id
  }

  lemma IdsCons(docs: seq<Entity>)
    requires docs != []
    ensures Ids(docs) == {docs[0].id} + Ids(docs[1..])
  {
    assert docs == [docs[0]] + docs[1..];
    forall k | k in Ids(docs) ensures k in {docs[0].id} + Ids(docs[1..]) {
      var e :| e in docs && e.id == k;
      if e != docs[0] {
        assert e in docs[1..];
      }
    }
  }

  lemma SortedTail(docs: seq<Entity>)
    requires Sorted(docs) && docs != []
    ensures Sorted(docs[1..])
    ensures forall k :: k in Ids(docs[1..]) ==> IdLess(docs[0].id, k)
  {
    forall k | k in Ids(docs[1..]) ensures IdLess(docs[0].id, k) {
      var e :| e in docs[1..] && e.id == k;
      var j :| 0 <= j < |docs[1..]| && docs[1..][j] == e;
      assert docs[j + 1] == e;
    }
  }

  /** The store as a dictionary from identifier to entity (an earlier entry shadows a later one). */
  function ToMap(docs: seq<Entity>): (m: map<Id, Entity>)
    ensures m.Keys == Ids(docs)
    ensures forall k :: k in m ==> m[k].id == k
  {
    if docs == [] then map[]
    else
      IdsCons(docs);
      ToMap(docs[1..])[docs[0].id := docs[0]]
  }

  /** The documents matching q, in store order: the driver's `Find(query)`. */
  function Filter(docs: seq<Entity>, q: Option<Query>): (r: seq<Entity>)
    ensures forall e :: e in r <==> e in docs && MatchesAll(q, e)
    ensures |r| <= |docs|
  {
    if docs == [] then []
    else
      assert docs == [docs[0]] + docs[1..];
      (if MatchesAll(q, docs[0]) then [docs[0]] else []) + Filter(docs[1..], q)
  }

  lemma {:induction false} FilterKeepsOrder(docs: seq<Entity>, q: Option<Query>)
    requires Sorted(docs)
    ensures Sorted(Filter(docs, q))
  {
    if docs != [] {
      SortedTail(docs);
      FilterKeepsOrder(docs[1..], q);
      var rest := Filter(docs[1..], q);
      if MatchesAll(q, docs[0]) {
        var r := [docs[0]] + rest;
        forall i, j | 0 <= i < j < |r| ensures IdLess(r[i].id, r[j].id) {
          if i == 0 {
            assert r[j] in rest && r[j] in docs[1..];
            assert r[j].id in Ids(docs[1..]);
          }
        }
      }
    }
  }

  /** The first n elements, or all of s when it is shorter (the driver's `SetLimit`, LINQ `Take`). */
  function Take<T>(s: seq<T>, n: nat): (r: seq<T>)
    ensures |r| == if n <= |s| then n else |s|
    ensures r <= s
  {
    if n <= |s| then s[..n] else s
  }

  lemma UpdatesCommute<K, V>(m: map<K, V>, a: K, va: V, b: K, vb: V)
    requires a != b
    ensures m[a := va][b := vb] == m[b := vb][a := va]
  {
  }

  lemma UpdateThenRemove<K, V>(m: map<K, V>, a: K, va: V)
    requires a !in m
    ensures m[a := va] - {a} == m
  {
  }

  lemma RemoveThenUpdate<K, V>(m: map<K, V>, a: K, b: K, vb: V)
    requires a != b
    ensures (m - {a})[b := vb] == m[b := vb] - {a}
  {
  }

  /** Inserts e at its place in identifier order. */
  function Insert(docs: seq<Entity>, e: Entity): seq<Entity>
  {
    if docs == [] || IdLess(e.id, docs[0].id) then [e] + docs
    else [docs[0]] + Insert(docs[1..], e)
  }

  lemma {:induction false} InsertElements(docs: seq<Entity>, e: Entity)
    ensures forall x :: x in Insert(docs, e) <==> x == e || x in docs
  {
    if docs != [] && !IdLess(e.id, docs[0].id) {
      InsertElements(docs[1..], e);
      assert docs == [docs[0]] + docs[1..];
    }
  }

  lemma {:induction false} InsertSorted(docs: seq<Entity>, e: Entity)
    requires Sorted(docs) && e.id !in Ids(docs)
    ensures Sorted(Insert(docs, e))
  {
    if docs == [] {
    } else if IdLess(e.id, docs[0].id) {
      var r := [e] + docs;
      forall i, j | 0 <= i < j < |r| ensures IdLess(r[i].id, r[j].id) {
        if i == 0 && j > 1 {
          IdLessTransitive(e.id, docs[0].id, docs[j - 1].id);
        }
      }
    } else {
      var rest := docs[1..];
      IdsCons(docs);
      IdLessTotal(e.id, docs[0].id);
      SortedTail(docs);
      InsertSorted(rest, e);
      InsertElements(rest, e);
      var ins := Insert(rest, e);
      var r := [docs[0]] + ins;
      forall i, j | 0 <= i < j < |r| ensures IdLess(r[i].id, r[j].id) {
        if i == 0 {
          assert r[j] in ins;
          if r[j] != e {
            assert r[j].id in Ids(rest);
          }
        }
      }
    }
  }

  lemma {:induction false} InsertToMap(docs: seq<Entity>, e: Entity)
    requires e.id !in Ids(docs)
    ensures ToMap(Insert(docs, e)) == ToMap(docs)[e.id := e]
  {
    if docs != [] && !IdLess(e.id, docs[0].id) {
      var rest := docs[1..];
      IdsCons(docs);
      InsertToMap(rest, e);
      var ins := Insert(rest, e);
      assert ([docs[0]] + ins)[1..] == ins;
      calc {
        ToMap(Insert(docs, e));
        ToMap(ins)[docs[0].id := docs[0]];
        ToMap(rest)[e.id := e][docs[0].id := docs[0]];
        { UpdatesCommute(ToMap(rest), e.id, e, docs[0].id, docs[0]); }
        ToMap(rest)[docs[0].id := docs[0]][e.id := e];
      }
    } else {
      assert ([e] + docs)[1..] == docs;
    }
  }

  lemma InsertKeepsOrder(docs: seq<Entity>, e: Entity)
    requires Sorted(docs) && e.id !in Ids(docs)
    ensures Sorted(Insert(docs, e))
    ensures ToMap(Insert(docs, e)) == ToMap(docs)[e.id := e]
  {
    InsertSorted(docs, e);
    InsertToMap(docs, e);
  }

  /** Removes the entity with identifier id, if there is one. */
  function Remove(docs: seq<Entity>, id: Id): seq<Entity>
  {
    if docs == [] then []
    else if docs[0].id == id then docs[1..]
    else [docs[0]] + Remove(docs[1..], id)
  }

  lemma {:induction false} RemoveElements(docs: seq<Entity>, id: Id)
    ensures forall x :: x in Remove(docs, id) ==> x in docs
  {
    if docs != [] && docs[0].id != id {
      RemoveElements(docs[1..], id);
      assert docs == [docs[0]] + docs[1..];
    }
  }

  lemma {:induction false} RemoveSorted(docs: seq<Entity>, id: Id)
    requires Sorted(docs)
    ensures Sorted(Remove(docs, id))
  {
    if docs != [] && docs[0].id != id {
      var rest := docs[1..];
      SortedTail(docs);
      RemoveSorted(rest, id);
      RemoveElements(rest, id);
      var rem := Remove(rest, id);
      var r := [docs[0]] + rem;
      forall i, j | 0 <= i < j < |r| ensures IdLess(r[i].id, r[j].id) {
        if i == 0 {
          assert r[j] in rem && r[j] in rest;
          assert r[j].id in Ids(rest);
        }
      }
    }
  }

  lemma {:induction false} RemoveToMap(docs: seq<Entity>, id: Id)
    requires Sorted(docs)
    ensures ToMap(Remove(docs, id)) == ToMap(docs) - {id}
  {
    if docs != [] {
      var rest := docs[1..];
      SortedTail(docs);
      if docs[0].id == id {
        if id in Ids(rest) {
          IdLessIrreflexive(id);
        }
        assert id !in ToMap(rest);
        UpdateThenRemove(ToMap(rest), id, docs[0]);
      } else {
        RemoveToMap(rest, id);
        var rem := Remove(rest, id);
        assert ([docs[0]] + rem)[1..] == rem;
        calc {
          ToMap(Remove(docs, id));
          ToMap(rem)[docs[0].id := docs[0]];
          (ToMap(rest) - {id})[docs[0].id := docs[0]];
          { RemoveThenUpdate(ToMap(rest), id, docs[0].id, docs[0]); }
          ToMap(rest)[docs[0].id := docs[0]] - {id};
        }
      }
    }
  }

  lemma RemoveKeepsOrder(docs: seq<Entity>, id: Id)
    requires Sorted(docs)
    ensures Sorted(Remove(docs, id))
    ensures ToMap(Remove(docs, id)) == ToMap(docs) - {id}
  {
    RemoveSorted(docs, id);
    RemoveToMap(docs, id);
  }

  /** Replaces the entity whose identifier is e's by e. */
  function Replace(docs: seq<Entity>, e: Entity): seq<Entity>
  {
    if docs == [] then []
    else if docs[0].id == e.id then [e] + docs[1..]
    else [docs[0]] + Replace(docs[1..], e)
  }

  lemma {:induction false} ReplaceSameIds(docs: seq<Entity>, e: Entity)
    ensures |Replace(docs, e)| == |docs|
    ensures forall i :: 0 <= i < |docs| ==> Replace(docs, e)[i].id == docs[i].id
  {
    if docs != [] && docs[0].id != e.id {
      ReplaceSameIds(docs[1..], e);
    }
  }

  lemma {:induction false} ReplaceToMap(docs: seq<Entity>, e: Entity)
    requires e.id in Ids(docs)
    ensures ToMap(Replace(docs, e)) == ToMap(docs)[e.id := e]
  {
    var rest := docs[1..];
    IdsCons(docs);
    if docs[0].id == e.id {
      assert ([e] + rest)[1..] == rest;
      calc {
        ToMap(Replace(docs, e));
        ToMap(rest)[e.id := e];
        ToMap(rest)[docs[0].id := docs[0]][e.id := e];
      }
    } else {
      ReplaceToMap(rest, e);
      var rep := Replace(rest, e);
      assert ([docs[0]] + rep)[1..] == rep;
      calc {
        ToMap(Replace(docs, e));
        ToMap(rep)[docs[0].id := docs[0]];
        ToMap(rest)[e.id := e][docs[0].id := docs[0]];
        { UpdatesCommute(ToMap(rest), e.id, e, docs[0].id, docs[0]); }
        ToMap(rest)[docs[0].id := docs[0]][e.id := e];
      }
    }
  }

  lemma ReplaceKeepsOrder(docs: seq<Entity>, e: Entity)
    requires Sorted(docs) && e.id in Ids(docs)
    ensures Sorted(Replace(docs, e))
    ensures ToMap(Replace(docs, e)) == ToMap(docs)[e.id := e]
  {
    ReplaceSameIds(docs, e);
    ReplaceToMap(docs, e);
  }

  /**
   * The repository the controller is given: `GetByIdCached`, `Find` with a
   * limit, `Add`, `Update` and `Delete` over one collection. The read-through
   * cache of `GetByIdCached` is the repository's own concern and is not
   * modelled; a lookup always answers from the documents.
   */
  class Repository {
    var documents: seq<Entity>

    ghost predicate Valid()
      reads this
    {
      Sorted(documents)
    }

    /** The stored documents keyed by identifier. */
    function Documents(): map<Id, Entity>
      reads this
    {
      ToMap(documents)
    }

    constructor ()
      ensures Valid() && documents == []
    {
      documents := [];
    }

    function GetByIdCached(id: Id): (r: Option<Entity>)
      reads this
      ensures r.Some? <==> id in Documents()
      ensures r.Some? ==> r.value == Documents()[id] && r.value.id == id
    {
      var m := ToMap(documents);
      if id in m then Some(m[id]) else None
    }

    /** `Collection.Find(query).SetLimit(limit)`, read out in identifier order. */
    method Find(q: Option<Query>, limit: nat) returns (r: seq<Entity>)
      ensures r == Take(Filter(documents, q), limit)
    {
      r := Take(Filter(documents, q), limit);
    }

    /** Adds e; a document with the same identifier already stored is a write conflict. */
    method Add(e: Entity) returns (added: bool)
      requires Valid()
      modifies this
      ensures Valid()
      ensures added <==> e.id !in old(Documents())
      ensures Documents() == if added then old(Documents())[e.id := e] else old(Documents())
    {
      if e.id in ToMap(documents) {
        added := false;
      } else {
        InsertKeepsOrder(documents, e);
        documents := Insert(documents, e);
        added := true;
      }
    }

    /** Saves e over the stored document with its identifier. */
    method Update(e: Entity)
      requires Valid()
      modifies this
      ensures Valid()
      ensures Documents() == old(Documents())[e.id := e]
    {
      if e.id in ToMap(documents) {
        ReplaceKeepsOrder(documents, e);
        documents := Replace(documents, e);
      } else {
        InsertKeepsOrder(documents, e);
        documents := Insert(documents, e);
      }
    }

    method Delete(e: Entity)
      requires Valid()
      modifies this
      ensures Valid()
      ensures Documents() == old(Documents()) - {e.id}
    {
      RemoveKeepsOrder(documents, e.id);
      documents := Remove(documents, e.id);
    }
  }
}
