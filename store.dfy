/**
 * A database collection as the handlers use it: documents in insertion
 * (natural) order, each with the `_id` and `createdAt` the database assigns
 * on `create`. `findOne(filter)` is the first document that matches.
 */
module Store {
  import opened Common
  import opened Sorting

  /** A stored document: its `_id`, its `createdAt` timestamp and its fields. */
  datatype Doc<T> = Doc(id: nat, createdAt: int, data: T)

  /** The index of the first document whose fields satisfy `p`, if any. */
  function FirstMatch<T>(docs: seq<Doc<T>>, p: T -> bool): (r: Option<nat>)
    ensures r.Some? ==> r.value < |docs| && p(docs[r.value].data)
    ensures r.Some? ==> forall j :: 0 <= j < r.value ==> !p(docs[j].data)
    ensures r.None? <==> forall j :: 0 <= j < |docs| ==> !p(docs[j].data)
  {
    if docs == [] then None
    else if p(docs[0].data) then Some(0)
    else match FirstMatch(docs[1..], p)
      case None => None
      case Some(k) => Some(k + 1)
  }

  /** Appending documents does not move the first match of a filter that already matched. */
  lemma FirstMatchExtend<T>(a: seq<Doc<T>>, b: seq<Doc<T>>, p: T -> bool)
    requires a <= b && FirstMatch(a, p).Some?
    ensures FirstMatch(b, p) == FirstMatch(a, p)
  {
    var m := FirstMatch(a, p).value;
    assert b[m] == a[m];
    assert forall j :: 0 <= j < m ==> b[j] == a[j];
  }

  /** A document appended to documents none of which match is the first match. */
  lemma FirstMatchAppend<T>(a: seq<Doc<T>>, d: Doc<T>, p: T -> bool)
    requires FirstMatch(a, p).None? && p(d.data)
    ensures FirstMatch(a + [d], p) == Some(|a|)
  {
    var b := a + [d];
    assert b[|a|] == d;
    assert forall j :: 0 <= j < |a| ==> b[j] == a[j];
  }

  predicate Exists<T>(docs: seq<Doc<T>>, p: T -> bool)
  {
    exists j :: 0 <= j < |docs| && p(docs[j].data)
  }

  /** The ids of the documents, one per document. */
  function Ids<T>(docs: seq<Doc<T>>): set<nat>
  {
    set j | 0 <= j < |docs| :: docs[j].id
  }

  /** The key of `.sort({ createdAt: -1 })`. */
  function ByNewest<T>(d: Doc<T>): int
  {
    -d.createdAt
  }

  /** `find({}).sort({ createdAt: -1 })`: every document once, newest first. */
  function NewestFirst<T>(docs: seq<Doc<T>>): (r: seq<Doc<T>>)
    ensures multiset(r) == multiset(docs)
    ensures forall i, j :: 0 <= i < j < |r| ==> r[i].createdAt >= r[j].createdAt
  {
    SortBySorted(docs, ByNewest);
    SortBy(docs, ByNewest)
  }

  class Collection<T> {
    var docs: seq<Doc<T>>
    var nextId: nat

    /** Ids are assigned in increasing order, so they are distinct and all below `nextId`. */
    ghost predicate Valid()
      reads this
    {
      && (forall i, j :: 0 <= i < j < |docs| ==> docs[i].id < docs[j].id)
      && (forall i :: 0 <= i < |docs| ==> docs[i].id < nextId)
    }

    constructor ()
      ensures Valid() && docs == []
    {
      docs := [];
      nextId := 0;
    }

    /** `findOne(filter)`: a linear scan in natural order. */
    method Find(p: T -> bool) returns (r: Option<nat>)
      ensures r.Some? ==> r.value < |docs| && p(docs[r.value].data)
      ensures r.Some? ==> forall j :: 0 <= j < r.value ==> !p(docs[j].data)
      ensures r.None? ==> forall j :: 0 <= j < |docs| ==> !p(docs[j].data)
      ensures r == FirstMatch(docs, p)
    {
      var i := 0;
      while i < |docs|
        invariant 0 <= i <= |docs|
        invariant forall j :: 0 <= j < i ==> !p(docs[j].data)
      {
        if p(docs[i].data) {
          return Some(i);
        }
        i := i + 1;
      }
      return None;
    }

    /** `findById(id)`: the position of the document with that id, if any. */
    method FindId(id: nat) returns (r: Option<nat>)
      ensures r.Some? ==> r.value < |docs| && docs[r.value].id == id
      ensures r.None? ==> id !in Ids(docs)
    {
      var i := 0;
      while i < |docs|
        invariant 0 <= i <= |docs|
        invariant forall j :: 0 <= j < i ==> docs[j].id != id
      {
        if docs[i].id == id {
          return Some(i);
        }
        i := i + 1;
      }
      return None;
    }

    /** `create(fields)`: the new document gets a fresh id and the current time. */
    method Create(x: T, now: int) returns (d: Doc<T>)
      requires Valid()
      modifies this
      ensures Valid()
      ensures d == Doc(old(nextId), now, x) && d.id !in Ids(old(docs))
      ensures docs == old(docs) + [d] && nextId == old(nextId) + 1
    {
      d := Doc(nextId, now, x);
      docs := docs + [d];
      nextId := nextId + 1;
    }

    /**
     * `findOne(filter)` and, when nothing matches, `create(fields)`: the
     * document found, or one new document holding `x`.
     */
    method FindOrCreate(p: T -> bool, x: T, now: int) returns (d: Doc<T>)
      requires Valid() && p(x)
      modifies this
      ensures Valid() && p(d.data) && d in docs && old(docs) <= docs
      ensures Exists(old(docs), p) ==> docs == old(docs) && d == docs[FirstMatch(docs, p).value]
      ensures !Exists(old(docs), p) ==> docs == old(docs) + [d] && d.data == x && d.id !in Ids(old(docs))
    {
      var found := Find(p);
      if found.Some? {
        d := docs[found.value];
      } else {
        d := Create(x, now);
      }
    }

    /** `doc.save()` after changing fields: id and createdAt stay, the fields are replaced. */
    method Save(i: nat, x: T) returns (d: Doc<T>)
      requires Valid() && i < |docs|
      modifies this
      ensures Valid()
      ensures d == old(docs[i]).(data := x)
      ensures docs == old(docs)[i := d] && nextId == old(nextId)
    {
      d := docs[i].(data := x);
      docs := docs[i := d];
    }

    /** `findOne()` with no filter: the id of the first document, if there is one. */
    function FirstId(): (r: Option<nat>)
      reads this
      ensures r.Some? <==> |docs| > 0
      ensures r.Some? ==> r.value == docs[0].id
    {
      if |docs| == 0 then None else Some(docs[0].id)
    }
  }
}
