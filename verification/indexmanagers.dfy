/**
 * The index manager the view consults (OIndexManager), reduced to what the
 * view asks of it: a name-to-index lookup and the indexes declared on a
 * class. Its own logic is not part of this model.
 */
module IndexManagers {
  import opened Wrappers
  import opened Seqs

  /** An index object handed out by the manager; only its identity matters here. */
  datatype IndexHandle = IndexHandle(id: nat)

  datatype IndexManager = IndexManager(
    lookup: map<string, IndexHandle>,
    classIndexes: map<string, seq<IndexHandle>>)

  /** `getIndex(name)`: None when no index has that name. */
  function GetIndex(m: IndexManager, name: string): (r: Option<IndexHandle>)
    ensures r.Some? <==> name in m.lookup
    ensures r.Some? ==> m.lookup[name] == r.value
  {
    if name in m.lookup then Some(m.lookup[name]) else None
  }

  /** What `getClassIndexes(className, out)` adds to `out`. */
  function ClassIndexesOf(m: IndexManager, className: string): seq<IndexHandle> {
    if className in m.classIndexes then m.classIndexes[className] else []
  }

  /** The handles of those `names` that resolve; names that do not resolve are skipped. */
  function Resolve(names: set<string>, lookup: map<string, IndexHandle>): (r: set<IndexHandle>)
    ensures forall n :: n in names && n in lookup ==> lookup[n] in r
    ensures forall h :: h in r ==> exists n :: n in names && n in lookup && lookup[n] == h
    ensures names !! lookup.Keys ==> r == {}
  {
    set n | n in names && n in lookup :: lookup[n]
  }

  /** `names.stream().map(getIndex).filter(nonNull)` over one iteration order of the names. */
  function LookupAll(order: seq<string>, lookup: map<string, IndexHandle>): (r: seq<IndexHandle>)
    ensures |r| <= |order|
    ensures forall h :: h in r ==> h in lookup.Values
  {
    if order == [] then []
    else
      var n := order[|order| - 1];
      LookupAll(order[..|order| - 1], lookup) + (if n in lookup then [lookup[n]] else [])
  }

  /** The stream over any iteration order yields exactly the resolved handles of the set. */
  lemma {:induction false} LookupAllResolves(order: seq<string>, lookup: map<string, IndexHandle>)
    ensures Elements(LookupAll(order, lookup)) == Resolve(Elements(order), lookup)
  {
    if order != [] {
      var n := order[|order| - 1];
      var front := order[..|order| - 1];
      assert order == front + [n];
      assert Elements(order) == Elements(front) + {n};
      LookupAllResolves(front, lookup);
      var tail := if n in lookup then [lookup[n]] else [];
      assert LookupAll(order, lookup) == LookupAll(front, lookup) + tail;
      assert Elements(LookupAll(order, lookup)) == Elements(LookupAll(front, lookup)) + Elements(tail);
      assert Resolve(Elements(order), lookup) == Resolve(Elements(front), lookup) + Elements(tail);
    }
  }

  /** The stream adds one handle per name that resolves, so as many handles as names when every name resolves. */
  lemma {:induction false} LookupAllLength(order: seq<string>, lookup: map<string, IndexHandle>)
    ensures Elements(order) <= lookup.Keys ==> |LookupAll(order, lookup)| == |order|
  {
    if order != [] {
      var front := order[..|order| - 1];
      assert order == front + [order[|order| - 1]];
      assert Elements(front) <= Elements(order);
      LookupAllLength(front, lookup);
    }
  }

  /** A caller-owned collection the view adds index handles to (a list: adds append). */
  class IndexCollection {
    var items: seq<IndexHandle>

    constructor (items: seq<IndexHandle>)
      ensures this.items == items
    {
      this.items := items;
    }

    method Add(h: IndexHandle)
      modifies this
      ensures items == old(items) + [h]
    {
      items := items + [h];
    }

    method AddAll(hs: seq<IndexHandle>)
      modifies this
      ensures items == old(items) + hs
    {
      items := items + hs;
    }
  }
}
