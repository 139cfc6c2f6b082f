/**
 * The view configuration (OViewConfig): the defining query, the refresh and
 * distribution policy, and the ordered list of required indexes, each a list
 * of (property name, type) pairs.
 */
module ViewConfigs {
  import opened Wrappers
  import opened Documents
  import opened OTypes
  import opened Seqs

  datatype IndexProp = IndexProp(name: string, typ: OType)

  /** One required index: its properties in the order they were added. */
  datatype IndexConfig = IndexConfig(props: seq<IndexProp>)

  /**
   * The configuration, generic in how one index is represented: the live
   * object holds `IndexConfig`s, while what a stored document can say about
   * an index is only its name-to-type map.
   */
  datatype ViewConfig<Index> = ViewConfig(
    name: string,
    query: Option<string>,
    updatable: bool,
    updateIntervalSeconds: int32,
    updateStrategy: Option<string>,
    watchClasses: seq<string>,
    originRidField: Option<string>,
    nodes: seq<string>,
    indexes: seq<Index>)

  type Config = ViewConfig<IndexConfig>
  type ConfigMeaning = ViewConfig<map<string, OType>>

  /**
   * `new OViewConfig(name, query)`: every other setting at its default. The
   * defaults are those of OViewConfig, whose source is not part of this model.
   */
  function NewConfig<Index>(name: string, query: Option<string>): (c: ViewConfig<Index>)
    ensures c.name == name && c.query == query
    ensures !c.updatable && c.indexes == []
  {
    ViewConfig(name, query, false, 0, None, [], None, [], [])
  }

  function Names(props: seq<IndexProp>): set<string> {
    set p | p in props :: p.name
  }

  /** No property name occurs twice in the index. */
  predicate DistinctNames(props: seq<IndexProp>) {
    forall i, j :: 0 <= i < j < |props| ==> props[i].name != props[j].name
  }

  /** What an index says as a map: for each property name, the type of its last occurrence. */
  function PropMap(props: seq<IndexProp>): map<string, OType> {
    if props == [] then map[]
    else PropMap(props[..|props| - 1])[props[|props| - 1].name := props[|props| - 1].typ]
  }

  /** The descriptor the encoder builds by putting every (name, tag) pair into a hash map. */
  function Descriptor(props: seq<IndexProp>): map<string, string> {
    var m := PropMap(props);
    map k | k in m :: Name(m[k])
  }

  /** The configuration as far as a stored document can tell it. */
  function Meaning(c: Config): (r: ConfigMeaning)
    ensures |r.indexes| == |c.indexes|
    ensures forall i :: 0 <= i < |c.indexes| ==> r.indexes[i] == PropMap(c.indexes[i].props)
  {
    ViewConfig(c.name, c.query, c.updatable, c.updateIntervalSeconds, c.updateStrategy,
      c.watchClasses, c.originRidField, c.nodes,
      seq(|c.indexes|, i requires 0 <= i < |c.indexes| => PropMap(c.indexes[i].props)))
  }

  /** Adding a pair to the end puts it into the map, overriding an earlier one with that name. */
  lemma PropMapAppend(props: seq<IndexProp>, p: IndexProp)
    ensures PropMap(props + [p]) == PropMap(props)[p.name := p.typ]
  {
    assert (props + [p])[..|props|] == props;
  }

  /** Putting a pair into the encoder's hash map, as the encoder's inner loop does. */
  lemma DescriptorAppend(props: seq<IndexProp>, p: IndexProp)
    ensures Descriptor(props + [p]) == Descriptor(props)[p.name := Name(p.typ)]
  {
    PropMapAppend(props, p);
  }

  /** The map's keys are exactly the property names. */
  lemma {:induction false} PropMapKeys(props: seq<IndexProp>)
    ensures PropMap(props).Keys == Names(props)
  {
    if props != [] {
      var front := props[..|props| - 1];
      assert props == front + [props[|props| - 1]];
      PropMapKeys(front);
    }
  }

  /** With distinct names nothing is lost: every pair is in the map and the map is as large as the list. */
  lemma {:induction false} PropMapDistinct(props: seq<IndexProp>)
    requires DistinctNames(props)
    ensures forall i :: 0 <= i < |props| ==> props[i].name in PropMap(props) && PropMap(props)[props[i].name] == props[i].typ
    ensures |PropMap(props)| == |props|
  {
    if props != [] {
      var last := props[|props| - 1];
      var front := props[..|props| - 1];
      assert props == front + [last];
      PropMapDistinct(front);
      PropMapKeys(front);
      assert last.name !in Names(front);
    }
  }

  /**
   * Two duplicate-free indexes with the same map hold the same pairs, in
   * possibly different order: a decoded index is a permutation of the one
   * encoded.
   */
  lemma SameMapSamePairs(p1: seq<IndexProp>, p2: seq<IndexProp>)
    requires DistinctNames(p1) && DistinctNames(p2)
    requires PropMap(p1) == PropMap(p2)
    ensures |p1| == |p2|
    ensures forall p :: p in p1 <==> p in p2
  {
    PropMapDistinct(p1);
    PropMapDistinct(p2);
    PropMapKeys(p1);
    PropMapKeys(p2);
    forall p | p in p1 ensures p in p2 {
      InMapOccurs(p, p1, p2);
    }
    forall p | p in p2 ensures p in p1 {
      InMapOccurs(p, p2, p1);
    }
  }

  lemma InMapOccurs(p: IndexProp, p1: seq<IndexProp>, p2: seq<IndexProp>)
    requires p in p1 && DistinctNames(p1) && DistinctNames(p2)
    requires PropMap(p1) == PropMap(p2)
    ensures p in p2
  {
    PropMapDistinct(p1);
    PropMapDistinct(p2);
    PropMapKeys(p2);
    var i :| 0 <= i < |p1| && p1[i] == p;
    assert p.name in Names(p2);
    var j :| 0 <= j < |p2| && p2[j].name == p.name;
    assert p2[j] == p;
  }

  /** A repeated property name collapses: two pairs go in, one entry comes out. */
  lemma DuplicateNamesCollapse()
    ensures PropMap([IndexProp("a", STRING), IndexProp("a", INTEGER)]) == map["a" := INTEGER]
  {
    var props := [IndexProp("a", STRING), IndexProp("a", INTEGER)];
    assert props[..1] == [IndexProp("a", STRING)];
    assert props[..1][..0] == [];
  }
}
