/**
 * The view's metadata object (OViewImpl): its configuration and the two
 * containers that record which of its indexes are usable (active, a set) and
 * which are known but not usable (inactive, a list that the three mutators only
 * append to, keeping duplicates, and that `fromStream` may replace). The schema
 * read lock taken around most operations is not modelled: every method is one
 * atomic step.
 */
module Views {
  import opened Wrappers
  import opened Documents
  import opened OTypes
  import opened Seqs
  import opened ViewConfigs
  import opened IndexManagers
  import opened ViewCodec

  class View {
    /** The class name, owned by the base schema-class part. */
    const name: string
    var cfg: Config
    var active: set<string>
    var inactive: seq<string>

    /** A new view adopts its own copy of `cfg`; no index is active or inactive yet. */
    constructor (name: string, cfg: Config)
      ensures this.name == name && this.cfg == cfg
      ensures active == {} && inactive == []
    {
      this.name := name;
      this.cfg := cfg;
      active := {};
      inactive := [];
    }

    // ---- accessors ----

    // Each accessor returns what the encoders write for its property.

    function Query(): (q: Option<string>)
      reads this
      ensures ViewFields(cfg, active, inactive)["query"] == OptStr(q)
    {
      cfg.query
    }

    function UpdateIntervalSeconds(): (seconds: int32)
      reads this
      ensures ViewFields(cfg, active, inactive)["updateIntervalSeconds"] == Int(seconds)
    {
      cfg.updateIntervalSeconds
    }

    function WatchClasses(): (classes: seq<string>)
      reads this
      ensures ViewFields(cfg, active, inactive)["watchClasses"] == StrList(classes)
    {
      cfg.watchClasses
    }

    function OriginRidField(): (field: Option<string>)
      reads this
      ensures ViewFields(cfg, active, inactive)["originRidField"] == OptStr(field)
    {
      cfg.originRidField
    }

    function IsUpdatable(): (updatable: bool)
      reads this
      ensures ViewFields(cfg, active, inactive)["updatable"] == Bool(updatable)
    {
      cfg.updatable
    }

    function Nodes(): (nodes: seq<string>)
      reads this
      ensures ViewFields(cfg, active, inactive)["nodes"] == StrList(nodes)
    {
      cfg.nodes
    }

    /** The required indexes; the encoders write one descriptor per index, in this order. */
    function RequiredIndexesInfo(): (indexes: seq<IndexConfig>)
      reads this
      ensures ViewFields(cfg, active, inactive)["indexes"] == IndexList(Descriptors(indexes))
    {
      cfg.indexes
    }

    /** The inactive list itself, duplicates included. */
    function InactiveIndexes(): (names: seq<string>)
      reads this
      ensures ViewFields(cfg, active, inactive)["inactiveIndexNames"] == StrList(names)
    {
      inactive
    }

    // ---- index activation ----

    /**
     * Moves every active name to the end of the inactive list, in the set's
     * iteration order `order`, without removing duplicates, and empties the
     * active set.
     */
    method InactivateIndexes() returns (ghost order: seq<string>)
      modifies this
      ensures Enumerates(order, old(active))
      ensures inactive == old(inactive) + order
      ensures |inactive| == |old(inactive)| + |old(active)|
      ensures active == {}
      ensures cfg == old(cfg)
    {
      var rest := active;
      order := [];
      while rest != {}
        invariant active == old(active) && cfg == old(cfg)
        invariant rest <= active
        invariant Enumerates(order, active - rest)
        invariant inactive == old(inactive) + order
        decreases rest
      {
        var n :| n in rest;
        assert Elements(order + [n]) == Elements(order) + {n};
        inactive := inactive + [n];
        order := order + [n];
        rest := rest - {n};
      }
      EnumerationLength(order, active);
      active := {};
    }

    /** Drops `n` from the active set (no error when absent) and appends it to the inactive list in any case. */
    method InactivateIndex(n: string)
      modifies this
      ensures active == old(active) - {n}
      ensures n !in active && forall m :: m != n ==> (m in active <==> m in old(active))
      ensures inactive == old(inactive) + [n]
      ensures cfg == old(cfg)
    {
      active := active - {n};
      inactive := inactive + [n];
    }

    /** Adds every name to the active set; the inactive list is left as it is, so a name may end up in both. */
    method AddActiveIndexes(names: seq<string>)
      modifies this
      ensures active == old(active) + Elements(names)
      ensures inactive == old(inactive)
      ensures cfg == old(cfg)
    {
      active := active + Elements(names);
    }

    // ---- index resolution ----

    /**
     * `getClassIndexes()`: the indexes of the active names that resolve; empty
     * when nothing is active or when there is no index manager.
     */
    function ClassIndexes(mgr: Option<IndexManager>): (r: set<IndexHandle>)
      reads this
      ensures active == {} || mgr.None? ==> r == {}
      ensures mgr.Some? ==> r == Resolve(active, mgr.value.lookup)
    {
      if active == {} then {}
      else
        match mgr
        case None => {}
        case Some(m) => Resolve(active, m.lookup)
    }

    /**
     * `getClassIndexes(out)`: with no index manager `out` is left alone;
     * otherwise it receives, in the active set's iteration order `order`, the
     * index of each active name that resolves, then every index the manager
     * declares for this view's class. Nothing is removed from `out`.
     */
    method CollectClassIndexes(mgr: Option<IndexManager>, out: IndexCollection) returns (ghost order: seq<string>)
      modifies out
      ensures mgr.None? ==> out.items == old(out.items)
      ensures mgr.Some? ==> Enumerates(order, active)
      ensures mgr.Some? ==> out.items == old(out.items) + LookupAll(order, mgr.value.lookup) + ClassIndexesOf(mgr.value, name)
      ensures mgr.Some? ==> ClassIndexes(mgr) <= Elements(out.items)
    {
      order := [];
      if mgr.None? {
        return;
      }
      var m := mgr.value;
      var rest := active;
      while rest != {}
        invariant rest <= active
        invariant Enumerates(order, active - rest)
        invariant out.items == old(out.items) + LookupAll(order, m.lookup)
        decreases rest
      {
        var n :| n in rest;
        assert Elements(order + [n]) == Elements(order) + {n};
        var h := GetIndex(m, n);
        assert LookupAll(order + [n], m.lookup) == LookupAll(order, m.lookup) + (if n in m.lookup then [m.lookup[n]] else []) by {
          assert (order + [n])[..|order|] == order;
        }
        if h.Some? {
          out.Add(h.value);
        }
        order := order + [n];
        rest := rest - {n};
      }
      out.AddAll(ClassIndexesOf(m, name));
      LookupAllResolves(order, m.lookup);
      assert Elements(LookupAll(order, m.lookup)) <= Elements(out.items);
    }

    // ---- document codec ----

    /** The descriptors of the required indexes, one hash map per index. */
    method EncodeIndexes() returns (list: seq<map<string, string>>)
      ensures list == Descriptors(cfg.indexes)
    {
      list := [];
      var i := 0;
      while i < |cfg.indexes|
        invariant 0 <= i <= |cfg.indexes|
        invariant list == Descriptors(cfg.indexes[..i])
      {
        var props := cfg.indexes[i].props;
        var descriptor: map<string, string> := map[];
        var j := 0;
        while j < |props|
          invariant 0 <= j <= |props|
          invariant descriptor == Descriptor(props[..j])
        {
          DescriptorAppend(props[..j], props[j]);
          assert props[..j + 1] == props[..j] + [props[j]];
          descriptor := descriptor[props[j].name := Name(props[j].typ)];
          j := j + 1;
        }
        assert props[..j] == props;
        assert cfg.indexes[..i + 1] == cfg.indexes[..i] + [cfg.indexes[i]];
        list := list + [descriptor];
        i := i + 1;
      }
      assert cfg.indexes[..i] == cfg.indexes;
    }

    /**
     * `toStream` and `toNetworkStream`: the view's ten properties written over
     * `base`, which is the storage or the network form of the base class's
     * document; the two differ in nothing else.
     */
    method ToStream(base: Document) returns (doc: Document)
      ensures doc == Encoded(base, cfg, active, inactive)
      ensures doc.Keys == base.Keys + ViewKeys
      ensures forall k :: k in base && k !in ViewKeys ==> doc[k] == base[k]
    {
      doc := base;
      doc := doc["query" := OptStr(cfg.query)];
      doc := doc["updatable" := Bool(cfg.updatable)];
      var indexes := EncodeIndexes();
      doc := doc["indexes" := IndexList(indexes)];
      doc := doc["updateIntervalSeconds" := Int(cfg.updateIntervalSeconds)];
      doc := doc["updateStrategy" := OptStr(cfg.updateStrategy)];
      doc := doc["watchClasses" := StrList(cfg.watchClasses)];
      doc := doc["originRidField" := OptStr(cfg.originRidField)];
      doc := doc["nodes" := StrList(cfg.nodes)];
      doc := doc["activeIndexNames" := StrSet(active)];
      doc := doc["inactiveIndexNames" := StrList(inactive)];
    }

    /**
     * The body of the decoder's outer loop: for each stored descriptor in list
     * order, `ReadIndex`. Stops at the first descriptor with an unknown tag.
     */
    method ReadIndexes(list: seq<map<string, string>>) returns (ok: bool)
      requires cfg.indexes == []
      modifies this
      ensures cfg.(indexes := []) == old(cfg) && active == old(active) && inactive == old(inactive)
      ensures ok <==> ParseIndexes(list).Success?
      ensures ok ==> Meaning(cfg).indexes == ParseIndexes(list).value
      ensures ok ==> forall i :: 0 <= i < |cfg.indexes| ==> DistinctNames(cfg.indexes[i].props)
    {
      var i := 0;
      while i < |list|
        invariant 0 <= i <= |list|
        invariant cfg.(indexes := []) == old(cfg) && active == old(active) && inactive == old(inactive)
        invariant |cfg.indexes| == i
        invariant forall j :: 0 <= j < i ==> ParseIndex(list[j]) == Success(PropMap(cfg.indexes[j].props))
        invariant forall j :: 0 <= j < i ==> DistinctNames(cfg.indexes[j].props)
      {
        ok := ReadIndex(list[i]);
        if !ok {
          return;
        }
        i := i + 1;
      }
      assert forall j :: 0 <= j < |list| ==> ParseIndex(list[j]).Success?;
      assert ParseIndexes(list).value == Meaning(cfg).indexes;
      ok := true;
    }

    /**
     * `cfg.addIndex()` followed by one `addProperty` per descriptor entry. An
     * unknown tag stops it, leaving the partly filled index in place.
     */
    method ReadIndex(descriptor: map<string, string>) returns (ok: bool)
      modifies this
      ensures active == old(active) && inactive == old(inactive)
      ensures |cfg.indexes| == |old(cfg.indexes)| + 1
      ensures cfg == old(cfg).(indexes := old(cfg.indexes) + [cfg.indexes[|old(cfg.indexes)|]])
      ensures ok <==> ParseIndex(descriptor).Success?
      ensures ok ==> ParseIndex(descriptor) == Success(PropMap(cfg.indexes[|old(cfg.indexes)|].props))
      ensures ok ==> DistinctNames(cfg.indexes[|old(cfg.indexes)|].props)
    {
      var i := |cfg.indexes|;
      cfg := cfg.(indexes := cfg.indexes + [IndexConfig([])]);
      var props;
      props, ok := ReadProperties(descriptor);
      cfg := cfg.(indexes := cfg.indexes[i := IndexConfig(props)]);
    }

    /**
     * `fromStream`: rebuilds the configuration from `doc` and, where `doc`
     * holds them with the right shape, replaces the two containers. On success
     * the new state is what `Decode` describes, each index's properties in the
     * descriptor's iteration order (hence duplicate-free); on failure the
     * containers are untouched.
     */
    method FromStream(doc: Document) returns (r: Outcome<DecodeError>)
      modifies this
      ensures var d := Decode(name, doc, old(active), old(inactive));
        && (r.Pass? <==> d.Success?)
        && (r.Pass? ==> d.value == ViewMeaning(Meaning(cfg), active, inactive))
        && (r.Fail? ==> r.error == d.error)
      ensures r.Pass? ==> forall i :: 0 <= i < |cfg.indexes| ==> DistinctNames(cfg.indexes[i].props)
      ensures r.Fail? ==> active == old(active) && inactive == old(inactive)
      ensures r == Fail(MalformedQuery) ==> cfg == old(cfg)
    {
      DecodeStages(name, doc, old(active), old(inactive));
      var q: Option<string>;
      match Get(doc, "query") {
        case Null => q := None;
        case Str(s) => q := Some(s);
        case _ => return Fail(MalformedQuery);
      }
      cfg := NewConfig(name, q);
      cfg := cfg.(updatable := Get(doc, "updatable") == Bool(true));

      var list: seq<map<string, string>>;
      match Get(doc, "indexes") {
        case Null => return Fail(MissingIndexes);
        case IndexList(l) => list := l;
        case StrList(items) =>
          if items != [] {
            return Fail(MalformedIndexes);
          }
          list := [];
        case _ => return Fail(MalformedIndexes);
      }
      var ok := ReadIndexes(list);
      if !ok {
        return Fail(UnknownIndexType);
      }
      assert DecodeQuery(doc) == Success(q);
      assert DecodeIndexList(doc) == Success(list);
      ghost var decoded := Meaning(cfg).indexes;

      ReadSettings(doc);
      assert Meaning(cfg) == DecodeConfig(name, q, doc, decoded);
      r := Pass;
    }

    /**
     * The optional part of `fromStream`: each setting and each of the two
     * containers is replaced only when the document holds a value of the
     * expected type.
     */
    method ReadSettings(doc: Document)
      modifies this
      ensures cfg == old(cfg).(
        updateIntervalSeconds := IntOr(doc, "updateIntervalSeconds", old(cfg).updateIntervalSeconds),
        updateStrategy := StrOr(doc, "updateStrategy", old(cfg).updateStrategy),
        watchClasses := ListOr(doc, "watchClasses", old(cfg).watchClasses),
        originRidField := StrOr(doc, "originRidField", old(cfg).originRidField),
        nodes := ListOr(doc, "nodes", old(cfg).nodes))
      ensures active == SetOr(doc, "activeIndexNames", old(active))
      ensures inactive == ListOr(doc, "inactiveIndexNames", old(inactive))
    {
      cfg := cfg.(updateIntervalSeconds := IntOr(doc, "updateIntervalSeconds", cfg.updateIntervalSeconds));
      cfg := cfg.(updateStrategy := StrOr(doc, "updateStrategy", cfg.updateStrategy));
      cfg := cfg.(watchClasses := ListOr(doc, "watchClasses", cfg.watchClasses));
      cfg := cfg.(originRidField := StrOr(doc, "originRidField", cfg.originRidField));
      cfg := cfg.(nodes := ListOr(doc, "nodes", cfg.nodes));
      active := SetOr(doc, "activeIndexNames", active);
      inactive := ListOr(doc, "inactiveIndexNames", inactive);
    }
  }

  /** `props` holds, duplicate-free, the parsed entries of `descriptor` whose keys are in `done`. */
  ghost predicate ReadSoFar(descriptor: map<string, string>, props: seq<IndexProp>, done: set<string>) {
    && done <= descriptor.Keys
    && Names(props) == done
    && DistinctNames(props)
    && PropMap(props).Keys == done
    && forall k :: k in done ==> Parse(descriptor[k]) == Some(PropMap(props)[k])
  }

  /** Reading one more entry whose tag parses keeps `ReadSoFar`. */
  lemma ReadNext(descriptor: map<string, string>, props: seq<IndexProp>, done: set<string>, k: string, t: OType)
    requires ReadSoFar(descriptor, props, done)
    requires k in descriptor && k !in done && Parse(descriptor[k]) == Some(t)
    ensures ReadSoFar(descriptor, props + [IndexProp(k, t)], done + {k})
  {
    PropMapAppend(props, IndexProp(k, t));
    assert Names(props + [IndexProp(k, t)]) == Names(props) + {k};
  }

  /** Once every entry is read, the properties are what `ParseIndex` describes. */
  lemma ReadAll(descriptor: map<string, string>, props: seq<IndexProp>)
    requires ReadSoFar(descriptor, props, descriptor.Keys)
    ensures ParseIndex(descriptor) == Success(PropMap(props))
  {
    assert ParseIndex(descriptor).value == PropMap(props);
  }

  /**
   * The entries of one stored index descriptor, turned into properties in
   * the hash map's iteration order (the choice of `k` below). On an unknown
   * tag it stops and returns the properties read so far with `ok` false.
   */
  method ReadProperties(descriptor: map<string, string>) returns (props: seq<IndexProp>, ok: bool)
    ensures ok <==> ParseIndex(descriptor).Success?
    ensures ok ==> ParseIndex(descriptor) == Success(PropMap(props)) && DistinctNames(props)
    ensures Names(props) <= descriptor.Keys
  {
    props := [];
    var entries := descriptor.Keys;
    while entries != {}
      invariant entries <= descriptor.Keys
      invariant ReadSoFar(descriptor, props, descriptor.Keys - entries)
      decreases entries
    {
      var k :| k in entries;
      var t := Parse(descriptor[k]);
      if t.None? {
        return props, false;
      }
      ReadNext(descriptor, props, descriptor.Keys - entries, k, t.value);
      assert (descriptor.Keys - entries) + {k} == descriptor.Keys - (entries - {k});
      props := props + [IndexProp(k, t.value)];
      entries := entries - {k};
    }
    ReadAll(descriptor, props);
    ok := true;
  }
}
