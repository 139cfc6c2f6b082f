/** Clients of the view that show, from the contracts alone, how the operations behave together. */
module ViewScenarios {
  import opened Wrappers
  import opened Documents
  import opened OTypes
  import opened Seqs
  import opened ViewConfigs
  import opened IndexManagers
  import opened ViewCodec
  import opened Views

  /** A stored view: a query, `updatable` true, one index on `name` of type STRING, a 60-second interval. */
  function ExampleDocument(): Document {
    map[
      "query" := Str("SELECT FROM Foo"),
      "updatable" := Bool(true),
      "indexes" := IndexList([map["name" := "STRING"]]),
      "updateIntervalSeconds" := Int(60)]
  }

  /** What the example decodes to: those values, and the defaults for everything it leaves out. */
  lemma DecodeExampleDocument()
    ensures Decode("Foo", ExampleDocument(), {}, []) == Success(ViewMeaning(
      ViewConfig("Foo", Some("SELECT FROM Foo"), true, 60, None, [], None, [], [map["name" := STRING]]),
      {}, []))
  {
    var descriptor := map["name" := "STRING"];
    assert Parse("STRING") == Some(STRING);
    assert descriptor.Keys == {"name"} && descriptor["name"] == "STRING";
    assert ParseIndex(descriptor).Success?;
    assert ParseIndex(descriptor).value["name"] == STRING;
    assert ParseIndex(descriptor).value.Keys == map["name" := STRING].Keys;
    assert ParseIndex(descriptor).value == map["name" := STRING];
    assert ParseIndexes([descriptor]).value == [map["name" := STRING]];
    DecodeStages("Foo", ExampleDocument(), {}, []);
  }

  /**
   * An empty list replaces the inactive list whatever its stored element type,
   * so a view that listed `old` as inactive ends up with none.
   */
  lemma EmptyListClearsInactive()
    ensures var doc := map["indexes" := IndexList([]), "inactiveIndexNames" := IndexList([])];
      && Decode("V", doc, {"a"}, ["old"]).Success?
      && Decode("V", doc, {"a"}, ["old"]).value.inactive == []
      && Decode("V", doc, {"a"}, ["old"]).value.active == {"a"}
  {
    var doc := map["indexes" := IndexList([]), "inactiveIndexNames" := IndexList([])];
    DecodeStages("V", doc, {"a"}, ["old"]);
  }

  /**
   * Decoding the example into a view: the accessors return the stored values
   * and the absent lists their empty defaults.
   */
  method DecodeExample() returns (v: View, r: Outcome<DecodeError>)
    ensures r.Pass?
    ensures v.Query() == Some("SELECT FROM Foo") && v.IsUpdatable() && v.UpdateIntervalSeconds() == 60
    ensures v.RequiredIndexesInfo() == [IndexConfig([IndexProp("name", STRING)])]
    ensures v.WatchClasses() == [] && v.Nodes() == [] && v.OriginRidField() == None
  {
    v := new View("Foo", NewConfig("Foo", None));
    DecodeExampleDocument();
    r := v.FromStream(ExampleDocument());
    assert Meaning(v.cfg).indexes == [map["name" := STRING]];
    SingleProperty(v.cfg.indexes[0].props, "name", STRING);
  }

  /** A duplicate-free index whose map has one entry holds exactly that one property. */
  lemma SingleProperty(props: seq<IndexProp>, name: string, typ: OType)
    requires DistinctNames(props) && PropMap(props) == map[name := typ]
    ensures props == [IndexProp(name, typ)]
  {
    PropMapDistinct(props);
    PropMapKeys(props);
    assert |props| == 1 && props[0].name in Names(props);
  }

  /**
   * Nothing keeps a name out of both containers: inactivating an index and
   * then activating it again leaves it active and still listed as inactive.
   */
  method ActiveAndInactive(cfg: Config) returns (v: View)
    ensures "idx" in v.active && v.InactiveIndexes() == ["idx"]
  {
    v := new View(cfg.name, cfg);
    v.InactivateIndex("idx");
    v.AddActiveIndexes(["idx"]);
  }

  /** Activating `idx3` and resolving against a manager that knows it yields exactly its index. */
  method ResolveExample(cfg: Config) returns (r: set<IndexHandle>)
    ensures r == {IndexHandle(3)}
  {
    var v := new View(cfg.name, cfg);
    v.AddActiveIndexes(["idx3"]);
    var mgr := IndexManager(map["idx3" := IndexHandle(3), "idx4" := IndexHandle(4)], map[]);
    r := v.ClassIndexes(Some(mgr));
    assert Elements(["idx3"]) == {"idx3"};
  }
}
