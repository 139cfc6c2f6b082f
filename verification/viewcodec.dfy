/**
 * The view's part of the stored and network documents: the ten properties
 * the encoders write, the decoder's rules for reading them back, and the
 * round trip between the two.
 */
module ViewCodec {
  import opened Wrappers
  import opened Documents
  import opened OTypes
  import opened Seqs
  import opened ViewConfigs

  /** Why decoding a view's document fails (the exception Java raises, by cause). */
  datatype DecodeError =
    | MalformedQuery      // `query` holds a non-string: ClassCastException
    | MissingIndexes      // `indexes` absent or null: NullPointerException
    | MalformedIndexes    // `indexes` not a list of maps: ClassCastException
    | UnknownIndexType    // an index type tag `OType.valueOf` rejects: IllegalArgumentException

  /** The view state a document describes: the configuration and both index-name containers. */
  datatype ViewMeaning = ViewMeaning(cfg: ConfigMeaning, active: set<string>, inactive: seq<string>)

  const ViewKeys: set<string> := {
    "query", "updatable", "indexes", "updateIntervalSeconds", "updateStrategy",
    "watchClasses", "originRidField", "nodes", "activeIndexNames", "inactiveIndexNames"
  }

  /** A nullable string property. */
  function OptStr(o: Option<string>): Value {
    match o
    case None => Null
    case Some(s) => Str(s)
  }

  function Descriptors(indexes: seq<IndexConfig>): seq<map<string, string>> {
    seq(|indexes|, i requires 0 <= i < |indexes| => Descriptor(indexes[i].props))
  }

  /** The ten properties both encoders set, unconditionally, on top of the base document. */
  function ViewFields(c: Config, active: set<string>, inactive: seq<string>): (doc: Document)
    ensures doc.Keys == ViewKeys
  {
    map[
      "query" := OptStr(c.query),
      "updatable" := Bool(c.updatable),
      "indexes" := IndexList(Descriptors(c.indexes)),
      "updateIntervalSeconds" := Int(c.updateIntervalSeconds),
      "updateStrategy" := OptStr(c.updateStrategy),
      "watchClasses" := StrList(c.watchClasses),
      "originRidField" := OptStr(c.originRidField),
      "nodes" := StrList(c.nodes),
      "activeIndexNames" := StrSet(active),
      "inactiveIndexNames" := StrList(inactive)
    ]
  }

  /** An encoded document: the base class's document with the view's properties set over it. */
  function Encoded(base: Document, c: Config, active: set<string>, inactive: seq<string>): (doc: Document)
    ensures doc.Keys == base.Keys + ViewKeys
    ensures forall k :: k in base && k !in ViewKeys ==> doc[k] == base[k]
  {
    base + ViewFields(c, active, inactive)
  }

  // ---- decoding, field by field ----

  /** The query: an absent or null one is kept as no query, and a value that is not a string fails the cast to string. */
  function DecodeQuery(doc: Document): Result<Option<string>, DecodeError> {
    match Get(doc, "query")
    case Null => Success(None)
    case Str(q) => Success(Some(q))
    case _ => Failure(MalformedQuery)
  }

  /**
   * The stored index list, which the decoder iterates without a null check:
   * an absent or null list fails, a list of maps is read, an empty list of
   * anything is an empty list, and anything else fails the cast to a list of
   * maps.
   */
  function DecodeIndexList(doc: Document): Result<seq<map<string, string>>, DecodeError> {
    match Get(doc, "indexes")
    case Null => Failure(MissingIndexes)
    case IndexList(l) => Success(l)
    case StrList(items) => if items == [] then Success([]) else Failure(MalformedIndexes)
    case _ => Failure(MalformedIndexes)
  }

  /** One stored descriptor: every tag must parse. */
  function ParseIndex(m: map<string, string>): (r: Result<map<string, OType>, DecodeError>)
    ensures r.Success? <==> forall k :: k in m ==> Parse(m[k]).Some?
    ensures r.Success? ==> r.value.Keys == m.Keys && forall k :: k in m ==> Parse(m[k]) == Some(r.value[k])
  {
    if forall k :: k in m ==> Parse(m[k]).Some? then
      Success(map k | k in m :: Parse(m[k]).value)
    else
      Failure(UnknownIndexType)
  }

  function ParseIndexes(l: seq<map<string, string>>): (r: Result<seq<map<string, OType>>, DecodeError>)
    ensures r.Success? ==> |r.value| == |l| && forall i :: 0 <= i < |l| ==> ParseIndex(l[i]) == Success(r.value[i])
    ensures r.Failure? ==> r.error == UnknownIndexType && exists i :: 0 <= i < |l| && ParseIndex(l[i]).Failure?
  {
    if forall i :: 0 <= i < |l| ==> ParseIndex(l[i]).Success? then
      Success(seq(|l|, i requires 0 <= i < |l| => ParseIndex(l[i]).value))
    else
      Failure(UnknownIndexType)
  }

  /** The stored value when it is an integer, else the default. */
  function IntOr(doc: Document, key: string, default: int32): int32 {
    match Get(doc, key)
    case Int(i) => i
    case _ => default
  }

  /** The stored value when it is a string, else the default. */
  function StrOr(doc: Document, key: string, default: Option<string>): Option<string> {
    match Get(doc, key)
    case Str(s) => Some(s)
    case _ => default
  }

  /**
   * The stored value when it is a list, else the default. An empty list of
   * maps is an empty list too; a non-empty one cannot be held as a list of
   * strings and is treated as the wrong type.
   */
  function ListOr(doc: Document, key: string, default: seq<string>): seq<string> {
    match Get(doc, key)
    case StrList(l) => l
    case IndexList(l) => if l == [] then [] else default
    case _ => default
  }

  /** The stored value when it is a set, else the default. */
  function SetOr(doc: Document, key: string, default: set<string>): set<string> {
    match Get(doc, key)
    case StrSet(s) => s
    case _ => default
  }

  /**
   * What decoding `doc` yields for a view named `name` whose containers held
   * `active0` and `inactive0` before: the mandatory query and index list,
   * `updatable` only when it is exactly true, and each optional property only
   * when present with the expected shape; otherwise the configuration default
   * or, for the two containers, the value they already held.
   */
  function Decode(name: string, doc: Document, active0: set<string>, inactive0: seq<string>): (r: Result<ViewMeaning, DecodeError>)
    ensures r.Success? ==> && r.value.cfg.name == name
                           && DecodeQuery(doc).Success? && r.value.cfg.query == DecodeQuery(doc).value
                           && DecodeIndexList(doc).Success? && |r.value.cfg.indexes| == |DecodeIndexList(doc).value|
  {
    match DecodeQuery(doc)
    case Failure(e) => Failure(e)
    case Success(q) =>
      match DecodeIndexList(doc)
      case Failure(e) => Failure(e)
      case Success(l) =>
        match ParseIndexes(l)
        case Failure(e) => Failure(e)
        case Success(indexes) =>
          Success(ViewMeaning(DecodeConfig(name, q, doc, indexes),
            SetOr(doc, "activeIndexNames", active0),
            ListOr(doc, "inactiveIndexNames", inactive0)))
  }

  /** The configuration rebuilt around the decoded query and indexes: the optional settings from `doc` or their defaults. */
  function DecodeConfig(name: string, q: Option<string>, doc: Document, indexes: seq<map<string, OType>>): ConfigMeaning {
    var d := NewConfig<map<string, OType>>(name, q);
    ViewConfig(name, q, Get(doc, "updatable") == Bool(true),
      IntOr(doc, "updateIntervalSeconds", d.updateIntervalSeconds),
      StrOr(doc, "updateStrategy", d.updateStrategy),
      ListOr(doc, "watchClasses", d.watchClasses),
      StrOr(doc, "originRidField", d.originRidField),
      ListOr(doc, "nodes", d.nodes),
      indexes)
  }

  /** Decoding succeeds exactly when its three stages do, with what they produce. */
  lemma DecodeStages(name: string, doc: Document, active0: set<string>, inactive0: seq<string>)
    ensures Decode(name, doc, active0, inactive0).Success? <==>
      DecodeQuery(doc).Success? && DecodeIndexList(doc).Success? && ParseIndexes(DecodeIndexList(doc).value).Success?
    ensures Decode(name, doc, active0, inactive0).Success? ==>
      Decode(name, doc, active0, inactive0).value == ViewMeaning(
        DecodeConfig(name, DecodeQuery(doc).value, doc, ParseIndexes(DecodeIndexList(doc).value).value),
        SetOr(doc, "activeIndexNames", active0), ListOr(doc, "inactiveIndexNames", inactive0))
    ensures DecodeQuery(doc).Failure? ==> Decode(name, doc, active0, inactive0) == Failure(MalformedQuery)
    ensures DecodeQuery(doc).Success? && DecodeIndexList(doc).Failure? ==>
      Decode(name, doc, active0, inactive0) == Failure(DecodeIndexList(doc).error)
    ensures DecodeQuery(doc).Success? && DecodeIndexList(doc).Success? && ParseIndexes(DecodeIndexList(doc).value).Failure? ==>
      Decode(name, doc, active0, inactive0) == Failure(UnknownIndexType)
  {
  }

  // ---- properties ----

  /** The tags the encoder writes for an index parse back to the index's map. */
  lemma ParseDescriptor(props: seq<IndexProp>)
    ensures ParseIndex(Descriptor(props)) == Success(PropMap(props))
  {
    var m := PropMap(props);
    var d := Descriptor(props);
    assert forall k :: k in d ==> Parse(d[k]) == Some(m[k]);
    assert ParseIndex(d).value == m;
  }

  /** Each of the ten properties reads back, from an encoded document, as the value written for it. */
  lemma EncodedLookup(base: Document, c: Config, active: set<string>, inactive: seq<string>)
    ensures var doc := Encoded(base, c, active, inactive);
      && Get(doc, "query") == OptStr(c.query)
      && Get(doc, "updatable") == Bool(c.updatable)
      && Get(doc, "indexes") == IndexList(Descriptors(c.indexes))
      && Get(doc, "updateIntervalSeconds") == Int(c.updateIntervalSeconds)
      && Get(doc, "updateStrategy") == OptStr(c.updateStrategy)
      && Get(doc, "watchClasses") == StrList(c.watchClasses)
      && Get(doc, "originRidField") == OptStr(c.originRidField)
      && Get(doc, "nodes") == StrList(c.nodes)
      && Get(doc, "activeIndexNames") == StrSet(active)
      && Get(doc, "inactiveIndexNames") == StrList(inactive)
  {
  }

  /**
   * Round trip: decoding what the storage encoder wrote gives back the
   * configuration (each index as its property map) and both containers,
   * whatever the base document and the containers held before.
   */
  lemma RoundTrip(base: Document, c: Config, active: set<string>, inactive: seq<string>,
                  active0: set<string>, inactive0: seq<string>)
    ensures Decode(c.name, Encoded(base, c, active, inactive), active0, inactive0)
         == Success(ViewMeaning(Meaning(c), active, inactive))
  {
    var doc := Encoded(base, c, active, inactive);
    EncodedLookup(base, c, active, inactive);
    ParseDescriptors(c);
    assert DecodeConfig(c.name, c.query, doc, Meaning(c).indexes) == Meaning(c);
    DecodeStages(c.name, doc, active0, inactive0);
  }

  /** The stored index list parses back to the configuration's index maps, in list order. */
  lemma ParseDescriptors(c: Config)
    ensures ParseIndexes(Descriptors(c.indexes)) == Success(Meaning(c).indexes)
  {
    var l := Descriptors(c.indexes);
    forall i | 0 <= i < |l| ensures ParseIndex(l[i]) == Success(PropMap(c.indexes[i].props)) {
      ParseDescriptor(c.indexes[i].props);
    }
    assert ParseIndexes(l).value == Meaning(c).indexes;
  }

  /** The encoded properties depend only on what a document can tell: two configurations with the same meaning encode alike. */
  lemma EncodingFollowsMeaning(c1: Config, c2: Config, active: set<string>, inactive: seq<string>)
    requires Meaning(c1) == Meaning(c2)
    ensures ViewFields(c1, active, inactive) == ViewFields(c2, active, inactive)
  {
    assert Descriptors(c1.indexes) == Descriptors(c2.indexes) by {
      assert |c1.indexes| == |Meaning(c1).indexes| == |Meaning(c2).indexes| == |c2.indexes|;
      forall i | 0 <= i < |c1.indexes| ensures Descriptor(c1.indexes[i].props) == Descriptor(c2.indexes[i].props) {
        assert PropMap(c1.indexes[i].props) == Meaning(c1).indexes[i];
      }
    }
  }

  /**
   * Encode, decode, encode gives the same view properties: any configuration
   * the decoder may rebuild from an encoded document (in whatever property
   * order) re-encodes to exactly what was stored.
   */
  lemma ReencodeIdentical(base: Document, c: Config, active: set<string>, inactive: seq<string>,
                          active0: set<string>, inactive0: seq<string>,
                          c': Config, active': set<string>, inactive': seq<string>)
    requires Decode(c.name, Encoded(base, c, active, inactive), active0, inactive0)
          == Success(ViewMeaning(Meaning(c'), active', inactive'))
    ensures ViewFields(c', active', inactive') == ViewFields(c, active, inactive)
  {
    RoundTrip(base, c, active, inactive, active0, inactive0);
    EncodingFollowsMeaning(c, c', active, inactive);
  }

  /** Decoding fails exactly when the query is not a string or null, the index list is unreadable, or some tag is unknown. */
  lemma DecodeFailsWhen(name: string, doc: Document, active0: set<string>, inactive0: seq<string>)
    ensures Decode(name, doc, active0, inactive0).Failure? <==>
      || DecodeQuery(doc).Failure?
      || DecodeIndexList(doc).Failure?
      || exists i, k :: 0 <= i < |DecodeIndexList(doc).value| && k in DecodeIndexList(doc).value[i]
                        && Parse(DecodeIndexList(doc).value[i][k]).None?
  {
  }

  /** The properties the decoder takes only when they hold a value of the expected type. */
  const OptionalKeys: set<string> := {
    "updatable", "updateIntervalSeconds", "updateStrategy", "watchClasses",
    "originRidField", "nodes", "activeIndexNames", "inactiveIndexNames"
  }

  /** The value an optional property must hold to be taken: exactly `true` for `updatable`, else the expected type. */
  predicate Expected(key: string, v: Value) {
    match key
    case "updatable" => v == Bool(true)
    case "updateIntervalSeconds" => v.Int?
    case "updateStrategy" => v.Str?
    case "originRidField" => v.Str?
    case "watchClasses" => v.StrList? || v == IndexList([])
    case "nodes" => v.StrList? || v == IndexList([])
    case "activeIndexNames" => v.StrSet?
    case "inactiveIndexNames" => v.StrList? || v == IndexList([])
    case _ => false
  }

  /** An optional property holding a value of the wrong type decodes exactly as if it were absent. */
  lemma UnexpectedIsAbsent(name: string, doc: Document, key: string, v: Value,
                           active0: set<string>, inactive0: seq<string>)
    requires key in OptionalKeys && !Expected(key, v)
    ensures Decode(name, doc[key := v], active0, inactive0) == Decode(name, doc - {key}, active0, inactive0)
  {
    var d1, d2 := doc[key := v], doc - {key};
    assert Get(d1, "query") == Get(d2, "query") && Get(d1, "indexes") == Get(d2, "indexes");
    assert DecodeQuery(d1) == DecodeQuery(d2) && DecodeIndexList(d1) == DecodeIndexList(d2);
    forall q, indexes ensures DecodeConfig(name, q, d1, indexes) == DecodeConfig(name, q, d2, indexes) {
      SameSettings(name, q, d1, d2, indexes, key);
    }
    assert SetOr(d1, "activeIndexNames", active0) == SetOr(d2, "activeIndexNames", active0);
    assert ListOr(d1, "inactiveIndexNames", inactive0) == ListOr(d2, "inactiveIndexNames", inactive0);
  }

  /** Two documents that differ only at `key`, absent in one and holding nothing acceptable in the other, give the same settings. */
  lemma SameSettings(name: string, q: Option<string>, d1: Document, d2: Document, indexes: seq<map<string, OType>>, key: string)
    requires forall k :: k != key ==> Get(d1, k) == Get(d2, k)
    requires Get(d2, key) == Null && !Expected(key, Get(d1, key))
    ensures DecodeConfig(name, q, d1, indexes) == DecodeConfig(name, q, d2, indexes)
  {
  }

  /**
   * A document with none of the optional properties decodes, when it decodes,
   * to a configuration with every setting at its default and to the
   * containers' previous contents.
   */
  lemma BareDocument(name: string, doc: Document, active0: set<string>, inactive0: seq<string>)
    requires doc.Keys !! OptionalKeys
    ensures var d := Decode(name, doc, active0, inactive0);
      d.Success? ==> && d.value.cfg.(query := None, indexes := []) == NewConfig(name, None)
                     && d.value.active == active0 && d.value.inactive == inactive0
  {
    DecodeStages(name, doc, active0, inactive0);
  }
}
