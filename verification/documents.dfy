/**
 * The stored document (ODocument) as a map from property name to a tagged
 * value. The tags stand for the runtime types the decoder inspects with
 * `instanceof`; `Other` is any value of a type the decoder never accepts.
 */
module Documents {

  /** A Java `int`. */
  newtype int32 = x: int | -0x8000_0000 <= x < 0x8000_0000

  datatype Value =
    | Null
    | Str(s: string)
    | Bool(b: bool)
    | Int(i: int32)
    | StrList(items: seq<string>)
    | StrSet(elems: set<string>)
    | IndexList(descriptors: seq<map<string, string>>)
    | Other

  type Document = map<string, Value>

  /** `getProperty`: an absent property reads as null. */
  function Get(doc: Document, key: string): Value {
    if key in doc then doc[key] else Null
  }
}
