/**
 * The scalar type vocabulary an index property may be declared with (OType).
 * The enum's own source is not part of this model: it is taken as a finite set
 * of constants whose tag (`toString`) is the constant's name, which `valueOf`
 * accepts back and nothing else.
 */
module OTypes {
  import opened Wrappers

  datatype OType =
    | BOOLEAN | INTEGER | SHORT | LONG | FLOAT | DOUBLE | DATETIME | STRING
    | BINARY | EMBEDDED | EMBEDDEDLIST | EMBEDDEDSET | EMBEDDEDMAP
    | LINK | LINKLIST | LINKSET | LINKMAP | BYTE | TRANSIENT | DATE
    | CUSTOM | DECIMAL | LINKBAG | ANY

  /** The tag written into a stored index descriptor for `t`; `valueOf` reads it back as `t`. */
  function Name(t: OType): (tag: string)
    ensures Parse(tag) == Some(t)
  {
    match t
    case BOOLEAN => "BOOLEAN"
    case INTEGER => "INTEGER"
    case SHORT => "SHORT"
    case LONG => "LONG"
    case FLOAT => "FLOAT"
    case DOUBLE => "DOUBLE"
    case DATETIME => "DATETIME"
    case STRING => "STRING"
    case BINARY => "BINARY"
    case EMBEDDED => "EMBEDDED"
    case EMBEDDEDLIST => "EMBEDDEDLIST"
    case EMBEDDEDSET => "EMBEDDEDSET"
    case EMBEDDEDMAP => "EMBEDDEDMAP"
    case LINK => "LINK"
    case LINKLIST => "LINKLIST"
    case LINKSET => "LINKSET"
    case LINKMAP => "LINKMAP"
    case BYTE => "BYTE"
    case TRANSIENT => "TRANSIENT"
    case DATE => "DATE"
    case CUSTOM => "CUSTOM"
    case DECIMAL => "DECIMAL"
    case LINKBAG => "LINKBAG"
    case ANY => "ANY"
  }

  /** `valueOf`: the type whose tag is `s`; None stands for the exception an unknown tag raises. */
  function Parse(s: string): Option<OType>
  {
    match s
    case "BOOLEAN" => Some(BOOLEAN)
    case "INTEGER" => Some(INTEGER)
    case "SHORT" => Some(SHORT)
    case "LONG" => Some(LONG)
    case "FLOAT" => Some(FLOAT)
    case "DOUBLE" => Some(DOUBLE)
    case "DATETIME" => Some(DATETIME)
    case "STRING" => Some(STRING)
    case "BINARY" => Some(BINARY)
    case "EMBEDDED" => Some(EMBEDDED)
    case "EMBEDDEDLIST" => Some(EMBEDDEDLIST)
    case "EMBEDDEDSET" => Some(EMBEDDEDSET)
    case "EMBEDDEDMAP" => Some(EMBEDDEDMAP)
    case "LINK" => Some(LINK)
    case "LINKLIST" => Some(LINKLIST)
    case "LINKSET" => Some(LINKSET)
    case "LINKMAP" => Some(LINKMAP)
    case "BYTE" => Some(BYTE)
    case "TRANSIENT" => Some(TRANSIENT)
    case "DATE" => Some(DATE)
    case "CUSTOM" => Some(CUSTOM)
    case "DECIMAL" => Some(DECIMAL)
    case "LINKBAG" => Some(LINKBAG)
    case "ANY" => Some(ANY)
    case _ => None
  }

  /** Whatever `valueOf` accepts is the tag of the type it returns. */
  lemma NameParse(s: string)
    ensures Parse(s).Some? ==> Name(Parse(s).value) == s
  {
  }
}
