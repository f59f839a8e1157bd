/** What a joining or resuming machine says of itself: the protocol version, its capabilities and
    its info fields, and the checks on them. */
module RemoteWorkerProfile {
  import opened JsText

  const PROTOCOL_VERSION: int := 1
  const MAX_CAPABILITIES: nat := 32
  const MAX_CAPABILITY: nat := 128
  const MAX_INFO_KEYS: nat := 32
  const MAX_INFO_KEY: nat := 128
  const MAX_INFO_TEXT: nat := 2048

  /** A version field: absent, an integer, or something else. */
  datatype Version = Unstated | Stated(n: int) | NotAnInteger

  datatype Item = Str(chars: string) | NotText

  datatype Capabilities = NoCapabilities | Listed(items: seq<Item>) | NotAList

  /** An info field: a string, a number or boolean with its printed form, null, or none of
      these. */
  datatype Scalar = Text(chars: string) | Printed(chars: string) | Null | Compound

  type InfoMap = map<string, Scalar>

  datatype Info = NoInfo | Fields(values: InfoMap) | NotAnObject

  datatype Profile = Profile(version: Version, capabilities: Capabilities, info: Info)

  /** Nothing said. */
  const PLAIN: Profile := Profile(Unstated, NoCapabilities, NoInfo)

  /** The one supported version is also the default. */
  predicate Supported(v: Version) { v.Unstated? || v == Stated(PROTOCOL_VERSION) }

  predicate ValidItem(i: Item) { i.Str? && |i.chars| <= MAX_CAPABILITY && Trim(i.chars) != "" }

  predicate ValidCapabilities(c: Capabilities) {
    match c
    case NoCapabilities => true
    case Listed(items) => |items| <= MAX_CAPABILITIES && forall i :: 0 <= i < |items| ==> ValidItem(items[i])
    case NotAList => false
  }

  /** The capabilities as stored, trimmed. */
  function CapabilitiesOf(c: Capabilities): seq<string>
    requires ValidCapabilities(c)
  {
    if c.Listed? then seq(|c.items|, i requires 0 <= i < |c.items| => Trim(c.items[i].chars)) else []
  }

  predicate ValidField(key: string, value: Scalar) {
    0 < |key| <= MAX_INFO_KEY && !value.Compound? && (value.Text? ==> |value.chars| <= MAX_INFO_TEXT)
  }

  predicate ValidInfo(i: Info) {
    match i
    case NoInfo => true
    case Fields(values) => |values| <= MAX_INFO_KEYS && forall k :: k in values ==> ValidField(k, values[k])
    case NotAnObject => false
  }

  function InfoOf(i: Info): InfoMap { if i.Fields? then i.values else map[] }

  /** A field as the text a name is made from. */
  function InfoText(i: Info, key: string): string {
    if key !in InfoOf(i) then ""
    else
      match InfoOf(i)[key]
      case Text(chars) => chars
      case Printed(chars) => chars
      case _ => ""
  }
}
