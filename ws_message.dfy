/**
 * The wire model of a chat envelope: the four-case `MessageKind` enum with
 * its string raw values, the kind-only `MessageAbstract` probe and the
 * `Message` record. JSON encoding is not part of this model; a decoded JSON
 * field is represented by its string value (or `None` when it is missing or
 * is not a string).
 */
module WSMessage {
  import opened Wrappers

  /** Kinds of envelope on the wire. */
  datatype MessageKind = Connection | Close | Message | Error

  /** The four raw strings, in declaration order. */
  const RawValues: seq<string> := ["connection", "close", "message", "error"]

  /** The raw value of a kind: the case name, as Swift synthesises it. */
  function RawValue(k: MessageKind): string
  {
    match k
    case Connection => "connection"
    case Close => "close"
    case Message => "message"
    case Error => "error"
  }

  /**
   * Parsing a raw string into a kind (Swift's `init?(rawValue:)`): succeeds
   * exactly on the four raw values, and the kind it yields prints back to the
   * parsed string.
   */
  function FromRaw(s: string): (r: Option<MessageKind>)
    ensures r.Some? <==> s in RawValues
    ensures r.Some? ==> RawValue(r.value) == s
  {
    if s == "connection" then Some(Connection)
    else if s == "close" then Some(Close)
    else if s == "message" then Some(MessageKind.Message)
    else if s == "error" then Some(Error)
    else None
  }

  /** Distinct kinds have distinct raw values. */
  lemma RawValuesDistinct(k1: MessageKind, k2: MessageKind)
    ensures RawValue(k1) == RawValue(k2) ==> k1 == k2
  {
  }

  /** Every kind prints to one of the four raw values and parses back to itself. */
  lemma ParseRawValue(k: MessageKind)
    ensures RawValue(k) in RawValues
    ensures FromRaw(RawValue(k)) == Some(k)
  {
  }

  /** Parsing is injective: two strings that parse to the same kind are equal. */
  lemma FromRawInjective(s1: string, s2: string)
    requires FromRaw(s1).Some? && FromRaw(s1) == FromRaw(s2)
    ensures s1 == s2
  {
  }

  /** The kind-only probe decoded before the full envelope. */
  datatype MessageAbstract = MessageAbstract(kind: MessageKind)

  /**
   * Decoding `MessageAbstract` from the envelope's `kind` field: it fails
   * when the field is missing or holds a string outside the four raw values,
   * and otherwise yields the kind whose raw value the field holds.
   */
  function DecodeAbstract(kindField: Option<string>): (r: Option<MessageAbstract>)
    ensures r.Some? <==> kindField.Some? && kindField.value in RawValues
    ensures r.Some? ==> RawValue(r.value.kind) == kindField.value
  {
    match kindField
    case None => None
    case Some(s) =>
      match FromRaw(s)
      case None => None
      case Some(k) => Some(MessageAbstract(k))
  }

  /** A point in time, kept opaque. */
  type Date = int

  /** The full envelope: an immutable record; `id` is an opaque string. */
  datatype Message = Message(
    id: string,
    kind: MessageKind,
    userName: string,
    dispatchDate: Date,
    message: string)

}
