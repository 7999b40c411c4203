/** What a call-log row and a contact row show: the call-type label, the name
    that is displayed and the one-letter avatar initial. */
module RowDisplay {
  import opened Optional
  import opened Entries

  // The platform's CallLog.Calls type constants.
  const IncomingType: int := 1
  const OutgoingType: int := 2
  const MissedType: int := 3

  /** The raw type column as an enumeration; every other value is Unknown. */
  datatype CallKind = Incoming | Outgoing | Missed | Unknown

  function KindOf(callType: int): (k: CallKind)
    ensures k == Incoming <==> callType == IncomingType
    ensures k == Outgoing <==> callType == OutgoingType
    ensures k == Missed <==> callType == MissedType
    ensures k == Unknown <==> callType !in {IncomingType, OutgoingType, MissedType}
  {
    if callType == IncomingType then Incoming
    else if callType == OutgoingType then Outgoing
    else if callType == MissedType then Missed
    else Unknown
  }

  function KindLabel(k: CallKind): string
  {
    match k
    case Incoming => "Incoming"
    case Outgoing => "Outgoing"
    case Missed => "Missed"
    case Unknown => "Unknown"
  }

  /** The label text of a call-log row, the `when` over the raw type column. */
  function TypeLabel(callType: int): (text: string)
    ensures text == "Incoming" <==> callType == IncomingType
    ensures text == "Outgoing" <==> callType == OutgoingType
    ensures text == "Missed" <==> callType == MissedType
    ensures text == "Unknown" <==> callType !in {IncomingType, OutgoingType, MissedType}
  {
    if callType == IncomingType then "Incoming"
    else if callType == OutgoingType then "Outgoing"
    else if callType == MissedType then "Missed"
    else "Unknown"
  }

  /** The label is a function of the enumerated kind alone, and distinct kinds get distinct labels. */
  lemma TypeLabelFactorsThroughKind(t: int, u: int)
    ensures TypeLabel(t) == KindLabel(KindOf(t))
    ensures TypeLabel(t) == TypeLabel(u) <==> KindOf(t) == KindOf(u)
  {
  }

  /** Kotlin's Char.isWhitespace: Java's Character.isWhitespace or isSpaceChar, as code points. */
  predicate IsWhitespace(c: char)
  {
    var n := c as int;
    (0x09 <= n <= 0x0D) || (0x1C <= n <= 0x20) || n == 0xA0 || n == 0x1680
    || (0x2000 <= n <= 0x200A) || n == 0x2028 || n == 0x2029 || n == 0x202F
    || n == 0x205F || n == 0x3000
  }

  /** Kotlin's isBlank: every character is whitespace (so "" is blank). */
  predicate IsBlank(s: string)
  {
    forall i :: 0 <= i < |s| ==> IsWhitespace(s[i])
  }

  /** Kotlin's isNullOrBlank on a nullable string. */
  predicate IsNullOrBlank(s: Option<string>)
  {
    s.None? || IsBlank(s.value)
  }

  /** The name shown for a call: the cached name when it has any visible
      character, otherwise the number. */
  function DisplayName(call: CallLogEntry): (shown: string)
    ensures !IsNullOrBlank(call.name) ==> shown == call.name.value
    ensures IsNullOrBlank(call.name) ==> shown == call.number
  {
    if !IsNullOrBlank(call.name) then call.name.value else call.number
  }

  /** The shown name is blank only when the number is blank too. */
  lemma DisplayNameBlankOnlyIfNumberBlank(call: CallLogEntry)
    ensures IsBlank(DisplayName(call)) ==> IsBlank(call.number)
  {
  }

  /** Kotlin's take(1): the first character, or "" for "". */
  function TakeOne(s: string): (r: string)
    ensures r <= s
    ensures |r| == if s == [] then 0 else 1
  {
    if s == [] then [] else s[..1]
  }

  /** The avatar letter of a call-log row, taken from the shown name. */
  function CallInitial(call: CallLogEntry): (initial: string)
    ensures initial <= DisplayName(call)
    ensures initial == [] <==> DisplayName(call) == []
    ensures |initial| <= 1
  {
    TakeOne(DisplayName(call))
  }

  /** The avatar letter of a contact row, taken from the display name. */
  function ContactInitial(contact: Contact): (initial: string)
    ensures initial <= contact.name
    ensures initial == [] <==> contact.name == []
    ensures |initial| <= 1
  {
    TakeOne(contact.name)
  }
}
