/** The permission-then-call decision every tap handler makes: with the
    CALL_PHONE grant it dispatches an ACTION_CALL intent for "tel:" + number,
    without it it either asks for the grant or does nothing. */
module CallGate {
  import opened Optional
  import opened Entries

  /** What a click handler or a permission callback asks the platform to do. */
  datatype Effect = Dispatch(uri: string) | RequestPermission | NoEffect

  const TelScheme: string := "tel:"

  /** The string handed to Uri.parse as the call intent's data. */
  function TelUri(number: string): (uri: string)
    ensures TelScheme <= uri && |uri| == |TelScheme| + |number|
  {
    TelScheme + number
  }

  /** The text after the "tel:" prefix of a string handed to Uri.parse, when it
      has that prefix. This is string slicing, not URI parsing: the platform's
      parser would end the number at a '#', which it reads as a fragment. */
  function TelNumber(uri: string): (number: Option<string>)
    ensures number.Some? <==> TelScheme <= uri
    ensures number.Some? ==> |number.value| == |uri| - |TelScheme|
  {
    if TelScheme <= uri then Some(uri[|TelScheme|..]) else None
  }

  /** The text after the prefix of the dispatched string is exactly the number it was built from ... */
  lemma {:induction false} TelNumberOfTelUri(number: string)
    ensures TelNumber(TelUri(number)) == Some(number)
  {
    assert TelUri(number)[|TelScheme|..] == number;
  }

  /** ... and every string with the prefix is the prefix followed by that text. */
  lemma {:induction false} TelUriOfTelNumber(uri: string)
    requires TelNumber(uri).Some?
    ensures TelUri(TelNumber(uri).value) == uri
  {
    assert uri == uri[..|TelScheme|] + uri[|TelScheme|..];
  }

  /** The one decision all handlers share. `granted` is the grant state seen
      by the handler, `number` the number it would call (None when there is
      none), `requestIfDenied` whether this handler asks for the grant. */
  function Gate(granted: bool, number: Option<string>, requestIfDenied: bool): (e: Effect)
    ensures e.Dispatch? <==> granted && number.Some?
    ensures e.Dispatch? ==> e.uri == TelUri(number.value)
    ensures e == RequestPermission <==> !granted && requestIfDenied
  {
    if granted then
      match number
      case Some(n) => Dispatch(TelUri(n))
      case None => NoEffect
    else if requestIfDenied then RequestPermission
    else NoEffect
  }

  /** A click on a call-log row: the row always has a number. */
  function CallLogTap(granted: bool, call: CallLogEntry): (e: Effect)
    ensures granted ==> e == Dispatch(TelUri(call.number))
    ensures !granted ==> e == RequestPermission
  {
    Gate(granted, Some(call.number), true)
  }

  /** The call-log row's permission callback: dials only when granted, never asks again. */
  function CallLogGrant(isGranted: bool, call: CallLogEntry): (e: Effect)
    ensures isGranted ==> e == Dispatch(TelUri(call.number))
    ensures !isGranted ==> e == NoEffect
  {
    Gate(isGranted, Some(call.number), false)
  }

  /** A click on a contact row: the number is nullable. */
  function ContactTap(granted: bool, contact: Contact): (e: Effect)
    ensures e.Dispatch? <==> granted && contact.phoneNumber.Some?
    ensures e.Dispatch? ==> e.uri == TelUri(contact.phoneNumber.value)
    ensures e == RequestPermission <==> !granted
    ensures e == NoEffect <==> granted && contact.phoneNumber.None?
  {
    Gate(granted, contact.phoneNumber, true)
  }

  /** The contact row's permission callback. */
  function ContactGrant(isGranted: bool, contact: Contact): (e: Effect)
    ensures e.Dispatch? <==> isGranted && contact.phoneNumber.Some?
    ensures e.Dispatch? ==> e.uri == TelUri(contact.phoneNumber.value)
    ensures e != RequestPermission
  {
    Gate(isGranted, contact.phoneNumber, false)
  }

  /** The unused helper initiateCall: dials when granted and otherwise does
      nothing at all, not even ask. */
  function InitiateCall(granted: bool, phoneNumber: string): (e: Effect)
    ensures e != RequestPermission
    ensures granted ==> e == Dispatch(TelUri(phoneNumber))
    ensures !granted ==> e == NoEffect
  {
    Gate(granted, Some(phoneNumber), false)
  }

  /** The dialer's call button on the buffer as it is at the click. */
  function DialerCall(granted: bool, buffer: string): (e: Effect)
    ensures e == NoEffect <==> buffer == []
    ensures e.Dispatch? <==> granted && buffer != []
    ensures e.Dispatch? ==> e.uri == TelUri(buffer)
    ensures e == RequestPermission <==> !granted && buffer != []
  {
    if buffer == [] then NoEffect else Gate(granted, Some(buffer), true)
  }

  /** The dialer's permission callback on the buffer as it is when the answer arrives. */
  function DialerGrant(isGranted: bool, buffer: string): (e: Effect)
    ensures e.Dispatch? <==> isGranted && buffer != []
    ensures e.Dispatch? ==> e.uri == TelUri(buffer)
    ensures e != RequestPermission
  {
    Gate(isGranted, if buffer == [] then None else Some(buffer), false)
  }

  /** How many dial intents a run of effects starts. */
  function CountDispatches(effects: seq<Effect>): (n: nat)
    ensures n <= |effects|
    ensures n == 0 <==> forall i :: 0 <= i < |effects| ==> !effects[i].Dispatch?
  {
    if effects == [] then 0
    else (if effects[0].Dispatch? then 1 else 0) + CountDispatches(effects[1..])
  }

  /** How many permission prompts a run of effects opens. */
  function CountRequests(effects: seq<Effect>): (n: nat)
    ensures n <= |effects|
    ensures n == 0 <==> forall i :: 0 <= i < |effects| ==> effects[i] != RequestPermission
  {
    if effects == [] then 0
    else (if effects[0] == RequestPermission then 1 else 0) + CountRequests(effects[1..])
  }

  /** A tap and, when the tap asked for the grant, the callback that
      delivers the user's answer. */
  function Session(tap: Effect, callback: Effect): (trace: seq<Effect>)
    ensures 1 <= |trace| <= 2 && trace[0] == tap
    ensures |trace| == 2 <==> tap == RequestPermission
  {
    if tap == RequestPermission then [tap, callback] else [tap]
  }

  lemma {:induction false} CountsOfSession(tap: Effect, callback: Effect)
    ensures CountDispatches(Session(tap, callback))
         == (if tap.Dispatch? || (tap == RequestPermission && callback.Dispatch?) then 1 else 0)
    ensures CountRequests(Session(tap, callback))
         == (if tap == RequestPermission then 1 + (if callback == RequestPermission then 1 else 0) else 0)
  {
    var trace := Session(tap, callback);
    if tap == RequestPermission {
      assert trace[1..] == [callback] && trace[1..][1..] == [];
    } else {
      assert trace[1..] == [];
    }
  }

  /** Tapping a call-log row: exactly one dial when granted before or at the
      prompt, none when refused; at most one prompt; always the row's number. */
  lemma {:induction false} CallLogSession(granted: bool, answer: bool, call: CallLogEntry)
    ensures var trace := Session(CallLogTap(granted, call), CallLogGrant(answer, call));
      && CountDispatches(trace) == (if granted || answer then 1 else 0)
      && CountRequests(trace) == (if granted then 0 else 1)
      && forall i :: 0 <= i < |trace| && trace[i].Dispatch? ==> trace[i].uri == TelUri(call.number)
  {
    CountsOfSession(CallLogTap(granted, call), CallLogGrant(answer, call));
  }

  /** Tapping a contact row: as for a call-log row, except that a contact
      without a number is never dialled, though the prompt still opens. */
  lemma {:induction false} ContactSession(granted: bool, answer: bool, contact: Contact)
    ensures var trace := Session(ContactTap(granted, contact), ContactGrant(answer, contact));
      && CountDispatches(trace) == (if (granted || answer) && contact.phoneNumber.Some? then 1 else 0)
      && CountRequests(trace) == (if granted then 0 else 1)
      && forall i :: 0 <= i < |trace| && trace[i].Dispatch? ==> trace[i].uri == TelUri(contact.phoneNumber.value)
  {
    CountsOfSession(ContactTap(granted, contact), ContactGrant(answer, contact));
  }

  /** Pressing call in the dialer. The callback reads the buffer again, so
      the number dialled after a grant is the buffer at the answer
      (`atAnswer`), not the one at the click (`atClick`). */
  lemma {:induction false} DialerSession(granted: bool, answer: bool, atClick: string, atAnswer: string)
    ensures var trace := Session(DialerCall(granted, atClick), DialerGrant(answer, atAnswer));
      && CountDispatches(trace)
         == (if atClick != [] && (granted || (answer && atAnswer != [])) then 1 else 0)
      && CountRequests(trace) == (if atClick != [] && !granted then 1 else 0)
      && forall i :: 0 <= i < |trace| && trace[i].Dispatch? ==>
           trace[i].uri == TelUri(if granted then atClick else atAnswer)
  {
    CountsOfSession(DialerCall(granted, atClick), DialerGrant(answer, atAnswer));
  }
}
