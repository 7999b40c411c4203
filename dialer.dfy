/** The dialer screen: a text buffer fed by a twelve-key pad, a delete key
    and a call key gated on the CALL_PHONE grant. */
module Dialing {
  import opened CallGate

  /** The pad's key labels, in grid order. */
  const PadLabels: seq<string> := ["1", "2", "3", "4", "5", "6", "7", "8", "9", "*", "0", "#"]

  /** Every key of the pad types exactly one character, and no two keys type the same one. */
  lemma PadLabelsAreDistinctCharacters()
    ensures |PadLabels| == 12
    ensures forall i :: 0 <= i < |PadLabels| ==> |PadLabels[i]| == 1
    ensures forall i, j :: 0 <= i < j < |PadLabels| ==> PadLabels[i] != PadLabels[j]
  {
  }

  /** Delete on the buffer: the last character goes, an empty buffer stays empty. */
  function DropLast(buffer: string): (r: string)
    ensures buffer == [] ==> r == []
    ensures buffer != [] ==> r + [buffer[|buffer| - 1]] == buffer
  {
    if buffer == [] then [] else buffer[..|buffer| - 1]
  }

  /** A pad key followed by delete gives the buffer back. */
  lemma {:induction false} DropLastUndoesKey(buffer: string, key: nat)
    requires key < |PadLabels|
    ensures |buffer + PadLabels[key]| == |buffer| + 1
    ensures DropLast(buffer + PadLabels[key]) == buffer
  {
    PadLabelsAreDistinctCharacters();
    var typed := buffer + PadLabels[key];
    assert typed[..|typed| - 1] == buffer;
  }

  /** Delete shortens a non-empty buffer by exactly one and keeps its prefix. */
  lemma {:induction false} DropLastIsPrefix(buffer: string)
    ensures DropLast(buffer) <= buffer
    ensures |DropLast(buffer)| == if buffer == [] then 0 else |buffer| - 1
  {
  }

  class DialerScreen {
    /** The typed number, the remembered state of the screen. */
    var phoneNumber: string

    constructor ()
      ensures phoneNumber == ""
    {
      phoneNumber := "";
    }

    /** A pad key: its label is appended. */
    method OnNumberClick(digit: string)
      modifies this
      ensures phoneNumber == old(phoneNumber) + digit
      ensures digit in PadLabels ==> |phoneNumber| == |old(phoneNumber)| + 1
    {
      PadLabelsAreDistinctCharacters();
      phoneNumber := phoneNumber + digit;
    }

    /** The delete key. */
    method OnDeleteClick()
      modifies this
      ensures phoneNumber == DropLast(old(phoneNumber))
    {
      if phoneNumber != "" {
        phoneNumber := phoneNumber[..|phoneNumber| - 1];
      }
    }

    /** The call key, given the grant state it checks; the buffer is not changed. */
    method OnCallClick(granted: bool) returns (e: Effect)
      ensures e == DialerCall(granted, phoneNumber)
    {
      e := NoEffect;
      if phoneNumber != "" {
        if granted {
          e := Dispatch(TelScheme + phoneNumber);
        } else {
          e := RequestPermission;
        }
      }
    }

    /** The permission callback, given the user's answer; it reads the buffer as it is now. */
    method OnPermissionResult(isGranted: bool) returns (e: Effect)
      ensures e == DialerGrant(isGranted, phoneNumber)
    {
      e := NoEffect;
      if isGranted && phoneNumber != "" {
        e := Dispatch(TelScheme + phoneNumber);
      }
    }
  }

  /** Typing 5, 5 and deleting leaves "5"; deleting again twice leaves "" and
      stays there; a granted call on "12345" dials "tel:12345". */
  method DialerWalkthrough()
  {
    var dialer := new DialerScreen();
    dialer.OnNumberClick("5");
    dialer.OnNumberClick("5");
    dialer.OnDeleteClick();
    assert dialer.phoneNumber == "5";
    dialer.OnDeleteClick();
    dialer.OnDeleteClick();
    assert dialer.phoneNumber == "";
    var e := dialer.OnCallClick(true);
    assert e == NoEffect;
    dialer.OnNumberClick("1");
    dialer.OnNumberClick("2");
    dialer.OnNumberClick("3");
    dialer.OnNumberClick("4");
    dialer.OnNumberClick("5");
    e := dialer.OnCallClick(true);
    assert e == Dispatch("tel:12345");
  }
}
