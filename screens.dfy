/** The Recents and Contacts screens: one load state machine over three
    remembered cells (isLoading, error, the item list), run once per mount,
    and a renderer that shows the spinner, else the error text, else the list. */
module LoadScreens {
  import opened Optional
  import opened Entries
  import opened Readers

  /** What the fetch inside the screen's try block did. */
  datatype FetchOutcome<T> = Returned(items: seq<T>) | Threw(message: string)

  /** The screen's three state cells. */
  datatype ScreenState<T> = ScreenState(isLoading: bool, error: Option<string>, items: seq<T>)

  /** Which of the three bodies the screen composes. */
  datatype View<T> = Spinner | ErrorText(message: string) | ItemList(items: seq<T>)

  const CallLogPermissionMessage: string := "Call log permission is required to view recent calls"
  const CallLogFailurePrefix: string := "Failed to load call logs: "
  const ContactsPermissionMessage: string := "Contacts permission is required to view your contacts"
  const ContactsFailurePrefix: string := "Failed to load contacts: "

  /** The state at mount, before the launched effect runs. */
  function Initial<T>(): (s: ScreenState<T>)
    ensures s.isLoading && s.error.None? && s.items == []
  {
    ScreenState(true, None, [])
  }

  /** The state the permission-denied branch leaves. */
  function Denied<T>(permissionMessage: string): (s: ScreenState<T>)
    ensures !s.isLoading && s.error == Some(permissionMessage) && s.items == []
  {
    ScreenState(false, Some(permissionMessage), [])
  }

  /** The state the try/catch/finally around the fetch leaves. */
  function Completed<T>(outcome: FetchOutcome<T>, failurePrefix: string): (s: ScreenState<T>)
    ensures !s.isLoading
    ensures s.error.None? <==> outcome.Returned?
    ensures outcome.Returned? ==> s.items == outcome.items
    ensures outcome.Threw? ==> s.error == Some(failurePrefix + outcome.message) && s.items == []
  {
    match outcome
    case Returned(items) => ScreenState(false, None, items)
    case Threw(message) => ScreenState(false, Some(failurePrefix + message), [])
  }

  /** The `when` over the cells: loading wins over an error, an error over the list. */
  function Render<T>(s: ScreenState<T>): (v: View<T>)
    ensures v == Spinner <==> s.isLoading
    ensures v.ErrorText? <==> !s.isLoading && s.error.Some?
    ensures v.ErrorText? ==> v.message == s.error.value
    ensures v.ItemList? <==> !s.isLoading && s.error.None?
    ensures v.ItemList? ==> v.items == s.items
  {
    if s.isLoading then Spinner
    else if s.error.Some? then ErrorText(s.error.value)
    else ItemList(s.items)
  }

  /** Loading is shown only before the effect has run; afterwards a denial
      shows its message and never a list, a returned fetch shows its list
      even when empty, and a thrown fetch shows the failure text. */
  lemma {:induction false} ViewsOfTheLoadMachine<T>(permissionMessage: string, failurePrefix: string, items: seq<T>, message: string)
    ensures Render<T>(Initial()) == Spinner
    ensures Render<T>(Denied(permissionMessage)) == ErrorText(permissionMessage)
    ensures Render(Completed(Returned(items), failurePrefix)) == ItemList(items)
    ensures Render<T>(Completed(Threw(message), failurePrefix)) == ErrorText(failurePrefix + message)
  {
  }

  class ScreenModel<T> {
    var isLoading: bool
    var error: Option<string>
    var items: seq<T>
    /** Written by the permission launcher's callback and read nowhere. */
    var hasPermission: bool
    const permissionMessage: string
    const failurePrefix: string

    function State(): ScreenState<T>
      reads this
    {
      ScreenState(isLoading, error, items)
    }

    constructor (permissionMessage: string, failurePrefix: string)
      ensures State() == Initial() && !hasPermission
      ensures this.permissionMessage == permissionMessage && this.failurePrefix == failurePrefix
    {
      isLoading := true;
      error := None;
      items := [];
      hasPermission := false;
      this.permissionMessage := permissionMessage;
      this.failurePrefix := failurePrefix;
    }

    /** The branch taken when the read permission is not granted: ask for it
        (the returned flag) and show the fixed message. */
    method ShowPermissionDenied() returns (requested: bool)
      modifies this
      ensures requested
      ensures State() == Denied(permissionMessage) && hasPermission == old(hasPermission)
    {
      requested := true;
      error := Some(permissionMessage);
      items := [];
      isLoading := false;
    }

    /** The try/catch/finally around the fetch, given what the fetch did. */
    method CompleteFetch(outcome: FetchOutcome<T>)
      modifies this
      ensures State() == Completed(outcome, failurePrefix) && hasPermission == old(hasPermission)
    {
      isLoading := true;
      error := None;
      match outcome {
        case Returned(fetched) =>
          items := fetched;
        case Threw(message) =>
          error := Some(failurePrefix + message);
          items := [];
      }
      isLoading := false;
    }

    /** The permission launcher's callback: it records the answer and nothing
        else, so the screen keeps what it shows. */
    method OnPermissionResult(isGranted: bool)
      modifies this
      ensures hasPermission == isGranted && State() == old(State())
    {
      hasPermission := isGranted;
    }
  }

  /** One mount of the Recents screen: the grant state at mount, what the
      call-log query gives, and the user's answer to the prompt if one opens.
      The reader swallows every failure, so the failure text never shows. */
  method ShowRecentCalls(granted: bool, cursor: Cursor<CallLogRow>, answer: bool)
    returns (view: View<CallLogEntry>, requested: bool)
    ensures requested == !granted
    ensures !granted ==> view == ErrorText(CallLogPermissionMessage)
    ensures granted ==> view == ItemList(CallLogsOf(cursor))
  {
    var screen := new ScreenModel<CallLogEntry>(CallLogPermissionMessage, CallLogFailurePrefix);
    if !granted {
      requested := screen.ShowPermissionDenied();
      screen.OnPermissionResult(answer);
    } else {
      var callLogs := FetchCallLogs(cursor);
      screen.CompleteFetch(Returned(callLogs));
      requested := false;
    }
    view := Render(screen.State());
  }

  /** One mount of the Contacts screen, as for Recents. */
  method ShowContacts(granted: bool, cursor: Cursor<ContactRow>, answer: bool)
    returns (view: View<Contact>, requested: bool)
    ensures requested == !granted
    ensures !granted ==> view == ErrorText(ContactsPermissionMessage)
    ensures granted ==> view == ItemList(ContactsOf(cursor))
  {
    var screen := new ScreenModel<Contact>(ContactsPermissionMessage, ContactsFailurePrefix);
    if !granted {
      requested := screen.ShowPermissionDenied();
      screen.OnPermissionResult(answer);
    } else {
      var contacts := FetchContacts(cursor);
      screen.CompleteFetch(Returned(contacts));
      requested := false;
    }
    view := Render(screen.State());
  }
}
