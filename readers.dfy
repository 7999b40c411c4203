/** The two readers that turn a content-store query into a list, row by row.
    The cursor is given: its rows, a null cursor, or a query that throws. */
module Readers {
  import opened Optional
  import opened Entries

  /** What the content resolver's query gives back. */
  datatype Cursor<R> = QueryThrew | NullCursor | Opened(rows: seq<R>)

  /** One call-log cursor row as getString/getLong/getInt return it
      (a null number or name is None; a null long or int reads as 0). */
  datatype CallLogRow = CallLogRow(
    number: Option<string>,
    cachedName: Option<string>,
    duration: int,
    callType: int,
    date: int
  )

  /** One contacts cursor row as getString returns it. */
  datatype ContactRow = ContactRow(
    contactId: Option<string>,
    displayName: Option<string>,
    number: Option<string>
  )

  /** A row converts only if the entry's non-null fields are non-null;
      otherwise the entry's constructor throws. */
  predicate CallLogRowReadable(row: CallLogRow)
  {
    row.number.Some?
  }

  predicate ContactRowReadable(row: ContactRow)
  {
    row.contactId.Some? && row.displayName.Some?
  }

  function CallLogEntryOf(row: CallLogRow): (entry: CallLogEntry)
    requires CallLogRowReadable(row)
    ensures entry.number == row.number.value && entry.name == row.cachedName
    ensures entry.duration == row.duration && entry.callType == row.callType && entry.date == row.date
  {
    CallLogEntry(row.number.value, row.cachedName, row.duration, row.callType, row.date)
  }

  function ContactOf(row: ContactRow): (contact: Contact)
    requires ContactRowReadable(row)
    ensures contact.id == row.contactId.value && contact.name == row.displayName.value
    ensures contact.phoneNumber == row.number
  {
    Contact(row.contactId.value, row.displayName.value, row.number)
  }

  /** The list a call-log read produces: one entry per row in cursor order
      when every row converts, and [] for a throwing query, a null cursor or
      a row that does not convert (the exception is swallowed). */
  function CallLogsOf(cursor: Cursor<CallLogRow>): (entries: seq<CallLogEntry>)
    ensures cursor.Opened? && (forall i :: 0 <= i < |cursor.rows| ==> CallLogRowReadable(cursor.rows[i])) ==>
      |entries| == |cursor.rows| && forall i :: 0 <= i < |entries| ==> entries[i] == CallLogEntryOf(cursor.rows[i])
    ensures !cursor.Opened? || (exists i :: 0 <= i < |cursor.rows| && !CallLogRowReadable(cursor.rows[i])) ==>
      entries == []
  {
    match cursor
    case Opened(rows) =>
      if forall i :: 0 <= i < |rows| ==> CallLogRowReadable(rows[i])
      then seq(|rows|, i requires 0 <= i < |rows| => CallLogEntryOf(rows[i]))
      else []
    case _ => []
  }

  function ContactsOf(cursor: Cursor<ContactRow>): (contacts: seq<Contact>)
    ensures cursor.Opened? && (forall i :: 0 <= i < |cursor.rows| ==> ContactRowReadable(cursor.rows[i])) ==>
      |contacts| == |cursor.rows| && forall i :: 0 <= i < |contacts| ==> contacts[i] == ContactOf(cursor.rows[i])
    ensures !cursor.Opened? || (exists i :: 0 <= i < |cursor.rows| && !ContactRowReadable(cursor.rows[i])) ==>
      contacts == []
  {
    match cursor
    case Opened(rows) =>
      if forall i :: 0 <= i < |rows| ==> ContactRowReadable(rows[i])
      then seq(|rows|, i requires 0 <= i < |rows| => ContactOf(rows[i]))
      else []
    case _ => []
  }

  /** fetchCallLogs: walk the cursor with moveToNext, adding one entry per row. */
  method FetchCallLogs(cursor: Cursor<CallLogRow>) returns (callLogs: seq<CallLogEntry>)
    ensures callLogs == CallLogsOf(cursor)
  {
    if !cursor.Opened? {
      return [];
    }
    var rows := cursor.rows;
    callLogs := [];
    var position := 0;
    while position < |rows|
      invariant 0 <= position <= |rows|
      invariant forall i :: 0 <= i < position ==> CallLogRowReadable(rows[i])
      invariant |callLogs| == position
      invariant forall i :: 0 <= i < position ==> callLogs[i] == CallLogEntryOf(rows[i])
    {
      var row := rows[position];
      if row.number.None? {
        // CallLogEntry(number = null, ...) throws; the catch returns emptyList().
        return [];
      }
      callLogs := callLogs + [CallLogEntry(row.number.value, row.cachedName, row.duration, row.callType, row.date)];
      position := position + 1;
    }
  }

  /** fetchContacts: the same walk over the contacts cursor. */
  method FetchContacts(cursor: Cursor<ContactRow>) returns (contacts: seq<Contact>)
    ensures contacts == ContactsOf(cursor)
  {
    if !cursor.Opened? {
      return [];
    }
    var rows := cursor.rows;
    contacts := [];
    var position := 0;
    while position < |rows|
      invariant 0 <= position <= |rows|
      invariant forall i :: 0 <= i < position ==> ContactRowReadable(rows[i])
      invariant |contacts| == position
      invariant forall i :: 0 <= i < position ==> contacts[i] == ContactOf(rows[i])
    {
      var row := rows[position];
      if row.contactId.None? || row.displayName.None? {
        // Contact(id = null or name = null, ...) throws; the catch returns emptyList().
        return [];
      }
      contacts := contacts + [Contact(row.contactId.value, row.displayName.value, row.number)];
      position := position + 1;
    }
  }

  /** Nothing distinguishes a failed read from an empty store. */
  lemma FailureLooksLikeEmptyStore()
    ensures CallLogsOf(QueryThrew) == CallLogsOf(NullCursor) == CallLogsOf(Opened([]))
    ensures ContactsOf(QueryThrew) == ContactsOf(NullCursor) == ContactsOf(Opened([]))
  {
  }
}
