/** The two immutable rows the app reads from the platform stores. */
module Entries {
  import opened Optional

  /** One call-log row: the number is never null, the cached name may be. */
  datatype CallLogEntry = CallLogEntry(
    number: string,
    name: Option<string>,
    duration: int,
    callType: int,
    date: int
  )

  /** One contacts row: id and display name are never null, the number may be. */
  datatype Contact = Contact(id: string, name: string, phoneNumber: Option<string>)
}
