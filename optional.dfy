/** Kotlin's nullable types (`String?`) as an explicit option. */
module Optional {

  datatype Option<+T> = None | Some(value: T)
}
