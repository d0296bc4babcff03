/** The optional value used for Swift's failable results (`Int(String)`, `Date?`). */
module Optional {
  datatype Option<T> = None | Some(value: T)
}
