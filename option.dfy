/** The optional value used where the driver's Rust code returns `Option` or
    a conversion that can fail without an error payload. */
module Optional {
  datatype Option<+T> = None | Some(value: T)
}
