/** The absent-or-present values that the Java code expresses with null. */
module Optional {

  datatype Option<T> = None | Some(value: T)
}
