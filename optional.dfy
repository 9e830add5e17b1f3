/** Values that may be missing: TypeScript's `null` and absent optional fields. */
module Optional {

  datatype Option<+T> = None | Some(value: T)
}
