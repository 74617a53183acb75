/** Shared vocabulary: SQL's NULL and Python's None are both `None`. */
module Options {

  datatype Option<+T> = None | Some(value: T)
}
