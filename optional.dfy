/** Python's `None`-or-value, used for dictionary lookups, environment
    variables and attributes that may be absent. */
module Optional {
  datatype Option<T> = None | Some(value: T)
}
