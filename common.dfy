/** Values shared by the client and the server model. */
module Common {

  /** Python's `None` / a present value; also a JSON key that may be absent. */
  datatype Option<+T> = None | Some(value: T)

  /** Python truthiness of an optional string: `None` and `""` are false. */
  predicate Truthy(s: Option<string>)
  {
    s.Some? && s.value != ""
  }
}
