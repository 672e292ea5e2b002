/** Values shared by the two modal controllers and the route guard. */
module Common {

  /** An optional value: `undefined` in the source becomes `None`. */
  datatype Option<+T> = None | Some(value: T)

  /** JavaScript truthiness of an optional string: present and not the empty string. */
  predicate Truthy(s: Option<string>)
  {
    s.Some? && s.value != ""
  }
}
