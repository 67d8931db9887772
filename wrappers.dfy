/** Optional values: the model's stand-in for a JavaScript property that may be absent. */
module Wrappers {

  datatype Option<+T> = None | Some(value: T)

  /** JavaScript truthiness of an optional string property: absent (undefined)
      and the empty string are both falsy; every other string is truthy. */
  predicate Truthy(o: Option<string>) {
    o.Some? && o.value != ""
  }
}
