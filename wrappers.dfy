/** Optional values: the `undefined` / `null` of the components, and their optional props. */
module Wrappers {

  datatype Option<+T> = None | Some(value: T)

  /** The value of an optional prop, or the default the component declares for it. */
  function OrDefault<T>(prop: Option<T>, default: T): (r: T)
    ensures prop.Some? ==> r == prop.value
    ensures prop.None? ==> r == default
  {
    match prop
    case Some(v) => v
    case None => default
  }
}
