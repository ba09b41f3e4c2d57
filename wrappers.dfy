/** Optional values, and the key-by-key overlay that object spread performs. */
module Wrappers {

  datatype Option<T> = None | Some(value: T)

  /**
   * The value an object spread `{ ...defaults, ...stored }` (or `stored.x || defaults.x`
   * for an array) leaves in one key: the stored value when the key is present,
   * otherwise the default.
   */
  function Overlay<T>(stored: Option<T>, default: T): (r: T)
    ensures stored.Some? ==> r == stored.value
    ensures stored.None? ==> r == default
  {
    if stored.Some? then stored.value else default
  }
}
