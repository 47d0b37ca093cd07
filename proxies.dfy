/** `makeReadOnlyProxy`: a sealed view exposing a fixed list of keys, each a
    get-only property forwarding to the backing object.

    The view holds no data of its own: it is its key list, and every read
    takes the backing object's read function as it is at the moment of the
    read, so a view is live by construction. */
module Proxies {
  import opened JsValues

  datatype Proxy = Proxy(keys: set<string>)

  /** Reading `view[k]`: an exposed key forwards to the backing object's
      current value, any other key reads as `absent` (`undefined`). */
  function Get<P>(p: Proxy, read: string -> P, absent: P, k: string): P
  {
    if k in p.keys then read(k) else absent
  }

  /** Everything the view shows at one instant. */
  function Shown<P>(p: Proxy, read: string -> P): map<string, P>
  {
    map k | k in p.keys :: read(k)
  }

  /** Assigning `view[k] = v` always throws: an exposed key has a getter and
      no setter, and a new key cannot be added to a sealed object. */
  function Set<P>(p: Proxy, k: string, v: P): Error
  {
    if k in p.keys then NoSetter(k) else NotExtensible(k)
  }

  /** `delete view[k]`: exposed keys are not configurable once sealed, so
      deleting one throws; deleting a key the view lacks is a no-op. */
  function Delete(p: Proxy, k: string): Outcome
  {
    if k in p.keys then Fail(NotConfigurable(k)) else Pass
  }
}
