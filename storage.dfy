/**
 * The browser's `localStorage` as the script uses it: a mutable map from
 * string keys to string values, read with `getItem` (which answers null for
 * a missing key) and written one key at a time with `setItem`.
 */
module Storage {

  datatype Option<T> = None | Some(value: T)

  /** `getItem`: the stored text, or None where JavaScript answers null. */
  function Get(m: map<string, string>, key: string): Option<string> {
    if key in m then Some(m[key]) else None
  }

  /**
   * `getItem` on an empty store answers null, and after `setItem(k, v)` it
   * answers v for k and what it answered before for every other key.
   */
  lemma GetAfterSet(m: map<string, string>, k: string, v: string, key: string)
    ensures Get(map[], key) == None
    ensures Get(m[k := v], key) == if key == k then Some(v) else Get(m, key)
  {
  }

  class LocalStorage {
    var items: map<string, string>

    constructor (initial: map<string, string>)
      ensures items == initial
    {
      items := initial;
    }

    /** `setItem(key, value)`: overwrites one entry and leaves every other key as it was. */
    method SetItem(key: string, value: string)
      modifies this
      ensures items == old(items)[key := value]
      ensures Get(items, key) == Some(value)
      ensures forall k :: k != key ==> Get(items, k) == Get(old(items), k)
    {
      items := items[key := value];
    }
  }
}
