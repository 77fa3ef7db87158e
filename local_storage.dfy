/** The browser's `localStorage` as the pages use it: a string-to-string map
    updated in place by `setItem` and `removeItem` and read by `getItem`. */
module LocalStorage {
  import opened Prelude

  class Storage {
    var items: map<string, string>

    constructor (initial: map<string, string>)
      ensures items == initial
    {
      items := initial;
    }

    /** `localStorage.getItem(key)`: `None` stands for `null`. */
    function GetItem(key: string): Option<string>
      reads this
    {
      Get(items, key)
    }

    /** `localStorage.setItem(key, value)`. */
    method SetItem(key: string, value: string)
      modifies this
      ensures items == old(items)[key := value]
    {
      items := items[key := value];
    }

    /** `localStorage.removeItem(key)`. */
    method RemoveItem(key: string)
      modifies this
      ensures items == old(items) - {key}
    {
      items := items - {key};
    }
  }

  /** `getItem` on a snapshot of the store's contents. */
  function Get(items: map<string, string>, key: string): (r: Option<string>)
    ensures r.Some? <==> key in items
    ensures r.Some? ==> r.value == items[key]
  {
    if key in items then Some(items[key]) else None
  }
}
