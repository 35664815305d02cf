/**
 * The browser's `localStorage`, as the session code uses it: one string-to-string
 * store shared by everything that touches it, and the two keys the session lives under.
 */
module Storage {
  import opened Wrappers

  /** Key of the JSON-serialised user record. */
  const UserKey := "auth_user"
  /** Key of the raw bearer token. */
  const TokenKey := "auth_token"

  /** `localStorage.getItem`: the stored string, or `null` (None) when the key is absent. */
  function Lookup(items: map<string, string>, key: string): (v: Option<string>)
    ensures v.Some? <==> key in items
    ensures v.Some? ==> v.value == items[key]
  {
    if key in items then Some(items[key]) else None
  }

  class LocalStorage {
    var items: map<string, string>

    constructor (initial: map<string, string>)
      ensures items == initial
    {
      items := initial;
    }

    method GetItem(key: string) returns (v: Option<string>)
      ensures v == Lookup(items, key)
    {
      v := Lookup(items, key);
    }

    method SetItem(key: string, value: string)
      modifies this
      ensures items == old(items)[key := value]
    {
      items := items[key := value];
    }

    method RemoveItem(key: string)
      modifies this
      ensures items == old(items) - {key}
    {
      items := items - {key};
    }
  }
}
