/** The browser's `localStorage`, one instance shared by every service that
    reads or writes it. */
module Storage {
  import opened Common

  class LocalStorage {
    var items: map<string, string>

    constructor (initial: map<string, string>)
      ensures items == initial
    {
      items := initial;
    }

    /** `getItem(key)`: the stored string, or `null`. */
    method GetItem(key: string) returns (v: Option<string>)
      ensures key in items ==> v == Some(items[key])
      ensures key !in items ==> v == None
    {
      v := if key in items then Some(items[key]) else None;
    }

    /** `setItem(key, value)`: only that key changes. */
    method SetItem(key: string, value: string)
      modifies this
      ensures items == old(items)[key := value]
    {
      items := items[key := value];
    }

    /** `clear()`: every key is removed. */
    method Clear()
      modifies this
      ensures items == map[]
    {
      items := map[];
    }
  }
}
