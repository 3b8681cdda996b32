/**
 * The browser's `localStorage` as the app uses it: string keys whose
 * values the app writes with `JSON.stringify` and reads back with
 * `JSON.parse`.
 */
module Storage {
  import opened Wrappers

  /** The JSON values the app writes; `JOther` is any other well-formed JSON text. */
  datatype Json = JBool(b: bool) | JInt(i: int) | JLocation(lat: real, lon: real) | JOther

  /** The text under a key: JSON that parses to a value, or text `JSON.parse` rejects (including ""). */
  datatype Stored = Parses(value: Json) | Unparseable

  class LocalStorage {
    /** `typeof localStorage !== 'undefined'`. */
    const available: bool
    var entries: map<string, Stored>

    constructor(available: bool, entries: map<string, Stored>)
      ensures this.available == available && this.entries == entries
    {
      this.available := available;
      this.entries := entries;
    }

    /**
     * `localStorage.getItem(key)`: absent when the key is missing or there
     * is no storage at all (callers either test `typeof` first or catch the
     * resulting exception, and both read as absent).
     */
    function GetItem(key: string): (r: Option<Stored>)
      reads this
      ensures r.Some? <==> available && key in entries
      ensures r.Some? ==> r.value == entries[key]
    {
      if available && key in entries then Some(entries[key]) else None
    }

    /** `localStorage.setItem(key, JSON.stringify(value))`, skipped without storage. */
    method SetItem(key: string, value: Json)
      modifies this
      ensures entries == if available then old(entries)[key := Parses(value)] else old(entries)
      ensures GetItem(key) == if available then Some(Parses(value)) else None
      ensures forall k :: k != key ==> GetItem(k) == old(GetItem(k))
    {
      if available {
        entries := entries[key := Parses(value)];
      }
    }
  }
}
