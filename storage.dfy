/** The namespaced key-value wrapper over `localStorage`
    (`src/shared/lib/storage.ts`). `localStorage` is a dictionary of strings
    updated in place; JSON is abstracted as an encoder and a decoder whose
    `None` stands for `JSON.parse` throwing. */
module Storage {
  import opened Wrappers

  const Namespace: string := "medsup.v1"

  /** How values of one type are written to and read back from text. */
  datatype Codec<!T> = Codec(encode: T -> string, decode: string -> Option<T>)

  /** `JSON.parse(JSON.stringify(v))` gives `v` back, and the text is never
      empty (so a stored value is never mistaken for a missing one). */
  predicate RoundTrips<T(==)>(c: Codec<T>, v: T) {
    c.encode(v) != "" && c.decode(c.encode(v)) == Some(v)
  }

  /** `getKey(k)`: the namespace, a colon, then `k`. */
  function GetKey(key: string): (r: string)
    ensures |r| == |Namespace| + 1 + |key|
    ensures r[..|Namespace|] == Namespace && r[|Namespace|] == ':'
    ensures r[|Namespace| + 1..] == key
  {
    Namespace + ":" + key
  }

  /** Distinct keys never share a storage slot. */
  lemma GetKeyInjective(a: string, b: string)
    ensures GetKey(a) == GetKey(b) <==> a == b
  {
    if GetKey(a) == GetKey(b) {
      assert a == GetKey(a)[|Namespace| + 1..];
    }
  }

  /** What `readJSON(key, fallback)` returns when the dictionary is `entries`:
      the fallback when nothing or an empty string is stored, or when the
      stored text does not parse; the parsed value otherwise. */
  function Read<T>(entries: map<string, string>, key: string, fallback: T, decode: string -> Option<T>): (r: T)
    ensures GetKey(key) !in entries ==> r == fallback
    ensures GetKey(key) in entries && entries[GetKey(key)] == "" ==> r == fallback
    ensures GetKey(key) in entries && entries[GetKey(key)] != "" ==>
      r == match decode(entries[GetKey(key)]) case Some(x) => x case None => fallback
  {
    var k := GetKey(key);
    if k !in entries || entries[k] == "" then fallback
    else decode(entries[k]).GetOr(fallback)
  }

  class LocalStorage {
    /** The dictionary behind `localStorage`, indexed by full (namespaced) keys. */
    var entries: map<string, string>

    constructor Empty()
      ensures entries == map[]
    {
      entries := map[];
    }

    /** `readJSON(key, fallback)`. */
    method ReadJSON<T>(key: string, fallback: T, decode: string -> Option<T>) returns (v: T)
      ensures GetKey(key) !in entries ==> v == fallback
      ensures GetKey(key) in entries && entries[GetKey(key)] == "" ==> v == fallback
      ensures GetKey(key) in entries && entries[GetKey(key)] != "" ==>
        v == match decode(entries[GetKey(key)]) case Some(x) => x case None => fallback
      ensures v == Read(entries, key, fallback, decode)
    {
      v := Read(entries, key, fallback, decode);
    }

    /** `writeJSON(key, value)`: only the slot of `key` changes. */
    method WriteJSON<T>(key: string, value: T, encode: T -> string)
      modifies this
      ensures entries == old(entries)[GetKey(key) := encode(value)]
    {
      entries := entries[GetKey(key) := encode(value)];
    }

    /** `remove(key)`: only the slot of `key` changes. */
    method Remove(key: string)
      modifies this
      ensures entries == old(entries) - {GetKey(key)}
    {
      entries := entries - {GetKey(key)};
    }
  }

  /** After `writeJSON(key, v)`, `readJSON(key, _)` gives `v` back. */
  lemma ReadAfterWrite<T>(entries: map<string, string>, key: string, v: T, fallback: T, c: Codec<T>)
    requires RoundTrips(c, v)
    ensures Read(entries[GetKey(key) := c.encode(v)], key, fallback, c.decode) == v
  {
  }

  /** After `remove(key)`, `readJSON(key, fallback)` gives the fallback. */
  lemma ReadAfterRemove<T>(entries: map<string, string>, key: string, fallback: T, decode: string -> Option<T>)
    ensures Read(entries - {GetKey(key)}, key, fallback, decode) == fallback
  {
  }

  /** Writing or removing one key leaves what every other key reads unchanged. */
  lemma OtherKeysUnchanged<U>(entries: map<string, string>, key: string, text: string, other: string, fallback: U, decode: string -> Option<U>)
    requires other != key
    ensures Read(entries[GetKey(key) := text], other, fallback, decode) == Read(entries, other, fallback, decode)
    ensures Read(entries - {GetKey(key)}, other, fallback, decode) == Read(entries, other, fallback, decode)
  {
    GetKeyInjective(key, other);
  }
}
