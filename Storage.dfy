/**
 * The device's key-value cache (AsyncStorage) and the JSON values the client
 * stores in it. JSON.stringify and JSON.parse are treated as an opaque,
 * injective serialisation: a stored text is the serialisation of one value.
 */
module Storage {
  import opened Wrappers

  /** A JSON value. Numbers are integers here; `JNull` is JavaScript's `null`. */
  datatype Json =
    | JNull
    | JBool(b: bool)
    | JNumber(n: int)
    | JString(s: string)
    | JArray(items: seq<Json>)
    | JObject(fields: map<string, Json>)

  /** The text JSON.stringify produces for a value. It is never the empty string, so it is always truthy. */
  datatype Serialised = Stringified(value: Json)

  /** The one key the client keeps its session under. */
  const UserKey: string := "user"

  function Stringify(v: Json): (t: Serialised)
    ensures Parse(t) == v
  {
    Stringified(v)
  }

  /** JSON.parse of a stored text: the one value whose serialisation the text is. */
  function Parse(t: Serialised): (v: Json)
    ensures t == Stringified(v)
  {
    t.value
  }

  /** The AsyncStorage key-value store, a map from keys to stored texts. */
  class KeyValueCache {
    var items: map<string, Serialised>

    constructor (initial: map<string, Serialised>)
      ensures items == initial
    {
      items := initial;
    }

    /** getItem: the stored text, or null when the key is absent. */
    method GetItem(key: string) returns (v: Option<Serialised>)
      ensures v.Some? <==> key in items
      ensures v.Some? ==> v.value == items[key]
    {
      v := if key in items then Some(items[key]) else None;
    }

    /** setItem: overwrites the key, leaves every other key as it was. */
    method SetItem(key: string, t: Serialised)
      modifies this
      ensures items == old(items)[key := t]
    {
      items := items[key := t];
    }

    /** removeItem: drops the key, leaves every other key as it was. */
    method RemoveItem(key: string)
      modifies this
      ensures items == old(items) - {key}
    {
      items := items - {key};
    }
  }
}
