/**
  The browser's `localStorage` as a string-to-string map, and the JSON
  serialiser as an explicit encode/decode pair handed to every store action.
 */
module Persistence {
  import opened Wrappers

  type Storage = map<string, string>

  /** `JSON.stringify` / `JSON.parse` for values of type `T`; `decode` yields `None` where `JSON.parse` throws. */
  datatype Codec<!T> = Codec(encode: T -> string, decode: string -> Option<T>)

  /**
    What a store relies on from the serialiser for one value: parsing what was
    stringified gives the value back, and the stringified record or array is
    not the empty (falsy) string.
   */
  ghost predicate RoundTrips<T>(c: Codec<T>, x: T) {
    c.decode(c.encode(x)) == Some(x) && c.encode(x) != ""
  }

  /**
    The serialiser round-trips every value. This is satisfiable only for types
    with countably many values, such as the session user; the case list holds
    real coordinates, so its stores require `RoundTrips` of the lists involved.
   */
  ghost predicate Lawful<T(!new)>(c: Codec<T>) {
    forall x :: RoundTrips(c, x)
  }

  /** `s` and `t` agree on every key other than `key`. */
  ghost predicate SameExcept(s: Storage, t: Storage, key: string) {
    forall k :: k != key ==> Lookup(s, k) == Lookup(t, k)
  }
}
