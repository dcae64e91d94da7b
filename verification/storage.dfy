/**
 * The browser's persistent key/value storage (`localStorage`) and the JSON
 * layer between it and the application's collections.
 *
 * JSON text itself is not modelled: a `Codec` pairs a parser (None where
 * `JSON.parse` throws) with a serialiser, and `Lawful` states the only facts
 * the model relies on.
 */
module Storage {
  import opened Wrappers

  /** A JSON value as `JSON.parse` returns it; numbers are integers here. */
  datatype Json =
    | JNull
    | JBool(b: bool)
    | JNum(n: int)
    | JStr(s: string)
    | JArr(items: seq<Json>)
    | JObj(fields: map<string, Json>)

  /** `JSON.parse` (None when it throws) and `JSON.stringify`. */
  datatype Codec = Codec(parse: string -> Option<Json>, stringify: Json -> string)

  /**
   * What the model assumes of the JSON layer: the empty text does not parse,
   * an empty array is written `[]`, and whatever is written parses back to
   * the same value.
   */
  ghost predicate Lawful(c: Codec)
  {
    && c.parse("") == None
    && c.stringify(JArr([])) == "[]"
    && forall v :: c.parse(c.stringify(v)) == Some(v)
  }

  /** Serialised text is never empty, so `if (data)` always takes it. */
  lemma StringifyNonEmpty(c: Codec, v: Json)
    requires Lawful(c)
    ensures c.stringify(v) != ""
  {
    assert c.parse(c.stringify(v)) == Some(v);
  }

  const TransactionsKey: string := "aes_transactions"
  const ProductsKey: string := "aes_products"
  const DebtsKey: string := "aes_debts"
  const SuppliersKey: string := "aes_suppliers"
  const ProfileKey: string := "aes_user_profile"

  /** `window.localStorage`: a map from key to text that survives restarts. */
  class LocalStorage {
    var items: map<string, string>

    constructor (initial: map<string, string>)
      ensures items == initial
    {
      items := initial;
    }

    /** `getItem`: the stored text, or None for `null`. */
    method GetItem(key: string) returns (r: Option<string>)
      ensures r == (if key in items then Some(items[key]) else None)
    {
      r := if key in items then Some(items[key]) else None;
    }

    /** `setItem`: overwrites one key and nothing else. */
    method SetItem(key: string, value: string)
      modifies this
      ensures items == old(items)[key := value]
    {
      items := items[key := value];
    }
  }
}
