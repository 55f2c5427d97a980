/** Plain JavaScript objects as the engine client sees them: string-keyed
    records whose absent keys read as `undefined`. */
module JsObjects {
  import opened Wrappers

  /** The property values that occur in the records the client handles. */
  datatype JsValue = JsString(s: string) | JsNumber(n: int)

  /** The error an SDK call rejects with, as a plain object. */
  type ErrorObject = map<string, JsValue>

  /** `pick(obj, keys)` of `min-dash`: a new object holding exactly those of
      `keys` that `obj` has, with their values. */
  function Pick<V>(obj: map<string, V>, keys: set<string>): (r: map<string, V>)
    ensures r.Keys == obj.Keys * keys
    ensures forall k :: k in r ==> r[k] == obj[k]
  {
    map k | k in obj && k in keys :: obj[k]
  }

  /** Picking the same keys again changes nothing. */
  lemma PickIdempotent<V>(obj: map<string, V>, keys: set<string>)
    ensures Pick(Pick(obj, keys), keys) == Pick(obj, keys)
  {
  }

  /** JavaScript truthiness of an optional string: absent and "" are falsy. */
  predicate Truthy(s: Option<string>) {
    s.Some? && s.value != ""
  }
}
