/**
 * Plain JavaScript request objects, the ones the plugins build, merge with
 * `Object.assign` and trim with `delete` before posting them.
 */
module JsObjects {

  /** The values the request objects carry (`NaN` is what `parseInt` gives for non-numbers). */
  datatype Value =
    | Undefined
    | Bool(b: bool)
    | Number(n: int)
    | NaN
    | BigInt(i: int)
    | Str(s: string)

  /** `Object.assign(target, source)` on the own properties: `source` wins on shared keys. */
  function Assign(target: map<string, Value>, source: map<string, Value>): (r: map<string, Value>)
    ensures r.Keys == target.Keys + source.Keys
    ensures forall k :: k in source ==> r[k] == source[k]
    ensures forall k :: k in target && k !in source ==> r[k] == target[k]
  {
    target + source
  }

  /** `delete o[k]` for each key in `keys`. */
  function Without(m: map<string, Value>, keys: set<string>): (r: map<string, Value>)
    ensures r.Keys == m.Keys - keys
    ensures forall k :: k in r ==> r[k] == m[k]
  {
    map k | k in m && k !in keys :: m[k]
  }

  /** Two `delete`s in a row remove both keys. */
  lemma WithoutTwice(m: map<string, Value>, a: string, b: string)
    ensures Without(Without(m, {a}), {b}) == Without(m, {a, b})
  {
  }

  class JsObject {
    var fields: map<string, Value>

    constructor (fields: map<string, Value>)
      ensures this.fields == fields
    {
      this.fields := fields;
    }

    /** `Object.assign(this, source)`. */
    method AssignFrom(source: map<string, Value>)
      modifies this
      ensures fields == Assign(old(fields), source)
    {
      fields := fields + source;
    }

    /** `delete this[key]`. */
    method Delete(key: string)
      modifies this
      ensures fields == Without(old(fields), {key})
    {
      fields := map k | k in fields && k != key :: fields[k];
    }
  }

  /**
   * `defaults(relaxed, defaults)`: copies every property of `relaxed` onto the defaults
   * object, overriding, and returns that same (now changed) defaults object.
   */
  method Defaults(relaxed: JsObject, defaults: JsObject) returns (r: JsObject)
    modifies defaults
    ensures r == defaults
    ensures r.fields == Assign(old(defaults.fields), old(relaxed.fields))
  {
    var source := relaxed.fields;
    defaults.AssignFrom(source);
    r := defaults;
  }
}
