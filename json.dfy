/** The JavaScript values the record models pass around: a serialized record is a
    JSON object with string values, a property of a model object is a string or
    `undefined`, and `x || d` falls back on `d` for the falsy strings. */
module Json {
  import opened Wrappers

  /** A serialized record as stored and read back: property name to string value.
      A name that is absent is `undefined`. */
  type JsonObject = map<string, string>

  /** A property of a model object: a string, or `undefined` (None). */
  type Field = Option<string>

  /** `obj.key`. */
  function Get(obj: JsonObject, key: string): (r: Field)
    ensures r.Some? <==> key in obj
    ensures r.Some? ==> r.value == obj[key]
  {
    if key in obj then Some(obj[key]) else None
  }

  /** JavaScript truthiness of a string property: `undefined` and `''` are falsy. */
  predicate Truthy(f: Field) {
    f.Some? && f.value != ""
  }

  /** `f || d` for a string property and a string default. */
  function Or(f: Field, d: string): (r: string)
    ensures Truthy(f) ==> r == f.value
    ensures !Truthy(f) ==> r == d
  {
    if Truthy(f) then f.value else d
  }

  /** `JSON.stringify` of an object literal whose properties may be `undefined`:
      the defined properties are kept and the undefined ones omitted. */
  function Stringified(props: map<string, Field>): (r: JsonObject)
    ensures r.Keys <= props.Keys
    ensures forall k :: k in props ==> Get(r, k) == props[k]
  {
    map k | k in props && props[k].Some? :: props[k].value
  }

  /** Template-literal interpolation `${f}`: `undefined` prints as "undefined". */
  function Text(f: Field): (r: string)
    ensures f.Some? ==> r == f.value
  {
    if f.Some? then f.value else "undefined"
  }
}
