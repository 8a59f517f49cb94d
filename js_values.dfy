/**
 * The JavaScript values the registry code handles: what `response.json()`
 * produces, what `JSON.stringify` consumes, and the in-memory records that
 * may hold `Date` objects.
 */
module JsValues {

  /** A JavaScript `Date`, by its time value (milliseconds since the epoch). */
  datatype Date = Date(time: int)

  /**
   * A JavaScript value. Objects keep their own enumerable properties in the
   * order `Object.entries` lists them; a JavaScript object has
   * no two properties with the same key, so only objects with distinct keys
   * arise (see `DistinctKeys`).
   */
  datatype Value =
    | Undefined
    | Null
    | Bool(b: bool)
    | Number(n: real)
    | Str(s: string)
    | DateObject(date: Date)
    | Array(items: seq<Value>)
    | Object(fields: seq<Field>)

  datatype Field = Field(key: string, value: Value)

  /** The keys of an object's properties, in order. */
  function Keys(fields: seq<Field>): (ks: seq<string>)
    ensures |ks| == |fields|
    ensures forall i :: 0 <= i < |fields| ==> ks[i] == fields[i].key
  {
    if fields == [] then [] else [fields[0].key] + Keys(fields[1..])
  }

  predicate DistinctKeys(fields: seq<Field>) {
    forall i, j :: 0 <= i < j < |fields| ==> fields[i].key != fields[j].key
  }

  /** `obj[key]` on an object's own properties: `undefined` when the key is absent. */
  function Lookup(fields: seq<Field>, key: string): Value {
    if fields == [] then Undefined
    else if fields[0].key == key then fields[0].value
    else Lookup(fields[1..], key)
  }

  /** A lookup finds the first property with the key. */
  lemma {:induction false} LookupAt(fields: seq<Field>, i: nat)
    requires i < |fields| && forall j :: 0 <= j < i ==> fields[j].key != fields[i].key
    ensures Lookup(fields, fields[i].key) == fields[i].value
  {
    if i > 0 {
      LookupAt(fields[1..], i - 1);
    }
  }

  /** A lookup of a key no property has yields `undefined`. */
  lemma {:induction false} LookupAbsent(fields: seq<Field>, key: string)
    requires forall i :: 0 <= i < |fields| ==> fields[i].key != key
    ensures Lookup(fields, key) == Undefined
  {
    if fields != [] {
      LookupAbsent(fields[1..], key);
    }
  }

  /**
   * The properties a schema reads from a value that passed the object
   * check: a plain object's own properties; a `Date` has none of the
   * registry's keys, so every lookup on it yields `undefined`.
   */
  predicate IsObjectLike(v: Value) {
    v.Object? || v.DateObject?
  }

  function OwnFields(v: Value): seq<Field> {
    if v.Object? then v.fields else []
  }

  /** `obj[key]` for any value that passed the object check. */
  function Get(v: Value, key: string): Value {
    Lookup(OwnFields(v), key)
  }

  /** The JavaScript `Date` objects anywhere inside a value. */
  predicate ContainsDate(v: Value) {
    match v
    case DateObject(_) => true
    case Array(items) => exists i :: 0 <= i < |items| && ContainsDate(items[i])
    case Object(fields) => exists i :: 0 <= i < |fields| && ContainsDate(fields[i].value)
    case _ => false
  }

  /** JavaScript's `Number.isInteger` on a finite number. */
  predicate IsInteger(n: real) {
    n.Floor as real == n
  }

  /** A sequence of strings as a JavaScript array of strings. */
  function StringArray(ss: seq<string>): (v: Value)
    ensures v.Array? && |v.items| == |ss|
    ensures forall i :: 0 <= i < |ss| ==> v.items[i] == Str(ss[i])
  {
    if ss == [] then Array([]) else Array([Str(ss[0])] + StringArray(ss[1..]).items)
  }
}
