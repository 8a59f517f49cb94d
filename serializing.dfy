/**
 * `serializeDates`: every `Date` inside a value, at any depth, replaced by
 * its ISO-8601 string. What `Date.prototype.toISOString` produces is a
 * parameter.
 */
module Serializing {
  import opened JsValues

  /**
   * A `Date` becomes its ISO string, an array is serialised element by
   * element, an object property by property, and everything else (`null`,
   * `undefined`, booleans, numbers, strings) is returned as it is.
   */
  function SerializeDates(v: Value, toIsoString: Date -> string): (r: Value)
    decreases v
    ensures !ContainsDate(r)
    ensures v.DateObject? ==> r == Str(toIsoString(v.date))
    ensures v.Array? ==> r.Array? && |r.items| == |v.items|
    ensures v.Object? ==> r.Object? && Keys(r.fields) == Keys(v.fields)
    ensures !v.DateObject? && !v.Array? && !v.Object? ==> r == v
  {
    match v
    case DateObject(date) => Str(toIsoString(date))
    case Array(items) =>
      Array(seq(|items|, i requires 0 <= i < |items| => SerializeDates(items[i], toIsoString)))
    case Object(fields) =>
      var entries := seq(|fields|, i requires 0 <= i < |fields| =>
        Field(fields[i].key, SerializeDates(fields[i].value, toIsoString)));
      assert forall i :: 0 <= i < |fields| ==> Keys(entries)[i] == Keys(fields)[i];
      Object(entries)
    case _ => v
  }

  /** Each array element is serialised in place, in order. */
  lemma SerializeArrayElement(items: seq<Value>, toIsoString: Date -> string, i: nat)
    requires i < |items|
    ensures SerializeDates(Array(items), toIsoString).items[i] == SerializeDates(items[i], toIsoString)
  {
  }

  /** Each property keeps its key, and its value is serialised. */
  lemma SerializeObjectProperty(fields: seq<Field>, toIsoString: Date -> string, i: nat)
    requires i < |fields|
    ensures SerializeDates(Object(fields), toIsoString).fields[i] ==
      Field(fields[i].key, SerializeDates(fields[i].value, toIsoString))
  {
  }

  /** A value without dates comes back structurally equal. */
  lemma {:induction false} DateFreeUnchanged(v: Value, toIsoString: Date -> string)
    requires !ContainsDate(v)
    ensures SerializeDates(v, toIsoString) == v
    decreases v
  {
    match v
    case Array(items) =>
      forall i | 0 <= i < |items|
        ensures SerializeDates(items[i], toIsoString) == items[i]
      {
        DateFreeUnchanged(items[i], toIsoString);
      }
      assert SerializeDates(v, toIsoString).items == items;
    case Object(fields) =>
      forall i | 0 <= i < |fields|
        ensures SerializeDates(fields[i].value, toIsoString) == fields[i].value
      {
        DateFreeUnchanged(fields[i].value, toIsoString);
      }
      assert SerializeDates(v, toIsoString).fields == fields;
    case _ =>
  }

  /** Serialising a second time changes nothing. */
  lemma SerializeIdempotent(v: Value, toIsoString: Date -> string)
    ensures SerializeDates(SerializeDates(v, toIsoString), toIsoString) == SerializeDates(v, toIsoString)
  {
    DateFreeUnchanged(SerializeDates(v, toIsoString), toIsoString);
  }
}
