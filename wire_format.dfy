/**
 * How a validated technology looks as a JavaScript value: in memory, with
 * `Date` objects, and on the wire, after `serializeDates` has turned every
 * date into its ISO string. Serialising a technology and validating the
 * result with `TechnologySchema` gives the same technology back, provided
 * `Date.parse` reads back what `toISOString` writes.
 */
module WireFormat {
  import opened Wrappers
  import opened JsValues
  import Schemas
  import Serializing

  /** How a date is written: as a `Date` object, or as the string `toISOString` gives. */
  datatype DateForm = AsDate | AsIso(toIsoString: Date -> string)

  function DateValue(d: Date, form: DateForm): Value {
    match form
    case AsDate => DateObject(d)
    case AsIso(toIsoString) => Str(toIsoString(d))
  }

  /** `Date.parse(d.toISOString())` is the time of `d`, for every date. */
  ghost predicate DatesRoundTrip(p: Schemas.Platform, toIsoString: Date -> string) {
    forall d: Date :: p.dateParse(toIsoString(d)) == Some(d.time)
  }

  function TransitionValue(t: Schemas.StageTransition, form: DateForm): Value {
    Object([
      Field("originalStage", Str(t.originalStage)),
      Field("transitionDate", DateValue(t.transitionDate, form)),
      Field("adrLink", Str(t.adrLink))])
  }

  function TransitionsValue(ts: seq<Schemas.StageTransition>, form: DateForm): (v: Value)
    ensures v.Array? && |v.items| == |ts|
    ensures forall i :: 0 <= i < |ts| ==> v.items[i] == TransitionValue(ts[i], form)
  {
    Array(seq(|ts|, i requires 0 <= i < |ts| => TransitionValue(ts[i], form)))
  }

  function HistoryValue(h: Schemas.TechnologyHistory, form: DateForm): Value {
    Object([
      Field("stageTransitions", TransitionsValue(h.stageTransitions, form)),
      Field("discoveryDate", DateValue(h.discoveryDate, form))])
  }

  function DetailsPageValue(detailsPage: Option<string>): Value {
    if detailsPage.Some? then Str(detailsPage.value) else Null
  }

  function TechnologyValue(t: Schemas.Technology, form: DateForm): Value {
    Object([
      Field("name", Str(t.name)),
      Field("category", Str(t.category)),
      Field("stage", Str(t.stage)),
      Field("tags", StringArray(t.tags)),
      Field("detailsPage", DetailsPageValue(t.detailsPage)),
      Field("history", HistoryValue(t.history, form))])
  }

  /**
   * What `TechnologySchema` demands beyond the types, for the record to come
   * back unchanged: a non-empty name and URLs `z.url` accepts and yields as
   * they are.
   */
  predicate WellFormed(p: Schemas.Platform, t: Schemas.Technology) {
    && |t.name| >= 1
    && (t.detailsPage.Some? ==> Schemas.StableUrl(p, t.detailsPage.value))
    && forall i :: 0 <= i < |t.history.stageTransitions| ==> Schemas.StableUrl(p, t.history.stageTransitions[i].adrLink)
  }

  // ---------------------------------------------------------------------------
  // Serialising

  /** Serialising an object serialises each property value and keeps the keys. */
  lemma SerializeFields(fields: seq<Field>, toIsoString: Date -> string, expected: seq<Field>)
    requires |expected| == |fields|
    requires forall i :: 0 <= i < |fields| ==>
      expected[i] == Field(fields[i].key, Serializing.SerializeDates(fields[i].value, toIsoString))
    ensures Serializing.SerializeDates(Object(fields), toIsoString) == Object(expected)
  {
    var r := Serializing.SerializeDates(Object(fields), toIsoString);
    forall i | 0 <= i < |fields|
      ensures r.fields[i] == expected[i]
    {
      Serializing.SerializeObjectProperty(fields, toIsoString, i);
    }
    assert Keys(r.fields) == Keys(fields);
    assert r.fields == expected;
  }

  lemma SerializeTransition(t: Schemas.StageTransition, toIsoString: Date -> string)
    ensures Serializing.SerializeDates(TransitionValue(t, AsDate), toIsoString) == TransitionValue(t, AsIso(toIsoString))
  {
    SerializeFields(TransitionValue(t, AsDate).fields, toIsoString, TransitionValue(t, AsIso(toIsoString)).fields);
  }

  lemma SerializeHistory(h: Schemas.TechnologyHistory, toIsoString: Date -> string)
    ensures Serializing.SerializeDates(HistoryValue(h, AsDate), toIsoString) == HistoryValue(h, AsIso(toIsoString))
  {
    var ts := h.stageTransitions;
    var before, after := TransitionsValue(ts, AsDate), TransitionsValue(ts, AsIso(toIsoString));
    var r := Serializing.SerializeDates(before, toIsoString);
    forall i | 0 <= i < |ts|
      ensures r.items[i] == after.items[i]
    {
      Serializing.SerializeArrayElement(before.items, toIsoString, i);
      SerializeTransition(ts[i], toIsoString);
    }
    assert r == after;
    SerializeFields(HistoryValue(h, AsDate).fields, toIsoString, HistoryValue(h, AsIso(toIsoString)).fields);
  }

  /** `serializeDates` turns the in-memory technology into its wire form. */
  lemma SerializeTechnology(t: Schemas.Technology, toIsoString: Date -> string)
    ensures Serializing.SerializeDates(TechnologyValue(t, AsDate), toIsoString) == TechnologyValue(t, AsIso(toIsoString))
  {
    var tags := StringArray(t.tags);
    assert !ContainsDate(tags) by {
      assert forall i :: 0 <= i < |tags.items| ==> !ContainsDate(tags.items[i]);
    }
    Serializing.DateFreeUnchanged(tags, toIsoString);
    SerializeHistory(t.history, toIsoString);
    SerializeFields(TechnologyValue(t, AsDate).fields, toIsoString, TechnologyValue(t, AsIso(toIsoString)).fields);
  }

  // ---------------------------------------------------------------------------
  // Validating the wire form

  lemma TransitionFields(originalStage: Value, transitionDate: Value, adrLink: Value)
    ensures var v := Object([
        Field("originalStage", originalStage), Field("transitionDate", transitionDate), Field("adrLink", adrLink)]);
      Get(v, "originalStage") == originalStage && Get(v, "transitionDate") == transitionDate
      && Get(v, "adrLink") == adrLink
  {
    var fs := [Field("originalStage", originalStage), Field("transitionDate", transitionDate), Field("adrLink", adrLink)];
    LookupAt(fs, 0);
    LookupAt(fs, 1);
    LookupAt(fs, 2);
  }

  lemma ParseTransitionWire(p: Schemas.Platform, toIsoString: Date -> string, t: Schemas.StageTransition,
                            path: seq<Schemas.PathItem>)
    requires DatesRoundTrip(p, toIsoString) && Schemas.StableUrl(p, t.adrLink)
    ensures Schemas.ParseStageTransition(p, TransitionValue(t, AsIso(toIsoString)), path) == Schemas.Valid(t)
  {
    TransitionFields(Str(t.originalStage), Str(toIsoString(t.transitionDate)), Str(t.adrLink));
    assert p.dateParse(toIsoString(t.transitionDate)) == Some(t.transitionDate.time);
  }

  lemma ParseHistoryWire(p: Schemas.Platform, toIsoString: Date -> string, h: Schemas.TechnologyHistory,
                         path: seq<Schemas.PathItem>)
    requires DatesRoundTrip(p, toIsoString)
    requires forall i :: 0 <= i < |h.stageTransitions| ==> Schemas.StableUrl(p, h.stageTransitions[i].adrLink)
    ensures Schemas.ParseHistory(p, HistoryValue(h, AsIso(toIsoString)), path) == Schemas.Valid(h)
  {
    var v := HistoryValue(h, AsIso(toIsoString));
    var ts := h.stageTransitions;
    var items := TransitionsValue(ts, AsIso(toIsoString)).items;
    LookupAt(v.fields, 0);
    LookupAt(v.fields, 1);
    var q := path + [Schemas.Key("stageTransitions")];
    forall j | 0 <= j < |items|
      ensures Schemas.ParseStageTransition(p, items[j], q + [Schemas.Index(j)]) == Schemas.Valid(ts[j])
    {
      ParseTransitionWire(p, toIsoString, ts[j], q + [Schemas.Index(j)]);
    }
    var r := Schemas.ParseHistory(p, v, path);
    assert p.dateParse(toIsoString(h.discoveryDate)) == Some(h.discoveryDate.time);
    assert r.Valid?;
    assert r.data.stageTransitions == ts;
  }

  lemma TechnologyFields(name: Value, category: Value, stage: Value, tags: Value, detailsPage: Value, history: Value)
    ensures var v := Object([
        Field("name", name), Field("category", category), Field("stage", stage),
        Field("tags", tags), Field("detailsPage", detailsPage), Field("history", history)]);
      && Get(v, "name") == name && Get(v, "category") == category && Get(v, "stage") == stage
      && Get(v, "tags") == tags && Get(v, "detailsPage") == detailsPage && Get(v, "history") == history
  {
    var fs := [
      Field("name", name), Field("category", category), Field("stage", stage),
      Field("tags", tags), Field("detailsPage", detailsPage), Field("history", history)];
    assert Get(Object(fs), "name") == name by { LookupAt(fs, 0); }
    assert Get(Object(fs), "category") == category by { LookupAt(fs, 1); }
    assert Get(Object(fs), "stage") == stage by { LookupAt(fs, 2); }
    assert Get(Object(fs), "tags") == tags by {
      assert "name"[0] != "tags"[0];
      LookupAt(fs, 3);
    }
    assert Get(Object(fs), "detailsPage") == detailsPage by { LookupAt(fs, 4); }
    assert Get(Object(fs), "history") == history by { LookupAt(fs, 5); }
  }

  /** A technology read from any object whose properties are valid and are those of the technology. */
  lemma TechnologyFrom(p: Schemas.Platform, v: Value, t: Schemas.Technology, path: seq<Schemas.PathItem>)
    requires v.Object? && WellFormed(p, t)
    requires Get(v, "name") == Str(t.name) && Get(v, "category") == Str(t.category) && Get(v, "stage") == Str(t.stage)
    requires Get(v, "tags") == StringArray(t.tags) && Get(v, "detailsPage") == DetailsPageValue(t.detailsPage)
    requires Schemas.ParseHistory(p, Get(v, "history"), path + [Schemas.Key("history")]) == Schemas.Valid(t.history)
    ensures Schemas.ParseTechnology(p, v, path) == Schemas.Valid(t)
  {
    Schemas.StringArrayParses(p, t.tags, path + [Schemas.Key("tags")]);
    var r := Schemas.ParseTechnology(p, v, path);
    assert r.Valid?;
    assert r.data.detailsPage == t.detailsPage;
  }

  /** The wire form of a technology passes `TechnologySchema` and yields the technology. */
  lemma ParseTechnologyWire(p: Schemas.Platform, toIsoString: Date -> string, t: Schemas.Technology,
                            path: seq<Schemas.PathItem>)
    requires DatesRoundTrip(p, toIsoString) && WellFormed(p, t)
    ensures Schemas.ParseTechnology(p, TechnologyValue(t, AsIso(toIsoString)), path) == Schemas.Valid(t)
  {
    var history := HistoryValue(t.history, AsIso(toIsoString));
    TechnologyFields(Str(t.name), Str(t.category), Str(t.stage), StringArray(t.tags),
      DetailsPageValue(t.detailsPage), history);
    ParseHistoryWire(p, toIsoString, t.history, path + [Schemas.Key("history")]);
    TechnologyFrom(p, TechnologyValue(t, AsIso(toIsoString)), t, path);
  }

  /**
   * A technology held with `Date` objects, serialised with `serializeDates`
   * and validated with `TechnologySchema`, is the technology again.
   */
  lemma SerializedTechnologyValidates(p: Schemas.Platform, toIsoString: Date -> string, t: Schemas.Technology)
    requires DatesRoundTrip(p, toIsoString) && WellFormed(p, t)
    ensures Schemas.ParseTechnology(p, Serializing.SerializeDates(TechnologyValue(t, AsDate), toIsoString), [])
      == Schemas.Valid(t)
  {
    SerializeTechnology(t, toIsoString);
    ParseTechnologyWire(p, toIsoString, t, []);
  }
}
