/**
 * The assistant preferences of lib/ai-preferences.ts: a record kept in the
 * browser's `localStorage` under one key, read back merged over the defaults.
 * The store is the class below; `JSON.parse` and `JSON.stringify` are the
 * parameters `parse` and `serialize`, and `browser` says whether `window` exists.
 */
module AiPreferences {
  import opened Common

  /** A preferences record: `enabled`, `insightsFrequency` and `responseStyle`, and whatever
      else a stored record carried. */
  type Prefs = map<string, Value>

  const Defaults: Prefs :=
    map["enabled" := Bool(true), "insightsFrequency" := Str("manual"), "responseStyle" := Str("short")]

  /** `getAIPreferences` over the stored item: the defaults overridden by the fields of the
      stored object, or the defaults alone when there is no window, no item, an empty item or
      one that does not parse. */
  function Load(item: Option<string>, browser: bool, parse: string -> Option<Value>): Prefs {
    if !browser || item.None? || item.value == "" then Defaults
    else
      match parse(item.value)
      case None => Defaults
      case Some(parsed) => Defaults + Fields(parsed)
  }

  /** `isAIEnabled`, used as a condition. */
  predicate IsEnabled(p: Prefs) {
    !Falsy(Get(p, "enabled"))
  }

  /** `shouldShowDailyInsights`, used as a condition. */
  predicate ShowDaily(p: Prefs) {
    !Falsy(Get(p, "enabled")) && Get(p, "insightsFrequency") == Str("daily")
  }

  /** `getResponseStyle`. */
  function ResponseStyle(p: Prefs): Value {
    Get(p, "responseStyle")
  }

  /** The detail of an `aiPreferencesChanged` event. */
  datatype Event = Changed(detail: Prefs)

  class PreferenceStore {
    /** The `localStorage` item under `taskmind_ai_preferences`. */
    var item: Option<string>
    /** The events dispatched on `window`, oldest first. */
    var events: seq<Event>

    constructor(stored: Option<string>)
      ensures item == stored && events == []
    {
      item := stored;
      events := [];
    }

    method GetPreferences(browser: bool, parse: string -> Option<Value>) returns (p: Prefs)
      ensures p == Load(item, browser, parse)
      ensures forall k :: k in Defaults ==> k in p
    {
      if !browser || item.None? || item.value == "" {
        return Defaults;
      }
      var parsed := parse(item.value);
      if parsed.None? {
        return Defaults;
      }
      p := Defaults + Fields(parsed.value);
    }

    /** `saveAIPreferences`: merges `prefs` over the current preferences, stores the result
        and announces it. */
    method Save(browser: bool, prefs: Prefs, parse: string -> Option<Value>, serialize: Prefs -> string)
      modifies this
      ensures !browser ==> item == old(item) && events == old(events)
      ensures browser ==>
        && item == Some(serialize(Load(old(item), browser, parse) + prefs))
        && events == old(events) + [Changed(Load(old(item), browser, parse) + prefs)]
    {
      if !browser {
        return;
      }
      var current := GetPreferences(browser, parse);
      var updated := current + prefs;
      item := Some(serialize(updated));
      events := events + [Changed(updated)];
    }

    /** `resetAIPreferences`: removes the item and announces the defaults. */
    method Reset(browser: bool)
      modifies this
      ensures !browser ==> item == old(item) && events == old(events)
      ensures browser ==> item == None && events == old(events) + [Changed(Defaults)]
    {
      if !browser {
        return;
      }
      item := None;
      events := events + [Changed(Defaults)];
    }
  }

  /** With nothing usable stored, the preferences are the defaults: enabled, manual
      insights, short answers. */
  lemma NothingStoredGivesDefaults(item: Option<string>, browser: bool, parse: string -> Option<Value>)
    requires !browser || item.None? || item.value == "" || parse(item.value).None?
      || !parse(item.value).value.Obj? || parse(item.value).value.fields == map[]
    ensures Load(item, browser, parse) == Defaults
    ensures IsEnabled(Defaults) && !ShowDaily(Defaults) && ResponseStyle(Defaults) == Str("short")
  {
    assert Get(Defaults, "insightsFrequency") == Str("manual");
  }

  /** A stored field overrides its default; a default is kept only where nothing is stored. */
  lemma StoredFieldsOverride(raw: string, parse: string -> Option<Value>, k: string)
    requires raw != "" && parse(raw).Some? && parse(raw).value.Obj?
    ensures var p := Load(Some(raw), true, parse);
      var stored := parse(raw).value.fields;
      && (k in stored ==> k in p && p[k] == stored[k])
      && (k !in stored && k in Defaults ==> k in p && p[k] == Defaults[k])
      && (k in p <==> k in stored || k in Defaults)
  {
  }

  /** A value that `JSON.stringify` writes and `JSON.parse` reads back as itself: no
      `undefined` (dropped from objects, `null` in arrays) and no `Date` (written as a string),
      at any depth. */
  predicate JsonSafe(v: Value) {
    match v
    case Undefined => false
    case Date(_) => false
    case Arr(items) => forall i :: 0 <= i < |items| ==> JsonSafe(items[i])
    case Obj(fields) => forall k :: k in fields ==> JsonSafe(fields[k])
    case _ => true
  }

  predicate JsonSafeRecord(p: Prefs) {
    forall k :: k in p ==> JsonSafe(p[k])
  }

  /** `JSON.parse` only ever yields JSON values, and `JSON.stringify` followed by `JSON.parse`
      gives back a record of JSON values, written as a non-empty text. */
  ghost predicate RoundTrips(parse: string -> Option<Value>, serialize: Prefs -> string) {
    && (forall raw :: parse(raw).Some? ==> JsonSafe(parse(raw).value))
    && (forall p :: JsonSafeRecord(p) ==> serialize(p) != "" && parse(serialize(p)) == Some(Obj(p)))
  }

  /** Under that round trip, the stored preferences hold only JSON values. */
  lemma LoadIsJsonSafe(item: Option<string>, browser: bool, parse: string -> Option<Value>,
                       serialize: Prefs -> string)
    requires RoundTrips(parse, serialize)
    ensures JsonSafeRecord(Load(item, browser, parse))
  {
    if browser && item.Some? && item.value != "" && parse(item.value).Some? {
      var parsed := parse(item.value).value;
      assert JsonSafe(parsed);
      assert JsonSafeRecord(Fields(parsed));
    }
  }

  /** After a save of JSON values, reading the preferences gives the earlier preferences
      overridden by the saved fields. */
  lemma SaveThenLoad(item: Option<string>, prefs: Prefs, parse: string -> Option<Value>, serialize: Prefs -> string)
    requires RoundTrips(parse, serialize)
    requires JsonSafeRecord(prefs)
    ensures var updated := Load(item, true, parse) + prefs;
      Load(Some(serialize(updated)), true, parse) == updated
  {
    var updated := Load(item, true, parse) + prefs;
    LoadIsJsonSafe(item, true, parse, serialize);
    assert JsonSafeRecord(updated);
    assert parse(serialize(updated)) == Some(Obj(updated));
    DefaultsAbsorbed(updated);
  }

  lemma DefaultsAbsorbed(p: Prefs)
    requires forall k :: k in Defaults ==> k in p
    ensures Defaults + p == p
  {
  }

  /** After a reset, reading the preferences gives the defaults. */
  lemma ResetThenLoad(parse: string -> Option<Value>)
    ensures Load(None, true, parse) == Defaults
  {
  }

  /** Daily insights are shown exactly when the assistant is enabled and the frequency is
      "daily", so never with the defaults. */
  lemma ShowDailyMeaning(p: Prefs)
    ensures ShowDaily(p) <==> IsEnabled(p) && Get(p, "insightsFrequency") == Str("daily")
    ensures ShowDaily(p) ==> p != Defaults
  {
    assert Get(Defaults, "insightsFrequency") == Str("manual");
    assert Str("manual") != Str("daily") by {
      assert |"manual"| != |"daily"|;
    }
  }
}
