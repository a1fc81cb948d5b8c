/**
 * src/api/effects.rs: the `Effects` record read from the device, and the
 * write-side `EffectDetails` payload with its `PluginOption` tagged union.
 */
module ApiEffects {
  import opened Wrappers
  import opened Json
  import opened Color

  /** The selected effect and every effect name, in the device's order. */
  datatype Effects = Effects(select: string, effectsList: seq<string>)

  /** Playback parameters of a plugin effect; the direction string is not validated. */
  datatype PluginOption =
    | TransTime(time: u32)
    | DelayTime(delay: u32)
    | LinDirection(direction: string)
    | Loop(looping: bool)

  /** A full new-effect payload; constructed for one request, never parsed. */
  datatype EffectDetails = EffectDetails(
    command: string,
    version: string,
    animType: string,
    animName: string,
    colorType: string,
    pluginUuid: string,
    pluginType: string,
    pluginOptions: seq<PluginOption>,
    palette: seq<NanoLeafColor>,
    hasOverlay: bool)

  const EffectsKeys: set<string> := {"select", "effectsList"}

  const PluginOptionKeys: set<string> := {"name", "value"}

  const EffectDetailsKeys: set<string> := {
    "command", "version", "animType", "animName", "colorType",
    "pluginUuid", "pluginType", "pluginOptions", "palette", "hasOverlay"}

  // ---------------------------------------------------------------------
  // Effects (read)
  // ---------------------------------------------------------------------

  /** The `effectsList` value: an array of strings. */
  function DecodeEffectNames(j: Json): (r: Option<seq<string>>)
    ensures r.Some? <==> IsArrayOf(j, AsString)
    ensures r.Some? ==> ArrayHolds(j, AsString, r.value)
  {
    AsArray(j, AsString)
  }

  /** Decodes `Effects`: `select` must be a string and `effectsList` an array of strings. */
  function DecodeEffects(j: Json): (r: Option<Effects>)
    ensures r.Some? <==>
      j.JObject? && Decodes(j.fields, "select", AsString)
      && "effectsList" in j.fields && IsArrayOf(j.fields["effectsList"], AsString)
    ensures r.Some? ==>
      && Holds(j.fields, "select", AsString, r.value.select)
      && ArrayHolds(j.fields["effectsList"], AsString, r.value.effectsList)
  {
    match j
    case JObject(m) =>
      var select :- Required(m, "select", AsString);
      var effectsList :- Required(m, "effectsList", DecodeEffectNames);
      Some(Effects(select, effectsList))
    case _ => None
  }

  /** A reference wire form of `Effects`. */
  ghost function EffectsJson(e: Effects): Json {
    JObject(map[
      "select" := JString(e.select),
      "effectsList" := JArray(EncodeEach(e.effectsList, s => JString(s)))])
  }

  /** The decoded list is the wire array's strings, same length, same order. */
  lemma EffectsListKeepsOrder(j: Json, e: Effects)
    requires DecodeEffects(j) == Some(e)
    ensures "effectsList" in j.fields && j.fields["effectsList"].JArray?
    ensures |j.fields["effectsList"].items| == |e.effectsList|
    ensures forall i :: 0 <= i < |e.effectsList| ==> j.fields["effectsList"].items[i] == JString(e.effectsList[i])
  {
    var items := j.fields["effectsList"].items;
    forall i | 0 <= i < |e.effectsList| ensures items[i] == JString(e.effectsList[i]) {
      assert AsString(items[i]) == Some(e.effectsList[i]);
    }
  }

  /** Every `Effects` value is read back from its reference wire form. */
  lemma {:induction false} EffectsRoundTrip(e: Effects)
    ensures DecodeEffects(EffectsJson(e)) == Some(e)
  {
    var enc := (s: string) => JString(s);
    DecodeEachEncodeEach(e.effectsList, enc, AsString);
  }

  /** Both keys are required. */
  lemma EffectsNeedsKeys(j: Json, k: string)
    requires k in EffectsKeys && Lacks(j, k)
    ensures DecodeEffects(j) == None
  {
  }

  /** Keys other than `select` and `effectsList` do not affect the decode. */
  lemma EffectsIgnoresOtherKeys(m1: Fields, m2: Fields)
    requires AgreeOn(m1, m2, EffectsKeys)
    ensures DecodeEffects(JObject(m1)) == DecodeEffects(JObject(m2))
  {
    assert "select" in EffectsKeys && "effectsList" in EffectsKeys;
  }

  // ---------------------------------------------------------------------
  // PluginOption (write): adjacently tagged, `name` holds the camelCase
  // variant name and `value` its payload.
  // ---------------------------------------------------------------------

  /** The wire name of each variant. */
  function OptionName(o: PluginOption): (name: string)
    ensures o.TransTime? <==> name == "transTime"
    ensures o.DelayTime? <==> name == "delayTime"
    ensures o.LinDirection? <==> name == "linDirection"
    ensures o.Loop? <==> name == "loop"
  {
    match o
    case TransTime(_) => "transTime"
    case DelayTime(_) => "delayTime"
    case LinDirection(_) => "linDirection"
    case Loop(_) => "loop"
  }

  /** The payload: an integer for the two times, the bare string for the direction, a boolean for the loop flag. */
  function OptionPayload(o: PluginOption): (value: Json)
    ensures o.TransTime? ==> value == JInt(o.time)
    ensures o.DelayTime? ==> value == JInt(o.delay)
    ensures o.LinDirection? ==> value == JString(o.direction)
    ensures o.Loop? ==> value == JBool(o.looping)
  {
    match o
    case TransTime(t) => JInt(t)
    case DelayTime(d) => JInt(d)
    case LinDirection(s) => JString(s)
    case Loop(b) => JBool(b)
  }

  /** Encodes an option as an object with exactly the keys `name` and `value`. */
  function EncodePluginOption(o: PluginOption): (r: Json)
    ensures r.JObject? && r.fields.Keys == PluginOptionKeys
    ensures r.fields["name"] == JString(OptionName(o))
    ensures r.fields["value"] == OptionPayload(o)
  {
    JObject(map["name" := JString(OptionName(o)), "value" := OptionPayload(o)])
  }

  /** Encoding an option loses nothing: the name fixes the variant and the value its payload. */
  lemma EncodePluginOptionInjective(a: PluginOption, b: PluginOption)
    requires EncodePluginOption(a) == EncodePluginOption(b)
    ensures a == b
  {
    assert JString(OptionName(a)) == JString(OptionName(b));
    assert OptionPayload(a) == OptionPayload(b);
  }

  // ---------------------------------------------------------------------
  // EffectDetails (write)
  // ---------------------------------------------------------------------

  /**
   * Encodes a new-effect payload as an object with exactly ten camelCase
   * keys; the options and the palette are encoded element-wise, in order.
   */
  function EncodeEffectDetails(d: EffectDetails): (r: Json)
    ensures r.JObject? && r.fields.Keys == EffectDetailsKeys
    ensures r.fields["command"] == JString(d.command)
    ensures r.fields["version"] == JString(d.version)
    ensures r.fields["animType"] == JString(d.animType)
    ensures r.fields["animName"] == JString(d.animName)
    ensures r.fields["colorType"] == JString(d.colorType)
    ensures r.fields["pluginUuid"] == JString(d.pluginUuid)
    ensures r.fields["pluginType"] == JString(d.pluginType)
    ensures r.fields["hasOverlay"] == JBool(d.hasOverlay)
  {
    JObject(map[
      "command" := JString(d.command),
      "version" := JString(d.version),
      "animType" := JString(d.animType),
      "animName" := JString(d.animName),
      "colorType" := JString(d.colorType),
      "pluginUuid" := JString(d.pluginUuid),
      "pluginType" := JString(d.pluginType),
      "pluginOptions" := JArray(EncodeEach(d.pluginOptions, EncodePluginOption)),
      "palette" := JArray(EncodeEach(d.palette, EncodeColor)),
      "hasOverlay" := JBool(d.hasOverlay)])
  }

  /** The payload's options and palette are the caller's, element by element, in order. */
  lemma EncodeEffectDetailsLists(d: EffectDetails)
    ensures var f := EncodeEffectDetails(d).fields;
      && f["pluginOptions"].JArray? && |f["pluginOptions"].items| == |d.pluginOptions|
      && (forall i :: 0 <= i < |d.pluginOptions| ==> f["pluginOptions"].items[i] == EncodePluginOption(d.pluginOptions[i]))
      && f["palette"].JArray? && |f["palette"].items| == |d.palette|
      && (forall i :: 0 <= i < |d.palette| ==> f["palette"].items[i] == EncodeColor(d.palette[i]))
  {
  }

  /** Encoding a payload loses nothing: equal bodies come from equal payloads. */
  lemma {:induction false} EncodeEffectDetailsInjective(a: EffectDetails, b: EffectDetails)
    requires EncodeEffectDetails(a) == EncodeEffectDetails(b)
    ensures a == b
  {
    var fa, fb := EncodeEffectDetails(a).fields, EncodeEffectDetails(b).fields;
    assert fa["command"] == fb["command"] && fa["version"] == fb["version"];
    assert fa["animType"] == fb["animType"] && fa["animName"] == fb["animName"];
    assert fa["colorType"] == fb["colorType"] && fa["pluginUuid"] == fb["pluginUuid"];
    assert fa["pluginType"] == fb["pluginType"] && fa["hasOverlay"] == fb["hasOverlay"];
    assert fa["pluginOptions"] == fb["pluginOptions"] && fa["palette"] == fb["palette"];
    forall x, y | EncodePluginOption(x) == EncodePluginOption(y) ensures x == y {
      EncodePluginOptionInjective(x, y);
    }
    forall x, y | EncodeColor(x) == EncodeColor(y) ensures x == y {
      EncodeColorInjective(x, y);
    }
    EncodeEachInjective(a.pluginOptions, b.pluginOptions, EncodePluginOption);
    EncodeEachInjective(a.palette, b.palette, EncodeColor);
  }
}
