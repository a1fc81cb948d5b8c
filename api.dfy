/**
 * src/api/mod.rs, lines 22-34: the full device snapshot returned by the
 * root endpoint. Nine camelCase keys, all required; each nested record
 * decodes through its own decoder.
 */
module NanoLeafApi {
  import opened Wrappers
  import opened Json
  import opened ApiState
  import opened ApiEffects
  import opened ApiPanelLayout
  import opened ApiRhythm

  datatype NanoLeafAPI = NanoLeafAPI(
    name: string,
    serialNo: string,
    manufacturer: string,
    firmwareVersion: string,
    model: string,
    state: State,
    effects: Effects,
    panelLayout: PanelLayout,
    rhythm: Rhythm)

  const NanoLeafAPIKeys: set<string> := {
    "name", "serialNo", "manufacturer", "firmwareVersion", "model",
    "state", "effects", "panelLayout", "rhythm"}

  /** Decodes the snapshot: succeeds iff all nine keys are present and each decodes; one failure fails the whole. */
  function DecodeNanoLeafAPI(j: Json): (r: Option<NanoLeafAPI>)
    ensures r.Some? <==>
      && j.JObject?
      && Decodes(j.fields, "name", AsString)
      && Decodes(j.fields, "serialNo", AsString)
      && Decodes(j.fields, "manufacturer", AsString)
      && Decodes(j.fields, "firmwareVersion", AsString)
      && Decodes(j.fields, "model", AsString)
      && Decodes(j.fields, "state", DecodeState)
      && Decodes(j.fields, "effects", DecodeEffects)
      && Decodes(j.fields, "panelLayout", DecodePanelLayout)
      && Decodes(j.fields, "rhythm", DecodeRhythm)
    ensures r.Some? ==>
      && Holds(j.fields, "name", AsString, r.value.name)
      && Holds(j.fields, "serialNo", AsString, r.value.serialNo)
      && Holds(j.fields, "manufacturer", AsString, r.value.manufacturer)
      && Holds(j.fields, "firmwareVersion", AsString, r.value.firmwareVersion)
      && Holds(j.fields, "model", AsString, r.value.model)
      && Holds(j.fields, "state", DecodeState, r.value.state)
      && Holds(j.fields, "effects", DecodeEffects, r.value.effects)
      && Holds(j.fields, "panelLayout", DecodePanelLayout, r.value.panelLayout)
      && Holds(j.fields, "rhythm", DecodeRhythm, r.value.rhythm)
  {
    match j
    case JObject(m) =>
      var name :- Required(m, "name", AsString);
      var serialNo :- Required(m, "serialNo", AsString);
      var manufacturer :- Required(m, "manufacturer", AsString);
      var firmwareVersion :- Required(m, "firmwareVersion", AsString);
      var model :- Required(m, "model", AsString);
      var state :- Required(m, "state", DecodeState);
      var effects :- Required(m, "effects", DecodeEffects);
      var panelLayout :- Required(m, "panelLayout", DecodePanelLayout);
      var rhythm :- Required(m, "rhythm", DecodeRhythm);
      Some(NanoLeafAPI(name, serialNo, manufacturer, firmwareVersion, model,
                       state, effects, panelLayout, rhythm))
    case _ => None
  }

  /** The snapshot's object, given the wire forms of its four nested records. */
  function NanoLeafAPIObject(a: NanoLeafAPI, state: Json, effects: Json, panelLayout: Json, rhythm: Json): Json {
    JObject(map[
      "name" := JString(a.name),
      "serialNo" := JString(a.serialNo),
      "manufacturer" := JString(a.manufacturer),
      "firmwareVersion" := JString(a.firmwareVersion),
      "model" := JString(a.model),
      "state" := state,
      "effects" := effects,
      "panelLayout" := panelLayout,
      "rhythm" := rhythm])
  }

  /** A reference wire form of the snapshot. */
  ghost function NanoLeafAPIJson(a: NanoLeafAPI): Json {
    NanoLeafAPIObject(a, StateJson(a.state), EffectsJson(a.effects), PanelLayoutJson(a.panelLayout), RhythmJson(a.rhythm))
  }

  /** An object whose nine fields each decode to the snapshot's parts decodes to that snapshot. */
  lemma DecodeNanoLeafAPIOfParts(m: Fields, a: NanoLeafAPI)
    requires Holds(m, "name", AsString, a.name) && Holds(m, "serialNo", AsString, a.serialNo)
    requires Holds(m, "manufacturer", AsString, a.manufacturer)
    requires Holds(m, "firmwareVersion", AsString, a.firmwareVersion) && Holds(m, "model", AsString, a.model)
    requires Holds(m, "state", DecodeState, a.state) && Holds(m, "effects", DecodeEffects, a.effects)
    requires Holds(m, "panelLayout", DecodePanelLayout, a.panelLayout) && Holds(m, "rhythm", DecodeRhythm, a.rhythm)
    ensures DecodeNanoLeafAPI(JObject(m)) == Some(a)
  {
  }

  /** The snapshot's object holds its five header strings. */
  lemma NanoLeafAPIObjectHeader(a: NanoLeafAPI, state: Json, effects: Json, panelLayout: Json, rhythm: Json)
    ensures var m := NanoLeafAPIObject(a, state, effects, panelLayout, rhythm).fields;
      && Holds(m, "name", AsString, a.name) && Holds(m, "serialNo", AsString, a.serialNo)
      && Holds(m, "manufacturer", AsString, a.manufacturer)
      && Holds(m, "firmwareVersion", AsString, a.firmwareVersion) && Holds(m, "model", AsString, a.model)
  {
  }

  /** The snapshot's object holds its four nested records under their keys. */
  lemma NanoLeafAPIObjectRecords(a: NanoLeafAPI, state: Json, effects: Json, panelLayout: Json, rhythm: Json)
    ensures var m := NanoLeafAPIObject(a, state, effects, panelLayout, rhythm).fields;
      && "state" in m && m["state"] == state && "effects" in m && m["effects"] == effects
      && "panelLayout" in m && m["panelLayout"] == panelLayout && "rhythm" in m && m["rhythm"] == rhythm
  {
  }

  /** The snapshot is read back from its object whenever each nested part is read back from its own. */
  lemma DecodeNanoLeafAPIObject(a: NanoLeafAPI, state: Json, effects: Json, panelLayout: Json, rhythm: Json)
    requires DecodeState(state) == Some(a.state) && DecodeEffects(effects) == Some(a.effects)
    requires DecodePanelLayout(panelLayout) == Some(a.panelLayout) && DecodeRhythm(rhythm) == Some(a.rhythm)
    ensures DecodeNanoLeafAPI(NanoLeafAPIObject(a, state, effects, panelLayout, rhythm)) == Some(a)
  {
    NanoLeafAPIObjectHeader(a, state, effects, panelLayout, rhythm);
    NanoLeafAPIObjectRecords(a, state, effects, panelLayout, rhythm);
    DecodeNanoLeafAPIOfParts(NanoLeafAPIObject(a, state, effects, panelLayout, rhythm).fields, a);
  }

  /** Every snapshot is read back from its reference wire form. */
  lemma {:induction false} NanoLeafAPIRoundTrip(a: NanoLeafAPI)
    ensures DecodeNanoLeafAPI(NanoLeafAPIJson(a)) == Some(a)
  {
    StateRoundTrip(a.state);
    EffectsRoundTrip(a.effects);
    PanelLayoutRoundTrip(a.panelLayout);
    RhythmRoundTrip(a.rhythm);
    DecodeNanoLeafAPIObject(a, StateJson(a.state), EffectsJson(a.effects), PanelLayoutJson(a.panelLayout), RhythmJson(a.rhythm));
  }

  /** Each of the nine keys is required: without it the decode fails rather than defaulting. */
  lemma NanoLeafAPINeedsKeys(j: Json, k: string)
    requires k in NanoLeafAPIKeys && Lacks(j, k)
    ensures DecodeNanoLeafAPI(j) == None
  {
  }

  /** A nested record that fails to decode fails the whole snapshot. */
  lemma NanoLeafAPINestedFailure(j: Json)
    requires j.JObject?
    requires || ("state" in j.fields && DecodeState(j.fields["state"]).None?)
             || ("effects" in j.fields && DecodeEffects(j.fields["effects"]).None?)
             || ("panelLayout" in j.fields && DecodePanelLayout(j.fields["panelLayout"]).None?)
             || ("rhythm" in j.fields && DecodeRhythm(j.fields["rhythm"]).None?)
    ensures DecodeNanoLeafAPI(j) == None
  {
  }

  /** Keys other than the nine do not affect the decode. */
  lemma NanoLeafAPIIgnoresOtherKeys(m1: Fields, m2: Fields)
    requires AgreeOn(m1, m2, NanoLeafAPIKeys)
    ensures DecodeNanoLeafAPI(JObject(m1)) == DecodeNanoLeafAPI(JObject(m2))
  {
    var keys := NanoLeafAPIKeys;
    RequiredAgree(m1, m2, keys, "name", AsString);
    RequiredAgree(m1, m2, keys, "serialNo", AsString);
    RequiredAgree(m1, m2, keys, "manufacturer", AsString);
    RequiredAgree(m1, m2, keys, "firmwareVersion", AsString);
    RequiredAgree(m1, m2, keys, "model", AsString);
    RequiredAgree(m1, m2, keys, "state", DecodeState);
    RequiredAgree(m1, m2, keys, "effects", DecodeEffects);
    RequiredAgree(m1, m2, keys, "panelLayout", DecodePanelLayout);
    RequiredAgree(m1, m2, keys, "rhythm", DecodeRhythm);
  }
}
