/**
 * src/api/state.rs: the power flag `On`, the one record that is both sent
 * and received, and the `State` snapshot, whose keys are camelCase.
 */
module ApiState {
  import opened Wrappers
  import opened Json
  import opened ApiValues

  datatype On = On(value: bool)

  /** `colorMode` is any string the firmware reports, not a closed set. */
  datatype State = State(
    on: On,
    brightness: BoundedValue,
    hue: BoundedValue,
    sat: BoundedValue,
    ct: BoundedValue,
    colorMode: string)

  const StateKeys: set<string> := {"on", "brightness", "hue", "sat", "ct", "colorMode"}

  /** Encodes `On` as an object whose only key is `value`. */
  function EncodeOn(on: On): (r: Json)
    ensures r.JObject? && r.fields.Keys == {"value"}
    ensures r.fields["value"] == JBool(on.value)
  {
    JObject(map["value" := JBool(on.value)])
  }

  /** Decodes `On`: the key `value` must hold a boolean. */
  function DecodeOn(j: Json): (r: Option<On>)
    ensures r.Some? <==> j.JObject? && Decodes(j.fields, "value", AsBool)
    ensures r.Some? ==> Holds(j.fields, "value", AsBool, r.value.value)
  {
    match j
    case JObject(m) =>
      var value :- Required(m, "value", AsBool);
      Some(On(value))
    case _ => None
  }

  /**
   * Decodes `State`: each of the six keys is required and decodes with its
   * own record decoder; the four bounded readings are not range-checked.
   */
  function DecodeState(j: Json): (r: Option<State>)
    ensures r.Some? <==>
      && j.JObject?
      && Decodes(j.fields, "on", DecodeOn)
      && Decodes(j.fields, "brightness", DecodeBoundedValue)
      && Decodes(j.fields, "hue", DecodeBoundedValue)
      && Decodes(j.fields, "sat", DecodeBoundedValue)
      && Decodes(j.fields, "ct", DecodeBoundedValue)
      && Decodes(j.fields, "colorMode", AsString)
    ensures r.Some? ==>
      && Holds(j.fields, "on", DecodeOn, r.value.on)
      && Holds(j.fields, "brightness", DecodeBoundedValue, r.value.brightness)
      && Holds(j.fields, "hue", DecodeBoundedValue, r.value.hue)
      && Holds(j.fields, "sat", DecodeBoundedValue, r.value.sat)
      && Holds(j.fields, "ct", DecodeBoundedValue, r.value.ct)
      && Holds(j.fields, "colorMode", AsString, r.value.colorMode)
  {
    match j
    case JObject(m) =>
      var on :- Required(m, "on", DecodeOn);
      var brightness :- Required(m, "brightness", DecodeBoundedValue);
      var hue :- Required(m, "hue", DecodeBoundedValue);
      var sat :- Required(m, "sat", DecodeBoundedValue);
      var ct :- Required(m, "ct", DecodeBoundedValue);
      var colorMode :- Required(m, "colorMode", AsString);
      Some(State(on, brightness, hue, sat, ct, colorMode))
    case _ => None
  }

  /** A reference wire form of a `State`. */
  ghost function StateJson(s: State): Json {
    JObject(map[
      "on" := EncodeOn(s.on),
      "brightness" := BoundedValueJson(s.brightness),
      "hue" := BoundedValueJson(s.hue),
      "sat" := BoundedValueJson(s.sat),
      "ct" := BoundedValueJson(s.ct),
      "colorMode" := JString(s.colorMode)])
  }

  /** `On` derives both directions, so decoding its encoding gives it back. */
  lemma OnRoundTrip(on: On)
    ensures DecodeOn(EncodeOn(on)) == Some(on)
  {
  }

  /** Encoding `On` loses nothing: distinct flags give distinct bodies. */
  lemma EncodeOnInjective(a: On, b: On)
    requires EncodeOn(a) == EncodeOn(b)
    ensures a == b
  {
    OnRoundTrip(a);
    OnRoundTrip(b);
  }

  /** Every `State` is read back from its reference wire form, with any `colorMode` string and unchecked bounds. */
  lemma {:induction false} StateRoundTrip(s: State)
    ensures DecodeState(StateJson(s)) == Some(s)
  {
    OnRoundTrip(s.on);
    BoundedValueRoundTrip(s.brightness);
    BoundedValueRoundTrip(s.hue);
    BoundedValueRoundTrip(s.sat);
    BoundedValueRoundTrip(s.ct);
  }

  /** Each of the six keys is required. */
  lemma StateNeedsKeys(j: Json, k: string)
    requires k in StateKeys && Lacks(j, k)
    ensures DecodeState(j) == None
  {
  }

  /** Keys other than the six do not affect the decode. */
  lemma StateIgnoresOtherKeys(m1: Fields, m2: Fields)
    requires AgreeOn(m1, m2, StateKeys)
    ensures DecodeState(JObject(m1)) == DecodeState(JObject(m2))
  {
    assert "on" in StateKeys && "brightness" in StateKeys && "hue" in StateKeys;
    assert "sat" in StateKeys && "ct" in StateKeys && "colorMode" in StateKeys;
  }
}
