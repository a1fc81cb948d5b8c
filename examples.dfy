/**
 * The expected requests and responses of the tests in src/lib.rs, stated
 * over the model: the device document the `info` test serves, the exact
 * bodies the mock server expects, and the results the tests check.
 */
module Examples {
  import opened Wrappers
  import opened Json
  import opened Color
  import opened ApiValues
  import opened ApiState
  import opened ApiEffects
  import opened ApiPanelLayout
  import opened ApiRhythm
  import opened NanoLeafApi
  import opened Client

  function Bounded(value: int, max: int, min: int): Json {
    JObject(map["value" := JInt(value), "max" := JInt(max), "min" := JInt(min)])
  }

  const TestState: Json := JObject(map[
    "on" := JObject(map["value" := JBool(false)]),
    "brightness" := Bounded(100, 100, 0),
    "hue" := Bounded(0, 360, 0),
    "sat" := Bounded(0, 100, 0),
    "ct" := Bounded(4000, 100, 0),
    "colorMode" := JString("effect")])

  const TestEffectNames: seq<string> := [
    "Color Burst", "Flames", "Forest", "Inner Peace",
    "Nemo", "Northern Lights", "Romantic", "Snowfall"]

  const TestEffects: Json := JObject(map[
    "select" := JString("Flames"),
    "effectsList" := JArray([
      JString("Color Burst"), JString("Flames"), JString("Forest"), JString("Inner Peace"),
      JString("Nemo"), JString("Northern Lights"), JString("Romantic"), JString("Snowfall")])])

  const TestPanel1: Json := JObject(map[
    "panelId" := JInt(107), "x" := JInt(-74), "y" := JInt(43), "o" := JInt(180), "shapeType" := JInt(0)])

  const TestPanel2: Json := JObject(map[
    "panelId" := JInt(114), "x" := JInt(-149), "y" := JInt(0), "o" := JInt(360), "shapeType" := JInt(0)])

  const TestPanelLayout: Json := JObject(map[
    "layout" := JObject(map[
      "numPanels" := JInt(2),
      "sideLength" := JInt(150),
      "positionData" := JArray([TestPanel1, TestPanel2])]),
    "globalOrientation" := Bounded(120, 360, 0)])

  const TestRhythm: Json := JObject(map[
    "rhythmConnected" := JBool(true),
    "rhythmActive" := JBool(true),
    "rhythmId" := JInt(309),
    "hardwareVersion" := JString("1.4"),
    "firmwareVersion" := JString("1.7-R"),
    "auxAvailable" := JBool(true),
    "rhythmMode" := JInt(1),
    "rhythmPos" := JObject(map["x" := JInt(299), "y" := JInt(-86), "o" := JInt(300)])])

  /** The document the `info` test serves. */
  const TestDocument: Json := JObject(map[
    "name" := JString("Light Panels Name"),
    "serialNo" := JString("S16331A0217"),
    "manufacturer" := JString("Nanoleaf"),
    "firmwareVersion" := JString("1.5.0"),
    "model" := JString("NL22"),
    "state" := TestState,
    "effects" := TestEffects,
    "panelLayout" := TestPanelLayout,
    "rhythm" := TestRhythm])

  /** The test's state decodes, `ct` included although its value 4000 exceeds its max 100. */
  lemma TestStateDecodes()
    ensures DecodeState(TestState) == Some(State(
      On(false), BoundedValue(100, 100, 0), BoundedValue(0, 360, 0),
      BoundedValue(0, 100, 0), BoundedValue(4000, 100, 0), "effect"))
  {
    var m := TestState.fields;
    assert DecodeOn(m["on"]) == Some(On(false));
    assert DecodeBoundedValue(m["brightness"]) == Some(BoundedValue(100, 100, 0));
    assert DecodeBoundedValue(m["hue"]) == Some(BoundedValue(0, 360, 0));
    assert DecodeBoundedValue(m["sat"]) == Some(BoundedValue(0, 100, 0));
    assert DecodeBoundedValue(m["ct"]) == Some(BoundedValue(4000, 100, 0));
  }

  /** The test's effect list decodes with its eight names in wire order. */
  lemma TestEffectsDecodes()
    ensures DecodeEffects(TestEffects) == Some(Effects("Flames", TestEffectNames))
  {
    var items := TestEffects.fields["effectsList"].items;
    forall i | 0 <= i < |items| ensures AsString(items[i]) == Some(TestEffectNames[i]) {
      assert items[i] == JString(TestEffectNames[i]);
    }
    var r := DecodeEach(items, AsString);
    assert r.value == TestEffectNames;
  }

  /** The test's two panel records decode, negative coordinates included. */
  lemma TestPanelsDecode()
    ensures DecodePanelPosition(TestPanel1) == Some(PanelPosition(107, 0, Position(-74, 43, 180)))
    ensures DecodePanelPosition(TestPanel2) == Some(PanelPosition(114, 0, Position(-149, 0, 360)))
  {
    var p1 := PanelPosition(107, 0, Position(-74, 43, 180));
    var p2 := PanelPosition(114, 0, Position(-149, 0, 360));
    PanelPositionRoundTrip(p1);
    assert PanelPositionJson(p1) == TestPanel1;
    PanelPositionRoundTrip(p2);
    assert PanelPositionJson(p2) == TestPanel2;
  }

  /** The test's `positionData` array decodes to its two panels, in wire order. */
  lemma TestPositionDataDecodes()
    ensures DecodePositionData(JArray([TestPanel1, TestPanel2])) == Some([
      PanelPosition(107, 0, Position(-74, 43, 180)),
      PanelPosition(114, 0, Position(-149, 0, 360))])
  {
    var ps := [PanelPosition(107, 0, Position(-74, 43, 180)), PanelPosition(114, 0, Position(-149, 0, 360))];
    var items := [TestPanel1, TestPanel2];
    TestPanelsDecode();
    assert forall i :: 0 <= i < 2 ==> DecodePanelPosition(items[i]) == Some(ps[i]);
    assert DecodeEach(items, DecodePanelPosition).value == ps;
  }

  /** The test's layout decodes: two panels, side length 150. */
  lemma TestLayoutDecodes()
    ensures DecodeLayout(TestPanelLayout.fields["layout"]) == Some(Layout(2, 150, [
      PanelPosition(107, 0, Position(-74, 43, 180)),
      PanelPosition(114, 0, Position(-149, 0, 360))]))
  {
    TestPositionDataDecodes();
    assert TestPanelLayout.fields["layout"].fields["positionData"] == JArray([TestPanel1, TestPanel2]);
  }

  /** The test's panel layout decodes, with global orientation 120 of 360. */
  lemma TestPanelLayoutDecodes()
    ensures DecodePanelLayout(TestPanelLayout) == Some(PanelLayout(
      Layout(2, 150, [
        PanelPosition(107, 0, Position(-74, 43, 180)),
        PanelPosition(114, 0, Position(-149, 0, 360))]),
      BoundedValue(120, 360, 0)))
  {
    TestLayoutDecodes();
  }

  /** The test's rhythm module decodes with every optional field present. */
  lemma TestRhythmDecodes()
    ensures DecodeRhythm(TestRhythm) == Some(Rhythm(
      true, Some(true), Some(309), Some("1.4"), Some("1.7-R"), Some(true), Some(1), Some(Position(299, -86, 300))))
  {
    var m := TestRhythm.fields;
    assert DecodePosition(m["rhythmPos"]) == Some(Position(299, -86, 300));
    DecodeRhythmOfParts(m, Rhythm(
      true, Some(true), Some(309), Some("1.4"), Some("1.7-R"), Some(true), Some(1), Some(Position(299, -86, 300))));
  }

  /** The snapshot the test's document describes. */
  const TestSnapshot: NanoLeafAPI := NanoLeafAPI(
    "Light Panels Name", "S16331A0217", "Nanoleaf", "1.5.0", "NL22",
    State(On(false), BoundedValue(100, 100, 0), BoundedValue(0, 360, 0),
          BoundedValue(0, 100, 0), BoundedValue(4000, 100, 0), "effect"),
    Effects("Flames", TestEffectNames),
    PanelLayout(
      Layout(2, 150, [
        PanelPosition(107, 0, Position(-74, 43, 180)),
        PanelPosition(114, 0, Position(-149, 0, 360))]),
      BoundedValue(120, 360, 0)),
    Rhythm(true, Some(true), Some(309), Some("1.4"), Some("1.7-R"), Some(true), Some(1), Some(Position(299, -86, 300))))

  /** The name, serial number and manufacturer of the test document. */
  lemma TestDocumentIdentity()
    ensures Holds(TestDocument.fields, "name", AsString, TestSnapshot.name)
    ensures Holds(TestDocument.fields, "serialNo", AsString, TestSnapshot.serialNo)
    ensures Holds(TestDocument.fields, "manufacturer", AsString, TestSnapshot.manufacturer)
  {
  }

  /** The firmware version and model of the test document. */
  lemma TestDocumentFirmware()
    ensures Holds(TestDocument.fields, "firmwareVersion", AsString, TestSnapshot.firmwareVersion)
    ensures Holds(TestDocument.fields, "model", AsString, TestSnapshot.model)
  {
  }

  /** The state record of the test document. */
  lemma TestDocumentState()
    ensures Holds(TestDocument.fields, "state", DecodeState, TestSnapshot.state)
  {
    TestStateDecodes();
    assert TestDocument.fields["state"] == TestState;
  }

  /** The effects record of the test document. */
  lemma TestDocumentEffects()
    ensures Holds(TestDocument.fields, "effects", DecodeEffects, TestSnapshot.effects)
  {
    TestEffectsDecodes();
    assert TestDocument.fields["effects"] == TestEffects;
  }

  /** The panel layout record of the test document. */
  lemma TestDocumentLayout()
    ensures Holds(TestDocument.fields, "panelLayout", DecodePanelLayout, TestSnapshot.panelLayout)
  {
    TestPanelLayoutDecodes();
    assert TestDocument.fields["panelLayout"] == TestPanelLayout;
  }

  /** The rhythm record of the test document. */
  lemma TestDocumentRhythm()
    ensures Holds(TestDocument.fields, "rhythm", DecodeRhythm, TestSnapshot.rhythm)
  {
    TestRhythmDecodes();
    assert TestDocument.fields["rhythm"] == TestRhythm;
  }

  /** The whole test document decodes to that snapshot. */
  lemma TestDocumentDecodes()
    ensures DecodeNanoLeafAPI(TestDocument) == Some(TestSnapshot)
  {
    TestDocumentIdentity();
    TestDocumentFirmware();
    TestDocumentState();
    TestDocumentEffects();
    TestDocumentLayout();
    TestDocumentRhythm();
    DecodeNanoLeafAPIOfParts(TestDocument.fields, TestSnapshot);
  }

  /** `get_info_test`, the request: a GET of the root `/api/v1/TOKEN/` without a body. */
  lemma GetInfoRequestTest(uri: string)
    ensures InfoRequest(Client.New("TOKEN", uri)) == Request(Get, uri + "/api/v1/TOKEN/", None)
  {
    NewApi("TOKEN", uri, "");
  }

  /** `get_info_test`, the outcome: the served document decodes, with serial number S16331A0217. */
  lemma GetInfoTest(text: string)
    ensures InfoOutcome(Delivered(200, text, Some(TestDocument))) == Ok(TestSnapshot)
    ensures TestSnapshot.serialNo == "S16331A0217"
  {
    TestDocumentDecodes();
  }

  /** `put_on_test`: `on(true)` PUTs `{"on": {"value": true}}` to `/api/v1/TOKEN/state/on` and returns the empty response text. */
  lemma PutOnTest(uri: string)
    ensures OnRequest(Client.New("TOKEN", uri), true)
         == Request(Put, uri + "/api/v1/TOKEN/state/on", Some(JObject(map["on" := JObject(map["value" := JBool(true)])])))
    ensures TextOutcome(Delivered(200, "", None)) == Ok("")
  {
    NewApi("TOKEN", uri, "state/on");
  }

  /** `get_select_test`: `select(None)` GETs `/api/v1/TOKEN/effects/select` and returns the served string. */
  lemma GetSelectTest(uri: string)
    ensures SelectRequest(Client.New("TOKEN", uri), None) == Request(Get, uri + "/api/v1/TOKEN/effects/select", None)
    ensures SelectOutcome(None, Delivered(200, "\"Solid\"", Some(JString("Solid")))) == Ok(Some("Solid"))
  {
    NewApi("TOKEN", uri, "effects/select");
  }

  /** The palette of the wheel test. */
  const TestPalette: seq<NanoLeafColor> := [Color.New(0, 100, 100), Color.New(120, 100, 100), Color.New(240, 100, 100)]

  /** The `write` object the mock server of the wheel test expects (keys in the encoder's order; an object's key order carries no meaning). */
  const ExpectedWheelWrite: Json := JObject(map[
    "command" := JString("add"),
    "version" := JString("2.0"),
    "animType" := JString("plugin"),
    "animName" := JString("My Animation"),
    "colorType" := JString("HSB"),
    "pluginUuid" := JString("027842e4-e1d6-4a4c-a731-be74a1ebd4cf"),
    "pluginType" := JString("color"),
    "pluginOptions" := JArray([
      JObject(map["name" := JString("transTime"), "value" := JInt(24)]),
      JObject(map["name" := JString("delayTime"), "value" := JInt(0)]),
      JObject(map["name" := JString("linDirection"), "value" := JString("right")]),
      JObject(map["name" := JString("loop"), "value" := JBool(true)])]),
    "palette" := JArray([
      JObject(map["hue" := JInt(0), "saturation" := JInt(100), "brightness" := JInt(100)]),
      JObject(map["hue" := JInt(120), "saturation" := JInt(100), "brightness" := JInt(100)]),
      JObject(map["hue" := JInt(240), "saturation" := JInt(100), "brightness" := JInt(100)])]),
    "hasOverlay" := JBool(false)])

  /** The palette on the wire: each colour as its three-key object, in order. */
  lemma TestPaletteWire()
    ensures EncodeEach(TestPalette, EncodeColor) == ExpectedWheelWrite.fields["palette"].items
  {
    var e := EncodeEach(TestPalette, EncodeColor);
    assert e[0] == EncodeColor(NanoLeafColor(0, 100, 100));
    assert e[1] == EncodeColor(NanoLeafColor(120, 100, 100));
    assert e[2] == EncodeColor(NanoLeafColor(240, 100, 100));
  }

  /** The `write` object the wheel test sends is exactly the one its mock server expects. */
  lemma WheelWriteTest()
    ensures WheelWrite("My Animation", TestPalette) == ExpectedWheelWrite
  {
    WheelPluginOptionsWire();
    TestPaletteWire();
  }

  /** `put_wheel_effect`, the target: the `effects` endpoint that `AddWheelEffectRequest` PUTs to is `/api/v1/TOKEN/effects`. */
  lemma PutWheelEffectTarget(uri: string)
    ensures Api(Client.New("TOKEN", uri), "effects") == uri + "/api/v1/TOKEN/effects"
  {
    NewApi("TOKEN", uri, "effects");
  }

  /** `put_wheel_effect`, the body: exactly `{"write": ...}` with the expected object, whatever the client. */
  lemma PutWheelEffectTest(c: NanoLeafClient)
    ensures AddWheelEffectRequest(c, "My Animation", TestPalette).body == Some(JObject(map["write" := ExpectedWheelWrite]))
  {
    WheelWriteTest();
  }
}
