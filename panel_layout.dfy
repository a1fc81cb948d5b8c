/**
 * src/api/panel_layout.rs: the physical layout of the panels. A panel's
 * record embeds the x/y/o `Position` of src/api/mod.rs with `flatten`, so
 * all five of its keys sit in one flat object.
 */
module ApiPanelLayout {
  import opened Wrappers
  import opened Json
  import opened ApiValues

  /** One panel: its id, its shape, and its x/y/o position (the Rust `Position` of this file). */
  datatype PanelPosition = PanelPosition(panelId: u32, shapeType: u32, pos: Position)

  /** Panel count, side length and the per-panel records; the count is not compared with the records. */
  datatype Layout = Layout(numPanels: u32, sideLength: u32, positionData: seq<PanelPosition>)

  datatype PanelLayout = PanelLayout(layout: Layout, globalOrientation: BoundedValue)

  /** The keys the panel record itself consumes; the rest go to the flattened position. */
  const PanelOwnKeys: set<string> := {"panelId", "shapeType"}
  const PanelPositionKeys: set<string> := {"panelId", "shapeType", "x", "y", "o"}
  const LayoutKeys: set<string> := {"numPanels", "sideLength", "positionData"}
  const PanelLayoutKeys: set<string> := {"layout", "globalOrientation"}

  /**
   * Decodes a panel record. The flattened position is decoded from the
   * entries the record does not consume itself.
   */
  function DecodePanelPosition(j: Json): (r: Option<PanelPosition>)
    ensures r.Some? <==>
      j.JObject? && Decodes(j.fields, "panelId", AsU32) && Decodes(j.fields, "shapeType", AsU32)
      && DecodePosition(JObject(j.fields - PanelOwnKeys)).Some?
    ensures r.Some? ==>
      && Holds(j.fields, "panelId", AsU32, r.value.panelId)
      && Holds(j.fields, "shapeType", AsU32, r.value.shapeType)
      && DecodePosition(JObject(j.fields - PanelOwnKeys)) == Some(r.value.pos)
  {
    match j
    case JObject(m) =>
      var panelId :- Required(m, "panelId", AsU32);
      var shapeType :- Required(m, "shapeType", AsU32);
      var pos :- DecodePosition(JObject(m - PanelOwnKeys));
      Some(PanelPosition(panelId, shapeType, pos))
    case _ => None
  }

  /** The `positionData` value: an array of panel records. */
  function DecodePositionData(j: Json): (r: Option<seq<PanelPosition>>)
    ensures r.Some? <==> IsArrayOf(j, DecodePanelPosition)
    ensures r.Some? ==> ArrayHolds(j, DecodePanelPosition, r.value)
  {
    AsArray(j, DecodePanelPosition)
  }

  /**
   * Decodes a `Layout`: all three keys required; `positionData` element by
   * element, so one bad panel fails the whole layout.
   */
  function DecodeLayout(j: Json): (r: Option<Layout>)
    ensures r.Some? <==>
      j.JObject? && Decodes(j.fields, "numPanels", AsU32) && Decodes(j.fields, "sideLength", AsU32)
      && "positionData" in j.fields && IsArrayOf(j.fields["positionData"], DecodePanelPosition)
    ensures r.Some? ==>
      && Holds(j.fields, "numPanels", AsU32, r.value.numPanels)
      && Holds(j.fields, "sideLength", AsU32, r.value.sideLength)
      && ArrayHolds(j.fields["positionData"], DecodePanelPosition, r.value.positionData)
  {
    match j
    case JObject(m) =>
      var numPanels :- Required(m, "numPanels", AsU32);
      var sideLength :- Required(m, "sideLength", AsU32);
      var positionData :- Required(m, "positionData", DecodePositionData);
      Some(Layout(numPanels, sideLength, positionData))
    case _ => None
  }

  /** Decodes a `PanelLayout`: a `Layout` and a `BoundedValue` under `globalOrientation`. */
  function DecodePanelLayout(j: Json): (r: Option<PanelLayout>)
    ensures r.Some? <==>
      j.JObject? && Decodes(j.fields, "layout", DecodeLayout)
      && Decodes(j.fields, "globalOrientation", DecodeBoundedValue)
    ensures r.Some? ==>
      && Holds(j.fields, "layout", DecodeLayout, r.value.layout)
      && Holds(j.fields, "globalOrientation", DecodeBoundedValue, r.value.globalOrientation)
  {
    match j
    case JObject(m) =>
      var layout :- Required(m, "layout", DecodeLayout);
      var globalOrientation :- Required(m, "globalOrientation", DecodeBoundedValue);
      Some(PanelLayout(layout, globalOrientation))
    case _ => None
  }

  // ---------------------------------------------------------------------
  // Reference wire forms, used to state round trips
  // ---------------------------------------------------------------------

  ghost function PanelPositionJson(p: PanelPosition): Json {
    JObject(map[
      "panelId" := JInt(p.panelId), "shapeType" := JInt(p.shapeType),
      "x" := JInt(p.pos.x), "y" := JInt(p.pos.y), "o" := JInt(p.pos.o)])
  }

  ghost function LayoutJson(l: Layout): Json {
    JObject(map[
      "numPanels" := JInt(l.numPanels),
      "sideLength" := JInt(l.sideLength),
      "positionData" := JArray(EncodeEach(l.positionData, PanelPositionJson))])
  }

  ghost function PanelLayoutJson(p: PanelLayout): Json {
    JObject(map["layout" := LayoutJson(p.layout), "globalOrientation" := BoundedValueJson(p.globalOrientation)])
  }

  // ---------------------------------------------------------------------
  // Properties
  // ---------------------------------------------------------------------

  /**
   * Because of `flatten`, a panel record reads `x`, `y`, `o` from its own
   * flat object: the position is what the x/y/o decoder makes of the whole object.
   */
  lemma {:induction false} PanelPositionIsFlat(j: Json, p: PanelPosition)
    requires DecodePanelPosition(j) == Some(p)
    ensures DecodePosition(j) == Some(p.pos)
  {
    PositionIgnoresOtherKeys(j.fields - PanelOwnKeys, j.fields);
  }

  /** Every panel record is read back from its flat reference wire form, negative coordinates included. */
  lemma {:induction false} PanelPositionRoundTrip(p: PanelPosition)
    ensures DecodePanelPosition(PanelPositionJson(p)) == Some(p)
  {
    var m := PanelPositionJson(p).fields;
    PositionIgnoresOtherKeys(m - PanelOwnKeys, PositionJson(p.pos).fields);
    PositionRoundTrip(p.pos);
  }

  /** Every `Layout` is read back from its reference wire form, panel order and count kept. */
  lemma {:induction false} LayoutRoundTrip(l: Layout)
    ensures DecodeLayout(LayoutJson(l)) == Some(l)
  {
    forall i | 0 <= i < |l.positionData|
      ensures DecodePanelPosition(PanelPositionJson(l.positionData[i])) == Some(l.positionData[i])
    {
      PanelPositionRoundTrip(l.positionData[i]);
    }
    DecodeEachEncodeEach(l.positionData, PanelPositionJson, DecodePanelPosition);
  }

  /** Every `PanelLayout` is read back from its reference wire form. */
  lemma {:induction false} PanelLayoutRoundTrip(p: PanelLayout)
    ensures DecodePanelLayout(PanelLayoutJson(p)) == Some(p)
  {
    LayoutRoundTrip(p.layout);
    BoundedValueRoundTrip(p.globalOrientation);
  }

  /** `numPanels` is never compared with `positionData`: any count decodes beside the same panels. */
  lemma LayoutCountUnchecked(m: Fields, l: Layout, n: u32)
    requires DecodeLayout(JObject(m)) == Some(l)
    ensures DecodeLayout(JObject(m["numPanels" := JInt(n)])) == Some(l.(numPanels := n))
  {
    var m' := m["numPanels" := JInt(n)];
    assert m'["sideLength"] == m["sideLength"] && m'["positionData"] == m["positionData"];
  }

  /** Each of the five keys of a panel record is required. */
  lemma PanelPositionNeedsKeys(j: Json, k: string)
    requires k in PanelPositionKeys && Lacks(j, k)
    ensures DecodePanelPosition(j) == None
  {
    if k !in PanelOwnKeys {
      assert k !in (j.fields - PanelOwnKeys);
    }
  }

  /** Each of `numPanels`, `sideLength`, `positionData` is required. */
  lemma LayoutNeedsKeys(j: Json, k: string)
    requires k in LayoutKeys && Lacks(j, k)
    ensures DecodeLayout(j) == None
  {
  }

  /** Both `layout` and `globalOrientation` are required. */
  lemma PanelLayoutNeedsKeys(j: Json, k: string)
    requires k in PanelLayoutKeys && Lacks(j, k)
    ensures DecodePanelLayout(j) == None
  {
  }

  /** Keys other than the five do not affect a panel record's decode. */
  lemma {:induction false} PanelPositionIgnoresOtherKeys(m1: Fields, m2: Fields)
    requires AgreeOn(m1, m2, PanelPositionKeys)
    ensures DecodePanelPosition(JObject(m1)) == DecodePanelPosition(JObject(m2))
  {
    assert "panelId" in PanelPositionKeys && "shapeType" in PanelPositionKeys;
    assert "x" in PanelPositionKeys && "y" in PanelPositionKeys && "o" in PanelPositionKeys;
    PositionIgnoresOtherKeys(m1 - PanelOwnKeys, m2 - PanelOwnKeys);
  }

  /** Keys other than the three do not affect a layout's decode. */
  lemma LayoutIgnoresOtherKeys(m1: Fields, m2: Fields)
    requires AgreeOn(m1, m2, LayoutKeys)
    ensures DecodeLayout(JObject(m1)) == DecodeLayout(JObject(m2))
  {
    assert "numPanels" in LayoutKeys && "sideLength" in LayoutKeys && "positionData" in LayoutKeys;
  }

  /** Keys other than the two do not affect a panel layout's decode. */
  lemma PanelLayoutIgnoresOtherKeys(m1: Fields, m2: Fields)
    requires AgreeOn(m1, m2, PanelLayoutKeys)
    ensures DecodePanelLayout(JObject(m1)) == DecodePanelLayout(JObject(m2))
  {
    assert "layout" in PanelLayoutKeys && "globalOrientation" in PanelLayoutKeys;
  }
}
