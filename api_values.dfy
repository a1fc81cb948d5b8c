/**
 * The two plain records of src/api/mod.rs shared by the other decoders:
 * a bounded scalar and an x/y/o position. Neither declares a `rename_all`,
 * so their wire keys are the field names.
 */
module ApiValues {
  import opened Wrappers
  import opened Json

  /** A reading with its bounds; the device's `min <= value <= max` is not checked. */
  datatype BoundedValue = BoundedValue(value: u32, max: u32, min: u32)

  /** Coordinates and orientation, all signed. */
  datatype Position = Position(x: i32, y: i32, o: i32)

  const BoundedValueKeys: set<string> := {"value", "max", "min"}
  const PositionKeys: set<string> := {"x", "y", "o"}

  /** Decodes a `BoundedValue`: three unsigned 32-bit integers, in any relation to each other. */
  function DecodeBoundedValue(j: Json): (r: Option<BoundedValue>)
    ensures r.Some? <==>
      j.JObject? && Decodes(j.fields, "value", AsU32) && Decodes(j.fields, "max", AsU32)
      && Decodes(j.fields, "min", AsU32)
    ensures r.Some? ==>
      && Holds(j.fields, "value", AsU32, r.value.value)
      && Holds(j.fields, "max", AsU32, r.value.max)
      && Holds(j.fields, "min", AsU32, r.value.min)
  {
    match j
    case JObject(m) =>
      var value :- Required(m, "value", AsU32);
      var max :- Required(m, "max", AsU32);
      var min :- Required(m, "min", AsU32);
      Some(BoundedValue(value, max, min))
    case _ => None
  }

  /** Decodes a `Position`: three signed 32-bit integers, negatives included. */
  function DecodePosition(j: Json): (r: Option<Position>)
    ensures r.Some? <==>
      j.JObject? && Decodes(j.fields, "x", AsI32) && Decodes(j.fields, "y", AsI32)
      && Decodes(j.fields, "o", AsI32)
    ensures r.Some? ==>
      && Holds(j.fields, "x", AsI32, r.value.x)
      && Holds(j.fields, "y", AsI32, r.value.y)
      && Holds(j.fields, "o", AsI32, r.value.o)
  {
    match j
    case JObject(m) =>
      var x :- Required(m, "x", AsI32);
      var y :- Required(m, "y", AsI32);
      var o :- Required(m, "o", AsI32);
      Some(Position(x, y, o))
    case _ => None
  }

  /** A reference wire form of a `BoundedValue`. */
  ghost function BoundedValueJson(v: BoundedValue): Json {
    JObject(map["value" := JInt(v.value), "max" := JInt(v.max), "min" := JInt(v.min)])
  }

  /** A reference wire form of a `Position`. */
  ghost function PositionJson(p: Position): Json {
    JObject(map["x" := JInt(p.x), "y" := JInt(p.y), "o" := JInt(p.o)])
  }

  /** Every `BoundedValue` is read back from its reference wire form, whatever the order of value, min and max. */
  lemma BoundedValueRoundTrip(v: BoundedValue)
    ensures DecodeBoundedValue(BoundedValueJson(v)) == Some(v)
  {
  }

  /** Every `Position` is read back from its reference wire form, negative coordinates included. */
  lemma PositionRoundTrip(p: Position)
    ensures DecodePosition(PositionJson(p)) == Some(p)
  {
  }

  /** Each of `value`, `max`, `min` is required. */
  lemma BoundedValueNeedsKeys(j: Json, k: string)
    requires k in BoundedValueKeys && Lacks(j, k)
    ensures DecodeBoundedValue(j) == None
  {
  }

  /** Each of `x`, `y`, `o` is required. */
  lemma PositionNeedsKeys(j: Json, k: string)
    requires k in PositionKeys && Lacks(j, k)
    ensures DecodePosition(j) == None
  {
  }

  /** Keys other than `value`, `max`, `min` do not affect the decode. */
  lemma BoundedValueIgnoresOtherKeys(m1: Fields, m2: Fields)
    requires AgreeOn(m1, m2, BoundedValueKeys)
    ensures DecodeBoundedValue(JObject(m1)) == DecodeBoundedValue(JObject(m2))
  {
    assert "value" in BoundedValueKeys && "max" in BoundedValueKeys && "min" in BoundedValueKeys;
  }

  /** Keys other than `x`, `y`, `o` do not affect the decode. */
  lemma PositionIgnoresOtherKeys(m1: Fields, m2: Fields)
    requires AgreeOn(m1, m2, PositionKeys)
    ensures DecodePosition(JObject(m1)) == DecodePosition(JObject(m2))
  {
    assert "x" in PositionKeys && "y" in PositionKeys && "o" in PositionKeys;
  }
}
