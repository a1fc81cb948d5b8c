/**
 * src/color.rs: a palette colour, three unsigned integers serialised under
 * their own field names.
 */
module Color {
  import opened Json

  /** Hue, saturation and brightness; the device's ranges are not enforced here. */
  datatype NanoLeafColor = NanoLeafColor(hue: u32, saturation: u32, brightness: u32)

  const ColorKeys: set<string> := {"hue", "saturation", "brightness"}

  /** `NanoLeafColor::new`: takes any triple and keeps each component unchanged, in order. */
  function New(hue: u32, saturation: u32, brightness: u32): (c: NanoLeafColor)
    ensures c.hue == hue && c.saturation == saturation && c.brightness == brightness
  {
    NanoLeafColor(hue, saturation, brightness)
  }

  /** The derived encoder: exactly the keys `hue`, `saturation`, `brightness`, each holding its component. */
  function EncodeColor(c: NanoLeafColor): (r: Json)
    ensures r.JObject? && r.fields.Keys == ColorKeys
    ensures r.fields["hue"] == JInt(c.hue)
    ensures r.fields["saturation"] == JInt(c.saturation)
    ensures r.fields["brightness"] == JInt(c.brightness)
  {
    JObject(map["hue" := JInt(c.hue), "saturation" := JInt(c.saturation), "brightness" := JInt(c.brightness)])
  }

  /** Encoding a colour loses nothing: distinct colours give distinct objects. */
  lemma EncodeColorInjective(a: NanoLeafColor, b: NanoLeafColor)
    requires EncodeColor(a) == EncodeColor(b)
    ensures a == b
  {
    assert EncodeColor(a).fields["hue"] == EncodeColor(b).fields["hue"];
    assert EncodeColor(a).fields["saturation"] == EncodeColor(b).fields["saturation"];
    assert EncodeColor(a).fields["brightness"] == EncodeColor(b).fields["brightness"];
  }
}
