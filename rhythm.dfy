/**
 * src/api/rhythm.rs: the status of the optional sound module. Only
 * `rhythmConnected` is required; every other field is an `Option`, so a
 * missing key (or an explicit null) decodes to `None`, never to a failure.
 */
module ApiRhythm {
  import opened Wrappers
  import opened Json
  import opened ApiValues

  datatype Rhythm = Rhythm(
    rhythmConnected: bool,
    rhythmActive: Option<bool>,
    rhythmId: Option<u32>,
    hardwareVersion: Option<string>,
    firmwareVersion: Option<string>,
    auxAvailable: Option<bool>,
    rhythmMode: Option<u32>,
    rhythmPos: Option<Position>)

  const RhythmKeys: set<string> := {
    "rhythmConnected", "rhythmActive", "rhythmId", "hardwareVersion",
    "firmwareVersion", "auxAvailable", "rhythmMode", "rhythmPos"}

  const RhythmOptionalKeys: set<string> := RhythmKeys - {"rhythmConnected"}

  /**
   * Decodes `Rhythm`: `rhythmConnected` must be a boolean; each optional
   * field, when present and not null, must decode, and `rhythmPos` uses the
   * plain x/y/o decoder.
   */
  function DecodeRhythm(j: Json): (r: Option<Rhythm>)
    ensures r.Some? <==>
      && j.JObject?
      && Decodes(j.fields, "rhythmConnected", AsBool)
      && Optional(j.fields, "rhythmActive", AsBool).Some?
      && Optional(j.fields, "rhythmId", AsU32).Some?
      && Optional(j.fields, "hardwareVersion", AsString).Some?
      && Optional(j.fields, "firmwareVersion", AsString).Some?
      && Optional(j.fields, "auxAvailable", AsBool).Some?
      && Optional(j.fields, "rhythmMode", AsU32).Some?
      && Optional(j.fields, "rhythmPos", DecodePosition).Some?
    ensures r.Some? ==>
      && Holds(j.fields, "rhythmConnected", AsBool, r.value.rhythmConnected)
      && HoldsOptional(j.fields, "rhythmActive", AsBool, r.value.rhythmActive)
      && HoldsOptional(j.fields, "rhythmId", AsU32, r.value.rhythmId)
      && HoldsOptional(j.fields, "hardwareVersion", AsString, r.value.hardwareVersion)
      && HoldsOptional(j.fields, "firmwareVersion", AsString, r.value.firmwareVersion)
      && HoldsOptional(j.fields, "auxAvailable", AsBool, r.value.auxAvailable)
      && HoldsOptional(j.fields, "rhythmMode", AsU32, r.value.rhythmMode)
      && HoldsOptional(j.fields, "rhythmPos", DecodePosition, r.value.rhythmPos)
  {
    match j
    case JObject(m) =>
      var rhythmConnected :- Required(m, "rhythmConnected", AsBool);
      var rhythmActive :- Optional(m, "rhythmActive", AsBool);
      var rhythmId :- Optional(m, "rhythmId", AsU32);
      var hardwareVersion :- Optional(m, "hardwareVersion", AsString);
      var firmwareVersion :- Optional(m, "firmwareVersion", AsString);
      var auxAvailable :- Optional(m, "auxAvailable", AsBool);
      var rhythmMode :- Optional(m, "rhythmMode", AsU32);
      var rhythmPos :- Optional(m, "rhythmPos", DecodePosition);
      Some(Rhythm(rhythmConnected, rhythmActive, rhythmId, hardwareVersion,
                  firmwareVersion, auxAvailable, rhythmMode, rhythmPos))
    case _ => None
  }

  /** A reference wire form of `Rhythm`, writing an absent field as null. */
  ghost function RhythmJson(r: Rhythm): Json {
    JObject(map[
      "rhythmConnected" := JBool(r.rhythmConnected),
      "rhythmActive" := if r.rhythmActive.Some? then JBool(r.rhythmActive.value) else JNull,
      "rhythmId" := if r.rhythmId.Some? then JInt(r.rhythmId.value) else JNull,
      "hardwareVersion" := if r.hardwareVersion.Some? then JString(r.hardwareVersion.value) else JNull,
      "firmwareVersion" := if r.firmwareVersion.Some? then JString(r.firmwareVersion.value) else JNull,
      "auxAvailable" := if r.auxAvailable.Some? then JBool(r.auxAvailable.value) else JNull,
      "rhythmMode" := if r.rhythmMode.Some? then JInt(r.rhythmMode.value) else JNull,
      "rhythmPos" := if r.rhythmPos.Some? then PositionJson(r.rhythmPos.value) else JNull])
  }

  /** An object whose eight fields each decode to the record's parts decodes to that record. */
  lemma DecodeRhythmOfParts(m: Fields, r: Rhythm)
    requires Holds(m, "rhythmConnected", AsBool, r.rhythmConnected)
    requires HoldsOptional(m, "rhythmActive", AsBool, r.rhythmActive)
    requires HoldsOptional(m, "rhythmId", AsU32, r.rhythmId)
    requires HoldsOptional(m, "hardwareVersion", AsString, r.hardwareVersion)
    requires HoldsOptional(m, "firmwareVersion", AsString, r.firmwareVersion)
    requires HoldsOptional(m, "auxAvailable", AsBool, r.auxAvailable)
    requires HoldsOptional(m, "rhythmMode", AsU32, r.rhythmMode)
    requires HoldsOptional(m, "rhythmPos", DecodePosition, r.rhythmPos)
    ensures DecodeRhythm(JObject(m)) == Some(r)
  {
  }

  /** The wire form's boolean fields read back as the record's. */
  lemma RhythmJsonFlags(r: Rhythm)
    ensures Holds(RhythmJson(r).fields, "rhythmConnected", AsBool, r.rhythmConnected)
    ensures HoldsOptional(RhythmJson(r).fields, "rhythmActive", AsBool, r.rhythmActive)
    ensures HoldsOptional(RhythmJson(r).fields, "auxAvailable", AsBool, r.auxAvailable)
  {
  }

  /** The wire form's numeric and string fields read back as the record's. */
  lemma RhythmJsonValues(r: Rhythm)
    ensures HoldsOptional(RhythmJson(r).fields, "rhythmId", AsU32, r.rhythmId)
    ensures HoldsOptional(RhythmJson(r).fields, "hardwareVersion", AsString, r.hardwareVersion)
    ensures HoldsOptional(RhythmJson(r).fields, "firmwareVersion", AsString, r.firmwareVersion)
    ensures HoldsOptional(RhythmJson(r).fields, "rhythmMode", AsU32, r.rhythmMode)
  {
  }

  /** The wire form's position reads back as the record's. */
  lemma {:induction false} RhythmJsonPos(r: Rhythm)
    ensures HoldsOptional(RhythmJson(r).fields, "rhythmPos", DecodePosition, r.rhythmPos)
  {
    if r.rhythmPos.Some? {
      PositionRoundTrip(r.rhythmPos.value);
    }
  }

  /** Every `Rhythm` value, with any mix of present and absent fields, is read back from its reference wire form. */
  lemma {:induction false} RhythmRoundTrip(r: Rhythm)
    ensures DecodeRhythm(RhythmJson(r)) == Some(r)
  {
    RhythmJsonFlags(r);
    RhythmJsonValues(r);
    RhythmJsonPos(r);
    DecodeRhythmOfParts(RhythmJson(r).fields, r);
  }

  /** `{"rhythmConnected": b}` alone decodes, with every optional field `None`. */
  lemma RhythmMinimal(b: bool)
    ensures DecodeRhythm(JObject(map["rhythmConnected" := JBool(b)]))
         == Some(Rhythm(b, None, None, None, None, None, None, None))
  {
  }

  /** Absent fields may also be omitted: `{"rhythmConnected": b, "rhythmId": id}` decodes with only `rhythmId` set. */
  lemma RhythmSparse(b: bool, id: u32)
    ensures DecodeRhythm(JObject(map["rhythmConnected" := JBool(b), "rhythmId" := JInt(id)]))
         == Some(Rhythm(b, None, Some(id), None, None, None, None, None))
  {
  }

  /** Without `rhythmConnected` nothing decodes. */
  lemma RhythmNeedsConnected(j: Json)
    requires Lacks(j, "rhythmConnected")
    ensures DecodeRhythm(j) == None
  {
  }

  /** In a successful decode, each optional field whose key is absent is `None`. */
  lemma RhythmAbsentIsNone(j: Json, r: Rhythm)
    requires DecodeRhythm(j) == Some(r)
    ensures Lacks(j, "rhythmActive") ==> r.rhythmActive == None
    ensures Lacks(j, "rhythmId") ==> r.rhythmId == None
    ensures Lacks(j, "hardwareVersion") ==> r.hardwareVersion == None
    ensures Lacks(j, "firmwareVersion") ==> r.firmwareVersion == None
    ensures Lacks(j, "auxAvailable") ==> r.auxAvailable == None
    ensures Lacks(j, "rhythmMode") ==> r.rhythmMode == None
    ensures Lacks(j, "rhythmPos") ==> r.rhythmPos == None
  {
  }

  /** In a successful decode, each optional field whose key holds a non-null value is `Some` of its decode. */
  lemma RhythmPresentIsSome(j: Json, r: Rhythm)
    requires DecodeRhythm(j) == Some(r)
    ensures Decodes(j.fields, "rhythmActive", AsBool) ==> r.rhythmActive == AsBool(j.fields["rhythmActive"])
    ensures Decodes(j.fields, "rhythmId", AsU32) ==> r.rhythmId == AsU32(j.fields["rhythmId"])
    ensures Decodes(j.fields, "hardwareVersion", AsString) ==> r.hardwareVersion == AsString(j.fields["hardwareVersion"])
    ensures Decodes(j.fields, "firmwareVersion", AsString) ==> r.firmwareVersion == AsString(j.fields["firmwareVersion"])
    ensures Decodes(j.fields, "auxAvailable", AsBool) ==> r.auxAvailable == AsBool(j.fields["auxAvailable"])
    ensures Decodes(j.fields, "rhythmMode", AsU32) ==> r.rhythmMode == AsU32(j.fields["rhythmMode"])
    ensures Decodes(j.fields, "rhythmPos", DecodePosition) ==> r.rhythmPos == DecodePosition(j.fields["rhythmPos"])
  {
  }

  /** Removing an optional key from a decodable object leaves it decodable. */
  lemma RhythmOptionalKeysNotRequired(m: Fields, k: string)
    requires k in RhythmOptionalKeys && DecodeRhythm(JObject(m)).Some?
    ensures DecodeRhythm(JObject(m - {k})).Some?
  {
  }

  /** Keys other than the eight do not affect the decode. */
  lemma RhythmIgnoresOtherKeys(m1: Fields, m2: Fields)
    requires AgreeOn(m1, m2, RhythmKeys)
    ensures DecodeRhythm(JObject(m1)) == DecodeRhythm(JObject(m2))
  {
    var keys := RhythmKeys;
    RequiredAgree(m1, m2, keys, "rhythmConnected", AsBool);
    OptionalAgree(m1, m2, keys, "rhythmActive", AsBool);
    OptionalAgree(m1, m2, keys, "rhythmId", AsU32);
    OptionalAgree(m1, m2, keys, "hardwareVersion", AsString);
    OptionalAgree(m1, m2, keys, "firmwareVersion", AsString);
    OptionalAgree(m1, m2, keys, "auxAvailable", AsBool);
    OptionalAgree(m1, m2, keys, "rhythmMode", AsU32);
    OptionalAgree(m1, m2, keys, "rhythmPos", DecodePosition);
  }
}
