# nanoleaf_rs wire format, in Dafny

`nanoleaf_rs` is a small asynchronous client for the HTTP API of Nanoleaf
light panels. A `NanoLeafClient` holds an access token and a host. Each
operation builds a URL under `<host>/api/v1/<token>/` and sends either a GET
without a body or a PUT with a JSON body. Its result is one of three kinds:
a value decoded from the JSON response (the snapshot for `info`, a bare
string for `select(None)`), the
response text (`on`, `select(Some(name))`, `add_wheel_effect`), or nothing
(`request_effect`, which discards the response).

This project models the wire-format layer of that client: the URLs and
request bodies it builds, the serde encoders and decoders its record types
derive, and how each operation turns a response into a result. Every
operation is a pure function over an abstract JSON value. The modules follow
the source files:

| module | file | contents |
|---|---|---|
| `Wrappers`, `Json` | (serde semantics) | the JSON value; integer range checks; required and optional keys; element-wise arrays |
| `ApiValues` | src/api/mod.rs | `BoundedValue`, the x/y/o `Position` |
| `NanoLeafApi` | src/api/mod.rs | the device snapshot `NanoLeafAPI` |
| `ApiState` | src/api/state.rs | `On`, `State` |
| `ApiEffects` | src/api/effects.rs | `Effects`, `PluginOption`, `EffectDetails` |
| `ApiPanelLayout` | src/api/panel_layout.rs | the panel record with its flattened position, `Layout`, `PanelLayout` |
| `ApiRhythm` | src/api/rhythm.rs | `Rhythm` |
| `Color` | src/color.rs | `NanoLeafColor` |
| `Client` | src/lib.rs | the client, its URLs, the request of each operation, each operation's outcome |
| `Examples` | src/lib.rs (tests) | the four tests' documents, paths and expected bodies |

Semantics the model makes explicit:

- A JSON object is a `map<string, Json>`, so key order carries no meaning.
- Integers are unbounded in `Json`. The decoders range-check them: `u32` fields accept `0 .. 2^32-1` and `i32` fields accept `-2^31 .. 2^31-1`.
- A missing required key fails the decode.
- An `Option` field that is missing or `null` decodes to `None`.
- Keys a record does not name are ignored, because no record uses `deny_unknown_fields`.
- `#[serde(flatten)]` in the panel record means its x/y/o position is read from the same flat object. The position is decoded from the entries left after `panelId` and `shapeType`.
- Each wire form that is only ever decoded (the `...Json` ghost functions) is a reference encoder. It is used to state round trips.

Two points where the model follows the code rather than what a reader might expect:

- A non-success HTTP status is not reported as a device error. The code never inspects the status; there is no `error_for_status`. The model's outcomes take the status as input and ignore it, and `Client.StatusIgnored` proves this. The result of `info` or of `select(None)` is decided by whether the body decodes, and the text operations return the body of any response.
- `src/api/panel_layout.rs:3` imports `crate::api::PanelPos`, which `src/api/mod.rs` does not define; the only x/y/o record there is `Position`. The model reads `PanelPos` as that `Position`. The Rust `Position` of panel_layout.rs is called `PanelPosition` here, so it does not clash with the other one.

## Model

| member | source | states |
|---|---|---|
| Json.AsBool | src/api/state.rs:5 | a JSON value decodes as a `bool` iff it is a boolean, and the result is that boolean |
| Json.AsU32 | src/api/mod.rs:9-11 | decodes iff the value is an integer in `0 .. 2^32-1`; the result is that integer |
| Json.AsI32 | src/api/mod.rs:17-19 | decodes iff the value is an integer in `-2^31 .. 2^31-1`, negatives included; the result is that integer |
| Json.AsString | src/api/mod.rs:25-29 | decodes iff the value is a string, and the result is that string |
| Json.DecodeEach | src/api/panel_layout.rs:20 | a sequence decodes iff every element decodes; the result has the same length, and element i is the decode of item i |
| Json.EncodeEach | src/api/effects.rs:22-23 | the encoding of a `Vec` has the same length, and element i is the encoding of element i |
| Json.DecodeEachEncodeEach | src/api/effects.rs:9 | when each element round-trips, so does the whole sequence, with order and length kept |
| Json.EncodeEachInjective | src/api/effects.rs:22-23 | when the element encoder is injective, so is the element-wise encoder |
| Json.AsArray | src/api/effects.rs:9 | a value decodes as a `Vec` iff it is an array whose every element decodes; the result is the elements' decodes in order |
| Json.Required | src/api/mod.rs:24-33 | a required field decodes iff its key is present and its value decodes, and the result is that decode; a missing key fails |
| Json.Optional | src/api/rhythm.rs:8-14 | a missing key or an explicit `null` gives `None`; any other value gives `Some` of its decode, or fails when that decode fails |
| Json.RequiredAgree | src/api/mod.rs:22-23 | two objects that agree on a key read the same value for a required field under that key |
| Json.OptionalAgree | src/api/rhythm.rs:4-5 | two objects that agree on a key read the same value for an optional field under that key |
| ApiValues.DecodeBoundedValue | src/api/mod.rs:8-13 | succeeds iff `value`, `max`, `min` are all present and in `u32` range; the fields are those values; `min <= value <= max` is not checked |
| ApiValues.DecodePosition | src/api/mod.rs:15-20 | succeeds iff `x`, `y`, `o` are all present and in `i32` range; the fields are those values |
| ApiValues.BoundedValueRoundTrip | src/api/mod.rs:8-13 | every `BoundedValue` is read back from its reference wire form, including ones with `value > max` |
| ApiValues.PositionRoundTrip | src/api/mod.rs:15-20 | every `Position`, negative coordinates included, is read back from its reference wire form |
| ApiValues.BoundedValueNeedsKeys | src/api/mod.rs:9-12 | without any one of `value`, `max`, `min` the decode fails |
| ApiValues.PositionNeedsKeys | src/api/mod.rs:16-19 | without any one of `x`, `y`, `o` the decode fails |
| ApiValues.BoundedValueIgnoresOtherKeys | src/api/mod.rs:8 | objects agreeing on the three keys decode alike, whatever else they hold |
| ApiValues.PositionIgnoresOtherKeys | src/api/mod.rs:15 | objects agreeing on the three keys decode alike, whatever else they hold |
| ApiState.EncodeOn | src/api/state.rs:4-5 | `On{value: b}` encodes to an object with exactly the key `value`, holding `b` |
| ApiState.DecodeOn | src/api/state.rs:4-5 | succeeds iff the value is an object whose `value` is a boolean; the result holds it |
| ApiState.OnRoundTrip | src/api/state.rs:4-5 | decoding the encoding of any `On` gives it back |
| ApiState.EncodeOnInjective | src/api/state.rs:4-5 | distinct `On` values encode differently |
| ApiState.DecodeState | src/api/state.rs:7-16 | succeeds iff all six keys are present and each decodes (`colorMode` as any string, the four bounded fields without range checks); each field is its key's decode |
| ApiState.StateRoundTrip | src/api/state.rs:7-16 | every `State` is read back from its reference wire form |
| ApiState.StateNeedsKeys | src/api/state.rs:8-15 | without any one of the six keys the decode fails |
| ApiState.StateIgnoresOtherKeys | src/api/state.rs:6-7 | objects agreeing on the six keys decode alike |
| Color.New | src/color.rs:11-13 | `new(h, s, b)` accepts any `u32` triple and stores the three in order, unchanged |
| Color.EncodeColor | src/color.rs:3-8 | a colour encodes to an object with exactly the keys `hue`, `saturation`, `brightness`, each holding its component |
| Color.EncodeColorInjective | src/color.rs:3-8 | distinct colours encode to distinct objects |
| ApiEffects.DecodeEffectNames | src/api/effects.rs:9 | `effectsList` decodes iff it is an array of strings, and the result is those strings in order |
| ApiEffects.DecodeEffects | src/api/effects.rs:5-10 | succeeds iff `select` is a string and `effectsList` is an array of strings; the fields are what the wire holds |
| ApiEffects.EffectsListKeepsOrder | src/api/effects.rs:9 | the decoded list has the wire array's length, and name i is the wire's string i |
| ApiEffects.EffectsRoundTrip | src/api/effects.rs:5-10 | every `Effects` value is read back from its reference wire form |
| ApiEffects.EffectsNeedsKeys | src/api/effects.rs:8-9 | without `select` or without `effectsList` the decode fails |
| ApiEffects.EffectsIgnoresOtherKeys | src/api/effects.rs:7 | objects agreeing on the two keys decode alike |
| ApiEffects.OptionName | src/api/effects.rs:27-33 | the tag is `transTime`, `delayTime`, `linDirection` or `loop`, one per variant (each in both directions) |
| ApiEffects.OptionPayload | src/api/effects.rs:30-33 | the content is an integer for the two times, the unvalidated string for the direction, and a boolean for the loop flag |
| ApiEffects.EncodePluginOption | src/api/effects.rs:27-28 | an option encodes to an object with exactly the keys `name` and `value`, holding its tag and its content |
| ApiEffects.EncodePluginOptionInjective | src/api/effects.rs:27-33 | distinct options encode to distinct objects |
| ApiEffects.EncodeEffectDetails | src/api/effects.rs:12-25 | a payload encodes to an object with exactly the ten camelCase keys; each scalar key holds its field |
| ApiEffects.EncodeEffectDetailsLists | src/api/effects.rs:22-23 | `pluginOptions` and `palette` are encoded element-wise, with length and order kept |
| ApiEffects.EncodeEffectDetailsInjective | src/api/effects.rs:12-25 | distinct payloads encode to distinct objects |
| ApiPanelLayout.DecodePanelPosition | src/api/panel_layout.rs:5-13 | succeeds iff `panelId` and `shapeType` are `u32` and the other entries of the same object decode as an x/y/o position |
| ApiPanelLayout.DecodePositionData | src/api/panel_layout.rs:20 | `positionData` decodes iff every element is a valid panel record; order and length are kept |
| ApiPanelLayout.DecodeLayout | src/api/panel_layout.rs:15-21 | succeeds iff `numPanels`, `sideLength` and a valid `positionData` array are present; the fields are their decodes |
| ApiPanelLayout.DecodePanelLayout | src/api/panel_layout.rs:23-28 | succeeds iff `layout` decodes and `globalOrientation` decodes as a `BoundedValue` |
| ApiPanelLayout.PanelPositionIsFlat | src/api/panel_layout.rs:9-10 | a decoded panel's position is what the plain x/y/o decoder reads from the panel's own object |
| ApiPanelLayout.PanelPositionRoundTrip | src/api/panel_layout.rs:5-11 | every panel record is read back from its flat five-key reference wire form |
| ApiPanelLayout.LayoutRoundTrip | src/api/panel_layout.rs:15-21 | every `Layout` is read back from its reference wire form, panel order and count kept |
| ApiPanelLayout.PanelLayoutRoundTrip | src/api/panel_layout.rs:23-28 | every `PanelLayout` is read back from its reference wire form |
| ApiPanelLayout.LayoutCountUnchecked | src/api/panel_layout.rs:18-20 | replacing `numPanels` by any `u32` changes only that field of the decoded layout; it is never compared with the panel count |
| ApiPanelLayout.PanelPositionNeedsKeys | src/api/panel_layout.rs:6-10 | without any one of `panelId`, `shapeType`, `x`, `y`, `o` a panel record fails |
| ApiPanelLayout.LayoutNeedsKeys | src/api/panel_layout.rs:16-20 | without any one of the three keys a layout fails |
| ApiPanelLayout.PanelLayoutNeedsKeys | src/api/panel_layout.rs:24-27 | without `layout` or without `globalOrientation` the decode fails |
| ApiPanelLayout.PanelPositionIgnoresOtherKeys | src/api/panel_layout.rs:4-5 | objects agreeing on the five keys decode alike |
| ApiPanelLayout.LayoutIgnoresOtherKeys | src/api/panel_layout.rs:14-15 | objects agreeing on the three keys decode alike |
| ApiPanelLayout.PanelLayoutIgnoresOtherKeys | src/api/panel_layout.rs:22-23 | objects agreeing on the two keys decode alike |
| ApiRhythm.DecodeRhythm | src/api/rhythm.rs:4-15 | succeeds iff `rhythmConnected` is a boolean and each optional field is absent, null or decodable (`rhythmPos` by the x/y/o decoder); each field is its key's decode |
| ApiRhythm.DecodeRhythmOfParts | src/api/rhythm.rs:4-15 | an object whose eight entries decode to a record's fields decodes to that record |
| ApiRhythm.RhythmRoundTrip | src/api/rhythm.rs:4-15 | every `Rhythm`, with any mix of present and absent fields, is read back from a reference wire form that writes absent fields as null |
| ApiRhythm.RhythmMinimal | src/api/rhythm.rs:7-14 | `{"rhythmConnected": b}` alone decodes, with all seven optional fields `None` |
| ApiRhythm.RhythmSparse | src/api/rhythm.rs:7-14 | absent fields may be omitted rather than null: `{"rhythmConnected": b, "rhythmId": id}` decodes with only `rhythmId` set |
| ApiRhythm.RhythmNeedsConnected | src/api/rhythm.rs:7 | without `rhythmConnected` the decode fails |
| ApiRhythm.RhythmAbsentIsNone | src/api/rhythm.rs:8-14 | in a successful decode, each optional field whose key is absent is `None` |
| ApiRhythm.RhythmPresentIsSome | src/api/rhythm.rs:8-14 | in a successful decode, each optional field whose key holds a decodable value is `Some` of that decode |
| ApiRhythm.RhythmOptionalKeysNotRequired | src/api/rhythm.rs:8-14 | removing any optional key from a decodable object leaves it decodable |
| ApiRhythm.RhythmIgnoresOtherKeys | src/api/rhythm.rs:5-6 | objects agreeing on the eight keys decode alike |
| NanoLeafApi.DecodeNanoLeafAPI | src/api/mod.rs:22-34 | succeeds iff all nine camelCase keys are present and each decodes through its own decoder; each field is its key's decode |
| NanoLeafApi.DecodeNanoLeafAPIOfParts | src/api/mod.rs:22-34 | an object whose nine entries decode to a snapshot's fields decodes to that snapshot |
| NanoLeafApi.DecodeNanoLeafAPIObject | src/api/mod.rs:30-33 | the snapshot is read back from its object whenever each nested record is read back from its own |
| NanoLeafApi.NanoLeafAPIRoundTrip | src/api/mod.rs:22-34 | every snapshot is read back from its reference wire form |
| NanoLeafApi.NanoLeafAPINeedsKeys | src/api/mod.rs:25-33 | without any one of the nine keys the decode fails |
| NanoLeafApi.NanoLeafAPINestedFailure | src/api/mod.rs:30-33 | a nested record that fails to decode fails the whole snapshot |
| NanoLeafApi.NanoLeafAPIIgnoresOtherKeys | src/api/mod.rs:22-23 | objects agreeing on the nine keys decode alike |
| Client.New | src/lib.rs:17-22 | `new(token, host)` stores the token and the host in that order, unchanged |
| Client.Api | src/lib.rs:24-26 | the URL is the client's root `<host>/api/v1/<token>/` followed by exactly the endpoint |
| Client.ApiInjective | src/lib.rs:24-26 | one client's distinct endpoints give distinct URLs |
| Client.NewApi | src/lib.rs:17-26 | a client made by `new(token, host)` targets `host + "/api/v1/" + token + "/" + endpoint` |
| Client.InfoRequest | src/lib.rs:28-30 | `info` is a GET without a body of the root itself, the URL ending in `/api/v1/<token>/` |
| Client.OnRequest | src/lib.rs:38-40 | `on(v)` is a PUT to `state/on` whose body is exactly `{"on": {"value": v}}` |
| Client.SelectRequest | src/lib.rs:51-64 | `select(None)` is a GET of `effects/select` without a body; `select(Some(n))` is a PUT to `effects` whose body is exactly `{"select": n}` |
| Client.RequestEffectRequest | src/lib.rs:77-84 | `request_effect(n)` is a PUT to `effects` whose body is exactly `{"write": {"command": "request", "animName": n}}` |
| Client.WheelEffect | src/lib.rs:110-121 | the payload is an `add` of a `plugin` animation, version `2.0`, in `HSB`, by the colour plugin (`pluginType` `color`, UUID `027842e4-e1d6-4a4c-a731-be74a1ebd4cf`), named by the caller, with the wheel's four options, the caller's palette and no overlay |
| Client.WheelWrite | src/lib.rs:109-122 | the payload under `write` is an object with exactly the ten `EffectDetails` keys, its command `add` and its name the caller's |
| Client.WheelPluginOptionsWire | src/lib.rs:102-107 | the wheel's options are, on the wire and in order, `transTime` 24, `delayTime` 0, `linDirection` "right", `loop` true |
| Client.AddWheelEffectRequest | src/lib.rs:95-122 | `add_wheel_effect` is a PUT to `effects` whose body has the single key `write`, holding the encoded wheel payload |
| Client.AddWheelEffectDefaults | src/lib.rs:109-121 | the payload has exactly the ten keys, with command `add`, version `2.0`, animType `plugin`, colorType `HSB`, the plugin's UUID, pluginType `color`, hasOverlay false and the caller's name |
| Client.AddWheelEffectLists | src/lib.rs:102-120 | the payload's options are the four fixed ones in order, and its palette is the caller's, colour by colour in order |
| Client.InfoOutcome | src/lib.rs:28-35 | `info` succeeds iff a response arrives whose body decodes as a snapshot, and returns that snapshot; a failed exchange is a transport error and an undecodable body a decode error |
| Client.TextOutcome | src/lib.rs:38-48 | `on` and the other text operations succeed iff a response arrives, and return its text, whatever it is |
| Client.SelectOutcome | src/lib.rs:51-75 | `select` always returns `Some` on success: the body decoded as a bare JSON string without a name, the response text with one; without a name, a response whose body is not a JSON string is a decode error |
| Client.RequestEffectOutcome | src/lib.rs:77-93 | `request_effect` succeeds iff a response arrives; the body is discarded |
| Client.InfoCall | src/lib.rs:28-36 | `info` sends a body-less GET of the root and returns the snapshot decoded from the response, and only when it decodes |
| Client.OnCall | src/lib.rs:38-49 | `on` sends a PUT of exactly `{"on": {"value": v}}` to `state/on`; it succeeds iff a response arrives, and then returns the response text |
| Client.SelectCall | src/lib.rs:51-75 | `select(None)` sends a body-less GET of `effects/select` and succeeds iff a response arrives whose body is a JSON string, returning `Some` of it; `select(Some(n))` sends a PUT of `{"select": n}` to `effects` and succeeds iff a response arrives, returning `Some` of its text |
| Client.RequestEffectCall | src/lib.rs:77-93 | `request_effect` sends a PUT of exactly `{"write": {"command": "request", "animName": n}}` to `effects`; it succeeds iff a response arrives |
| Client.AddWheelEffectCall | src/lib.rs:95-131 | `add_wheel_effect` sends a PUT of `{"write": WheelWrite(name, palette)}` to `effects`; it succeeds iff a response arrives, and then returns the response text |
| Client.StatusIgnored | src/lib.rs:28-131 | no operation's outcome depends on the HTTP status |
| Examples.TestStateDecodes | src/lib.rs:151-176 | the test's state decodes, including `ct` with value 4000 above its max 100 |
| Examples.TestEffectsDecodes | src/lib.rs:177-189 | the test's effects decode with the eight names in wire order |
| Examples.TestPanelsDecode | src/lib.rs:195-208 | the test's two flat panel records decode, negative coordinates included |
| Examples.TestPositionDataDecodes | src/lib.rs:194-209 | the test's `positionData` array decodes to its two panels in order |
| Examples.TestLayoutDecodes | src/lib.rs:191-210 | the test's layout decodes with two panels and side length 150 |
| Examples.TestPanelLayoutDecodes | src/lib.rs:190-216 | the test's panel layout decodes, with global orientation 120 of 360 |
| Examples.TestRhythmDecodes | src/lib.rs:217-230 | the test's rhythm record decodes with every optional field present |
| Examples.TestDocumentIdentity | src/lib.rs:146-148 | the test document's name, serial number and manufacturer decode |
| Examples.TestDocumentFirmware | src/lib.rs:149-150 | the test document's firmware version and model decode |
| Examples.TestDocumentState | src/lib.rs:151-176 | the test document's `state` entry decodes |
| Examples.TestDocumentEffects | src/lib.rs:177-189 | the test document's `effects` entry decodes |
| Examples.TestDocumentLayout | src/lib.rs:190-216 | the test document's `panelLayout` entry decodes |
| Examples.TestDocumentRhythm | src/lib.rs:217-230 | the test document's `rhythm` entry decodes |
| Examples.TestDocumentDecodes | src/lib.rs:145-231 | the whole test document decodes to the expected snapshot |
| Examples.GetInfoRequestTest | src/lib.rs:234-242 | `new("TOKEN", uri).info()` is a GET of `uri + "/api/v1/TOKEN/"` without a body |
| Examples.GetInfoTest | src/lib.rs:242-245 | `info` on a response whose body is the test document returns the snapshot, whose serial number is `S16331A0217`, whatever the response text (which `info` does not read) |
| Examples.PutOnTest | src/lib.rs:253-265 | `on(true)` PUTs exactly `{"on": {"value": true}}` to `/api/v1/TOKEN/state/on`, and the empty response text is returned |
| Examples.GetSelectTest | src/lib.rs:271-285 | `select(None)` GETs `/api/v1/TOKEN/effects/select` and returns `Some("Solid")` for the served string |
| Examples.TestPaletteWire | src/lib.rs:302-318 | the test palette built with `NanoLeafColor::new` encodes to the three expected objects, in order |
| Examples.WheelWriteTest | src/lib.rs:295-341 | the wheel payload for "My Animation" and the test palette equals the object the mock server expects |
| Examples.PutWheelEffectTarget | src/lib.rs:294 | the wheel request's `effects` endpoint is `uri + "/api/v1/TOKEN/effects"` |
| Examples.PutWheelEffectTest | src/lib.rs:295-351 | the wheel request's body is exactly `{"write": ...}` holding the expected object |

## Left out

- HTTP transport and async: the `reqwest` calls, `.await`, reading the response, and the boxed error type. An operation is modelled as a request descriptor (verb, URL, optional body) plus a function from a modelled response (`Exchange`: a transport failure, or a status, a text and the parsed body) to the result. Which reqwest error occurred is collapsed into `TransportError`. A body that does not parse or decode is `DecodeError`.
- JSON text: serde_json's lexer and printer are not modelled. Bodies are abstract JSON values, and `parsed` stands for the body read as JSON.
- Floating-point JSON numbers: `Json` has integers only. A float where an integer is expected fails the decode, as it does for serde.
- serde's acceptance of a struct written as a JSON array, and its error on a duplicated key: maps cannot hold a duplicated key, and the array form is not modelled.
- Text-level integer overflow: a number outside the field's range is rejected by the range check, instead of by the parser.
- Client.AddWheelEffectRequest: its own contract fixes only the verb, the URL and the single key `write`. The payload's content is stated by `Client.AddWheelEffectDefaults` and `Client.AddWheelEffectLists`.
- Examples.PutWheelEffectTarget: states the URL of the `effects` endpoint, which `Client.AddWheelEffectRequest` uses. It does not restate the whole request.
- The wiremock and tokio test harness: its tests are stated as lemmas about the expected paths, bodies and results. The mock servers and the counting of requests are not modelled.
- `Debug` derives and lifetimes carry no behaviour and are not modelled.
