/**
 * src/lib.rs: the client façade. A client holds an access token and a host;
 * each operation names one HTTP request (method, URL, JSON body) and turns
 * what the transport delivers into its result. The transport itself is a
 * parameter: an `Exchange` says what came back for the request.
 */
module Client {
  import opened Wrappers
  import opened Json
  import opened Color
  import opened ApiState
  import opened ApiEffects
  import opened NanoLeafApi

  datatype NanoLeafClient = NanoLeafClient(accessToken: string, host: string)

  datatype Verb = Get | Put

  /** One outgoing HTTP request; `body` is the JSON document sent, if any. */
  datatype Request = Request(verb: Verb, url: string, body: Option<Json>)

  /**
   * What the transport delivered for a request: a failure before any
   * response, or a response with its status, its text, and the text parsed
   * as JSON when it is well-formed. JSON text is not modelled, so nothing
   * here ties `parsed` to `text`: each outcome reads only one of the two.
   */
  datatype Exchange =
    | Failed
    | Delivered(status: int, text: string, parsed: Option<Json>)

  /** The two ways an operation fails: the transport, or a body of the wrong shape. */
  datatype Error = TransportError | DecodeError

  datatype Result<T> = Ok(value: T) | Err(error: Error)

  // ---------------------------------------------------------------------
  // Construction and URLs
  // ---------------------------------------------------------------------

  /** `NanoLeafClient::new`: keeps the token (first argument) and the host (second) unchanged. */
  function New(accessToken: string, host: string): (c: NanoLeafClient)
    ensures c.accessToken == accessToken && c.host == host
  {
    NanoLeafClient(accessToken, host)
  }

  /** The root every URL of the client starts with: `<host>/api/v1/<token>/`. */
  function Root(c: NanoLeafClient): string {
    c.host + "/api/v1/" + c.accessToken + "/"
  }

  /** The private `api` builder: the endpoint is appended to the client's root. */
  function Api(c: NanoLeafClient, endpoint: string): (url: string)
    ensures |url| == |Root(c)| + |endpoint|
    ensures url[..|Root(c)|] == Root(c)
    ensures url[|Root(c)|..] == endpoint
  {
    c.host + "/api/v1/" + c.accessToken + "/" + endpoint
  }

  /** Distinct endpoints of one client give distinct URLs, so each request names its endpoint unambiguously. */
  lemma ApiInjective(c: NanoLeafClient, e1: string, e2: string)
    requires Api(c, e1) == Api(c, e2)
    ensures e1 == e2
  {
    assert e1 == Api(c, e1)[|Root(c)|..];
  }

  /** A client made with `New(token, host)` targets `host + "/api/v1/" + token + "/" + endpoint`. */
  lemma NewApi(accessToken: string, host: string, endpoint: string)
    ensures Api(New(accessToken, host), endpoint) == host + "/api/v1/" + accessToken + "/" + endpoint
  {
    var url := Api(New(accessToken, host), endpoint);
    var root := host + "/api/v1/" + accessToken + "/";
    assert url == url[..|root|] + url[|root|..];
  }

  // ---------------------------------------------------------------------
  // Requests
  // ---------------------------------------------------------------------

  /** `info`: a GET of the root itself, without a body. */
  function InfoRequest(c: NanoLeafClient): (r: Request)
    ensures r.verb == Get && r.body == None
    ensures r.url == Root(c)
  {
    Request(Get, Api(c, ""), None)
  }

  /** `on`: a PUT to `state/on` whose body is exactly `{"on": {"value": value}}`. */
  function OnRequest(c: NanoLeafClient, value: bool): (r: Request)
    ensures r.verb == Put && r.url == Api(c, "state/on")
    ensures r.body == Some(JObject(map["on" := JObject(map["value" := JBool(value)])]))
  {
    Request(Put, Api(c, "state/on"), Some(JObject(map["on" := EncodeOn(On(value))])))
  }

  /**
   * `select`, which serves two purposes: without a name, a GET of
   * `effects/select` with no body; with one, a PUT to `effects` whose body
   * is exactly `{"select": name}`.
   */
  function SelectRequest(c: NanoLeafClient, name: Option<string>): (r: Request)
    ensures name.None? ==> r == Request(Get, Api(c, "effects/select"), None)
    ensures name.Some? ==>
      r == Request(Put, Api(c, "effects"), Some(JObject(map["select" := JString(name.value)])))
  {
    match name
    case None => Request(Get, Api(c, "effects/select"), None)
    case Some(effect) => Request(Put, Api(c, "effects"), Some(JObject(map["select" := JString(effect)])))
  }

  /** `request_effect`: a PUT to `effects` with `{"write": {"command": "request", "animName": name}}`. */
  function RequestEffectRequest(c: NanoLeafClient, name: string): (r: Request)
    ensures r.verb == Put && r.url == Api(c, "effects") && r.body.Some?
    ensures r.body.value.JObject? && r.body.value.fields.Keys == {"write"}
    ensures r.body.value.fields["write"]
         == JObject(map["command" := JString("request"), "animName" := JString(name)])
  {
    Request(Put, Api(c, "effects"), Some(JObject(map["write" := JObject(map[
      "command" := JString("request"),
      "animName" := JString(name)])])))
  }

  // ---------------------------------------------------------------------
  // The colour-wheel effect and its fixed defaults
  // ---------------------------------------------------------------------

  const WheelCommand: string := "add"
  const WheelVersion: string := "2.0"
  const WheelAnimType: string := "plugin"
  const WheelColorType: string := "HSB"
  const WheelPluginUuid: string := "027842e4-e1d6-4a4c-a731-be74a1ebd4cf"
  const WheelPluginType: string := "color"
  const WheelHasOverlay: bool := false

  /** The wheel's playback options, in this order. */
  const WheelPluginOptions: seq<PluginOption> :=
    [TransTime(24), DelayTime(0), LinDirection("right"), Loop(true)]

  /** The payload `add_wheel_effect` writes: the fixed defaults, the given name and the given palette. */
  function WheelEffect(name: string, palette: seq<NanoLeafColor>): (r: EffectDetails)
    ensures r.command == "add" && r.animType == "plugin" && r.colorType == "HSB"
    ensures r.animName == name && r.palette == palette
    ensures r.version == "2.0" && r.pluginUuid == "027842e4-e1d6-4a4c-a731-be74a1ebd4cf" && r.pluginType == "color"
    ensures r.pluginOptions == WheelPluginOptions && !r.hasOverlay
  {
    EffectDetails(
      command := WheelCommand,
      version := WheelVersion,
      animType := WheelAnimType,
      animName := name,
      colorType := WheelColorType,
      pluginUuid := WheelPluginUuid,
      pluginType := WheelPluginType,
      pluginOptions := WheelPluginOptions,
      palette := palette,
      hasOverlay := WheelHasOverlay)
  }

  /** The wheel's four options on the wire: the fixed names with their values, in order. */
  lemma WheelPluginOptionsWire()
    ensures EncodeEach(WheelPluginOptions, EncodePluginOption) == [
      JObject(map["name" := JString("transTime"), "value" := JInt(24)]),
      JObject(map["name" := JString("delayTime"), "value" := JInt(0)]),
      JObject(map["name" := JString("linDirection"), "value" := JString("right")]),
      JObject(map["name" := JString("loop"), "value" := JBool(true)])]
  {
    var e := EncodeEach(WheelPluginOptions, EncodePluginOption);
    assert e[0] == EncodePluginOption(TransTime(24));
    assert e[1] == EncodePluginOption(DelayTime(0));
    assert e[2] == EncodePluginOption(LinDirection("right"));
    assert e[3] == EncodePluginOption(Loop(true));
  }

  /** The object `add_wheel_effect` writes: the wheel payload, encoded. */
  function WheelWrite(name: string, palette: seq<NanoLeafColor>): (r: Json)
    ensures r.JObject? && r.fields.Keys == EffectDetailsKeys
    ensures r.fields["command"] == JString("add") && r.fields["animName"] == JString(name)
  {
    EncodeEffectDetails(WheelEffect(name, palette))
  }

  /** `add_wheel_effect`: a PUT to `effects` whose body holds the wheel payload under the single key `write`. */
  function AddWheelEffectRequest(c: NanoLeafClient, name: string, palette: seq<NanoLeafColor>): (r: Request)
    ensures r.verb == Put && r.url == Api(c, "effects") && r.body.Some?
    ensures r.body.value.JObject? && |r.body.value.fields| == 1 && "write" in r.body.value.fields
    ensures r.body.value.fields["write"] == WheelWrite(name, palette)
  {
    Request(Put, Api(c, "effects"), Some(JObject(map["write" := WheelWrite(name, palette)])))
  }

  /**
   * The payload's ten keys and its fixed defaults: command `add`, version
   * `2.0`, animation type `plugin`, colour type `HSB`, the colour plugin's
   * UUID and type, no overlay, and the caller's name.
   */
  lemma AddWheelEffectDefaults(name: string, palette: seq<NanoLeafColor>)
    ensures var w := WheelWrite(name, palette);
      && w.JObject? && w.fields.Keys == EffectDetailsKeys
      && w.fields["command"] == JString("add")
      && w.fields["version"] == JString("2.0")
      && w.fields["animType"] == JString("plugin")
      && w.fields["animName"] == JString(name)
      && w.fields["colorType"] == JString("HSB")
      && w.fields["pluginUuid"] == JString("027842e4-e1d6-4a4c-a731-be74a1ebd4cf")
      && w.fields["pluginType"] == JString("color")
      && w.fields["hasOverlay"] == JBool(false)
  {
  }

  /** The payload's options are the wheel's four, in order, and its palette is the caller's, colour by colour in order. */
  lemma AddWheelEffectLists(name: string, palette: seq<NanoLeafColor>)
    ensures var w := WheelWrite(name, palette);
      && w.JObject? && "pluginOptions" in w.fields && "palette" in w.fields
      && w.fields["pluginOptions"] == JArray(EncodeEach(WheelPluginOptions, EncodePluginOption))
      && w.fields["palette"].JArray?
      && |w.fields["palette"].items| == |palette|
      && (forall i :: 0 <= i < |palette| ==> w.fields["palette"].items[i] == EncodeColor(palette[i]))
  {
    var d := WheelEffect(name, palette);
    EncodeEffectDetailsLists(d);
    assert EncodeEffectDetails(d).fields["pluginOptions"] == JArray(EncodeEach(d.pluginOptions, EncodePluginOption));
  }

  // ---------------------------------------------------------------------
  // Outcomes. No operation looks at the HTTP status.
  // ---------------------------------------------------------------------

  /** `info`: the parsed body decoded as the full snapshot. */
  function InfoOutcome(x: Exchange): (r: Result<NanoLeafAPI>)
    ensures x.Failed? ==> r == Err(TransportError)
    ensures x.Delivered? ==>
      (r.Ok? <==> x.parsed.Some? && DecodeNanoLeafAPI(x.parsed.value).Some?)
    ensures r.Ok? ==> x.Delivered? && x.parsed.Some? && DecodeNanoLeafAPI(x.parsed.value) == Some(r.value)
    ensures r.Err? && x.Delivered? ==> r.error == DecodeError
  {
    match x
    case Failed => Err(TransportError)
    case Delivered(_, _, parsed) =>
      match parsed
      case None => Err(DecodeError)
      case Some(j) =>
        match DecodeNanoLeafAPI(j)
        case None => Err(DecodeError)
        case Some(api) => Ok(api)
  }

  /** `on`, `select` with a name, and `add_wheel_effect`: the response text, whatever it is. */
  function TextOutcome(x: Exchange): (r: Result<string>)
    ensures r.Ok? <==> x.Delivered?
    ensures r.Ok? ==> r.value == x.text
    ensures r.Err? ==> r.error == TransportError
  {
    match x
    case Failed => Err(TransportError)
    case Delivered(_, text, _) => Ok(text)
  }

  /**
   * `select`: without a name, the body decoded as a bare JSON string; with
   * one, the response text. Both branches wrap their value in `Some`.
   */
  function SelectOutcome(name: Option<string>, x: Exchange): (r: Result<Option<string>>)
    ensures r.Ok? ==> r.value.Some?
    ensures name.None? ==>
      (r.Ok? <==> x.Delivered? && x.parsed.Some? && x.parsed.value.JString?)
    ensures name.None? && r.Ok? ==> x.parsed == Some(JString(r.value.value))
    ensures name.None? && x.Delivered? && r.Err? ==> r.error == DecodeError
    ensures name.Some? ==> (r.Ok? <==> x.Delivered?) && (r.Ok? ==> r.value == Some(x.text))
    ensures x.Failed? ==> r == Err(TransportError)
  {
    match name
    case None =>
      (match x
       case Failed => Err(TransportError)
       case Delivered(_, _, parsed) =>
         match parsed
         case None => Err(DecodeError)
         case Some(j) =>
           match AsString(j)
           case None => Err(DecodeError)
           case Some(s) => Ok(Some(s)))
    case Some(_) =>
      match TextOutcome(x)
      case Err(e) => Err(e)
      case Ok(text) => Ok(Some(text))
  }

  /** `request_effect`: success whenever a response arrives; its body is discarded. */
  function RequestEffectOutcome(x: Exchange): (r: Result<()>)
    ensures r.Ok? <==> x.Delivered?
    ensures r.Err? ==> r.error == TransportError
  {
    match x
    case Failed => Err(TransportError)
    case Delivered(_, _, _) => Ok(())
  }

  // ---------------------------------------------------------------------
  // Operations: each request paired with the outcome its method computes.
  // ---------------------------------------------------------------------

  /** One call of an operation: the request sent, and the result for what came back. */
  datatype Call<T> = Call(request: Request, outcome: Result<T>)

  /** `info`: a GET of the root; the result is the response body decoded as the snapshot. */
  function InfoCall(c: NanoLeafClient, x: Exchange): (r: Call<NanoLeafAPI>)
    ensures r.request.verb == Get && r.request.url == Root(c) && r.request.body == None
    ensures r.outcome.Ok? <==> x.Delivered? && x.parsed.Some? && DecodeNanoLeafAPI(x.parsed.value).Some?
    ensures r.outcome.Ok? ==> x.Delivered? && x.parsed.Some? && DecodeNanoLeafAPI(x.parsed.value) == Some(r.outcome.value)
  {
    Call(InfoRequest(c), InfoOutcome(x))
  }

  /** `on`: a PUT of the flag to `state/on`; the result is the response text. */
  function OnCall(c: NanoLeafClient, value: bool, x: Exchange): (r: Call<string>)
    ensures r.request.verb == Put && r.request.url == Api(c, "state/on")
    ensures r.request.body == Some(JObject(map["on" := JObject(map["value" := JBool(value)])]))
    ensures r.outcome.Ok? <==> x.Delivered?
    ensures r.outcome.Ok? ==> x.Delivered? && r.outcome.value == x.text
  {
    Call(OnRequest(c, value), TextOutcome(x))
  }

  /** `select`: without a name, the served JSON string; with one, the text of the PUT's response. */
  function SelectCall(c: NanoLeafClient, name: Option<string>, x: Exchange): (r: Call<Option<string>>)
    ensures name.None? ==> r.request.verb == Get && r.request.url == Api(c, "effects/select")
    ensures name.None? ==> r.request.body == None
    ensures name.Some? ==> r.request.verb == Put && r.request.url == Api(c, "effects")
    ensures name.Some? ==> r.request.body == Some(JObject(map["select" := JString(name.value)]))
    ensures name.None? ==> (r.outcome.Ok? <==> x.Delivered? && x.parsed.Some? && x.parsed.value.JString?)
    ensures name.Some? ==> (r.outcome.Ok? <==> x.Delivered?)
    ensures r.outcome.Ok? ==> x.Delivered? && r.outcome.value.Some?
    ensures name.None? && r.outcome.Ok? ==> x.parsed == Some(JString(r.outcome.value.value))
    ensures name.Some? && r.outcome.Ok? ==> r.outcome.value == Some(x.text)
  {
    Call(SelectRequest(c, name), SelectOutcome(name, x))
  }

  /** `request_effect`: a PUT to `effects`; the response is discarded. */
  function RequestEffectCall(c: NanoLeafClient, name: string, x: Exchange): (r: Call<()>)
    ensures r.request.verb == Put && r.request.url == Api(c, "effects")
    ensures r.request.body == Some(JObject(map["write" := JObject(map["command" := JString("request"), "animName" := JString(name)])]))
    ensures r.outcome.Ok? <==> x.Delivered?
  {
    Call(RequestEffectRequest(c, name), RequestEffectOutcome(x))
  }

  /** `add_wheel_effect`: a PUT of the wheel payload to `effects`; the result is the response text. */
  function AddWheelEffectCall(c: NanoLeafClient, name: string, palette: seq<NanoLeafColor>, x: Exchange): (r: Call<string>)
    ensures r.request.verb == Put && r.request.url == Api(c, "effects")
    ensures r.request.body == Some(JObject(map["write" := WheelWrite(name, palette)]))
    ensures r.outcome.Ok? <==> x.Delivered?
    ensures r.outcome.Ok? ==> x.Delivered? && r.outcome.value == x.text
  {
    Call(AddWheelEffectRequest(c, name, palette), TextOutcome(x))
  }

  /** No outcome depends on the HTTP status: a non-success status is not an error of its own. */
  lemma StatusIgnored(x: Exchange, status: int, name: Option<string>)
    requires x.Delivered?
    ensures InfoOutcome(x.(status := status)) == InfoOutcome(x)
    ensures TextOutcome(x.(status := status)) == TextOutcome(x)
    ensures SelectOutcome(name, x.(status := status)) == SelectOutcome(name, x)
    ensures RequestEffectOutcome(x.(status := status)) == RequestEffectOutcome(x)
  {
  }
}
