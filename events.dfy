/**
 * The WebSocket wire schema between the tutoring client and the server
 * (server/app/ws/events.py): the session-mode enum, the three client
 * messages, the seven server messages, their literal `type` tags and
 * literal-valued fields, and their JSON form.
 *
 * Pydantic validation of a decoded JSON object is modelled by the Parse*
 * functions (None = ValidationError); `model_dump(by_alias=True)` followed by
 * `json.dumps`/`json.loads` is modelled by the *Json encoders. Timestamps that
 * the source takes from the clock are the parameter `now`.
 */
module Events {
  import opened Wrappers
  import opened Json

  // ------------------------------------------------------------------
  // Enums and literal-valued fields
  // ------------------------------------------------------------------

  /** SessionMode: a `str` enum whose values are the member names. */
  datatype SessionMode = IDLE | TEACH | QUIZ {
    function Value(): string {
      match this
      case IDLE => "IDLE"
      case TEACH => "TEACH"
      case QUIZ => "QUIZ"
    }
  }

  /** `SessionMode(v)`: the member whose value is `v`. */
  function ParseMode(v: string): (r: Option<SessionMode>)
    ensures r.Some? ==> r.value.Value() == v
  {
    if v == "IDLE" then Some(IDLE)
    else if v == "TEACH" then Some(TEACH)
    else if v == "QUIZ" then Some(QUIZ)
    else None
  }

  /** ClientControlMessage.action: Literal["start", "stop", "toggle_captions"]. */
  datatype ControlAction = Start | Stop | ToggleCaptions {
    function Value(): string {
      match this
      case Start => "start"
      case Stop => "stop"
      case ToggleCaptions => "toggle_captions"
    }
  }

  function ParseAction(v: string): (r: Option<ControlAction>)
    ensures r.Some? ==> r.value.Value() == v
  {
    if v == "start" then Some(Start)
    else if v == "stop" then Some(Stop)
    else if v == "toggle_captions" then Some(ToggleCaptions)
    else None
  }

  /** HandFeatures.palmFacing: Literal["camera", "away", "side"]. */
  datatype PalmFacing = Camera | Away | Side {
    function Value(): string {
      match this
      case Camera => "camera"
      case Away => "away"
      case Side => "side"
    }
  }

  function ParsePalmFacing(v: string): (r: Option<PalmFacing>)
    ensures r.Some? ==> r.value.Value() == v
  {
    if v == "camera" then Some(Camera)
    else if v == "away" then Some(Away)
    else if v == "side" then Some(Side)
    else None
  }

  /** HandFeatures.thumbPosition: Literal["extended", "across", "tucked"]. */
  datatype ThumbPosition = Extended | Across | Tucked {
    function Value(): string {
      match this
      case Extended => "extended"
      case Across => "across"
      case Tucked => "tucked"
    }
  }

  function ParseThumbPosition(v: string): (r: Option<ThumbPosition>)
    ensures r.Some? ==> r.value.Value() == v
  {
    if v == "extended" then Some(Extended)
    else if v == "across" then Some(Across)
    else if v == "tucked" then Some(Tucked)
    else None
  }

  /** HandState.handedness: Literal["Left", "Right"]. */
  datatype Handedness = Left | Right {
    function Value(): string {
      match this
      case Left => "Left"
      case Right => "Right"
    }
  }

  function ParseHandedness(v: string): (r: Option<Handedness>)
    ensures r.Some? ==> r.value.Value() == v
  {
    if v == "Left" then Some(Left)
    else if v == "Right" then Some(Right)
    else None
  }

  /** Every enum and literal field accepts exactly the values it writes. */
  lemma LiteralValuesRoundTrip(m: SessionMode, a: ControlAction, p: PalmFacing, t: ThumbPosition, h: Handedness)
    ensures ParseMode(m.Value()) == Some(m)
    ensures ParseAction(a.Value()) == Some(a)
    ensures ParsePalmFacing(p.Value()) == Some(p)
    ensures ParseThumbPosition(t.Value()) == Some(t)
    ensures ParseHandedness(h.Value()) == Some(h)
  {
  }

  /** SessionMode has exactly three members, each valued by its own name. */
  lemma SessionModeValues(v: string)
    ensures ParseMode(v).Some? <==> v == "IDLE" || v == "TEACH" || v == "QUIZ"
  {
  }

  // ------------------------------------------------------------------
  // Records
  // ------------------------------------------------------------------

  datatype HandLandmark = HandLandmark(x: real, y: real, z: real)

  datatype FingerCurls = FingerCurls(thumb: real, index: real, middle: real, ring: real, pinky: real)

  datatype FingerSpread = FingerSpread(thumbIndex: real, indexMiddle: real, middleRing: real, ringPinky: real)

  datatype HandFeatures = HandFeatures(
    fingerCurls: FingerCurls,
    fingertipDistances: FingerCurls,
    fingerSpread: FingerSpread,
    palmFacing: PalmFacing,
    thumbPosition: ThumbPosition,
    fingersSpread: bool)

  /** The landmark list has no length constraint in the schema. */
  datatype HandState = HandState(
    landmarks: seq<HandLandmark>,
    handedness: Handedness,
    confidence: real,
    timestamp: int,
    features: Option<HandFeatures>)

  // ------------------------------------------------------------------
  // Messages and their type tags
  // ------------------------------------------------------------------

  /** Client -> server messages. */
  datatype ClientMessage =
    | AudioChunk(data: string, timestamp: int)
    | HandStateMsg(hand: HandState)
    | ClientControl(action: ControlAction)
  {
    function Tag(): string {
      match this
      case AudioChunk(_, _) => "audio_chunk"
      case HandStateMsg(_) => "hand_state"
      case ClientControl(_) => "client_control"
    }
  }

  /** Server -> client messages. */
  datatype ServerMessage =
    | AsrPartial(text: string, timestamp: int)
    | AsrFinal(text: string, timestamp: int)
    | AgentTextPartial(text: string, timestamp: int)
    | AgentTextFinal(text: string, timestamp: int)
    | TtsAudioChunk(data: string, timestamp: int)
    | UiState(
        mode: SessionMode,
        targetSign: Option<string>,
        prediction: Option<string>,
        confidence: Option<real>,
        suggestion: Option<string>,
        streak: Option<int>,
        timestamp: int)
    | Error(message: string, code: Option<string>, timestamp: int)
  {
    function Tag(): string {
      match this
      case AsrPartial(_, _) => "asr_partial"
      case AsrFinal(_, _) => "asr_final"
      case AgentTextPartial(_, _) => "agent_text_partial"
      case AgentTextFinal(_, _) => "agent_text_final"
      case TtsAudioChunk(_, _) => "tts_audio_chunk"
      case UiState(_, _, _, _, _, _, _) => "ui_state"
      case Error(_, _, _) => "error"
    }
  }

  /** The tag of a client message tells which message it is. */
  lemma ClientTagsDistinct(a: ClientMessage, b: ClientMessage)
    ensures a.Tag() == b.Tag() <==>
      (a.AudioChunk? && b.AudioChunk?) || (a.HandStateMsg? && b.HandStateMsg?)
      || (a.ClientControl? && b.ClientControl?)
  {
  }

  /** The tag of a server message tells which message it is. */
  lemma ServerTagsDistinct(a: ServerMessage, b: ServerMessage)
    ensures a.Tag() == b.Tag() <==>
      (a.AsrPartial? && b.AsrPartial?) || (a.AsrFinal? && b.AsrFinal?)
      || (a.AgentTextPartial? && b.AgentTextPartial?) || (a.AgentTextFinal? && b.AgentTextFinal?)
      || (a.TtsAudioChunk? && b.TtsAudioChunk?) || (a.UiState? && b.UiState?)
      || (a.Error? && b.Error?)
  {
  }

  /** No client tag is also a server tag. */
  lemma ClientServerTagsDisjoint(c: ClientMessage, s: ServerMessage)
    ensures c.Tag() != s.Tag()
  {
  }

  // ------------------------------------------------------------------
  // Validation of decoded JSON (pydantic)
  // ------------------------------------------------------------------

  /** A `type: Literal[tag] = tag` field: absent, or exactly the tag. */
  predicate TagOk(o: map<string, Json>, tag: string) {
    "type" !in o || o["type"] == JStr(tag)
  }

  /** A `timestamp: int` field whose default comes from the clock. */
  function TimestampField(o: map<string, Json>, now: int): Option<int> {
    if "timestamp" in o then AsInt(o["timestamp"]) else Some(now)
  }

  function ParseLandmark(j: Json): Option<HandLandmark> {
    var o :- AsObj(j);
    var x :- FloatField(o, "x");
    var y :- FloatField(o, "y");
    var z :- FloatField(o, "z");
    Some(HandLandmark(x, y, z))
  }

  /** `list[HandLandmark]`: every item must validate. */
  function ParseLandmarks(items: seq<Json>): (r: Option<seq<HandLandmark>>)
    ensures r.Some? ==> |r.value| == |items|
  {
    if items == [] then Some([])
    else
      var first :- ParseLandmark(items[0]);
      var rest :- ParseLandmarks(items[1..]);
      Some([first] + rest)
  }

  function ParseFingerCurls(j: Json): Option<FingerCurls> {
    var o :- AsObj(j);
    var thumb :- FloatField(o, "thumb");
    var index :- FloatField(o, "index");
    var middle :- FloatField(o, "middle");
    var ring :- FloatField(o, "ring");
    var pinky :- FloatField(o, "pinky");
    Some(FingerCurls(thumb, index, middle, ring, pinky))
  }

  function ParseFingerSpread(j: Json): Option<FingerSpread> {
    var o :- AsObj(j);
    var thumbIndex :- FloatField(o, "thumbIndex");
    var indexMiddle :- FloatField(o, "indexMiddle");
    var middleRing :- FloatField(o, "middleRing");
    var ringPinky :- FloatField(o, "ringPinky");
    Some(FingerSpread(thumbIndex, indexMiddle, middleRing, ringPinky))
  }

  function ParseFeatures(j: Json): Option<HandFeatures> {
    var o :- AsObj(j);
    var curls :- if "fingerCurls" in o then ParseFingerCurls(o["fingerCurls"]) else None;
    var distances :- if "fingertipDistances" in o then ParseFingerCurls(o["fingertipDistances"]) else None;
    var spread :- if "fingerSpread" in o then ParseFingerSpread(o["fingerSpread"]) else None;
    var palmName :- StrField(o, "palmFacing");
    var palm :- ParsePalmFacing(palmName);
    var thumbName :- StrField(o, "thumbPosition");
    var thumb :- ParseThumbPosition(thumbName);
    var spreadFlag :- if "fingersSpread" in o then AsBool(o["fingersSpread"]) else None;
    Some(HandFeatures(curls, distances, spread, palm, thumb, spreadFlag))
  }

  /** `features: Optional[HandFeatures] = None`: absent or null is None. */
  function ParseOptFeatures(o: map<string, Json>): Option<Option<HandFeatures>> {
    if "features" !in o || o["features"] == JNull then Some(None)
    else
      var f :- ParseFeatures(o["features"]);
      Some(Some(f))
  }

  function ParseHandState(j: Json): Option<HandState> {
    var o :- AsObj(j);
    var items :- if "landmarks" in o && o["landmarks"].JArr? then Some(o["landmarks"].items) else None;
    var landmarks :- ParseLandmarks(items);
    var handName :- StrField(o, "handedness");
    var handedness :- ParseHandedness(handName);
    var confidence :- FloatField(o, "confidence");
    var timestamp :- IntField(o, "timestamp");
    var features :- ParseOptFeatures(o);
    Some(HandState(landmarks, handedness, confidence, timestamp, features))
  }

  /** `AudioChunkMessage(**o)`. */
  function ParseAudioChunk(o: map<string, Json>, now: int): Option<ClientMessage> {
    if !TagOk(o, "audio_chunk") then None
    else
      var data :- StrField(o, "data");
      var timestamp :- TimestampField(o, now);
      Some(AudioChunk(data, timestamp))
  }

  /** `HandStateMessage(**o)`. */
  function ParseHandStateMessage(o: map<string, Json>): Option<ClientMessage> {
    if !TagOk(o, "hand_state") || "data" !in o then None
    else
      var hand :- ParseHandState(o["data"]);
      Some(HandStateMsg(hand))
  }

  /** `ClientControlMessage(**o)`. */
  function ParseControl(o: map<string, Json>): (r: Option<ClientMessage>)
    ensures r.Some? ==> r.value.ClientControl?
  {
    if !TagOk(o, "client_control") then None
    else
      var name :- StrField(o, "action");
      var action :- ParseAction(name);
      Some(ClientControl(action))
  }

  /** A client message, chosen by its `type` tag as the session loop does. */
  function ParseClient(o: map<string, Json>, now: int): Option<ClientMessage> {
    var tag := Get(o, "type", JNull);
    if tag == JStr("audio_chunk") then ParseAudioChunk(o, now)
    else if tag == JStr("hand_state") then ParseHandStateMessage(o)
    else if tag == JStr("client_control") then ParseControl(o)
    else None
  }

  /** The literal constraints of the client schema, stated on the raw JSON:
      a known tag, and for each message the allowed values of its
      literal-typed fields. */
  ghost predicate ValidClientLiterals(o: map<string, Json>) {
    && "type" in o
    && o["type"] in {JStr("audio_chunk"), JStr("hand_state"), JStr("client_control")}
    && (o["type"] == JStr("client_control") ==>
          "action" in o && o["action"] in {JStr("start"), JStr("stop"), JStr("toggle_captions")})
    && (o["type"] == JStr("hand_state") ==>
          && "data" in o && o["data"].JObj?
          && var d := o["data"].fields;
          && "handedness" in d && d["handedness"] in {JStr("Left"), JStr("Right")}
          && ("features" in d && d["features"] != JNull ==>
                && d["features"].JObj?
                && var f := d["features"].fields;
                && "palmFacing" in f && f["palmFacing"] in {JStr("camera"), JStr("away"), JStr("side")}
                && "thumbPosition" in f
                && f["thumbPosition"] in {JStr("extended"), JStr("across"), JStr("tucked")}))
  }

  lemma FeaturesLiterals(j: Json)
    requires ParseFeatures(j).Some?
    ensures j.JObj?
    ensures "palmFacing" in j.fields
      && j.fields["palmFacing"] in {JStr("camera"), JStr("away"), JStr("side")}
    ensures "thumbPosition" in j.fields
      && j.fields["thumbPosition"] in {JStr("extended"), JStr("across"), JStr("tucked")}
  {
    var o := j.fields;
    var palm := ParsePalmFacing(o["palmFacing"].s).value;
    assert o["palmFacing"] == JStr(palm.Value());
    var thumb := ParseThumbPosition(o["thumbPosition"].s).value;
    assert o["thumbPosition"] == JStr(thumb.Value());
  }

  lemma HandStateLiterals(j: Json)
    requires ParseHandState(j).Some?
    ensures j.JObj? && "handedness" in j.fields
    ensures j.fields["handedness"] in {JStr("Left"), JStr("Right")}
    ensures "features" in j.fields && j.fields["features"] != JNull ==> ParseFeatures(j.fields["features"]).Some?
  {
    var o := j.fields;
    var h := ParseHandedness(o["handedness"].s).value;
    assert o["handedness"] == JStr(h.Value());
  }

  /** Whatever validates as a client message satisfies the schema's literal constraints. */
  lemma ParsedClientIsValid(o: map<string, Json>, now: int)
    requires ParseClient(o, now).Some?
    ensures ValidClientLiterals(o)
  {
    var tag := Get(o, "type", JNull);
    if tag == JStr("client_control") {
      var a := ParseAction(o["action"].s).value;
      assert o["action"] == JStr(a.Value());
    } else if tag == JStr("hand_state") {
      HandStateLiterals(o["data"]);
      var d := o["data"].fields;
      if "features" in d && d["features"] != JNull {
        FeaturesLiterals(d["features"]);
      }
    }
  }

  /** A control message validates exactly when its action is one of the three literals. */
  lemma ControlActionIff(o: map<string, Json>)
    requires TagOk(o, "client_control")
    ensures ParseControl(o).Some? <==>
      "action" in o && o["action"] in {JStr("start"), JStr("stop"), JStr("toggle_captions")}
  {
    if ParseControl(o).Some? {
      var a := ParseAction(o["action"].s).value;
      assert o["action"] == JStr(a.Value());
    }
  }

  // ------------------------------------------------------------------
  // JSON form of messages (model_dump(by_alias=True), then json.dumps)
  // ------------------------------------------------------------------

  function LandmarkJson(l: HandLandmark): Json {
    JObj(map["x" := JFloat(l.x), "y" := JFloat(l.y), "z" := JFloat(l.z)])
  }

  function LandmarksJson(ls: seq<HandLandmark>): (r: seq<Json>)
    ensures |r| == |ls|
  {
    if ls == [] then [] else [LandmarkJson(ls[0])] + LandmarksJson(ls[1..])
  }

  function CurlsJson(c: FingerCurls): Json {
    JObj(map["thumb" := JFloat(c.thumb), "index" := JFloat(c.index), "middle" := JFloat(c.middle),
             "ring" := JFloat(c.ring), "pinky" := JFloat(c.pinky)])
  }

  function SpreadJson(s: FingerSpread): Json {
    JObj(map["thumbIndex" := JFloat(s.thumbIndex), "indexMiddle" := JFloat(s.indexMiddle),
             "middleRing" := JFloat(s.middleRing), "ringPinky" := JFloat(s.ringPinky)])
  }

  function FeaturesJson(f: HandFeatures): Json {
    JObj(map["fingerCurls" := CurlsJson(f.fingerCurls),
             "fingertipDistances" := CurlsJson(f.fingertipDistances),
             "fingerSpread" := SpreadJson(f.fingerSpread),
             "palmFacing" := JStr(f.palmFacing.Value()),
             "thumbPosition" := JStr(f.thumbPosition.Value()),
             "fingersSpread" := JBool(f.fingersSpread)])
  }

  function HandStateJson(h: HandState): Json {
    JObj(map["landmarks" := JArr(LandmarksJson(h.landmarks)),
             "handedness" := JStr(h.handedness.Value()),
             "confidence" := JFloat(h.confidence),
             "timestamp" := JInt(h.timestamp),
             "features" := if h.features.Some? then FeaturesJson(h.features.value) else JNull])
  }

  function ClientJson(m: ClientMessage): (o: map<string, Json>)
    ensures "type" in o && o["type"] == JStr(m.Tag())
  {
    match m
    case AudioChunk(data, ts) =>
      map["type" := JStr(m.Tag()), "data" := JStr(data), "timestamp" := JInt(ts)]
    case HandStateMsg(h) =>
      map["type" := JStr(m.Tag()), "data" := HandStateJson(h)]
    case ClientControl(a) =>
      map["type" := JStr(m.Tag()), "action" := JStr(a.Value())]
  }

  function OptRealJson(o: Option<real>): Json {
    if o.Some? then JFloat(o.value) else JNull
  }

  function OptIntJson(o: Option<int>): Json {
    if o.Some? then JInt(o.value) else JNull
  }

  /** `model_dump(by_alias=True)`: UiState writes its target under "targetSign". */
  function ServerJson(m: ServerMessage): (o: map<string, Json>)
    ensures "type" in o && o["type"] == JStr(m.Tag())
    ensures "timestamp" in o && o["timestamp"] == JInt(m.timestamp)
    ensures m.UiState? ==> "targetSign" in o && "target_sign" !in o
  {
    match m
    case AsrPartial(text, ts) => map["type" := JStr(m.Tag()), "text" := JStr(text), "timestamp" := JInt(ts)]
    case AsrFinal(text, ts) => map["type" := JStr(m.Tag()), "text" := JStr(text), "timestamp" := JInt(ts)]
    case AgentTextPartial(text, ts) => map["type" := JStr(m.Tag()), "text" := JStr(text), "timestamp" := JInt(ts)]
    case AgentTextFinal(text, ts) => map["type" := JStr(m.Tag()), "text" := JStr(text), "timestamp" := JInt(ts)]
    case TtsAudioChunk(data, ts) => map["type" := JStr(m.Tag()), "data" := JStr(data), "timestamp" := JInt(ts)]
    case UiState(mode, target, prediction, confidence, suggestion, streak, ts) =>
      map["type" := JStr(m.Tag()), "mode" := JStr(mode.Value()), "targetSign" := OptStr(target),
          "prediction" := OptStr(prediction), "confidence" := OptRealJson(confidence),
          "suggestion" := OptStr(suggestion), "streak" := OptIntJson(streak), "timestamp" := JInt(ts)]
    case Error(message, code, ts) =>
      map["type" := JStr(m.Tag()), "message" := JStr(message), "code" := OptStr(code), "timestamp" := JInt(ts)]
  }

  // ------------------------------------------------------------------
  // Round trips
  // ------------------------------------------------------------------

  lemma {:induction false} LandmarksRoundTrip(ls: seq<HandLandmark>)
    ensures ParseLandmarks(LandmarksJson(ls)) == Some(ls)
  {
    if ls != [] {
      LandmarksRoundTrip(ls[1..]);
      assert LandmarksJson(ls)[1..] == LandmarksJson(ls[1..]);
      assert [ls[0]] + ls[1..] == ls;
    }
  }

  lemma CurlsRoundTrip(c: FingerCurls)
    ensures ParseFingerCurls(CurlsJson(c)) == Some(c)
  {
  }

  lemma SpreadRoundTrip(s: FingerSpread)
    ensures ParseFingerSpread(SpreadJson(s)) == Some(s)
  {
  }

  lemma FeaturesRoundTrip(f: HandFeatures)
    ensures ParseFeatures(FeaturesJson(f)) == Some(f)
  {
    var o := FeaturesJson(f).fields;
    CurlsRoundTrip(f.fingerCurls);
    CurlsRoundTrip(f.fingertipDistances);
    SpreadRoundTrip(f.fingerSpread);
    LiteralValuesRoundTrip(IDLE, Start, f.palmFacing, f.thumbPosition, Left);
    assert o["fingerCurls"] == CurlsJson(f.fingerCurls);
    assert o["fingertipDistances"] == CurlsJson(f.fingertipDistances);
    assert o["fingerSpread"] == SpreadJson(f.fingerSpread);
    assert StrField(o, "palmFacing") == Some(f.palmFacing.Value());
    assert StrField(o, "thumbPosition") == Some(f.thumbPosition.Value());
    assert o["fingersSpread"] == JBool(f.fingersSpread);
  }

  lemma OptFeaturesRoundTrip(h: HandState)
    ensures ParseOptFeatures(HandStateJson(h).fields) == Some(h.features)
  {
    if h.features.Some? {
      FeaturesRoundTrip(h.features.value);
    }
  }

  lemma HandStateRoundTrip(h: HandState)
    ensures ParseHandState(HandStateJson(h)) == Some(h)
  {
    var o := HandStateJson(h).fields;
    LandmarksRoundTrip(h.landmarks);
    assert ParseLandmarks(o["landmarks"].items) == Some(h.landmarks);
    LiteralValuesRoundTrip(IDLE, Start, Camera, Extended, h.handedness);
    assert StrField(o, "handedness") == Some(h.handedness.Value());
    assert FloatField(o, "confidence") == Some(h.confidence);
    assert IntField(o, "timestamp") == Some(h.timestamp);
    OptFeaturesRoundTrip(h);
  }

  /** Every client message, written as JSON, validates back to itself, whatever
      the clock says and however many landmarks it carries. */
  lemma ClientRoundTrip(m: ClientMessage, now: int)
    ensures ParseClient(ClientJson(m), now) == Some(m)
  {
    match m
    case AudioChunk(_, _) =>
    case HandStateMsg(h) => HandStateRoundTrip(h);
    case ClientControl(a) => LiteralValuesRoundTrip(IDLE, a, Camera, Extended, Left);
  }

  /** `UiStateMessage(**o)`: `populate_by_name` lets the target arrive under its
      alias "targetSign" (tried first) or its field name "target_sign"; every
      optional field defaults to None and the mode to IDLE. */
  function ParseUiState(o: map<string, Json>, now: int): (r: Option<ServerMessage>)
    ensures r.Some? ==> r.value.UiState?
  {
    if !TagOk(o, "ui_state") then None
    else
      var mode :- if "mode" !in o then Some(IDLE)
                  else if o["mode"].JStr? then ParseMode(o["mode"].s) else None;
      var target :- if "targetSign" in o then AsOptStr(o["targetSign"])
                    else OptStrField(o, "target_sign");
      var prediction :- OptStrField(o, "prediction");
      var confidence :- OptFloatField(o, "confidence");
      var suggestion :- OptStrField(o, "suggestion");
      var streak :- OptIntField(o, "streak");
      var timestamp :- TimestampField(o, now);
      Some(UiState(mode, target, prediction, confidence, suggestion, streak, timestamp))
  }

  /** A dumped ui_state message validates back to itself. */
  lemma UiStateRoundTrip(m: ServerMessage, now: int)
    requires m.UiState?
    ensures ParseUiState(ServerJson(m), now) == Some(m)
  {
    OptStrRoundTrip(m.targetSign);
    OptStrRoundTrip(m.prediction);
    OptStrRoundTrip(m.suggestion);
    LiteralValuesRoundTrip(m.mode, Start, Camera, Extended, Left);
  }

  /** With no fields given, a ui_state message is IDLE with every optional field None. */
  lemma UiStateDefaults(now: int)
    ensures ParseUiState(map[], now) == Some(UiState(IDLE, None, None, None, None, None, now))
  {
  }

  /** The target may be given under the field name as well as under the alias:
      either way the message validates and carries that target. */
  lemma UiStateTargetByEitherName(t: string, now: int)
    ensures ParseUiState(map["target_sign" := JStr(t)], now) == Some(UiState(IDLE, Some(t), None, None, None, None, now))
    ensures ParseUiState(map["targetSign" := JStr(t)], now) == Some(UiState(IDLE, Some(t), None, None, None, None, now))
  {
  }

  /** `ErrorMessage(**o)`: `code` defaults to None. */
  function ParseErrorMessage(o: map<string, Json>, now: int): (r: Option<ServerMessage>)
    ensures r.Some? ==> r.value.Error?
  {
    if !TagOk(o, "error") then None
    else
      var message :- StrField(o, "message");
      var code :- OptStrField(o, "code");
      var timestamp :- TimestampField(o, now);
      Some(Error(message, code, timestamp))
  }

  /** An error built from its message alone has no code. */
  lemma ErrorCodeDefault(message: string, now: int)
    ensures ParseErrorMessage(map["message" := JStr(message)], now) == Some(Error(message, None, now))
  {
  }

  /** A hand state that leaves out `features` has features None. */
  lemma HandFeaturesDefault(h: HandState)
    ensures var o := HandStateJson(h).fields - {"features"};
      ParseHandState(JObj(o)) == Some(h.(features := None))
  {
    var o := HandStateJson(h).fields - {"features"};
    LandmarksRoundTrip(h.landmarks);
    assert ParseLandmarks(o["landmarks"].items) == Some(h.landmarks);
    LiteralValuesRoundTrip(IDLE, Start, Camera, Extended, h.handedness);
    assert StrField(o, "handedness") == Some(h.handedness.Value());
    assert FloatField(o, "confidence") == Some(h.confidence);
    assert IntField(o, "timestamp") == Some(h.timestamp);
    assert ParseOptFeatures(o) == Some(None);
  }
}
