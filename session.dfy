/**
 * The per-connection session controller (server/app/ws/session.py).
 *
 * `SessionState` and `SessionManager` are classes whose fields the handlers
 * update in place. What one incoming event does is specified by the pure
 * function `Next` over a `Snapshot` of those fields, and the methods are
 * proved against it; the properties of the controller are lemmas about `Next`
 * and `RunSpec`.
 *
 * The socket, the ASR service and the clock are not modelled as code: an
 * incoming frame is an `Event`, the clock reading and the ASR service's
 * `is_connected` answer after a connect are an `Env`, and what the session
 * sends to the client or asks of the ASR service is an `Effect`.
 */
module Session {
  import opened Wrappers
  import opened Json
  import opened Events
  import opened Classifier
  import opened Coach

  const WELCOME: string :=
    "Hello! I'm your ASL tutor. Say 'teach me A' to learn a letter, or 'quiz me' to test your skills!"
  const INVALID_JSON: string := "Invalid JSON format"

  // ------------------------------------------------------------------
  // Values
  // ------------------------------------------------------------------

  /** The value of a SessionState object. */
  datatype StateView = StateView(
    mode: SessionMode,
    targetSign: Option<string>,
    currentStreak: int,
    weakSigns: seq<string>,
    history: seq<HistoryEntry>)
  {
    /** `to_ui_state(prediction, confidence, suggestion)`, stamped `now`. */
    function ToUiState(prediction: Option<string>, confidence: Option<real>,
                       suggestion: Option<string>, now: int): ServerMessage
    {
      UiState(mode, targetSign, prediction, confidence, suggestion, Some(currentStreak), now)
    }
  }

  /** A fresh SessionState. */
  const INITIAL_STATE: StateView := StateView(IDLE, None, 0, [], [])

  /** The fields of a SessionManager that the session updates. */
  datatype Snapshot = Snapshot(state: StateView, asrConnected: bool, running: bool)

  const INITIAL: Snapshot := Snapshot(INITIAL_STATE, false, false)

  /** What reaches the session: a decoded JSON frame, a frame that is not
      JSON, the client going away, or a transcript callback from ASR. */
  datatype Event =
    | Received(data: Json)
    | Malformed
    | Disconnected
    | Transcript(text: string, isFinal: bool)

  /** The environment of one step: the clock, and whether the ASR service
      reports itself connected after a connect attempt. */
  datatype Env = Env(now: int, asrUp: bool)

  datatype Input = Input(event: Event, env: Env)

  /** What the session does outside itself: send a message to the client,
      or connect, disconnect or feed the ASR service. */
  datatype Effect =
    | Send(msg: ServerMessage)
    | AsrConnect
    | AsrDisconnect
    | AsrAudio(data: string)

  datatype Outcome = Outcome(snap: Snapshot, out: seq<Effect>)

  // ------------------------------------------------------------------
  // Specification of the handlers
  // ------------------------------------------------------------------

  /** `send_welcome`: the welcome text, then the current UI state. */
  function Welcome(st: StateView, now: int): seq<Effect> {
    [Send(AgentTextFinal(WELCOME, now)), Send(st.ToUiState(None, None, None, now))]
  }

  /** `start_asr`: a connect attempt unless already connected; the flag then
      follows what the service reports. */
  function StartAsrSpec(s: Snapshot, env: Env): Outcome {
    if s.asrConnected then Outcome(s, [])
    else Outcome(s.(asrConnected := env.asrUp), [AsrConnect])
  }

  /** `stop_asr`: a disconnect only when connected. */
  function StopAsrSpec(s: Snapshot): Outcome {
    if s.asrConnected then Outcome(s.(asrConnected := false), [AsrDisconnect])
    else Outcome(s, [])
  }

  /** `handle_control`. A message that fails validation only gets logged. */
  function ControlSpec(s: Snapshot, o: map<string, Json>, env: Env): Outcome {
    match ParseControl(o)
    case Some(ClientControl(Start)) =>
      var s1 := s.(state := s.state.(mode := IDLE));
      var asr := StartAsrSpec(s1, env);
      Outcome(asr.snap, Welcome(s1.state, env.now) + asr.out)
    case Some(ClientControl(Stop)) =>
      var s1 := s.(state := s.state.(mode := IDLE, targetSign := None));
      StopAsrSpec(s1)
    case _ => Outcome(s, [])
  }

  /** `handle_audio_chunk`: dropped while ASR is down, forwarded otherwise. */
  function AudioSpec(asrConnected: bool, o: map<string, Json>, now: int): seq<Effect> {
    if !asrConnected then []
    else match ParseAudioChunk(o, now)
      case Some(AudioChunk(data, _)) => [AsrAudio(data)]
      case _ => []
  }

  /** `on_transcript`: the transcript goes to the client verbatim. */
  function TranscriptMessage(text: string, isFinal: bool, now: int): ServerMessage {
    if isFinal then AsrFinal(text, now) else AsrPartial(text, now)
  }

  /** `str(e)` for the AttributeError of calling `.get` on a non-dict frame. */
  function NoGetMessage(data: Json): string {
    "'" + PyTypeName(data) + "' object has no attribute 'get'"
  }

  /** One turn of the `while self._running` loop, or one transcript callback.
      `handle_hand_state` fails on every message, as written (see HandStateUi). */
  function Next(s: Snapshot, e: Event, env: Env): Outcome {
    match e
    case Disconnected => Outcome(s.(running := false), [])
    case Malformed => Outcome(s, [Send(Error(INVALID_JSON, None, env.now))])
    case Transcript(text, isFinal) => Outcome(s, [Send(TranscriptMessage(text, isFinal, env.now))])
    case Received(data) =>
      if !data.JObj? then Outcome(s, [Send(Error(NoGetMessage(data), None, env.now))])
      else
        var msgType := Get(data.fields, "type", JNull);
        if msgType == JStr("hand_state") then Outcome(s, [])
        else if msgType == JStr("audio_chunk") then Outcome(s, AudioSpec(s.asrConnected, data.fields, env.now))
        else if msgType == JStr("client_control") then ControlSpec(s, data.fields, env)
        else Outcome(s, [])
  }

  /** The loop over the inputs while `_running` holds. */
  function Loop(s: Snapshot, inputs: seq<Input>): Outcome
    decreases |inputs|
  {
    if !s.running || inputs == [] then Outcome(s, [])
    else
      var first := Next(s, inputs[0].event, inputs[0].env);
      var rest := Loop(first.snap, inputs[1..]);
      Outcome(rest.snap, first.out + rest.out)
  }

  lemma LoopUnfold(s: Snapshot, inputs: seq<Input>)
    requires s.running && inputs != []
    ensures var first := Next(s, inputs[0].event, inputs[0].env);
      Loop(s, inputs) == Outcome(Loop(first.snap, inputs[1..]).snap, first.out + Loop(first.snap, inputs[1..]).out)
  {
  }

  /** `run`'s prologue: set running, send the welcome, start ASR. */
  function Prologue(s: Snapshot, env: Env): Outcome {
    var s1 := s.(running := true);
    var asr := StartAsrSpec(s1, env);
    Outcome(asr.snap, Welcome(s1.state, env.now) + asr.out)
  }

  /** `run` on a finite sequence of inputs. */
  function RunSpec(s: Snapshot, env: Env, inputs: seq<Input>): Outcome {
    var p := Prologue(s, env);
    var l := Loop(p.snap, inputs);
    Outcome(l.snap, p.out + l.out)
  }

  /** The endpoint's `finally`: `stop_asr`, then `stop`. */
  function CloseSpec(s: Snapshot): Outcome {
    var stop := StopAsrSpec(s);
    Outcome(stop.snap.(running := false), stop.out)
  }

  // ------------------------------------------------------------------
  // The hand_state handler as intended
  // ------------------------------------------------------------------

  /** The ui_state reply that `handle_hand_state` builds from a classification
      result: prediction and confidence copied, the first issue (if any) as the
      suggestion. */
  function HandStateUi(st: StateView, result: Classification, now: int): ServerMessage {
    var suggestion := if result.issues != [] then Some(result.issues[0]) else None;
    st.ToUiState(result.prediction, Some(result.confidence), suggestion, now)
  }

  /** The reply to a hand_state frame had `classify` been called with the
      landmarks alone; None where validation fails. */
  function IntendedHandStateReply(st: StateView, o: map<string, Json>, d: Draw, now: int): Option<ServerMessage> {
    var msg :- ParseHandStateMessage(o);
    Some(HandStateUi(st, Classify(msg.hand.landmarks, d), now))
  }

  // ------------------------------------------------------------------
  // Properties
  // ------------------------------------------------------------------

  /** What holds of every state a session reaches: mode IDLE, no target, a
      zero streak, and no weak signs or history. */
  predicate SessionInvariant(s: Snapshot) {
    s.state == INITIAL_STATE
  }

  /** Every ui_state among `out` reports mode IDLE, no target and streak 0. */
  predicate UiStatesIdle(out: seq<Effect>) {
    forall k :: 0 <= k < |out| && out[k].Send? && out[k].msg.UiState? ==>
      out[k].msg.mode == IDLE && out[k].msg.targetSign.None? && out[k].msg.streak == Some(0)
  }

  lemma UiStatesIdleAppend(a: seq<Effect>, b: seq<Effect>)
    requires UiStatesIdle(a) && UiStatesIdle(b)
    ensures UiStatesIdle(a + b)
  {
    forall k | 0 <= k < |a + b| && (a + b)[k].Send? && (a + b)[k].msg.UiState?
      ensures (a + b)[k].msg.mode == IDLE && (a + b)[k].msg.targetSign.None? && (a + b)[k].msg.streak == Some(0)
    {
      if k >= |a| {
        assert (a + b)[k] == b[k - |a|];
      }
    }
  }

  /** One step keeps the invariant and reports it in every ui_state it sends. */
  lemma NextKeepsInvariant(s: Snapshot, e: Event, env: Env)
    requires SessionInvariant(s)
    ensures SessionInvariant(Next(s, e, env).snap)
    ensures UiStatesIdle(Next(s, e, env).out)
  {
  }

  /** What a handler may do to the session state, from any state: the mode
      only ever becomes IDLE, the target only ever becomes None, and the
      streak, the weak signs and the history are never written. */
  predicate StateFrame(s: StateView, t: StateView) {
    && (t.mode == IDLE || t.mode == s.mode)
    && (t.targetSign == None || t.targetSign == s.targetSign)
    && t.currentStreak == s.currentStreak
    && t.weakSigns == s.weakSigns
    && t.history == s.history
  }

  lemma NextFrame(s: Snapshot, e: Event, env: Env)
    ensures StateFrame(s.state, Next(s, e, env).snap.state)
  {
  }

  /** The frame holds over any number of steps. */
  lemma {:induction false} LoopFrame(s: Snapshot, inputs: seq<Input>)
    ensures StateFrame(s.state, Loop(s, inputs).snap.state)
    decreases |inputs|
  {
    if s.running && inputs != [] {
      var first := Next(s, inputs[0].event, inputs[0].env);
      NextFrame(s, inputs[0].event, inputs[0].env);
      LoopFrame(first.snap, inputs[1..]);
    }
  }

  /** Any number of steps keep the invariant. */
  lemma {:induction false} LoopKeepsInvariant(s: Snapshot, inputs: seq<Input>)
    requires SessionInvariant(s)
    ensures SessionInvariant(Loop(s, inputs).snap)
    ensures UiStatesIdle(Loop(s, inputs).out)
    decreases |inputs|
  {
    if s.running && inputs != [] {
      var first := Next(s, inputs[0].event, inputs[0].env);
      NextKeepsInvariant(s, inputs[0].event, inputs[0].env);
      LoopKeepsInvariant(first.snap, inputs[1..]);
      UiStatesIdleAppend(first.out, Loop(first.snap, inputs[1..]).out);
    }
  }

  /** No statement sets TEACH or QUIZ, sets a target or updates the streak:
      every state a session reaches from a fresh one is the initial state, and
      every ui_state it sends says IDLE, no target and streak 0. */
  lemma RunKeepsInvariant(s: Snapshot, env: Env, inputs: seq<Input>)
    requires SessionInvariant(s)
    ensures SessionInvariant(RunSpec(s, env, inputs).snap)
    ensures UiStatesIdle(RunSpec(s, env, inputs).out)
  {
    var p := Prologue(s, env);
    LoopKeepsInvariant(p.snap, inputs);
    UiStatesIdleAppend(p.out, Loop(p.snap, inputs).out);
  }

  /** `run` first sends the welcome text and the UI state, then asks ASR to
      connect once. */
  lemma RunOpening(env: Env, inputs: seq<Input>)
    ensures var r := RunSpec(INITIAL, env, inputs);
      |r.out| >= 3
      && r.out[0] == Send(AgentTextFinal(WELCOME, env.now))
      && r.out[1] == Send(UiState(IDLE, None, None, None, None, Some(0), env.now))
      && r.out[2] == AsrConnect
  {
  }

  /** A "start" control: mode IDLE, target untouched, the welcome text and a
      ui_state sent in that order, then a connect attempt only when ASR is down. */
  lemma ControlStart(s: Snapshot, o: map<string, Json>, env: Env)
    requires ParseControl(o) == Some(ClientControl(Start))
    ensures var r := ControlSpec(s, o, env);
      && r.snap.state == s.state.(mode := IDLE)
      && r.snap.running == s.running
      && r.snap.asrConnected == (s.asrConnected || env.asrUp)
      && |r.out| >= 2
      && r.out[0] == Send(AgentTextFinal(WELCOME, env.now))
      && r.out[1] == Send(UiState(IDLE, s.state.targetSign, None, None, None, Some(s.state.currentStreak), env.now))
      && r.out[2..] == (if s.asrConnected then [] else [AsrConnect])
  {
  }

  /** A "stop" control: mode IDLE, target cleared, ASR left disconnected,
      and a disconnect request exactly when ASR was connected; nothing is sent
      to the client. */
  lemma ControlStop(s: Snapshot, o: map<string, Json>, env: Env)
    requires ParseControl(o) == Some(ClientControl(Stop))
    ensures var r := ControlSpec(s, o, env);
      && r.snap.state == s.state.(mode := IDLE, targetSign := None)
      && r.snap.running == s.running
      && !r.snap.asrConnected
      && (r.out == [AsrDisconnect] <==> s.asrConnected)
      && (r.out == [] <==> !s.asrConnected)
  {
  }

  /** "toggle_captions", or a control that fails validation, changes nothing
      and sends nothing. */
  lemma ControlIgnored(s: Snapshot, o: map<string, Json>, env: Env)
    requires ParseControl(o).None? || ParseControl(o) == Some(ClientControl(ToggleCaptions))
    ensures ControlSpec(s, o, env) == Outcome(s, [])
  {
  }

  /** start_asr while connected and stop_asr while disconnected do nothing;
      stop_asr always leaves the flag false, so a second one does nothing. */
  lemma AsrFlagRules(s: Snapshot, env: Env)
    ensures s.asrConnected ==> StartAsrSpec(s, env) == Outcome(s, [])
    ensures !s.asrConnected ==> StopAsrSpec(s) == Outcome(s, [])
    ensures !StopAsrSpec(s).snap.asrConnected
    ensures StopAsrSpec(StopAsrSpec(s).snap) == Outcome(StopAsrSpec(s).snap, [])
    ensures StartAsrSpec(s, env).snap.asrConnected <==> s.asrConnected || env.asrUp
  {
  }

  /** An audio_chunk frame never changes the session; while ASR is down it is
      dropped, and otherwise a valid chunk's data is forwarded as it came. */
  lemma AudioRules(s: Snapshot, o: map<string, Json>, env: Env)
    requires Get(o, "type", JNull) == JStr("audio_chunk")
    ensures var r := Next(s, Received(JObj(o)), env);
      && r.snap == s
      && (!s.asrConnected ==> r.out == [])
      && (s.asrConnected && ParseAudioChunk(o, env.now).Some? ==>
            r.out == [AsrAudio(ParseAudioChunk(o, env.now).value.data)])
      && (ParseAudioChunk(o, env.now).None? ==> r.out == [])
  {
  }

  /** A transcript goes out verbatim, as asr_final exactly when it is final. */
  lemma TranscriptRules(s: Snapshot, text: string, isFinal: bool, env: Env)
    ensures var r := Next(s, Transcript(text, isFinal), env);
      && r.snap == s && |r.out| == 1 && r.out[0].Send?
      && (r.out[0].msg.AsrFinal? <==> isFinal)
      && (r.out[0].msg.AsrPartial? <==> !isFinal)
      && r.out[0].msg.text == text
  {
  }

  /** A frame whose type is none of the three client tags is only logged. */
  lemma UnknownTypeIgnored(s: Snapshot, o: map<string, Json>, env: Env)
    requires Get(o, "type", JNull) !in {JStr("hand_state"), JStr("audio_chunk"), JStr("client_control")}
    ensures Next(s, Received(JObj(o)), env) == Outcome(s, [])
  {
  }

  /** A disconnect clears the running flag and nothing after it is processed. */
  lemma DisconnectEndsLoop(s: Snapshot, env: Env, rest: seq<Input>)
    requires s.running
    ensures Next(s, Disconnected, env) == Outcome(s.(running := false), [])
    ensures Loop(s, [Input(Disconnected, env)] + rest) == Outcome(s.(running := false), [])
  {
    var inputs := [Input(Disconnected, env)] + rest;
    assert inputs[0] == Input(Disconnected, env);
    LoopUnfold(s, inputs);
  }

  /** A frame that is not JSON gets exactly one error, "Invalid JSON format";
      a JSON frame that is not an object gets the error Python's AttributeError
      carries. Neither changes the session. */
  lemma ErrorReplies(s: Snapshot, data: Json, env: Env)
    requires !data.JObj?
    ensures Next(s, Malformed, env) == Outcome(s, [Send(Error("Invalid JSON format", None, env.now))])
    ensures Next(s, Received(data), env).snap == s
    ensures Next(s, Received(data), env).out ==
      [Send(Error("'" + PyTypeName(data) + "' object has no attribute 'get'", None, env.now))]
  {
  }

  /** Only a client_control frame changes the session's state or ASR flag,
      and only a disconnect changes the running flag. */
  lemma OnlyControlChangesState(s: Snapshot, e: Event, env: Env)
    ensures var r := Next(s, e, env);
      (r.snap.state != s.state || r.snap.asrConnected != s.asrConnected) ==>
        e.Received? && e.data.JObj? && Get(e.data.fields, "type", JNull) == JStr("client_control")
    ensures (Next(s, e, env).snap.running != s.running) ==> e.Disconnected?
  {
  }

  /** As written, a hand_state frame changes nothing and sends nothing,
      whatever it carries: the call `classify(landmarks, features)` passes one
      argument too many and its TypeError is only logged. */
  lemma HandStateSilent(s: Snapshot, o: map<string, Json>, env: Env)
    requires Get(o, "type", JNull) == JStr("hand_state")
    ensures Next(s, Received(JObj(o)), env) == Outcome(s, [])
  {
  }

  /** As intended, a valid hand_state frame is answered with one ui_state
      carrying the session's mode, target and streak: for fewer than 21
      landmarks no prediction, confidence 0.0 and the suggestion "No hand
      detected"; otherwise an alphabet sign, its confidence and no suggestion. */
  lemma IntendedHandStateReplyShape(st: StateView, o: map<string, Json>, d: Draw, now: int)
    ensures var r := IntendedHandStateReply(st, o, d, now);
      && (r.Some? <==> ParseHandStateMessage(o).Some?)
      && (r.Some? ==>
            var n := |ParseHandStateMessage(o).value.hand.landmarks|;
            && r.value.UiState?
            && r.value.mode == st.mode && r.value.targetSign == st.targetSign
            && r.value.streak == Some(st.currentStreak)
            && (n < MIN_LANDMARKS ==>
                  r.value.prediction.None? && r.value.confidence == Some(0.0)
                  && r.value.suggestion == Some(NO_HAND))
            && (n >= MIN_LANDMARKS ==>
                  r.value.prediction.Some? && r.value.prediction.value in ALPHABET_SIGNS
                  && r.value.confidence.Some? && 0.7 <= r.value.confidence.value <= 0.99
                  && r.value.suggestion.None?))
  {
    var msg := ParseHandStateMessage(o);
    if msg.Some? {
      var landmarks := msg.value.hand.landmarks;
      if |landmarks| >= MIN_LANDMARKS {
        ClassifyAccepted(landmarks, d);
      }
    }
  }

  /** The ui_state a session sends carries the state's mode, target and streak
      on the wire, the target under the alias "targetSign". */
  lemma UiStateOnTheWire(st: StateView, prediction: Option<string>, confidence: Option<real>,
                         suggestion: Option<string>, now: int)
    ensures var o := ServerJson(st.ToUiState(prediction, confidence, suggestion, now));
      && o["mode"] == JStr(st.mode.Value())
      && o["targetSign"] == OptStr(st.targetSign)
      && o["streak"] == JInt(st.currentStreak)
      && o["prediction"] == OptStr(prediction)
      && o["suggestion"] == OptStr(suggestion)
      && ParseUiState(o, now) == Some(st.ToUiState(prediction, confidence, suggestion, now))
  {
    UiStateRoundTrip(st.ToUiState(prediction, confidence, suggestion, now), now);
  }

  /** Closing the session leaves ASR disconnected and the loop stopped,
      asking for a disconnect exactly when ASR was connected. */
  lemma CloseRules(s: Snapshot)
    ensures var r := CloseSpec(s);
      && !r.snap.asrConnected && !r.snap.running && r.snap.state == s.state
      && (r.out == [AsrDisconnect] <==> s.asrConnected)
      && (r.out == [] <==> !s.asrConnected)
  {
  }

  // ------------------------------------------------------------------
  // The objects
  // ------------------------------------------------------------------

  class SessionState {
    var mode: SessionMode
    var targetSign: Option<string>
    var currentStreak: int
    var weakSigns: seq<string>
    var history: seq<HistoryEntry>

    constructor()
      ensures View() == INITIAL_STATE
    {
      mode := IDLE;
      targetSign := None;
      currentStreak := 0;
      weakSigns := [];
      history := [];
    }

    function View(): StateView
      reads this
    {
      StateView(mode, targetSign, currentStreak, weakSigns, history)
    }
  }

  class SessionManager {
    const state: SessionState
    var asrConnected: bool
    var running: bool

    constructor()
      ensures Snap() == INITIAL
    {
      state := new SessionState();
      asrConnected := false;
      running := false;
    }

    function Snap(): Snapshot
      reads this, state
    {
      Snapshot(state.View(), asrConnected, running)
    }

    method SendWelcome(now: int) returns (out: seq<Effect>)
      ensures out == Welcome(state.View(), now)
    {
      var ui := state.View().ToUiState(None, None, None, now);
      out := [Send(AgentTextFinal(WELCOME, now)), Send(ui)];
    }

    method StartAsr(env: Env) returns (out: seq<Effect>)
      modifies this
      ensures Snap() == StartAsrSpec(old(Snap()), env).snap
      ensures out == StartAsrSpec(old(Snap()), env).out
    {
      if asrConnected {
        return [];
      }
      out := [AsrConnect];
      asrConnected := env.asrUp;
    }

    method StopAsr() returns (out: seq<Effect>)
      modifies this
      ensures Snap() == StopAsrSpec(old(Snap())).snap
      ensures out == StopAsrSpec(old(Snap())).out
    {
      out := [];
      if asrConnected {
        out := [AsrDisconnect];
        asrConnected := false;
      }
    }

    method HandleAudioChunk(o: map<string, Json>, now: int) returns (out: seq<Effect>)
      ensures out == AudioSpec(asrConnected, o, now)
    {
      if !asrConnected {
        return [];
      }
      out := [];
      var msg := ParseAudioChunk(o, now);
      if msg.Some? && msg.value.AudioChunk? {
        out := [AsrAudio(msg.value.data)];
      }
    }

    method HandleControl(o: map<string, Json>, env: Env) returns (out: seq<Effect>)
      modifies this, state
      ensures Snap() == ControlSpec(old(Snap()), o, env).snap
      ensures out == ControlSpec(old(Snap()), o, env).out
    {
      out := [];
      var control := ParseControl(o);
      if control == Some(ClientControl(Start)) {
        state.mode := IDLE;
        out := SendWelcome(env.now);
        var asr := StartAsr(env);
        out := out + asr;
      } else if control == Some(ClientControl(Stop)) {
        state.mode := IDLE;
        state.targetSign := None;
        out := StopAsr();
      }
    }

    method Step(e: Event, env: Env) returns (out: seq<Effect>)
      modifies this, state
      ensures Snap() == Next(old(Snap()), e, env).snap
      ensures out == Next(old(Snap()), e, env).out
    {
      match e
      case Disconnected =>
        running := false;
        out := [];
      case Malformed =>
        out := [Send(Error(INVALID_JSON, None, env.now))];
      case Transcript(text, isFinal) =>
        out := [Send(TranscriptMessage(text, isFinal, env.now))];
      case Received(data) =>
        if !data.JObj? {
          out := [Send(Error(NoGetMessage(data), None, env.now))];
        } else {
          var msgType := Get(data.fields, "type", JNull);
          if msgType == JStr("hand_state") {
            out := [];
          } else if msgType == JStr("audio_chunk") {
            out := HandleAudioChunk(data.fields, env.now);
          } else if msgType == JStr("client_control") {
            out := HandleControl(data.fields, env);
          } else {
            out := [];
          }
        }
    }

    /** The `while self.running` loop over a finite sequence of inputs. */
    method Serve(inputs: seq<Input>) returns (out: seq<Effect>)
      modifies this, state
      ensures Snap() == Loop(old(Snap()), inputs).snap
      ensures out == Loop(old(Snap()), inputs).out
    {
      ghost var start := Snap();
      out := [];
      var i := 0;
      while running && i < |inputs|
        invariant 0 <= i <= |inputs|
        invariant Loop(start, inputs) ==
          Outcome(Loop(Snap(), inputs[i..]).snap, out + Loop(Snap(), inputs[i..]).out)
        decreases |inputs| - i
      {
        ghost var before := Snap();
        assert inputs[i..][1..] == inputs[i + 1..];
        var step := Step(inputs[i].event, inputs[i].env);
        LoopUnfold(before, inputs[i..]);
        ghost var rest := Loop(Snap(), inputs[i + 1..]).out;
        assert out + (step + rest) == (out + step) + rest;
        out := out + step;
        i := i + 1;
      }
    }

    method Run(env: Env, inputs: seq<Input>) returns (out: seq<Effect>)
      modifies this, state
      ensures Snap() == RunSpec(old(Snap()), env, inputs).snap
      ensures out == RunSpec(old(Snap()), env, inputs).out
    {
      running := true;
      out := SendWelcome(env.now);
      var asr := StartAsr(env);
      out := out + asr;
      var served := Serve(inputs);
      out := out + served;
    }

    method Close() returns (out: seq<Effect>)
      modifies this
      ensures Snap() == CloseSpec(old(Snap())).snap
      ensures out == CloseSpec(old(Snap())).out
    {
      out := StopAsr();
      running := false;
    }
  }
}
