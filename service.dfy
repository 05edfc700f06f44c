/** The speech daemon: a registry of voices loaded once, a current voice, a
    last rendered audio file, a playback log and a `running` flag, driven by
    one decoded request per accepted connection. The pure functions below
    give the meaning of each request; the class `TTSService` changes its
    fields in place and is proved to agree with them. */
module Service {
  import opened Text
  import opened Collab
  import opened Voices

  /** Longer texts are cut to this many characters before synthesis. */
  const MaxTextLength := 500

  /** Where every rendered utterance is written, and what is played. */
  const OutputPath := "/tmp/tts_output.wav"

  datatype Status = Success | Error

  /** The JSON object sent back on the connection; `time` (hundredths of a
      second) only on a successful `speak`. */
  datatype Response = Response(status: Status, message: string, time: Option<nat>)

  function Ok(message: string): Response { Response(Success, message, None) }

  function Err(message: string): Response { Response(Error, message, None) }

  /** A request after JSON decoding: text that is not JSON, JSON that is not an
      object (named by its Python type), or an object with its `action`,
      `text` and `voice` members (`None` when absent). */
  datatype Request =
    | InvalidJson
    | NotAnObject(typeName: string)
    | Object(action: Option<string>, text: Option<string>, voice: Option<string>)

  /** The daemon's fields. `outputExists` says whether the audio file is on
      disk (possibly left by an earlier run); `engineCalls` records every call
      of the engine. */
  datatype State = State(
    voices: VoiceDict,
    current: string,
    running: bool,
    outputExists: bool,
    playback: seq<Playback>,
    engineCalls: seq<EngineCall>)

  /** What every operation keeps: a well-formed registry and an ordered
      playback log. */
  ghost predicate Inv(s: State)
  {
    s.voices.Valid() && Ordered(s.playback)
  }

  /** The state after a request, and the response sent for it. */
  datatype Outcome = Outcome(state: State, response: Response)

  /** The text policy applied before synthesis: whitespace-only text is
      refused (`None`); any other text is kept, cut to its first
      `MaxTextLength` characters. Length alone never refuses a text. */
  function TextPolicy(text: string): (r: Option<string>)
    ensures r.None? <==> Blank(text)
    ensures r.Some? ==> |r.value| <= MaxTextLength && |r.value| <= |text| && r.value == text[..|r.value|]
    ensures r.Some? && |text| <= MaxTextLength ==> r.value == text
    ensures r.Some? && |text| > MaxTextLength ==> |r.value| == MaxTextLength
  {
    StripBlank(text);
    if Strip(text) == [] then None
    else if |text| > MaxTextLength then Some(text[..MaxTextLength])
    else Some(text)
  }

  /** The text of Python's `KeyError` for a missing string key. */
  function KeyErrorMessage(key: string): string
  {
    "'" + key + "'"
  }

  /** `generate_speech`: the text policy, the lookup of the current voice, the
      engine call, the write of the output file and the scheduling of its
      playback. Every exception becomes an error response. */
  function Speak(s: State, text: string, fx: Effects): Outcome
  {
    match TextPolicy(text)
    case None => Outcome(s, Err("Empty text"))
    case Some(t) =>
      if !s.voices.Has(s.current) then Outcome(s, Err(KeyErrorMessage(s.current)))
      else
        var called := s.(engineCalls := s.engineCalls + [EngineCall(t, s.voices.entries[s.current])]);
        match fx.synthesis
        case Raised(m) => Outcome(called, Err(m))
        case Rendered(elapsed) =>
          if fx.writeError.Some? then
            Outcome(called.(outputExists := s.outputExists || fx.writeError.value.fileLeft), Err(fx.writeError.value.message))
          else
            Outcome(
              called.(outputExists := true, playback := Schedule(s.playback, OutputPath, fx.now, fx.playFor)),
              Response(Success, "Generated in " + Fixed2(elapsed) + "s", Some(elapsed)))
  }

  /** `replay_audio`: play the output file again if it is on disk. */
  function Replay(s: State, fx: Effects): Outcome
  {
    if !s.outputExists then Outcome(s, Err("No audio file found to replay"))
    else Outcome(s.(playback := Schedule(s.playback, OutputPath, fx.now, fx.playFor)), Ok("Replaying audio"))
  }

  /** `switch_voice`: move the current voice to a registered name. */
  function Switch(s: State, name: string): Outcome
  {
    if s.voices.Has(name) then Outcome(s.(current := name), Ok("Switched to " + name))
    else Outcome(s, Err("Voice '" + name + "' not found"))
  }

  /** Python's `str()` of the `action` member, `None` when it is absent. */
  function ActionText(action: Option<string>): string
  {
    match action
    case None => "None"
    case Some(a) => a
  }

  /** `handle_request`: route a decoded request over the closed set of
      actions. A missing `text` is `''` and a missing `voice` is `'dave'`. */
  function Dispatch(s: State, req: Request, fx: Effects): Outcome
  {
    match req
    case InvalidJson => Outcome(s, Err("Invalid JSON"))
    case NotAnObject(typeName) => Outcome(s, Err("'" + typeName + "' object has no attribute 'get'"))
    case Object(action, text, voice) =>
      if action == Some("speak") then Speak(s, text.GetOr(""), fx)
      else if action == Some("replay") then Replay(s, fx)
      else if action == Some("switch_voice") then Switch(s, voice.GetOr(PreferredVoice))
      else if action == Some("stop") then Outcome(s.(running := false), Ok("Service stopping"))
      else if action == Some("ping") then Outcome(s, Ok("Service is running"))
      else Outcome(s, Err("Unknown action: " + ActionText(action)))
  }

  predicate IsStop(req: Request)
  {
    req.Object? && req.action == Some("stop")
  }

  /** The bytes read from an accepted connection: nothing, bytes that are not
      UTF-8 (the decode raises and no response is sent), or a request. */
  datatype Payload = NoData | Undecodable | Decoded(request: Request)

  /** One turn of the accept loop: `accept` timed out, or a connection was
      accepted, carrying its payload and the collaborator outcomes for its
      request. */
  datatype Connection = AcceptTimeout | Accepted(payload: Payload, fx: Effects)

  /** The loop's result: the state, the responses sent in order, and how many
      turns the loop took. */
  datatype Served = Served(state: State, replies: seq<Response>, turns: nat)

  /** The accept loop of `start_server`: while `running`, take the next
      connection; a request gets exactly one response. */
  function Serve(s: State, conns: seq<Connection>, replies: seq<Response>, turns: nat): Served
    decreases |conns|
  {
    if !s.running || conns == [] then Served(s, replies, turns)
    else match conns[0]
      case AcceptTimeout => Serve(s, conns[1..], replies, turns + 1)
      case Accepted(payload, fx) =>
        match payload
        case Decoded(req) =>
          var o := Dispatch(s, req, fx);
          Serve(o.state, conns[1..], replies + [o.response], turns + 1)
        case _ => Serve(s, conns[1..], replies, turns + 1)
  }

  /** How many of the connections carry a decodable request. */
  function Requests(conns: seq<Connection>): nat
  {
    if conns == [] then 0
    else (if conns[0].Accepted? && conns[0].payload.Decoded? then 1 else 0) + Requests(conns[1..])
  }

  /** A decoded request with the collaborator outcomes it met. */
  datatype Exchange = Exchange(request: Request, fx: Effects)

  /** The requests the connections carry, in the order they arrive; empty and
      undecodable payloads and accept timeouts carry none. */
  function Exchanges(conns: seq<Connection>): (xs: seq<Exchange>)
    ensures |xs| == Requests(conns)
  {
    if conns == [] then []
    else
      (if conns[0].Accepted? && conns[0].payload.Decoded? then [Exchange(conns[0].payload.request, conns[0].fx)] else [])
      + Exchanges(conns[1..])
  }

  /** Handling requests one after another, each from the state the earlier
      ones left: the final state and the responses, one per request. */
  function Respond(s: State, xs: seq<Exchange>): (r: (State, seq<Response>))
    ensures |r.1| == |xs|
    decreases |xs|
  {
    if xs == [] then (s, [])
    else
      var o := Dispatch(s, xs[0].request, xs[0].fx);
      var rest := Respond(o.state, xs[1..]);
      (rest.0, [o.response] + rest.1)
  }

  // ---------------------------------------------------------------------
  // What each request does

  /** An empty, whitespace-only or missing text is refused with "Empty text":
      no engine call, no output file, no playback, nothing else changes. */
  lemma {:induction false} SpeakBlankRefused(s: State, text: Option<string>, voice: Option<string>, fx: Effects)
    requires text.None? || Blank(text.value)
    ensures Dispatch(s, Object(Some("speak"), text, voice), fx) == Outcome(s, Response(Error, "Empty text", None))
  {
  }

  /** A speak with a registered current voice whose synthesis and write
      succeed answers success with its time, whatever the length of the text:
      the engine gets the text cut to 500 characters, the output file is
      marked present, and exactly one playback of it is appended, starting
      after the previous one finished. */
  lemma {:induction false} SpeakSucceeds(s: State, text: string, voice: Option<string>, fx: Effects)
    requires !Blank(text) && s.voices.Has(s.current)
    requires fx.synthesis.Rendered? && fx.writeError.None?
    ensures var o := Dispatch(s, Object(Some("speak"), Some(text), voice), fx);
      && o.response.status == Success
      && o.response.time == Some(fx.synthesis.elapsed)
      && o.state.outputExists
      && |o.state.engineCalls| == |s.engineCalls| + 1
      && o.state.engineCalls[..|s.engineCalls|] == s.engineCalls
      && var call := o.state.engineCalls[|s.engineCalls|];
      && call.voice == s.voices.entries[s.current]
      && |call.text| == (if |text| > MaxTextLength then MaxTextLength else |text|)
      && call.text == text[..|call.text|]
      && |o.state.playback| == |s.playback| + 1
      && o.state.playback[..|s.playback|] == s.playback
      && o.state.playback[|s.playback|].path == OutputPath
      && (s.playback != [] ==> s.playback[|s.playback| - 1].finish <= o.state.playback[|s.playback|].start)
      && o.state.voices == s.voices && o.state.current == s.current && o.state.running == s.running
  {
  }

  /** A speak whose current voice is not registered answers the `KeyError`
      text and calls no engine; nothing changes. */
  lemma {:induction false} SpeakUnregisteredVoice(s: State, text: string, voice: Option<string>, fx: Effects)
    requires !Blank(text) && !s.voices.Has(s.current)
    ensures Dispatch(s, Object(Some("speak"), Some(text), voice), fx) == Outcome(s, Err("'" + s.current + "'"))
  {
  }

  /** A speak whose synthesis or write raises answers the exception text and
      schedules nothing; the engine call is recorded, and the output file is
      on disk afterwards exactly when it was before or the failed write left
      one. */
  lemma {:induction false} SpeakFailureSchedulesNothing(s: State, text: string, voice: Option<string>, fx: Effects)
    requires !Blank(text) && s.voices.Has(s.current)
    requires fx.synthesis.Raised? || fx.writeError.Some?
    ensures var o := Dispatch(s, Object(Some("speak"), Some(text), voice), fx);
      && o.response == Err(if fx.synthesis.Raised? then fx.synthesis.message else fx.writeError.value.message)
      && o.state == s.(engineCalls := o.state.engineCalls, outputExists := o.state.outputExists)
      && o.state.outputExists == (s.outputExists || (fx.synthesis.Rendered? && PartialWrite(fx)))
      && |o.state.engineCalls| == |s.engineCalls| + 1
      && o.state.engineCalls[..|s.engineCalls|] == s.engineCalls
      && o.state.engineCalls[|s.engineCalls|].voice == s.voices.entries[s.current]
  {
  }

  /** Replay with no output file answers an error and schedules nothing. */
  lemma {:induction false} ReplayWithoutOutput(s: State, text: Option<string>, voice: Option<string>, fx: Effects)
    requires !s.outputExists
    ensures Dispatch(s, Object(Some("replay"), text, voice), fx) == Outcome(s, Err("No audio file found to replay"))
  {
  }

  /** Replay with the output file present appends one playback of that same
      file, after the previous playback, and answers success. */
  lemma {:induction false} ReplayWithOutput(s: State, text: Option<string>, voice: Option<string>, fx: Effects)
    requires s.outputExists
    ensures var o := Dispatch(s, Object(Some("replay"), text, voice), fx);
      && o.response == Ok("Replaying audio")
      && o.state == s.(playback := o.state.playback)
      && |o.state.playback| == |s.playback| + 1
      && o.state.playback[..|s.playback|] == s.playback
      && o.state.playback[|s.playback|].path == OutputPath
      && (s.playback != [] ==> s.playback[|s.playback| - 1].finish <= o.state.playback[|s.playback|].start)
  {
  }

  /** After a successful speak, a replay succeeds and plays the same file
      again, right after the speak's own playback. */
  lemma {:induction false} SpeakThenReplay(s: State, text: string, fx1: Effects, fx2: Effects)
    requires !Blank(text) && s.voices.Has(s.current)
    requires fx1.synthesis.Rendered? && fx1.writeError.None?
    ensures var o1 := Dispatch(s, Object(Some("speak"), Some(text), None), fx1);
      var o2 := Dispatch(o1.state, Object(Some("replay"), None, None), fx2);
      && o2.response == Ok("Replaying audio")
      && |o2.state.playback| == |s.playback| + 2
      && o2.state.playback[|s.playback|].path == o2.state.playback[|s.playback| + 1].path == OutputPath
      && o2.state.playback[|s.playback|].finish <= o2.state.playback[|s.playback| + 1].start
  {
  }

  /** Switching to a registered name selects it; to any other name, answers
      "Voice '<name>' not found" and leaves everything unchanged. A missing
      `voice` member means `dave`. */
  lemma {:induction false} SwitchVoiceGuard(s: State, text: Option<string>, voice: Option<string>, fx: Effects)
    ensures var name := voice.GetOr("dave");
      var o := Dispatch(s, Object(Some("switch_voice"), text, voice), fx);
      && (s.voices.Has(name) ==> o == Outcome(s.(current := name), Ok("Switched to " + name)))
      && (!s.voices.Has(name) ==> o == Outcome(s, Err("Voice '" + name + "' not found")))
  {
  }

  /** `stop` clears `running`, answers success and changes nothing else. */
  lemma {:induction false} StopClearsRunning(s: State, text: Option<string>, voice: Option<string>, fx: Effects)
    ensures Dispatch(s, Object(Some("stop"), text, voice), fx) == Outcome(s.(running := false), Ok("Service stopping"))
  {
  }

  /** `ping` answers success and changes nothing. */
  lemma {:induction false} PingChangesNothing(s: State, text: Option<string>, voice: Option<string>, fx: Effects)
    ensures Dispatch(s, Object(Some("ping"), text, voice), fx) == Outcome(s, Ok("Service is running"))
  {
  }

  /** Any other action, and a missing one, is answered "Unknown action: ..."
      with nothing changed; text that is not JSON is answered "Invalid JSON". */
  lemma {:induction false} UnknownAndInvalidAnswered(s: State, action: Option<string>, text: Option<string>, voice: Option<string>, fx: Effects)
    requires action !in {Some("speak"), Some("replay"), Some("switch_voice"), Some("stop"), Some("ping")}
    ensures Dispatch(s, Object(action, text, voice), fx) == Outcome(s, Err("Unknown action: " + ActionText(action)))
    ensures Dispatch(s, InvalidJson, fx) == Outcome(s, Err("Invalid JSON"))
  {
  }

  /** A `speak` request keeps the registry and the invariant, leaves the
      current voice alone and never removes the output file; on an error
      response it schedules nothing, and the output file is on disk only if
      it was before or a failed write left one. */
  lemma {:induction false} SpeakPreserves(s: State, text: string, fx: Effects)
    requires Inv(s)
    ensures var o := Speak(s, text, fx);
      && Inv(o.state)
      && o.state.voices == s.voices && o.state.current == s.current && o.state.running == s.running
      && (s.outputExists ==> o.state.outputExists)
      && (o.response.status == Error ==>
            o.state.playback == s.playback && (o.state.outputExists ==> s.outputExists || PartialWrite(fx)))
  {
    if TextPolicy(text).Some? && s.voices.Has(s.current) && fx.synthesis.Rendered? && fx.writeError.None? {
      assert Speak(s, text, fx).state.playback == Schedule(s.playback, OutputPath, fx.now, fx.playFor);
    }
  }

  /** Every request keeps the invariant, never changes the registry, never
      removes the output file, and clears `running` exactly when it is a
      `stop`; an error response leaves the current voice and the playback as
      they were, and the output file is on disk only if it was before or a
      failed write left one. */
  lemma {:induction false} DispatchPreserves(s: State, req: Request, fx: Effects)
    requires Inv(s)
    ensures var o := Dispatch(s, req, fx);
      && Inv(o.state)
      && o.state.voices == s.voices
      && o.state.running == (s.running && !IsStop(req))
      && (s.outputExists ==> o.state.outputExists)
      && (s.voices.Has(s.current) ==> o.state.voices.Has(o.state.current))
      && (o.response.status == Error ==>
            && o.state.current == s.current && o.state.playback == s.playback
            && (o.state.outputExists ==> s.outputExists || PartialWrite(fx)))
  {
    match req {
      case InvalidJson =>
      case NotAnObject(_) =>
      case Object(action, text, voice) =>
        if action == Some("speak") {
          SpeakPreserves(s, text.GetOr(""), fx);
        } else if action == Some("replay") {
        } else if action == Some("switch_voice") {
        }
    }
  }

  // ---------------------------------------------------------------------
  // The accept loop

  /** The loop sends exactly one response per connection that carries a
      request, none for an empty or undecodable one, and keeps the responses
      already sent. */
  lemma {:induction false} ServeOneReplyPerRequest(s: State, conns: seq<Connection>, replies: seq<Response>, turns: nat)
    ensures var r := Serve(s, conns, replies, turns);
      && turns <= r.turns <= turns + |conns|
      && |r.replies| == |replies| + Requests(conns[..r.turns - turns])
      && r.replies[..|replies|] == replies
    decreases |conns|
  {
    if s.running && conns != [] {
      var c := conns[0];
      var s', replies' := s, replies;
      if c.Accepted? && c.payload.Decoded? {
        var o := Dispatch(s, c.payload.request, c.fx);
        s', replies' := o.state, replies + [o.response];
      }
      ServeOneReplyPerRequest(s', conns[1..], replies', turns + 1);
      var r := Serve(s, conns, replies, turns);
      assert r == Serve(s', conns[1..], replies', turns + 1);
      assert conns[..r.turns - turns][1..] == conns[1..][..r.turns - (turns + 1)];
      assert r.replies[..|replies'|][..|replies|] == r.replies[..|replies|];
    }
  }

  /** The responses the loop sends are, in order, what handling the requests
      of the connections it took gives, each from the state the earlier ones
      left; the loop's final state is the state they leave. */
  lemma {:induction false} ServeAnswersInOrder(s: State, conns: seq<Connection>, replies: seq<Response>, turns: nat)
    ensures var r := Serve(s, conns, replies, turns);
      && turns <= r.turns <= turns + |conns|
      && var a := Respond(s, Exchanges(conns[..r.turns - turns]));
      && r.replies == replies + a.1
      && r.state == a.0
    decreases |conns|
  {
    ServeOneReplyPerRequest(s, conns, replies, turns);
    var r := Serve(s, conns, replies, turns);
    if !s.running || conns == [] {
      assert conns[..r.turns - turns] == [];
    } else {
      var c := conns[0];
      var s', replies' := s, replies;
      var head: seq<Exchange> := [];
      if c.Accepted? && c.payload.Decoded? {
        var o := Dispatch(s, c.payload.request, c.fx);
        s', replies' := o.state, replies + [o.response];
        head := [Exchange(c.payload.request, c.fx)];
      }
      assert r == Serve(s', conns[1..], replies', turns + 1);
      ServeAnswersInOrder(s', conns[1..], replies', turns + 1);
      var taken := conns[..r.turns - turns];
      var rest := conns[1..][..r.turns - (turns + 1)];
      assert taken[0] == c && taken[1..] == rest;
      var e := Exchanges(rest);
      assert Exchanges(taken) == head + e;
      if head != [] {
        assert (head + e)[0] == head[0] && (head + e)[1..] == e;
        assert replies' + Respond(s', e).1 == replies + ([Dispatch(s, c.payload.request, c.fx).response] + Respond(s', e).1);
      } else {
        assert head + e == e;
      }
    }
  }

  /** The `k`-th response of a run of requests is the response to the `k`-th
      request, handled in the state the `k` requests before it left. */
  lemma {:induction false} RespondAt(s: State, xs: seq<Exchange>, k: nat)
    requires k < |xs|
    ensures Respond(s, xs).1[k] == Dispatch(Respond(s, xs[..k]).0, xs[k].request, xs[k].fx).response
    decreases k
  {
    var o := Dispatch(s, xs[0].request, xs[0].fx);
    if k > 0 {
      RespondAt(o.state, xs[1..], k - 1);
      assert xs[..k][0] == xs[0] && xs[..k][1..] == xs[1..][..k - 1];
    }
  }

  /** The loop ends before the last connection only because `running` was
      cleared. */
  lemma {:induction false} ServeEndsOnlyWhenStopped(s: State, conns: seq<Connection>, replies: seq<Response>, turns: nat)
    ensures var r := Serve(s, conns, replies, turns);
      r.turns < turns + |conns| ==> !r.state.running
    decreases |conns|
  {
    if s.running && conns != [] {
      var c := conns[0];
      if c.Accepted? && c.payload.Decoded? {
        var o := Dispatch(s, c.payload.request, c.fx);
        ServeEndsOnlyWhenStopped(o.state, conns[1..], replies + [o.response], turns + 1);
      } else {
        ServeEndsOnlyWhenStopped(s, conns[1..], replies, turns + 1);
      }
    }
  }

  /** A `stop` request ends the loop after its own response: no connection
      after it is accepted, and the service is no longer running. */
  lemma {:induction false} ServeEndsAfterStop(s: State, conns: seq<Connection>, replies: seq<Response>, turns: nat, k: nat)
    requires k < |conns| && conns[k].Accepted? && conns[k].payload.Decoded? && IsStop(conns[k].payload.request)
    ensures var r := Serve(s, conns, replies, turns);
      r.turns <= turns + k + 1 && !r.state.running
    decreases |conns|
  {
    if s.running {
      var c := conns[0];
      var s', replies' := s, replies;
      if c.Accepted? && c.payload.Decoded? {
        var o := Dispatch(s, c.payload.request, c.fx);
        s', replies' := o.state, replies + [o.response];
      }
      if k == 0 {
        assert !s'.running;
      } else {
        ServeEndsAfterStop(s', conns[1..], replies', turns + 1, k - 1);
      }
    }
  }

  /** The loop keeps the invariant and never changes the registry. */
  lemma {:induction false} ServePreserves(s: State, conns: seq<Connection>, replies: seq<Response>, turns: nat)
    requires Inv(s)
    ensures Inv(Serve(s, conns, replies, turns).state)
    ensures Serve(s, conns, replies, turns).state.voices == s.voices
    decreases |conns|
  {
    if s.running && conns != [] {
      var c := conns[0];
      if c.Accepted? && c.payload.Decoded? {
        var o := Dispatch(s, c.payload.request, c.fx);
        DispatchPreserves(s, c.payload.request, c.fx);
        ServePreserves(o.state, conns[1..], replies + [o.response], turns + 1);
      } else {
        ServePreserves(s, conns[1..], replies, turns + 1);
      }
    }
  }

  // ---------------------------------------------------------------------
  // The daemon object

  class TTSService {
    var voices: VoiceDict
    var currentVoice: string
    var running: bool
    var outputExists: bool
    var playback: seq<Playback>
    var engineCalls: seq<EngineCall>

    function Snapshot(): State
      reads this
    {
      State(voices, currentVoice, running, outputExists, playback, engineCalls)
    }

    ghost predicate Valid()
      reads this
    {
      Inv(Snapshot())
    }

    /** A fresh daemon: no voices, `dave` selected without being checked,
        running, and an output file that may be left from an earlier run. */
    constructor (outputLeftOver: bool)
      ensures Valid()
      ensures Snapshot() == State(NoVoices, PreferredVoice, true, outputLeftOver, [], [])
    {
      voices := NoVoices;
      currentVoice := PreferredVoice;
      running := true;
      outputExists := outputLeftOver;
      playback := [];
      engineCalls := [];
    }

    /** `_load_voices`: register every `.pt` file with a paired transcript,
        skipping the ones whose load raises. Reports whether any voice is
        registered; the current voice is not touched. */
    method LoadVoices(dir: SampleDir) returns (found: bool)
      requires Valid()
      modifies this
      ensures Valid()
      ensures Snapshot() == old(Snapshot()).(voices := LoadSkipping(old(voices), dir.pts, dir.txts))
      ensures found <==> voices.entries.Keys != {}
    {
      var i := 0;
      while i < |dir.pts|
        invariant 0 <= i <= |dir.pts|
        invariant voices.Valid()
        invariant Snapshot() == old(Snapshot()).(voices := voices)
        invariant LoadSkipping(voices, dir.pts[i..], dir.txts) == LoadSkipping(old(voices), dir.pts, dir.txts)
      {
        var f := dir.pts[i];
        assert dir.pts[i..][1..] == dir.pts[i + 1..];
        if f.stem in dir.txts {
          match f.codes {
            case Some(codes) =>
              voices := voices.Set(f.stem, Voice(codes, Strip(dir.txts[f.stem])));
            case None =>
          }
        }
        i := i + 1;
      }
      found := voices.entries.Keys != {};
    }

    /** `initialize`: load the engine (`engineLoads` says whether that
        succeeds) and then the voices. The result is the engine's success
        alone: it is true even when no voice was found. */
    method Initialize(engineLoads: bool, dir: SampleDir) returns (ok: bool)
      requires Valid()
      modifies this
      ensures Valid()
      ensures ok == engineLoads
      ensures ok ==> Snapshot() == old(Snapshot()).(voices := LoadSkipping(old(voices), dir.pts, dir.txts))
      ensures !ok ==> Snapshot() == old(Snapshot())
    {
      if !engineLoads {
        return false;
      }
      var _ := LoadVoices(dir);
      ok := true;
    }

    /** `_play_audio_async`: wait for the playback in flight, then start
        playing `path`. */
    method PlayAudioAsync(path: string, now: nat, playFor: nat)
      requires Valid()
      modifies this
      ensures Valid()
      ensures Snapshot() == old(Snapshot()).(playback := Schedule(old(playback), path, now, playFor))
    {
      var start := now;
      if playback != [] && playback[|playback| - 1].finish > now {
        start := playback[|playback| - 1].finish;
      }
      playback := playback + [Playback(path, start, start + playFor)];
    }

    /** `generate_speech`. */
    method GenerateSpeech(text: string, fx: Effects) returns (r: Response)
      requires Valid()
      modifies this
      ensures Valid()
      ensures Outcome(Snapshot(), r) == Speak(old(Snapshot()), text, fx)
    {
      var policy := TextPolicy(text);
      if policy.None? {
        return Err("Empty text");
      }
      var t := policy.value;
      if !voices.Has(currentVoice) {
        return Err(KeyErrorMessage(currentVoice));
      }
      var voice := voices.entries[currentVoice];
      engineCalls := engineCalls + [EngineCall(t, voice)];
      match fx.synthesis {
        case Raised(m) =>
          r := Err(m);
        case Rendered(elapsed) =>
          if fx.writeError.Some? {
            outputExists := outputExists || fx.writeError.value.fileLeft;
            r := Err(fx.writeError.value.message);
          } else {
            outputExists := true;
            PlayAudioAsync(OutputPath, fx.now, fx.playFor);
            r := Response(Success, "Generated in " + Fixed2(elapsed) + "s", Some(elapsed));
          }
      }
    }

    /** `replay_audio`. */
    method ReplayAudio(fx: Effects) returns (r: Response)
      requires Valid()
      modifies this
      ensures Valid()
      ensures Outcome(Snapshot(), r) == Replay(old(Snapshot()), fx)
    {
      if !outputExists {
        return Err("No audio file found to replay");
      }
      PlayAudioAsync(OutputPath, fx.now, fx.playFor);
      r := Ok("Replaying audio");
    }

    /** `switch_voice`. */
    method SwitchVoice(name: string) returns (r: Response)
      requires Valid()
      modifies this
      ensures Valid()
      ensures Outcome(Snapshot(), r) == Switch(old(Snapshot()), name)
    {
      if voices.Has(name) {
        currentVoice := name;
        r := Ok("Switched to " + name);
      } else {
        r := Err("Voice '" + name + "' not found");
      }
    }

    /** `stop`: the service accepts no further connection. */
    method Stop()
      modifies this
      ensures Snapshot() == old(Snapshot()).(running := false)
    {
      running := false;
    }

    /** `handle_request`. */
    method HandleRequest(req: Request, fx: Effects) returns (r: Response)
      requires Valid()
      modifies this
      ensures Valid()
      ensures Outcome(Snapshot(), r) == Dispatch(old(Snapshot()), req, fx)
    {
      match req {
        case InvalidJson =>
          r := Err("Invalid JSON");
        case NotAnObject(typeName) =>
          r := Err("'" + typeName + "' object has no attribute 'get'");
        case Object(action, text, voice) =>
          if action == Some("speak") {
            r := GenerateSpeech(text.GetOr(""), fx);
          } else if action == Some("replay") {
            r := ReplayAudio(fx);
          } else if action == Some("switch_voice") {
            r := SwitchVoice(voice.GetOr(PreferredVoice));
          } else if action == Some("stop") {
            running := false;
            r := Ok("Service stopping");
          } else if action == Some("ping") {
            r := Ok("Service is running");
          } else {
            r := Err("Unknown action: " + ActionText(action));
          }
      }
    }

    /** `start_server`: while running, accept the next connection, read its
        request, dispatch it and send the one response. */
    method StartServer(conns: seq<Connection>) returns (replies: seq<Response>, turns: nat)
      requires Valid()
      modifies this
      ensures Valid()
      ensures Served(Snapshot(), replies, turns) == Serve(old(Snapshot()), conns, [], 0)
    {
      replies, turns := [], 0;
      while running && turns < |conns|
        invariant 0 <= turns <= |conns|
        invariant Valid()
        invariant Serve(Snapshot(), conns[turns..], replies, turns) == Serve(old(Snapshot()), conns, [], 0)
      {
        assert conns[turns..][1..] == conns[turns + 1..];
        match conns[turns] {
          case AcceptTimeout =>
          case Accepted(payload, fx) =>
            match payload {
              case Decoded(req) =>
                var response := HandleRequest(req, fx);
                replies := replies + [response];
              case NoData =>
              case Undecodable =>
            }
        }
        turns := turns + 1;
      }
    }
  }
}
