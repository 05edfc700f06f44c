/** The plain interactive front-end: it scans the voices once (encoding the
    sample recordings when no encoded voice exists), then reads lines; a line
    starting with `:` is a command, any other line is spoken in the current
    voice and played to the end before the next line is read. The pure
    functions give the meaning of each step; the class `InteractiveTTS`
    changes its fields in place in agreement with them. */
module Interactive {
  import opened Text
  import opened Collab
  import opened Voices

  const OutputPath := "output.wav"

  /** The engine's fields: the registry, the current voice (`None` before the
      scan), the audio files played (each to its end) and the engine calls
      made. */
  datatype IState = IState(voices: VoiceDict, current: Option<string>, played: seq<string>, engineCalls: seq<EngineCall>)

  /** After a successful scan: the current voice is registered. */
  ghost predicate Ready(s: IState)
  {
    s.voices.Valid() && s.current.Some? && s.voices.Has(s.current.value)
  }

  /** The stems of the `.pt` files that exist. */
  function PtStems(dir: SampleDir): set<string>
  {
    set f | f in dir.pts :: f.stem
  }

  /** `_scan_voices`: register every `.pt` file with a paired transcript (a
      failed load aborts); when nothing was registered, encode the sample
      recordings (`_create_default_voices`, a failure aborts); then select
      `dave` or the first name, which raises when there is none. `None` is
      the abort. */
  function Scan(s: IState, dir: SampleDir): Option<IState>
    requires s.voices.Valid()
  {
    match LoadStrict(s.voices, dir.pts, dir.txts)
    case None => None
    case Some(d) =>
      var filled := if |d.entries| == 0 then CreateDefaults(d, dir.wavs, PtStems(dir), dir.txts) else Some(d);
      match filled
      case None => None
      case Some(e) =>
        match DefaultVoice(e)
        case None => None
        case Some(name) => Some(s.(voices := e, current := Some(name)))
  }

  /** `switch_voice`: only a registered name is selected. */
  function Switch(s: IState, name: string): (r: IState)
    requires Ready(s)
    ensures Ready(r)
  {
    if s.voices.Has(name) then s.(current := Some(name)) else s
  }

  /** What `generate` did: returned `None` for a blank text, returned the
      generation time, or raised. */
  datatype Generated = Skipped | Spoken(elapsed: nat) | Crashed(message: string)

  datatype Generation = Generation(state: IState, outcome: Generated)

  /** `generate`: a blank text returns at once; otherwise the engine is
      called with the whole text in the current voice, the audio is written,
      and it is played to its end when `autoPlay` is set. */
  function Speak(s: IState, text: string, autoPlay: bool, fx: Effects): (g: Generation)
    requires Ready(s)
    ensures Ready(g.state)
  {
    if Strip(text) == [] then Generation(s, Skipped)
    else
      var called := s.(engineCalls := s.engineCalls + [EngineCall(text, s.voices.entries[s.current.value])]);
      match fx.synthesis
      case Raised(m) => Generation(called, Crashed(m))
      case Rendered(elapsed) =>
        if fx.writeError.Some? then Generation(called, Crashed(fx.writeError.value.message))
        else if autoPlay then Generation(called.(played := s.played + [OutputPath]), Spoken(elapsed))
        else Generation(called, Spoken(elapsed))
  }

  /** One input line, read as `run_interactive` reads it: blank, a `:`
      command (`MissingWord` when nothing follows the colon, which raises
      `IndexError`), or text to speak. */
  datatype Command = NoInput | Quit | ListVoices | SwitchTo(name: string) | Help | Unknown(word: string) | MissingWord | Say(text: string)

  /** The meaning of the words after the colon, dispatched on the first;
      `voice` without a name is an unknown command. */
  function ParseCommand(words: seq<string>): Command
  {
    if words == [] then MissingWord
    else if words[0] == "quit" || words[0] == "q" || words[0] == "exit" then Quit
    else if words[0] == "list" then ListVoices
    else if words[0] == "voice" && |words| > 1 then SwitchTo(words[1])
    else if words[0] == "help" then Help
    else Unknown(words[0])
  }

  /** The line is stripped; a `:` line is lower-cased, split on whitespace
      and dispatched on its first word. */
  function ParseLine(line: string): Command
  {
    var text := Strip(line);
    if text == [] then NoInput
    else if text[0] == ':' then ParseCommand(Split(Lower(text[1..])))
    else Say(text)
  }

  /** One line and the collaborator outcomes for what it triggers. */
  datatype Input = Input(line: string, fx: Effects)

  /** A line once read: its command and the collaborator outcomes. */
  datatype Turn = Turn(cmd: Command, fx: Effects)

  /** The lines as the loop reads them. */
  function Turns(inputs: seq<Input>): (turns: seq<Turn>)
    ensures |turns| == |inputs|
    ensures forall i :: 0 <= i < |inputs| ==> turns[i] == Turn(ParseLine(inputs[i].line), inputs[i].fx)
    decreases |inputs|
  {
    if inputs == [] then [] else [Turn(ParseLine(inputs[0].line), inputs[0].fx)] + Turns(inputs[1..])
  }

  /** One iteration of `run_interactive` for a command other than quit: the
      registry is never changed and the engine stays ready. */
  function Perform(s: IState, cmd: Command, fx: Effects): (r: IState)
    requires Ready(s)
    ensures Ready(r) && r.voices == s.voices
  {
    match cmd
    case SwitchTo(name) => Switch(s, name)
    case Say(text) => Speak(s, text, true, fx).state
    case _ => s
  }

  /** The loop's result: the state and how many lines were read. */
  datatype Session = Session(state: IState, consumed: nat)

  /** `run_interactive`: read lines until a quit command; an exception ends
      only its own iteration. */
  function Interact(s: IState, turns: seq<Turn>, consumed: nat): Session
    requires Ready(s)
    decreases |turns|
  {
    if turns == [] then Session(s, consumed)
    else if turns[0].cmd.Quit? then Session(s, consumed + 1)
    else Interact(Perform(s, turns[0].cmd, turns[0].fx), turns[1..], consumed + 1)
  }

  // ---------------------------------------------------------------------
  // What the front-end promises

  /** The engine as `__init__` leaves it. */
  const Fresh := IState(NoVoices, None, [], [])

  /** A successful scan registers exactly the `.pt` stems with a paired
      transcript, or, when there are none, exactly the `.wav` stems with a
      transcript and no `.pt` file. */
  lemma {:induction false} ScanRegisters(dir: SampleDir)
    ensures var r := Scan(Fresh, dir);
      r.Some? ==>
        r.value.voices.entries.Keys ==
          (if Loadable(dir.pts, dir.txts) != {} then Loadable(dir.pts, dir.txts)
           else Encodable(dir.wavs, PtStems(dir), dir.txts))
  {
    LoadStrictOutcome(NoVoices, dir.pts, dir.txts);
    LoadSkippingKeys(NoVoices, dir.pts, dir.txts);
    var d := LoadSkipping(NoVoices, dir.pts, dir.txts);
    if LoadStrict(NoVoices, dir.pts, dir.txts).Some? && |d.entries| == 0 {
      assert d.entries.Keys == {};
      CreateDefaultsRegisters(d, dir.wavs, PtStems(dir), dir.txts);
    }
  }

  /** After a successful scan the engine is ready, with `dave` selected when
      registered and otherwise the first name registered. */
  lemma {:induction false} ScanSelectsVoice(dir: SampleDir)
    ensures var r := Scan(Fresh, dir);
      r.Some? ==>
        && Ready(r.value)
        && (r.value.voices.Has(PreferredVoice) ==> r.value.current == Some(PreferredVoice))
        && (!r.value.voices.Has(PreferredVoice) ==> r.value.current == Some(r.value.voices.order[0]))
        && (Loadable(dir.pts, dir.txts) != {} && PreferredVoice !in Loadable(dir.pts, dir.txts) ==>
              && FirstLoading(dir.pts, dir.txts) < |dir.pts|
              && r.value.current == Some(dir.pts[FirstLoading(dir.pts, dir.txts)].stem))
        && (Loadable(dir.pts, dir.txts) == {} && PreferredVoice !in Encodable(dir.wavs, PtStems(dir), dir.txts) ==>
              && FirstEncoding(dir.wavs, PtStems(dir), dir.txts) < |dir.wavs|
              && r.value.current == Some(dir.wavs[FirstEncoding(dir.wavs, PtStems(dir), dir.txts)].stem))
  {
    var r := Scan(Fresh, dir);
    if r.Some? {
      ScanRegisters(dir);
      LoadStrictOutcome(NoVoices, dir.pts, dir.txts);
      LoadSkippingKeys(NoVoices, dir.pts, dir.txts);
      FirstLoadingSpec(dir.pts, dir.txts);
      FirstEncodingSpec(dir.wavs, PtStems(dir), dir.txts);
      var d := LoadSkipping(NoVoices, dir.pts, dir.txts);
      if Loadable(dir.pts, dir.txts) != {} {
        LoadSkippingFirst(NoVoices, dir.pts, dir.txts);
      } else {
        assert d.entries.Keys == {};
        EmptyOrder(d);
        if FirstEncoding(dir.wavs, PtStems(dir), dir.txts) < |dir.wavs| {
          CreateDefaultsFirst(d, dir.wavs, PtStems(dir), dir.txts);
        }
      }
    }
  }

  /** The scan aborts exactly when a paired `.pt` file does not load, or when
      none is registered and either a recording that needs encoding cannot be
      encoded or saved, or no recording needs encoding at all. */
  lemma {:induction false} ScanFails(dir: SampleDir)
    ensures Scan(Fresh, dir).None? <==>
      || (exists f :: f in dir.pts && Breaks(f, dir.txts))
      || (&& Loadable(dir.pts, dir.txts) == {}
          && ((exists w :: w in dir.wavs && EncodingBreaks(w, PtStems(dir), dir.txts))
              || Encodable(dir.wavs, PtStems(dir), dir.txts) == {}))
  {
    LoadStrictOutcome(NoVoices, dir.pts, dir.txts);
    LoadSkippingKeys(NoVoices, dir.pts, dir.txts);
    var d := LoadSkipping(NoVoices, dir.pts, dir.txts);
    if LoadStrict(NoVoices, dir.pts, dir.txts).Some? {
      assert LoadStrict(NoVoices, dir.pts, dir.txts) == Some(d);
      if |d.entries| == 0 {
        assert d.entries.Keys == {};
        CreateDefaultsRegisters(d, dir.wavs, PtStems(dir), dir.txts);
      } else {
        assert d.entries.Keys != {};
      }
    }
  }

  /** Switching changes the current voice only to a registered name. */
  lemma {:induction false} SwitchGuard(s: IState, name: string)
    requires Ready(s)
    ensures s.voices.Has(name) ==> Switch(s, name) == s.(current := Some(name))
    ensures !s.voices.Has(name) ==> Switch(s, name) == s
  {
  }

  /** A blank text returns `None` without calling the engine or playing. Any
      other text calls the engine once with the whole text, and plays the
      output file exactly when `autoPlay` is set and the generation
      succeeds. */
  lemma {:induction false} GeneratePlaysOnlyWhenAsked(s: IState, text: string, autoPlay: bool, fx: Effects)
    requires Ready(s)
    ensures var g := Speak(s, text, autoPlay, fx);
      && (Blank(text) ==> g == Generation(s, Skipped))
      && (!Blank(text) ==>
            && g.state.engineCalls == s.engineCalls + [EngineCall(text, s.voices.entries[s.current.value])]
            && (g.outcome.Spoken? <==> fx.synthesis.Rendered? && fx.writeError.None?)
            && g.state.played == s.played + (if autoPlay && g.outcome.Spoken? then [OutputPath] else []))
      && g.state.voices == s.voices && g.state.current == s.current
  {
    StripBlank(text);
  }

  /** The words after a colon never mean text to speak or an empty line. */
  lemma {:induction false} CommandIsNotText(words: seq<string>)
    ensures !ParseCommand(words).Say? && !ParseCommand(words).NoInput?
  {
  }

  /** A switch command names the second word. */
  lemma {:induction false} SwitchTakesSecondWord(words: seq<string>)
    requires ParseCommand(words).SwitchTo?
    ensures |words| > 1 && ParseCommand(words).name == words[1]
  {
  }

  /** A line is spoken exactly when it is not blank and does not start with
      `:` once stripped; what is spoken is the stripped line. */
  lemma {:induction false} ParseSay(line: string)
    ensures ParseLine(line).Say? <==> Strip(line) != [] && Strip(line)[0] != ':'
    ensures ParseLine(line).Say? ==> ParseLine(line).text == Strip(line)
  {
    var text := Strip(line);
    if text != [] && text[0] == ':' {
      CommandIsNotText(Split(Lower(text[1..])));
    }
  }

  /** Commands are case-insensitive: lower-casing a command line does not
      change what it means. */
  lemma {:induction false} CommandsIgnoreCase(line: string)
    requires Strip(line) != [] && Strip(line)[0] == ':'
    ensures ParseLine(Lower(line)) == ParseLine(line)
  {
    StripLower(line);
    var text := Strip(line);
    var low := Strip(Lower(line));
    LowerAt(text, 0);
    LowerDrop(text, 1);
    assert low[0] == ':';
    assert low[1..] == Lower(text[1..]);
    LowerIdempotent(text[1..]);
    assert Lower(low[1..]) == Lower(text[1..]);
  }

  /** A voice named in a command is a lower-case word without whitespace. */
  lemma {:induction false} SwitchNameIsLowerWord(line: string)
    requires ParseLine(line).SwitchTo?
    ensures ParseLine(line).name != [] && Solid(ParseLine(line).name) && IsLower(ParseLine(line).name)
  {
    var text := Strip(line);
    assert text != [] && text[0] == ':';
    var words := Split(Lower(text[1..]));
    SwitchTakesSecondWord(words);
    LowerIsLower(text[1..]);
    SplitLower(Lower(text[1..]));
    SplitWords(Lower(text[1..]));
    assert words[1] in words;
  }

  /** A bare `:` (with any trailing whitespace) has no first word: its
      iteration raises `IndexError`, which the loop catches. */
  lemma {:induction false} BareColonHasNoWord(pad: string)
    requires Blank(pad)
    ensures ParseLine(":" + pad) == MissingWord
  {
    StripPadded(":", pad);
    assert Lower(":"[1..]) == [];
    SplitBlank([]);
  }

  /** The loop reads no line after a quit command. */
  lemma {:induction false} InteractStopsAtQuit(s: IState, turns: seq<Turn>, consumed: nat, k: nat)
    requires Ready(s)
    requires k < |turns| && turns[k].cmd.Quit?
    ensures Interact(s, turns, consumed).consumed <= consumed + k + 1
    decreases |turns|
  {
    if k > 0 && !turns[0].cmd.Quit? {
      InteractStopsAtQuit(Perform(s, turns[0].cmd, turns[0].fx), turns[1..], consumed + 1, k - 1);
    }
  }

  /** Along the loop the registry is never changed, a registered voice stays
      selected, and at most every line is read. */
  lemma {:induction false} InteractKeepsReady(s: IState, turns: seq<Turn>, consumed: nat)
    requires Ready(s)
    ensures var r := Interact(s, turns, consumed);
      Ready(r.state) && r.state.voices == s.voices && consumed <= r.consumed <= consumed + |turns|
    decreases |turns|
  {
    if turns != [] && !turns[0].cmd.Quit? {
      InteractKeepsReady(Perform(s, turns[0].cmd, turns[0].fx), turns[1..], consumed + 1);
    }
  }

  /** Without a quit command every line is read: failures, unknown commands,
      `:voice` without a name and a bare `:` never end the loop. */
  lemma {:induction false} InteractReadsAll(s: IState, turns: seq<Turn>, consumed: nat)
    requires Ready(s)
    requires forall i :: 0 <= i < |turns| ==> !turns[i].cmd.Quit?
    ensures Interact(s, turns, consumed).consumed == consumed + |turns|
    decreases |turns|
  {
    if turns != [] {
      assert forall i :: 0 <= i < |turns| - 1 ==> turns[1..][i] == turns[i + 1];
      InteractReadsAll(Perform(s, turns[0].cmd, turns[0].fx), turns[1..], consumed + 1);
    }
  }

  /** A line of text is spoken, stripped, in the current voice and played to
      its end when generated: the state is what `generate` leaves. A voice
      command has the effect of switching, and every other command changes
      nothing. */
  lemma {:induction false} PerformLine(s: IState, line: string, fx: Effects)
    requires Ready(s)
    ensures var r := Perform(s, ParseLine(line), fx);
      var g := Speak(s, Strip(line), true, fx);
      && (Strip(line) != [] && Strip(line)[0] != ':' ==>
            && r == g.state
            && r.engineCalls == s.engineCalls + [EngineCall(Strip(line), s.voices.entries[s.current.value])]
            && r.played == s.played + (if g.outcome.Spoken? then [OutputPath] else []))
      && (ParseLine(line).SwitchTo? ==> r == Switch(s, ParseLine(line).name))
      && (!ParseLine(line).Say? && !ParseLine(line).SwitchTo? ==> r == s)
  {
    ParseSay(line);
    if Strip(line) != [] && Strip(line)[0] != ':' {
      StripEnds(line);
      StripBlank(Strip(line));
      GeneratePlaysOnlyWhenAsked(s, Strip(line), true, fx);
    }
  }

  /** The line read is text to speak that is not blank. */
  predicate Speaks(t: Turn)
  {
    t.cmd.Say? && !Blank(t.cmd.text)
  }

  /** The text one line has the engine speak, if any. */
  function SpokenText(t: Turn): seq<string>
  {
    if Speaks(t) then [t.cmd.text] else []
  }

  /** The texts the engine is asked to speak for these lines, in order: the
      text of each line to speak that is not blank. */
  function SpokenTexts(turns: seq<Turn>): seq<string>
    decreases |turns|
  {
    if turns == [] then [] else SpokenText(turns[0]) + SpokenTexts(turns[1..])
  }

  /** The first `k` lines speak what the first one does, then what the next
      `k - 1` do. */
  lemma {:induction false} SpokenTextsTake(turns: seq<Turn>, k: nat)
    requires 1 <= k <= |turns|
    ensures SpokenTexts(turns[..k]) == SpokenText(turns[0]) + SpokenTexts(turns[1..][..k - 1])
  {
    assert turns[..k][0] == turns[0] && turns[..k][1..] == turns[1..][..k - 1];
  }

  /** The texts spoken over `k` lines are those of the first line, then those
      of the next `k - 1`. */
  lemma {:induction false} TextsCons(turns: seq<Turn>, k: nat, before: seq<string>, next: seq<string>, last: seq<string>)
    requires 1 <= k <= |turns|
    requires next == before + SpokenText(turns[0])
    requires last == next + SpokenTexts(turns[1..][..k - 1])
    ensures last == before + SpokenTexts(turns[..k])
  {
    SpokenTextsTake(turns, k);
    assert (before + SpokenText(turns[0])) + SpokenTexts(turns[1..][..k - 1])
        == before + (SpokenText(turns[0]) + SpokenTexts(turns[1..][..k - 1]));
  }

  /** One iteration adds to the engine calls exactly the text of a line to
      speak that is not blank. */
  lemma {:induction false} PerformCalls(s: IState, t: Turn)
    requires Ready(s)
    ensures Texts(Perform(s, t.cmd, t.fx).engineCalls) == Texts(s.engineCalls) + SpokenText(t)
  {
    if t.cmd.Say? {
      GeneratePlaysOnlyWhenAsked(s, t.cmd.text, true, t.fx);
      if !Blank(t.cmd.text) {
        TextsSnoc(s.engineCalls, EngineCall(t.cmd.text, s.voices.entries[s.current.value]));
      }
    }
  }

  /** Across the loop the engine is asked to speak exactly the lines read
      that are text and not blank, in the order they were read. */
  lemma {:induction false} InteractSpeaksLines(s: IState, turns: seq<Turn>, consumed: nat)
    requires Ready(s)
    ensures var r := Interact(s, turns, consumed);
      && consumed <= r.consumed <= consumed + |turns|
      && Texts(r.state.engineCalls) == Texts(s.engineCalls) + SpokenTexts(turns[..r.consumed - consumed])
    decreases |turns|
  {
    if turns == [] {
      assert turns[..0] == [];
    } else if turns[0].cmd.Quit? {
      SpokenTextsTake(turns, 1);
      assert turns[1..][..0] == [];
    } else {
      var p := Perform(s, turns[0].cmd, turns[0].fx);
      var r := Interact(p, turns[1..], consumed + 1);
      assert Interact(s, turns, consumed) == r by {
        InteractUnfold(s, turns, consumed);
      }
      assert consumed + 1 <= r.consumed <= consumed + |turns|
          && Texts(r.state.engineCalls) == Texts(p.engineCalls) + SpokenTexts(turns[1..][..r.consumed - (consumed + 1)]) by {
        InteractSpeaksLines(p, turns[1..], consumed + 1);
      }
      var before, next, last := Texts(s.engineCalls), Texts(p.engineCalls), Texts(r.state.engineCalls);
      assert next == before + SpokenText(turns[0]) by {
        PerformCalls(s, turns[0]);
      }
      TextsCons(turns, r.consumed - consumed, before, next, last);
    }
  }

  /** A line other than quit hands the loop on to the rest of the lines. */
  lemma {:induction false} InteractUnfold(s: IState, turns: seq<Turn>, consumed: nat)
    requires Ready(s) && turns != [] && !turns[0].cmd.Quit?
    ensures Interact(s, turns, consumed) == Interact(Perform(s, turns[0].cmd, turns[0].fx), turns[1..], consumed + 1)
  {
  }

  // ---------------------------------------------------------------------
  // The engine object

  class InteractiveTTS {
    var voices: VoiceDict
    var currentVoice: Option<string>
    var played: seq<string>
    var engineCalls: seq<EngineCall>

    function Snapshot(): IState
      reads this
    {
      IState(voices, currentVoice, played, engineCalls)
    }

    constructor ()
      ensures Snapshot() == IState(NoVoices, None, [], [])
    {
      voices := NoVoices;
      currentVoice := None;
      played := [];
      engineCalls := [];
    }

    /** `_create_default_voices`. A `false` result is the exception that ends
        the program. */
    method CreateDefaultVoices(dir: SampleDir) returns (ok: bool)
      requires voices.Valid()
      modifies this
      ensures ok == CreateDefaults(old(voices), dir.wavs, PtStems(dir), dir.txts).Some?
      ensures ok ==> Snapshot() == old(Snapshot()).(voices := CreateDefaults(old(voices), dir.wavs, PtStems(dir), dir.txts).value)
    {
      var ptStems := PtStems(dir);
      var i := 0;
      while i < |dir.wavs|
        invariant 0 <= i <= |dir.wavs|
        invariant voices.Valid()
        invariant Snapshot() == old(Snapshot()).(voices := voices)
        invariant CreateDefaults(voices, dir.wavs[i..], ptStems, dir.txts) == CreateDefaults(old(voices), dir.wavs, ptStems, dir.txts)
      {
        var w := dir.wavs[i];
        assert dir.wavs[i..][1..] == dir.wavs[i + 1..];
        if w.stem in dir.txts && w.stem !in ptStems {
          if w.encoded.None? || !w.saved {
            return false;
          }
          voices := voices.Set(w.stem, Voice(w.encoded.value, Strip(dir.txts[w.stem])));
        }
        i := i + 1;
      }
      ok := true;
    }

    /** The `.pt` loop of `_scan_voices`. A `false` result is the exception
        of a failed load. */
    method LoadEncodedVoices(dir: SampleDir) returns (ok: bool)
      requires voices.Valid()
      modifies this
      ensures ok == LoadStrict(old(voices), dir.pts, dir.txts).Some?
      ensures ok ==> Snapshot() == old(Snapshot()).(voices := LoadStrict(old(voices), dir.pts, dir.txts).value)
    {
      var i := 0;
      while i < |dir.pts|
        invariant 0 <= i <= |dir.pts|
        invariant voices.Valid()
        invariant Snapshot() == old(Snapshot()).(voices := voices)
        invariant LoadStrict(voices, dir.pts[i..], dir.txts) == LoadStrict(old(voices), dir.pts, dir.txts)
      {
        var f := dir.pts[i];
        assert dir.pts[i..][1..] == dir.pts[i + 1..];
        if f.stem in dir.txts {
          match f.codes {
            case None =>
              return false;
            case Some(codes) =>
              voices := voices.Set(f.stem, Voice(codes, Strip(dir.txts[f.stem])));
          }
        }
        i := i + 1;
      }
      ok := true;
    }

    /** `_scan_voices`. A `false` result is the exception that ends the
        program. */
    method ScanVoices(dir: SampleDir) returns (ok: bool)
      requires voices.Valid()
      modifies this
      ensures ok == Scan(old(Snapshot()), dir).Some?
      ensures ok ==> Snapshot() == Scan(old(Snapshot()), dir).value
    {
      ok := LoadEncodedVoices(dir);
      if !ok {
        return;
      }
      if |voices.entries| == 0 {
        var created := CreateDefaultVoices(dir);
        if !created {
          return false;
        }
      }
      if voices.Has(PreferredVoice) {
        currentVoice := Some(PreferredVoice);
      } else if voices.order == [] {
        return false;
      } else {
        currentVoice := Some(voices.order[0]);
      }
    }

    /** `generate`; playback runs to its end before it returns. */
    method Generate(text: string, autoPlay: bool, fx: Effects) returns (out: Generated)
      requires Ready(Snapshot())
      modifies this
      ensures Generation(Snapshot(), out) == Speak(old(Snapshot()), text, autoPlay, fx)
    {
      if Strip(text) == [] {
        return Skipped;
      }
      var voice := voices.entries[currentVoice.value];
      engineCalls := engineCalls + [EngineCall(text, voice)];
      match fx.synthesis {
        case Raised(m) =>
          out := Crashed(m);
        case Rendered(elapsed) =>
          if fx.writeError.Some? {
            out := Crashed(fx.writeError.value.message);
          } else {
            if autoPlay {
              played := played + [OutputPath];
            }
            out := Spoken(elapsed);
          }
      }
    }

    /** `switch_voice`. */
    method SwitchVoice(name: string)
      requires Ready(Snapshot())
      modifies this
      ensures Snapshot() == Switch(old(Snapshot()), name)
    {
      if voices.Has(name) {
        currentVoice := Some(name);
      }
    }

    /** `run_interactive`: returns the number of lines read. */
    method RunInteractive(inputs: seq<Input>) returns (consumed: nat)
      requires Ready(Snapshot())
      modifies this
      ensures Session(Snapshot(), consumed) == Interact(old(Snapshot()), Turns(inputs), 0)
    {
      consumed := 0;
      while consumed < |inputs|
        invariant 0 <= consumed <= |inputs|
        invariant Ready(Snapshot())
        invariant Interact(Snapshot(), Turns(inputs[consumed..]), consumed) == Interact(old(Snapshot()), Turns(inputs), 0)
      {
        var input := inputs[consumed];
        var cmd := ParseLine(input.line);
        assert inputs[consumed..][1..] == inputs[consumed + 1..];
        assert Turns(inputs[consumed..]) == [Turn(cmd, input.fx)] + Turns(inputs[consumed + 1..]);
        consumed := consumed + 1;
        if cmd.Quit? {
          break;
        }
        Execute(cmd, input.fx);
      }
    }

    /** One iteration of `run_interactive` for a command other than quit. */
    method Execute(cmd: Command, fx: Effects)
      requires Ready(Snapshot())
      modifies this
      ensures Snapshot() == Perform(old(Snapshot()), cmd, fx)
    {
      match cmd {
        case SwitchTo(name) =>
          SwitchVoice(name);
        case Say(text) =>
          var _ := Generate(text, true, fx);
        case _ =>
      }
    }

    /** `run_single`: one generation, played to its end. */
    method RunSingle(text: string, fx: Effects) returns (out: Generated)
      requires Ready(Snapshot())
      modifies this
      ensures Generation(Snapshot(), out) == Speak(old(Snapshot()), text, true, fx)
    {
      out := Generate(text, true, fx);
    }
  }

  /** The voice option of `main`: switch only when a non-empty name is
      registered. */
  method ApplyVoiceOption(engine: InteractiveTTS, name: string)
    requires Ready(engine.Snapshot())
    modifies engine
    ensures name != "" && old(engine.voices.Has(name)) ==> engine.Snapshot() == old(engine.Snapshot()).(current := Some(name))
    ensures !(name != "" && old(engine.voices.Has(name))) ==> engine.Snapshot() == old(engine.Snapshot())
  {
    if name != "" && engine.voices.Has(name) {
      engine.SwitchVoice(name);
    }
  }
}
