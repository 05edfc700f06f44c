/** The fast interactive front-end: it scans the voices once, then reads
    lines; a line starting with `:` is a command, any other line is spoken
    in the current voice, its audio played in the background one file after
    another. The pure functions give the meaning of each step; the class
    `BlazingFastTTS` changes its fields in place in agreement with them. */
module Blazing {
  import opened Text
  import opened Collab
  import opened Voices

  const OutputPath := "output.wav"

  /** The engine's fields: the registry, the current voice (`None` before the
      scan), the playback log and the engine calls made. */
  datatype BState = BState(voices: VoiceDict, current: Option<string>, playback: seq<Playback>, engineCalls: seq<EngineCall>)

  /** After a successful scan: the current voice is registered and the
      playback log is ordered. */
  ghost predicate Ready(s: BState)
  {
    s.voices.Valid() && s.current.Some? && s.voices.Has(s.current.value) && Ordered(s.playback)
  }

  /** `_scan_voices`: register every `.pt` file with a paired transcript (a
      failed load aborts), then select `dave` or the first name; with no
      voice at all the selection raises. `None` is the abort. */
  function Scan(s: BState, dir: SampleDir): Option<BState>
    requires s.voices.Valid()
  {
    match LoadStrict(s.voices, dir.pts, dir.txts)
    case None => None
    case Some(d) =>
      match DefaultVoice(d)
      case None => None
      case Some(name) => Some(s.(voices := d, current := Some(name)))
  }

  /** `switch_voice`: only a registered name is selected. */
  function Switch(s: BState, name: string): (r: BState)
    requires Ready(s)
    ensures Ready(r)
  {
    if s.voices.Has(name) then s.(current := Some(name)) else s
  }

  /** What `generate` did: returned `None` for a blank text, returned the
      generation time, or raised. */
  datatype Generated = Skipped | Spoken(elapsed: nat) | Crashed(message: string)

  datatype Generation = Generation(state: BState, outcome: Generated)

  /** `generate`: a blank text returns at once; otherwise the engine is
      called with the whole text in the current voice, the audio is written,
      and it is played in the background when `autoPlay` is set. */
  function Speak(s: BState, text: string, autoPlay: bool, fx: Effects): (g: Generation)
    requires Ready(s)
    ensures Ready(g.state)
  {
    if Strip(text) == [] then Generation(s, Skipped)
    else
      var called := s.(engineCalls := s.engineCalls + [EngineCall(text, s.voices.entries[s.current.value])]);
      match fx.synthesis
      case Raised(m) => Generation(called, Crashed(m))
      case Rendered(elapsed) =>
        if fx.writeError.Some? then Generation(called, Crashed(fx.writeError.value.message))
        else if autoPlay then Generation(called.(playback := Schedule(s.playback, OutputPath, fx.now, fx.playFor)), Spoken(elapsed))
        else Generation(called, Spoken(elapsed))
  }

  /** One input line, read as `run_interactive` reads it: blank, a `:`
      command (`MissingWord` when nothing follows the colon, which raises
      `IndexError`), or text to speak. */
  datatype Command = NoInput | Quit | ListVoices | SwitchTo(name: string) | Stats | Unknown(word: string) | MissingWord | Say(text: string)

  /** The meaning of the words after the colon, dispatched on the first. */
  function ParseCommand(words: seq<string>): Command
  {
    if words == [] then MissingWord
    else if words[0] == "q" || words[0] == "quit" then Quit
    else if words[0] == "l" || words[0] == "list" then ListVoices
    else if (words[0] == "v" || words[0] == "voice") && |words| > 1 then SwitchTo(words[1])
    else if words[0] == "s" then Stats
    else Unknown(words[0])
  }

  /** The line is stripped; a `:` line is lower-cased, split on whitespace
      and dispatched on its first word. */
  function ParseLine(line: string): Command
  {
    var text := Strip(line);
    if text == [] then NoInput
    else if text[0] == ':' then ParseCommand(Split(Lower(text[1..])))
    else Say(text)
  }

  /** One line and the collaborator outcomes for what it triggers. */
  datatype Input = Input(line: string, fx: Effects)

  /** The engine state and the recorded generation times. */
  datatype Progress = Progress(state: BState, times: seq<nat>)

  /** One iteration of `run_interactive` for a command other than quit. A
      spoken line's time is recorded only when it is non-zero (Python's
      truthiness); the registry is never changed, the engine stays ready,
      and earlier times are kept. */
  function Perform(s: BState, cmd: Command, fx: Effects, times: seq<nat>): (p: Progress)
    requires Ready(s)
    ensures Ready(p.state) && p.state.voices == s.voices
    ensures |times| <= |p.times| && p.times[..|times|] == times
    ensures forall i :: |times| <= i < |p.times| ==> p.times[i] > 0
  {
    match cmd
    case SwitchTo(name) => Progress(Switch(s, name), times)
    case Say(text) =>
      var g := Speak(s, text, true, fx);
      if g.outcome.Spoken? && g.outcome.elapsed > 0 then Progress(g.state, times + [g.outcome.elapsed])
      else Progress(g.state, times)
    case _ => Progress(s, times)
  }

  /** A line once read: its command and the collaborator outcomes. */
  datatype Turn = Turn(cmd: Command, fx: Effects)

  /** The lines as the loop reads them. */
  function Turns(inputs: seq<Input>): (turns: seq<Turn>)
    ensures |turns| == |inputs|
    ensures forall i :: 0 <= i < |inputs| ==> turns[i] == Turn(ParseLine(inputs[i].line), inputs[i].fx)
    decreases |inputs|
  {
    if inputs == [] then [] else [Turn(ParseLine(inputs[0].line), inputs[0].fx)] + Turns(inputs[1..])
  }

  /** The loop's result: the state, the recorded generation times, and how
      many lines were read. */
  datatype Session = Session(state: BState, times: seq<nat>, consumed: nat)

  /** `run_interactive`: read lines until a quit command; an exception ends
      only its own iteration. */
  function Interact(s: BState, turns: seq<Turn>, times: seq<nat>, consumed: nat): Session
    requires Ready(s)
    decreases |turns|
  {
    if turns == [] then Session(s, times, consumed)
    else if turns[0].cmd.Quit? then Session(s, times, consumed + 1)
    else
      var p := Perform(s, turns[0].cmd, turns[0].fx, times);
      Interact(p.state, turns[1..], p.times, consumed + 1)
  }

  // ---------------------------------------------------------------------
  // What the front-end promises

  /** The engine as `__init__` leaves it. */
  const Fresh := BState(NoVoices, None, [], [])

  /** The scan aborts exactly when a paired `.pt` file does not load or no
      voice is found. */
  lemma {:induction false} ScanFails(dir: SampleDir)
    ensures Scan(Fresh, dir).None? <==> (exists f :: f in dir.pts && Breaks(f, dir.txts)) || Loadable(dir.pts, dir.txts) == {}
  {
    LoadStrictOutcome(NoVoices, dir.pts, dir.txts);
    LoadSkippingKeys(NoVoices, dir.pts, dir.txts);
  }

  /** A successful scan registers exactly the `.pt` stems with a paired
      transcript and selects `dave` when registered, otherwise the first name
      registered. */
  lemma {:induction false} ScanSelectsVoice(dir: SampleDir)
    ensures var r := Scan(Fresh, dir);
      r.Some? ==>
        && Ready(r.value)
        && r.value.voices.entries.Keys == Loadable(dir.pts, dir.txts)
        && (PreferredVoice in Loadable(dir.pts, dir.txts) ==> r.value.current == Some(PreferredVoice))
        && (PreferredVoice !in Loadable(dir.pts, dir.txts) ==> r.value.current == Some(r.value.voices.order[0]))
        && (PreferredVoice !in Loadable(dir.pts, dir.txts) ==>
              && FirstLoading(dir.pts, dir.txts) < |dir.pts|
              && r.value.current == Some(dir.pts[FirstLoading(dir.pts, dir.txts)].stem))
  {
    LoadStrictOutcome(NoVoices, dir.pts, dir.txts);
    LoadSkippingKeys(NoVoices, dir.pts, dir.txts);
    FirstLoadingSpec(dir.pts, dir.txts);
    if Scan(Fresh, dir).Some? && FirstLoading(dir.pts, dir.txts) < |dir.pts| {
      LoadSkippingFirst(NoVoices, dir.pts, dir.txts);
    }
  }

  /** Switching changes the current voice only to a registered name. */
  lemma {:induction false} SwitchGuard(s: BState, name: string)
    requires Ready(s)
    ensures s.voices.Has(name) ==> Switch(s, name) == s.(current := Some(name))
    ensures !s.voices.Has(name) ==> Switch(s, name) == s
  {
  }

  /** A blank text returns `None` without calling the engine. Any other text
      calls the engine once with the whole text, and schedules one playback
      exactly when `autoPlay` is set and the generation succeeds. */
  lemma {:induction false} GeneratePlaysOnlyWhenAsked(s: BState, text: string, autoPlay: bool, fx: Effects)
    requires Ready(s)
    ensures var g := Speak(s, text, autoPlay, fx);
      && (Blank(text) ==> g == Generation(s, Skipped))
      && (!Blank(text) ==>
            && g.state.engineCalls == s.engineCalls + [EngineCall(text, s.voices.entries[s.current.value])]
            && (g.outcome.Spoken? <==> fx.synthesis.Rendered? && fx.writeError.None?)
            && |g.state.playback| == |s.playback| + (if autoPlay && g.outcome.Spoken? then 1 else 0)
            && g.state.playback[..|s.playback|] == s.playback)
      && g.state.voices == s.voices && g.state.current == s.current
  {
    StripBlank(text);
  }

  /** The words after a colon never mean text to speak or an empty line. */
  lemma {:induction false} CommandIsNotText(words: seq<string>)
    ensures !ParseCommand(words).Say? && !ParseCommand(words).NoInput?
  {
  }

  /** A switch command names the second word. */
  lemma {:induction false} SwitchTakesSecondWord(words: seq<string>)
    requires ParseCommand(words).SwitchTo?
    ensures |words| > 1 && ParseCommand(words).name == words[1]
  {
  }

  /** A line is spoken exactly when it is not blank and does not start with
      `:` once stripped; what is spoken is the stripped line. */
  lemma {:induction false} ParseSay(line: string)
    ensures ParseLine(line).Say? <==> Strip(line) != [] && Strip(line)[0] != ':'
    ensures ParseLine(line).Say? ==> ParseLine(line).text == Strip(line)
  {
    var text := Strip(line);
    if text != [] && text[0] == ':' {
      CommandIsNotText(Split(Lower(text[1..])));
    }
  }

  /** Commands are case-insensitive: lower-casing a command line does not
      change what it means. */
  lemma {:induction false} CommandsIgnoreCase(line: string)
    requires Strip(line) != [] && Strip(line)[0] == ':'
    ensures ParseLine(Lower(line)) == ParseLine(line)
  {
    StripLower(line);
    var text := Strip(line);
    var low := Strip(Lower(line));
    LowerAt(text, 0);
    LowerDrop(text, 1);
    assert low[0] == ':';
    assert low[1..] == Lower(text[1..]);
    LowerIdempotent(text[1..]);
    assert Lower(low[1..]) == Lower(text[1..]);
  }

  /** A voice named in a command is a lower-case word without whitespace. */
  lemma {:induction false} SwitchNameIsLowerWord(line: string)
    requires ParseLine(line).SwitchTo?
    ensures ParseLine(line).name != [] && Solid(ParseLine(line).name) && IsLower(ParseLine(line).name)
  {
    var text := Strip(line);
    assert text != [] && text[0] == ':';
    var words := Split(Lower(text[1..]));
    SwitchTakesSecondWord(words);
    LowerIsLower(text[1..]);
    SplitLower(Lower(text[1..]));
    SplitWords(Lower(text[1..]));
    assert words[1] in words;
  }

  /** A bare `:` (with any trailing whitespace) has no first word: its
      iteration raises `IndexError`, which the loop catches. */
  lemma {:induction false} BareColonHasNoWord(pad: string)
    requires Blank(pad)
    ensures ParseLine(":" + pad) == MissingWord
  {
    StripPadded(":", pad);
    assert Lower(":"[1..]) == [];
    SplitBlank([]);
  }

  /** The loop reads no line after a quit command. */
  lemma {:induction false} InteractStopsAtQuit(s: BState, turns: seq<Turn>, times: seq<nat>, consumed: nat, k: nat)
    requires Ready(s)
    requires k < |turns| && turns[k].cmd.Quit?
    ensures Interact(s, turns, times, consumed).consumed <= consumed + k + 1
    decreases |turns|
  {
    if k > 0 && !turns[0].cmd.Quit? {
      var p := Perform(s, turns[0].cmd, turns[0].fx, times);
      InteractStopsAtQuit(p.state, turns[1..], p.times, consumed + 1, k - 1);
    }
  }

  /** Along the loop the registry is never changed, a registered voice stays
      selected, the playback log stays ordered, and at most every line is
      read. */
  lemma {:induction false} InteractKeepsReady(s: BState, turns: seq<Turn>, times: seq<nat>, consumed: nat)
    requires Ready(s)
    ensures var r := Interact(s, turns, times, consumed);
      Ready(r.state) && r.state.voices == s.voices && consumed <= r.consumed <= consumed + |turns|
    decreases |turns|
  {
    if turns != [] && !turns[0].cmd.Quit? {
      var p := Perform(s, turns[0].cmd, turns[0].fx, times);
      InteractKeepsReady(p.state, turns[1..], p.times, consumed + 1);
    }
  }

  /** The loop only records non-zero times, after the earlier ones. */
  lemma {:induction false} InteractRecordsTimes(s: BState, turns: seq<Turn>, times: seq<nat>, consumed: nat)
    requires Ready(s)
    ensures var r := Interact(s, turns, times, consumed);
      |times| <= |r.times| && r.times[..|times|] == times && forall i :: |times| <= i < |r.times| ==> r.times[i] > 0
    decreases |turns|
  {
    if turns != [] && !turns[0].cmd.Quit? {
      var p := Perform(s, turns[0].cmd, turns[0].fx, times);
      InteractRecordsTimes(p.state, turns[1..], p.times, consumed + 1);
      var r := Interact(p.state, turns[1..], p.times, consumed + 1);
      assert r.times[..|p.times|][..|times|] == r.times[..|times|];
      assert forall i :: |times| <= i < |p.times| ==> r.times[i] == p.times[i];
    }
  }

  /** The lines to speak among these are not blank. */
  ghost predicate TextNotBlank(turns: seq<Turn>)
  {
    forall i :: 0 <= i < |turns| && turns[i].cmd.Say? ==> !Blank(turns[i].cmd.text)
  }

  /** Every line `ParseLine` reads as text to speak is a stripped line that
      is not empty, hence not blank. */
  lemma {:induction false} TurnsTextNotBlank(inputs: seq<Input>)
    ensures TextNotBlank(Turns(inputs))
  {
    forall i | 0 <= i < |inputs| && Turns(inputs)[i].cmd.Say?
      ensures !Blank(Turns(inputs)[i].cmd.text)
    {
      var line := inputs[i].line;
      ParseSay(line);
      StripEnds(line);
    }
  }

  /** The loop records, after the earlier times, exactly the non-zero times
      of the lines whose generation succeeded, in the order they were read.
      Lines to speak are never blank once parsed (`TurnsTextNotBlank`). */
  lemma {:induction false} InteractTimes(s: BState, turns: seq<Turn>, times: seq<nat>, consumed: nat)
    requires Ready(s) && TextNotBlank(turns)
    ensures var r := Interact(s, turns, times, consumed);
      && consumed <= r.consumed <= consumed + |turns|
      && r.times == times + RecordedTimes(turns[..r.consumed - consumed])
    decreases |turns|
  {
    if turns == [] {
      assert turns[..0] == [];
    } else if turns[0].cmd.Quit? {
      RecordedTimesTake(turns, 1);
      assert turns[1..][..0] == [];
    } else {
      var p := Perform(s, turns[0].cmd, turns[0].fx, times);
      var r := Interact(p.state, turns[1..], p.times, consumed + 1);
      assert Interact(s, turns, times, consumed) == r by {
        InteractUnfold(s, turns, times, consumed);
      }
      assert consumed + 1 <= r.consumed <= consumed + |turns|
          && r.times == p.times + RecordedTimes(turns[1..][..r.consumed - (consumed + 1)]) by {
        TextNotBlankTail(turns);
        InteractTimes(p.state, turns[1..], p.times, consumed + 1);
      }
      assert p.times == times + TimeOf(turns[0]) by {
        TextNotBlankTail(turns);
        PerformTimes(s, turns[0], times);
      }
      TimesCons(turns, r.consumed - consumed, times, p.times, r.times);
    }
  }

  lemma {:induction false} TextNotBlankTail(turns: seq<Turn>)
    requires turns != [] && TextNotBlank(turns)
    ensures TextNotBlank(turns[1..])
    ensures turns[0].cmd.Say? ==> !Blank(turns[0].cmd.text)
  {
    assert forall i :: 0 <= i < |turns[1..]| ==> turns[1..][i] == turns[i + 1];
  }

  /** A line other than quit hands the loop on to the rest of the lines. */
  lemma {:induction false} InteractUnfold(s: BState, turns: seq<Turn>, times: seq<nat>, consumed: nat)
    requires Ready(s) && turns != [] && !turns[0].cmd.Quit?
    ensures var p := Perform(s, turns[0].cmd, turns[0].fx, times);
      Interact(s, turns, times, consumed) == Interact(p.state, turns[1..], p.times, consumed + 1)
  {
  }

  /** The times recorded over `k` lines are those of the first line, then
      those of the next `k - 1`. */
  lemma {:induction false} TimesCons(turns: seq<Turn>, k: nat, times: seq<nat>, next: seq<nat>, last: seq<nat>)
    requires 1 <= k <= |turns|
    requires next == times + TimeOf(turns[0])
    requires last == next + RecordedTimes(turns[1..][..k - 1])
    ensures last == times + RecordedTimes(turns[..k])
  {
    RecordedTimesTake(turns, k);
    assert (times + TimeOf(turns[0])) + RecordedTimes(turns[1..][..k - 1])
        == times + (TimeOf(turns[0]) + RecordedTimes(turns[1..][..k - 1]));
  }

  /** The time a line to speak records: its generation time when it was
      generated and written without error and is non-zero. */
  function TimeOf(t: Turn): seq<nat>
  {
    if t.cmd.Say? && t.fx.synthesis.Rendered? && t.fx.writeError.None? && t.fx.synthesis.elapsed > 0
    then [t.fx.synthesis.elapsed]
    else []
  }

  /** The times these lines record, in order. */
  function RecordedTimes(turns: seq<Turn>): seq<nat>
    decreases |turns|
  {
    if turns == [] then [] else TimeOf(turns[0]) + RecordedTimes(turns[1..])
  }

  lemma {:induction false} RecordedTimesTake(turns: seq<Turn>, k: nat)
    requires 1 <= k <= |turns|
    ensures RecordedTimes(turns[..k]) == TimeOf(turns[0]) + RecordedTimes(turns[1..][..k - 1])
  {
    assert turns[..k][0] == turns[0] && turns[..k][1..] == turns[1..][..k - 1];
  }

  /** One iteration on a line that is not blank text records exactly the
      time of its line. */
  lemma {:induction false} PerformTimes(s: BState, t: Turn, times: seq<nat>)
    requires Ready(s)
    requires t.cmd.Say? ==> !Blank(t.cmd.text)
    ensures Perform(s, t.cmd, t.fx, times).times == times + TimeOf(t)
  {
    if t.cmd.Say? {
      GeneratePlaysOnlyWhenAsked(s, t.cmd.text, true, t.fx);
    }
  }

  /** Without a quit command every line is read: failures, unknown commands
      and a bare `:` never end the loop. */
  lemma {:induction false} InteractReadsAll(s: BState, turns: seq<Turn>, times: seq<nat>, consumed: nat)
    requires Ready(s)
    requires forall i :: 0 <= i < |turns| ==> !turns[i].cmd.Quit?
    ensures Interact(s, turns, times, consumed).consumed == consumed + |turns|
    decreases |turns|
  {
    if turns != [] {
      var p := Perform(s, turns[0].cmd, turns[0].fx, times);
      assert forall i :: 0 <= i < |turns| - 1 ==> turns[1..][i] == turns[i + 1];
      InteractReadsAll(p.state, turns[1..], p.times, consumed + 1);
    }
  }

  /** A line of text is spoken, stripped, in the current voice: the state is
      what `generate` leaves, and its time is recorded exactly when the
      generation succeeded with a non-zero time. A voice command has the
      effect of switching, and every other command changes nothing. */
  lemma {:induction false} PerformLine(s: BState, line: string, fx: Effects, times: seq<nat>)
    requires Ready(s)
    ensures var p := Perform(s, ParseLine(line), fx, times);
      var g := Speak(s, Strip(line), true, fx);
      && (Strip(line) != [] && Strip(line)[0] != ':' ==>
            && p.state == g.state
            && p.state.engineCalls == s.engineCalls + [EngineCall(Strip(line), s.voices.entries[s.current.value])]
            && (|p.times| > |times| <==> g.outcome.Spoken? && g.outcome.elapsed > 0)
            && (|p.times| > |times| ==> p.times == times + [g.outcome.elapsed])
            && (|p.times| <= |times| ==> p.times == times))
      && (ParseLine(line).SwitchTo? ==> p == Progress(Switch(s, ParseLine(line).name), times))
      && (!ParseLine(line).Say? && !ParseLine(line).SwitchTo? ==> p == Progress(s, times))
  {
    ParseSay(line);
    if Strip(line) != [] && Strip(line)[0] != ':' {
      StripEnds(line);
      StripBlank(Strip(line));
      GeneratePlaysOnlyWhenAsked(s, Strip(line), true, fx);
    }
  }

  /** The line read is text to speak that is not blank. */
  predicate Speaks(t: Turn)
  {
    t.cmd.Say? && !Blank(t.cmd.text)
  }

  /** The text one line has the engine speak, if any. */
  function SpokenText(t: Turn): seq<string>
  {
    if Speaks(t) then [t.cmd.text] else []
  }

  /** The texts the engine is asked to speak for these lines, in order: the
      text of each line to speak that is not blank. */
  function SpokenTexts(turns: seq<Turn>): seq<string>
    decreases |turns|
  {
    if turns == [] then [] else SpokenText(turns[0]) + SpokenTexts(turns[1..])
  }

  /** The first `k` lines speak what the first one does, then what the next
      `k - 1` do. */
  lemma {:induction false} SpokenTextsTake(turns: seq<Turn>, k: nat)
    requires 1 <= k <= |turns|
    ensures SpokenTexts(turns[..k]) == SpokenText(turns[0]) + SpokenTexts(turns[1..][..k - 1])
  {
    assert turns[..k][0] == turns[0] && turns[..k][1..] == turns[1..][..k - 1];
  }

  /** The texts spoken over `k` lines are those of the first line, then those
      of the next `k - 1`. */
  lemma {:induction false} TextsCons(turns: seq<Turn>, k: nat, before: seq<string>, next: seq<string>, last: seq<string>)
    requires 1 <= k <= |turns|
    requires next == before + SpokenText(turns[0])
    requires last == next + SpokenTexts(turns[1..][..k - 1])
    ensures last == before + SpokenTexts(turns[..k])
  {
    SpokenTextsTake(turns, k);
    assert (before + SpokenText(turns[0])) + SpokenTexts(turns[1..][..k - 1])
        == before + (SpokenText(turns[0]) + SpokenTexts(turns[1..][..k - 1]));
  }

  /** One iteration adds to the engine calls exactly the text of a line to
      speak that is not blank. */
  lemma {:induction false} PerformCalls(s: BState, t: Turn, times: seq<nat>)
    requires Ready(s)
    ensures Texts(Perform(s, t.cmd, t.fx, times).state.engineCalls) ==
      Texts(s.engineCalls) + SpokenText(t)
  {
    if t.cmd.Say? {
      GeneratePlaysOnlyWhenAsked(s, t.cmd.text, true, t.fx);
      if !Blank(t.cmd.text) {
        TextsSnoc(s.engineCalls, EngineCall(t.cmd.text, s.voices.entries[s.current.value]));
      }
    }
  }

  /** Across the loop the engine is asked to speak exactly the lines read
      that are text and not blank, in the order they were read. */
  lemma {:induction false} InteractSpeaksLines(s: BState, turns: seq<Turn>, times: seq<nat>, consumed: nat)
    requires Ready(s)
    ensures var r := Interact(s, turns, times, consumed);
      && consumed <= r.consumed <= consumed + |turns|
      && Texts(r.state.engineCalls) == Texts(s.engineCalls) + SpokenTexts(turns[..r.consumed - consumed])
    decreases |turns|
  {
    if turns == [] {
      assert turns[..0] == [];
    } else if turns[0].cmd.Quit? {
      SpokenTextsTake(turns, 1);
      assert turns[1..][..0] == [];
    } else {
      var p := Perform(s, turns[0].cmd, turns[0].fx, times);
      var r := Interact(p.state, turns[1..], p.times, consumed + 1);
      assert Interact(s, turns, times, consumed) == r by {
        InteractUnfold(s, turns, times, consumed);
      }
      assert consumed + 1 <= r.consumed <= consumed + |turns|
          && Texts(r.state.engineCalls) == Texts(p.state.engineCalls) + SpokenTexts(turns[1..][..r.consumed - (consumed + 1)]) by {
        InteractSpeaksLines(p.state, turns[1..], p.times, consumed + 1);
      }
      var before, next, last := Texts(s.engineCalls), Texts(p.state.engineCalls), Texts(r.state.engineCalls);
      assert next == before + SpokenText(turns[0]) by {
        PerformCalls(s, turns[0], times);
      }
      TextsCons(turns, r.consumed - consumed, before, next, last);
    }
  }

  // ---------------------------------------------------------------------
  // The engine object

  class BlazingFastTTS {
    var voices: VoiceDict
    var currentVoice: Option<string>
    var playback: seq<Playback>
    var engineCalls: seq<EngineCall>

    function Snapshot(): BState
      reads this
    {
      BState(voices, currentVoice, playback, engineCalls)
    }

    constructor ()
      ensures Snapshot() == BState(NoVoices, None, [], [])
    {
      voices := NoVoices;
      currentVoice := None;
      playback := [];
      engineCalls := [];
    }

    /** The `.pt` loop of `_scan_voices`. A `false` result is the exception
        of a failed load. */
    method LoadEncodedVoices(dir: SampleDir) returns (ok: bool)
      requires voices.Valid()
      modifies this
      ensures ok == LoadStrict(old(voices), dir.pts, dir.txts).Some?
      ensures ok ==> Snapshot() == old(Snapshot()).(voices := LoadStrict(old(voices), dir.pts, dir.txts).value)
    {
      var i := 0;
      while i < |dir.pts|
        invariant 0 <= i <= |dir.pts|
        invariant voices.Valid()
        invariant Snapshot() == old(Snapshot()).(voices := voices)
        invariant LoadStrict(voices, dir.pts[i..], dir.txts) == LoadStrict(old(voices), dir.pts, dir.txts)
      {
        var f := dir.pts[i];
        assert dir.pts[i..][1..] == dir.pts[i + 1..];
        if f.stem in dir.txts {
          match f.codes {
            case None =>
              return false;
            case Some(codes) =>
              voices := voices.Set(f.stem, Voice(codes, Strip(dir.txts[f.stem])));
          }
        }
        i := i + 1;
      }
      ok := true;
    }

    /** `_scan_voices`. A `false` result is the exception that ends the
        program. */
    method ScanVoices(dir: SampleDir) returns (ok: bool)
      requires voices.Valid()
      modifies this
      ensures ok == Scan(old(Snapshot()), dir).Some?
      ensures ok ==> Snapshot() == Scan(old(Snapshot()), dir).value
    {
      ok := LoadEncodedVoices(dir);
      if !ok {
        return;
      }
      if voices.Has(PreferredVoice) {
        currentVoice := Some(PreferredVoice);
      } else if voices.order == [] {
        return false;
      } else {
        currentVoice := Some(voices.order[0]);
      }
    }

    /** `_play_audio_async`: wait for the playback in flight, then start. */
    method PlayAudioAsync(path: string, now: nat, playFor: nat)
      modifies this
      ensures Snapshot() == old(Snapshot()).(playback := Schedule(old(playback), path, now, playFor))
    {
      var start := now;
      if playback != [] && playback[|playback| - 1].finish > now {
        start := playback[|playback| - 1].finish;
      }
      playback := playback + [Playback(path, start, start + playFor)];
    }

    /** `generate`. */
    method Generate(text: string, autoPlay: bool, fx: Effects) returns (out: Generated)
      requires Ready(Snapshot())
      modifies this
      ensures Generation(Snapshot(), out) == Speak(old(Snapshot()), text, autoPlay, fx)
    {
      if Strip(text) == [] {
        return Skipped;
      }
      var voice := voices.entries[currentVoice.value];
      engineCalls := engineCalls + [EngineCall(text, voice)];
      match fx.synthesis {
        case Raised(m) =>
          out := Crashed(m);
        case Rendered(elapsed) =>
          if fx.writeError.Some? {
            out := Crashed(fx.writeError.value.message);
          } else {
            if autoPlay {
              PlayAudioAsync(OutputPath, fx.now, fx.playFor);
            }
            out := Spoken(elapsed);
          }
      }
    }

    /** `switch_voice`. */
    method SwitchVoice(name: string)
      requires Ready(Snapshot())
      modifies this
      ensures Snapshot() == Switch(old(Snapshot()), name)
    {
      if voices.Has(name) {
        currentVoice := Some(name);
      }
    }

    /** `run_interactive`: returns the recorded generation times and the
        number of lines read. */
    method RunInteractive(inputs: seq<Input>) returns (times: seq<nat>, consumed: nat)
      requires Ready(Snapshot())
      modifies this
      ensures Session(Snapshot(), times, consumed) == Interact(old(Snapshot()), Turns(inputs), [], 0)
    {
      times, consumed := [], 0;
      while consumed < |inputs|
        invariant 0 <= consumed <= |inputs|
        invariant Ready(Snapshot())
        invariant Interact(Snapshot(), Turns(inputs[consumed..]), times, consumed) == Interact(old(Snapshot()), Turns(inputs), [], 0)
      {
        var input := inputs[consumed];
        var cmd := ParseLine(input.line);
        assert inputs[consumed..][1..] == inputs[consumed + 1..];
        assert Turns(inputs[consumed..]) == [Turn(cmd, input.fx)] + Turns(inputs[consumed + 1..]);
        consumed := consumed + 1;
        if cmd.Quit? {
          break;
        }
        times := Execute(cmd, input.fx, times);
      }
    }

    /** One iteration of `run_interactive` for a command other than quit. */
    method Execute(cmd: Command, fx: Effects, times: seq<nat>) returns (recorded: seq<nat>)
      requires Ready(Snapshot())
      modifies this
      ensures Progress(Snapshot(), recorded) == Perform(old(Snapshot()), cmd, fx, times)
    {
      recorded := times;
      match cmd {
        case SwitchTo(name) =>
          SwitchVoice(name);
        case Say(text) =>
          var out := Generate(text, true, fx);
          if out.Spoken? && out.elapsed > 0 {
            recorded := times + [out.elapsed];
          }
        case _ =>
      }
    }
  }

  /** The voice option of `main`: switch only when the name is registered. */
  method ApplyVoiceOption(engine: BlazingFastTTS, name: string)
    requires Ready(engine.Snapshot())
    modifies engine
    ensures old(engine.voices.Has(name)) ==> engine.Snapshot() == old(engine.Snapshot()).(current := Some(name))
    ensures !old(engine.voices.Has(name)) ==> engine.Snapshot() == old(engine.Snapshot())
  {
    if engine.voices.Has(name) {
      engine.SwitchVoice(name);
    }
  }
}
