# Speech daemon, hotkey client and interactive front-ends — a Dafny model

This project models the decision and state logic of a text-to-speech toolkit
built around a neural synthesis engine. It has four programs:

- **`TTSService`** (`tts_service.py`) is a daemon. It loads the voice
  registry once. It then serves one JSON request per connection on a Unix
  socket: `speak`, `replay`, `switch_voice`, `stop` or `ping`. It renders
  speech to `/tmp/tts_output.wav` and plays it in the background, one file
  after another.
- **`TTSHotkeyClient`** (`tts_hotkey.py`) is the hotkey client. It pings the
  daemon at start. It turns the speak hotkey into a `speak` request carrying
  the clipboard, and the quit hotkey into a `stop` request. It reports each
  reply as a notification.
- **`BlazingFastTTS`** (`blazing_fast_tts.py`) and **`InteractiveTTS`**
  (`interactive_tts.py`) are line-oriented front-ends. Each scans the
  `samples` directory for voices, then reads lines. A line starting with `:`
  is a command; any other line is spoken in the current voice.

The model is split into modules, one file each:

| file | module | models |
|---|---|---|
| `text.dfy` | `Text` | Python's `str.strip`, `str.lower` and `str.split`, with whitespace as `str.isspace` defines it. Also the `:.2f` rendering of a duration. |
| `collab.dfy` | `Collab` | The collaborators: engine, file writer, clock and player. Each is an outcome passed in as a value. The playback log is ordered and non-overlapping. |
| `voices.dfy` | `Voices` | The voice registry as an insertion-ordered dict. `.pt`/`.txt` pairing, with skipping or aborting loads. Encoding of `.wav` samples. The `dave`-or-first default voice. |
| `service.dfy` | `Service` | The daemon's request semantics as pure functions over a `State`, and the class `TTSService` whose methods update its fields in place. |
| `hotkey.dfy` | `Hotkey` | The client's handlers as pure functions over a `ClientState`, and the class `TTSHotkeyClient`. |
| `blazing.dfy` | `Blazing` | Scan, generate, switch, the command parser and the interactive loop, plus the class `BlazingFastTTS`. |
| `interactive.dfy` | `Interactive` | The same for `InteractiveTTS`, including `_create_default_voices` and `run_single`. |

Each class method is proved against a pure function of the old state, with a
postcondition of the form `Outcome(Snapshot(), r) == Dispatch(old(Snapshot()), req, fx)`.
The properties of the system are lemmas about those functions. Every loop in
the source (file scans, the accept loop, the hotkey loop, the line loop) is a
`while` loop with an invariant tying the remaining input to the function.

Collaborators are never run. An engine call, a file write, a `torch.load`, an
`encode_reference`, a clock reading or a socket round trip is an input value
that says what that call did, success or failure. So each lemma covers every
behaviour of the collaborator.

Durations are whole hundredths of a second (`nat`). The engine calls are
recorded in a log, so that "no engine call" and "the engine got the text cut
to 500 characters" can be stated. Playbacks are recorded in a log where each
entry starts no earlier than the previous one finished. This is the effect
of joining the previous playback thread before starting the next one.

Some behaviour of the code is easy to misread, and the model keeps to what
the code does:

- The client makes exactly one attempt per request. It has no retries, no
  backoff and no `ServiceUnavailable` error.
- A request is a duck-typed JSON object, not a tagged variant. A missing
  `action` gets "Unknown action: None".
- A JSON value that is not an object gets the text of the `AttributeError`
  raised by `.get`.
- A `sf.write` that raises may already have created or truncated the output
  file. The write outcome says whether a file was left behind, and the
  daemon's output flag follows it, so a later `replay` may find that file.

## Model

| member | source | states |
|---|---|---|
| Text.LeadingSpaces | tts_service.py:130 | The leading run that `strip` removes is all whitespace, and the character after it is not. |
| Text.TrailingSpaces | tts_service.py:130 | The trailing run that `strip` removes is all whitespace, and the character before it is not. |
| Text.StripBlank | tts_service.py:130 | `text.strip()` is empty exactly when the text is empty or whitespace only. |
| Text.StripEnds | blazing_fast_tts.py:167 | A non-empty stripped line neither starts nor ends with whitespace. |
| Text.StripSlice | blazing_fast_tts.py:167 | A stripped line is a contiguous piece of the line, starting right after the leading whitespace. |
| Text.StripSurround | blazing_fast_tts.py:167 | What `strip` removes on either side is whitespace only. |
| Text.StripPadded | blazing_fast_tts.py:167 | Stripping a word with whitespace after it gives back exactly the word. |
| Text.LowerAt | blazing_fast_tts.py:174 | `lower()` maps each character on its own, keeping positions. |
| Text.LowerAppend | blazing_fast_tts.py:174 | `lower()` of a concatenation is the concatenation of the lowered parts. |
| Text.StripLower | blazing_fast_tts.py:167-174 | Stripping and lowering commute: lowering never turns a space into a non-space or back. |
| Text.LowerIdempotent | blazing_fast_tts.py:174 | Lowering an already lowered text changes nothing. |
| Text.LowerIsLower | interactive_tts.py:165 | Every character of a lowered text is one that `lower()` leaves alone. |
| Text.WordChars | interactive_tts.py:165 | The first word that `split()` cuts is a run of non-space characters ended by a space or the end of the text. |
| Text.SplitWords | interactive_tts.py:165 | Every word of `split()` is non-empty and contains no whitespace. |
| Text.SplitLower | interactive_tts.py:165 | The words of a lowered text are lowered. |
| Text.SplitConcat | blazing_fast_tts.py:174 | Gluing the words of `split()` back together gives the text with all whitespace removed: no character is lost, added or reordered. |
| Text.SplitBlank | blazing_fast_tts.py:174-176 | `split()` gives no word exactly when the text is whitespace only. That is the case where `cmd[0]` raises. |
| Collab.Schedule | tts_service.py:121-126 | Starting a playback appends exactly one entry for the path and keeps the log before it. The entry starts at the request time if the player is idle, otherwise when the previous playback finishes. An ordered log stays ordered. |
| Collab.NoOverlap | tts_service.py:121-126 | In an ordered playback log, every playback finishes before any later one starts. |
| Voices.VoiceDict.Set | tts_service.py:96-99 | `voices[name] = v` replaces the entry for the name. A new name goes last in key order and an existing name keeps its place. The dict stays well formed. |
| Voices.LoadSkippingRegisters | tts_service.py:88-102 | `_load_voices` registers exactly the `.pt` stems that have a `.txt` and load without error, skips the rest, and keeps earlier entries. Each registered voice holds the codes loaded from the last `.pt` file of its stem and the stripped `.txt` text. |
| Voices.LoadSkippingVoices | tts_service.py:92-99 | For the last loadable `.pt` file of each stem, the registry maps the stem to the codes `torch.load` returned and the stripped transcript. |
| Voices.LoadSkippingPrefix | tts_service.py:96-99 | Loading never reorders the names already registered: they stay first, in their order. |
| Voices.FirstLoadingSpec | tts_service.py:88-99 | The first `.pt` file that loads, in glob order: none before it loads, it loads, and it exists exactly when some stem is loadable. |
| Voices.LoadSkippingFirst | blazing_fast_tts.py:76-89 | Loading into an empty registry puts first the stem of the first `.pt` file that loads; that is what `list(self.voices.keys())[0]` picks. |
| Voices.LoadSkippingKeys | tts_service.py:88-102 | After `_load_voices` the keys are the old keys plus exactly the loadable stems. |
| Voices.LoadSkippingKeeps | tts_service.py:88-102 | An existing entry whose stem does not load again is left untouched. |
| Voices.LoadSkippingTranscripts | tts_service.py:95-99 | Each registered voice carries the stripped transcript of its `.txt` file. |
| Voices.LoadStrictOutcome | blazing_fast_tts.py:76-87 | The scan without a `try` aborts exactly when some paired `.pt` file fails to load. Otherwise it registers the same voices as the skipping loader. |
| Voices.CreateDefaultsFails | interactive_tts.py:80-95 | Creating default voices raises exactly when a `.wav` with a `.txt` and no `.pt` cannot be encoded or saved. |
| Voices.CreateDefaultsKeys | interactive_tts.py:80-95 | When it succeeds, creating default voices adds exactly the `.wav` stems with a `.txt` and no `.pt`. Other `.wav` files are skipped. |
| Voices.CreateDefaultsRegisters | interactive_tts.py:80-95 | The failure condition and the registered stems of `_create_default_voices`, together. On success each created voice holds the codes `encode_reference` returned and the stripped transcript. |
| Voices.CreateDefaultsKeeps | interactive_tts.py:79-95 | On success a name already registered keeps its voice unless some `.wav` file registers it again. |
| Voices.CreateDefaultsVoices | interactive_tts.py:83-95 | On success, for the last `.wav` of each stem that needs encoding, the encoding succeeded and the registry maps the stem to the encoded codes and the stripped transcript. |
| Voices.CreateDefaultsPrefix | interactive_tts.py:89-95 | Creating voices never reorders the names already registered. |
| Voices.FirstEncodingSpec | interactive_tts.py:79-83 | The first `.wav` file that needs encoding, in glob order: none before it does, it does, and it exists exactly when some stem needs encoding. |
| Voices.CreateDefaultsFirst | interactive_tts.py:79-95 | Creating voices into an empty registry puts first the stem of the first `.wav` file that needs encoding. |
| Voices.DefaultVoice | interactive_tts.py:69-72 | The default is `dave` when registered, otherwise the first name in insertion order. It is always registered. There is none (the `[0]` raises) exactly when the registry is empty. |
| Service.TextPolicy | tts_service.py:130-136 | Refuses exactly the empty and whitespace-only texts. Any other text is kept unchanged up to 500 characters, or cut to its first 500 characters; length alone never refuses a text. |
| Service.SpeakBlankRefused | tts_service.py:130-131 | A `speak` with empty, whitespace-only or missing text answers error "Empty text", changes no state, calls no engine and schedules no playback. |
| Service.SpeakSucceeds | tts_service.py:133-159 | A successful `speak` answers success with its time. It calls the engine once with the text cut to 500 characters in the current voice, marks the output file present, and appends one playback of the output path after the previous one finished. |
| Service.SpeakUnregisteredVoice | tts_service.py:142 | A `speak` whose current voice is not registered answers the `KeyError` text. No engine call, no playback, no state change. |
| Service.SpeakFailureSchedulesNothing | tts_service.py:142-163 | A `speak` whose inference or write raises answers error with the exception text. It schedules no playback and changes nothing but the engine log, which gains the one call in the current voice, and the output flag. The flag becomes set only when the write raised after leaving a file. |
| Service.ReplayWithoutOutput | tts_service.py:169-171 | `replay` with no output file answers "No audio file found to replay" and changes nothing. |
| Service.ReplayWithOutput | tts_service.py:169-176 | `replay` with the output file present appends one playback of the same output path after the previous one, changes nothing else, and answers success. |
| Service.SpeakThenReplay | tts_service.py:155-176 | After a successful `speak`, `replay` succeeds and plays the same file again, starting after the speak's own playback finished. |
| Service.SwitchVoiceGuard | tts_service.py:183-188 | `switch_voice` to a registered name selects it. Any other name answers "Voice '<name>' not found" and leaves the state unchanged. A missing `voice` means `dave`. |
| Service.StopClearsRunning | tts_service.py:207-210 | `stop` clears `running`, answers "Service stopping" and changes nothing else. |
| Service.PingChangesNothing | tts_service.py:212-213 | `ping` answers "Service is running" and changes no state. |
| Service.UnknownAndInvalidAnswered | tts_service.py:215-219 | Any other or missing action answers "Unknown action: <action>"; undecodable text answers "Invalid JSON". Neither changes the state. |
| Service.SpeakPreserves | tts_service.py:128-163 | `generate_speech` keeps the registry well formed and the playback log ordered. It never changes the voices, the current voice or `running`. An output file once present stays present. An error answer leaves the playback log as it was and sets the output flag only for a write that raised after leaving a file. |
| Service.DispatchPreserves | tts_service.py:190-221 | Every request keeps the invariant and never changes the registry. It clears `running` exactly for `stop`. An output file once present stays present. An error answer changes neither the current voice nor the playback log, and sets the output flag only for a write that raised after leaving a file. |
| Service.ServeOneReplyPerRequest | tts_service.py:240-262 | The accept loop sends exactly one response per connection that carries a request, in arrival order, and none for an empty or undecodable one. |
| Service.ServeAnswersInOrder | tts_service.py:240-262 | The responses the accept loop sends are, in order, the dispatcher's answers to the requests of the connections it took, each handled in the state the earlier ones left. The loop's final state is the state they leave. |
| Service.RespondAt | tts_service.py:240-262 | The `k`-th response of a run of requests answers the `k`-th request, handled in the state the `k` requests before it left. |
| Service.ServeEndsOnlyWhenStopped | tts_service.py:240 | The loop ends before the connections run out only because `running` was cleared. |
| Service.ServeEndsAfterStop | tts_service.py:207-210 | After a `stop` request the loop accepts no further connection and the service is no longer running. |
| Service.ServePreserves | tts_service.py:240-262 | The accept loop keeps the invariant and never changes the voice registry. |
| Service.TTSService.constructor | tts_service.py:36-42 | A fresh daemon: no voices, `dave` selected without checking, running, and the output file present or not as left on disk. |
| Service.TTSService.LoadVoices | tts_service.py:83-109 | Fills `voices` by the skipping loader and changes nothing else. It reports whether any voice was found. |
| Service.TTSService.Initialize | tts_service.py:44-81 | Succeeds exactly when the engine loads, even when no voice was found. Only then are the voices loaded; a failed load changes nothing. |
| Service.TTSService.PlayAudioAsync | tts_service.py:111-126 | Appends one scheduled playback of the path after the one in flight. Nothing else changes. |
| Service.TTSService.GenerateSpeech | tts_service.py:128-163 | The new state and the answer are those of the `speak` semantics; the invariant is kept. |
| Service.TTSService.ReplayAudio | tts_service.py:165-179 | The new state and the answer are those of the `replay` semantics. |
| Service.TTSService.SwitchVoice | tts_service.py:181-188 | The new state and the answer are those of the guarded switch. |
| Service.TTSService.Stop | tts_service.py:275-278 | Clears `running` and nothing else. |
| Service.TTSService.HandleRequest | tts_service.py:190-221 | The new state and the answer are those of the dispatcher on the decoded request. |
| Service.TTSService.StartServer | tts_service.py:239-267 | The responses sent, the turns taken and the final state are those of the accept loop over the given connections. |
| Hotkey.BuildRequest | tts_hotkey.py:51 | The request object holds `action` plus exactly the given keyword fields, with their values. |
| Hotkey.TransportFailuresBecomeErrors | tts_hotkey.py:77-85 | A missing socket answers error "Service not running", a timeout "Request timeout" and any other failure its exception text. `send_request` never raises. |
| Hotkey.SpeakReplyNotified | tts_hotkey.py:103-117 | After "Reading text...", a success reply is shown as "Done! (<time>s)" with time defaulting to 0. Any other reply is shown as "TTS Error" with the reply's message, or "Unknown error" when a delivered reply has none; a failed round trip shows its error message. |
| Hotkey.EmptyClipboardSendsNothing | tts_hotkey.py:95-98 | An empty or whitespace-only clipboard shows "Clipboard is empty", sends no request and changes nothing else. |
| Hotkey.SpeakSendsWholeText | tts_hotkey.py:105-107 | Any other clipboard sends exactly one `speak` request whose `text` is the whole, untruncated clipboard. |
| Hotkey.QuitAlwaysStops | tts_hotkey.py:129-144 | Quit sends one `stop` request, shows "Service stopped" and clears `running`, whatever the reply. |
| Hotkey.StartGate | tts_hotkey.py:157-161 | Start exits with status 1 exactly when the ping reply is not success. It then has sent only the ping and handled no hotkey. |
| Hotkey.ListenStopsAtQuit | tts_hotkey.py:178-179 | The listening loop handles no press after a quit press, and ends with `running` cleared. |
| Hotkey.ListenRunsWhileRunning | tts_hotkey.py:178-179 | The loop stops early only when `running` was cleared. Without a quit press it handles every press and keeps running. |
| Hotkey.TTSHotkeyClient.constructor | tts_hotkey.py:33-34 | A fresh client is running and has sent and shown nothing. |
| Hotkey.TTSHotkeyClient.ShowNotification | tts_hotkey.py:36-45 | Appends one notification and changes nothing else. |
| Hotkey.TTSHotkeyClient.SendRequest | tts_hotkey.py:47-85 | Records the built request and returns the reply the round trip maps to. |
| Hotkey.TTSHotkeyClient.OnSpeakHotkey | tts_hotkey.py:87-121 | The new state is that of the speak handler. |
| Hotkey.TTSHotkeyClient.OnQuitHotkey | tts_hotkey.py:123-144 | The new state is that of the quit handler. |
| Hotkey.TTSHotkeyClient.Start | tts_hotkey.py:146-183 | The exit status, the presses handled and the final state are those of the ping gate and the loop that runs while `running`. |
| Blazing.Switch | blazing_fast_tts.py:138-145 | Switching keeps the engine ready: the current voice stays registered. |
| Blazing.Speak | blazing_fast_tts.py:106-136 | Generation keeps the engine ready and the playback log ordered. |
| Blazing.Perform | blazing_fast_tts.py:176-193 | One non-quit iteration never changes the registry, keeps earlier times, and records only non-zero generation times. |
| Blazing.PerformLine | blazing_fast_tts.py:167-193 | A line of text is spoken, stripped, in the current voice: the state is what `generate` leaves and the engine gets one call. A time is appended exactly when the generation succeeded with a non-zero time, and it is that time. A voice command has the effect of `switch_voice`; any other command changes nothing. |
| Blazing.Turns | blazing_fast_tts.py:167 | Every line read becomes exactly one command: the parse of that line, with its outcomes. |
| Blazing.TurnsTextNotBlank | blazing_fast_tts.py:167-170 | A line read as text to speak is never blank. |
| Blazing.ScanFails | blazing_fast_tts.py:76-89 | The scan aborts exactly when a paired `.pt` fails to load or no voice is found. |
| Blazing.ScanSelectsVoice | blazing_fast_tts.py:76-89 | A successful scan registers exactly the `.pt` stems with a `.txt`. It selects `dave` if registered, otherwise the first registered name, which is the stem of the first `.pt` file in glob order that has a `.txt`. |
| Blazing.SwitchGuard | blazing_fast_tts.py:140-145 | `switch_voice` selects a registered name and leaves the state unchanged for any other. |
| Blazing.GeneratePlaysOnlyWhenAsked | blazing_fast_tts.py:108-131 | A blank text returns `None` with no engine call. Any other text calls the engine once with the whole text. One playback is scheduled exactly when `auto_play` is set and generation succeeds. |
| Blazing.CommandIsNotText | blazing_fast_tts.py:173-188 | A `:` line is never spoken and never skipped as empty. |
| Blazing.SwitchTakesSecondWord | blazing_fast_tts.py:180-181 | A voice command switches to the second word, and only when there is one. |
| Blazing.ParseSay | blazing_fast_tts.py:167-191 | A line is spoken exactly when, once stripped, it is non-empty and does not start with `:`. The stripped line is what is spoken. |
| Blazing.CommandsIgnoreCase | blazing_fast_tts.py:173-174 | Lower-casing a command line does not change its meaning. |
| Blazing.SwitchNameIsLowerWord | blazing_fast_tts.py:174-181 | The voice named in a command is a non-empty, lower-case word without whitespace. |
| Blazing.BareColonHasNoWord | blazing_fast_tts.py:174-176 | A bare `:` yields no word, so `cmd[0]` raises. |
| Blazing.InteractStopsAtQuit | blazing_fast_tts.py:176-177 | The loop reads no line after a quit command. |
| Blazing.InteractKeepsReady | blazing_fast_tts.py:165-199 | Along the loop the registry never changes and a registered voice stays selected. |
| Blazing.InteractRecordsTimes | blazing_fast_tts.py:191-193 | The loop keeps earlier times and appends only non-zero generation times. |
| Blazing.InteractTimes | blazing_fast_tts.py:165-193 | After the earlier times the loop records exactly the non-zero times of the lines read whose generation succeeded, in reading order. |
| Blazing.InteractSpeaksLines | blazing_fast_tts.py:165-193 | Across the loop the engine is asked to speak exactly the lines read that are text, in reading order. |
| Blazing.InteractReadsAll | blazing_fast_tts.py:198-199 | Without a quit command every line is read: failures and unknown commands never end the loop. |
| Blazing.BlazingFastTTS.constructor | blazing_fast_tts.py:25-31 | A fresh engine has no voices, no current voice, no playback and no engine call. |
| Blazing.BlazingFastTTS.LoadEncodedVoices | blazing_fast_tts.py:76-87 | The `.pt` loop succeeds exactly when no paired file fails to load, and then fills the registry by that loader. |
| Blazing.BlazingFastTTS.ScanVoices | blazing_fast_tts.py:71-90 | Succeeds exactly when the scan does, leaving the state it describes. |
| Blazing.BlazingFastTTS.PlayAudioAsync | blazing_fast_tts.py:92-104 | Appends one scheduled playback after the one in flight. Nothing else changes. |
| Blazing.BlazingFastTTS.Generate | blazing_fast_tts.py:106-136 | The new state and the result are those of `generate`. |
| Blazing.BlazingFastTTS.SwitchVoice | blazing_fast_tts.py:138-145 | The new state is that of the guarded switch. |
| Blazing.BlazingFastTTS.RunInteractive | blazing_fast_tts.py:155-199 | The recorded times, the lines read and the final state are those of the loop over the lines. |
| Blazing.BlazingFastTTS.Execute | blazing_fast_tts.py:176-193 | One non-quit iteration has the effect of the step semantics. |
| Blazing.ApplyVoiceOption | blazing_fast_tts.py:266-267 | `main` switches only to a registered name; otherwise nothing changes. |
| Interactive.Switch | interactive_tts.py:129-136 | Switching keeps the engine ready: the current voice stays registered. |
| Interactive.Speak | interactive_tts.py:97-127 | Generation keeps the engine ready. |
| Interactive.Perform | interactive_tts.py:164-191 | One non-quit iteration never changes the registry and keeps the engine ready. |
| Interactive.PerformLine | interactive_tts.py:158-191 | A line of text is spoken, stripped, in the current voice: the state is what `generate` leaves, the engine gets one call, and the output is played exactly when generation succeeded. A voice command has the effect of `switch_voice`; any other command changes nothing. |
| Interactive.Turns | interactive_tts.py:158 | Every line read becomes exactly one command: the parse of that line, with its outcomes. |
| Interactive.ScanRegisters | interactive_tts.py:50-66 | A successful scan registers exactly the `.pt` stems with a `.txt`. When there are none, it registers exactly the `.wav` stems with a `.txt` and no `.pt`. |
| Interactive.ScanSelectsVoice | interactive_tts.py:50-72 | After a scan the current voice is `dave` if registered, otherwise the first registered name: the stem of the first `.pt` file that loads or, with none, of the first `.wav` file that needs encoding. |
| Interactive.ScanFails | interactive_tts.py:50-72 | The scan aborts exactly when a paired `.pt` fails to load. Or, with no `.pt` voice, when a needed encoding or save fails or no `.wav` needs encoding. |
| Interactive.SwitchGuard | interactive_tts.py:131-136 | `switch_voice` leaves the state unchanged for an unknown name and selects a registered one. |
| Interactive.GeneratePlaysOnlyWhenAsked | interactive_tts.py:99-124 | A blank text returns without calling the engine or playing. Any other text calls the engine once with the whole text. The output is played exactly when `auto_play` is set and generation succeeds. |
| Interactive.CommandIsNotText | interactive_tts.py:164-188 | A `:` line is never spoken and never skipped as empty. |
| Interactive.SwitchTakesSecondWord | interactive_tts.py:174-175 | `voice` switches to the second word, and only when there is one. |
| Interactive.ParseSay | interactive_tts.py:158-191 | A line is spoken exactly when, once stripped, it is non-empty and does not start with `:`. The stripped line is what is spoken. |
| Interactive.CommandsIgnoreCase | interactive_tts.py:164-165 | Lower-casing a command line does not change its meaning. |
| Interactive.SwitchNameIsLowerWord | interactive_tts.py:165-175 | The voice named in a command is a non-empty, lower-case word without whitespace. |
| Interactive.BareColonHasNoWord | interactive_tts.py:165-167 | A bare `:` yields no word, so `cmd[0]` raises. |
| Interactive.InteractStopsAtQuit | interactive_tts.py:167-169 | The loop reads no line after `quit`, `q` or `exit`. |
| Interactive.InteractKeepsReady | interactive_tts.py:156-197 | Along the loop the registry never changes and a registered voice stays selected. |
| Interactive.InteractSpeaksLines | interactive_tts.py:156-191 | Across the loop the engine is asked to speak exactly the lines read that are text, in reading order. |
| Interactive.InteractReadsAll | interactive_tts.py:184-197 | Without a quit command every line is read. Unknown commands, `:voice` without a name and failures never end the loop. |
| Interactive.InteractiveTTS.constructor | interactive_tts.py:17-21 | A fresh engine has no voices, no current voice, nothing played and no engine call. |
| Interactive.InteractiveTTS.CreateDefaultVoices | interactive_tts.py:77-95 | Succeeds exactly when default-voice creation does, and then fills the registry as it describes. |
| Interactive.InteractiveTTS.LoadEncodedVoices | interactive_tts.py:50-62 | The `.pt` loop succeeds exactly when no paired file fails to load, and then fills the registry by that loader. |
| Interactive.InteractiveTTS.ScanVoices | interactive_tts.py:45-75 | Succeeds exactly when the scan does, leaving the state it describes. |
| Interactive.InteractiveTTS.Generate | interactive_tts.py:97-127 | The new state and the result are those of `generate`. |
| Interactive.InteractiveTTS.SwitchVoice | interactive_tts.py:129-136 | The new state is that of the guarded switch. |
| Interactive.InteractiveTTS.RunInteractive | interactive_tts.py:146-197 | The lines read and the final state are those of the loop over the lines. |
| Interactive.InteractiveTTS.Execute | interactive_tts.py:164-191 | One non-quit iteration has the effect of the step semantics. |
| Interactive.InteractiveTTS.RunSingle | interactive_tts.py:199-202 | One generation with playback, as `generate` describes. |
| Interactive.ApplyVoiceOption | interactive_tts.py:251-252 | `main` switches only to a non-empty, registered name; otherwise nothing changes. |

## Left out

- The synthesis engine (`infer`, `encode_reference`, model loading), `torch.load`, `torch.save` and `sf.write` are foreign calls. Each is an outcome given as input: success with a result, or an exception.
- Sockets are left out: chunked `recv`/`sendall`, half-close, UTF-8 and JSON encoding and decoding, and socket-file removal. A request starts as an already decoded value with cases for invalid JSON and non-objects. A failure of `sendall` is not modelled.
- JSON members of a type other than string are not modelled. `text`, `voice` and `action` are strings or absent. So the exceptions a non-string would raise in `strip` or a dict lookup are not covered.
- Threads and the `afplay` subprocess are not modelled; playback is an ordered log of start and finish times. A missing `afplay` binary and a failed notification subprocess are not modelled.
- Times and floats are left out: `time.time`, `round(gen_time, 2)`, averages and `benchmark` are not modelled. Durations are whole hundredths of a second. The hotkey client sees the reply's `time` as the text Python's `str()` gives it.
- Printing and logging are left out, including `list_voices` output, the `:s` and `:help` text and the session summary. These commands are modelled as steps that change nothing.
- The hotkey side is left out: notification script building, `pyperclip` (only its result or exception is an input), `pynput` hotkey registration and a listener failure. The hotkey loop is modelled as a sequence of presses handled while `running`.
- The front-ends' `initialize` loads the engine and then scans the voices. Only the scan (`ScanVoices`) is modelled; the engine load is a foreign call.
- Signal handlers, `KeyboardInterrupt`, `os.chdir` and argparse are left out.
- Reading a `.txt` transcript is modelled as always succeeding; a `read_text` failure is not modelled.
- Text.LowerChar: lowers ASCII letters only, one character at a time. Python's `str.lower()` also lowers other scripts and is not a character map: `'İ'.lower()` has two characters. The parsing lemmas rely on lowering being per character, keeping whitespace and non-whitespace apart, and being idempotent; a command with non-ASCII capitals is not covered.
- Blazing.RunInteractive: stops when the given lines run out. In the program, end of input raises `EOFError`, which the generic handler catches, so the loop would spin forever.
- Interactive.RunInteractive: stops when the given lines run out, for the same reason.
- Service.SpeakUnregisteredVoice: the `KeyError` message is modelled as the name in single quotes, which is Python's rendering of a missing key without quote characters in it.
- profile_tts.py, demo_speed.py, compare_decoders.py, fast_example.py and ultra_fast_example.py are benchmarking and example scripts; they are not part of this model.
