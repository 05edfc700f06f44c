/** The collaborators the programs call but do not own: the synthesis engine,
    the audio-file writer, the clock and the audio player. Each call is
    represented by the outcome it had, passed in as a value, so that every
    behaviour of the collaborator (success or any failure) is covered. */
module Collab {

  datatype Option<T> = None | Some(value: T) {
    /** Python's `d.get(key, default)` once the lookup is done. */
    function GetOr(default: T): T
    {
      if Some? then value else default
    }
  }

  /** A reference encoding produced by the engine's `encode_reference` and
      stored in a `.pt` file: an opaque run of codec tokens. */
  type Codes = seq<int>

  /** A usable voice: its reference encoding and its reference transcript. */
  datatype Voice = Voice(codes: Codes, transcript: string)

  /** What one call of the engine's `infer` did: it returned audio after
      `elapsed` hundredths of a second, or it raised with `message`. */
  datatype Synthesis = Rendered(elapsed: nat) | Raised(message: string)

  /** A write of the audio file that raised: the exception text, and whether
      the file is on disk afterwards (the writer may have created or truncated
      it before failing). */
  datatype WriteError = WriteError(message: string, fileLeft: bool)

  /** The outcomes of the collaborators that one operation may touch:
      the engine call, the write of the audio file (`Some` when `sf.write`
      raises), the clock when playback is requested, and how long the
      scheduled audio plays. */
  datatype Effects = Effects(synthesis: Synthesis, writeError: Option<WriteError>, now: nat, playFor: nat)

  /** The write raised after leaving a file on disk. */
  predicate PartialWrite(fx: Effects)
  {
    fx.writeError.Some? && fx.writeError.value.fileLeft
  }

  /** One call of the engine: the text and the voice it was given. */
  datatype EngineCall = EngineCall(text: string, voice: Voice)

  /** The texts the engine was given, call by call. */
  function Texts(calls: seq<EngineCall>): (ts: seq<string>)
    ensures |ts| == |calls|
  {
    if calls == [] then [] else [calls[0].text] + Texts(calls[1..])
  }

  /** Recording one more call adds its text at the end. */
  lemma {:induction false} TextsSnoc(calls: seq<EngineCall>, c: EngineCall)
    ensures Texts(calls + [c]) == Texts(calls) + [c.text]
  {
    if calls != [] {
      assert (calls + [c])[1..] == calls[1..] + [c];
      TextsSnoc(calls[1..], c);
    }
  }

  /** One playback of an audio file, from `start` until `finish`. */
  datatype Playback = Playback(path: string, start: nat, finish: nat)

  /** Each playback lasts from its start to its finish, and starts no
      earlier than the one before it finished. */
  predicate Ordered(log: seq<Playback>)
  {
    forall i :: 0 <= i < |log| ==> log[i].start <= log[i].finish && (0 < i ==> log[i - 1].finish <= log[i].start)
  }

  /** The moment the audio device becomes free: when the last playback ends. */
  function Free(log: seq<Playback>): nat
  {
    if log == [] then 0 else log[|log| - 1].finish
  }

  /** Start playing `path`: first wait for the playback in flight (if any) to
      finish, then start a new one. Exactly one entry is appended; it starts
      at once if the device is free, otherwise exactly when the previous
      playback finishes, and the log stays ordered. */
  function Schedule(log: seq<Playback>, path: string, now: nat, playFor: nat): (r: seq<Playback>)
    ensures |r| == |log| + 1 && r[..|log|] == log
    ensures r[|log|].path == path && r[|log|].finish == r[|log|].start + playFor
    ensures now <= r[|log|].start
    ensures log != [] ==> log[|log| - 1].finish <= r[|log|].start
    ensures r[|log|].start == now || (log != [] && r[|log|].start == log[|log| - 1].finish)
    ensures Ordered(log) ==> Ordered(r)
  {
    var start := if Free(log) > now then Free(log) else now;
    var r := log + [Playback(path, start, start + playFor)];
    assert r[..|log|] == log;
    assert forall i :: 0 <= i < |log| ==> r[i] == log[i];
    r
  }

  /** In an ordered log no two playbacks overlap: every playback finishes
      before any later one starts. */
  lemma {:induction false} NoOverlap(log: seq<Playback>, i: nat, j: nat)
    requires Ordered(log)
    requires i < j < |log|
    ensures log[i].finish <= log[j].start
    decreases j - i
  {
    if i + 1 < j {
      NoOverlap(log, i + 1, j);
      assert log[i + 1].start <= log[i + 1].finish;
    }
  }
}
