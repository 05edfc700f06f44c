/** The voice registry the three programs build from the `samples` directory:
    a Python dict from voice name to voice, filled by pairing each `.pt`
    reference encoding with the `.txt` transcript of the same stem. */
module Voices {
  import opened Text
  import opened Collab

  /** A Python dict from voice name to voice: its entries and the order in
      which the names were first inserted (what `list(d.keys())` returns). */
  datatype VoiceDict = VoiceDict(entries: map<string, Voice>, order: seq<string>) {

    /** The names in `order` are exactly the keys, each once. */
    ghost predicate Valid()
    {
      && (forall i :: 0 <= i < |order| ==> order[i] in entries)
      && (forall n :: n in entries ==> n in order)
      && (forall i, j :: 0 <= i < j < |order| ==> order[i] != order[j])
    }

    predicate Has(name: string)
    {
      name in entries
    }

    /** `d[name] = v`: a new key goes to the end of the order, an existing
        key keeps its place. */
    function Set(name: string, v: Voice): (d: VoiceDict)
      requires Valid()
      ensures d.Valid()
      ensures d.entries == entries[name := v]
      ensures name in entries ==> d.order == order
      ensures name !in entries ==> d.order == order + [name]
    {
      VoiceDict(entries[name := v], if name in entries then order else order + [name])
    }
  }

  const NoVoices := VoiceDict(map[], [])

  const PreferredVoice := "dave"

  /** A `.pt` file of the samples directory: its stem and what `torch.load`
      returns for it (`None` when the load raises). */
  datatype PtFile = PtFile(stem: string, codes: Option<Codes>)

  /** A `.wav` file of the samples directory: its stem, what the engine's
      `encode_reference` returns for it (`None` when it raises), and whether
      `torch.save` of the result succeeds. */
  datatype WavFile = WavFile(stem: string, encoded: Option<Codes>, saved: bool)

  /** The samples directory: its `.pt` and `.wav` files in the order the glob
      yields them, and the text of every `.txt` file by stem. */
  datatype SampleDir = SampleDir(pts: seq<PtFile>, wavs: seq<WavFile>, txts: map<string, string>)

  /** A `.pt` file that has a paired transcript and loads. */
  predicate Loads(f: PtFile, txts: map<string, string>)
  {
    f.stem in txts && f.codes.Some?
  }

  /** A `.pt` file that has a paired transcript but whose load raises. */
  predicate Breaks(f: PtFile, txts: map<string, string>)
  {
    f.stem in txts && f.codes.None?
  }

  /** The stems registered from a list of `.pt` files. */
  ghost function Loadable(pts: seq<PtFile>, txts: map<string, string>): set<string>
  {
    set f | f in pts && Loads(f, txts) :: f.stem
  }

  /** The registry after one `.pt` file, when its load is not an error. */
  function AddPt(d: VoiceDict, f: PtFile, txts: map<string, string>): (r: VoiceDict)
    requires d.Valid()
    ensures r.Valid()
  {
    if Loads(f, txts) then d.Set(f.stem, Voice(f.codes.value, Strip(txts[f.stem]))) else d
  }

  /** The registry after every `.pt` file, a failed load being skipped. */
  function LoadSkipping(d: VoiceDict, pts: seq<PtFile>, txts: map<string, string>): (r: VoiceDict)
    requires d.Valid()
    ensures r.Valid()
    decreases |pts|
  {
    if pts == [] then d else LoadSkipping(AddPt(d, pts[0], txts), pts[1..], txts)
  }

  /** The registry after every `.pt` file, a failed load aborting the scan
      (`None`). */
  function LoadStrict(d: VoiceDict, pts: seq<PtFile>, txts: map<string, string>): (r: Option<VoiceDict>)
    requires d.Valid()
    ensures r.Some? ==> r.value.Valid()
    decreases |pts|
  {
    if pts == [] then Some(d)
    else if Breaks(pts[0], txts) then None
    else LoadStrict(AddPt(d, pts[0], txts), pts[1..], txts)
  }

  /** Skipping failed loads registers exactly the stems whose `.pt` file has a
      paired transcript and loads; each such voice carries its stripped
      transcript, and every other entry is left as it was. */
  lemma {:induction false} LoadSkippingRegisters(d: VoiceDict, pts: seq<PtFile>, txts: map<string, string>)
    requires d.Valid()
    ensures LoadSkipping(d, pts, txts).entries.Keys == d.entries.Keys + Loadable(pts, txts)
    ensures forall n :: n in Loadable(pts, txts) ==> n in txts && LoadSkipping(d, pts, txts).entries[n].transcript == Strip(txts[n])
    ensures forall n :: n in d.entries && n !in Loadable(pts, txts) ==> LoadSkipping(d, pts, txts).entries[n] == d.entries[n]
    ensures forall i :: 0 <= i < |pts| && Loads(pts[i], txts) && LastPt(pts, i) ==>
      && pts[i].stem in LoadSkipping(d, pts, txts).entries
      && LoadSkipping(d, pts, txts).entries[pts[i].stem] == Voice(pts[i].codes.value, Strip(txts[pts[i].stem]))
  {
    LoadSkippingKeys(d, pts, txts);
    LoadSkippingKeeps(d, pts, txts);
    LoadSkippingTranscripts(d, pts, txts);
    LoadSkippingVoices(d, pts, txts);
  }

  lemma {:induction false} LoadSkippingKeys(d: VoiceDict, pts: seq<PtFile>, txts: map<string, string>)
    requires d.Valid()
    ensures LoadSkipping(d, pts, txts).entries.Keys == d.entries.Keys + Loadable(pts, txts)
    decreases |pts|
  {
    if pts != [] {
      LoadSkippingKeys(AddPt(d, pts[0], txts), pts[1..], txts);
      LoadableCons(pts, txts);
    }
  }

  lemma {:induction false} LoadSkippingKeeps(d: VoiceDict, pts: seq<PtFile>, txts: map<string, string>)
    requires d.Valid()
    ensures forall n :: n in d.entries && n !in Loadable(pts, txts) ==>
      n in LoadSkipping(d, pts, txts).entries && LoadSkipping(d, pts, txts).entries[n] == d.entries[n]
    decreases |pts|
  {
    if pts != [] {
      LoadSkippingKeeps(AddPt(d, pts[0], txts), pts[1..], txts);
      LoadableCons(pts, txts);
    }
  }

  lemma {:induction false} LoadSkippingTranscripts(d: VoiceDict, pts: seq<PtFile>, txts: map<string, string>)
    requires d.Valid()
    ensures forall n :: n in Loadable(pts, txts) ==>
      n in txts && n in LoadSkipping(d, pts, txts).entries && LoadSkipping(d, pts, txts).entries[n].transcript == Strip(txts[n])
    decreases |pts|
  {
    if pts != [] {
      var d1 := AddPt(d, pts[0], txts);
      LoadSkippingTranscripts(d1, pts[1..], txts);
      LoadSkippingKeeps(d1, pts[1..], txts);
      LoadableCons(pts, txts);
    }
  }

  lemma {:induction false} LoadableCons(pts: seq<PtFile>, txts: map<string, string>)
    requires pts != []
    ensures Loadable(pts, txts) == (if Loads(pts[0], txts) then {pts[0].stem} else {}) + Loadable(pts[1..], txts)
  {
    assert forall f :: f in pts <==> f == pts[0] || f in pts[1..];
  }

  /** Aborting on a failed load fails exactly when some `.pt` file with a
      paired transcript does not load; otherwise it registers the same voices
      as skipping would. */
  lemma {:induction false} LoadStrictOutcome(d: VoiceDict, pts: seq<PtFile>, txts: map<string, string>)
    requires d.Valid()
    ensures LoadStrict(d, pts, txts).None? <==> exists f :: f in pts && Breaks(f, txts)
    ensures LoadStrict(d, pts, txts).Some? ==> LoadStrict(d, pts, txts).value == LoadSkipping(d, pts, txts)
    decreases |pts|
  {
    if pts != [] {
      LoadStrictOutcome(AddPt(d, pts[0], txts), pts[1..], txts);
      assert forall f :: f in pts <==> f == pts[0] || f in pts[1..];
    }
  }

  /** No later `.pt` file has the same stem as the one at `i`, so the
      registry keeps what that file loaded. */
  predicate LastPt(pts: seq<PtFile>, i: nat)
    requires i < |pts|
  {
    forall j :: i < j < |pts| ==> pts[j].stem != pts[i].stem
  }

  /** Each registered voice holds the codes its `.pt` file loaded and the
      stripped text of its transcript. */
  lemma {:induction false} LoadSkippingVoices(d: VoiceDict, pts: seq<PtFile>, txts: map<string, string>)
    requires d.Valid()
    ensures forall i :: 0 <= i < |pts| && Loads(pts[i], txts) && LastPt(pts, i) ==>
      && pts[i].stem in LoadSkipping(d, pts, txts).entries
      && LoadSkipping(d, pts, txts).entries[pts[i].stem] == Voice(pts[i].codes.value, Strip(txts[pts[i].stem]))
    decreases |pts|
  {
    if pts != [] {
      var d1 := AddPt(d, pts[0], txts);
      var r := LoadSkipping(d, pts, txts);
      assert r == LoadSkipping(d1, pts[1..], txts);
      LoadSkippingVoices(d1, pts[1..], txts);
      LoadSkippingKeeps(d1, pts[1..], txts);
      forall i | 0 <= i < |pts| && Loads(pts[i], txts) && LastPt(pts, i)
        ensures pts[i].stem in r.entries && r.entries[pts[i].stem] == Voice(pts[i].codes.value, Strip(txts[pts[i].stem]))
      {
        if i == 0 {
          forall f | f in pts[1..] && Loads(f, txts)
            ensures f.stem != pts[0].stem
          {
            var j :| 0 <= j < |pts[1..]| && pts[1..][j] == f;
            assert pts[j + 1] == f;
          }
          assert pts[0].stem !in Loadable(pts[1..], txts);
        } else {
          assert pts[1..][i - 1] == pts[i];
          assert forall j :: i - 1 < j < |pts[1..]| ==> pts[1..][j] == pts[j + 1];
          assert LastPt(pts[1..], i - 1);
        }
      }
    }
  }

  /** Registering never reorders the names already there: they stay first,
      in their order. */
  lemma {:induction false} LoadSkippingPrefix(d: VoiceDict, pts: seq<PtFile>, txts: map<string, string>)
    requires d.Valid()
    ensures |d.order| <= |LoadSkipping(d, pts, txts).order|
    ensures LoadSkipping(d, pts, txts).order[..|d.order|] == d.order
    decreases |pts|
  {
    if pts != [] {
      var d1 := AddPt(d, pts[0], txts);
      LoadSkippingPrefix(d1, pts[1..], txts);
      var r := LoadSkipping(d1, pts[1..], txts);
      assert r.order[..|d1.order|][..|d.order|] == r.order[..|d.order|];
    }
  }

  /** A registry has no names in its order exactly when it has no keys. */
  lemma {:induction false} EmptyOrder(d: VoiceDict)
    requires d.Valid()
    ensures d.order == [] <==> d.entries == map[]
  {
    if d.order != [] {
      assert d.order[0] in d.entries;
    }
  }

  /** The position of the first `.pt` file that gets registered, in the
      order the glob yields them (`|pts|` when none does). */
  function FirstLoading(pts: seq<PtFile>, txts: map<string, string>): (i: nat)
    ensures i <= |pts|
    decreases |pts|
  {
    if pts == [] then 0 else if Loads(pts[0], txts) then 0 else 1 + FirstLoading(pts[1..], txts)
  }

  /** No file before the first registered one loads, and there is one exactly
      when some stem is loadable. */
  lemma {:induction false} FirstLoadingSpec(pts: seq<PtFile>, txts: map<string, string>)
    ensures forall j :: 0 <= j < FirstLoading(pts, txts) ==> !Loads(pts[j], txts)
    ensures FirstLoading(pts, txts) < |pts| ==> Loads(pts[FirstLoading(pts, txts)], txts)
    ensures FirstLoading(pts, txts) < |pts| <==> Loadable(pts, txts) != {}
    decreases |pts|
  {
    if pts != [] {
      FirstLoadingSpec(pts[1..], txts);
      LoadableCons(pts, txts);
      if !Loads(pts[0], txts) {
        assert forall j :: 0 < j <= |pts[1..]| ==> pts[j] == pts[1..][j - 1];
      }
    }
  }

  /** Loading into an empty registry puts first the stem of the first `.pt`
      file that loads: that is the name `list(voices.keys())[0]` yields. */
  lemma {:induction false} LoadSkippingFirst(d: VoiceDict, pts: seq<PtFile>, txts: map<string, string>)
    requires d.Valid() && d.order == []
    requires FirstLoading(pts, txts) < |pts|
    ensures LoadSkipping(d, pts, txts).order != []
    ensures LoadSkipping(d, pts, txts).order[0] == pts[FirstLoading(pts, txts)].stem
    decreases |pts|
  {
    var d1 := AddPt(d, pts[0], txts);
    if Loads(pts[0], txts) {
      assert d.entries == map[];
      assert d1.order == [pts[0].stem];
      LoadSkippingPrefix(d1, pts[1..], txts);
    } else {
      LoadSkippingFirst(d1, pts[1..], txts);
    }
  }

  /** A `.wav` file that needs encoding: it has a transcript and no `.pt`. */
  predicate NeedsEncoding(w: WavFile, ptStems: set<string>, txts: map<string, string>)
  {
    w.stem in txts && w.stem !in ptStems
  }

  /** A `.wav` file that needs encoding but whose encoding or save raises. */
  predicate EncodingBreaks(w: WavFile, ptStems: set<string>, txts: map<string, string>)
  {
    NeedsEncoding(w, ptStems, txts) && (w.encoded.None? || !w.saved)
  }

  ghost function Encodable(wavs: seq<WavFile>, ptStems: set<string>, txts: map<string, string>): set<string>
  {
    set w | w in wavs && NeedsEncoding(w, ptStems, txts) :: w.stem
  }

  /** The registry after encoding, saving and registering every `.wav` file
      that has a transcript and no `.pt` file; a failure aborts (`None`). */
  function CreateDefaults(d: VoiceDict, wavs: seq<WavFile>, ptStems: set<string>, txts: map<string, string>): (r: Option<VoiceDict>)
    requires d.Valid()
    ensures r.Some? ==> r.value.Valid()
    decreases |wavs|
  {
    if wavs == [] then Some(d)
    else
      var w := wavs[0];
      if !NeedsEncoding(w, ptStems, txts) then CreateDefaults(d, wavs[1..], ptStems, txts)
      else if w.encoded.None? || !w.saved then None
      else CreateDefaults(d.Set(w.stem, Voice(w.encoded.value, Strip(txts[w.stem]))), wavs[1..], ptStems, txts)
  }

  lemma {:induction false} EncodableCons(wavs: seq<WavFile>, ptStems: set<string>, txts: map<string, string>)
    requires wavs != []
    ensures Encodable(wavs, ptStems, txts) ==
      (if NeedsEncoding(wavs[0], ptStems, txts) then {wavs[0].stem} else {}) + Encodable(wavs[1..], ptStems, txts)
  {
    assert forall x :: x in wavs <==> x == wavs[0] || x in wavs[1..];
  }

  /** Creating the default voices fails exactly when a `.wav` file that needs
      encoding cannot be encoded or saved. */
  lemma {:induction false} CreateDefaultsFails(d: VoiceDict, wavs: seq<WavFile>, ptStems: set<string>, txts: map<string, string>)
    requires d.Valid()
    ensures CreateDefaults(d, wavs, ptStems, txts).None? <==> exists w :: w in wavs && EncodingBreaks(w, ptStems, txts)
    decreases |wavs|
  {
    if wavs != [] {
      var w := wavs[0];
      assert forall x :: x in wavs <==> x == w || x in wavs[1..];
      if !NeedsEncoding(w, ptStems, txts) {
        CreateDefaultsFails(d, wavs[1..], ptStems, txts);
      } else if w.encoded.Some? && w.saved {
        CreateDefaultsFails(d.Set(w.stem, Voice(w.encoded.value, Strip(txts[w.stem]))), wavs[1..], ptStems, txts);
      } else {
        assert w in wavs && EncodingBreaks(w, ptStems, txts);
      }
    }
  }

  /** When it succeeds, creating the default voices adds exactly the stems of
      the `.wav` files with a transcript and without a `.pt` file. */
  lemma {:induction false} CreateDefaultsKeys(d: VoiceDict, wavs: seq<WavFile>, ptStems: set<string>, txts: map<string, string>)
    requires d.Valid()
    ensures CreateDefaults(d, wavs, ptStems, txts).Some? ==>
      CreateDefaults(d, wavs, ptStems, txts).value.entries.Keys == d.entries.Keys + Encodable(wavs, ptStems, txts)
    decreases |wavs|
  {
    if wavs != [] {
      var w := wavs[0];
      EncodableCons(wavs, ptStems, txts);
      if !NeedsEncoding(w, ptStems, txts) {
        CreateDefaultsKeys(d, wavs[1..], ptStems, txts);
      } else if w.encoded.Some? && w.saved {
        CreateDefaultsKeys(d.Set(w.stem, Voice(w.encoded.value, Strip(txts[w.stem]))), wavs[1..], ptStems, txts);
      }
    }
  }

  /** Creating the default voices fails exactly when a `.wav` file that needs
      encoding cannot be encoded or saved; otherwise it adds exactly the stems
      of the `.wav` files with a transcript and without a `.pt` file. */
  lemma {:induction false} CreateDefaultsRegisters(d: VoiceDict, wavs: seq<WavFile>, ptStems: set<string>, txts: map<string, string>)
    requires d.Valid()
    ensures CreateDefaults(d, wavs, ptStems, txts).None? <==> exists w :: w in wavs && EncodingBreaks(w, ptStems, txts)
    ensures CreateDefaults(d, wavs, ptStems, txts).Some? ==>
      CreateDefaults(d, wavs, ptStems, txts).value.entries.Keys == d.entries.Keys + Encodable(wavs, ptStems, txts)
    ensures var r := CreateDefaults(d, wavs, ptStems, txts);
      r.Some? ==>
        forall i :: 0 <= i < |wavs| && NeedsEncoding(wavs[i], ptStems, txts) && LastWav(wavs, i) ==>
          && wavs[i].encoded.Some?
          && wavs[i].stem in r.value.entries
          && r.value.entries[wavs[i].stem] == Voice(wavs[i].encoded.value, Strip(txts[wavs[i].stem]))
  {
    CreateDefaultsFails(d, wavs, ptStems, txts);
    CreateDefaultsKeys(d, wavs, ptStems, txts);
    CreateDefaultsVoices(d, wavs, ptStems, txts);
  }

  /** No later `.wav` file has the same stem as the one at `i`. */
  predicate LastWav(wavs: seq<WavFile>, i: nat)
    requires i < |wavs|
  {
    forall j :: i < j < |wavs| ==> wavs[j].stem != wavs[i].stem
  }

  /** When creating the default voices succeeds, the names already registered
      keep their voices unless a `.wav` file registers them again. */
  lemma {:induction false} CreateDefaultsKeeps(d: VoiceDict, wavs: seq<WavFile>, ptStems: set<string>, txts: map<string, string>)
    requires d.Valid()
    ensures CreateDefaults(d, wavs, ptStems, txts).Some? ==>
      forall n :: n in d.entries && n !in Encodable(wavs, ptStems, txts) ==>
        n in CreateDefaults(d, wavs, ptStems, txts).value.entries && CreateDefaults(d, wavs, ptStems, txts).value.entries[n] == d.entries[n]
    decreases |wavs|
  {
    if wavs != [] {
      var w := wavs[0];
      EncodableCons(wavs, ptStems, txts);
      if !NeedsEncoding(w, ptStems, txts) {
        CreateDefaultsKeeps(d, wavs[1..], ptStems, txts);
      } else if w.encoded.Some? && w.saved {
        CreateDefaultsKeeps(d.Set(w.stem, Voice(w.encoded.value, Strip(txts[w.stem]))), wavs[1..], ptStems, txts);
      }
    }
  }

  /** When creating the default voices succeeds, each created voice holds the
      codes `encode_reference` returned for its `.wav` file and the stripped
      text of its transcript. */
  lemma {:induction false} CreateDefaultsVoices(d: VoiceDict, wavs: seq<WavFile>, ptStems: set<string>, txts: map<string, string>)
    requires d.Valid()
    ensures var r := CreateDefaults(d, wavs, ptStems, txts);
      r.Some? ==>
        forall i :: 0 <= i < |wavs| && NeedsEncoding(wavs[i], ptStems, txts) && LastWav(wavs, i) ==>
          && wavs[i].encoded.Some?
          && wavs[i].stem in r.value.entries
          && r.value.entries[wavs[i].stem] == Voice(wavs[i].encoded.value, Strip(txts[wavs[i].stem]))
    decreases |wavs|
  {
    if wavs != [] {
      var w := wavs[0];
      var r := CreateDefaults(d, wavs, ptStems, txts);
      if r.Some? {
        var d1 := if NeedsEncoding(w, ptStems, txts) then d.Set(w.stem, Voice(w.encoded.value, Strip(txts[w.stem]))) else d;
        assert r == CreateDefaults(d1, wavs[1..], ptStems, txts);
        CreateDefaultsVoices(d1, wavs[1..], ptStems, txts);
        CreateDefaultsKeeps(d1, wavs[1..], ptStems, txts);
        forall i | 0 <= i < |wavs| && NeedsEncoding(wavs[i], ptStems, txts) && LastWav(wavs, i)
          ensures && wavs[i].encoded.Some?
                  && wavs[i].stem in r.value.entries
                  && r.value.entries[wavs[i].stem] == Voice(wavs[i].encoded.value, Strip(txts[wavs[i].stem]))
        {
          if i == 0 {
            forall x | x in wavs[1..] && NeedsEncoding(x, ptStems, txts)
              ensures x.stem != w.stem
            {
              var j :| 0 <= j < |wavs[1..]| && wavs[1..][j] == x;
              assert wavs[j + 1] == x;
            }
            assert w.stem !in Encodable(wavs[1..], ptStems, txts);
          } else {
            assert wavs[1..][i - 1] == wavs[i];
            assert forall j :: i - 1 < j < |wavs[1..]| ==> wavs[1..][j] == wavs[j + 1];
            assert LastWav(wavs[1..], i - 1);
          }
        }
      }
    }
  }

  /** Creating the default voices never reorders the names already there. */
  lemma {:induction false} CreateDefaultsPrefix(d: VoiceDict, wavs: seq<WavFile>, ptStems: set<string>, txts: map<string, string>)
    requires d.Valid()
    ensures var r := CreateDefaults(d, wavs, ptStems, txts);
      r.Some? ==> |d.order| <= |r.value.order| && r.value.order[..|d.order|] == d.order
    decreases |wavs|
  {
    if wavs != [] {
      var w := wavs[0];
      var r := CreateDefaults(d, wavs, ptStems, txts);
      if r.Some? {
        var d1 := if NeedsEncoding(w, ptStems, txts) then d.Set(w.stem, Voice(w.encoded.value, Strip(txts[w.stem]))) else d;
        assert r == CreateDefaults(d1, wavs[1..], ptStems, txts);
        assert |d.order| <= |d1.order| && d1.order[..|d.order|] == d.order;
        CreateDefaultsPrefix(d1, wavs[1..], ptStems, txts);
        assert r.value.order[..|d1.order|][..|d.order|] == r.value.order[..|d.order|];
      }
    }
  }

  /** The position of the first `.wav` file that needs encoding, in the
      order the glob yields them (`|wavs|` when none does). */
  function FirstEncoding(wavs: seq<WavFile>, ptStems: set<string>, txts: map<string, string>): (i: nat)
    ensures i <= |wavs|
    decreases |wavs|
  {
    if wavs == [] then 0
    else if NeedsEncoding(wavs[0], ptStems, txts) then 0
    else 1 + FirstEncoding(wavs[1..], ptStems, txts)
  }

  /** No file before the first one needing encoding needs it, and there is
      one exactly when some stem is encodable. */
  lemma {:induction false} FirstEncodingSpec(wavs: seq<WavFile>, ptStems: set<string>, txts: map<string, string>)
    ensures forall j :: 0 <= j < FirstEncoding(wavs, ptStems, txts) ==> !NeedsEncoding(wavs[j], ptStems, txts)
    ensures FirstEncoding(wavs, ptStems, txts) < |wavs| ==> NeedsEncoding(wavs[FirstEncoding(wavs, ptStems, txts)], ptStems, txts)
    ensures FirstEncoding(wavs, ptStems, txts) < |wavs| <==> Encodable(wavs, ptStems, txts) != {}
    decreases |wavs|
  {
    if wavs != [] {
      FirstEncodingSpec(wavs[1..], ptStems, txts);
      EncodableCons(wavs, ptStems, txts);
      if !NeedsEncoding(wavs[0], ptStems, txts) {
        assert forall j :: 0 < j <= |wavs[1..]| ==> wavs[j] == wavs[1..][j - 1];
      }
    }
  }

  /** Creating voices into an empty registry puts first the stem of the first
      `.wav` file that needs encoding. */
  lemma {:induction false} CreateDefaultsFirst(d: VoiceDict, wavs: seq<WavFile>, ptStems: set<string>, txts: map<string, string>)
    requires d.Valid() && d.order == []
    requires FirstEncoding(wavs, ptStems, txts) < |wavs|
    ensures var r := CreateDefaults(d, wavs, ptStems, txts);
      r.Some? ==> r.value.order != [] && r.value.order[0] == wavs[FirstEncoding(wavs, ptStems, txts)].stem
    decreases |wavs|
  {
    var w := wavs[0];
    if NeedsEncoding(w, ptStems, txts) {
      if w.encoded.Some? && w.saved {
        var d1 := d.Set(w.stem, Voice(w.encoded.value, Strip(txts[w.stem])));
        assert d.entries == map[];
        assert d1.order == [w.stem];
        CreateDefaultsPrefix(d1, wavs[1..], ptStems, txts);
      }
    } else {
      CreateDefaultsFirst(d, wavs[1..], ptStems, txts);
    }
  }

  /** The voice selected after a scan: `dave` when registered, otherwise the
      first name registered; `None` (the `IndexError` of `list(...)[0]`) when
      nothing is registered. */
  function DefaultVoice(d: VoiceDict): (r: Option<string>)
    requires d.Valid()
    ensures r.Some? ==> d.Has(r.value)
    ensures r.None? <==> d.entries.Keys == {}
    ensures d.Has(PreferredVoice) ==> r == Some(PreferredVoice)
    ensures !d.Has(PreferredVoice) && r.Some? ==> r.value == d.order[0]
  {
    if d.Has(PreferredVoice) then Some(PreferredVoice)
    else if d.order == [] then None
    else Some(d.order[0])
  }
}
