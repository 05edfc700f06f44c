/** The string operations the programs lean on, with Python's meaning:
    `str.strip()`, `str.lower()`, `str.split()` with no argument, and the
    two-decimal rendering `f"{t:.2f}"` of a duration. */
module Text {

  /** Python's `str.isspace()` for one character: the ASCII controls tab to
      carriage return, the information separators 0x1C to 0x1F, the space,
      NEL, the no-break space, the Ogham space mark, the spaces U+2000 to
      U+200A, the line and paragraph separators, the narrow no-break space,
      the medium mathematical space and the ideographic space. */
  predicate IsSpace(c: char)
  {
    var k := c as int;
    9 <= k <= 13 || 28 <= k <= 32 || k == 0x85 || k == 0xA0 || k == 0x1680 || 0x2000 <= k <= 0x200A
    || k == 0x2028 || k == 0x2029 || k == 0x202F || k == 0x205F || k == 0x3000
  }

  /** Nothing but whitespace (the empty string included). */
  predicate Blank(s: string)
  {
    forall i :: 0 <= i < |s| ==> IsSpace(s[i])
  }

  /** No whitespace at all. */
  predicate Solid(s: string)
  {
    forall i :: 0 <= i < |s| ==> !IsSpace(s[i])
  }

  /** Number of leading whitespace characters. */
  function Leading(s: string): (n: nat)
    ensures n <= |s|
  {
    if |s| > 0 && IsSpace(s[0]) then 1 + Leading(s[1..]) else 0
  }

  /** The leading run is all whitespace and is followed by a character that
      is not. */
  lemma {:induction false} LeadingSpaces(s: string)
    ensures forall i :: 0 <= i < Leading(s) ==> IsSpace(s[i])
    ensures Leading(s) < |s| ==> !IsSpace(s[Leading(s)])
    decreases |s|
  {
    if |s| > 0 && IsSpace(s[0]) {
      LeadingSpaces(s[1..]);
      assert forall i :: 1 <= i < |s| ==> s[i] == s[1..][i - 1];
    }
  }

  /** Number of trailing whitespace characters. */
  function Trailing(s: string): (n: nat)
    ensures n <= |s|
  {
    if |s| > 0 && IsSpace(s[|s| - 1]) then 1 + Trailing(s[..|s| - 1]) else 0
  }

  /** The trailing run is all whitespace and is preceded by a character that
      is not. */
  lemma {:induction false} TrailingSpaces(s: string)
    ensures forall i :: |s| - Trailing(s) <= i < |s| ==> IsSpace(s[i])
    ensures Trailing(s) < |s| ==> !IsSpace(s[|s| - 1 - Trailing(s)])
    decreases |s|
  {
    if |s| > 0 && IsSpace(s[|s| - 1]) {
      TrailingSpaces(s[..|s| - 1]);
      assert forall i :: 0 <= i < |s| - 1 ==> s[i] == s[..|s| - 1][i];
    }
  }

  /** Python's `s.strip()`: `s` without its leading and trailing whitespace. */
  function Strip(s: string): (r: string)
    ensures |r| <= |s|
  {
    var a := Leading(s);
    var e := if a == |s| then a else |s| - Trailing(s);
    assert a <= e by {
      LeadingSpaces(s);
      TrailingSpaces(s);
    }
    s[a..e]
  }

  /** A string that is not blank strips to the slice between its leading and
      its trailing whitespace. */
  lemma {:induction false} StripAt(s: string)
    requires Leading(s) < |s|
    ensures Leading(s) < |s| - Trailing(s)
    ensures Strip(s) == s[Leading(s)..|s| - Trailing(s)]
  {
    LeadingSpaces(s);
    TrailingSpaces(s);
  }

  /** Nothing is left of a string after stripping exactly when it is blank. */
  lemma {:induction false} StripBlank(s: string)
    ensures Strip(s) == [] <==> Blank(s)
  {
    LeadingSpaces(s);
    if Leading(s) < |s| {
      StripAt(s);
    }
  }

  /** A non-empty stripped string starts and ends with a non-whitespace
      character. */
  lemma {:induction false} StripEnds(s: string)
    ensures Strip(s) != [] ==> !IsSpace(Strip(s)[0]) && !IsSpace(Strip(s)[|Strip(s)| - 1])
  {
    LeadingSpaces(s);
    TrailingSpaces(s);
    if Leading(s) < |s| {
      StripAt(s);
    }
  }

  /** The stripped string is the slice of `s` that starts after its leading
      whitespace. */
  lemma {:induction false} StripSlice(s: string)
    ensures Leading(s) + |Strip(s)| <= |s|
    ensures Strip(s) == s[Leading(s)..Leading(s) + |Strip(s)|]
  {
    if Leading(s) < |s| {
      StripAt(s);
    }
  }

  /** Only whitespace lies around the stripped string. */
  lemma {:induction false} StripSurround(s: string)
    ensures Leading(s) + |Strip(s)| <= |s|
    ensures Blank(s[..Leading(s)])
    ensures Blank(s[Leading(s) + |Strip(s)|..])
  {
    LeadingSpaces(s);
    TrailingSpaces(s);
    if Leading(s) < |s| {
      StripAt(s);
    }
  }

  /** Whitespace appended after a non-whitespace character is exactly the
      trailing whitespace. */
  lemma {:induction false} TrailingPadding(w: string, pad: string)
    requires w != [] && !IsSpace(w[|w| - 1]) && Blank(pad)
    ensures Trailing(w + pad) == |pad|
    decreases |pad|
  {
    if pad != [] {
      var init := pad[..|pad| - 1];
      assert (w + pad)[..|w + pad| - 1] == w + init;
      TrailingPadding(w, init);
    }
  }

  /** Stripping a word followed by whitespace gives the word back. */
  lemma {:induction false} StripPadded(w: string, pad: string)
    requires w != [] && !IsSpace(w[0]) && !IsSpace(w[|w| - 1]) && Blank(pad)
    ensures Strip(w + pad) == w
  {
    var s := w + pad;
    assert Leading(s) == 0;
    TrailingPadding(w, pad);
    assert s[0..|s| - |pad|] == w;
  }

  /** The lower-case form of an ASCII capital letter; every other character is kept. */
  function LowerChar(c: char): char
  {
    if 'A' <= c <= 'Z' then (c as int + 32) as char else c
  }

  /** Python's `s.lower()` on ASCII letters. */
  function Lower(s: string): (r: string)
    ensures |r| == |s|
  {
    if s == [] then [] else [LowerChar(s[0])] + Lower(s[1..])
  }

  /** Each character of `s.lower()` is the lower-case form of the character
      at the same place in `s`. */
  lemma {:induction false} LowerAt(s: string, i: nat)
    requires i < |s|
    ensures Lower(s)[i] == LowerChar(s[i])
    decreases |s|
  {
    if i > 0 {
      LowerAt(s[1..], i - 1);
    }
  }

  /** Lower-casing works character by character, so it distributes over
      concatenation. */
  lemma {:induction false} LowerAppend(a: string, b: string)
    ensures Lower(a + b) == Lower(a) + Lower(b)
    decreases |a|
  {
    if a == [] {
      assert a + b == b;
    } else {
      assert (a + b)[1..] == a[1..] + b;
      LowerAppend(a[1..], b);
    }
  }

  /** No ASCII capital letter. */
  predicate IsLower(s: string)
  {
    forall i :: 0 <= i < |s| ==> !('A' <= s[i] <= 'Z')
  }

  /** Length of the run of non-whitespace characters that starts `s`. */
  function WordLength(s: string): (n: nat)
    ensures n <= |s|
  {
    if |s| > 0 && !IsSpace(s[0]) then 1 + WordLength(s[1..]) else 0
  }

  /** The first word holds no whitespace and ends at whitespace or at the
      end of the string. */
  lemma {:induction false} WordChars(s: string)
    ensures forall i :: 0 <= i < WordLength(s) ==> !IsSpace(s[i])
    ensures WordLength(s) < |s| ==> IsSpace(s[WordLength(s)])
    decreases |s|
  {
    if |s| > 0 && !IsSpace(s[0]) {
      WordChars(s[1..]);
      assert forall i :: 1 <= i < |s| ==> s[i] == s[1..][i - 1];
    }
  }

  /** The rest of a string after its leading whitespace starts a word, when
      anything is left. */
  lemma {:induction false} WordAhead(s: string)
    requires Leading(s) < |s|
    ensures WordLength(s[Leading(s)..]) > 0
  {
    LeadingSpaces(s);
    assert s[Leading(s)..][0] == s[Leading(s)];
  }

  /** Python's `s.split()`: the maximal runs of non-whitespace characters, in
      order. */
  function Split(s: string): seq<string>
    decreases |s|
  {
    var t := s[Leading(s)..];
    if t == [] then []
    else
      var n := WordLength(t);
      assert n > 0 by { WordAhead(s); }
      [t[..n]] + Split(t[n..])
  }

  /** Every word is non-empty and holds no whitespace. */
  lemma {:induction false} SplitWords(s: string)
    ensures forall w :: w in Split(s) ==> w != [] && Solid(w)
    decreases |s|
  {
    var t := s[Leading(s)..];
    if t != [] {
      var n := WordLength(t);
      WordAhead(s);
      WordChars(t);
      SplitWords(t[n..]);
      assert Split(s) == [t[..n]] + Split(t[n..]);
    }
  }

  /** The words of a string without capitals have no capitals. */
  lemma {:induction false} SplitLower(s: string)
    requires IsLower(s)
    ensures forall w :: w in Split(s) ==> IsLower(w)
    decreases |s|
  {
    var t := s[Leading(s)..];
    if t != [] {
      var n := WordLength(t);
      WordAhead(s);
      assert IsLower(t[n..]);
      SplitLower(t[n..]);
      assert Split(s) == [t[..n]] + Split(t[n..]);
      assert IsLower(t[..n]);
    }
  }

  /** The characters of `s` that are not whitespace, in order. */
  function NonSpace(s: string): string
  {
    if s == [] then [] else (if IsSpace(s[0]) then [] else [s[0]]) + NonSpace(s[1..])
  }

  function Concat(words: seq<string>): string
  {
    if words == [] then [] else words[0] + Concat(words[1..])
  }

  lemma {:induction false} NonSpaceAppend(a: string, b: string)
    ensures NonSpace(a + b) == NonSpace(a) + NonSpace(b)
    decreases |a|
  {
    if a == [] {
      assert a + b == b;
    } else {
      var head := if IsSpace(a[0]) then [] else [a[0]];
      assert (a + b)[1..] == a[1..] + b;
      NonSpaceAppend(a[1..], b);
      assert NonSpace(a + b) == head + (NonSpace(a[1..]) + NonSpace(b));
      assert NonSpace(a) == head + NonSpace(a[1..]);
    }
  }

  lemma {:induction false} NonSpaceBlank(s: string)
    requires Blank(s)
    ensures NonSpace(s) == []
    decreases |s|
  {
    if s != [] {
      NonSpaceBlank(s[1..]);
    }
  }

  lemma {:induction false} NonSpaceSolid(s: string)
    requires Solid(s)
    ensures NonSpace(s) == s
    decreases |s|
  {
    if s != [] {
      NonSpaceSolid(s[1..]);
    }
  }

  /** Leading whitespace contributes nothing to the non-whitespace
      characters. */
  lemma {:induction false} NonSpaceLeading(s: string)
    ensures NonSpace(s) == NonSpace(s[Leading(s)..])
  {
    var a := Leading(s);
    LeadingSpaces(s);
    assert s == s[..a] + s[a..];
    NonSpaceAppend(s[..a], s[a..]);
    NonSpaceBlank(s[..a]);
  }

  lemma {:induction false} ConcatCons(w: string, rest: seq<string>)
    ensures Concat([w] + rest) == w + Concat(rest)
  {
    assert ([w] + rest)[1..] == rest;
  }

  /** Splitting loses only whitespace: the words, joined, are exactly the
      non-whitespace characters of the line. */
  lemma {:induction false} SplitConcat(s: string)
    ensures Concat(Split(s)) == NonSpace(s)
    decreases |s|
  {
    NonSpaceLeading(s);
    var t := s[Leading(s)..];
    if t != [] {
      var n := WordLength(t);
      WordAhead(s);
      WordChars(t);
      assert t == t[..n] + t[n..];
      NonSpaceAppend(t[..n], t[n..]);
      NonSpaceSolid(t[..n]);
      SplitConcat(t[n..]);
      ConcatCons(t[..n], Split(t[n..]));
    }
  }

  /** A line splits into no words exactly when it is blank. */
  lemma {:induction false} SplitBlank(s: string)
    ensures Split(s) == [] <==> Blank(s)
  {
    LeadingSpaces(s);
    if Leading(s) < |s| {
      WordAhead(s);
    }
  }

  lemma {:induction false} LowerCharSpace(c: char)
    ensures IsSpace(LowerChar(c)) == IsSpace(c)
  {
  }

  /** Lower-casing keeps every whitespace character where it is. */
  lemma {:induction false} LeadingLower(s: string)
    ensures Leading(Lower(s)) == Leading(s)
    decreases |s|
  {
    if |s| > 0 {
      LowerDrop(s, 1);
      LowerCharSpace(s[0]);
      LeadingLower(s[1..]);
    }
  }

  lemma {:induction false} TrailingLower(s: string)
    ensures Trailing(Lower(s)) == Trailing(s)
    decreases |s|
  {
    if |s| > 0 {
      LowerTake(s, |s| - 1);
      LowerAt(s, |s| - 1);
      LowerCharSpace(s[|s| - 1]);
      TrailingLower(s[..|s| - 1]);
    }
  }

  /** A sequence is the concatenation of the three pieces two cuts make. */
  lemma {:induction false} Pieces<T>(s: seq<T>, i: nat, j: nat)
    requires i <= j <= |s|
    ensures s == s[..i] + (s[i..j] + s[j..])
  {
    assert s[i..] == s[i..j] + s[j..];
    assert s == s[..i] + s[i..];
  }

  /** The middle piece of a concatenation of three is the slice between the
      two seams. */
  lemma {:induction false} Middle<T>(a: seq<T>, b: seq<T>, c: seq<T>)
    ensures (a + (b + c))[|a|..|a| + |b|] == b
  {
  }

  lemma {:induction false} LowerDrop(s: string, i: nat)
    requires i <= |s|
    ensures Lower(s)[i..] == Lower(s[i..])
  {
    assert s == s[..i] + s[i..];
    LowerAppend(s[..i], s[i..]);
    assert (Lower(s[..i]) + Lower(s[i..]))[i..] == Lower(s[i..]);
  }

  lemma {:induction false} LowerTake(s: string, j: nat)
    requires j <= |s|
    ensures Lower(s)[..j] == Lower(s[..j])
  {
    assert s == s[..j] + s[j..];
    LowerAppend(s[..j], s[j..]);
    assert (Lower(s[..j]) + Lower(s[j..]))[..j] == Lower(s[..j]);
  }

  lemma {:induction false} LowerSlice(s: string, i: nat, j: nat)
    requires i <= j <= |s|
    ensures Lower(s)[i..j] == Lower(s[i..j])
  {
    var m := s[i..j];
    Pieces(s, i, j);
    LowerAppend(s[..i], m + s[j..]);
    LowerAppend(m, s[j..]);
    Middle(Lower(s[..i]), Lower(m), Lower(s[j..]));
  }

  lemma {:induction false} StripLowerSolid(s: string)
    requires Leading(s) < |s|
    ensures Strip(Lower(s)) == Lower(Strip(s))
  {
    var a, e := Leading(s), |s| - Trailing(s);
    LeadingLower(s);
    TrailingLower(s);
    StripAt(s);
    StripAt(Lower(s));
    LowerSlice(s, a, e);
    var t := Strip(s);
    assert t == s[a..e];
    assert Strip(Lower(s)) == Lower(t);
  }

  /** Stripping and lower-casing commute. */
  lemma {:induction false} StripLower(s: string)
    ensures Strip(Lower(s)) == Lower(Strip(s))
  {
    if Leading(s) == |s| {
      LeadingLower(s);
      assert Strip(s) == [] && Strip(Lower(s)) == [];
      assert Lower([]) == [];
    } else {
      StripLowerSolid(s);
    }
  }

  /** Lower-casing twice is lower-casing once. */
  lemma {:induction false} LowerIdempotent(s: string)
    ensures Lower(Lower(s)) == Lower(s)
    decreases |s|
  {
    if s != [] {
      LowerIdempotent(s[1..]);
      assert Lower(s)[1..] == Lower(s[1..]);
    }
  }

  /** A lower-cased string holds no capital letter. */
  lemma {:induction false} LowerIsLower(s: string)
    ensures IsLower(Lower(s))
  {
    forall i | 0 <= i < |s|
      ensures !('A' <= Lower(s)[i] <= 'Z')
    {
      LowerAt(s, i);
    }
  }

  /** A single decimal digit. */
  function Digit(d: nat): char
    requires d < 10
  {
    ('0' as int + d) as char
  }

  /** The decimal numeral of `n`, as Python's `str(n)`. */
  function Decimal(n: nat): string
  {
    if n < 10 then [Digit(n)] else Decimal(n / 10) + [Digit(n % 10)]
  }

  /** `f"{t:.2f}"` for a duration `t` held in hundredths of a second. */
  function Fixed2(centis: nat): string
  {
    Decimal(centis / 100) + "." + [Digit(centis / 10 % 10), Digit(centis % 10)]
  }
}
