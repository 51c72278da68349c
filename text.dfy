/**
 * The string operations the note search and the proxy rely on, with the JavaScript meaning they
 * have in the source: ASCII lower-casing (`toLowerCase`), the whitespace class `\s` and the
 * word-character class `\w` of a regular expression without the `u` flag, `split(/\s+/)`, the
 * first-occurrence `replace(pattern, "")` of a string pattern, and the test of the pattern
 * `(^|\W)term(\W|$)` against a text.
 */
module Text {
  import opened Wrappers

  // ---------------------------------------------------------------------------------------------
  // Character classes

  /** `\w`: ASCII letters, digits and the underscore. `\W` is its complement. */
  predicate IsWordChar(c: char)
  {
    ('a' <= c <= 'z') || ('A' <= c <= 'Z') || ('0' <= c <= '9') || c == '_'
  }

  /** `\s`: the white space and line terminator characters of ECMAScript. */
  const WhitespaceChars: set<char> := {
    '\t', '\n', '\U{000B}', '\U{000C}', '\r', ' ', '\U{00A0}', '\U{1680}',
    '\U{2000}', '\U{2001}', '\U{2002}', '\U{2003}', '\U{2004}', '\U{2005}', '\U{2006}',
    '\U{2007}', '\U{2008}', '\U{2009}', '\U{200A}',
    '\U{2028}', '\U{2029}', '\U{202F}', '\U{205F}', '\U{3000}', '\U{FEFF}'
  }

  predicate IsWhitespace(c: char)
  {
    c in WhitespaceChars
  }

  function LowerChar(c: char): (d: char)
    ensures 'A' <= c <= 'Z' ==> d as int == c as int + 32
    ensures !('A' <= c <= 'Z') ==> d == c
  {
    if 'A' <= c <= 'Z' then (c as int + 32) as char else c
  }

  /** `toLowerCase`, restricted to the ASCII letters. */
  function Lower(s: string): (r: string)
    ensures |r| == |s|
    ensures forall i :: 0 <= i < |s| ==> r[i] == LowerChar(s[i])
  {
    if s == [] then [] else [LowerChar(s[0])] + Lower(s[1..])
  }

  /** Lower-casing neither makes nor unmakes white space at either end of a text. */
  lemma LowerKeepsEdges(s: string)
    ensures s != "" ==> (IsWhitespace(Lower(s)[0]) <==> IsWhitespace(s[0]))
    ensures s != "" ==> (IsWhitespace(Lower(s)[|s| - 1]) <==> IsWhitespace(s[|s| - 1]))
  {
    if s != "" {
      LowerCharKeepsWhitespace(s[0]);
      LowerCharKeepsWhitespace(s[|s| - 1]);
    }
  }

  lemma LowerCharKeepsWhitespace(c: char)
    ensures IsWhitespace(LowerChar(c)) <==> IsWhitespace(c)
  {
    if 'A' <= c <= 'Z' {
      LettersAreNotWhitespace(c);
      LettersAreNotWhitespace(LowerChar(c));
    }
  }

  lemma LettersAreNotWhitespace(c: char)
    requires 'A' <= c <= 'z'
    ensures !IsWhitespace(c)
  {
  }

  predicate IsLower(s: string)
  {
    forall i :: 0 <= i < |s| ==> !('A' <= s[i] <= 'Z')
  }

  /** Lower-casing leaves no upper-case letter, so doing it twice changes nothing. */
  lemma LowerIsLowerAndIdempotent(s: string)
    ensures IsLower(Lower(s))
    ensures Lower(Lower(s)) == Lower(s)
  {
  }

  // ---------------------------------------------------------------------------------------------
  // split(/\s+/)

  /** The index of the first white-space character at or after `from`, or `|s|` if there is none. */
  function NextWhitespace(s: string, from: nat): (i: nat)
    requires from <= |s|
    ensures from <= i <= |s|
    ensures i < |s| ==> IsWhitespace(s[i])
    ensures forall k :: from <= k < i ==> !IsWhitespace(s[k])
    decreases |s| - from
  {
    if from == |s| || IsWhitespace(s[from]) then from else NextWhitespace(s, from + 1)
  }

  /** The end of the run of white space that starts at `from`. */
  function RunEnd(s: string, from: nat): (j: nat)
    requires from <= |s|
    ensures from <= j <= |s|
    ensures j < |s| ==> !IsWhitespace(s[j])
    ensures forall k :: from <= k < j ==> IsWhitespace(s[k])
    decreases |s| - from
  {
    if from < |s| && IsWhitespace(s[from]) then RunEnd(s, from + 1) else from
  }

  /**
   * `s.split(/\s+/)`: the pieces between maximal runs of white space. A leading run gives an
   * empty first piece, a trailing run an empty last piece, and the empty string gives `[""]`.
   */
  function SplitOnWhitespace(s: string): (parts: seq<string>)
    ensures |parts| >= 1
    decreases |s|
  {
    var i := NextWhitespace(s, 0);
    if i == |s| then [s] else [s[..i]] + SplitOnWhitespace(s[RunEnd(s, i)..])
  }

  /** `s` with every white-space character taken out. */
  function RemoveWhitespace(s: string): string
  {
    if s == [] then []
    else if IsWhitespace(s[0]) then RemoveWhitespace(s[1..])
    else [s[0]] + RemoveWhitespace(s[1..])
  }

  function Concat(parts: seq<string>): string
  {
    if parts == [] then [] else parts[0] + Concat(parts[1..])
  }

  predicate NoWhitespace(s: string)
  {
    forall k :: 0 <= k < |s| ==> !IsWhitespace(s[k])
  }

  lemma {:induction false} RemoveWhitespaceAppend(a: string, b: string)
    ensures RemoveWhitespace(a + b) == RemoveWhitespace(a) + RemoveWhitespace(b)
    decreases |a|
  {
    if a != [] {
      assert (a + b)[1..] == a[1..] + b;
      RemoveWhitespaceAppend(a[1..], b);
    } else {
      assert a + b == b;
    }
  }

  lemma {:induction false} RemoveWhitespaceOfPlain(s: string)
    requires NoWhitespace(s)
    ensures RemoveWhitespace(s) == s
    decreases |s|
  {
    if s != [] {
      RemoveWhitespaceOfPlain(s[1..]);
    }
  }

  lemma {:induction false} RemoveWhitespaceOfBlank(s: string)
    requires forall k :: 0 <= k < |s| ==> IsWhitespace(s[k])
    ensures RemoveWhitespace(s) == []
    decreases |s|
  {
    if s != [] {
      RemoveWhitespaceOfBlank(s[1..]);
    }
  }

  /** One step of `split(/\s+/)`: the piece before the first run, then the split of the rest. */
  lemma SplitOnWhitespaceStep(s: string)
    requires NextWhitespace(s, 0) < |s|
    ensures var i := NextWhitespace(s, 0);
      SplitOnWhitespace(s) == [s[..i]] + SplitOnWhitespace(s[RunEnd(s, i)..])
  {
  }

  /** The pieces of `split(/\s+/)` hold no white space. */
  lemma {:induction false} SplitPiecesHaveNoWhitespace(s: string)
    ensures forall k :: 0 <= k < |SplitOnWhitespace(s)| ==> NoWhitespace(SplitOnWhitespace(s)[k])
    decreases |s|
  {
    var i := NextWhitespace(s, 0);
    if i < |s| {
      var rest := s[RunEnd(s, i)..];
      SplitPiecesHaveNoWhitespace(rest);
      SplitOnWhitespaceStep(s);
      var parts, tail := SplitOnWhitespace(s), SplitOnWhitespace(rest);
      forall k | 0 < k < |parts| ensures NoWhitespace(parts[k]) {
        assert parts[k] == tail[k - 1];
      }
    }
  }

  /** Removing the white space of a plain piece, a blank run and a rest keeps the piece. */
  lemma RemoveWhitespaceAroundRun(plain: string, blank: string, rest: string)
    requires NoWhitespace(plain)
    requires forall k :: 0 <= k < |blank| ==> IsWhitespace(blank[k])
    ensures RemoveWhitespace(plain + blank + rest) == plain + RemoveWhitespace(rest)
  {
    var tail := blank + rest;
    RemoveWhitespaceOfBlank(blank);
    RemoveWhitespaceAppend(blank, rest);
    assert RemoveWhitespace(tail) == RemoveWhitespace(rest);
    RemoveWhitespaceOfPlain(plain);
    RemoveWhitespaceAppend(plain, tail);
    assert plain + blank + rest == plain + tail;
  }

  /** Joining the pieces of a text cut at its first run puts the piece before the run first. */
  lemma ConcatAtFirstRun(s: string)
    requires NextWhitespace(s, 0) < |s|
    ensures Concat(SplitOnWhitespace(s)) == s[..NextWhitespace(s, 0)] + Concat(SplitOnWhitespace(s[RunEnd(s, NextWhitespace(s, 0))..]))
  {
    SplitOnWhitespaceStep(s);
    var parts := SplitOnWhitespace(s);
    assert parts[1..] == SplitOnWhitespace(s[RunEnd(s, NextWhitespace(s, 0))..]);
  }

  /** Between them, the pieces hold every non-white-space character of `s`, in order. */
  lemma {:induction false} SplitKeepsEveryOtherChar(s: string)
    ensures Concat(SplitOnWhitespace(s)) == RemoveWhitespace(s)
    decreases |s|
  {
    var i := NextWhitespace(s, 0);
    if i == |s| {
      RemoveWhitespaceOfPlain(s);
    } else {
      var j := RunEnd(s, i);
      CutTwice(s, i, j);
      assert forall k :: 0 <= k < j - i ==> IsWhitespace(s[i..j][k]);
      RemoveWhitespaceAroundRun(s[..i], s[i..j], s[j..]);
      ConcatAtFirstRun(s);
      SplitKeepsEveryOtherChar(s[RunEnd(s, i)..]);
    }
  }

  /**
   * Every piece strictly inside the list is non-empty, and the first piece is empty exactly when
   * `s` is empty or starts with white space.
   */
  lemma {:induction false} SplitEmptyPieces(s: string)
    ensures forall k :: 0 < k < |SplitOnWhitespace(s)| - 1 ==> SplitOnWhitespace(s)[k] != ""
    ensures SplitOnWhitespace(s)[0] == "" <==> s == "" || IsWhitespace(s[0])
    decreases |s|
  {
    var i := NextWhitespace(s, 0);
    if i < |s| {
      var j := RunEnd(s, i);
      var rest := s[j..];
      SplitEmptyPieces(rest);
      SplitOnWhitespaceStep(s);
      var parts, tail := SplitOnWhitespace(s), SplitOnWhitespace(rest);
      forall k | 0 < k < |parts| - 1 ensures parts[k] != "" {
        assert parts[k] == tail[k - 1];
        if k == 1 {
          // the piece after a maximal run starts with a non-white-space character
          assert rest != "" && !IsWhitespace(rest[0]);
        }
      }
    }
  }

  /** The text after the last piece is empty exactly when `s` is empty or ends in white space. */
  lemma {:induction false} SplitLastPiece(s: string)
    ensures SplitOnWhitespace(s)[|SplitOnWhitespace(s)| - 1] == "" <==> s == "" || IsWhitespace(s[|s| - 1])
    decreases |s|
  {
    var i := NextWhitespace(s, 0);
    if i < |s| {
      var j := RunEnd(s, i);
      var rest := s[j..];
      SplitLastPiece(rest);
      SplitOnWhitespaceStep(s);
      var parts, tail := SplitOnWhitespace(s), SplitOnWhitespace(rest);
      assert parts[|parts| - 1] == tail[|tail| - 1];
      if rest != "" {
        assert rest[|rest| - 1] == s[|s| - 1];
      }
    }
  }

  /** A separator of `split(/\s+/)`: a non-empty run of white space. */
  predicate IsRun(w: string)
  {
    w != "" && forall k :: 0 <= k < |w| ==> IsWhitespace(w[k])
  }

  /** The pieces with the separators put back between them. */
  function Interleave(parts: seq<string>, seps: seq<string>): string
    requires |parts| == |seps| + 1
    decreases |seps|
  {
    if seps == [] then parts[0] else parts[0] + seps[0] + Interleave(parts[1..], seps[1..])
  }

  /** The white-space runs `split(/\s+/)` cuts `s` at, in order. */
  function Separators(s: string): seq<string>
    decreases |s|
  {
    var i := NextWhitespace(s, 0);
    if i == |s| then [] else [s[i..RunEnd(s, i)]] + Separators(s[RunEnd(s, i)..])
  }

  /**
   * `parts` and `seps` cut `s` at maximal runs of white space: the pieces hold none, each
   * separator is a run of it, the pieces between two separators are non-empty (so no run is
   * split in two), and putting the separators back between the pieces gives `s`.
   */
  predicate IsWhitespaceSplit(s: string, parts: seq<string>, seps: seq<string>)
  {
    && |parts| == |seps| + 1
    && (forall k :: 0 <= k < |parts| ==> NoWhitespace(parts[k]))
    && (forall k :: 0 < k < |parts| - 1 ==> parts[k] != "")
    && (forall k :: 0 <= k < |seps| ==> IsRun(seps[k]))
    && Interleave(parts, seps) == s
  }

  /** One step of the separators: the first run, then the separators of the rest. */
  lemma SeparatorsStep(s: string)
    requires NextWhitespace(s, 0) < |s|
    ensures var i := NextWhitespace(s, 0);
      && Separators(s) == [s[i..RunEnd(s, i)]] + Separators(s[RunEnd(s, i)..])
      && IsRun(s[i..RunEnd(s, i)])
      && s == s[..i] + s[i..RunEnd(s, i)] + s[RunEnd(s, i)..]
  {
    var i := NextWhitespace(s, 0);
    var j := RunEnd(s, i);
    WhitespaceRun(s, i);
    CutTwice(s, i, j);
  }

  /** Cutting a text at two points and putting the three parts back gives the text. */
  lemma CutTwice(s: string, i: nat, j: nat)
    requires i <= j <= |s|
    ensures s == s[..i] + s[i..j] + s[j..]
  {
    var pre := s[..j];
    assert pre[..i] == s[..i] && pre[i..] == s[i..j];
    assert pre == pre[..i] + pre[i..];
    assert s == pre + s[j..];
  }

  /** The run starting at a white-space character is a non-empty run of white space. */
  lemma WhitespaceRun(s: string, i: nat)
    requires i < |s| && IsWhitespace(s[i])
    ensures IsRun(s[i..RunEnd(s, i)])
  {
    var w := s[i..RunEnd(s, i)];
    assert RunEnd(s, i) == RunEnd(s, i + 1);
    assert forall k :: 0 <= k < |w| ==> w[k] == s[i + k];
  }

  /** There is one separator fewer than there are pieces, and every separator is a run. */
  lemma {:induction false} SeparatorsAreRuns(s: string)
    ensures |Separators(s)| + 1 == |SplitOnWhitespace(s)|
    ensures forall k :: 0 <= k < |Separators(s)| ==> IsRun(Separators(s)[k])
    decreases |s|
  {
    var i := NextWhitespace(s, 0);
    if i < |s| {
      var rest := s[RunEnd(s, i)..];
      SeparatorsAreRuns(rest);
      SplitOnWhitespaceStep(s);
      SeparatorsStep(s);
      var seps := Separators(s);
      forall k | 0 < k < |seps| ensures IsRun(seps[k]) {
        assert seps[k] == Separators(rest)[k - 1];
      }
    }
  }

  /** Between the pieces of `split(/\s+/)` lie exactly the white-space runs of `s`. */
  lemma {:induction false} SplitInterleaves(s: string)
    ensures |Separators(s)| + 1 == |SplitOnWhitespace(s)|
    ensures forall k :: 0 <= k < |Separators(s)| ==> IsRun(Separators(s)[k])
    ensures Interleave(SplitOnWhitespace(s), Separators(s)) == s
    decreases |s|
  {
    SeparatorsAreRuns(s);
    var i := NextWhitespace(s, 0);
    if i < |s| {
      var j := RunEnd(s, i);
      var rest := s[j..];
      SplitInterleaves(rest);
      SplitOnWhitespaceStep(s);
      SeparatorsStep(s);
      var parts, seps := SplitOnWhitespace(s), Separators(s);
      assert parts[0] == s[..i] && parts[1..] == SplitOnWhitespace(rest);
      assert seps[0] == s[i..j] && seps[1..] == Separators(rest);
    }
  }

  /** `split(/\s+/)` cuts `s` at its maximal white-space runs. */
  lemma SplitIsWhitespaceSplit(s: string)
    ensures IsWhitespaceSplit(s, SplitOnWhitespace(s), Separators(s))
  {
    SplitInterleaves(s);
    SplitPiecesHaveNoWhitespace(s);
    SplitEmptyPieces(s);
  }

  /** The rest of a whitespace split after its first piece and separator is a whitespace split. */
  lemma WhitespaceSplitTail(s: string, parts: seq<string>, seps: seq<string>)
    requires IsWhitespaceSplit(s, parts, seps) && seps != []
    ensures IsWhitespaceSplit(Interleave(parts[1..], seps[1..]), parts[1..], seps[1..])
    ensures s == parts[0] + seps[0] + Interleave(parts[1..], seps[1..])
  {
    forall k | 0 <= k < |parts| - 1 ensures NoWhitespace(parts[1..][k]) {
      assert parts[1..][k] == parts[k + 1];
    }
    forall k | 0 < k < |parts| - 2 ensures parts[1..][k] != "" {
      assert parts[1..][k] == parts[k + 1];
    }
    forall k | 0 <= k < |seps| - 1 ensures IsRun(seps[1..][k]) {
      assert seps[1..][k] == seps[k + 1];
    }
  }

  /** After the first separator comes the end of the text or a character that is not white space. */
  lemma WhitespaceSplitNextChar(s: string, parts: seq<string>, seps: seq<string>)
    requires IsWhitespaceSplit(s, parts, seps) && seps != []
    ensures var rest := Interleave(parts[1..], seps[1..]);
      rest == "" || !IsWhitespace(rest[0])
  {
    var rest := Interleave(parts[1..], seps[1..]);
    if parts[1] != "" {
      assert !IsWhitespace(parts[1][0]);
      if |seps| > 1 {
        assert rest == parts[1] + (seps[1] + Interleave(parts[2..], seps[2..]));
      }
    } else {
      assert |parts| == 2;
    }
  }

  /** A whitespace split's first piece ends at the first white space, and its first separator is a whole run. */
  lemma WhitespaceSplitFirstCut(s: string, parts: seq<string>, seps: seq<string>)
    requires IsWhitespaceSplit(s, parts, seps) && seps != []
    ensures NextWhitespace(s, 0) == |parts[0]|
    ensures RunEnd(s, |parts[0]|) == |parts[0]| + |seps[0]|
  {
    var p, w := parts[0], seps[0];
    var rest := Interleave(parts[1..], seps[1..]);
    WhitespaceSplitTail(s, parts, seps);
    WhitespaceSplitNextChar(s, parts, seps);
    assert s[|p|] == w[0];
    assert forall k :: 0 <= k < |p| ==> s[k] == p[k];
    assert forall k :: |p| <= k < |p| + |w| ==> s[k] == w[k - |p|];
    assert |p| + |w| < |s| ==> s[|p| + |w|] == rest[0];
  }

  /** The first piece, the first separator and the rest are the slices `split(/\s+/)` takes. */
  lemma WhitespaceSplitFirstSlices(s: string, parts: seq<string>, seps: seq<string>)
    requires IsWhitespaceSplit(s, parts, seps) && seps != []
    ensures var i := NextWhitespace(s, 0);
      && i < |s|
      && s[..i] == parts[0]
      && s[i..RunEnd(s, i)] == seps[0]
      && s[RunEnd(s, i)..] == Interleave(parts[1..], seps[1..])
  {
    WhitespaceSplitTail(s, parts, seps);
    WhitespaceSplitNextChar(s, parts, seps);
    WhitespaceSplitFirstCut(s, parts, seps);
    PartsOfThree(parts[0], seps[0], Interleave(parts[1..], seps[1..]));
  }

  /** The three parts of a concatenation are its slices at their lengths. */
  lemma PartsOfThree(p: string, w: string, rest: string)
    ensures var s := p + w + rest;
      s[..|p|] == p && s[|p|..|p| + |w|] == w && s[|p| + |w|..] == rest
  {
    var s := p + w + rest;
    assert s == p + (w + rest);
    assert s[|p|..] == w + rest;
  }

  /**
   * A cut of `s` at maximal white-space runs is the one `split(/\s+/)` makes: together with
   * `SplitIsWhitespaceSplit`, the pieces and separators are determined by `s` alone.
   */
  lemma {:induction false} WhitespaceSplitUnique(s: string, parts: seq<string>, seps: seq<string>)
    requires IsWhitespaceSplit(s, parts, seps)
    ensures parts == SplitOnWhitespace(s) && seps == Separators(s)
    decreases |seps|
  {
    if seps == [] {
      WhitespaceSplitOfPlain(s, parts, seps);
    } else {
      var rest := Interleave(parts[1..], seps[1..]);
      WhitespaceSplitTail(s, parts, seps);
      WhitespaceSplitUnique(rest, parts[1..], seps[1..]);
      WhitespaceSplitStep(s, parts, seps);
    }
  }

  /** A whitespace split without separators is the text alone, as `split(/\s+/)` gives it. */
  lemma WhitespaceSplitOfPlain(s: string, parts: seq<string>, seps: seq<string>)
    requires IsWhitespaceSplit(s, parts, seps) && seps == []
    ensures parts == SplitOnWhitespace(s) && seps == Separators(s)
  {
    assert s == parts[0];
    assert NextWhitespace(s, 0) == |s|;
  }

  /** If the rest of a whitespace split is cut as `split(/\s+/)` cuts it, so is the whole. */
  lemma WhitespaceSplitStep(s: string, parts: seq<string>, seps: seq<string>)
    requires IsWhitespaceSplit(s, parts, seps) && seps != []
    requires var rest := Interleave(parts[1..], seps[1..]);
      parts[1..] == SplitOnWhitespace(rest) && seps[1..] == Separators(rest)
    ensures parts == SplitOnWhitespace(s) && seps == Separators(s)
  {
    WhitespaceSplitFirstSlices(s, parts, seps);
    SplitOnWhitespaceStep(s);
    SeparatorsStep(s);
    assert parts == [parts[0]] + parts[1..];
    assert seps == [seps[0]] + seps[1..];
  }

  // ---------------------------------------------------------------------------------------------
  // String.prototype.trim

  /** `s` without its leading white space. */
  function TrimStart(s: string): (t: string)
    ensures |t| <= |s| && t == s[|s| - |t|..]
    ensures t == "" || !IsWhitespace(t[0])
    ensures forall k :: 0 <= k < |s| - |t| ==> IsWhitespace(s[k])
    decreases |s|
  {
    if s != "" && IsWhitespace(s[0]) then TrimStart(s[1..]) else s
  }

  /** `s` without its trailing white space. */
  function TrimEnd(s: string): (t: string)
    ensures |t| <= |s| && t == s[..|t|]
    ensures t == "" || !IsWhitespace(t[|t| - 1])
    ensures forall k :: |t| <= k < |s| ==> IsWhitespace(s[k])
    decreases |s|
  {
    if s != "" && IsWhitespace(s[|s| - 1]) then TrimEnd(s[..|s| - 1]) else s
  }

  /** `s.trim()`: every character that is not white space is kept. */
  function Trim(s: string): (t: string)
    ensures forall k :: 0 <= k < |s| && !IsWhitespace(s[k]) ==> s[k] in t
  {
    var t1 := TrimStart(s);
    var t2 := TrimEnd(t1);
    assert forall k :: 0 <= k < |s| && !IsWhitespace(s[k]) ==> s[k] in t2 by {
      forall k | 0 <= k < |s| && !IsWhitespace(s[k]) ensures s[k] in t2 {
        var k1 := k - (|s| - |t1|);
        assert t1[k1] == s[k];
        assert t2[k1] == t1[k1];
      }
    }
    t2
  }

  /** Trimming white space around a text that neither starts nor ends with white space gives the text. */
  lemma TrimPadded(lead: string, t: string, trail: string)
    requires forall k :: 0 <= k < |lead| ==> IsWhitespace(lead[k])
    requires forall k :: 0 <= k < |trail| ==> IsWhitespace(trail[k])
    requires t == "" || (!IsWhitespace(t[0]) && !IsWhitespace(t[|t| - 1]))
    ensures Trim(lead + t + trail) == t
  {
    var rest := t + trail;
    assert lead + t + trail == lead + rest;
    if t == "" {
      assert rest == trail;
      TrimStartPadded(lead + trail, "");
      assert lead + trail + "" == lead + rest;
    } else {
      assert rest[0] == t[0];
      TrimStartPadded(lead, rest);
    }
    TrimEndPadded(t, trail);
  }

  /** Leading white space before a text that does not start with white space is all trimmed. */
  lemma TrimStartPadded(lead: string, u: string)
    requires forall k :: 0 <= k < |lead| ==> IsWhitespace(lead[k])
    requires u == "" || !IsWhitespace(u[0])
    ensures TrimStart(lead + u) == u
  {
    var s := lead + u;
    var t1 := TrimStart(s);
    assert forall k :: 0 <= k < |lead| ==> s[k] == lead[k];
    assert s[|lead|..] == u;
    if u != "" {
      assert s[|lead|] == u[0];
    }
  }

  /** Trailing white space after a text that does not end with white space is all trimmed. */
  lemma TrimEndPadded(u: string, trail: string)
    requires forall k :: 0 <= k < |trail| ==> IsWhitespace(trail[k])
    requires u == "" || !IsWhitespace(u[|u| - 1])
    ensures TrimEnd(u + trail) == u
  {
    var s := u + trail;
    var t2 := TrimEnd(s);
    assert forall k :: |u| <= k < |s| ==> s[k] == trail[k - |u|];
    assert s[..|u|] == u;
    if u != "" {
      assert s[|u| - 1] == u[|u| - 1];
    }
  }

  // ---------------------------------------------------------------------------------------------
  // First occurrence of a pattern, and String.prototype.replace with a string pattern

  predicate OccursAt(s: string, pat: string, i: nat)
  {
    i + |pat| <= |s| && s[i..i + |pat|] == pat
  }

  /** The first position at or after `from` where `pat` occurs in `s`. */
  function FindFrom(s: string, pat: string, from: nat): (r: Option<nat>)
    requires from <= |s|
    ensures r.Some? ==> from <= r.value && OccursAt(s, pat, r.value)
    ensures r.Some? ==> forall j :: from <= j < r.value ==> !OccursAt(s, pat, j)
    ensures r.None? ==> forall j :: from <= j <= |s| ==> !OccursAt(s, pat, j)
    decreases |s| - from
  {
    if OccursAt(s, pat, from) then Some(from)
    else if from == |s| then None
    else FindFrom(s, pat, from + 1)
  }

  function FindFirst(s: string, pat: string): Option<nat>
  {
    FindFrom(s, pat, 0)
  }

  /** `s.replace(pat, "")`: the first occurrence of `pat` is removed; no occurrence, no change. */
  function RemoveFirst(s: string, pat: string): (r: string)
    ensures FindFirst(s, pat).None? ==> r == s
    ensures FindFirst(s, pat).Some? ==>
      var i := FindFirst(s, pat).value;
      |r| == |s| - |pat| && r == s[..i] + s[i + |pat|..]
  {
    match FindFirst(s, pat)
    case None => s
    case Some(i) => s[..i] + s[i + |pat|..]
  }

  /** A string that starts with the pattern loses exactly that prefix. */
  lemma RemoveFirstOfPrefixed(s: string, pat: string)
    requires |pat| <= |s| && s[..|pat|] == pat
    ensures RemoveFirst(s, pat) == s[|pat|..]
  {
    assert OccursAt(s, pat, 0);
  }

  // ---------------------------------------------------------------------------------------------
  // The pattern (^|\W)term(\W|$)

  /**
   * `term` occurs at `i` in `text` with a word boundary of the pattern's kind on both sides:
   * the start of the text or a non-word character before it, a non-word character or the end of
   * the text after it.
   */
  predicate BoundedAt(text: string, term: string, i: nat)
  {
    && OccursAt(text, term, i)
    && (i == 0 || !IsWordChar(text[i - 1]))
    && (i + |term| == |text| || !IsWordChar(text[i + |term|]))
  }

  /** What `new RegExp("(^|\\W)" + term + "(\\W|$)").test(text)` answers, for a literal term. */
  ghost predicate ContainsBounded(text: string, term: string)
  {
    exists i :: 0 <= i <= |text| && BoundedAt(text, term, i)
  }

  /** The left-to-right search the regular expression performs, from position `from` on. */
  function SearchBounded(text: string, term: string, from: nat): (found: bool)
    requires from <= |text|
    ensures found <==> exists i :: from <= i <= |text| && BoundedAt(text, term, i)
    decreases |text| - from
  {
    if BoundedAt(text, term, from) then true
    else if from == |text| then false
    else SearchBounded(text, term, from + 1)
  }

  /** The regular-expression test: true exactly when a bounded occurrence exists. */
  function MatchesBounded(text: string, term: string): (found: bool)
    ensures found <==> ContainsBounded(text, term)
  {
    SearchBounded(text, term, 0)
  }

  /**
   * For the empty term the pattern degenerates to `(^|\W)(\W|$)`: it matches the empty text, or a
   * text with a non-word character at its start, at its end, or right before another one.
   */
  lemma EmptyTermMatches(text: string)
    ensures MatchesBounded(text, "") <==>
      || text == ""
      || !IsWordChar(text[0])
      || !IsWordChar(text[|text| - 1])
      || exists i :: 0 < i < |text| && !IsWordChar(text[i - 1]) && !IsWordChar(text[i])
  {
    if text == "" {
      assert BoundedAt(text, "", 0);
    }
    if exists i :: 0 < i < |text| && !IsWordChar(text[i - 1]) && !IsWordChar(text[i]) {
      var i :| 0 < i < |text| && !IsWordChar(text[i - 1]) && !IsWordChar(text[i]);
      assert BoundedAt(text, "", i);
    }
    if text != "" && !IsWordChar(text[|text| - 1]) {
      assert BoundedAt(text, "", |text|);
    }
    if text != "" && !IsWordChar(text[0]) {
      assert BoundedAt(text, "", 0);
    }
    if MatchesBounded(text, "") && text != "" {
      var i :| 0 <= i <= |text| && BoundedAt(text, "", i);
      if i == 0 {
        assert !IsWordChar(text[0]);
      } else if i == |text| {
        assert !IsWordChar(text[|text| - 1]);
      } else {
        assert !IsWordChar(text[i - 1]) && !IsWordChar(text[i]);
      }
    }
  }
}
