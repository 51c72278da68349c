/**
 * The note search behind the `getSearchQuery` tool (`searchNotes` inside `SearchHandler`): the
 * query is lower-cased and split into terms on runs of white space, and a note is kept when every
 * term occurs in its lower-cased content between word boundaries. The vault is a sequence of
 * notes read in order; the matches keep that order.
 */
module NoteSearch {
  import opened Text

  /** A markdown file of the vault: its base name, its path and its text. */
  datatype Note = Note(basename: string, path: string, content: string)

  /** One entry of the search output. */
  datatype SearchResult = SearchResult(title: string, content: string, reference: string, path: string)

  /** `query.toLowerCase().split(/\s+/)` */
  function SearchTerms(query: string): (terms: seq<string>)
    ensures |terms| >= 1
    ensures IsWhitespaceSplit(Lower(query), terms, Separators(Lower(query)))
    ensures terms[0] == "" <==> query == "" || IsWhitespace(query[0])
    ensures terms[|terms| - 1] == "" <==> query == "" || IsWhitespace(query[|query| - 1])
  {
    var lower := Lower(query);
    SplitIsWhitespaceSplit(lower);
    SplitEmptyPieces(lower);
    SplitLastPiece(lower);
    LowerKeepsEdges(query);
    SplitOnWhitespace(lower)
  }

  /** `searchTerms.every(term => regex.test(lowerContent))` */
  function AllTermsPresent(terms: seq<string>, lowerContent: string): (all: bool)
    ensures all <==> forall k :: 0 <= k < |terms| ==> ContainsBounded(lowerContent, terms[k])
  {
    if terms == [] then true
    else MatchesBounded(lowerContent, terms[0]) && AllTermsPresent(terms[1..], lowerContent)
  }

  /** The search condition on one note's content, stated over the terms as a set. */
  ghost predicate NoteMatches(content: string, query: string)
  {
    forall t :: t in SearchTerms(query) ==> ContainsBounded(Lower(content), t)
  }

  /** The entry built for a matching note; its content is the original, not lower-cased, text. */
  function ResultFor(note: Note, query: string): (r: SearchResult)
    ensures r.title == note.basename && r.path == note.path && r.content == note.content
    ensures r.reference == "Search query: " + query
  {
    SearchResult(note.basename, note.content, "Search query: " + query, note.path)
  }

  /** The map-then-filter pipeline over the notes from index `from` on. */
  function CollectFrom(notes: seq<Note>, terms: seq<string>, query: string, from: nat): (r: seq<SearchResult>)
    requires from <= |notes|
    ensures |r| <= |notes| - from
    decreases |notes| - from
  {
    if from == |notes| then []
    else
      var note := notes[from];
      (if AllTermsPresent(terms, Lower(note.content)) then [ResultFor(note, query)] else [])
      + CollectFrom(notes, terms, query, from + 1)
  }

  /** `searchNotes(query)` over the vault's notes. */
  function SearchNotes(notes: seq<Note>, query: string): (r: seq<SearchResult>)
    ensures |r| <= |notes|
  {
    CollectFrom(notes, SearchTerms(query), query, 0)
  }

  // ---------------------------------------------------------------------------------------------
  // Specification of the output

  /** Whether each note of the vault matches the query. */
  ghost function MatchFlags(notes: seq<Note>, query: string): (flags: seq<bool>)
    ensures |flags| == |notes|
    ensures forall i :: 0 <= i < |notes| ==> (flags[i] <==> NoteMatches(notes[i].content, query))
  {
    seq(|notes|, i requires 0 <= i < |notes| => NoteMatches(notes[i].content, query))
  }

  /** The positions, from `from` on and in increasing order, whose flag is set. */
  function Positions(flags: seq<bool>, from: nat): seq<nat>
    requires from <= |flags|
    decreases |flags| - from
  {
    if from == |flags| then []
    else (if flags[from] then [from] else []) + Positions(flags, from + 1)
  }

  /** The positions of the notes the search keeps. */
  ghost function MatchingIndices(notes: seq<Note>, query: string): seq<nat>
  {
    Positions(MatchFlags(notes, query), 0)
  }

  lemma NoteMatchesAllTerms(content: string, query: string)
    ensures AllTermsPresent(SearchTerms(query), Lower(content)) <==> NoteMatches(content, query)
  {
  }

  /** Every listed position lies between `from` and the end of the flags. */
  lemma {:induction false} PositionsInRange(flags: seq<bool>, from: nat)
    requires from <= |flags|
    ensures forall k :: 0 <= k < |Positions(flags, from)| ==> from <= Positions(flags, from)[k] < |flags|
    decreases |flags| - from
  {
    if from < |flags| {
      PositionsInRange(flags, from + 1);
      var idx, rest := Positions(flags, from), Positions(flags, from + 1);
      if flags[from] {
        assert idx == [from] + rest;
        forall k | 0 <= k < |idx| ensures from <= idx[k] < |flags| {
          if k > 0 {
            assert idx[k] == rest[k - 1];
          }
        }
      } else {
        assert idx == rest;
      }
    }
  }

  predicate StrictlyIncreasing(idx: seq<nat>)
  {
    forall k, l :: 0 <= k < l < |idx| ==> idx[k] < idx[l]
  }

  /** The listed positions increase strictly. */
  lemma {:induction false} PositionsIncreasing(flags: seq<bool>, from: nat)
    requires from <= |flags|
    ensures StrictlyIncreasing(Positions(flags, from))
    decreases |flags| - from
  {
    if from < |flags| {
      var idx, rest := Positions(flags, from), Positions(flags, from + 1);
      PositionsIncreasing(flags, from + 1);
      PositionsInRange(flags, from + 1);
      if flags[from] {
        assert idx == [from] + rest;
        forall k, l | 0 <= k < l < |idx| ensures idx[k] < idx[l] {
          assert idx[l] == rest[l - 1];
          if k > 0 {
            assert idx[k] == rest[k - 1];
          }
        }
      } else {
        assert idx == rest;
      }
    }
  }

  /** A position from `from` on is listed exactly when its flag is set. */
  lemma {:induction false} PositionsMembership(flags: seq<bool>, from: nat)
    requires from <= |flags|
    ensures forall i :: from <= i < |flags| ==> (i in Positions(flags, from) <==> flags[i])
    decreases |flags| - from
  {
    if from < |flags| {
      PositionsMembership(flags, from + 1);
      PositionsInRange(flags, from + 1);
      var rest := Positions(flags, from + 1);
      forall k | 0 <= k < |rest| ensures rest[k] != from {}
      assert from !in rest;
    }
  }

  /**
   * The k-th collected entry is built from the note at the k-th set position of `flags`, when
   * `flags` records which notes pass the filter.
   */
  lemma {:induction false} CollectFromEntries(notes: seq<Note>, terms: seq<string>, query: string, flags: seq<bool>, from: nat)
    requires from <= |notes| == |flags|
    requires forall i :: from <= i < |notes| ==> (flags[i] <==> AllTermsPresent(terms, Lower(notes[i].content)))
    ensures |CollectFrom(notes, terms, query, from)| == |Positions(flags, from)|
    ensures forall k :: 0 <= k < |Positions(flags, from)| ==>
      && Positions(flags, from)[k] < |notes|
      && CollectFrom(notes, terms, query, from)[k] == ResultFor(notes[Positions(flags, from)[k]], query)
    decreases |notes| - from
  {
    if from < |notes| {
      CollectFromEntries(notes, terms, query, flags, from + 1);
      var r, idx := CollectFrom(notes, terms, query, from), Positions(flags, from);
      var r', idx' := CollectFrom(notes, terms, query, from + 1), Positions(flags, from + 1);
      if flags[from] {
        assert r == [ResultFor(notes[from], query)] + r';
        assert idx == [from] + idx';
        forall k | 0 <= k < |idx| ensures 0 <= idx[k] < |notes| && r[k] == ResultFor(notes[idx[k]], query) {
          if k > 0 {
            assert r[k] == r'[k - 1] && idx[k] == idx'[k - 1];
          }
        }
      } else {
        assert r == r' && idx == idx';
      }
    }
  }

  /**
   * The search output, entry by entry: the k-th entry is built from the k-th matching note, the
   * matching notes are listed in vault order, and a note is listed exactly when it matches. So the
   * output is a subsequence of the vault, and no longer than it.
   */
  lemma SearchNotesSpec(notes: seq<Note>, query: string)
    ensures var r, idx := SearchNotes(notes, query), MatchingIndices(notes, query);
      && |r| == |idx| <= |notes|
      && (forall k :: 0 <= k < |idx| ==> idx[k] < |notes| && r[k] == ResultFor(notes[idx[k]], query))
      && StrictlyIncreasing(idx)
      && (forall i :: 0 <= i < |notes| ==> (i in idx <==> NoteMatches(notes[i].content, query)))
  {
    forall i | 0 <= i < |notes|
      ensures MatchFlags(notes, query)[i] <==> AllTermsPresent(SearchTerms(query), Lower(notes[i].content))
    {
      NoteMatchesAllTerms(notes[i].content, query);
    }
    CollectFromEntries(notes, SearchTerms(query), query, MatchFlags(notes, query), 0);
    PositionsInRange(MatchFlags(notes, query), 0);
    PositionsIncreasing(MatchFlags(notes, query), 0);
    PositionsMembership(MatchFlags(notes, query), 0);
  }

  /** A note is listed in the output exactly when every query term occurs in it. */
  lemma SearchIncludesExactlyMatches(notes: seq<Note>, query: string, i: nat)
    requires i < |notes|
    ensures NoteMatches(notes[i].content, query) ==> ResultFor(notes[i], query) in SearchNotes(notes, query)
    ensures (forall r :: r in SearchNotes(notes, query) ==>
               exists j :: 0 <= j < |notes| && NoteMatches(notes[j].content, query) && r == ResultFor(notes[j], query))
  {
    SearchNotesSpec(notes, query);
    var r, idx := SearchNotes(notes, query), MatchingIndices(notes, query);
    if NoteMatches(notes[i].content, query) {
      var k :| 0 <= k < |idx| && idx[k] == i;
      assert r[k] == ResultFor(notes[i], query);
    }
    forall e | e in r
      ensures exists j :: 0 <= j < |notes| && NoteMatches(notes[j].content, query) && e == ResultFor(notes[j], query)
    {
      var k :| 0 <= k < |r| && r[k] == e;
      assert idx[k] in idx;
    }
  }

  // ---------------------------------------------------------------------------------------------
  // Case and word order

  /** Matching ignores the case of both the content and the query. */
  lemma MatchIgnoresCase(content: string, query: string)
    ensures NoteMatches(content, query) <==> NoteMatches(Lower(content), Lower(query))
  {
    LowerIsLowerAndIdempotent(content);
    LowerIsLowerAndIdempotent(query);
  }

  lemma LowerAppend(a: string, b: string)
    ensures Lower(a + b) == Lower(a) + Lower(b)
  {
  }

  lemma LowerKeepsPlain(s: string)
    requires NoWhitespace(s)
    ensures NoWhitespace(Lower(s))
  {
    forall k | 0 <= k < |s| ensures !IsWhitespace(Lower(s)[k]) {
      assert !IsWhitespace(s[k]);
    }
  }

  /** Two words joined by one space split back into the two words. */
  lemma SplitTwoWords(a: string, b: string)
    requires a != "" && NoWhitespace(a) && NoWhitespace(b)
    ensures SplitOnWhitespace(a + " " + b) == [a, b]
  {
    var s := a + " " + b;
    assert NextWhitespace(s, 0) == |a| by {
      assert forall k :: 0 <= k < |a| ==> s[k] == a[k];
      assert s[|a|] == ' ' && IsWhitespace(s[|a|]);
    }
    assert RunEnd(s, |a|) == |a| + 1 by {
      assert RunEnd(s, |a|) == RunEnd(s, |a| + 1);
      if b != "" {
        assert s[|a| + 1] == b[0];
      }
    }
    assert s[..|a|] == a;
    assert s[|a| + 1..] == b;
    assert NextWhitespace(b, 0) == |b|;
  }

  /** The terms of a two-word query are the two words, lower-cased. */
  lemma TermsOfTwoWords(a: string, b: string)
    requires a != "" && NoWhitespace(a) && NoWhitespace(b)
    ensures SearchTerms(a + " " + b) == [Lower(a), Lower(b)]
  {
    var la, lb := Lower(a), Lower(b);
    assert Lower(a + " " + b) == la + " " + lb by {
      LowerAppend(a + " ", b);
      LowerAppend(a, " ");
      assert Lower(" ") == " ";
    }
    assert la != "" && NoWhitespace(la) && NoWhitespace(lb) by {
      LowerKeepsPlain(a);
      LowerKeepsPlain(b);
    }
    SplitTwoWords(la, lb);
  }

  /**
   * A two-word query keeps a note exactly when both words occur in it as whole words, in either
   * order and at any position; swapping the words changes nothing.
   */
  lemma TwoWordQuery(a: string, b: string, content: string)
    requires a != "" && NoWhitespace(a) && NoWhitespace(b)
    ensures NoteMatches(content, a + " " + b) <==>
      ContainsBounded(Lower(content), Lower(a)) && ContainsBounded(Lower(content), Lower(b))
    ensures b != "" ==> (NoteMatches(content, a + " " + b) <==> NoteMatches(content, b + " " + a))
  {
    TermsOfTwoWords(a, b);
    if b != "" {
      TermsOfTwoWords(b, a);
    }
  }
}
