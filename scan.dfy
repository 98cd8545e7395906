/** The global replace-with-nothing scan of `String.prototype.replace` with
    a `g` regular expression, over a table that gives, for each index, the
    end of the match the engine takes there (if any). A match is never
    empty, so the scan always moves forward. */
module Scan {
  import opened Text

  /** Every match the table records starts at its index and ends after it,
      within the text. */
  predicate Advancing(t: seq<Option<nat>>) {
    forall i :: 0 <= i < |t| && t[i].Some? ==> i < t[i].value <= |t|
  }

  /** From pos on: a match is dropped and the scan resumes at its end;
      elsewhere one character is kept and the scan moves by one. */
  function ScanFrom(s: string, t: seq<Option<nat>>, pos: nat): (r: string)
    requires |t| == |s| && Advancing(t) && pos <= |s|
    ensures |r| <= |s| - pos
    decreases |s| - pos
  {
    if pos == |s| then []
    else match t[pos]
      case Some(j) => ScanFrom(s, t, j)
      case None => [s[pos]] + ScanFrom(s, t, pos + 1)
  }

  /** No match from pos on: the rest is kept as it is. */
  lemma {:induction false} ScanNoMatch(s: string, t: seq<Option<nat>>, pos: nat)
    requires |t| == |s| && Advancing(t) && pos <= |s|
    requires forall i :: pos <= i < |s| ==> t[i].None?
    ensures ScanFrom(s, t, pos) == s[pos..]
    decreases |s| - pos
  {
    if pos < |s| {
      ScanNoMatch(s, t, pos + 1);
      assert s[pos..] == [s[pos]] + s[pos + 1..];
    }
  }

  /** A match from pos on makes the result strictly shorter. */
  lemma {:induction false} ScanShrinks(s: string, t: seq<Option<nat>>, pos: nat, i: nat)
    requires |t| == |s| && Advancing(t) && pos <= i < |s| && t[i].Some?
    ensures |ScanFrom(s, t, pos)| < |s| - pos
    decreases |s| - pos
  {
    if t[pos].None? {
      ScanShrinks(s, t, pos + 1, i);
    }
  }

  /** The scan leaves the text unchanged exactly when no match is taken. */
  lemma ScanUnchangedIff(s: string, t: seq<Option<nat>>)
    requires |t| == |s| && Advancing(t)
    ensures ScanFrom(s, t, 0) == s <==> forall i :: 0 <= i < |s| ==> t[i].None?
  {
    if forall i :: 0 <= i < |s| ==> t[i].None? {
      ScanNoMatch(s, t, 0);
    } else {
      var i :| 0 <= i < |s| && t[i].Some?;
      ScanShrinks(s, t, 0, i);
    }
  }

  // ---------------------------------------------------------------------
  // Only deletions
  // ---------------------------------------------------------------------

  /** a can be obtained from b by deleting characters. */
  predicate Subsequence(a: string, b: string)
    decreases |b|
  {
    if a == [] then true
    else if b == [] then false
    else (a[0] == b[0] && Subsequence(a[1..], b[1..])) || Subsequence(a, b[1..])
  }

  lemma {:induction false} SubsequenceRefl(a: string)
    ensures Subsequence(a, a)
    decreases |a|
  {
    if a != [] {
      SubsequenceRefl(a[1..]);
    }
  }

  lemma {:induction false} SubsequenceLength(a: string, b: string)
    requires Subsequence(a, b)
    ensures |a| <= |b|
    decreases |b|
  {
    if a != [] {
      if Subsequence(a, b[1..]) {
        SubsequenceLength(a, b[1..]);
      } else {
        SubsequenceLength(a[1..], b[1..]);
      }
    }
  }

  lemma {:induction false} SubsequenceDropPrefix(a: string, c: string, b: string)
    requires Subsequence(a, b)
    ensures Subsequence(a, c + b)
    decreases |c|
  {
    if c != [] {
      SubsequenceDropPrefix(a, c[1..], b);
      assert (c + b)[1..] == c[1..] + b;
      if a != [] {
        assert Subsequence(a, (c + b)[1..]);
      }
    } else {
      assert c + b == b;
    }
  }

  /** Deleting characters twice is deleting characters. */
  lemma {:induction false} SubsequenceTrans(a: string, b: string, c: string)
    requires Subsequence(a, b) && Subsequence(b, c)
    ensures Subsequence(a, c)
    decreases |c|
  {
    if a != [] {
      if Subsequence(b, c[1..]) {
        SubsequenceTrans(a, b, c[1..]);
      } else {
        assert b[0] == c[0] && Subsequence(b[1..], c[1..]);
        if a[0] == b[0] && Subsequence(a[1..], b[1..]) {
          SubsequenceTrans(a[1..], b[1..], c[1..]);
        } else {
          assert Subsequence(a, b[1..]);
          SubsequenceTrans(a, b[1..], c[1..]);
        }
      }
    }
  }

  /** The scan only deletes characters. */
  lemma {:induction false} ScanSubsequence(s: string, t: seq<Option<nat>>, pos: nat)
    requires |t| == |s| && Advancing(t) && pos <= |s|
    ensures Subsequence(ScanFrom(s, t, pos), s[pos..])
    decreases |s| - pos
  {
    if pos < |s| {
      match t[pos]
      case Some(j) =>
        ScanSubsequence(s, t, j);
        assert s[pos..] == s[pos..j] + s[j..];
        SubsequenceDropPrefix(ScanFrom(s, t, j), s[pos..j], s[j..]);
      case None =>
        ScanSubsequence(s, t, pos + 1);
        assert s[pos..][1..] == s[pos + 1..];
    }
  }

  // ---------------------------------------------------------------------
  // What the scan deletes: ordered spans, leftmost first
  // ---------------------------------------------------------------------

  datatype Span = Span(start: nat, end: nat)

  /** The spans the scan from pos deletes, left to right. */
  function SpansFrom(s: string, t: seq<Option<nat>>, pos: nat): seq<Span>
    requires |t| == |s| && Advancing(t) && pos <= |s|
    decreases |s| - pos
  {
    if pos == |s| then []
    else match t[pos]
      case Some(j) => [Span(pos, j)] + SpansFrom(s, t, j)
      case None => SpansFrom(s, t, pos + 1)
  }

  /** The spans are nonempty, lie between pos and the end of s, in order and apart. */
  predicate Ordered(s: string, pos: nat, spans: seq<Span>)
    decreases |spans|
  {
    spans == [] || (pos <= spans[0].start < spans[0].end <= |s| && Ordered(s, spans[0].end, spans[1..]))
  }

  /** s from pos with the spans cut out. */
  function Without(s: string, pos: nat, spans: seq<Span>): string
    requires pos <= |s| && Ordered(s, pos, spans)
    decreases |spans|
  {
    if spans == [] then s[pos..]
    else s[pos..spans[0].start] + Without(s, spans[0].end, spans[1..])
  }

  /** The spans from pos on are the leftmost-first cover of the table: each
      is the match taken at its start, and none is taken at an index the
      scan passes over between them. */
  predicate LeftmostSpans(t: seq<Option<nat>>, pos: nat, spans: seq<Span>)
    decreases |spans|
  {
    if spans == [] then forall i :: pos <= i < |t| ==> t[i].None?
    else
      && pos <= spans[0].start < |t|
      && t[spans[0].start] == Some(spans[0].end)
      && (forall i :: pos <= i < spans[0].start ==> t[i].None?)
      && LeftmostSpans(t, spans[0].end, spans[1..])
  }

  lemma {:induction false} SpansOrdered(s: string, t: seq<Option<nat>>, pos: nat)
    requires |t| == |s| && Advancing(t) && pos <= |s|
    ensures Ordered(s, pos, SpansFrom(s, t, pos))
    decreases |s| - pos
  {
    if pos < |s| {
      match t[pos]
      case Some(j) =>
        SpansOrdered(s, t, j);
        assert ([Span(pos, j)] + SpansFrom(s, t, j))[1..] == SpansFrom(s, t, j);
      case None =>
        SpansOrdered(s, t, pos + 1);
    }
  }

  lemma {:induction false} SpansLeftmost(s: string, t: seq<Option<nat>>, pos: nat)
    requires |t| == |s| && Advancing(t) && pos <= |s|
    ensures LeftmostSpans(t, pos, SpansFrom(s, t, pos))
    decreases |s| - pos
  {
    if pos < |s| {
      match t[pos]
      case Some(j) =>
        SpansLeftmost(s, t, j);
        assert ([Span(pos, j)] + SpansFrom(s, t, j))[1..] == SpansFrom(s, t, j);
      case None =>
        SpansLeftmost(s, t, pos + 1);
    }
  }

  /** Cutting a span that starts at pos skips straight to its end. */
  lemma WithoutCut(s: string, pos: nat, j: nat, rest: seq<Span>)
    requires pos < j <= |s| && Ordered(s, j, rest)
    ensures Ordered(s, pos, [Span(pos, j)] + rest)
    ensures Without(s, pos, [Span(pos, j)] + rest) == Without(s, j, rest)
  {
    var sp := [Span(pos, j)] + rest;
    assert sp[1..] == rest;
    assert s[pos..pos] == [];
  }

  /** A character before the first span is kept. */
  lemma WithoutKeep(s: string, pos: nat, spans: seq<Span>)
    requires pos < |s| && Ordered(s, pos + 1, spans)
    ensures Ordered(s, pos, spans)
    ensures Without(s, pos, spans) == [s[pos]] + Without(s, pos + 1, spans)
  {
    if spans == [] {
      assert s[pos..] == [s[pos]] + s[pos + 1..];
    } else {
      var a, b := spans[0].start, spans[0].end;
      assert Ordered(s, pos, spans);
      var w := Without(s, b, spans[1..]);
      assert Without(s, pos, spans) == s[pos..a] + w;
      assert Without(s, pos + 1, spans) == s[pos + 1..a] + w;
      assert s[pos..a] == [s[pos]] + s[pos + 1..a];
    }
  }

  lemma {:induction false} ScanWithout(s: string, t: seq<Option<nat>>, pos: nat)
    requires |t| == |s| && Advancing(t) && pos <= |s|
    ensures Ordered(s, pos, SpansFrom(s, t, pos))
    ensures ScanFrom(s, t, pos) == Without(s, pos, SpansFrom(s, t, pos))
    decreases |s| - pos
  {
    SpansOrdered(s, t, pos);
    if pos < |s| {
      match t[pos]
      case Some(j) =>
        ScanWithout(s, t, j);
        WithoutCut(s, pos, j, SpansFrom(s, t, j));
      case None =>
        ScanWithout(s, t, pos + 1);
        WithoutKeep(s, pos, SpansFrom(s, t, pos + 1));
    }
  }
}
