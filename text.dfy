/** String primitives shared by the scaffolder's rewriters: JavaScript's
    character classes, ASCII case mapping, substring search and the two
    literal forms of `String.prototype.replace`. */
module Text {

  datatype Option<T> = None | Some(value: T)

  // ---------------------------------------------------------------------
  // Character classes
  // ---------------------------------------------------------------------

  /** A JavaScript LineTerminator: what `.` refuses and what the multiline
      anchors `^` and `$` stand next to. */
  predicate IsLineTerminator(c: char) {
    c == '\n' || c == '\r' || c == '\U{2028}' || c == '\U{2029}'
  }

  /** The JavaScript `\s` class (WhiteSpace and LineTerminator); it is also
      the set that `String.prototype.trim` strips. */
  predicate IsSpace(c: char) {
    || IsLineTerminator(c)
    || c == '\t' || c == '\U{000B}' || c == '\U{000C}' || c == ' '
    || c == '\U{00A0}' || c == '\U{1680}' || ('\U{2000}' <= c <= '\U{200A}')
    || c == '\U{202F}' || c == '\U{205F}' || c == '\U{3000}' || c == '\U{FEFF}'
  }

  predicate IsUpperAscii(c: char) { 'A' <= c <= 'Z' }
  predicate IsLowerAscii(c: char) { 'a' <= c <= 'z' }

  /** Every character of s[i..j] belongs to `\s`. */
  predicate Spaces(s: string, i: int, j: int) {
    0 <= i <= j <= |s| && forall k :: i <= k < j ==> IsSpace(s[k])
  }

  // ---------------------------------------------------------------------
  // ASCII case mapping (`toLowerCase` / `toUpperCase` restricted to ASCII)
  // ---------------------------------------------------------------------

  function LowerChar(c: char): (r: char)
    ensures IsUpperAscii(c) ==> IsLowerAscii(r) && r as int == c as int + 32
    ensures !IsUpperAscii(c) ==> r == c
  {
    if IsUpperAscii(c) then (c as int + 32) as char else c
  }

  function UpperChar(c: char): (r: char)
    ensures IsLowerAscii(c) ==> IsUpperAscii(r) && r as int == c as int - 32
    ensures !IsLowerAscii(c) ==> r == c
  {
    if IsLowerAscii(c) then (c as int - 32) as char else c
  }

  lemma CaseRoundTrip(c: char)
    ensures IsUpperAscii(c) ==> UpperChar(LowerChar(c)) == c
    ensures IsLowerAscii(c) ==> LowerChar(UpperChar(c)) == c
  {
  }

  /** `s.toLowerCase()` on ASCII. */
  function Lower(s: string): (r: string)
    ensures |r| == |s|
    ensures forall i :: 0 <= i < |s| ==> r[i] == LowerChar(s[i])
  {
    seq(|s|, i requires 0 <= i < |s| => LowerChar(s[i]))
  }

  /** `s.toUpperCase()` on ASCII. */
  function Upper(s: string): (r: string)
    ensures |r| == |s|
    ensures forall i :: 0 <= i < |s| ==> r[i] == UpperChar(s[i])
  {
    seq(|s|, i requires 0 <= i < |s| => UpperChar(s[i]))
  }

  // ---------------------------------------------------------------------
  // Substring search
  // ---------------------------------------------------------------------

  /** p occurs in s starting at index i. */
  predicate OccursAt(s: string, i: int, p: string) {
    0 <= i && i + |p| <= |s| && s[i..i + |p|] == p
  }

  predicate Contains(s: string, p: string) {
    exists i :: 0 <= i <= |s| - |p| && OccursAt(s, i, p)
  }

  /** i is the leftmost occurrence of p in s. */
  predicate FirstOccurrence(s: string, p: string, i: int) {
    OccursAt(s, i, p) && forall j :: 0 <= j < i ==> !OccursAt(s, j, p)
  }

  /** The least index at or after `from` where p occurs. */
  function FindFrom(s: string, p: string, from: nat): (r: Option<nat>)
    ensures r.Some? ==> from <= r.value && OccursAt(s, r.value, p)
    ensures r.Some? ==> forall j :: from <= j < r.value ==> !OccursAt(s, j, p)
    ensures r.None? ==> forall j :: from <= j ==> !OccursAt(s, j, p)
    decreases |s| - from
  {
    if from + |p| > |s| then None
    else if OccursAt(s, from, p) then Some(from)
    else FindFrom(s, p, from + 1)
  }

  /** The index at which `s.indexOf(p)` (and a non-global literal match)
      finds p, or None when p does not occur. */
  function FindFirst(s: string, p: string): (r: Option<nat>)
    ensures r.Some? <==> Contains(s, p)
    ensures r.Some? ==> FirstOccurrence(s, p, r.value)
  {
    FindFrom(s, p, 0)
  }

  /** The leftmost occurrence of a pattern is unique. */
  lemma FirstOccurrenceUnique(s: string, p: string, i: int, j: int)
    requires FirstOccurrence(s, p, i) && FirstOccurrence(s, p, j)
    ensures i == j
  {
  }

  /** A text that contains p + q contains p. */
  lemma ContainsPrefixOfPattern(s: string, p: string, q: string)
    requires Contains(s, p + q)
    ensures Contains(s, p)
  {
    var i :| 0 <= i <= |s| - |p + q| && OccursAt(s, i, p + q);
    assert s[i..i + |p|] == s[i..i + |p + q|][..|p|];
    assert (p + q)[..|p|] == p;
    assert OccursAt(s, i, p);
  }

  /** The least index in [from, |s|) holding c. */
  function IndexOf(s: string, c: char, from: nat): (r: Option<nat>)
    ensures r.Some? ==> from <= r.value < |s| && s[r.value] == c
    ensures r.Some? ==> forall j :: from <= j < r.value ==> s[j] != c
    ensures r.None? ==> forall j :: from <= j < |s| ==> s[j] != c
    decreases |s| - from
  {
    if from >= |s| then None
    else if s[from] == c then Some(from)
    else IndexOf(s, c, from + 1)
  }

  /** The greatest index in [lo, hi) holding c. */
  function LastIndexBefore(s: string, c: char, lo: nat, hi: nat): (r: Option<nat>)
    requires hi <= |s|
    ensures r.Some? ==> lo <= r.value < hi && s[r.value] == c
    ensures r.Some? ==> forall j :: r.value < j < hi ==> s[j] != c
    ensures r.None? ==> forall j :: lo <= j < hi ==> s[j] != c
    decreases hi
  {
    if hi <= lo then None
    else if s[hi - 1] == c then Some(hi - 1)
    else LastIndexBefore(s, c, lo, hi - 1)
  }

  /** Length of the longest run of `\s` characters starting at i. */
  function SpaceRun(s: string, i: nat): (r: nat)
    requires i <= |s|
    ensures Spaces(s, i, i + r)
    ensures i + r == |s| || !IsSpace(s[i + r])
    decreases |s| - i
  {
    if i == |s| || !IsSpace(s[i]) then 0 else 1 + SpaceRun(s, i + 1)
  }

  /** A run of spaces can be no longer than the longest one. */
  lemma SpaceRunMaximal(s: string, i: nat, w: nat)
    requires i <= |s| && Spaces(s, i, i + w)
    ensures w <= SpaceRun(s, i)
  {
  }

  /** A run of spaces followed by a non-space or the end is the longest. */
  lemma SpaceRunExact(s: string, i: nat, w: nat)
    requires i + w <= |s| && Spaces(s, i, i + w)
    requires i + w == |s| || !IsSpace(s[i + w])
    ensures SpaceRun(s, i) == w
    decreases w
  {
    if w > 0 {
      SpaceRunExact(s, i + 1, w - 1);
    }
  }

  // ---------------------------------------------------------------------
  // String.prototype.replace with a literal pattern
  // ---------------------------------------------------------------------

  /** `s.replace(/p/g, r)` for a pattern p without metacharacters and a
      replacement r without `$` patterns: one left-to-right scan that
      replaces each non-overlapping occurrence and never rescans the
      replacement text. */
  function ReplaceAll(s: string, p: string, r: string): string
    requires |p| > 0
    decreases |s|
  {
    if s == [] then []
    else if p <= s then r + ReplaceAll(s[|p|..], p, r)
    else [s[0]] + ReplaceAll(s[1..], p, r)
  }

  /** `s.replace(p, r)` with a string (or non-global literal) pattern:
      only the leftmost occurrence is replaced. */
  function ReplaceFirst(s: string, p: string, r: string): string
  {
    match FindFirst(s, p)
    case None => s
    case Some(i) => s[..i] + r + s[i + |p|..]
  }

  lemma OccursAtShift(s: string, p: string, i: int)
    requires |s| > 0 && 0 <= i
    ensures OccursAt(s[1..], i, p) <==> OccursAt(s, i + 1, p)
  {
    if 0 <= i && i + 1 + |p| <= |s| {
      assert s[1..][i..i + |p|] == s[i + 1..i + 1 + |p|];
    }
  }

  lemma PrefixIsOccurrence(s: string, p: string)
    ensures p <= s <==> OccursAt(s, 0, p)
  {
    if |p| <= |s| {
      assert s[0..|p|] == s[..|p|];
    }
  }

  /** Text that does not contain the pattern is returned unchanged. */
  lemma {:induction false} ReplaceAllAbsent(s: string, p: string, r: string)
    requires |p| > 0
    requires !Contains(s, p)
    ensures ReplaceAll(s, p, r) == s
    decreases |s|
  {
    if s != [] {
      PrefixIsOccurrence(s, p);
      assert !(p <= s);
      forall i | OccursAt(s[1..], i, p) ensures false {
        OccursAtShift(s, p, i);
      }
      ReplaceAllAbsent(s[1..], p, r);
    }
  }

  /** Replacing a pattern by itself is the identity. */
  lemma {:induction false} ReplaceAllSelf(s: string, p: string)
    requires |p| > 0
    ensures ReplaceAll(s, p, p) == s
    decreases |s|
  {
    if s != [] {
      if p <= s {
        ReplaceAllSelf(s[|p|..], p);
        assert s == s[..|p|] + s[|p|..];
      } else {
        ReplaceAllSelf(s[1..], p);
        assert s == [s[0]] + s[1..];
      }
    }
  }

  /** A leading chunk that holds no character equal to the pattern's first
      one is copied through unchanged. */
  lemma {:induction false} ReplaceAllSkip(a: string, b: string, p: string, r: string)
    requires |p| > 0
    requires forall k :: 0 <= k < |a| ==> a[k] != p[0]
    ensures ReplaceAll(a + b, p, r) == a + ReplaceAll(b, p, r)
    decreases |a|
  {
    if a != [] {
      var s := a + b;
      assert s[0] == a[0] && s[0] != p[0];
      assert !(p <= s);
      assert s[1..] == a[1..] + b;
      ReplaceAllSkip(a[1..], b, p, r);
      assert ReplaceAll(s, p, r) == [a[0]] + (a[1..] + ReplaceAll(b, p, r));
      assert a == [a[0]] + a[1..];
    } else {
      assert a + b == b;
    }
  }

  /** An occurrence at the front is replaced and the scan resumes after it. */
  lemma ReplaceAllHit(b: string, p: string, r: string)
    requires |p| > 0
    ensures ReplaceAll(p + b, p, r) == r + ReplaceAll(b, p, r)
  {
    assert (p + b)[|p|..] == b;
  }

  /** A single character that does not start an occurrence, because the
      character after it differs from the pattern's second one, is kept. */
  lemma ReplaceAllMiss(c: char, b: string, p: string, r: string)
    requires |p| >= 2 && |b| >= 1 && b[0] != p[1]
    ensures ReplaceAll([c] + b, p, r) == [c] + ReplaceAll(b, p, r)
  {
    assert ([c] + b)[1] == b[0];
    assert ([c] + b)[1..] == b;
  }

  /** An occurrence of p at the front of a + c, where no character of p
      after its first equals c's first, lies within a. */
  lemma PrefixBeforePiece(a: string, c: string, p: string)
    requires |a| > 0 && |c| > 0 && p <= a + c
    requires forall k :: 1 <= k < |p| ==> p[k] != c[0]
    ensures p <= a
  {
    var s := a + c;
    assert s[|a|] == c[0];
    assert forall i :: 0 <= i < |p| ==> p[i] == a[i];
  }

  /** A piece q that no occurrence of p can reach into (no character of p
      after its first equals q's first) and that holds no character equal to
      p's first one is kept in place: the text before and after it is
      rewritten on its own. */
  lemma {:induction false} ReplaceAllAround(a: string, q: string, b: string, p: string, r: string)
    requires |p| > 0 && |q| > 0
    requires forall k :: 1 <= k < |p| ==> p[k] != q[0]
    requires forall k :: 0 <= k < |q| ==> q[k] != p[0]
    ensures ReplaceAll(a + q + b, p, r) == ReplaceAll(a, p, r) + q + ReplaceAll(b, p, r)
    decreases |a|
  {
    var s := a + q + b;
    if a == [] {
      assert s == q + b;
      ReplaceAllSkip(q, b, p, r);
    } else if p <= s {
      PrefixBeforePiece(a, q + b, p);
      assert s[|p|..] == a[|p|..] + q + b;
      ReplaceAllAround(a[|p|..], q, b, p, r);
    } else {
      assert !(p <= a);
      assert s[1..] == a[1..] + q + b;
      ReplaceAllAround(a[1..], q, b, p, r);
    }
  }

  /** Text without the pattern's first character is left as it is. */
  lemma ReplaceAllNoLead(s: string, p: string, r: string)
    requires |p| > 0
    requires forall k :: 0 <= k < |s| ==> s[k] != p[0]
    ensures ReplaceAll(s, p, r) == s
  {
    ReplaceAllSkip(s, [], p, r);
    assert s + [] == s;
  }
}
