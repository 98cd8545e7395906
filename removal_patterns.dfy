/** The four regular expressions `removeFeature` deletes with, each as a
    hand-written matcher, and the global replace-with-nothing scan that
    applies them. A pattern is `\n`, then (except for the provider block)
    `\s*`, then a fixed head, then a tail:

      provider block   \n\nfunc Provide<Name>[\s\S]*?\n}
      provide entry    \n\s*fx\.Provide\(Provide<Name>[^,]*\),?
      feature import   \n\s*"<prefix>/<base>/<lower>/[^"]*"
      migration entry  \n\s*&<lower>persistence\.<Name>Model{},?

    Interpolated text is compiled as a regular expression would compile
    it: a `.` in it matches any character but a line terminator. */
module RemovalPatterns {
  import opened Text
  import opened Scan

  // ---------------------------------------------------------------------
  // Atoms: the fixed part of a pattern, one character position each
  // ---------------------------------------------------------------------

  datatype Atom = Char(c: char) | AnyButLineTerminator

  predicate AtomMatches(a: Atom, c: char) {
    match a
    case Char(d) => c == d
    case AnyButLineTerminator => !IsLineTerminator(c)
  }

  /** Regular-expression text that is all literal characters. */
  function Literal(s: string): (r: seq<Atom>)
    ensures |r| == |s|
    ensures forall k :: 0 <= k < |s| ==> r[k] == Char(s[k])
  {
    seq(|s|, k requires 0 <= k < |s| => Char(s[k]))
  }

  /** A value interpolated into regular-expression text unescaped. */
  function Interpolated(s: string): (r: seq<Atom>)
    ensures |r| == |s|
    ensures forall k :: 0 <= k < |s| ==> r[k] == (if s[k] == '.' then AnyButLineTerminator else Char(s[k]))
  {
    seq(|s|, k requires 0 <= k < |s| => if s[k] == '.' then AnyButLineTerminator else Char(s[k]))
  }

  predicate NoDots(s: string) {
    forall k :: 0 <= k < |s| ==> s[k] != '.'
  }

  /** The atoms match s from index i on. */
  predicate AtomsAt(s: string, i: int, atoms: seq<Atom>) {
    0 <= i && i + |atoms| <= |s| && forall k :: 0 <= k < |atoms| ==> AtomMatches(atoms[k], s[i + k])
  }

  lemma LiteralAtoms(s: string, i: int, p: string)
    ensures AtomsAt(s, i, Literal(p)) <==> OccursAt(s, i, p)
  {
    if AtomsAt(s, i, Literal(p)) {
      assert s[i..i + |p|] == p;
    }
    if OccursAt(s, i, p) {
      forall k | 0 <= k < |p| ensures AtomMatches(Literal(p)[k], s[i + k]) {
        assert s[i + k] == s[i..i + |p|][k];
      }
    }
  }

  /** A value without dots means the same interpolated as it does as text. */
  lemma InterpolatedPlain(p: string)
    requires NoDots(p)
    ensures Interpolated(p) == Literal(p)
  {
  }

  // ---------------------------------------------------------------------
  // Compiled patterns
  // ---------------------------------------------------------------------

  /** What follows the head: `[\s\S]*?\n}`, `[^,]*\),?`, `[^"]*"`, `,?`. */
  datatype Tail = LazyThroughBrace | ThroughParen | ThroughQuote | OptionalComma

  /** `\n`, `\s*` when spaces are allowed, the head, the tail. */
  datatype Regex = Regex(spacesAllowed: bool, head: seq<Atom>, tail: Tail)

  /** The head starts with a literal character, and with a non-space one
      where `\s*` comes before it. */
  predicate WellFormed(re: Regex) {
    |re.head| > 0 && re.head[0].Char? && (re.spacesAllowed ==> !IsSpace(re.head[0].c))
  }

  /** No c in s[lo..hi]. */
  predicate NoneIn(s: string, lo: int, hi: int, c: char) {
    0 <= lo <= hi <= |s| && forall k :: lo <= k < hi ==> s[k] != c
  }

  /** s[p..j] is matched by the tail. */
  predicate TailMatches(tail: Tail, s: string, p: int, j: int) {
    && 0 <= p <= j <= |s|
    && match tail
       case LazyThroughBrace =>
         p + 2 <= j && OccursAt(s, j - 2, "\n}")
       case ThroughParen =>
         || (p + 1 <= j && s[j - 1] == ')' && NoneIn(s, p, j - 1, ','))
         || (p + 2 <= j && s[j - 2] == ')' && s[j - 1] == ',' && NoneIn(s, p, j - 2, ','))
       case ThroughQuote =>
         p + 1 <= j && s[j - 1] == '"' && NoneIn(s, p, j - 1, '"')
       case OptionalComma =>
         j == p || (j == p + 1 && s[p] == ',')
  }

  /** s[i..j] is matched by the pattern, with `\s*` taking w characters. */
  predicate IsMatch(re: Regex, s: string, i: int, w: int, j: int) {
    && 0 <= i < |s| && s[i] == '\n' && 0 <= w
    && (re.spacesAllowed || w == 0)
    && Spaces(s, i + 1, i + 1 + w)
    && AtomsAt(s, i + 1 + w, re.head)
    && TailMatches(re.tail, s, i + 1 + w + |re.head|, j)
  }

  /** Some match of the pattern starts at i. */
  ghost predicate MatchesAt(re: Regex, s: string, i: int) {
    exists w, j :: IsMatch(re, s, i, w, j)
  }

  /** Among the matches starting at one index, the regular-expression
      engine takes the shortest for the lazy provider block and the
      longest for the greedy others. */
  predicate Prefers(tail: Tail, j: int, j': int) {
    if tail.LazyThroughBrace? then j <= j' else j' <= j
  }

  // ---------------------------------------------------------------------
  // The four patterns
  // ---------------------------------------------------------------------

  datatype Pattern =
    | ProviderFunction(name: string)
    | ProvideEntry(name: string)
    | FeatureImport(modulePrefix: string, featureBase: string, lowerName: string)
    | MigrationEntry(lowerName: string, name: string)

  /** The text a pattern's head spells out. */
  function HeadText(pat: Pattern): string
  {
    match pat
    case ProviderFunction(n) => "\nfunc Provide" + n
    case ProvideEntry(n) => "fx.Provide(Provide" + n
    case FeatureImport(p, b, l) => "\"" + p + "/" + b + "/" + l + "/"
    case MigrationEntry(l, n) => "&" + l + "persistence." + n + "Model{}"
  }

  /** The head as atoms: the escaped metacharacters of the pattern are
      literal, the interpolated values are not. */
  function Head(pat: Pattern): (r: seq<Atom>)
    ensures |r| == |HeadText(pat)| > 0 && r[0].Char?
    ensures pat.ProviderFunction? ==> r[0] == Char('\n')
    ensures !pat.ProviderFunction? ==> !IsSpace(r[0].c)
  {
    match pat
    case ProviderFunction(n) => Literal("\nfunc Provide") + Interpolated(n)
    case ProvideEntry(n) => Literal("fx.Provide(Provide") + Interpolated(n)
    case FeatureImport(p, b, l) =>
      Literal("\"") + Interpolated(p) + Literal("/") + Interpolated(b) + Literal("/") + Interpolated(l) + Literal("/")
    case MigrationEntry(l, n) =>
      Literal("&") + Interpolated(l) + Literal("persistence.") + Interpolated(n) + Literal("Model{}")
  }

  function TailOf(pat: Pattern): Tail {
    match pat
    case ProviderFunction(_) => LazyThroughBrace
    case ProvideEntry(_) => ThroughParen
    case FeatureImport(_, _, _) => ThroughQuote
    case MigrationEntry(_, _) => OptionalComma
  }

  /** The regular expression `removeFeature` builds for a pattern: every
      one but the provider block allows `\s*` after its `\n`. */
  function Compile(pat: Pattern): (re: Regex)
    ensures WellFormed(re)
    ensures re.spacesAllowed <==> !pat.ProviderFunction?
    ensures re.head == Head(pat) && re.tail == TailOf(pat)
  {
    Regex(!pat.ProviderFunction?, Head(pat), TailOf(pat))
  }

  // ---------------------------------------------------------------------
  // Matching at one index
  // ---------------------------------------------------------------------

  function Width(re: Regex, s: string, i: nat): nat
    requires i < |s|
  {
    if re.spacesAllowed then SpaceRun(s, i + 1) else 0
  }

  /** `\s*` before a head that starts with a non-space can only take the
      whole run of spaces: taking fewer leaves a space for the head. */
  lemma WidthForced(re: Regex, s: string, i: nat, w: int, j: int)
    requires WellFormed(re) && IsMatch(re, s, i, w, j)
    ensures w == Width(re, s, i)
  {
    if re.spacesAllowed {
      assert AtomMatches(re.head[0], s[i + 1 + w]);
      SpaceRunExact(s, i + 1, w);
    }
  }

  /** `[\s\S]*?\n}`: the end of the first `\n}` at or after p. */
  function ProviderTail(s: string, p: nat): (r: Option<nat>)
    requires p <= |s|
    ensures r.Some? ==> TailMatches(LazyThroughBrace, s, p, r.value)
    ensures r.Some? ==> forall j :: TailMatches(LazyThroughBrace, s, p, j) ==> r.value <= j
    ensures r.None? ==> forall j :: !TailMatches(LazyThroughBrace, s, p, j)
  {
    match FindFrom(s, "\n}", p)
    case None => None
    case Some(q) => Some(q + 2)
  }

  /** `[^,]*\),?`: the last `)` before the first comma, and the comma
      after it when there is one. */
  function ProvideTail(s: string, p: nat): (r: Option<nat>)
    requires p <= |s|
    ensures r.Some? ==> TailMatches(ThroughParen, s, p, r.value)
    ensures r.Some? ==> forall j :: TailMatches(ThroughParen, s, p, j) ==> j <= r.value
    ensures r.None? ==> forall j :: !TailMatches(ThroughParen, s, p, j)
  {
    var stop := match IndexOf(s, ',', p) case None => |s| case Some(c) => c;
    match LastIndexBefore(s, ')', p, stop)
    case None => None
    case Some(q) => if q + 1 < |s| && s[q + 1] == ',' then Some(q + 2) else Some(q + 1)
  }

  /** `[^"]*"`: through the first quote. */
  function ImportTail(s: string, p: nat): (r: Option<nat>)
    requires p <= |s|
    ensures r.Some? ==> TailMatches(ThroughQuote, s, p, r.value)
    ensures r.Some? ==> forall j :: TailMatches(ThroughQuote, s, p, j) ==> j == r.value
    ensures r.None? ==> forall j :: !TailMatches(ThroughQuote, s, p, j)
  {
    match IndexOf(s, '"', p)
    case None => None
    case Some(q) => Some(q + 1)
  }

  /** `,?`: a comma when there is one. */
  function MigrationTail(s: string, p: nat): (r: nat)
    requires p <= |s|
    ensures TailMatches(OptionalComma, s, p, r)
    ensures forall j :: TailMatches(OptionalComma, s, p, j) ==> j <= r
  {
    if p < |s| && s[p] == ',' then p + 1 else p
  }

  function TailAt(tail: Tail, s: string, p: nat): (r: Option<nat>)
    requires p <= |s|
    ensures r.Some? ==> TailMatches(tail, s, p, r.value)
    ensures r.Some? ==> forall j :: TailMatches(tail, s, p, j) ==> Prefers(tail, r.value, j)
    ensures r.None? ==> forall j :: !TailMatches(tail, s, p, j)
  {
    match tail
    case LazyThroughBrace => ProviderTail(s, p)
    case ThroughParen => ProvideTail(s, p)
    case ThroughQuote => ImportTail(s, p)
    case OptionalComma => Some(MigrationTail(s, p))
  }

  /** Index where the head of a match at i starts. */
  function HeadStart(re: Regex, s: string, i: nat): nat
    requires i < |s|
  {
    i + 1 + Width(re, s, i)
  }

  lemma NoHeadNoMatch(re: Regex, s: string, i: nat)
    requires WellFormed(re) && i < |s| && !AtomsAt(s, HeadStart(re, s, i), re.head)
    ensures !MatchesAt(re, s, i)
  {
    forall w, j | IsMatch(re, s, i, w, j) ensures false {
      WidthForced(re, s, i, w, j);
    }
  }

  /** Where the head is found, any match at i ends where the tail does. */
  lemma MatchIsTail(re: Regex, s: string, i: nat, w: int, j: int)
    requires WellFormed(re) && i < |s| && IsMatch(re, s, i, w, j)
    ensures TailMatches(re.tail, s, HeadStart(re, s, i) + |re.head|, j)
  {
    WidthForced(re, s, i, w, j);
  }

  lemma TailIsMatch(re: Regex, s: string, i: nat, j: int)
    requires i < |s| && s[i] == '\n' && AtomsAt(s, HeadStart(re, s, i), re.head)
    requires TailMatches(re.tail, s, HeadStart(re, s, i) + |re.head|, j)
    ensures IsMatch(re, s, i, Width(re, s, i), j)
  {
  }

  lemma TailPreferred(re: Regex, s: string, i: nat)
    requires WellFormed(re) && i < |s| && s[i] == '\n' && AtomsAt(s, HeadStart(re, s, i), re.head)
    ensures var r := TailAt(re.tail, s, HeadStart(re, s, i) + |re.head|);
      r.Some? ==> forall w, j :: IsMatch(re, s, i, w, j) ==> Prefers(re.tail, r.value, j)
  {
    forall w, j | IsMatch(re, s, i, w, j) ensures TailMatches(re.tail, s, HeadStart(re, s, i) + |re.head|, j) {
      MatchIsTail(re, s, i, w, j);
    }
  }

  lemma NoTailNoMatch(re: Regex, s: string, i: nat)
    requires WellFormed(re) && i < |s| && s[i] == '\n' && AtomsAt(s, HeadStart(re, s, i), re.head)
    requires TailAt(re.tail, s, HeadStart(re, s, i) + |re.head|).None?
    ensures !MatchesAt(re, s, i)
  {
    forall w, j | IsMatch(re, s, i, w, j) ensures false {
      MatchIsTail(re, s, i, w, j);
    }
  }

  /** The end of the match the engine takes at i, if any match starts
      there: `\n`, the whole run of spaces where `\s*` is allowed, the
      head, and the preferred tail. */
  function MatchAt(re: Regex, s: string, i: nat): (r: Option<nat>)
    requires WellFormed(re)
    ensures r.Some? ==> i < |s| && IsMatch(re, s, i, Width(re, s, i), r.value)
    ensures r.Some? ==> forall w, j :: IsMatch(re, s, i, w, j) ==> Prefers(re.tail, r.value, j)
    ensures r.None? ==> !MatchesAt(re, s, i)
  {
    if i >= |s| || s[i] != '\n' then None
    else if !AtomsAt(s, HeadStart(re, s, i), re.head) then
      NoHeadNoMatch(re, s, i);
      None
    else
      var r := TailAt(re.tail, s, HeadStart(re, s, i) + |re.head|);
      TailPreferred(re, s, i);
      if r.Some? then
        TailIsMatch(re, s, i, r.value);
        r
      else
        NoTailNoMatch(re, s, i);
        r
  }

  // ---------------------------------------------------------------------
  // The global scan: `s.replace(/pattern/g, '')`
  // ---------------------------------------------------------------------

  /** The match the engine takes at each index of s. */
  function MatchTable(re: Regex, s: string): (t: seq<Option<nat>>)
    requires WellFormed(re)
    ensures |t| == |s| && Advancing(t)
    ensures forall i :: 0 <= i < |s| ==> t[i] == MatchAt(re, s, i)
  {
    seq(|s|, i requires 0 <= i < |s| => MatchAt(re, s, i))
  }

  /** One removal pass: every match the scan meets is deleted. */
  function Remove(pat: Pattern, s: string): string
  {
    ScanFrom(s, MatchTable(Compile(pat), s), 0)
  }

  /** The scan takes a match at i exactly when one starts there. */
  lemma TableIsMatches(re: Regex, s: string)
    requires WellFormed(re)
    ensures forall i :: 0 <= i < |s| ==> (MatchTable(re, s)[i].Some? <==> MatchesAt(re, s, i))
  {
    forall i | 0 <= i < |s| && MatchTable(re, s)[i].Some? ensures MatchesAt(re, s, i) {
      assert IsMatch(re, s, i, Width(re, s, i), MatchAt(re, s, i).value);
    }
  }

  /** A removal pass leaves the text unchanged exactly when the pattern
      matches nowhere in it. */
  lemma RemoveUnchangedIff(pat: Pattern, s: string)
    ensures Remove(pat, s) == s <==> forall i :: 0 <= i < |s| ==> !MatchesAt(Compile(pat), s, i)
  {
    TableIsMatches(Compile(pat), s);
    ScanUnchangedIff(s, MatchTable(Compile(pat), s));
  }

  /** A removal pass only deletes characters. */
  lemma RemoveSubsequence(pat: Pattern, s: string)
    ensures Subsequence(Remove(pat, s), s)
    ensures |Remove(pat, s)| <= |s|
  {
    ScanSubsequence(s, MatchTable(Compile(pat), s), 0);
    assert s[0..] == s;
  }

  /** A removal pass cuts out exactly the leftmost-first matches: ordered,
      apart, each the engine's match at its start, with no match starting
      at an index the scan passes over. */
  lemma RemoveIsWithout(pat: Pattern, s: string)
    ensures var t := MatchTable(Compile(pat), s);
      && Ordered(s, 0, SpansFrom(s, t, 0))
      && LeftmostSpans(t, 0, SpansFrom(s, t, 0))
      && Remove(pat, s) == Without(s, 0, SpansFrom(s, t, 0))
  {
    SpansLeftmost(s, MatchTable(Compile(pat), s), 0);
    ScanWithout(s, MatchTable(Compile(pat), s), 0);
  }

  // ---------------------------------------------------------------------
  // The shape of what each pattern deletes, in plain text
  // ---------------------------------------------------------------------

  lemma LiteralConcat(a: string, b: string)
    ensures Literal(a + b) == Literal(a) + Literal(b)
  {
  }

  /** The values interpolated into the pattern hold no dots. */
  predicate PlainValues(pat: Pattern) {
    match pat
    case ProviderFunction(n) => NoDots(n)
    case ProvideEntry(n) => NoDots(n)
    case FeatureImport(p, b, l) => NoDots(p) && NoDots(b) && NoDots(l)
    case MigrationEntry(l, n) => NoDots(l) && NoDots(n)
  }

  /** With plain values, the head is its text taken literally. */
  lemma HeadIsLiteral(pat: Pattern)
    requires PlainValues(pat)
    ensures Head(pat) == Literal(HeadText(pat))
  {
    match pat
    case ProviderFunction(n) =>
      InterpolatedPlain(n);
      LiteralConcat("\nfunc Provide", n);
    case ProvideEntry(n) =>
      InterpolatedPlain(n);
      LiteralConcat("fx.Provide(Provide", n);
    case FeatureImport(p, b, l) =>
      InterpolatedPlain(p);
      InterpolatedPlain(b);
      InterpolatedPlain(l);
      LiteralConcat("\"", p);
      LiteralConcat("\"" + p, "/");
      LiteralConcat("\"" + p + "/", b);
      LiteralConcat("\"" + p + "/" + b, "/");
      LiteralConcat("\"" + p + "/" + b + "/", l);
      LiteralConcat("\"" + p + "/" + b + "/" + l, "/");
    case MigrationEntry(l, n) =>
      InterpolatedPlain(l);
      InterpolatedPlain(n);
      LiteralConcat("&", l);
      LiteralConcat("&" + l, "persistence.");
      LiteralConcat("&" + l + "persistence.", n);
      LiteralConcat("&" + l + "persistence." + n, "Model{}");
  }

  /** A match of a compiled regular expression whose head is a literal
      text: the whole run of spaces where `\s*` is allowed, the text, and
      the tail. */
  lemma LiteralMatchParts(re: Regex, text: string, s: string, i: nat, w: int, j: int)
    requires WellFormed(re) && re.head == Literal(text) && IsMatch(re, s, i, w, j)
    ensures w == Width(re, s, i)
    ensures OccursAt(s, i + 1 + w, text)
    ensures TailMatches(re.tail, s, i + 1 + w + |text|, j)
  {
    WidthForced(re, s, i, w, j);
    LiteralAtoms(s, i + 1 + w, text);
  }

  /** A match with plain values, in plain text. */
  lemma MatchParts(pat: Pattern, s: string, i: nat, w: int, j: int)
    requires PlainValues(pat) && IsMatch(Compile(pat), s, i, w, j)
    ensures w == Width(Compile(pat), s, i)
    ensures OccursAt(s, i + 1 + w, HeadText(pat))
    ensures TailMatches(TailOf(pat), s, i + 1 + w + |HeadText(pat)|, j)
  {
    HeadIsLiteral(pat);
    LiteralMatchParts(Compile(pat), HeadText(pat), s, i, w, j);
  }

  /** A provider block is `\n\nfunc Provide<Name>`, then anything, then
      `\n}`. */
  lemma ProviderBlockShape(name: string, s: string, i: nat, w: int, j: int)
    requires NoDots(name) && IsMatch(Compile(ProviderFunction(name)), s, i, w, j)
    ensures w == 0 && OccursAt(s, i, "\n\nfunc Provide" + name)
    ensures i + 16 + |name| <= j && OccursAt(s, j - 2, "\n}")
  {
    var pat := ProviderFunction(name);
    MatchParts(pat, s, i, w, j);
    var text := HeadText(pat);
    assert "\n\nfunc Provide" + name == "\n" + text;
    assert s[i..i + 1 + |text|] == [s[i]] + s[i + 1..i + 1 + |text|];
  }

  /** A later `\n}` gives a match too. */
  lemma CloserEnd(name: string, s: string, i: nat, j: nat, k: int)
    requires IsMatch(Compile(ProviderFunction(name)), s, i, 0, j)
    requires i + 14 + |name| <= k && k + 2 <= |s|
    ensures OccursAt(s, k, "\n}") ==> IsMatch(Compile(ProviderFunction(name)), s, i, 0, k + 2)
  {
    var re := Compile(ProviderFunction(name));
    if OccursAt(s, k, "\n}") {
      assert TailMatches(re.tail, s, i + 1 + |re.head|, k + 2);
    }
  }

  /** The provider block the engine deletes ends at the first `\n}` after
      its head. */
  lemma ProviderBlockFirstEnd(name: string, s: string, i: nat, j: nat)
    requires MatchAt(Compile(ProviderFunction(name)), s, i) == Some(j)
    ensures forall k :: i + 14 + |name| <= k < j - 2 ==> !OccursAt(s, k, "\n}")
  {
    var re := Compile(ProviderFunction(name));
    assert IsMatch(re, s, i, 0, j);
    forall k | i + 14 + |name| <= k < j - 2 ensures !OccursAt(s, k, "\n}") {
      CloserEnd(name, s, i, j, k);
    }
  }

  /** A provide entry is `\n`, the whole run of spaces after it,
      `fx.Provide(Provide<Name>`, a comma-free run ending in `)`, and
      possibly one comma. */
  lemma ProvideEntryShape(name: string, s: string, i: nat, w: int, j: int)
    requires NoDots(name) && IsMatch(Compile(ProvideEntry(name)), s, i, w, j)
    ensures s[i] == '\n' && w == SpaceRun(s, i + 1) && Spaces(s, i + 1, i + 1 + w)
    ensures OccursAt(s, i + 1 + w, "fx.Provide(Provide" + name)
    ensures var p := i + 1 + w + 18 + |name|;
      || (p + 1 <= j && s[j - 1] == ')' && NoneIn(s, p, j - 1, ','))
      || (p + 2 <= j && s[j - 2] == ')' && s[j - 1] == ',' && NoneIn(s, p, j - 2, ','))
  {
    MatchParts(ProvideEntry(name), s, i, w, j);
  }

  /** A feature import is `\n`, the whole run of spaces after it, a quote,
      the module prefix, the feature base and the lower-case name each
      followed by `/`, and everything up to and including the next quote. */
  lemma FeatureImportShape(prefix: string, base: string, lower: string, s: string, i: nat, w: int, j: int)
    requires NoDots(prefix) && NoDots(base) && NoDots(lower)
    requires IsMatch(Compile(FeatureImport(prefix, base, lower)), s, i, w, j)
    ensures s[i] == '\n' && w == SpaceRun(s, i + 1) && Spaces(s, i + 1, i + 1 + w)
    ensures OccursAt(s, i + 1 + w, "\"" + prefix + "/" + base + "/" + lower + "/")
    ensures var p := i + 1 + w + 4 + |prefix| + |base| + |lower|;
      p < j && s[j - 1] == '"' && NoneIn(s, p, j - 1, '"')
  {
    MatchParts(FeatureImport(prefix, base, lower), s, i, w, j);
  }

  /** The name is not delimited: the provide entry pattern of a feature
      also matches, and its pass deletes, the entry of any feature whose
      name extends it (`User` and `UserProfile`). */
  lemma ProvideEntryPrefixCollision(name: string, more: string)
    requires NoDots(name)
    requires forall k :: 0 <= k < |more| ==> more[k] != ','
    ensures var s := "\n\t" + "fx.Provide(Provide" + name + more + "),";
      && MatchesAt(Compile(ProvideEntry(name)), s, 0)
      && Remove(ProvideEntry(name), s) != s
  {
    var pat := ProvideEntry(name);
    var re := Compile(pat);
    var a, h, t := "\n\t", "fx.Provide(Provide" + name, more + "),";
    var s := "\n\t" + "fx.Provide(Provide" + name + more + "),";
    assert s == a + h + t;
    MiddleSlice(a, h, t);
    HeadIsLiteral(pat);
    LiteralAtoms(s, 2, h);
    assert Spaces(s, 1, 2);
    var p := 2 + |h|;
    assert NoneIn(s, p, |s| - 2, ',') by {
      forall k | p <= k < |s| - 2 ensures s[k] != ',' {
        assert s[k] == more[k - p];
      }
    }
    assert TailMatches(re.tail, s, p, |s|);
    assert IsMatch(re, s, 0, 1, |s|);
    RemoveUnchangedIff(pat, s);
  }

  lemma MiddleSlice(a: string, h: string, t: string)
    ensures OccursAt(a + h + t, |a|, h)
  {
    assert (a + h + t)[|a|..|a| + |h|] == h;
  }

  /** A migration entry is `\n`, the whole run of spaces after it,
      `&<lower>persistence.<Name>Model{}`, and possibly one comma. */
  lemma MigrationEntryShape(lower: string, name: string, s: string, i: nat, w: int, j: int)
    requires NoDots(lower) && NoDots(name) && IsMatch(Compile(MigrationEntry(lower, name)), s, i, w, j)
    ensures s[i] == '\n' && w == SpaceRun(s, i + 1) && Spaces(s, i + 1, i + 1 + w)
    ensures OccursAt(s, i + 1 + w, "&" + lower + "persistence." + name + "Model{}")
    ensures var p := i + 1 + w + 20 + |lower| + |name|;
      j == p || (j == p + 1 && s[p] == ',')
  {
    MatchParts(MigrationEntry(lower, name), s, i, w, j);
  }
}
