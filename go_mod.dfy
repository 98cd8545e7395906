/** `getGoModuleName`: the module path declared in `go.mod`, found with the
    multiline pattern `^module\s+(.+)$` and trimmed. */
module GoMod {
  import opened Text

  datatype Result<T> = Ok(value: T) | Err(message: string)

  /** The one message every failure is reported with, whether the file
      could not be read or it declares no module. */
  const ReadFailure := "Failed to read Go module name from go.mod"

  // ---------------------------------------------------------------------
  // The pattern
  // ---------------------------------------------------------------------

  /** Where the multiline `^` may stand: the start of the text or just
      after a line terminator. */
  predicate LineStart(s: string, i: int) {
    i == 0 || (0 < i <= |s| && IsLineTerminator(s[i - 1]))
  }

  /** No line terminator in s[i..j]: what `.+` may consume. */
  predicate NoTerminators(s: string, i: int, j: int) {
    0 <= i <= j <= |s| && forall k :: i <= k < j ==> !IsLineTerminator(s[k])
  }

  /** A match of `^module\s+(.+)$` at i: the keyword, w characters of
      `\s`, and the captured group s[i+6+w..e], which is not empty, holds
      no line terminator and ends where the multiline `$` holds. */
  predicate Shape(s: string, i: int, w: int, e: int) {
    && LineStart(s, i)
    && OccursAt(s, i, "module")
    && 1 <= w
    && Spaces(s, i + 6, i + 6 + w)
    && i + 6 + w < e
    && NoTerminators(s, i + 6 + w, e)
    && (e == |s| || IsLineTerminator(s[e]))
  }

  // ---------------------------------------------------------------------
  // Matching
  // ---------------------------------------------------------------------

  /** Length of the longest run without line terminators starting at i. */
  function TextRun(s: string, i: nat): (r: nat)
    requires i <= |s|
    ensures NoTerminators(s, i, i + r)
    ensures i + r == |s| || IsLineTerminator(s[i + r])
    decreases |s| - i
  {
    if i == |s| || IsLineTerminator(s[i]) then 0 else 1 + TextRun(s, i + 1)
  }

  /** After `module` ends at p and v characters of `\s`, `.` can match
      the next character. */
  predicate GroupStarts(s: string, p: int, v: int) {
    0 <= p + v < |s| && !IsLineTerminator(s[p + v])
  }

  /** `\s+` backtracking from its longest run w down to 1: the first width
      after which the group can start. */
  function GroupWidth(s: string, p: nat, w: nat): (r: Option<nat>)
    ensures r.Some? ==> 1 <= r.value <= w && GroupStarts(s, p, r.value)
    ensures r.Some? ==> forall v :: r.value < v <= w ==> !GroupStarts(s, p, v)
    ensures r.None? ==> forall v :: 1 <= v <= w ==> !GroupStarts(s, p, v)
  {
    if w == 0 then None
    else if GroupStarts(s, p, w) then Some(w)
    else GroupWidth(s, p, w - 1)
  }

  /** Two ends of the same group are the same end: `.+` can stop only
      where its run without line terminators stops. */
  lemma GroupEndUnique(s: string, start: int, e1: int, e2: int)
    requires NoTerminators(s, start, e1) && (e1 == |s| || IsLineTerminator(s[e1]))
    requires NoTerminators(s, start, e2) && (e2 == |s| || IsLineTerminator(s[e2]))
    ensures e1 == e2
  {
  }

  /** The match the regular expression engine reports at line start i, as
      the width of `\s+` and the end of the group: the greediest `\s+`
      that lets the rest match, and then the greediest `.+`. */
  function MatchLine(s: string, i: nat): (r: Option<(nat, nat)>)
    ensures r.Some? ==> Shape(s, i, r.value.0, r.value.1)
    ensures r.Some? ==> forall w, e :: Shape(s, i, w, e) ==> w <= r.value.0 && (w == r.value.0 ==> e == r.value.1)
    ensures r.None? ==> forall w, e :: !Shape(s, i, w, e)
  {
    if LineStart(s, i) && OccursAt(s, i, "module") then
      var run := SpaceRun(s, i + 6);
      match GroupWidth(s, i + 6, run)
      case None =>
        NoGroupNoShape(s, i, i + 6, run);
        None
      case Some(w) =>
        var e := i + 6 + w + TextRun(s, i + 6 + w);
        GroupPreferred(s, i, i + 6, run, w, e);
        Some((w, e))
    else
      None
  }

  lemma NoGroupNoShape(s: string, i: nat, p: nat, run: nat)
    requires p == i + 6 <= |s| && run == SpaceRun(s, p)
    requires forall v :: 1 <= v <= run ==> !GroupStarts(s, p, v)
    ensures forall w, e :: !Shape(s, i, w, e)
  {
    forall w, e | Shape(s, i, w, e) ensures false {
      SpaceRunMaximal(s, p, w);
      assert GroupStarts(s, p, w);
    }
  }

  lemma GroupPreferred(s: string, i: nat, p: nat, run: nat, w: nat, e: nat)
    requires p == i + 6 <= |s| && run == SpaceRun(s, p)
    requires LineStart(s, i) && OccursAt(s, i, "module")
    requires 1 <= w <= run && GroupStarts(s, p, w)
    requires forall v :: w < v <= run ==> !GroupStarts(s, p, v)
    requires e == p + w + TextRun(s, p + w)
    ensures Shape(s, i, w, e)
    ensures forall w', e' :: Shape(s, i, w', e') ==> w' <= w && (w' == w ==> e' == e)
  {
    forall w', e' | Shape(s, i, w', e') ensures w' <= w && (w' == w ==> e' == e) {
      SpaceRunMaximal(s, p, w');
      assert GroupStarts(s, p, w');
      if w' == w {
        GroupEndUnique(s, p + w, e, e');
      }
    }
  }

  /** `content.match(...)`: the first line start, from i on, where the
      pattern matches, with the match reported there. */
  function FindModuleLine(s: string, i: nat): (r: Option<(nat, nat, nat)>)
    requires i <= |s|
    ensures r.Some? ==> i <= r.value.0 && Some((r.value.1, r.value.2)) == MatchLine(s, r.value.0)
    ensures r.Some? ==> forall k, w, e :: i <= k < r.value.0 ==> !Shape(s, k, w, e)
    ensures r.None? ==> forall k, w, e :: i <= k ==> !Shape(s, k, w, e)
    decreases |s| - i
  {
    match MatchLine(s, i)
    case Some((w, e)) => Some((i, w, e))
    case None =>
      if i == |s| then
        assert forall k, w, e :: i <= k && Shape(s, k, w, e) ==> k == i;
        None
      else FindModuleLine(s, i + 1)
  }

  // ---------------------------------------------------------------------
  // Trimming
  // ---------------------------------------------------------------------

  /** Length of the longest run of `\s` characters ending at j. */
  function SpaceRunBefore(s: string, j: nat): (r: nat)
    requires j <= |s|
    ensures r <= j && Spaces(s, j - r, j)
    ensures r == j || !IsSpace(s[j - r - 1])
  {
    if j == 0 || !IsSpace(s[j - 1]) then 0 else 1 + SpaceRunBefore(s, j - 1)
  }

  /** `String.prototype.trim`: s without its leading and trailing `\s`. */
  function Trim(s: string): (r: string)
    ensures SpaceRun(s, 0) + |r| <= |s| && Spaces(s, SpaceRun(s, 0) + |r|, |s|)
    ensures forall k :: 0 <= k < |r| ==> r[k] == s[SpaceRun(s, 0) + k]
    ensures r == [] || (!IsSpace(r[0]) && !IsSpace(r[|r| - 1]))
  {
    var a := SpaceRun(s, 0);
    if a == |s| then
      assert s[0..0] == [];
      []
    else
      var b := SpaceRunBefore(s, |s|);
      assert !IsSpace(s[a]);
      assert a < |s| - b;
      s[a..|s| - b]
  }

  /** Trimming cuts exactly the surrounding spaces: a text whose ends are
      not `\s` is its own trim, and trimming twice is trimming once. */
  lemma TrimKeepsBare(s: string)
    requires s == [] || (!IsSpace(s[0]) && !IsSpace(s[|s| - 1]))
    ensures Trim(s) == s
  {
    if s != [] {
      assert SpaceRun(s, 0) == 0;
      assert SpaceRunBefore(s, |s|) == 0;
      assert s[0..|s|] == s;
    }
  }

  lemma TrimIdempotent(s: string)
    ensures Trim(Trim(s)) == Trim(s)
  {
    TrimKeepsBare(Trim(s));
  }

  // ---------------------------------------------------------------------
  // getGoModuleName
  // ---------------------------------------------------------------------

  /** The group `(.+)` of the match `content.match` reports, if any. */
  function ModuleGroup(s: string): (r: Option<string>)
    ensures r.None? <==> forall i, w, e :: !Shape(s, i, w, e)
    ensures r.Some? ==> |r.value| > 0 && forall k :: 0 <= k < |r.value| ==> !IsLineTerminator(r.value[k])
  {
    var found := FindModuleLine(s, 0);
    if found.None? then None
    else
      assert Shape(s, found.value.0, found.value.1, found.value.2);
      Some(s[found.value.0 + 6 + found.value.1..found.value.2])
  }

  /** The read is a parameter: None when `go.mod` cannot be read. */
  function GetGoModuleName(content: Option<string>): Result<string> {
    match content
    case None => Err(ReadFailure)
    case Some(s) =>
      match ModuleGroup(s)
      case None => Err(ReadFailure)
      case Some(group) => Ok(Trim(group))
  }

  /** The call fails exactly when `go.mod` cannot be read or no line of it
      matches the pattern, and then with the one message. */
  lemma GoModuleNameFailsIff(content: Option<string>)
    ensures GetGoModuleName(content).Err? <==>
      (content.None? || forall i, w, e :: !Shape(content.value, i, w, e))
    ensures GetGoModuleName(content).Err? ==> GetGoModuleName(content).message == ReadFailure
  {
  }

  /** A name lies on one line and has no `\s` at either end. */
  lemma GoModuleNameIsBare(s: string)
    requires GetGoModuleName(Some(s)).Ok?
    ensures var name := GetGoModuleName(Some(s)).value;
      && (forall k :: 0 <= k < |name| ==> !IsLineTerminator(name[k]))
      && (name == [] || (!IsSpace(name[0]) && !IsSpace(name[|name| - 1])))
  {
    TrimKeepsLine(ModuleGroup(s).value);
  }

  lemma TrimKeepsLine(g: string)
    requires forall k :: 0 <= k < |g| ==> !IsLineTerminator(g[k])
    ensures forall k :: 0 <= k < |Trim(g)| ==> !IsLineTerminator(Trim(g)[k])
  {
    var name := Trim(g);
    forall k | 0 <= k < |name| ensures !IsLineTerminator(name[k]) {
      assert name[k] == g[SpaceRun(g, 0) + k];
    }
  }

  /** The match reported is at the first line start where the pattern
      matches, whatever the lines after it hold. */
  lemma GroupOfFirstMatch(s: string, i: nat, w: nat, e: nat)
    requires Shape(s, i, w, e)
    requires forall k, w', e' :: 0 <= k < i ==> !Shape(s, k, w', e')
    ensures FindModuleLine(s, 0).Some? && FindModuleLine(s, 0).value.0 == i
  {
    var r := FindModuleLine(s, 0);
    assert Shape(s, r.value.0, r.value.1, r.value.2);
  }

  /** A declaration `module`, one `\s` character, a path without `\s`,
      then the end of the text or of the line, standing at a line start:
      the pattern matches there with the path as its group. */
  lemma DeclarationMatches(s: string, i: nat, path: string)
    requires LineStart(s, i) && OccursAt(s, i, "module")
    requires i + 7 + |path| <= |s| && IsSpace(s[i + 6]) && |path| > 0
    requires s[i + 7..i + 7 + |path|] == path
    requires forall k :: 0 <= k < |path| ==> !IsSpace(path[k])
    requires i + 7 + |path| == |s| || IsLineTerminator(s[i + 7 + |path|])
    ensures Shape(s, i, 1, i + 7 + |path|)
    ensures MatchLine(s, i).Some? && MatchLine(s, i).value.0 == 1 && MatchLine(s, i).value.1 == i + 7 + |path|
  {
    assert s[i + 7] == path[0];
    assert SpaceRun(s, i + 7) == 0;
    assert SpaceRun(s, i + 6) == 1;
    assert GroupWidth(s, i + 6, 1) == Some(1);
    assert NoTerminators(s, i + 7, i + 7 + |path|) by {
      forall k | i + 7 <= k < i + 7 + |path| ensures !IsLineTerminator(s[k]) {
        assert s[k] == path[k - i - 7];
      }
    }
    GroupEndUnique(s, i + 7, i + 7 + TextRun(s, i + 7), i + 7 + |path|);
  }

  /** The usual `go.mod`: `module`, one `\s` character (a space, or even a
      line break), a path without `\s`, then the end of the text or of the
      line. The path is the module name. */
  lemma GoModuleNameOfDeclaration(path: string, c: char, rest: string)
    requires IsSpace(c) && |path| > 0
    requires forall k :: 0 <= k < |path| ==> !IsSpace(path[k])
    requires rest == [] || IsLineTerminator(rest[0])
    ensures GetGoModuleName(Some("module" + [c] + path + rest)) == Ok(path)
  {
    var s := "module" + [c] + path + rest;
    assert s[..6] == "module";
    assert s[7..7 + |path|] == path;
    DeclarationMatches(s, 0, path);
    GroupOfFirstMatch(s, 0, 1, 7 + |path|);
    assert ModuleGroup(s) == Some(path);
    TrimKeepsBare(path);
  }

  /** An earlier line that does not start with the keyword is skipped:
      the declaration on the next line is the one reported. */
  lemma GoModuleNameAfterLine(line: string, c: char, path: string)
    requires IsSpace(c) && |path| > 0
    requires forall k :: 0 <= k < |path| ==> !IsSpace(path[k])
    requires forall k :: 0 <= k < |line| ==> !IsLineTerminator(line[k])
    requires !("module" <= line)
    ensures GetGoModuleName(Some(line + "\n" + "module" + [c] + path)) == Ok(path)
  {
    var s := line + "\n" + "module" + [c] + path;
    GroupAfterLine(line, c, path, s);
    TrimKeepsBare(path);
  }

  lemma GroupAfterLine(line: string, c: char, path: string, s: string)
    requires IsSpace(c) && |path| > 0
    requires forall k :: 0 <= k < |path| ==> !IsSpace(path[k])
    requires forall k :: 0 <= k < |line| ==> !IsLineTerminator(line[k])
    requires !("module" <= line)
    requires s == line + "\n" + "module" + [c] + path
    ensures ModuleGroup(s) == Some(path)
  {
    var i := |line| + 1;
    AfterLineParts(line, c, path, s);
    DeclarationMatches(s, i, path);
    NoShapeBefore(line, s);
    GroupOfFirstMatch(s, i, 1, i + 7 + |path|);
  }

  lemma AfterLineParts(line: string, c: char, path: string, s: string)
    requires s == line + "\n" + "module" + [c] + path
    ensures line + "\n" <= s && |s| == |line| + 8 + |path|
    ensures LineStart(s, |line| + 1) && OccursAt(s, |line| + 1, "module") && s[|line| + 7] == c
    ensures s[|line| + 8..|line| + 8 + |path|] == path
  {
    var i := |line| + 1;
    assert s[i..i + 6] == "module";
    assert s[i + 7..i + 7 + |path|] == path;
  }

  lemma NoShapeBefore(line: string, s: string)
    requires line + "\n" <= s
    requires forall k :: 0 <= k < |line| ==> !IsLineTerminator(line[k])
    requires !("module" <= line)
    ensures forall k, w, e :: 0 <= k <= |line| ==> !Shape(s, k, w, e)
  {
    forall k, w, e | 0 <= k <= |line| ensures !Shape(s, k, w, e) {
      NoEarlierModule(line, s, k);
    }
  }

  lemma NoEarlierModule(line: string, s: string, k: nat)
    requires line + "\n" <= s && k <= |line|
    requires forall k :: 0 <= k < |line| ==> !IsLineTerminator(line[k])
    requires !("module" <= line)
    ensures !(LineStart(s, k) && OccursAt(s, k, "module"))
  {
    if k == 0 {
      if |line| >= 6 {
        assert line[..6] == s[..6];
      } else {
        assert s[|line|] == '\n';
      }
    } else if 0 < k {
      assert s[k - 1] == line[k - 1];
    }
  }


  /** `\s+` gives back a space at the very end of the text so that `.+`
      can take it: a last line `module` followed by only blanks yields an
      empty name instead of a failure. */
  lemma GoModuleNameOfBlankDeclaration()
    ensures GetGoModuleName(Some("module  ")) == Ok("")
  {
    var s := "module  ";
    assert OccursAt(s, 0, "module");
    assert SpaceRun(s, 6) == 2;
    assert GroupWidth(s, 6, 2) == Some(1);
    assert TextRun(s, 7) == 1;
    assert MatchLine(s, 0) == Some((1, 8));
    assert FindModuleLine(s, 0) == Some((0, 1, 8));
    assert s[7..8] == " ";
    assert ModuleGroup(s) == Some(" ");
    assert SpaceRun(" ", 0) == 1;
  }
}
