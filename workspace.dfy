/** The scaffolder's view of the disk. A template is a read-only tree of
    named entries; the project being edited is a `FileSystem` object whose
    files (path to content) and directories the scripts read and change in
    place. A path is the sequence of its components, so `path.join(d, n)`
    is `d + [n]`. */
module Workspace {
  import opened Text
  import opened Tokens

  type Path = seq<string>

  /** A `readdir` entry: a file with its content, or a directory with its
      own entries, in the order `readdir` lists them. */
  datatype Entry = File(name: string, content: string) | Dir(name: string, entries: seq<Entry>)

  // ---------------------------------------------------------------------
  // Paths and path maps
  // ---------------------------------------------------------------------

  /** What a recursive `mkdir(p)` leaves in place: p and every nonempty
      prefix of it. */
  function Ancestors(p: Path): (r: set<Path>)
    ensures p != [] ==> p in r
    ensures forall q :: q in r ==> q != [] && q <= p
  {
    assert p[..|p|] == p;
    set k | 1 <= k <= |p| :: p[..k]
  }

  // ---------------------------------------------------------------------
  // What a template copy produces
  // ---------------------------------------------------------------------

  /** The files a copy of the listing es into dest writes, following the
      walk: the entries in order, a file written at dest + [name] with its
      content rewritten, a directory copied recursively into dest + [name].
      A later write to the same path wins. */
  function CopiedFiles(dest: Path, es: seq<Entry>, rw: Rewriter): map<Path, string>
    decreases es
  {
    if es == [] then map[]
    else CopiedFiles(dest, es[..|es| - 1], rw) + EntryCopied(dest, es[|es| - 1], rw)
  }

  function EntryCopied(dest: Path, e: Entry, rw: Rewriter): map<Path, string>
    decreases e
  {
    match e
    case File(n, c) => map[dest + [n] := Apply(rw, c)]
    case Dir(n, ch) => CopiedFiles(dest + [n], ch, rw)
  }

  /** The directories a copy creates: dest and its ancestors first, then
      those of every directory entry, copied recursively. */
  function CreatedDirs(dest: Path, es: seq<Entry>): set<Path>
    decreases es
  {
    if es == [] then Ancestors(dest)
    else CreatedDirs(dest, es[..|es| - 1]) + EntryDirs(dest, es[|es| - 1])
  }

  function EntryDirs(dest: Path, e: Entry): set<Path>
    decreases e
  {
    match e
    case File(_, _) => {}
    case Dir(n, ch) => CreatedDirs(dest + [n], ch)
  }

  /** The loop step of a copy: entry i adds its own files and directories
      to those of the entries before it. */
  lemma CopyStep(dest: Path, es: seq<Entry>, i: nat, rw: Rewriter)
    requires i < |es|
    ensures CopiedFiles(dest, es[..i + 1], rw) == CopiedFiles(dest, es[..i], rw) + EntryCopied(dest, es[i], rw)
  {
    assert es[..i + 1][..i] == es[..i];
  }

  lemma DirsStep(dest: Path, es: seq<Entry>, i: nat)
    requires i < |es|
    ensures CreatedDirs(dest, es[..i + 1]) == CreatedDirs(dest, es[..i]) + EntryDirs(dest, es[i])
  {
    assert es[..i + 1][..i] == es[..i];
  }

  /** The invariant of a copy loop carried over entry i: with the files
      (directories) of the first i entries in place, adding what entry i
      produces gives those of the first i + 1. */
  lemma FilesLoopStep(files0: map<Path, string>, files1: map<Path, string>, files2: map<Path, string>,
                      dest: Path, es: seq<Entry>, i: nat, rw: Rewriter)
    requires i < |es|
    requires files1 == files0 + CopiedFiles(dest, es[..i], rw)
    requires files2 == files1 + EntryCopied(dest, es[i], rw)
    ensures files2 == files0 + CopiedFiles(dest, es[..i + 1], rw)
  {
    CopyStep(dest, es, i, rw);
  }

  lemma DirsLoopStep(dirs0: set<Path>, dirs1: set<Path>, dirs2: set<Path>, dest: Path, es: seq<Entry>, i: nat)
    requires i < |es|
    requires dirs1 == dirs0 + CreatedDirs(dest, es[..i])
    requires dirs2 == dirs1 + EntryDirs(dest, es[i])
    ensures dirs2 == dirs0 + CreatedDirs(dest, es[..i + 1])
  {
    DirsStep(dest, es, i);
  }

  /** Writing one template file is adding its entry's output. */
  lemma WriteIsEntryCopy(files: map<Path, string>, dest: Path, e: Entry, rw: Rewriter)
    requires e.File?
    ensures files[dest + [e.name] := Apply(rw, e.content)] == files + EntryCopied(dest, e, rw)
    ensures EntryDirs(dest, e) == {}
  {
  }

  // ---------------------------------------------------------------------
  // The tree is preserved
  // ---------------------------------------------------------------------

  /** No two entries of one directory, at any depth, share a name (what a
      real directory listing guarantees). */
  predicate UniqueNames(es: seq<Entry>)
    decreases es
  {
    && (forall i, j :: 0 <= i < j < |es| ==> es[i].name != es[j].name)
    && (forall i :: 0 <= i < |es| ==> es[i].Dir? ==> UniqueNames(es[i].entries))
  }

  /** Every file a copy writes lies strictly below dest, under the name of
      one of the listed entries. */
  lemma {:induction false} CopiedBelow(dest: Path, es: seq<Entry>, rw: Rewriter, q: Path)
    requires q in CopiedFiles(dest, es, rw)
    ensures |q| > |dest| && q[..|dest|] == dest
    ensures exists i :: 0 <= i < |es| && es[i].name == q[|dest|]
    decreases es
  {
    var k := |es| - 1;
    if q in EntryCopied(dest, es[k], rw) {
      match es[k]
      case File(n, c) =>
      case Dir(n, ch) =>
        CopiedBelow(dest + [n], ch, rw, q);
        assert q[..|dest|] == q[..|dest + [n]|][..|dest|];
    } else {
      CopiedBelow(dest, es[..k], rw, q);
      var i :| 0 <= i < k && es[..k][i].name == q[|dest|];
      assert es[i].name == q[|dest|];
    }
  }

  predicate SubMap(a: map<Path, string>, b: map<Path, string>) {
    forall q :: q in a ==> q in b && b[q] == a[q]
  }

  /** What one entry writes lies below dest + [its name]. */
  lemma EntryCopiedBelow(dest: Path, e: Entry, rw: Rewriter, q: Path)
    requires q in EntryCopied(dest, e, rw)
    ensures |q| > |dest| && q[..|dest|] == dest && q[|dest|] == e.name
  {
    match e
    case File(n, c) =>
    case Dir(n, ch) =>
      CopiedBelow(dest + [n], ch, rw, q);
      assert q[..|dest|] == q[..|dest + [n]|][..|dest|];
      assert q[|dest|] == q[..|dest + [n]|][|dest|];
  }

  /** In a listing with unique names, no entry's output is overwritten by
      another: what entry i writes is in the copy's result as written. */
  lemma {:induction false} EntryKept(dest: Path, es: seq<Entry>, i: nat, rw: Rewriter)
    requires UniqueNames(es) && i < |es|
    ensures SubMap(EntryCopied(dest, es[i], rw), CopiedFiles(dest, es, rw))
    decreases |es|
  {
    var k := |es| - 1;
    var init := es[..k];
    CopyStep(dest, es, k, rw);
    assert es[..k + 1] == es;
    if i < k {
      assert UniqueNames(init) by {
        forall j | 0 <= j < |init| && init[j].Dir? ensures UniqueNames(init[j].entries) {
          assert init[j] == es[j];
        }
      }
      EntryKept(dest, init, i, rw);
      assert init[i] == es[i];
      forall q | q in EntryCopied(dest, es[i], rw) ensures q !in EntryCopied(dest, es[k], rw) {
        EntryCopiedBelow(dest, es[i], rw, q);
        if q in EntryCopied(dest, es[k], rw) {
          EntryCopiedBelow(dest, es[k], rw, q);
        }
      }
    }
  }

  lemma {:induction false} EntryDirsKept(dest: Path, es: seq<Entry>, i: nat)
    requires i < |es|
    ensures EntryDirs(dest, es[i]) <= CreatedDirs(dest, es)
    decreases |es|
  {
    var k := |es| - 1;
    DirsStep(dest, es, k);
    assert es[..k + 1] == es;
    if i < k {
      EntryDirsKept(dest, es[..k], i);
      assert es[..k][i] == es[i];
    }
  }

  /** A copy creates no directory outside dest, other than dest's own
      ancestors. */
  lemma {:induction false} CreatedDirsBelow(dest: Path, es: seq<Entry>, q: Path)
    requires q in CreatedDirs(dest, es)
    ensures q in Ancestors(dest) || (|q| > |dest| && q[..|dest|] == dest)
    decreases es
  {
    if es != [] {
      var k := |es| - 1;
      if q in CreatedDirs(dest, es[..k]) {
        CreatedDirsBelow(dest, es[..k], q);
      } else {
        match es[k]
        case File(_, _) =>
        case Dir(n, ch) =>
          CreatedDirsBelow(dest + [n], ch, q);
          if q in Ancestors(dest + [n]) {
            var j :| 1 <= j <= |dest| + 1 && q == (dest + [n])[..j];
            if j <= |dest| {
              assert q == dest[..j];
            }
          } else {
            assert q[..|dest|] == q[..|dest + [n]|][..|dest|];
          }
      }
    }
  }

  lemma {:induction false} CreatedDirsHasDest(dest: Path, es: seq<Entry>)
    ensures dest != [] ==> dest in CreatedDirs(dest, es)
    decreases es
  {
    if es != [] {
      CreatedDirsHasDest(dest, es[..|es| - 1]);
    }
  }

  /** The copy preserves the tree. In a listing with unique names every
      entry keeps its name and kind: a file appears at dest + [name] with
      its content rewritten, and a directory appears as a directory at
      dest + [name] holding everything its own copy produces there. */
  lemma EntryPreserved(dest: Path, es: seq<Entry>, i: nat, rw: Rewriter)
    requires UniqueNames(es) && i < |es|
    ensures es[i].File? ==>
      var p := dest + [es[i].name];
      p in CopiedFiles(dest, es, rw) && CopiedFiles(dest, es, rw)[p] == Apply(rw, es[i].content)
    ensures es[i].Dir? ==> dest + [es[i].name] in CreatedDirs(dest, es)
    ensures es[i].Dir? ==> SubMap(CopiedFiles(dest + [es[i].name], es[i].entries, rw), CopiedFiles(dest, es, rw))
    ensures es[i].Dir? ==> CreatedDirs(dest + [es[i].name], es[i].entries) <= CreatedDirs(dest, es)
  {
    EntryKept(dest, es, i, rw);
    EntryDirsKept(dest, es, i);
    if es[i].Dir? {
      CreatedDirsHasDest(dest + [es[i].name], es[i].entries);
    }
  }

  /** The files left once the tree at p is deleted. */
  function PrunedFiles(files: map<Path, string>, p: Path): (r: map<Path, string>)
    ensures forall q :: q in r <==> q in files && !(p <= q)
    ensures forall q :: q in r ==> r[q] == files[q]
  {
    map q | q in files && !(p <= q) :: files[q]
  }

  /** The directories left once the tree at p is deleted. */
  function PrunedDirs(dirs: set<Path>, p: Path): (r: set<Path>)
    ensures forall q :: q in r <==> q in dirs && !(p <= q)
  {
    set q | q in dirs && !(p <= q)
  }

  // ---------------------------------------------------------------------
  // The disk being edited
  // ---------------------------------------------------------------------

  class FileSystem {
    var files: map<Path, string>
    var dirs: set<Path>

    constructor(files0: map<Path, string>, dirs0: set<Path>)
      ensures files == files0 && dirs == dirs0
    {
      files := files0;
      dirs := dirs0;
    }

    /** `fs.readFile`: the content, or None when there is no such file
        (the read error). */
    method ReadFile(p: Path) returns (r: Option<string>)
      ensures p in files <==> r.Some?
      ensures r.Some? ==> r.value == files[p]
    {
      if p in files {
        r := Some(files[p]);
      } else {
        r := None;
      }
    }

    /** `fs.writeFile` (and `fs.copyFile`, which writes the bytes it read). */
    method WriteFile(p: Path, content: string)
      modifies this
      ensures files == old(files)[p := content]
      ensures dirs == old(dirs)
    {
      files := files[p := content];
    }

    /** `fs.mkdir(p, { recursive: true })`. */
    method MakeDirs(p: Path)
      modifies this
      ensures dirs == old(dirs) + Ancestors(p)
      ensures files == old(files)
    {
      dirs := dirs + Ancestors(p);
    }

    /** A recursive delete of the directory p: every file and directory at
        or below p disappears and nothing else changes. */
    method DeleteTree(p: Path)
      modifies this
      ensures files == PrunedFiles(old(files), p)
      ensures dirs == PrunedDirs(old(dirs), p)
    {
      files := map q | q in files && !(p <= q) :: files[q];
      dirs := set q | q in dirs && !(p <= q);
    }
  }
}
