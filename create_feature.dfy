/** `createFeature`: copy the feature template with its tokens renamed,
    then splice a migration into the database file and an import and a
    module into the main module file. */
module FeatureCreate {
  import opened Text
  import opened Tokens
  import opened Workspace

  datatype ImportPath = ImportPath(modulePrefix: string, featureBase: string)
  datatype DatabasePoint = DatabasePoint(file: Path, insertAfter: string, migrationTemplate: string)
  datatype MainModulePoint = MainModulePoint(file: Path, insertAfter: string, moduleImport: string, moduleInsert: string)
  datatype GoConfig = GoConfig(
    goModPath: string,
    importPath: ImportPath,
    database: DatabasePoint,
    mainModule: MainModulePoint)

  // ---------------------------------------------------------------------
  // Splicing text after an anchor
  // ---------------------------------------------------------------------

  /** `s.replace(anchor, anchor + '\n\t' + content)`: a new line, indented
      by a tab, right after the first occurrence of the anchor. */
  function Splice(s: string, anchor: string, content: string): string
  {
    ReplaceFirst(s, anchor, anchor + "\n\t" + content)
  }

  /** Without the anchor there is nothing to splice into. */
  lemma SpliceAbsent(s: string, anchor: string, content: string)
    requires !Contains(s, anchor)
    ensures Splice(s, anchor, content) == s
  {
  }

  /** With the anchor first occurring at i, the new line goes right after
      that occurrence and everything else is kept: the text grows by the
      content plus the two characters of `\n\t`. */
  lemma SpliceAt(s: string, anchor: string, content: string, i: nat)
    requires FirstOccurrence(s, anchor, i)
    ensures Splice(s, anchor, content) == s[..i + |anchor|] + "\n\t" + content + s[i + |anchor|..]
    ensures |Splice(s, anchor, content)| == |s| + |content| + 2
  {
    assert Contains(s, anchor);
    FirstOccurrenceUnique(s, anchor, i, FindFirst(s, anchor).value);
    assert s[..i + |anchor|] == s[..i] + anchor;
  }

  /** Splicing leaves the first occurrence of the anchor where it was. */
  lemma SpliceKeepsAnchor(s: string, anchor: string, content: string, i: nat)
    requires FirstOccurrence(s, anchor, i)
    ensures FirstOccurrence(Splice(s, anchor, content), anchor, i)
  {
    SpliceAt(s, anchor, content, i);
    var t := Splice(s, anchor, content);
    assert t[..i + |anchor|] == s[..i + |anchor|];
    forall j | 0 <= j <= i
      ensures OccursAt(t, j, anchor) <==> OccursAt(s, j, anchor)
    {
      assert t[j..j + |anchor|] == t[..i + |anchor|][j..j + |anchor|];
      assert s[j..j + |anchor|] == s[..i + |anchor|][j..j + |anchor|];
    }
  }

  /** Two splices after the same anchor stack up in reverse: the later
      line lands directly after the anchor, above the earlier one. */
  lemma SpliceTwice(s: string, anchor: string, c1: string, c2: string, i: nat)
    requires FirstOccurrence(s, anchor, i)
    ensures Splice(Splice(s, anchor, c1), anchor, c2)
         == s[..i + |anchor|] + "\n\t" + c2 + "\n\t" + c1 + s[i + |anchor|..]
  {
    SpliceAt(s, anchor, c1, i);
    SpliceKeepsAnchor(s, anchor, c1, i);
    SpliceOnSpliced(s, Splice(s, anchor, c1), anchor, c1, c2, i);
  }

  /** The second splice of SpliceTwice, on the text the first one left. */
  lemma SpliceOnSpliced(s: string, t: string, anchor: string, c1: string, c2: string, i: nat)
    requires i + |anchor| <= |s| && FirstOccurrence(t, anchor, i)
    requires t == s[..i + |anchor|] + "\n\t" + c1 + s[i + |anchor|..]
    ensures Splice(t, anchor, c2) == s[..i + |anchor|] + "\n\t" + c2 + "\n\t" + c1 + s[i + |anchor|..]
  {
    var k := i + |anchor|;
    SpliceAt(t, anchor, c2, i);
    assert t == s[..k] + ("\n\t" + c1 + s[k..]);
    assert t[..k] == s[..k];
    assert t[k..] == "\n\t" + c1 + s[k..];
  }

  /** One file of a path map spliced; a missing file is left missing (the
      read fails and nothing is written). */
  function SpliceFile(files: map<Path, string>, p: Path, anchor: string, content: string): (r: map<Path, string>)
    ensures r.Keys == files.Keys
    ensures forall q :: q in files && q != p ==> r[q] == files[q]
  {
    if p in files then files[p := Splice(files[p], anchor, content)] else files
  }

  // ---------------------------------------------------------------------
  // What createFeature inserts
  // ---------------------------------------------------------------------

  const ZapImport: string := "\"go.uber.org/zap\""

  /** The import of the new feature's module, aliased `<lower>Module`. */
  function ImportLine(name: string, importPath: ImportPath): string
  {
    var lower := Lower(name);
    lower + "Module \"" + importPath.modulePrefix + "/" + importPath.featureBase + "/" + lower + "\""
  }

  /** The import spliced after the first `"go.uber.org/zap"`. */
  function AddImport(content: string, name: string, importPath: ImportPath): string
  {
    Splice(content, ZapImport, ImportLine(name, importPath))
  }

  /** The import line reads `<lower>Module "<prefix>/<base>/<lower>"` and
      goes on a new line right after the first `"go.uber.org/zap"`; the
      rest of the file is kept. */
  lemma AddImportAt(s: string, name: string, importPath: ImportPath, i: nat)
    requires FirstOccurrence(s, ZapImport, i)
    ensures AddImport(s, name, importPath)
         == s[..i + |ZapImport|] + "\n\t"
          + Lower(name) + "Module \"" + importPath.modulePrefix + "/" + importPath.featureBase + "/" + Lower(name) + "\""
          + s[i + |ZapImport|..]
  {
    SpliceAt(s, ZapImport, ImportLine(name, importPath), i);
  }

  /** A file without the zap import gets no import. */
  lemma AddImportAbsent(s: string, name: string, importPath: ImportPath)
    requires !Contains(s, ZapImport)
    ensures AddImport(s, name, importPath) == s
  {
  }

  /** The migration template with `Sample` and then `sample` renamed. */
  function Migration(template: string, name: string): string
  {
    ReplaceAll(ReplaceAll(template, "Sample", name), "sample", Lower(name))
  }

  /** The module template with only `sample` renamed. */
  function ModuleInsert(template: string, name: string): string
  {
    ReplaceAll(template, "sample", Lower(name))
  }

  /** For every template, the module insert keeps each `Sample` where it
      is: no `sample` can overlap it, so only the text around it is
      renamed. */
  lemma ModuleInsertKeepsSample(a: string, b: string, name: string)
    ensures ModuleInsert(a + "Sample" + b, name) == ModuleInsert(a, name) + "Sample" + ModuleInsert(b, name)
  {
    ReplaceAllAround(a, "Sample", b, "sample", Lower(name));
  }

  /** The module template's `Sample` is not a token: only the lower-case
      one is renamed. */
  lemma ModuleInsertKeepsCapitalized(name: string)
    ensures ModuleInsert("NewSample()", name) == "NewSample()"
  {
    ReplaceAllNoLead("NewSample()", "sample", Lower(name));
  }

  /** The migration renames both spellings, in that order. */
  lemma MigrationRenamesBoth(name: string)
    requires !Contains(name, "sample")
    ensures Migration("Sample", name) == name
  {
    assert "Sample" == "Sample" + "";
    ReplaceAllHit("", "Sample", name);
    assert name + "" == name;
    ReplaceAllAbsent(name, "sample", Lower(name));
  }

  /** The path map after createFeature, one step per edit: the template
      copy, the migration in the database file, then the import and the
      module in the main module file. */
  function CreatedFiles(files: map<Path, string>, source: seq<Entry>, destination: Path,
                        name: string, goConfig: GoConfig): map<Path, string>
  {
    var db, main := goConfig.database, goConfig.mainModule;
    var copied := files + CopiedFiles(destination, source, FeatureTokens(name, goConfig.importPath.modulePrefix));
    var migrated := SpliceFile(copied, db.file, db.insertAfter, Migration(db.migrationTemplate, name));
    var imported := SpliceFile(migrated, main.file, ZapImport, ImportLine(name, goConfig.importPath));
    SpliceFile(imported, main.file, main.insertAfter, ModuleInsert(main.moduleInsert, name))
  }

  /** Besides the copied tree, createFeature changes two files only. */
  lemma CreatedFilesFrame(files: map<Path, string>, source: seq<Entry>, destination: Path,
                          name: string, goConfig: GoConfig, p: Path)
    requires p != goConfig.database.file && p != goConfig.mainModule.file
    requires p !in CopiedFiles(destination, source, FeatureTokens(name, goConfig.importPath.modulePrefix))
    ensures p in CreatedFiles(files, source, destination, name, goConfig) <==> p in files
    ensures p in files ==> CreatedFiles(files, source, destination, name, goConfig)[p] == files[p]
  {
  }

  /** With the two host files distinct and outside the copied tree, the
      database file gets the migration, and the main module file gets the
      import first and the module second. */
  lemma CreatedHostFiles(files: map<Path, string>, source: seq<Entry>, destination: Path,
                         name: string, goConfig: GoConfig)
    requires goConfig.database.file != goConfig.mainModule.file
    requires goConfig.database.file in files && goConfig.mainModule.file in files
    requires goConfig.database.file !in CopiedFiles(destination, source, FeatureTokens(name, goConfig.importPath.modulePrefix))
    requires goConfig.mainModule.file !in CopiedFiles(destination, source, FeatureTokens(name, goConfig.importPath.modulePrefix))
    ensures var db, main, r := goConfig.database, goConfig.mainModule, CreatedFiles(files, source, destination, name, goConfig);
      && r[db.file] == Splice(files[db.file], db.insertAfter, Migration(db.migrationTemplate, name))
      && r[main.file] == Splice(AddImport(files[main.file], name, goConfig.importPath),
                                main.insertAfter, ModuleInsert(main.moduleInsert, name))
  {
  }

  /** When the module anchor is the zap import itself, the import edit
      coming first means the module line ends up above the import line. */
  lemma ImportBeforeModule(s: string, name: string, importPath: ImportPath, moduleLine: string, i: nat)
    requires FirstOccurrence(s, ZapImport, i)
    ensures Splice(AddImport(s, name, importPath), ZapImport, moduleLine)
         == s[..i + |ZapImport|] + "\n\t" + moduleLine + "\n\t" + ImportLine(name, importPath) + s[i + |ZapImport|..]
  {
    SpliceTwice(s, ZapImport, ImportLine(name, importPath), moduleLine, i);
  }

  // ---------------------------------------------------------------------
  // The operations
  // ---------------------------------------------------------------------

  /** `copyFiles`: make the destination directory, then walk the listing,
      copying directories recursively and writing every file with its
      tokens renamed. */
  method CopyFiles(fs: FileSystem, source: seq<Entry>, destination: Path, name: string, goConfig: GoConfig)
    modifies fs
    ensures fs.files == old(fs.files) + CopiedFiles(destination, source, FeatureTokens(name, goConfig.importPath.modulePrefix))
    ensures fs.dirs == old(fs.dirs) + CreatedDirs(destination, source)
    decreases source
  {
    var rw := FeatureTokens(name, goConfig.importPath.modulePrefix);
    ghost var files0, dirs0 := fs.files, fs.dirs;
    fs.MakeDirs(destination);
    for i := 0 to |source|
      invariant fs.files == files0 + CopiedFiles(destination, source[..i], rw)
      invariant fs.dirs == dirs0 + CreatedDirs(destination, source[..i])
    {
      ghost var files1, dirs1 := fs.files, fs.dirs;
      match source[i] {
        case Dir(n, entries) =>
          CopyFiles(fs, entries, destination + [n], name, goConfig);
        case File(n, content) =>
          var updatedContent := FeatureRewrite(content, name, goConfig.importPath.modulePrefix);
          fs.WriteFile(destination + [n], updatedContent);
          WriteIsEntryCopy(files1, destination, source[i], rw);
      }
      FilesLoopStep(files0, files1, fs.files, destination, source, i, rw);
      DirsLoopStep(dirs0, dirs1, fs.dirs, destination, source, i);
    }
    assert source[..|source|] == source;
  }

  /** `updateFile`: read, splice, write back; a file that cannot be read is
      left alone. */
  method UpdateFile(fs: FileSystem, filePath: Path, insertAfter: string, content: string)
    modifies fs
    ensures fs.files == SpliceFile(old(fs.files), filePath, insertAfter, content)
    ensures fs.dirs == old(fs.dirs)
  {
    var fileContent := fs.ReadFile(filePath);
    if fileContent.Some? {
      fs.WriteFile(filePath, Splice(fileContent.value, insertAfter, content));
    }
  }

  /** `addImportToMainGo`. */
  method AddImportToMainGo(fs: FileSystem, filePath: Path, featureName: string, goConfig: GoConfig)
    modifies fs
    ensures fs.files == SpliceFile(old(fs.files), filePath, ZapImport, ImportLine(featureName, goConfig.importPath))
    ensures fs.dirs == old(fs.dirs)
  {
    var content := fs.ReadFile(filePath);
    if content.Some? {
      fs.WriteFile(filePath, AddImport(content.value, featureName, goConfig.importPath));
    }
  }

  /** `createFeature`: the copy and the three edits, in order. */
  method CreateFeature(fs: FileSystem, source: seq<Entry>, destination: Path, name: string, goConfig: GoConfig)
    modifies fs
    ensures fs.files == CreatedFiles(old(fs.files), source, destination, name, goConfig)
    ensures fs.dirs == old(fs.dirs) + CreatedDirs(destination, source)
  {
    CopyFiles(fs, source, destination, name, goConfig);
    var database, mainModule := goConfig.database, goConfig.mainModule;
    var migrationTemplate := Migration(database.migrationTemplate, name);
    UpdateFile(fs, database.file, database.insertAfter, migrationTemplate);
    var moduleInsert := ModuleInsert(mainModule.moduleInsert, name);
    AddImportToMainGo(fs, mainModule.file, name, goConfig);
    UpdateFile(fs, mainModule.file, mainModule.insertAfter, moduleInsert);
  }
}
