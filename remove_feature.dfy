/** `removeFeature`: delete the feature folder, take the feature's provider
    function, `fx.Provide` entry and imports out of the three provider
    files, and its migration entry out of the database file. */
module FeatureRemove {
  import opened Text
  import opened Tokens
  import opened Scan
  import opened RemovalPatterns
  import opened Workspace
  import opened FeatureCreate

  datatype ProviderPoint = ProviderPoint(file: Path, insertAfter: string, providerTemplate: string, moduleInsert: string)
  datatype RemoveConfig = RemoveConfig(
    importPath: ImportPath,
    repository: ProviderPoint,
    usecase: ProviderPoint,
    handler: ProviderPoint,
    database: DatabasePoint)

  // ---------------------------------------------------------------------
  // The feature name
  // ---------------------------------------------------------------------

  /** `name.charAt(0).toUpperCase() + name.slice(1)`. */
  function Capitalize(name: string): (r: string)
    ensures |r| == |name|
    ensures |name| > 0 ==> r[0] == UpperChar(name[0]) && r[1..] == name[1..]
  {
    if name == "" then "" else [UpperChar(name[0])] + name[1..]
  }

  /** Only the first character changes, the empty name stays empty, and
      capitalizing undoes the widget script's lower-casing of the first
      character (and the other way round). */
  lemma CapitalizeFirstOnly(name: string)
    ensures Capitalize("") == ""
    ensures forall k :: 1 <= k < |name| ==> Capitalize(name)[k] == name[k]
    ensures Capitalize(Capitalize(name)) == Capitalize(name)
    ensures |name| > 0 && IsUpperAscii(name[0]) ==> Capitalize(LowerFirst(name)) == name
    ensures |name| > 0 && IsLowerAscii(name[0]) ==> LowerFirst(Capitalize(name)) == name
  {
    if |name| > 0 {
      var c := Capitalize(name);
      forall k | 1 <= k < |name| ensures c[k] == name[k] {
        assert c[k] == c[1..][k - 1];
      }
      CaseRoundTrip(name[0]);
      assert name == [name[0]] + name[1..];
    }
  }

  // ---------------------------------------------------------------------
  // The content edits
  // ---------------------------------------------------------------------

  /** The passes of `removeFromProviderFile`, each over the output of the
      one before: the provider function, the provide entry, the imports. */
  function ProviderCleanup(content: string, featureName: string, importPath: ImportPath): string
  {
    var lowerFeatureName := Lower(featureName);
    var afterFunction := Remove(ProviderFunction(featureName), content);
    var afterProvide := Remove(ProvideEntry(featureName), afterFunction);
    Remove(FeatureImport(importPath.modulePrefix, importPath.featureBase, lowerFeatureName), afterProvide)
  }

  /** The pass of `removeFromDatabase`. */
  function DatabaseCleanup(content: string, featureName: string): string
  {
    Remove(MigrationEntry(Lower(featureName), featureName), content)
  }

  /** A pass deletes characters only, and deletes some exactly when its
      pattern matches somewhere. */
  lemma PassShrinks(pat: Pattern, s: string)
    ensures Subsequence(Remove(pat, s), s)
    ensures (forall i :: 0 <= i < |s| ==> !MatchesAt(Compile(pat), s, i)) <==> |Remove(pat, s)| == |s|
  {
    RemoveSubsequence(pat, s);
    RemoveUnchangedIff(pat, s);
    if |Remove(pat, s)| == |s| {
      SubsequenceSameLength(Remove(pat, s), s);
    }
  }

  lemma {:induction false} SubsequenceSameLength(a: string, b: string)
    requires Subsequence(a, b) && |a| == |b|
    ensures a == b
    decreases |b|
  {
    if a != [] {
      if Subsequence(a, b[1..]) {
        SubsequenceLength(a, b[1..]);
        assert false;
      }
      SubsequenceSameLength(a[1..], b[1..]);
      assert a == [a[0]] + a[1..] && b == [b[0]] + b[1..];
    }
  }

  /** The provider cleanup only deletes characters from the file. */
  lemma ProviderCleanupDeletesOnly(content: string, featureName: string, importPath: ImportPath)
    ensures Subsequence(ProviderCleanup(content, featureName, importPath), content)
    ensures |ProviderCleanup(content, featureName, importPath)| <= |content|
  {
    var s1 := Remove(ProviderFunction(featureName), content);
    var s2 := Remove(ProvideEntry(featureName), s1);
    var s3 := ProviderCleanup(content, featureName, importPath);
    PassShrinks(ProviderFunction(featureName), content);
    PassShrinks(ProvideEntry(featureName), s1);
    PassShrinks(FeatureImport(importPath.modulePrefix, importPath.featureBase, Lower(featureName)), s2);
    SubsequenceTrans(s2, s1, content);
    SubsequenceTrans(s3, s2, content);
    SubsequenceLength(s3, content);
  }

  /** The provider cleanup leaves a file as it is exactly when none of its
      three patterns matches in it. */
  lemma ProviderCleanupUnchangedIff(content: string, featureName: string, importPath: ImportPath)
    ensures var imports := FeatureImport(importPath.modulePrefix, importPath.featureBase, Lower(featureName));
      ProviderCleanup(content, featureName, importPath) == content
      <==> forall i :: 0 <= i < |content| ==>
             && !MatchesAt(Compile(ProviderFunction(featureName)), content, i)
             && !MatchesAt(Compile(ProvideEntry(featureName)), content, i)
             && !MatchesAt(Compile(imports), content, i)
  {
    var imports := FeatureImport(importPath.modulePrefix, importPath.featureBase, Lower(featureName));
    var s1 := Remove(ProviderFunction(featureName), content);
    var s2 := Remove(ProvideEntry(featureName), s1);
    PassShrinks(ProviderFunction(featureName), content);
    PassShrinks(ProvideEntry(featureName), s1);
    PassShrinks(imports, s2);
    SubsequenceLength(s1, content);
    SubsequenceLength(s2, s1);
    RemoveUnchangedIff(ProviderFunction(featureName), content);
    RemoveUnchangedIff(ProvideEntry(featureName), s1);
    RemoveUnchangedIff(imports, s2);
  }

  /** The database cleanup leaves a file as it is exactly when the
      migration entry matches nowhere in it, and only deletes otherwise. */
  lemma DatabaseCleanupUnchangedIff(content: string, featureName: string)
    ensures DatabaseCleanup(content, featureName) == content
      <==> forall i :: 0 <= i < |content| ==> !MatchesAt(Compile(MigrationEntry(Lower(featureName), featureName)), content, i)
    ensures Subsequence(DatabaseCleanup(content, featureName), content)
  {
    RemoveUnchangedIff(MigrationEntry(Lower(featureName), featureName), content);
    RemoveSubsequence(MigrationEntry(Lower(featureName), featureName), content);
  }

  // ---------------------------------------------------------------------
  // The file edits
  // ---------------------------------------------------------------------

  /** The files after `removeFromProviderFile` on p: the cleaned content
      when p can be read, the same files when it cannot. */
  function ProviderFileCleaned(files: map<Path, string>, p: Path, featureName: string, importPath: ImportPath): (r: map<Path, string>)
    ensures r.Keys == files.Keys
    ensures forall q :: q in files && q != p ==> r[q] == files[q]
  {
    if p in files then files[p := ProviderCleanup(files[p], featureName, importPath)] else files
  }

  /** The files after `removeFromDatabase` on p. */
  function DatabaseFileCleaned(files: map<Path, string>, p: Path, featureName: string): (r: map<Path, string>)
    ensures r.Keys == files.Keys
    ensures forall q :: q in files && q != p ==> r[q] == files[q]
  {
    if p in files then files[p := DatabaseCleanup(files[p], featureName)] else files
  }

  /** What `removeFeature` leaves: the folder `destination/name` gone, then
      the three provider files cleaned with the capitalized name, then the
      database file. */
  function RemovedFiles(files: map<Path, string>, destination: Path, name: string, goConfig: RemoveConfig): map<Path, string>
  {
    var capitalizedName := Capitalize(name);
    var pruned := PrunedFiles(files, destination + [name]);
    var afterRepository := ProviderFileCleaned(pruned, goConfig.repository.file, capitalizedName, goConfig.importPath);
    var afterUsecase := ProviderFileCleaned(afterRepository, goConfig.usecase.file, capitalizedName, goConfig.importPath);
    var afterHandler := ProviderFileCleaned(afterUsecase, goConfig.handler.file, capitalizedName, goConfig.importPath);
    DatabaseFileCleaned(afterHandler, goConfig.database.file, capitalizedName)
  }

  /** Every file of b is in a with possibly fewer characters. */
  ghost predicate DeletesOnly(b: map<Path, string>, a: map<Path, string>) {
    b.Keys <= a.Keys && forall q :: q in b ==> Subsequence(b[q], a[q])
  }

  lemma DeletesOnlyTrans(c: map<Path, string>, b: map<Path, string>, a: map<Path, string>)
    requires DeletesOnly(c, b) && DeletesOnly(b, a)
    ensures DeletesOnly(c, a)
  {
    forall q | q in c ensures Subsequence(c[q], a[q]) {
      SubsequenceTrans(c[q], b[q], a[q]);
    }
  }

  lemma ProviderFileDeletesOnly(files: map<Path, string>, p: Path, featureName: string, importPath: ImportPath)
    ensures DeletesOnly(ProviderFileCleaned(files, p, featureName, importPath), files)
  {
    var r := ProviderFileCleaned(files, p, featureName, importPath);
    forall q | q in r ensures Subsequence(r[q], files[q]) {
      if q == p {
        ProviderCleanupDeletesOnly(files[p], featureName, importPath);
      } else {
        SubsequenceRefl(files[q]);
      }
    }
  }

  lemma DatabaseFileDeletesOnly(files: map<Path, string>, p: Path, featureName: string)
    ensures DeletesOnly(DatabaseFileCleaned(files, p, featureName), files)
  {
    var r := DatabaseFileCleaned(files, p, featureName);
    forall q | q in r ensures Subsequence(r[q], files[q]) {
      if q == p {
        DatabaseCleanupUnchangedIff(files[p], featureName);
      } else {
        SubsequenceRefl(files[q]);
      }
    }
  }

  /** Nothing of the feature folder survives, every other file survives,
      and every surviving file only lost characters. */
  lemma RemovedFilesShape(files: map<Path, string>, destination: Path, name: string, goConfig: RemoveConfig)
    ensures var r := RemovedFiles(files, destination, name, goConfig);
      && (forall q :: q in r <==> q in files && !(destination + [name] <= q))
      && DeletesOnly(r, files)
  {
    var capitalizedName := Capitalize(name);
    var pruned := PrunedFiles(files, destination + [name]);
    var f1 := ProviderFileCleaned(pruned, goConfig.repository.file, capitalizedName, goConfig.importPath);
    var f2 := ProviderFileCleaned(f1, goConfig.usecase.file, capitalizedName, goConfig.importPath);
    var f3 := ProviderFileCleaned(f2, goConfig.handler.file, capitalizedName, goConfig.importPath);
    var f4 := DatabaseFileCleaned(f3, goConfig.database.file, capitalizedName);
    assert DeletesOnly(pruned, files) by {
      forall q | q in pruned ensures Subsequence(pruned[q], files[q]) {
        SubsequenceRefl(files[q]);
      }
    }
    ProviderFileDeletesOnly(pruned, goConfig.repository.file, capitalizedName, goConfig.importPath);
    ProviderFileDeletesOnly(f1, goConfig.usecase.file, capitalizedName, goConfig.importPath);
    ProviderFileDeletesOnly(f2, goConfig.handler.file, capitalizedName, goConfig.importPath);
    DatabaseFileDeletesOnly(f3, goConfig.database.file, capitalizedName);
    DeletesOnlyTrans(f2, f1, pruned);
    DeletesOnlyTrans(f3, f2, pruned);
    DeletesOnlyTrans(f4, f3, pruned);
    DeletesOnlyTrans(f4, pruned, files);
  }

  /** A file outside the feature folder that is none of the four edited
      files is left exactly as it was. */
  lemma RemovedFilesFrame(files: map<Path, string>, destination: Path, name: string, goConfig: RemoveConfig, q: Path)
    requires q in files && !(destination + [name] <= q)
    requires q != goConfig.repository.file && q != goConfig.usecase.file
    requires q != goConfig.handler.file && q != goConfig.database.file
    ensures var r := RemovedFiles(files, destination, name, goConfig);
      q in r && r[q] == files[q]
  {
  }

  /** With four different files outside the folder, each is cleaned once,
      with the capitalized name, by its own kind of cleanup. */
  lemma RemovedHostFiles(files: map<Path, string>, destination: Path, name: string, goConfig: RemoveConfig)
    requires HostFilesApart(files, destination + [name], goConfig)
    ensures var r, n, ip := RemovedFiles(files, destination, name, goConfig), Capitalize(name), goConfig.importPath;
      && goConfig.repository.file in r
      && r[goConfig.repository.file] == ProviderCleanup(files[goConfig.repository.file], n, ip)
      && goConfig.usecase.file in r
      && r[goConfig.usecase.file] == ProviderCleanup(files[goConfig.usecase.file], n, ip)
      && goConfig.handler.file in r
      && r[goConfig.handler.file] == ProviderCleanup(files[goConfig.handler.file], n, ip)
      && goConfig.database.file in r
      && r[goConfig.database.file] == DatabaseCleanup(files[goConfig.database.file], n)
  {
    var n, ip := Capitalize(name), goConfig.importPath;
    var pruned := PrunedFiles(files, destination + [name]);
    var f1 := ProviderFileCleaned(pruned, goConfig.repository.file, n, ip);
    var f2 := ProviderFileCleaned(f1, goConfig.usecase.file, n, ip);
    var f3 := ProviderFileCleaned(f2, goConfig.handler.file, n, ip);
    assert goConfig.repository.file in pruned && goConfig.usecase.file in pruned;
    assert goConfig.handler.file in pruned && goConfig.database.file in pruned;
    assert f3[goConfig.repository.file] == f1[goConfig.repository.file];
    assert f3[goConfig.usecase.file] == f2[goConfig.usecase.file];
  }

  /** The four edited files exist, lie outside the deleted folder and are
      pairwise different. */
  predicate HostFilesApart(files: map<Path, string>, folder: Path, goConfig: RemoveConfig) {
    var a, b, c, d := goConfig.repository.file, goConfig.usecase.file, goConfig.handler.file, goConfig.database.file;
    && a in files && b in files && c in files && d in files
    && !(folder <= a) && !(folder <= b) && !(folder <= c) && !(folder <= d)
    && a != b && a != c && a != d && b != c && b != d && c != d
  }

  // ---------------------------------------------------------------------
  // The script
  // ---------------------------------------------------------------------

  /** `removeFromProviderFile`: read, clean, write back; a file that cannot
      be read is left alone (the error is only logged). */
  method RemoveFromProviderFile(fs: FileSystem, filePath: Path, featureName: string, goConfig: RemoveConfig)
    modifies fs
    ensures fs.files == ProviderFileCleaned(old(fs.files), filePath, featureName, goConfig.importPath)
    ensures fs.dirs == old(fs.dirs)
  {
    var content := fs.ReadFile(filePath);
    match content {
      case None =>
      case Some(c) =>
        var lowerFeatureName := Lower(featureName);
        var updatedContent := Remove(ProviderFunction(featureName), c);
        updatedContent := Remove(ProvideEntry(featureName), updatedContent);
        updatedContent := Remove(FeatureImport(goConfig.importPath.modulePrefix, goConfig.importPath.featureBase, lowerFeatureName), updatedContent);
        fs.WriteFile(filePath, updatedContent);
    }
  }

  /** `removeFromDatabase`. */
  method RemoveFromDatabase(fs: FileSystem, filePath: Path, featureName: string)
    modifies fs
    ensures fs.files == DatabaseFileCleaned(old(fs.files), filePath, featureName)
    ensures fs.dirs == old(fs.dirs)
  {
    var content := fs.ReadFile(filePath);
    match content {
      case None =>
      case Some(c) =>
        var updatedContent := Remove(MigrationEntry(Lower(featureName), featureName), c);
        fs.WriteFile(filePath, updatedContent);
    }
  }

  /** `removeFeature`: the folder is deleted under the name as given, the
      files are cleaned with the capitalized name, in the fixed order. */
  method RemoveFeature(fs: FileSystem, destination: Path, name: string, goConfig: RemoveConfig)
    modifies fs
    ensures fs.files == RemovedFiles(old(fs.files), destination, name, goConfig)
    ensures fs.dirs == PrunedDirs(old(fs.dirs), destination + [name])
  {
    var capitalizedName := Capitalize(name);
    fs.DeleteTree(destination + [name]);
    RemoveFromProviderFile(fs, goConfig.repository.file, capitalizedName, goConfig);
    RemoveFromProviderFile(fs, goConfig.usecase.file, capitalizedName, goConfig);
    RemoveFromProviderFile(fs, goConfig.handler.file, capitalizedName, goConfig);
    RemoveFromDatabase(fs, goConfig.database.file, capitalizedName);
  }
}
