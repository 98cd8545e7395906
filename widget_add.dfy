/** `createWidget`: copy a widget template, renaming `Sample` and `sample`
    in one pass; a file the pass leaves as it is is copied byte for byte. */
module WidgetAdd {
  import opened Text
  import opened Tokens
  import opened Workspace

  /** `copyFiles` of the widget script. */
  method CopyFiles(fs: FileSystem, source: seq<Entry>, destination: Path, name: string)
    modifies fs
    ensures fs.files == old(fs.files) + CopiedFiles(destination, source, WidgetTokens(name))
    ensures fs.dirs == old(fs.dirs) + CreatedDirs(destination, source)
    decreases source
  {
    var lowerCaseName := LowerFirst(name);
    var rw := WidgetTokens(name);
    ghost var files0, dirs0 := fs.files, fs.dirs;
    fs.MakeDirs(destination);
    for i := 0 to |source|
      invariant fs.files == files0 + CopiedFiles(destination, source[..i], rw)
      invariant fs.dirs == dirs0 + CreatedDirs(destination, source[..i])
    {
      ghost var files1, dirs1 := fs.files, fs.dirs;
      match source[i] {
        case Dir(n, entries) =>
          CopyFiles(fs, entries, destination + [n], name);
        case File(n, content) =>
          CopyFile(fs, content, destination + [n], name, lowerCaseName);
          WriteIsEntryCopy(files1, destination, source[i], rw);
      }
      FilesLoopStep(files0, files1, fs.files, destination, source, i, rw);
      DirsLoopStep(dirs0, dirs1, fs.dirs, destination, source, i);
    }
    assert source[..|source|] == source;
  }

  /** The file branch of `copyFiles`: the renamed content is written when
      the pass changed something, and otherwise the template file is
      copied as it is; either way the destination holds the rewrite. */
  method CopyFile(fs: FileSystem, fileContent: string, destinationPath: Path, name: string, lowerCaseName: string)
    requires lowerCaseName == LowerFirst(name)
    modifies fs
    ensures fs.files == old(fs.files)[destinationPath := Apply(WidgetTokens(name), fileContent)]
    ensures fs.dirs == old(fs.dirs)
  {
    var updatedContent := WidgetPass(fileContent, name, lowerCaseName);
    if updatedContent != fileContent {
      fs.WriteFile(destinationPath, updatedContent);
    } else {
      // fs.copyFile: the template file's own content
      fs.WriteFile(destinationPath, fileContent);
    }
  }

  method CreateWidget(fs: FileSystem, source: seq<Entry>, destination: Path, name: string)
    modifies fs
    ensures fs.files == old(fs.files) + CopiedFiles(destination, source, WidgetTokens(name))
    ensures fs.dirs == old(fs.dirs) + CreatedDirs(destination, source)
  {
    CopyFiles(fs, source, destination, name);
  }

  /** A template file holding neither token arrives with exactly the
      template's content. */
  lemma TokenFreeFileCopiedVerbatim(destination: Path, source: seq<Entry>, i: nat, name: string)
    requires UniqueNames(source) && i < |source| && source[i].File?
    requires !Contains(source[i].content, "Sample") && !Contains(source[i].content, "sample")
    ensures var copied := CopiedFiles(destination, source, WidgetTokens(name));
      destination + [source[i].name] in copied && copied[destination + [source[i].name]] == source[i].content
  {
    EntryPreserved(destination, source, i, WidgetTokens(name));
    WidgetUntouched(source[i].content, name, LowerFirst(name));
  }
}
