# Go feature scaffolder: text-rewriting core

A model, in Dafny, of the scripts that scaffold features of a Go service:

- **`createFeature`** copies a template tree, renaming its `Sample` tokens in file contents, then splices a migration line into the database file and an import line and a module line into the main module file.
- **`createWidget`** copies a widget template with one left-to-right `Sample|sample` pass.
- **`removeFeature`** deletes the feature folder and cuts four regular-expression matches out of the provider and database files.
- **`getGoModuleName`** reads the module path from `go.mod`.

### How the model is built

- Pure text operations are functions over `string`.
- The project on disk is a `Workspace.FileSystem` object with two fields: `files`, a map from path to content, and `dirs`, a set of paths.
- The scripts are methods that change exactly what their contracts say, proved against declarative functions: `CopiedFiles`, `CreatedFiles`, `RemovedFiles`.
- Each removal regular expression is a hand-written matcher. It is specified by the set of all its matches and by the match the engine prefers at each index: lazy for the provider block, greedy for the others.
- That matcher feeds a global scan. The scan deletes the leftmost-first, non-overlapping matches.

Modules:

| Module | What it holds |
|---|---|
| `Text` | JavaScript `\s` and line terminators, ASCII case mapping, substring search, `replace` with a literal pattern (global and first-only) |
| `Tokens` | The five-pass feature rename and the one-pass widget rename |
| `TokenExamples` | The worked renames |
| `Workspace` | Template entries, the copy's image, the `FileSystem` class |
| `FeatureCreate` | `createFeature` |
| `WidgetAdd` | `createWidget` |
| `Scan`, `RemovalPatterns`, `FeatureRemove` | The global scan, the four patterns, `removeFeature` |
| `GoMod` | `getGoModuleName` |

### Where the code and the design description differ

The code is followed in each case.

- **Files edited by `createFeature`.**
  - The code edits only two host files: the database file (the migration) and the main module file (the import, then the module line).
  - It never edits the repository, usecase or handler files, so `CreatedFilesFrame` leaves every other file alone.
- **Removal matches by name prefix.**
  - The removal patterns interpolate the name without a delimiter, so removal for `User` also deletes the `fx.Provide` entry of `UserProfile`.
  - `RemovalPatterns.ProvideEntryPrefixCollision` proves this for every name and extension.
  - The collision safety the design asks for does not hold.
- **Tokens can survive the rename.** The rename is applied uniformly, so a feature named `Sample` still contains the token afterwards (`TokenExamples.FeatureNamedSample`). Token-free output is therefore not a property of the code.
- **Substitution is not idempotent.**
  - The design promises that substituting twice with a token-free name gives the same result as substituting once. The code breaks this when the module path holds a token.
  - With the name `x` and the module path `sample`, the content `SAMPLE_MODULE_PATH` becomes `X_MODULE_PATH` in the third pass and `sample` in the fifth. Substituting again turns that `sample` into `x` (`TokenExamples.FeatureRewriteNotIdempotent`).
  - The same input shows that a token-free name can still leave a token in the output.
- **The zap import pattern is literal.** The pattern at `createFeature.ts:107` escapes its dots, so it is modelled as the literal text `"go.uber.org/zap"`.
- **`getGoModuleName` edge cases.**
  - A `go.mod` that cannot be read and one that declares no module fail with the same message.
  - Because `\s+` may cross a line break, `module\nfoo` yields `foo`.
  - A last line of `module` followed only by blanks yields the empty name (`GoMod.GoModuleNameOfBlankDeclaration`).

## Model

Rows whose third column starts with "definition:" name the function that stands for the cited source lines and say what it computes. The other rows name a lemma, method or function whose contract states the property.

| member | source | states |
|---|---|---|
| Text.Lower | code/src/scripts/feature/createFeature.ts:61 | same length; every character mapped by ASCII `toLowerCase` |
| Text.Upper | code/src/scripts/feature/createFeature.ts:62 | same length; every character mapped by ASCII `toUpperCase` |
| Text.CaseRoundTrip | code/src/scripts/feature/removeFeature.ts:98 | upper-casing undoes lower-casing of an upper-case letter, and the other way round |
| Text.FindFirst | code/src/scripts/feature/createFeature.ts:83-86 | found exactly when the anchor occurs, and then at its leftmost occurrence |
| Text.FirstOccurrenceUnique | code/src/scripts/feature/createFeature.ts:83-86 | the leftmost occurrence is unique |
| Text.ReplaceFirst | code/src/scripts/feature/createFeature.ts:83-86 | definition: `s.replace(p, r)` with a string pattern; the text before the leftmost occurrence, then r, then the text after it, or s unchanged when p does not occur |
| Text.ReplaceAll | code/src/scripts/feature/createFeature.ts:60-65 | definition: `s.replace(/p/g, r)` for a literal p; one left-to-right scan that replaces each non-overlapping occurrence and never rescans r |
| Text.ReplaceAllAbsent | code/src/scripts/feature/createFeature.ts:60-65 | a global literal replace of a pattern that does not occur returns the text unchanged |
| Text.ReplaceAllSelf | code/src/scripts/feature/createFeature.ts:60 | replacing a pattern by itself is the identity |
| Text.ReplaceAllSkip | code/src/scripts/feature/createFeature.ts:60-65 | a leading chunk without the pattern's first character is copied through and the scan continues after it |
| Text.ReplaceAllHit | code/src/scripts/feature/createFeature.ts:60-65 | an occurrence at the front is replaced and the replacement is not rescanned |
| Text.ReplaceAllAround | code/src/scripts/feature/createFeature.ts:141-142 | a piece that no occurrence of the pattern can reach into, and that holds no character equal to the pattern's first one, is kept in place; the text on either side is rewritten on its own |
| Text.SpaceRun | code/src/scripts/utils/readGoMod.ts:10 | the longest run of `\s` from an index: all spaces, followed by a non-space or the end |
| Text.SpaceRunMaximal | code/src/scripts/utils/readGoMod.ts:10 | no run of spaces from that index is longer |
| Tokens.FeatureRewrite | code/src/scripts/feature/createFeature.ts:59-65 | definition: the five global literal replaces in source order: `Sample` by the name, `sample` by its lower case, `SAMPLE` by its upper case, `SAMPLE_MODULE_PATH` by the module path, then `<UPPER>_MODULE_PATH` by the module path |
| Tokens.ModulePathTokenAbsent | code/src/scripts/feature/createFeature.ts:62-63 | a text without `SAMPLE` has no `SAMPLE_MODULE_PATH` |
| Tokens.FeatureRewriteUntouched | code/src/scripts/feature/createFeature.ts:59-65 | content holding none of the tokens comes out of the five passes unchanged |
| Tokens.LowerFirst | code/src/scripts/widget/add.ts:11 | same length; only the first character is lower-cased; the empty name stays empty |
| Tokens.WidgetMatch | code/src/scripts/widget/add.ts:33 | a match at the front exactly when `Sample` or `sample` starts the text, and it is one of the two |
| Tokens.Callback | code/src/scripts/widget/add.ts:33-43 | definition: the callback sends `Sample` to the name, `sample` to the lower-first name, and any other match to itself |
| Tokens.WidgetPass | code/src/scripts/widget/add.ts:33-43 | definition: the global replace with the alternation of `Sample` and `sample` and a callback; a left-to-right scan that tries `Sample` before `sample` at each index, hands the match to the callback and resumes after it |
| Tokens.WidgetRewrite | code/src/scripts/widget/add.ts:11-43 | definition: the widget pass with the lower-first form of the name |
| Tokens.CallbackFallbackUnreachable | code/src/scripts/widget/add.ts:33-43 | every match reaches one of the two named branches; the `return match` fallback is never taken |
| Tokens.WidgetUntouched | code/src/scripts/widget/add.ts:33-43 | content without either token comes out unchanged |
| Tokens.WidgetHit | code/src/scripts/widget/add.ts:33-43 | a token is replaced and the scan resumes right after it, without rescanning the replacement |
| Tokens.WidgetIgnoresUpperCase | code/src/scripts/widget/add.ts:33 | `SAMPLE` is not a widget token |
| Tokens.WidgetSinglePass | code/src/scripts/widget/add.ts:33-43 | one pass gives `sampleBox` for the name `sampleBox`, where two successive global replaces would give `sampleBoxBox` |
| TokenExamples.LowerUpperUser | code/src/scripts/feature/createFeature.ts:61-62 | `User` lower-cases to `user` and upper-cases to `USER` |
| TokenExamples.FeatureNamedSample | code/src/scripts/feature/createFeature.ts:59-65 | with the name `Sample`, the text `Sample` is left as `Sample` |
| TokenExamples.FeatureRewriteHandlerExample | code/src/scripts/feature/createFeature.ts:59-65 | `func SampleHandler() { return "sample" }` becomes `func UserHandler() { return "user" }` for `User` |
| TokenExamples.FeatureRewriteModulePathExample | code/src/scripts/feature/createFeature.ts:60-65 | `SAMPLE_MODULE_PATH/x` becomes `github.com/acme/app/x`, by way of `USER_MODULE_PATH` |
| TokenExamples.FeatureRewriteNotIdempotent | code/src/scripts/feature/createFeature.ts:59-65 | with the token-free name `x` and the module path `sample`, one substitution of `SAMPLE_MODULE_PATH` gives `sample` and a second gives `x` |
| TokenExamples.LowerFirstUserCard | code/src/scripts/widget/add.ts:11 | `UserCard` lower-firsts to `userCard` |
| TokenExamples.WidgetRewriteExample | code/src/scripts/widget/add.ts:33-43 | `SampleWidget uses sampleStore` becomes `UserCardWidget uses userCardStore` for `UserCard` |
| Workspace.Ancestors | code/src/scripts/feature/createFeature.ts:37 | a recursive `mkdir` leaves the path and only nonempty prefixes of it |
| Workspace.CopiedFiles | code/src/scripts/feature/createFeature.ts:39-68 | definition: the files a copy of a listing writes, entry by entry in listing order, later entries overriding earlier ones |
| Workspace.EntryCopied | code/src/scripts/feature/createFeature.ts:43-68 | definition: a file entry gives its rewritten content under the destination; a directory entry gives the copy of its children one level down |
| Workspace.CreatedDirs | code/src/scripts/feature/createFeature.ts:34-50 | definition: the directories a copy creates: the destination with its ancestors, then each entry's directories in listing order |
| Workspace.EntryDirs | code/src/scripts/feature/createFeature.ts:43-50 | definition: a file entry creates no directory; a directory entry creates the directories of the copy of its children |
| Workspace.FilesLoopStep | code/src/scripts/feature/createFeature.ts:39-50 | the copy loop's file invariant carries over one entry |
| Workspace.DirsLoopStep | code/src/scripts/feature/createFeature.ts:39-50 | the copy loop's directory invariant carries over one entry |
| Workspace.WriteIsEntryCopy | code/src/scripts/feature/createFeature.ts:67 | writing one rewritten template file adds exactly that entry's output |
| Workspace.CopiedBelow | code/src/scripts/feature/createFeature.ts:39-50 | every copied file lies strictly below the destination, under the name of a listed entry |
| Workspace.EntryKept | code/src/scripts/feature/createFeature.ts:39-50 | with unique names, no entry's output is overwritten by another's |
| Workspace.CreatedDirsBelow | code/src/scripts/feature/createFeature.ts:37-50 | a copy creates no directory outside the destination other than its ancestors |
| Workspace.CreatedDirsHasDest | code/src/scripts/feature/createFeature.ts:37 | the destination itself is created |
| Workspace.EntryPreserved | code/src/scripts/feature/createFeature.ts:39-50 | the tree is preserved: a file reappears at destination + name with its content rewritten; a directory reappears as a directory with its whole copy below it |
| Workspace.PrunedFiles | code/src/scripts/feature/removeFeature.ts:101 | exactly the files not at or below the deleted folder survive, unchanged |
| Workspace.PrunedDirs | code/src/scripts/feature/removeFeature.ts:101 | exactly the directories not at or below the deleted folder survive |
| Workspace.FileSystem.ReadFile | code/src/scripts/feature/createFeature.ts:81 | the content when the file exists, None (the read error) otherwise |
| Workspace.FileSystem.WriteFile | code/src/scripts/feature/createFeature.ts:88 | that one file now holds the content; nothing else changes |
| Workspace.FileSystem.MakeDirs | code/src/scripts/feature/createFeature.ts:37 | the path and its ancestors are added; files are unchanged |
| Workspace.FileSystem.DeleteTree | code/src/scripts/feature/removeFeature.ts:101 | files and directories at or below the path disappear and nothing else changes |
| FeatureCreate.Splice | code/src/scripts/feature/createFeature.ts:83-86 | definition: the first occurrence of the anchor is replaced by the anchor, a newline, a tab and the content |
| FeatureCreate.SpliceAbsent | code/src/scripts/feature/createFeature.ts:83-86 | without the anchor the content is unchanged |
| FeatureCreate.SpliceAt | code/src/scripts/feature/createFeature.ts:83-86 | with the anchor first at i: prefix through the anchor, `\n\t`, the content, the rest; the length grows by the content plus 2 |
| FeatureCreate.SpliceKeepsAnchor | code/src/scripts/feature/createFeature.ts:83-86 | splicing leaves the anchor's first occurrence where it was |
| FeatureCreate.SpliceTwice | code/src/scripts/feature/createFeature.ts:83-86 | two splices after the same anchor stack in reverse: the later line lands directly after the anchor |
| FeatureCreate.SpliceFile | code/src/scripts/feature/createFeature.ts:80-91 | same paths; every other file unchanged; a missing file stays missing |
| FeatureCreate.AddImportAt | code/src/scripts/feature/createFeature.ts:97-109 | the line `<lower>Module "<prefix>/<base>/<lower>"` goes on a new tab-indented line right after the first `"go.uber.org/zap"`, and the rest is kept |
| FeatureCreate.AddImportAbsent | code/src/scripts/feature/createFeature.ts:106-109 | a file without the zap import gets no import |
| FeatureCreate.ImportLine | code/src/scripts/feature/createFeature.ts:97-103 | definition: `<lower>Module "<prefix>/<base>/<lower>"` with the lower-cased name |
| FeatureCreate.AddImport | code/src/scripts/feature/createFeature.ts:106-109 | definition: the import line spliced after the first literal `"go.uber.org/zap"` |
| FeatureCreate.Migration | code/src/scripts/feature/createFeature.ts:128-130 | definition: the migration template with `Sample` replaced by the name, then `sample` by its lower case |
| FeatureCreate.ModuleInsert | code/src/scripts/feature/createFeature.ts:141-142 | definition: the module template with only `sample` replaced by the lower-cased name |
| FeatureCreate.MigrationRenamesBoth | code/src/scripts/feature/createFeature.ts:128-130 | the template `Sample` becomes the name, which the `sample` pass that follows leaves alone when the name holds no `sample` |
| FeatureCreate.ModuleInsertKeepsCapitalized | code/src/scripts/feature/createFeature.ts:141-142 | the module template has only `sample` renamed: `NewSample()` is kept |
| FeatureCreate.ModuleInsertKeepsSample | code/src/scripts/feature/createFeature.ts:141-142 | for every template and name, each `Sample` stays where it is and only the text around it is renamed |
| FeatureCreate.CreatedFilesFrame | code/src/scripts/feature/createFeature.ts:117-152 | apart from the copied tree, only the database and main module files can change |
| FeatureCreate.CreatedHostFiles | code/src/scripts/feature/createFeature.ts:125-152 | the database file gets the migration; the main module file gets the import first and the module line second |
| FeatureCreate.ImportBeforeModule | code/src/scripts/feature/createFeature.ts:144-152 | when the module anchor is the zap import, the module line ends up above the import line |
| FeatureCreate.CreatedFiles | code/src/scripts/feature/createFeature.ts:117-152 | definition: the copy's files over the old ones, then the migration spliced into the database file, then the import and then the module line spliced into the main module file |
| FeatureCreate.CopyFiles | code/src/scripts/feature/createFeature.ts:32-73 | files become old files plus the copy's image; directories gain exactly the created ones |
| FeatureCreate.UpdateFile | code/src/scripts/feature/createFeature.ts:75-92 | the files become `SpliceFile` of the old ones; directories unchanged |
| FeatureCreate.AddImportToMainGo | code/src/scripts/feature/createFeature.ts:94-115 | the main module file gets the import splice; nothing else changes |
| FeatureCreate.CreateFeature | code/src/scripts/feature/createFeature.ts:117-155 | the files become `CreatedFiles` of the old ones (copy, migration, import, module, in that order) |
| WidgetAdd.CopyFile | code/src/scripts/widget/add.ts:32-49 | whether written or copied verbatim, the destination holds the one-pass rewrite of the template file |
| WidgetAdd.CopyFiles | code/src/scripts/widget/add.ts:10-55 | files become old files plus the widget copy's image; directories gain exactly the created ones |
| WidgetAdd.CreateWidget | code/src/scripts/widget/add.ts:57-60 | the same new state as the copy |
| WidgetAdd.TokenFreeFileCopiedVerbatim | code/src/scripts/widget/add.ts:45-48 | a template file without either token arrives with exactly its own content |
| Scan.ScanFrom | code/src/scripts/feature/removeFeature.ts:69 | the scan's output is never longer than what it scans |
| Scan.ScanUnchangedIff | code/src/scripts/feature/removeFeature.ts:69-71 | the scan leaves the text unchanged exactly when it takes no match |
| Scan.ScanSubsequence | code/src/scripts/feature/removeFeature.ts:69-71 | the scan's output is a subsequence of its input |
| Scan.SubsequenceTrans | code/src/scripts/feature/removeFeature.ts:68-71 | deletions compose across passes |
| Scan.SpansOrdered | code/src/scripts/feature/removeFeature.ts:69-71 | the deleted spans are nonempty, in order and apart |
| Scan.SpansLeftmost | code/src/scripts/feature/removeFeature.ts:69-71 | each deleted span is the engine's match at its start, and no match is taken at an index the scan passes over |
| Scan.ScanWithout | code/src/scripts/feature/removeFeature.ts:69-71 | the output is the input with exactly those spans cut out |
| RemovalPatterns.LiteralAtoms | code/src/scripts/feature/removeFeature.ts:49 | literal atoms match exactly where the text occurs |
| RemovalPatterns.InterpolatedPlain | code/src/scripts/feature/removeFeature.ts:64 | an interpolated value without `.` matches as literal text |
| RemovalPatterns.Head | code/src/scripts/feature/removeFeature.ts:48-87 | each head is as long as its text and starts with a literal; only the provider block's head starts with `\n`, and every other head starts with a non-space |
| RemovalPatterns.Compile | code/src/scripts/feature/removeFeature.ts:48-87 | every pattern compiles well formed; `\s*` is allowed for all but the provider block |
| RemovalPatterns.WidthForced | code/src/scripts/feature/removeFeature.ts:55 | `\s*` before a non-space head always takes the whole run of spaces |
| RemovalPatterns.ProviderTail | code/src/scripts/feature/removeFeature.ts:49 | `[\s\S]*?\n}` ends at the first `\n}`: shortest of all possible ends, None when there is no end |
| RemovalPatterns.ProvideTail | code/src/scripts/feature/removeFeature.ts:55 | `[^,]*\),?` takes the longest end: last `)` before the first comma, then a comma if present; None when no end exists |
| RemovalPatterns.ImportTail | code/src/scripts/feature/removeFeature.ts:64 | `[^"]*"` has one end, the first quote; None when there is none |
| RemovalPatterns.MigrationTail | code/src/scripts/feature/removeFeature.ts:85 | `,?` takes the comma when there is one |
| RemovalPatterns.IsMatch | code/src/scripts/feature/removeFeature.ts:48-87 | definition: a match from i to j is `\n`, w characters of `\s` (only where the pattern has `\s*`), the head's atoms, then the tail's end condition |
| RemovalPatterns.Prefers | code/src/scripts/feature/removeFeature.ts:49-55 | definition: among matches at one index the lazy provider tail prefers the shorter, the greedy tails the longer |
| RemovalPatterns.MatchAt | code/src/scripts/feature/removeFeature.ts:48-87 | the match the engine takes at an index is a match there and the preferred one (shortest provider block, longest otherwise); None exactly when no match starts there |
| RemovalPatterns.TableIsMatches | code/src/scripts/feature/removeFeature.ts:69-71 | the scan takes a match at an index exactly when one starts there |
| RemovalPatterns.Remove | code/src/scripts/feature/removeFeature.ts:69-71 | definition: `replace(re, '')` for a global pattern; the scan over the engine's match table that deletes each match taken |
| RemovalPatterns.RemoveUnchangedIff | code/src/scripts/feature/removeFeature.ts:69-71 | a pass leaves the text unchanged exactly when its pattern matches nowhere |
| RemovalPatterns.RemoveSubsequence | code/src/scripts/feature/removeFeature.ts:69-71 | a pass only deletes characters and is never longer |
| RemovalPatterns.RemoveIsWithout | code/src/scripts/feature/removeFeature.ts:68-71 | a pass cuts out exactly the ordered, leftmost-first, non-overlapping matches |
| RemovalPatterns.HeadIsLiteral | code/src/scripts/feature/removeFeature.ts:48-66 | with dot-free values, each head is its text taken literally |
| RemovalPatterns.MatchParts | code/src/scripts/feature/removeFeature.ts:48-87 | a match is `\n`, the whole space run where allowed, the head text, then the tail |
| RemovalPatterns.ProviderBlockShape | code/src/scripts/feature/removeFeature.ts:48-51 | a removed provider block starts with `\n\nfunc Provide<Name>` and ends with `\n}` |
| RemovalPatterns.ProviderBlockFirstEnd | code/src/scripts/feature/removeFeature.ts:49 | the block the engine removes ends at the first `\n}` after its head |
| RemovalPatterns.ProvideEntryShape | code/src/scripts/feature/removeFeature.ts:54-57 | a removed provide entry is `\n`, spaces, `fx.Provide(Provide<Name>`, a comma-free run ending in `)`, and an optional comma |
| RemovalPatterns.ProvideEntryPrefixCollision | code/src/scripts/feature/removeFeature.ts:54-57 | the entry of any name extending the feature's name is matched and deleted too |
| RemovalPatterns.FeatureImportShape | code/src/scripts/feature/removeFeature.ts:63-66 | a removed import is `\n`, spaces, `"<prefix>/<base>/<lower>/`, quote-free text, then `"` |
| RemovalPatterns.MigrationEntryShape | code/src/scripts/feature/removeFeature.ts:84-87 | a removed migration entry is `\n`, spaces, `&<lower>persistence.<Name>Model{}`, and an optional comma |
| FeatureRemove.Capitalize | code/src/scripts/feature/removeFeature.ts:98 | same length; the first character upper-cased and the rest kept |
| FeatureRemove.CapitalizeFirstOnly | code/src/scripts/feature/removeFeature.ts:98 | `""` stays `""`; later characters are kept; idempotent; round trips with lower-firsting when the first letter has the matching case |
| FeatureRemove.PassShrinks | code/src/scripts/feature/removeFeature.ts:69-71 | a pass only deletes, and deletes something exactly when its pattern matches |
| FeatureRemove.SubsequenceSameLength | code/src/scripts/feature/removeFeature.ts:69-71 | a deletion that keeps the length deletes nothing |
| FeatureRemove.ProviderCleanup | code/src/scripts/feature/removeFeature.ts:48-71 | definition: the provider block, then the `fx.Provide` entry, then the feature import removed, each pass on the previous pass's output |
| FeatureRemove.DatabaseCleanup | code/src/scripts/feature/removeFeature.ts:84-89 | definition: the migration entry removed for the lower-cased and the given name |
| FeatureRemove.ProviderCleanupDeletesOnly | code/src/scripts/feature/removeFeature.ts:68-71 | the three passes together only delete characters |
| FeatureRemove.ProviderCleanupUnchangedIff | code/src/scripts/feature/removeFeature.ts:68-71 | the provider file is unchanged exactly when none of the three patterns matches in it |
| FeatureRemove.DatabaseCleanupUnchangedIff | code/src/scripts/feature/removeFeature.ts:84-89 | the database file is unchanged exactly when the migration pattern matches nowhere, and it only loses characters |
| FeatureRemove.ProviderFileCleaned | code/src/scripts/feature/removeFeature.ts:43-77 | same paths; every other file unchanged |
| FeatureRemove.DatabaseFileCleaned | code/src/scripts/feature/removeFeature.ts:79-94 | same paths; every other file unchanged |
| FeatureRemove.DeletesOnlyTrans | code/src/scripts/feature/removeFeature.ts:106-109 | deletions compose across files |
| FeatureRemove.ProviderFileDeletesOnly | code/src/scripts/feature/removeFeature.ts:43-77 | the provider file edit only deletes characters |
| FeatureRemove.DatabaseFileDeletesOnly | code/src/scripts/feature/removeFeature.ts:79-94 | the database file edit only deletes characters |
| FeatureRemove.RemovedFilesShape | code/src/scripts/feature/removeFeature.ts:96-109 | nothing of the feature folder survives, every other file survives, and every surviving file only lost characters |
| FeatureRemove.RemovedFilesFrame | code/src/scripts/feature/removeFeature.ts:100-109 | a file outside the folder that is none of the four edited files is kept exactly |
| FeatureRemove.RemovedHostFiles | code/src/scripts/feature/removeFeature.ts:104-109 | four distinct host files: repository, usecase and handler each get the provider cleanup with the capitalized name, and the database file gets the migration cleanup |
| FeatureRemove.RemovedFiles | code/src/scripts/feature/removeFeature.ts:96-109 | definition: the feature folder pruned, then the repository, usecase and handler files cleaned, then the database file |
| FeatureRemove.RemoveFromProviderFile | code/src/scripts/feature/removeFeature.ts:43-77 | the files become `ProviderFileCleaned` of the old ones; directories unchanged |
| FeatureRemove.RemoveFromDatabase | code/src/scripts/feature/removeFeature.ts:79-94 | the files become `DatabaseFileCleaned` of the old ones; directories unchanged |
| FeatureRemove.RemoveFeature | code/src/scripts/feature/removeFeature.ts:96-112 | the files become `RemovedFiles` of the old ones; the folder's directories are gone |
| GoMod.Shape | code/src/scripts/utils/readGoMod.ts:10 | definition: a match of `^module\s+(.+)$` under the multiline flag: a line start, `module`, at least one `\s`, then a nonempty group without line terminators that ends at a line end |
| GoMod.GroupWidth | code/src/scripts/utils/readGoMod.ts:10 | `\s+` backtracks: the widest width at most the space run after which `.` can start, None when there is none |
| GoMod.GroupEndUnique | code/src/scripts/utils/readGoMod.ts:10 | `.+` followed by the multiline `$` has a single possible end |
| GoMod.MatchLine | code/src/scripts/utils/readGoMod.ts:10 | the reported match at a line start is a match, with the widest `\s+` and then the only end; None exactly when none exists there |
| GoMod.FindModuleLine | code/src/scripts/utils/readGoMod.ts:10 | the first index with a match, with no match before it; None when none exists |
| GoMod.Trim | code/src/scripts/utils/readGoMod.ts:16 | the text without leading and trailing `\s`, with bare ends |
| GoMod.TrimKeepsBare | code/src/scripts/utils/readGoMod.ts:16 | a text with bare ends is its own trim |
| GoMod.TrimIdempotent | code/src/scripts/utils/readGoMod.ts:16 | trimming twice is trimming once |
| GoMod.ModuleGroup | code/src/scripts/utils/readGoMod.ts:10-14 | None exactly when no line matches; otherwise the group is nonempty and on one line |
| GoMod.GetGoModuleName | code/src/scripts/utils/readGoMod.ts:7-19 | definition: a read failure or no match is the one error; otherwise the trimmed group |
| GoMod.GoModuleNameFailsIff | code/src/scripts/utils/readGoMod.ts:7-19 | the call fails exactly when the file cannot be read or no line matches, always with the one message |
| GoMod.GoModuleNameIsBare | code/src/scripts/utils/readGoMod.ts:10-16 | a name lies on one line and has no `\s` at either end |
| GoMod.GroupOfFirstMatch | code/src/scripts/utils/readGoMod.ts:10 | the reported match is at the first matching line start, whatever follows |
| GoMod.DeclarationMatches | code/src/scripts/utils/readGoMod.ts:10 | `module`, one `\s`, a bare path and a line end match with the path as the group |
| GoMod.GoModuleNameOfDeclaration | code/src/scripts/utils/readGoMod.ts:10-16 | `module github.com/acme/app\n`, or `module\nfoo`, yields the path |
| GoMod.GoModuleNameAfterLine | code/src/scripts/utils/readGoMod.ts:10-16 | an earlier line not starting with `module` is skipped |
| GoMod.NoEarlierModule | code/src/scripts/utils/readGoMod.ts:10 | no match starts on a first line that does not begin with `module` |
| GoMod.GoModuleNameOfBlankDeclaration | code/src/scripts/utils/readGoMod.ts:10-16 | `module` followed only by two blanks yields the empty name |

## Left out

- Disk I/O (`readdir`, `mkdir`, `readFile`, `writeFile`, `copyFile`): modelled as the `FileSystem` object's maps. A failed read is a missing path. Write failures, permissions and partial writes are not modelled.
- The per-level `catch` of the copy walk: each level of the recursion catches its own errors, so a failure ends only the loop over the directory where it happened; the files already written stay on disk and the parent level goes on with its next entry. The model has no failing step. Error logging, console output and colour codes are also left out; none of them changes a file.
- `readdir` order: the listing is a sequence of entries in a given order. Where two entries of one listing share a name, the later write wins.
- `path.join`/`path.resolve` normalisation: a path is the sequence of its components, and joining appends one. `..`, `.` and absolute components are not interpreted.
- `getGoModuleName`'s file read: passed in as the content, with None for a read failure. `goModPath`, `__dirname` and `projectRoot` are left out.
- `code/src/scripts/utils/getConfig.ts`: it only loads and checks a configuration on disk. The configuration is a parameter of every operation.
- `removeFolder`'s `deleteDirectory`: its code is not part of the modelled source. `FileSystem.DeleteTree` stands for it, on the assumption that it removes everything at or below the folder.
- File encodings: file content is modelled as decoded text. Every read decodes UTF-8 and every write encodes it again, so a template that is not valid UTF-8 has its bad sequences replaced by U+FFFD on the read/write path (`createFeature`, and the widget copy's write branch), while the widget copy's `fs.copyFile` branch keeps the raw bytes. `WidgetAdd.CopyFile` and `WidgetAdd.TokenFreeFileCopiedVerbatim` therefore do not distinguish the two branches for such a file.
- Unicode case mapping: `toLowerCase`/`toUpperCase` and the first-character case changes are modelled on ASCII letters only.
- `$` patterns (`$&`, `$1`, `$$`) in replacement strings: the name, the module path and the spliced content are taken literally.
- Regular-expression metacharacters in interpolated values: only `.` is interpreted (any character but a line terminator). The feature name is interpolated into the provider, provide and migration patterns, and `RemovalPatterns.Interpolated` models that. Any other metacharacter is taken literally.
- The feature rewrite's fifth, `<UPPER>_MODULE_PATH` pass (`createFeature.ts:65`) is modelled as a literal replace. This agrees with the code when the upper-cased name has no metacharacters.
- `moduleImport` (`createFeature.ts:138-140`): computed and never used, so it is not modelled.
- `remove(create(F)) == F`: not a property of the code.
  - `createFeature` edits the database and main module files.
  - `removeFeature` edits the repository, usecase, handler and database files, and never touches the main module file.
  - The created import `<lower>Module "<prefix>/<base>/<lower>"` has an alias and no trailing path segment, so the import removal pattern cannot match it.
- Asynchrony: every step is awaited in turn, so the steps are modelled in sequence.
