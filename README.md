# CodeOverview scan engine, in Dafny

CodeOverview is a Unity editor window. It scans the project's C# scripts and
reports how heavy they are. A script's weight is its number of lines that are
neither blank nor a `//` comment. The window totals the weights, counts the
editor scripts, lists the scripts above two thresholds, and tallies the
project's interfaces and classes. It splits the classes into MonoBehaviour
subclasses and the rest. The offender lists are shown sorted by weight.

This project models that engine and proves what it computes:

- `text.dfy` (module `Text`): the .NET string operations the scan uses. These
  are `char.IsWhiteSpace`, `string.IsNullOrWhiteSpace`, `TrimStart()`,
  `StartsWith`, `EndsWith`, `Contains` and `Split('\n')`, with `Join` as the
  inverse of `Split`.
- `line_weight.dfy` (module `LineWeight`): the per-line test and the counting
  loop over a script's lines.
- `script_scan.dfy` (module `ScriptScan`): `Script`, `Config` and its
  defaults, the threshold buckets, and the script half of the scan stated as
  functions of the script list. These are the total weight, the editor-script
  count and the two offender lists.
- `type_scan.dfy` (module `TypeScan`): `InheritsMonoBehaviour` and the four
  type counters. A live `System.Type` is replaced by a descriptor that carries
  its interface and class flags and its chain of base types, immediate base
  first.
- `ranking.dfy` (module `Ranking`): `Script.CompareTo` and the in-place sort
  of an offender list.
- `code_overview.dfy` (module `Overview`): the asset-path filter of
  `LoadProjectData`, and the `CodeOverview` class. The class holds the
  counters and lists that `ScanProjectScripts` rebuilds and that
  `ShowScripts` sorts.

Three behaviours of the code that a reader might not expect:

- A script whose weight equals the medium threshold is bad, not medium. The
  test at line 394 is `>=`.
- A scan of an empty project leaves `averageLineCount` at its previous value.
  It is not reset to zero, because the assignment at line 401 is guarded by
  the test at line 369.
- `List<T>.Sort()` is not stable. Only sortedness and permutation are
  promised, and only those are proved.

## Model

| member | source | states |
|---|---|---|
| Text.IsWhiteSpace | CodeOverview.cs:379 | definition: the characters .NET `char.IsWhiteSpace` accepts (U+0009..U+000D, U+0020, U+0085, U+00A0, U+1680, U+2000..U+200A, U+2028, U+2029, U+202F, U+205F, U+3000) |
| Text.IsNullOrWhiteSpace | CodeOverview.cs:379 | definition: a non-null text that is empty or all whitespace |
| Text.StartsWith | CodeOverview.cs:379 | definition: ordinal prefix test |
| Text.EndsWith | CodeOverview.cs:459 | definition: ordinal suffix test |
| Text.TrimStart | CodeOverview.cs:379 | the result is a suffix of the line; every dropped character is whitespace; the result is empty or starts with a non-whitespace character |
| Text.Contains | CodeOverview.cs:386 | true exactly when the pattern occurs at some index of the text |
| Text.Split | CodeOverview.cs:374 | splitting on '\n' gives at least one piece, and no piece holds a line feed |
| Text.JoinSplit | CodeOverview.cs:374 | joining the pieces of a text with '\n' gives back the text |
| Text.SplitJoin | CodeOverview.cs:374 | splitting pieces joined with '\n' gives back the pieces when none holds a line feed |
| Text.SplitSingle | CodeOverview.cs:374 | a text without a line feed is a single line |
| Text.SplitConcat | CodeOverview.cs:374 | the lines of `a + "\n" + b` are the lines of `a` followed by the lines of `b` |
| LineWeight.CountsTowardWeight | CodeOverview.cs:379 | definition: not null or whitespace, and the trimmed line does not start with `//` |
| LineWeight.CountsTowardWeightIff | CodeOverview.cs:379 | a line counts exactly when it has a non-whitespace character and its first such character does not start `//` |
| LineWeight.TrimStartStopsAtFirst | CodeOverview.cs:379 | the trimmed line is empty exactly for blank lines; otherwise trimming stops at the first non-whitespace character |
| LineWeight.BlankLinesExamples | CodeOverview.cs:379 | `""`, `"   "` and `"\r"` do not count |
| LineWeight.CommentLineExample | CodeOverview.cs:379 | `"// comment"` does not count |
| LineWeight.IndentedCommentExample | CodeOverview.cs:379 | `"  // x"` does not count |
| LineWeight.CodeLineExample | CodeOverview.cs:379 | `"  int x;"` counts |
| LineWeight.TrailingCommentExample | CodeOverview.cs:379 | a code line ending in a `//` comment counts |
| LineWeight.LinesWeight | CodeOverview.cs:377-381 | the number of counting lines never exceeds the number of lines |
| LineWeight.Weight | CodeOverview.cs:374-381 | definition: the number of counting lines of the text split on '\n' |
| LineWeight.LinesWeightAppend | CodeOverview.cs:377-381 | the count over two runs of lines is the sum of their counts |
| LineWeight.WeightConcat | CodeOverview.cs:374-381 | the weight of two texts joined by a line feed is the sum of their weights |
| LineWeight.WeightSingleLine | CodeOverview.cs:374-381 | a text without a line feed weighs 1 when its line counts and 0 otherwise |
| LineWeight.WeightBound | CodeOverview.cs:374-381 | a weight never exceeds the number of lines, which is one more than the number of line feeds |
| LineWeight.SplitLength | CodeOverview.cs:374 | a text splits into one more line than it has line feeds |
| LineWeight.CountWeight | CodeOverview.cs:374-381 | the loop's count equals the weight of the text |
| ScriptScan.DefaultConfig | CodeOverview.cs:521-527 | definition: good threshold 150, medium threshold 300, no excluded names |
| ScriptScan.Classify | CodeOverview.cs:394-397 | definition: bad from the medium threshold up, tested first; else medium from the good threshold up; else neither list |
| ScriptScan.ClassifyBounds | CodeOverview.cs:394-397 | bad exactly from the medium threshold up, medium exactly from the good threshold to below the medium one, no list below both |
| ScriptScan.ClassifyMonotone | CodeOverview.cs:394-397 | a heavier script never lands in a milder bucket, for any thresholds |
| ScriptScan.DefaultBoundaries | CodeOverview.cs:521-527 | with the defaults 150 and 300: 149 is listed nowhere, 150 and 299 are medium, 300 and 301 are bad |
| ScriptScan.DefaultListsEveryHeavyScript | CodeOverview.cs:389-397 | with the defaults, which exclude no name, every script of weight 150 or more is listed, with its weight, in its bucket's list |
| ScriptScan.TotalWeight | CodeOverview.cs:383 | definition: the sum of the weights of all the scripts, excluded ones included |
| ScriptScan.EditorCount | CodeOverview.cs:386-387 | the number of editor scripts never exceeds the number of scripts |
| ScriptScan.Listed | CodeOverview.cs:389-397 | definition: the one record a non-excluded script adds to the list of its own bucket, and nothing otherwise |
| ScriptScan.Offenders | CodeOverview.cs:389-397 | definition: the records the scan appends to one list, in script order |
| ScriptScan.ScanStep | CodeOverview.cs:372-398 | one more script adds its weight to the total, adds one editor script exactly when its text holds the flag, and adds its record to at most its own list |
| ScriptScan.OffendersSound | CodeOverview.cs:389-397 | every listed entry is a non-excluded script of that list's bucket, and its `lineCount` is that script's weight |
| ScriptScan.OffendersComplete | CodeOverview.cs:389-397 | every non-excluded script of a bucket is listed with its weight |
| ScriptScan.OffendersDisjoint | CodeOverview.cs:389-397 | no record is on both lists, and no excluded name is on either |
| ScriptScan.OffendersCount | CodeOverview.cs:389-397 | the two lists together have at most one entry per script |
| TypeScan.InheritsMonoBehaviour | CodeOverview.cs:427-438 | true exactly when MonoBehaviour is among the type's strict base types |
| TypeScan.DerivesFromMonoBehaviour | CodeOverview.cs:419 | definition: MonoBehaviour is among the type's strict base types |
| TypeScan.DerivesExamples | CodeOverview.cs:427-438 | a type with no base, and MonoBehaviour itself, do not derive from MonoBehaviour; a direct subclass does |
| TypeScan.InterfaceCount | CodeOverview.cs:412-413 | definition: the number of interfaces among the types |
| TypeScan.ClassCount | CodeOverview.cs:415-417 | definition: the number of classes among the types |
| TypeScan.MonoBehaviourCount | CodeOverview.cs:419-420 | definition: the number of classes that derive from MonoBehaviour |
| TypeScan.NonMonoBehaviourCount | CodeOverview.cs:421-422 | definition: the number of classes that do not derive from MonoBehaviour |
| TypeScan.ClassCountSplit | CodeOverview.cs:415-423 | the class count is the MonoBehaviour count plus the non-MonoBehaviour count; no counter exceeds the number of types |
| TypeScan.CountsAppend | CodeOverview.cs:410-424 | each counter over two runs of types is the sum of the counters over each run |
| TypeScan.OtherKindIgnored | CodeOverview.cs:410-424 | a type that is neither an interface nor a class changes no counter |
| TypeScan.MixedCorpusExample | CodeOverview.cs:410-424 | an interface, a MonoBehaviour subclass and a plain class give 1 interface and 2 classes, split 1 and 1 |
| Ranking.CompareTo | CodeOverview.cs:501-510 | the sign of the result orders two scripts by line count alone |
| Ranking.CompareToPreorder | CodeOverview.cs:501-510 | the comparison is antisymmetric, reflexive and transitive, as the sort requires |
| Ranking.SelectMin | CodeOverview.cs:442 | returns the index of a least line count in the unsorted tail |
| Ranking.Swap | CodeOverview.cs:442 | exchanges two entries, keeps the others and the multiset of entries |
| Ranking.SortByLineCount | CodeOverview.cs:442 | the array ends ascending by line count and holds the same entries as before |
| Overview.IsProjectScriptPath | CodeOverview.cs:459 | a path is kept exactly when "Package" and "Plugins" occur nowhere in it and it ends in ".cs" |
| Overview.FilterPaths | CodeOverview.cs:457-461 | definition: the asset paths that pass the filter, in their order, each as often as it occurs |
| Overview.FilterPathsMembers | CodeOverview.cs:457-461 | a path is kept exactly when it is an asset path that passes the filter; no more paths are kept than there are |
| Overview.ProjectScriptPaths | CodeOverview.cs:454-461 | the loop keeps exactly the filtered asset paths, in their order |
| Overview.CodeOverview.constructor | CodeOverview.cs:48-55 | the window holds the loaded scripts, types and configuration, zero counters and empty lists before its first scan, so it is consistent |
| Overview.CodeOverview.ScanProjectScripts | CodeOverview.cs:359-425 | every counter and both lists are rebuilt from the scripts, types and configuration, whatever they held before; the average changes only for a non-empty project, to total over count; the class split holds and each list entry is in its band and not excluded; the scripts and configuration are not changed |
| Overview.CodeOverview.ReadScripts | CodeOverview.cs:361-402 | the script counter is the number of scripts; the total counts excluded scripts too; the editor count, both lists and the average are as the scan functions say |
| Overview.CodeOverview.ScanScript | CodeOverview.cs:374-397 | one script adds its weight, counts as an editor script exactly when its text holds the flag, and adds its record to at most its own list |
| Overview.CodeOverview.CountTypes | CodeOverview.cs:404-424 | the four type counters restart at zero and end at the counts over all the types |
| Overview.CodeOverview.ShowScripts | CodeOverview.cs:440-442 | the chosen list ends ascending by line count with the same entries; the other list is untouched; the window's consistency is kept |

## Left out

- The window's GUI: styles, colours, scrolling, buttons, and the exclusion
  editor that adds or removes names and then rescans. None of it computes
  anything the scan uses, except by calling `ScanProjectScripts` again.
- `GetConfigPath`, `LoadConfig` and `SaveConfig`. These are file and JSON
  I/O. The configuration reaches the model as a `Config` value given to the
  constructor.
- The asset database and the reflection in `LoadProjectData`. The model
  keeps only the path filter. The scripts and the type descriptors are given
  to the constructor. The assembly-name filter and the compiler-generated
  attribute test are not modelled.
- The formatting of the average, and the colour it selects.
- `Script.OpenInIDE` and `Script.ToString`. These are an editor action and
  rich-text rendering.
- `Overview.CodeOverview.ScanProjectScripts`: `averageLineCount` is a
  `real`, not a 32-bit float. The model computes the exact quotient, not the
  rounded one.
- `Overview.CodeOverview.ScanProjectScripts`: the counters are unbounded
  integers. The 32-bit overflow of `int` is not modelled.
- `Text.StartsWith`: the check is an ordinal prefix test. The culture-
  sensitive comparison that .NET uses for `StartsWith(string)` and
  `EndsWith(string)` is not modelled.
- `Text.EndsWith`: ordinal, for the same reason.
- `Ranking.SortByLineCount`: a selection sort stands in for .NET's
  introspective sort. The order it gives to scripts of equal weight is not
  the library's.
- `Ranking.CompareTo`: the branch that returns 0 for an argument that is not
  a `Script` is not modelled. A list of scripts never passes one.
- `ShowScripts` also draws a button per script. That part is UI and is not
  modelled.
- A `null` script text, a `null` type in the list, and a cyclic base-type
  chain are not modelled. The asset database and the runtime do not produce
  them.
- `Overview.CodeOverview.ReadScripts`, `Overview.CodeOverview.ScanScript`
  and `Overview.CodeOverview.CountTypes` are parts of `ScanProjectScripts`,
  split out so that each is proved on its own. The source has them inline.
