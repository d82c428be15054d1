# StoryboardLint in Dafny

StoryboardLint checks an iOS project's storyboards against its
Objective-C sources. It has three parts:

- **The storyboard scanner** collects what each storyboard declares: segue
  identifiers, storyboard identifiers, reuse identifiers and custom class names.
- **The source scanner** collects the `@interface` class names and the
  `@"seg_…"`, `@"sb_…"` and `@"ruid_…"` string literals of every `.h`, `.c`,
  `.m` and `.mm` file, each with its file and line number.
- **The linter** reports three kinds of problem:
  - identifiers in storyboards that break the naming convention (warning);
  - custom classes that no source file declares (error);
  - identifiers used in source that no storyboard declares (warning).

The project models these three classes of `lib/storyboardlint.rb` and proves
what their results mean.

- `text.dfy` (module `Text`) holds the character classes of the patterns,
  `StartsWith`, and `File.basename` on the paths the scanners produce.
- `patterns.dfy` (module `Patterns`) holds the four regular expressions of
  the source scanner and Ruby's `String#scan`:
  - what a match at one position is: the class pattern's maximal word run, and
    the literal pattern's greedy body that closes at the right quote;
  - leftmost, non-overlapping scanning;
  - proofs that a scan returns only matches, misses none, and yields captures
    of the stated shape;
  - the pattern examples of the repository's tests as lemmas.
- `source_scanner.dfy` (module `SourceScanning`) holds the four occurrence
  lists as functions of the file snapshot, with provenance and completeness
  lemmas. It also holds the class `SourceScanner`, whose cached glob and
  one-shot scan are methods that update its fields. A loop over the files and,
  inside it, a loop over each file's lines are proved equal to those
  functions. Each line's captures are appended in one step (`ScanLine`).
- `storyboard_scanner.dfy` (module `StoryboardScanning`) does the same for
  storyboards. A parsed storyboard is its sequence of elements, and each
  XPath query is a filter over it.
- `linter.dfy` (module `Linting`) holds the linter. Its findings are data:
  severity, problem, subject, file, optional line. The three checks are
  specification functions, and each has a loop method proved against it.
  `Linter.Lint` returns the findings of all three checks in the source's
  order.

Some functions only define a value and carry no promise of their own:
- `Patterns.Captures` (`line.scan(regex)` with the group of each match taken);
- `SourceScanning.LineOccurrences` (one line's captures tagged with file and line);
- the two modules' `Paths` (the glob's result for a snapshot);
- `Linting.ClassNames` and `Linting.DeclaredIds` (the `map` to names at
  lib/storyboardlint.rb:177, 185, 191 and 197).

The last four are all `Text.Strings`, the one projection the model defines.
What these definitions mean is stated by the lemmas in the table below.

## Model

| member | source | states |
|---|---|---|
| Text.Basename | lib/storyboardlint.rb:158 | the basename is a suffix of the path without `/`, preceded by a `/` when shorter than the path |
| Text.BasenameAfterSlash | lib/storyboardlint.rb:158 | the basename of `dir/name` is `name` |
| Patterns.ClassMatchAtCorrect | lib/storyboardlint.rb:70 | the class pattern matches at a position exactly when `@interface`, at least one white-space character and an identifier start there; the capture is the whole word run |
| Patterns.ClosingCorrect | lib/storyboardlint.rb:71-73 | a literal body closes at its first bare quote, or at the last quote of the line when there is no bare quote; no quote means no match |
| Patterns.LiteralMatchAtCorrect | lib/storyboardlint.rb:71-73 | the literal pattern matches at a position exactly when `@"`, the prefix and a longest legal body followed by `"` start there; otherwise no match starts there |
| Patterns.MatchAtCorrect | lib/storyboardlint.rb:70-73 | the matcher of each of the four patterns finds exactly the match the pattern defines at a position, or reports none |
| Patterns.MatchTableAt | lib/storyboardlint.rb:97 | the table of attempts holds, at each position, the attempt at that position |
| Patterns.ScanFrom | lib/storyboardlint.rb:97 | hits come in increasing order, do not overlap and lie at or after the start |
| Patterns.ScanSound | lib/storyboardlint.rb:97-114 | every hit of a scan is the pattern's match at its start |
| Patterns.ScanMissesNothing | lib/storyboardlint.rb:97-114 | every position of the table that holds a match lies inside some hit of the scan from an earlier position |
| Patterns.ScanIsComplete | lib/storyboardlint.rb:97-114 | every position of the line where a match starts lies inside some hit: a match is skipped only inside an earlier hit |
| Patterns.ScanEmptyWithoutMatch | lib/storyboardlint.rb:97-114 | a scan over positions where no match starts yields no hits |
| Patterns.CapturesAreGroups | lib/storyboardlint.rb:97-98 | the captures of a line are, left to right and without overlap, the groups of matches of the pattern, and every match of the pattern on the line lies inside one of them |
| Patterns.NoAtNoHits | lib/storyboardlint.rb:70-73 | a stretch of line without `@` yields no hits for any of the four patterns |
| Patterns.MatchStartsWithAt | lib/storyboardlint.rb:70-73 | every match starts with `@` |
| Patterns.ClassCaptureShape | lib/storyboardlint.rb:97-98 | every captured class name is non-empty, starts with a letter or `_` and holds only word characters |
| Patterns.LiteralCaptureShape | lib/storyboardlint.rb:71-73 | every captured id starts with its prefix, is longer than it, and holds no bare quote |
| Patterns.ClassMatchIs | lib/storyboardlint.rb:70 | any class match the pattern defines is the one the matcher finds at its position |
| Patterns.LiteralMatchIs | lib/storyboardlint.rb:71-73 | any literal match the pattern defines is the one the matcher finds at its position |
| Patterns.ClassExample | lib/storyboardlint.rb:97-98 | `@interface`, one space and a name, not followed by a word character and with no later `@`, yield exactly that name |
| Patterns.ClassPatternExamples | spec/matcher_spec.rb:12 | `@interface Test` yields `Test` |
| Patterns.ClassPatternLongName | spec/matcher_spec.rb:13 | `@interface Test_1234__ClassNAME` yields the whole name |
| Patterns.ClassPatternRejectsPlainWord | spec/matcher_spec.rb:11 | `Test` yields nothing |
| Patterns.ClassPatternRejectsProtocol | spec/matcher_spec.rb:14 | `@protocol Test` yields nothing |
| Patterns.ClassPatternRejectsMissingSpace | spec/matcher_spec.rb:15 | `@interface@TEST.com` yields nothing |
| Patterns.NoFirstMatch | lib/storyboardlint.rb:70 | a line that starts with `@` but not with `@interface` and white space, and whose other `@` signs lie too close to its end to begin `@interface`, yields nothing |
| Patterns.ClassPatternFixtureLine | spec/fixtures/StoryboardLintTest/StoryboardLintTest/SPWKDetailViewController.h:11 | the fixture's declaration line yields exactly `SPWKDetailViewController`, not the superclass |
| Patterns.DeclarationLine | lib/storyboardlint.rb:70 | a declaration `@interface Name` followed by text that does not continue the name yields exactly `Name` |
| Patterns.LiteralExample | lib/storyboardlint.rb:71-73 | `@"` + id + `"` with no quote in the id yields the id |
| Patterns.StoryboardLiteralExample | spec/matcher_spec.rb:24-29 | `@"sb_test"` yields `sb_test` |
| Patterns.SegueLiteralExample | spec/matcher_spec.rb:37-42 | `@"seg_test"` yields `seg_test` |
| Patterns.ReuseLiteralExample | spec/matcher_spec.rb:50-55 | `@"ruid_test"` yields `ruid_test` |
| Patterns.BareIdExamples | spec/matcher_spec.rb:24-54 | `test`, `sb_test`, `seg_test` and `ruid_test` without `@"…"` yield nothing |
| Patterns.EscapedQuoteExample | lib/storyboardlint.rb:71 | an escaped quote `\"` stays inside the literal |
| Patterns.UnterminatedLiteralExample | lib/storyboardlint.rb:71 | with no bare quote left on the line, the literal closes at its last escaped quote and the backslash ends the capture |
| SourceScanning.FileOccurrencesAppend | lib/storyboardlint.rb:95 | a file's occurrences are those of its first lines followed by those of the rest, with line numbers shifted |
| SourceScanning.OccurrencesAppend | lib/storyboardlint.rb:94 | the occurrences of two runs of files are the first run's followed by the second's |
| SourceScanning.OccurrenceProvenance | lib/storyboardlint.rb:94-115 | every occurrence is a capture of some line of some file, with that file's path and the 1-based line number |
| SourceScanning.LineProvenance | lib/storyboardlint.rb:95-114 | every occurrence of a file is a capture of one of its lines |
| SourceScanning.OccurrenceComplete | lib/storyboardlint.rb:94-115 | every capture of every line of every file is in the list |
| SourceScanning.LineComplete | lib/storyboardlint.rb:95-114 | every capture of every line of a file is among the file's occurrences |
| SourceScanning.SourceScanner.constructor | lib/storyboardlint.rb:75-78 | a new scanner has not globbed or scanned |
| SourceScanning.SourceScanner.SourceFiles | lib/storyboardlint.rb:80-85 | returns the glob's files; globs at most once |
| SourceScanning.SourceScanner.ScanFiles | lib/storyboardlint.rb:87-120 | after the call the four lists are the occurrences of the snapshot; a second call changes nothing |
| SourceScanning.SourceScanner.ScanFile | lib/storyboardlint.rb:94-116 | appends one file's occurrences to each list |
| SourceScanning.SourceScanner.ScanLine | lib/storyboardlint.rb:96-114 | appends one line's occurrences to each list |
| SourceScanning.SourceScanner.ClassNames | lib/storyboardlint.rb:122-125 | scans once, then returns the class names of all files |
| SourceScanning.SourceScanner.SegueIds | lib/storyboardlint.rb:127-130 | scans once, then returns the segue ids of all files |
| SourceScanning.SourceScanner.StoryboardIds | lib/storyboardlint.rb:132-135 | scans once, then returns the storyboard ids of all files |
| SourceScanning.SourceScanner.ReuseIds | lib/storyboardlint.rb:137-140 | scans once, then returns the reuse ids of all files |
| SourceScanning.RepeatedAccess | lib/storyboardlint.rb:122-140 | repeated accessor calls return the same list and glob and scan once |
| StoryboardScanning.DocumentCount | lib/storyboardlint.rb:34-41 | a document yields one occurrence per element the query selects |
| StoryboardScanning.DocumentProvenance | lib/storyboardlint.rb:34-41 | every occurrence of a document is selected by the query from one of its elements |
| StoryboardScanning.DocumentComplete | lib/storyboardlint.rb:34-41 | every element the query selects yields an occurrence |
| StoryboardScanning.OccurrencesAppend | lib/storyboardlint.rb:31 | the occurrences of two runs of storyboards are the first run's followed by the second's |
| StoryboardScanning.OccurrenceProvenance | lib/storyboardlint.rb:31-42 | every occurrence comes from a selected element of some storyboard and carries its path |
| StoryboardScanning.OccurrenceComplete | lib/storyboardlint.rb:31-42 | every selected element of every storyboard is in the list |
| StoryboardScanning.StoryboardScanner.constructor | lib/storyboardlint.rb:12-15 | a new scanner has not globbed or scanned |
| StoryboardScanning.StoryboardScanner.StoryboardFiles | lib/storyboardlint.rb:17-22 | returns the glob's storyboards; globs at most once |
| StoryboardScanning.StoryboardScanner.ScanFiles | lib/storyboardlint.rb:24-46 | after the call the four lists are the occurrences of the snapshot; a second call changes nothing |
| StoryboardScanning.StoryboardScanner.ScanSegues | lib/storyboardlint.rb:34-37 | appends the identifiers of the document's segues that have one |
| StoryboardScanning.StoryboardScanner.SegueIds | lib/storyboardlint.rb:48-51 | scans once, then returns the segue ids of all storyboards |
| StoryboardScanning.StoryboardScanner.StoryboardIds | lib/storyboardlint.rb:53-56 | scans once, then returns the storyboard ids |
| StoryboardScanning.StoryboardScanner.ReuseIds | lib/storyboardlint.rb:58-61 | scans once, then returns the reuse ids |
| StoryboardScanning.StoryboardScanner.CustomClassNames | lib/storyboardlint.rb:63-66 | scans once, then returns the custom class names |
| StoryboardScanning.RepeatedAccess | lib/storyboardlint.rb:48-66 | repeated accessor calls return the same list and glob and parse once |
| Linting.ReportCount | lib/storyboardlint.rb:156-159 | a check reports once per flagged item |
| Linting.ReportMembership | lib/storyboardlint.rb:156-159 | a finding is reported exactly when some flagged item produces it |
| Linting.ReportAppend | lib/storyboardlint.rb:156-159 | reports of a concatenation are the reports of the parts in order |
| Linting.ReportAll | lib/storyboardlint.rb:156-159 | when every item is flagged, the report is one finding per item, in order |
| Linting.ReportMonotone | lib/storyboardlint.rb:156-159 | a stricter test reports no more findings |
| Linting.ReportNone | lib/storyboardlint.rb:156-159 | when no item is flagged, nothing is reported |
| Linting.EndAnchoredFrom | lib/storyboardlint.rb:157 | `/$prefix/` matches from a position exactly when some line end at or after it is followed by the prefix |
| Linting.EndAnchoredNeverMatches | lib/storyboardlint.rb:157-169 | `/$seg_/`, `/$sb_/` and `/$ruid_/` never match any id |
| Linting.NamingWarnsEveryId | lib/storyboardlint.rb:155-173 | the naming check as written warns about every id of the category, in order, naming the id and the file's basename |
| Linting.NamingCheckCount | lib/storyboardlint.rb:155-173 | the naming check as written yields one warning per storyboard id of the three categories |
| Linting.NamingCounterexample | lib/storyboardlint.rb:157-158 | the conforming segue id `seg_test` in `ui/Main.storyboard` is still reported |
| Linting.IntendedNamingWarnsExactly | lib/storyboardlint.rb:158 | the corrected check warns about exactly the ids that do not start with the prefix, once each |
| Linting.IntendedNamingQuietOnPrefixedIds | lib/storyboardlint.rb:158 | the corrected check reports nothing when every id carries the prefix |
| Linting.IntendedNamingWithinAsWritten | lib/storyboardlint.rb:155-173 | every warning of the corrected check is also a warning of the check as written |
| Linting.CustomClassesReportedExactly | lib/storyboardlint.rb:175-181 | an error is reported for exactly the custom classes no source declares, once per use |
| Linting.CustomClassesInOrder | lib/storyboardlint.rb:176 | errors follow the storyboards' order of use |
| Linting.MissingClassReportedTwice | lib/storyboardlint.rb:176-178 | a missing class used twice is reported twice |
| Linting.IdsReportedExactly | lib/storyboardlint.rb:183-201 | a warning, with file and line, for exactly the source ids no storyboard declares, once per use |
| Linting.MoreDeclaredFewerWarnings | lib/storyboardlint.rb:183-201 | declaring more ids in storyboards never adds warnings |
| Linting.AllDeclaredNoWarnings | lib/storyboardlint.rb:183-201 | when every used id is declared, nothing is reported |
| Linting.CheckNamingOf | lib/storyboardlint.rb:156-160 | the loop over one category yields the naming check's findings |
| Linting.CheckCustomClassesOf | lib/storyboardlint.rb:176-180 | the loop over the custom classes yields the custom-class check's findings |
| Linting.CheckIdsOf | lib/storyboardlint.rb:184-188 | the loop over one category's source ids yields the id check's findings |
| Linting.Linter.constructor | lib/storyboardlint.rb:144-147 | the linter holds the two scanners it is given |
| Linting.Linter.Lint | lib/storyboardlint.rb:149-153 | the findings are the naming, custom-class and id findings of the two snapshots, in that order; afterwards both scanners have scanned |
| Linting.Linter.CheckNaming | lib/storyboardlint.rb:155-173 | segue, then storyboard, then reuse id naming findings of the storyboards; afterwards the storyboard scanner has scanned |
| Linting.Linter.CheckCustomClasses | lib/storyboardlint.rb:175-181 | the custom-class findings of the storyboards against the sources' class names; afterwards the storyboard scanner has scanned, and a source scanner that had scanned still has |
| Linting.Linter.CheckIds | lib/storyboardlint.rb:183-201 | segue, then storyboard, then reuse id findings of the sources against the storyboards; afterwards the source scanner has scanned, and a storyboard scanner that had scanned still has |

## Left out

- File system: `Dir.glob` and `File.readlines`/`File.open` are not modelled.
  - Each scanner is given a snapshot `tree` of the files the glob would find, in its order.
  - Each source file is its sequence of lines; each storyboard is already parsed.
  - The glob patterns, the file system's order and read errors are outside the model.
- XML: Nokogiri's parser and XPath engine are not modelled.
  - A storyboard is its elements in document order, with attribute values as strings.
  - Malformed XML and namespaces are outside the model.
- Output: the warnings and errors are `Finding` values (severity, problem, subject, file, line).
  - The wording of the `puts` lines is not modelled.
  - Neither is the moment each line is printed: all findings are returned together, in print order.
- `Linter.run!` (lib/storyboardlint.rb:203-220) is not part of this model. It prints a banner, reads the command line and exits.
- Regular expressions: only the four patterns of the source scanner and the naming check's `/$prefix/` are modelled, on ASCII `\s` and `\w`.
  - Lines that are not valid in their encoding, which make Ruby's `scan` raise, are outside the model.
- Text.Basename: does not model `File.basename` on a path that ends in `/`. Ruby strips trailing slashes first; the model returns the empty string. The scanners never produce such paths.
- Linting.Linter.Lint: the scanners' lists are re-read on each of the linter's calls in the source. The model reads each list once per check, which the scanners' caching makes equivalent (see `RepeatedAccess`).
- Linting.Linter.CheckCustomClasses: the source asks for `class_names` inside its loop (lib/storyboardlint.rb:177), so with no custom classes the source files are never scanned. The model fetches the list once before the loop and so always scans them. The findings are the same.
- Linting.Linter.CheckIds: the source asks for the storyboard lists inside its loops (lib/storyboardlint.rb:185, 191, 197). The model fetches each list before its loop, so it parses the storyboards even when no source id is used. The findings are the same.
- A `Matcher` class, built from options that set custom id prefixes or suffixes, is exercised by the repository's later tests. It is not part of this model. Its tests are used only where they test the same default-prefix patterns.

## Findings

| source | as written | input that shows it | evidently intended | confidence | as-written member | corrected member |
|---|---|---|---|---|---|---|
| lib/storyboardlint.rb:157 (also 163, 169) | `seg_id[:id] !~ /$seg_/`: `$` matches only at a line end, and no `s` follows a line end, so the test never matches and every id is reported | segue id `seg_test` in `ui/Main.storyboard` is reported as not starting with `seg_` | `/^seg_/`: warn only when the id does not start with the prefix, as the warning's text says | not executed; high | Linting.NamingCounterexample | Linting.IntendedNamingWarnsExactly |

The linter (`Linting.Linter.Lint`) keeps the check as written, because it
models what the program prints. `Linting.IntendedNamingFindings` is the
corrected check. `Linting.IntendedNamingWithinAsWritten` relates the two:
the corrected check reports a subset of what the check as written reports.
