/**
 * The source scanner: walks every source file line by line and records,
 * per category, each capture of the class pattern and of the three literal
 * patterns together with the file and the 1-based line it came from.
 */
module SourceScanning {
  import opened Text
  import opened Patterns

  /** A source file as the scanner sees it: its path and its lines, in order. */
  datatype SourceFile = SourceFile(path: Path, lines: seq<string>)

  /** One capture in the source: `{:file, :line, :id}` or `{:file, :line, :class_name}`. */
  datatype SourceOccurrence = SourceOccurrence(file: Path, line: nat, text: string)

  /** What the glob returns for a snapshot: the files' paths, in order. */
  function Paths(files: seq<SourceFile>): seq<Path>
  {
    Strings(files, (f: SourceFile) => f.path)
  }

  /**
   * What one category takes from a line: the captures of its pattern. The
   * functions below are stated for any such extraction, so that what they
   * say about files and lines does not depend on how a line is matched.
   */
  type Extraction = string -> seq<string>

  function ClassNameCaptures(line: string): seq<string> { Captures(ClassRegex, line) }
  function SegueIdCaptures(line: string): seq<string> { Captures(SegueIdRegex, line) }
  function StoryboardIdCaptures(line: string): seq<string> { Captures(StoryboardIdRegex, line) }
  function ReuseIdCaptures(line: string): seq<string> { Captures(ReuseIdRegex, line) }

  /** Every capture on one line, tagged with the file and line number. */
  function LineOccurrences(p: Extraction, file: Path, lineNo: nat, line: string): seq<SourceOccurrence>
  {
    var caps := p(line);
    seq(|caps|, k requires 0 <= k < |caps| => SourceOccurrence(file, lineNo, caps[k]))
  }

  /** The occurrences on the lines of one file, line after line. */
  function FileOccurrences(p: Extraction, file: Path, lines: seq<string>): seq<SourceOccurrence>
  {
    if |lines| == 0 then []
    else FileOccurrences(p, file, lines[..|lines| - 1]) + LineOccurrences(p, file, |lines|, lines[|lines| - 1])
  }

  /** The occurrences in a sequence of files, file after file. */
  function Occurrences(p: Extraction, files: seq<SourceFile>): seq<SourceOccurrence>
  {
    if |files| == 0 then []
    else Occurrences(p, files[..|files| - 1]) + FileOccurrences(p, files[|files| - 1].path, files[|files| - 1].lines)
  }

  /**
   * One more line scanned appends that line's occurrences (to a list that
   * already held something `before` the file).
   */
  lemma FileOccurrencesStep(p: Extraction, before: seq<SourceOccurrence>, file: Path, lines: seq<string>, idx: nat)
    requires idx < |lines|
    ensures (before + FileOccurrences(p, file, lines[..idx])) + LineOccurrences(p, file, idx + 1, lines[idx])
      == before + FileOccurrences(p, file, lines[..idx + 1])
  {
    assert lines[..idx + 1][..idx] == lines[..idx];
  }

  /** One more file scanned appends that file's occurrences. */
  lemma OccurrencesStep(p: Extraction, files: seq<SourceFile>, i: nat)
    requires i < |files|
    ensures Occurrences(p, files[..i + 1])
      == Occurrences(p, files[..i]) + FileOccurrences(p, files[i].path, files[i].lines)
  {
    assert files[..i + 1][..i] == files[..i];
  }

  // ---------------------------------------------------------------------
  // Provenance and order
  // ---------------------------------------------------------------------

  /** Occurrence `o` is capture number `k` of line `o.line` of file number `i`. */
  ghost predicate CameFrom(p: Extraction, files: seq<SourceFile>, o: SourceOccurrence, i: nat, k: nat)
  {
    i < |files| && files[i].path == o.file
    && 1 <= o.line <= |files[i].lines|
    && k < |p(files[i].lines[o.line - 1])|
    && o.text == p(files[i].lines[o.line - 1])[k]
  }

  /** The lines of a file scanned as two parts are the occurrences of each part, in order. */
  lemma {:induction false} FileOccurrencesAppend(p: Extraction, file: Path, a: seq<string>, b: seq<string>)
    ensures FileOccurrences(p, file, a + b) == FileOccurrences(p, file, a) + Offset(p, file, |a|, b)
    decreases |b|
  {
    if |b| == 0 {
      assert a + b == a;
    } else {
      var b', ab := b[..|b| - 1], a + b;
      assert ab[..|ab| - 1] == a + b';
      assert ab[|ab| - 1] == b[|b| - 1] && |ab| == |a| + |b|;
      var last := LineOccurrences(p, file, |a| + |b|, b[|b| - 1]);
      assert FileOccurrences(p, file, ab) == FileOccurrences(p, file, a + b') + last;
      FileOccurrencesAppend(p, file, a, b');
      assert Offset(p, file, |a|, b) == Offset(p, file, |a|, b') + last;
    }
  }

  /** The occurrences of lines `b` when they are numbered from `base + 1`. */
  function Offset(p: Extraction, file: Path, base: nat, b: seq<string>): seq<SourceOccurrence>
  {
    if |b| == 0 then []
    else Offset(p, file, base, b[..|b| - 1]) + LineOccurrences(p, file, base + |b|, b[|b| - 1])
  }

  /**
   * Files visited in two groups give the first group's occurrences, then the
   * second's: the lists are ordered by the order in which files are visited.
   */
  lemma {:induction false} OccurrencesAppend(p: Extraction, a: seq<SourceFile>, b: seq<SourceFile>)
    ensures Occurrences(p, a + b) == Occurrences(p, a) + Occurrences(p, b)
    decreases |b|
  {
    if |b| == 0 {
      assert a + b == a;
    } else {
      var b', ab := b[..|b| - 1], a + b;
      assert ab[..|ab| - 1] == a + b' && ab[|ab| - 1] == b[|b| - 1];
      var last := FileOccurrences(p, b[|b| - 1].path, b[|b| - 1].lines);
      assert Occurrences(p, ab) == Occurrences(p, a + b') + last;
      OccurrencesAppend(p, a, b');
      assert Occurrences(p, b) == Occurrences(p, b') + last;
    }
  }

  /**
   * Every recorded occurrence came from a file that was visited, carries that
   * file's path and a line number between 1 and the number of lines, and its
   * text is a capture of the pattern on that line.
   */
  lemma {:induction false} OccurrenceProvenance(p: Extraction, files: seq<SourceFile>, n: nat) returns (i: nat, k: nat)
    requires n < |Occurrences(p, files)|
    ensures CameFrom(p, files, Occurrences(p, files)[n], i, k)
    decreases |files|
  {
    var init := files[..|files| - 1];
    var last := files[|files| - 1];
    var o := Occurrences(p, files)[n];
    if n < |Occurrences(p, init)| {
      assert o == Occurrences(p, init)[n];
      i, k := OccurrenceProvenance(p, init, n);
    } else {
      i := |files| - 1;
      k := LineProvenance(p, last.path, last.lines, n - |Occurrences(p, init)|);
    }
  }

  lemma {:induction false} LineProvenance(p: Extraction, file: Path, lines: seq<string>, n: nat) returns (k: nat)
    requires n < |FileOccurrences(p, file, lines)|
    ensures var o := FileOccurrences(p, file, lines)[n];
      && o.file == file && 1 <= o.line <= |lines|
      && k < |p(lines[o.line - 1])| && o.text == p(lines[o.line - 1])[k]
    decreases |lines|
  {
    var init := lines[..|lines| - 1];
    var before := FileOccurrences(p, file, init);
    if n < |before| {
      assert FileOccurrences(p, file, lines)[n] == before[n];
      k := LineProvenance(p, file, init, n);
      assert lines[FileOccurrences(p, file, lines)[n].line - 1] == init[before[n].line - 1];
    } else {
      k := n - |before|;
    }
  }

  /**
   * Conversely, every capture on every line of every visited file is
   * recorded, with that file and line.
   */
  lemma {:induction false} OccurrenceComplete(p: Extraction, files: seq<SourceFile>, i: nat, l: nat, k: nat)
    requires i < |files| && l < |files[i].lines| && k < |p(files[i].lines[l])|
    ensures SourceOccurrence(files[i].path, l + 1, p(files[i].lines[l])[k]) in Occurrences(p, files)
    decreases |files|
  {
    var init := files[..|files| - 1];
    if i < |files| - 1 {
      OccurrenceComplete(p, init, i, l, k);
    } else {
      LineComplete(p, files[i].path, files[i].lines, l, k);
    }
  }

  lemma {:induction false} LineComplete(p: Extraction, file: Path, lines: seq<string>, l: nat, k: nat)
    requires l < |lines| && k < |p(lines[l])|
    ensures SourceOccurrence(file, l + 1, p(lines[l])[k]) in FileOccurrences(p, file, lines)
    decreases |lines|
  {
    var init := lines[..|lines| - 1];
    if l < |lines| - 1 {
      LineComplete(p, file, init, l, k);
    } else {
      assert LineOccurrences(p, file, |lines|, lines[l])[k] == SourceOccurrence(file, l + 1, p(lines[l])[k]);
    }
  }

  // ---------------------------------------------------------------------
  // The scanner object
  // ---------------------------------------------------------------------

  /**
   * `StoryboardLint::SourceScanner`. The file system under `srcRoot` is the
   * snapshot `tree`: the `*.{h,c,m,mm}` files the glob finds, in the order it
   * returns them, each with its lines. Finding the files and scanning them
   * happen on first use and are cached.
   */
  class SourceScanner {
    const srcRoot: Path
    const tree: seq<SourceFile>

    var sourceFiles: Option<seq<Path>>   // @source_files
    var scanPerformed: bool              // @scan_performed
    var classNames: seq<SourceOccurrence>
    var segueIds: seq<SourceOccurrence>
    var storyboardIds: seq<SourceOccurrence>
    var reuseIds: seq<SourceOccurrence>

    /** How many times the glob and the scan have run on this scanner. */
    ghost var globs: nat
    ghost var scans: nat

    ghost predicate Valid()
      reads this
    {
      (sourceFiles.Some? <==> globs == 1) && globs <= 1
      && (sourceFiles.Some? ==> sourceFiles.value == Paths(tree))
      && (scanPerformed <==> scans == 1) && scans <= 1
      && (scanPerformed ==> sourceFiles.Some?)
      && (scanPerformed ==>
            classNames == Occurrences(ClassNameCaptures, tree)
            && segueIds == Occurrences(SegueIdCaptures, tree)
            && storyboardIds == Occurrences(StoryboardIdCaptures, tree)
            && reuseIds == Occurrences(ReuseIdCaptures, tree))
    }

    constructor (srcRoot: Path, tree: seq<SourceFile>)
      ensures Valid() && this.srcRoot == srcRoot && this.tree == tree
      ensures sourceFiles.None? && !scanPerformed && globs == 0 && scans == 0
    {
      this.srcRoot := srcRoot;
      this.tree := tree;
      sourceFiles := None;
      scanPerformed := false;
      classNames, segueIds, storyboardIds, reuseIds := [], [], [], [];
      globs, scans := 0, 0;
    }

    /** `source_files`: the glob's result, computed once and then returned from the cache. */
    method SourceFiles() returns (files: seq<Path>)
      requires Valid()
      modifies this`sourceFiles, this`globs
      ensures Valid()
      ensures files == Paths(tree) && sourceFiles == Some(files)
      ensures globs == 1 && (old(sourceFiles).Some? ==> globs == old(globs))
    {
      if sourceFiles.Some? {
        return sourceFiles.value;
      }
      files := Paths(tree);
      sourceFiles := Some(files);
      globs := globs + 1;
    }

    /**
     * `scan_files`: on the first call, reads every source file and appends
     * each line's captures to the four lists; later calls change nothing.
     */
    method ScanFiles()
      requires Valid()
      modifies this
      ensures Valid() && scanPerformed && scans == 1
      ensures old(scanPerformed) ==>
        classNames == old(classNames) && segueIds == old(segueIds)
        && storyboardIds == old(storyboardIds) && reuseIds == old(reuseIds)
        && sourceFiles == old(sourceFiles) && globs == old(globs)
      ensures classNames == Occurrences(ClassNameCaptures, tree)
      ensures segueIds == Occurrences(SegueIdCaptures, tree)
      ensures storyboardIds == Occurrences(StoryboardIdCaptures, tree)
      ensures reuseIds == Occurrences(ReuseIdCaptures, tree)
    {
      if scanPerformed {
        return;
      }
      classNames, segueIds, storyboardIds, reuseIds := [], [], [], [];
      var files := SourceFiles();
      var i := 0;
      while i < |files|
        invariant 0 <= i <= |files| == |tree|
        invariant files == Paths(tree) && sourceFiles == Some(files) && globs == 1 && scans == 0
        invariant !scanPerformed
        invariant classNames == Occurrences(ClassNameCaptures, tree[..i])
        invariant segueIds == Occurrences(SegueIdCaptures, tree[..i])
        invariant storyboardIds == Occurrences(StoryboardIdCaptures, tree[..i])
        invariant reuseIds == Occurrences(ReuseIdCaptures, tree[..i])
      {
        ScanFile(files[i], tree[i].lines);  // File.readlines(source_file)
        OccurrencesStep(ClassNameCaptures, tree, i);
        OccurrencesStep(SegueIdCaptures, tree, i);
        OccurrencesStep(StoryboardIdCaptures, tree, i);
        OccurrencesStep(ReuseIdCaptures, tree, i);
        i := i + 1;
      }
      assert tree[..i] == tree;
      scanPerformed := true;
      scans := scans + 1;
    }

    /** The body of the loop over files: every line of one file, in order. */
    method ScanFile(sourceFile: Path, lines: seq<string>)
      modifies this`classNames, this`segueIds, this`storyboardIds, this`reuseIds
      ensures classNames == old(classNames) + FileOccurrences(ClassNameCaptures, sourceFile, lines)
      ensures segueIds == old(segueIds) + FileOccurrences(SegueIdCaptures, sourceFile, lines)
      ensures storyboardIds == old(storyboardIds) + FileOccurrences(StoryboardIdCaptures, sourceFile, lines)
      ensures reuseIds == old(reuseIds) + FileOccurrences(ReuseIdCaptures, sourceFile, lines)
    {
      var idx := 0;
      while idx < |lines|
        invariant 0 <= idx <= |lines|
        invariant classNames == old(classNames) + FileOccurrences(ClassNameCaptures, sourceFile, lines[..idx])
        invariant segueIds == old(segueIds) + FileOccurrences(SegueIdCaptures, sourceFile, lines[..idx])
        invariant storyboardIds == old(storyboardIds) + FileOccurrences(StoryboardIdCaptures, sourceFile, lines[..idx])
        invariant reuseIds == old(reuseIds) + FileOccurrences(ReuseIdCaptures, sourceFile, lines[..idx])
      {
        ScanLine(sourceFile, idx + 1, lines[idx]);
        FileOccurrencesStep(ClassNameCaptures, old(classNames), sourceFile, lines, idx);
        FileOccurrencesStep(SegueIdCaptures, old(segueIds), sourceFile, lines, idx);
        FileOccurrencesStep(StoryboardIdCaptures, old(storyboardIds), sourceFile, lines, idx);
        FileOccurrencesStep(ReuseIdCaptures, old(reuseIds), sourceFile, lines, idx);
        idx := idx + 1;
      }
      assert lines[..idx] == lines;
    }

    /** The body of the loop over lines: each of the four scans of one line. */
    method ScanLine(sourceFile: Path, lineNo: nat, line: string)
      modifies this`classNames, this`segueIds, this`storyboardIds, this`reuseIds
      ensures classNames == old(classNames) + LineOccurrences(ClassNameCaptures, sourceFile, lineNo, line)
      ensures segueIds == old(segueIds) + LineOccurrences(SegueIdCaptures, sourceFile, lineNo, line)
      ensures storyboardIds == old(storyboardIds) + LineOccurrences(StoryboardIdCaptures, sourceFile, lineNo, line)
      ensures reuseIds == old(reuseIds) + LineOccurrences(ReuseIdCaptures, sourceFile, lineNo, line)
    {
      classNames := classNames + LineOccurrences(ClassNameCaptures, sourceFile, lineNo, line);
      segueIds := segueIds + LineOccurrences(SegueIdCaptures, sourceFile, lineNo, line);
      storyboardIds := storyboardIds + LineOccurrences(StoryboardIdCaptures, sourceFile, lineNo, line);
      reuseIds := reuseIds + LineOccurrences(ReuseIdCaptures, sourceFile, lineNo, line);
    }

    method ClassNames() returns (r: seq<SourceOccurrence>)
      requires Valid()
      modifies this
      ensures Valid() && scanPerformed && r == classNames
      ensures r == Occurrences(ClassNameCaptures, tree)
    {
      ScanFiles();
      r := classNames;
    }

    method SegueIds() returns (r: seq<SourceOccurrence>)
      requires Valid()
      modifies this
      ensures Valid() && scanPerformed && r == segueIds
      ensures r == Occurrences(SegueIdCaptures, tree)
    {
      ScanFiles();
      r := segueIds;
    }

    method StoryboardIds() returns (r: seq<SourceOccurrence>)
      requires Valid()
      modifies this
      ensures Valid() && scanPerformed && r == storyboardIds
      ensures r == Occurrences(StoryboardIdCaptures, tree)
    {
      ScanFiles();
      r := storyboardIds;
    }

    method ReuseIds() returns (r: seq<SourceOccurrence>)
      requires Valid()
      modifies this
      ensures Valid() && scanPerformed && r == reuseIds
      ensures r == Occurrences(ReuseIdCaptures, tree)
    {
      ScanFiles();
      r := reuseIds;
    }
  }

  /**
   * What callers can rely on: asking twice gives the same list, and the
   * files are globbed and scanned once however many accessors are called.
   */
  method RepeatedAccess(scanner: SourceScanner) returns (first: seq<SourceOccurrence>, second: seq<SourceOccurrence>)
    requires scanner.Valid()
    modifies scanner
    ensures first == second
    ensures scanner.scans == 1 && scanner.globs == 1
  {
    first := scanner.SegueIds();
    var names := scanner.ClassNames();
    var files := scanner.SourceFiles();
    second := scanner.SegueIds();
  }
}
