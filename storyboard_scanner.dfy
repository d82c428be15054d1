/**
 * The storyboard scanner: visits every storyboard and collects, per
 * category, the segue identifiers, storyboard identifiers, reuse
 * identifiers and custom class names it declares, each with its file.
 *
 * A storyboard is taken as already parsed: the sequence of its elements in
 * document order, each with its tag name and its attributes. The XPath
 * queries `//segue` and `//@<attribute>` then become filters over that
 * sequence.
 */
module StoryboardScanning {
  import opened Text

  /** An XML element: its tag name and its attributes (an element has at most one of each name). */
  datatype Element = Element(name: string, attributes: map<string, string>)

  /** A storyboard as the scanner sees it: its path and its elements in document order. */
  datatype StoryboardFile = StoryboardFile(path: Path, document: seq<Element>)

  /** One entry of a list: `{:file, :id}` or `{:file, :class_name}`. */
  datatype StoryboardOccurrence = StoryboardOccurrence(file: Path, text: string)

  /**
   * What one category asks of a document:
   * `Segues` is `//segue` keeping the `identifier` of those that have one,
   * `AttributeValues(a)` is `//@a`, the value of every attribute named `a`.
   */
  datatype Query = Segues | AttributeValues(attribute: string)

  const SegueIdQuery := Segues
  const StoryboardIdQuery := AttributeValues("storyboardIdentifier")
  const ReuseIdQuery := AttributeValues("reuseIdentifier")
  const CustomClassQuery := AttributeValues("customClass")

  /** What an element contributes to the query's result, if anything. */
  function Selected(q: Query, e: Element): Option<string>
  {
    match q
    case Segues => if e.name == "segue" && "identifier" in e.attributes then Some(e.attributes["identifier"]) else None
    case AttributeValues(a) => if a in e.attributes then Some(e.attributes[a]) else None
  }

  /** The query's results on one document, in document order, tagged with the file. */
  function DocumentOccurrences(q: Query, file: Path, doc: seq<Element>): seq<StoryboardOccurrence>
  {
    if |doc| == 0 then []
    else
      DocumentOccurrences(q, file, doc[..|doc| - 1])
      + match Selected(q, doc[|doc| - 1])
        case Some(v) => [StoryboardOccurrence(file, v)]
        case None => []
  }

  /** The query's results on a sequence of storyboards, file after file. */
  function Occurrences(q: Query, files: seq<StoryboardFile>): seq<StoryboardOccurrence>
  {
    if |files| == 0 then []
    else Occurrences(q, files[..|files| - 1]) + DocumentOccurrences(q, files[|files| - 1].path, files[|files| - 1].document)
  }

  /** What the glob returns for a snapshot: the storyboards' paths, in order. */
  function Paths(files: seq<StoryboardFile>): seq<Path>
  {
    Strings(files, (f: StoryboardFile) => f.path)
  }

  // ---------------------------------------------------------------------
  // One entry per selected element
  // ---------------------------------------------------------------------

  /** The positions of the elements the query selects. */
  ghost function SelectedPositions(q: Query, doc: seq<Element>): set<nat>
  {
    set j: nat | j < |doc| && Selected(q, doc[j]).Some?
  }

  /**
   * A document yields exactly one entry per selected element: for segues,
   * one per `segue` element that has an `identifier` (the others are
   * skipped); for an attribute, one per element carrying it.
   */
  lemma {:induction false} DocumentCount(q: Query, file: Path, doc: seq<Element>)
    ensures |DocumentOccurrences(q, file, doc)| == |SelectedPositions(q, doc)|
    decreases |doc|
  {
    if |doc| > 0 {
      var init := doc[..|doc| - 1];
      DocumentCount(q, file, init);
      var last := |doc| - 1;
      var before, after := SelectedPositions(q, init), SelectedPositions(q, doc);
      forall j: nat ensures j in after <==> j in before || (j == last && Selected(q, doc[last]).Some?) {
        if j < last {
          assert init[j] == doc[j];
        }
      }
      if Selected(q, doc[last]).Some? {
        assert after == before + {last};
      } else {
        assert after == before;
      }
    }
  }

  /** Every entry comes from an element of the document that the query selects, and carries its value. */
  lemma {:induction false} DocumentProvenance(q: Query, file: Path, doc: seq<Element>, n: nat) returns (j: nat)
    requires n < |DocumentOccurrences(q, file, doc)|
    ensures j < |doc| && DocumentOccurrences(q, file, doc)[n].file == file
    ensures Selected(q, doc[j]) == Some(DocumentOccurrences(q, file, doc)[n].text)
    decreases |doc|
  {
    var init := doc[..|doc| - 1];
    var before := DocumentOccurrences(q, file, init);
    if n < |before| {
      assert DocumentOccurrences(q, file, doc)[n] == before[n];
      j := DocumentProvenance(q, file, init, n);
      assert init[j] == doc[j];
    } else {
      j := |doc| - 1;
    }
  }

  /** Every element the query selects has its entry. */
  lemma {:induction false} DocumentComplete(q: Query, file: Path, doc: seq<Element>, j: nat)
    requires j < |doc| && Selected(q, doc[j]).Some?
    ensures StoryboardOccurrence(file, Selected(q, doc[j]).value) in DocumentOccurrences(q, file, doc)
    decreases |doc|
  {
    var init := doc[..|doc| - 1];
    if j < |doc| - 1 {
      assert init[j] == doc[j];
      DocumentComplete(q, file, init, j);
    }
  }

  // ---------------------------------------------------------------------
  // Across files
  // ---------------------------------------------------------------------

  /** One more file scanned appends that file's entries. */
  lemma OccurrencesStep(q: Query, files: seq<StoryboardFile>, i: nat)
    requires i < |files|
    ensures Occurrences(q, files[..i + 1])
      == Occurrences(q, files[..i]) + DocumentOccurrences(q, files[i].path, files[i].document)
  {
    assert files[..i + 1][..i] == files[..i];
  }

  /** Files visited in two groups give the first group's entries, then the second's. */
  lemma {:induction false} OccurrencesAppend(q: Query, a: seq<StoryboardFile>, b: seq<StoryboardFile>)
    ensures Occurrences(q, a + b) == Occurrences(q, a) + Occurrences(q, b)
    decreases |b|
  {
    if |b| == 0 {
      assert a + b == a;
    } else {
      var b', ab := b[..|b| - 1], a + b;
      assert ab[..|ab| - 1] == a + b' && ab[|ab| - 1] == b[|b| - 1];
      var last := DocumentOccurrences(q, b[|b| - 1].path, b[|b| - 1].document);
      assert Occurrences(q, ab) == Occurrences(q, a + b') + last;
      OccurrencesAppend(q, a, b');
      assert Occurrences(q, b) == Occurrences(q, b') + last;
    }
  }

  /** Every entry is tagged with a visited file, and comes from an element of that file's document. */
  lemma {:induction false} OccurrenceProvenance(q: Query, files: seq<StoryboardFile>, n: nat) returns (i: nat, j: nat)
    requires n < |Occurrences(q, files)|
    ensures i < |files| && Occurrences(q, files)[n].file == files[i].path
    ensures j < |files[i].document| && Selected(q, files[i].document[j]) == Some(Occurrences(q, files)[n].text)
    decreases |files|
  {
    var init := files[..|files| - 1];
    var last := files[|files| - 1];
    var before := Occurrences(q, init);
    if n < |before| {
      assert Occurrences(q, files)[n] == before[n];
      i, j := OccurrenceProvenance(q, init, n);
    } else {
      i := |files| - 1;
      j := DocumentProvenance(q, last.path, last.document, n - |before|);
    }
  }

  /** Every selected element of every visited file has its entry. */
  lemma {:induction false} OccurrenceComplete(q: Query, files: seq<StoryboardFile>, i: nat, j: nat)
    requires i < |files| && j < |files[i].document| && Selected(q, files[i].document[j]).Some?
    ensures StoryboardOccurrence(files[i].path, Selected(q, files[i].document[j]).value) in Occurrences(q, files)
    decreases |files|
  {
    var init := files[..|files| - 1];
    if i < |files| - 1 {
      assert init[i] == files[i];
      OccurrenceComplete(q, init, i, j);
    } else {
      DocumentComplete(q, files[i].path, files[i].document, j);
    }
  }

  // ---------------------------------------------------------------------
  // The scanner object
  // ---------------------------------------------------------------------

  /**
   * `StoryboardLint::StoryboardScanner`. The file system under `srcRoot`
   * is the snapshot `tree`: the `*.storyboard` files the glob finds, in the
   * order it returns them, each parsed. Finding the files and scanning them
   * happen on first use and are cached.
   */
  class StoryboardScanner {
    const srcRoot: Path
    const tree: seq<StoryboardFile>

    var sbFiles: Option<seq<Path>>       // @sb_files
    var scanPerformed: bool              // @scan_performed
    var segueIds: seq<StoryboardOccurrence>
    var storyboardIds: seq<StoryboardOccurrence>
    var reuseIds: seq<StoryboardOccurrence>
    var customClassNames: seq<StoryboardOccurrence>

    /** How many times the glob and the scan have run on this scanner. */
    ghost var globs: nat
    ghost var scans: nat

    ghost predicate Valid()
      reads this
    {
      (sbFiles.Some? <==> globs == 1) && globs <= 1
      && (sbFiles.Some? ==> sbFiles.value == Paths(tree))
      && (scanPerformed <==> scans == 1) && scans <= 1
      && (scanPerformed ==> sbFiles.Some?)
      && (scanPerformed ==>
            segueIds == Occurrences(SegueIdQuery, tree)
            && storyboardIds == Occurrences(StoryboardIdQuery, tree)
            && reuseIds == Occurrences(ReuseIdQuery, tree)
            && customClassNames == Occurrences(CustomClassQuery, tree))
    }

    constructor (srcRoot: Path, tree: seq<StoryboardFile>)
      ensures Valid() && this.srcRoot == srcRoot && this.tree == tree
      ensures sbFiles.None? && !scanPerformed && globs == 0 && scans == 0
    {
      this.srcRoot := srcRoot;
      this.tree := tree;
      sbFiles := None;
      scanPerformed := false;
      segueIds, storyboardIds, reuseIds, customClassNames := [], [], [], [];
      globs, scans := 0, 0;
    }

    /** `storyboard_files`: the glob's result, computed once and then returned from the cache. */
    method StoryboardFiles() returns (files: seq<Path>)
      requires Valid()
      modifies this`sbFiles, this`globs
      ensures Valid()
      ensures files == Paths(tree) && sbFiles == Some(files)
      ensures globs == 1 && (old(sbFiles).Some? ==> globs == old(globs))
    {
      if sbFiles.Some? {
        return sbFiles.value;
      }
      files := Paths(tree);
      sbFiles := Some(files);
      globs := globs + 1;
    }

    /**
     * `scan_files`: on the first call, visits every storyboard and appends
     * its entries to the four lists; later calls change nothing.
     */
    method ScanFiles()
      requires Valid()
      modifies this
      ensures Valid() && scanPerformed && scans == 1
      ensures old(scanPerformed) ==>
        segueIds == old(segueIds) && storyboardIds == old(storyboardIds)
        && reuseIds == old(reuseIds) && customClassNames == old(customClassNames)
        && sbFiles == old(sbFiles) && globs == old(globs)
      ensures segueIds == Occurrences(SegueIdQuery, tree)
      ensures storyboardIds == Occurrences(StoryboardIdQuery, tree)
      ensures reuseIds == Occurrences(ReuseIdQuery, tree)
      ensures customClassNames == Occurrences(CustomClassQuery, tree)
    {
      if scanPerformed {
        return;
      }
      segueIds, storyboardIds, reuseIds, customClassNames := [], [], [], [];
      var files := StoryboardFiles();
      var i := 0;
      while i < |files|
        invariant 0 <= i <= |files| == |tree|
        invariant files == Paths(tree) && sbFiles == Some(files) && globs == 1 && scans == 0
        invariant !scanPerformed
        invariant segueIds == Occurrences(SegueIdQuery, tree[..i])
        invariant storyboardIds == Occurrences(StoryboardIdQuery, tree[..i])
        invariant reuseIds == Occurrences(ReuseIdQuery, tree[..i])
        invariant customClassNames == Occurrences(CustomClassQuery, tree[..i])
      {
        var sbFile := files[i];
        var doc := tree[i].document;  // Nokogiri::XML(File.open(sb_file))
        ScanSegues(sbFile, doc);
        storyboardIds := storyboardIds + DocumentOccurrences(StoryboardIdQuery, sbFile, doc);
        reuseIds := reuseIds + DocumentOccurrences(ReuseIdQuery, sbFile, doc);
        customClassNames := customClassNames + DocumentOccurrences(CustomClassQuery, sbFile, doc);
        OccurrencesStep(SegueIdQuery, tree, i);
        OccurrencesStep(StoryboardIdQuery, tree, i);
        OccurrencesStep(ReuseIdQuery, tree, i);
        OccurrencesStep(CustomClassQuery, tree, i);
        i := i + 1;
      }
      assert tree[..i] == tree;
      scanPerformed := true;
      scans := scans + 1;
    }

    /** `doc.xpath('//segue').each`: appends the identifier of every segue that has one. */
    method ScanSegues(sbFile: Path, doc: seq<Element>)
      modifies this`segueIds
      ensures segueIds == old(segueIds) + DocumentOccurrences(SegueIdQuery, sbFile, doc)
    {
      var k := 0;
      while k < |doc|
        invariant 0 <= k <= |doc|
        invariant segueIds == old(segueIds) + DocumentOccurrences(SegueIdQuery, sbFile, doc[..k])
      {
        var element := doc[k];
        assert doc[..k + 1][..k] == doc[..k];
        if element.name == "segue" && "identifier" in element.attributes {
          segueIds := segueIds + [StoryboardOccurrence(sbFile, element.attributes["identifier"])];
        }
        k := k + 1;
      }
      assert doc[..k] == doc;
    }

    method SegueIds() returns (r: seq<StoryboardOccurrence>)
      requires Valid()
      modifies this
      ensures Valid() && scanPerformed && r == segueIds
      ensures r == Occurrences(SegueIdQuery, tree)
    {
      ScanFiles();
      r := segueIds;
    }

    method StoryboardIds() returns (r: seq<StoryboardOccurrence>)
      requires Valid()
      modifies this
      ensures Valid() && scanPerformed && r == storyboardIds
      ensures r == Occurrences(StoryboardIdQuery, tree)
    {
      ScanFiles();
      r := storyboardIds;
    }

    method ReuseIds() returns (r: seq<StoryboardOccurrence>)
      requires Valid()
      modifies this
      ensures Valid() && scanPerformed && r == reuseIds
      ensures r == Occurrences(ReuseIdQuery, tree)
    {
      ScanFiles();
      r := reuseIds;
    }

    method CustomClassNames() returns (r: seq<StoryboardOccurrence>)
      requires Valid()
      modifies this
      ensures Valid() && scanPerformed && r == customClassNames
      ensures r == Occurrences(CustomClassQuery, tree)
    {
      ScanFiles();
      r := customClassNames;
    }
  }

  /**
   * What callers can rely on: asking twice gives the same list, and the
   * storyboards are globbed and parsed once however many accessors are called.
   */
  method RepeatedAccess(scanner: StoryboardScanner) returns (first: seq<StoryboardOccurrence>, second: seq<StoryboardOccurrence>)
    requires scanner.Valid()
    modifies scanner
    ensures first == second
    ensures scanner.scans == 1 && scanner.globs == 1
  {
    first := scanner.CustomClassNames();
    var ids := scanner.SegueIds();
    var files := scanner.StoryboardFiles();
    second := scanner.CustomClassNames();
  }
}
