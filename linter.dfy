/**
 * The linter: cross-checks what the storyboards declare against what the
 * source code uses, and reports every problem it finds as a `Finding`
 * (the line the program prints, as data).
 */
module Linting {
  import opened Text
  import Patterns
  import Src = SourceScanning
  import Sb = StoryboardScanning

  datatype Category = SegueId | StoryboardId | ReuseId
  datatype Severity = Warning | Error

  datatype Problem =
    | BadPrefix(category: Category)      // "... does not start with '<prefix>' prefix."
    | UnknownCustomClass                 // "... could not be found in source code."
    | UndeclaredId(category: Category)   // "... could not be found in any Storyboard."

  /**
   * One printed line: its severity, what is wrong, the id or class name it
   * is about, the file it names, and the line number when it names one.
   */
  datatype Finding = Finding(severity: Severity, problem: Problem, subject: string, file: Path, line: Option<nat>)

  function Prefix(c: Category): string
  {
    match c
    case SegueId => Patterns.SegueIdPrefix
    case StoryboardId => Patterns.StoryboardIdPrefix
    case ReuseId => Patterns.ReuseIdPrefix
  }

  // ---------------------------------------------------------------------
  // A check: report every flagged item of a list, in order
  // ---------------------------------------------------------------------

  /** `xs.each { |x| puts report(x) if flagged(x) }`, with the printed lines returned in order. */
  function Report<T>(xs: seq<T>, flagged: T -> bool, report: T -> Finding): seq<Finding>
  {
    if |xs| == 0 then []
    else Report(xs[..|xs| - 1], flagged, report) + (if flagged(xs[|xs| - 1]) then [report(xs[|xs| - 1])] else [])
  }

  /** The positions of the flagged items. */
  ghost function Flagged<T>(xs: seq<T>, flagged: T -> bool): set<nat>
  {
    set k: nat | k < |xs| && flagged(xs[k])
  }

  /** One more item visited appends its report when it is flagged. */
  lemma ReportStep<T>(xs: seq<T>, k: nat, flagged: T -> bool, report: T -> Finding)
    requires k < |xs|
    ensures Report(xs[..k + 1], flagged, report)
      == Report(xs[..k], flagged, report) + (if flagged(xs[k]) then [report(xs[k])] else [])
  {
    assert xs[..k + 1][..k] == xs[..k];
  }

  /** Exactly one report per flagged item. */
  lemma {:induction false} ReportCount<T>(xs: seq<T>, flagged: T -> bool, report: T -> Finding)
    ensures |Report(xs, flagged, report)| == |Flagged(xs, flagged)|
    decreases |xs|
  {
    if |xs| > 0 {
      var init := xs[..|xs| - 1];
      var last := |xs| - 1;
      ReportCount(init, flagged, report);
      var before, after := Flagged(init, flagged), Flagged(xs, flagged);
      forall k: nat ensures k in after <==> k in before || (k == last && flagged(xs[last])) {
        if k < last {
          assert init[k] == xs[k];
        }
      }
      if flagged(xs[last]) {
        assert after == before + {last};
      } else {
        assert after == before;
      }
    }
  }

  /** A finding is reported exactly when it is the report of some flagged item. */
  lemma {:induction false} ReportMembership<T>(xs: seq<T>, flagged: T -> bool, report: T -> Finding, f: Finding)
    ensures f in Report(xs, flagged, report) <==> exists k :: 0 <= k < |xs| && flagged(xs[k]) && report(xs[k]) == f
    decreases |xs|
  {
    if |xs| > 0 {
      var init := xs[..|xs| - 1];
      ReportMembership(init, flagged, report, f);
      if exists k :: 0 <= k < |init| && flagged(init[k]) && report(init[k]) == f {
        var k :| 0 <= k < |init| && flagged(init[k]) && report(init[k]) == f;
        assert xs[k] == init[k];
      }
      if exists k :: 0 <= k < |xs| && flagged(xs[k]) && report(xs[k]) == f {
        var k :| 0 <= k < |xs| && flagged(xs[k]) && report(xs[k]) == f;
        if k < |init| {
          assert init[k] == xs[k];
        }
      }
    }
  }

  /** Reports follow the order of the list: two parts give the first part's reports, then the second's. */
  lemma {:induction false} ReportAppend<T>(a: seq<T>, b: seq<T>, flagged: T -> bool, report: T -> Finding)
    ensures Report(a + b, flagged, report) == Report(a, flagged, report) + Report(b, flagged, report)
    decreases |b|
  {
    if |b| == 0 {
      assert a + b == a;
    } else {
      var b' := b[..|b| - 1];
      assert (a + b)[..|a + b| - 1] == a + b';
      ReportAppend(a, b', flagged, report);
    }
  }

  /** When every item is flagged, there is one report per item, in the list's order. */
  lemma {:induction false} ReportAll<T>(xs: seq<T>, flagged: T -> bool, report: T -> Finding)
    requires forall k :: 0 <= k < |xs| ==> flagged(xs[k])
    ensures |Report(xs, flagged, report)| == |xs|
    ensures forall k :: 0 <= k < |xs| ==> Report(xs, flagged, report)[k] == report(xs[k])
    decreases |xs|
  {
    if |xs| > 0 {
      var init := xs[..|xs| - 1];
      ReportAll(init, flagged, report);
    }
  }

  /** Flagging fewer items never gives more reports. */
  lemma {:induction false} ReportMonotone<T>(xs: seq<T>, flagged: T -> bool, fewer: T -> bool, report: T -> Finding)
    requires forall k :: 0 <= k < |xs| && fewer(xs[k]) ==> flagged(xs[k])
    ensures |Report(xs, fewer, report)| <= |Report(xs, flagged, report)|
    decreases |xs|
  {
    if |xs| > 0 {
      var init := xs[..|xs| - 1];
      ReportMonotone(init, flagged, fewer, report);
    }
  }

  /** With no flagged item, nothing is reported. */
  lemma {:induction false} ReportNone<T>(xs: seq<T>, flagged: T -> bool, report: T -> Finding)
    requires forall k :: 0 <= k < |xs| ==> !flagged(xs[k])
    ensures Report(xs, flagged, report) == []
    decreases |xs|
  {
    if |xs| > 0 {
      ReportNone(xs[..|xs| - 1], flagged, report);
    }
  }

  // ---------------------------------------------------------------------
  // check_naming
  // ---------------------------------------------------------------------

  /** Ruby's `$`: the end of the string, or just before a line feed. */
  predicate LineEndAt(s: string, p: nat)
    requires p <= |s|
  {
    p == |s| || s[p] == '\n'
  }

  /**
   * `s =~ /$<prefix>/` tried from position `p` on: is there a line end at
   * some position `q >= p` that the prefix follows?
   */
  function EndAnchoredFrom(s: string, prefix: string, p: nat): (r: bool)
    requires p <= |s|
    ensures r <==> exists q :: p <= q <= |s| && LineEndAt(s, q) && StartsWith(s[q..], prefix)
    decreases |s| - p
  {
    (LineEndAt(s, p) && StartsWith(s[p..], prefix)) || (p < |s| && EndAnchoredFrom(s, prefix, p + 1))
  }

  /** The naming test as written: `id =~ /$<prefix>/`. */
  predicate EndAnchoredMatch(id: string, prefix: string)
  {
    EndAnchoredFrom(id, prefix, 0)
  }

  /**
   * A line end is followed by nothing or by a line feed, so a prefix that
   * does not begin with a line feed never follows one: the test as written
   * fails on every id.
   */
  lemma EndAnchoredNeverMatches(id: string, prefix: string)
    requires |prefix| > 0 && prefix[0] != '\n'
    ensures !EndAnchoredMatch(id, prefix)
  {
    forall q | 0 <= q <= |id| && LineEndAt(id, q) ensures !StartsWith(id[q..], prefix) {
      if q < |id| {
        assert id[q..][0] == '\n';
      }
    }
  }

  function NamingWarning(c: Category, o: Sb.StoryboardOccurrence): Finding
  {
    Finding(Warning, BadPrefix(c), o.text, Basename(o.file), None)
  }

  function NamingReport(c: Category): Sb.StoryboardOccurrence -> Finding
  {
    o => NamingWarning(c, o)
  }

  /** The test of `check_naming` as written: the id fails `=~ /$<prefix>/`. */
  function NamingTest(c: Category): Sb.StoryboardOccurrence -> bool
  {
    (o: Sb.StoryboardOccurrence) => !EndAnchoredMatch(o.text, Prefix(c))
  }

  /** The test the warning's wording describes: the id does not start with the prefix. */
  function IntendedNamingTest(c: Category): Sb.StoryboardOccurrence -> bool
  {
    (o: Sb.StoryboardOccurrence) => !StartsWith(o.text, Prefix(c))
  }

  /** One of the three loops of `check_naming`, as written. */
  function NamingFindings(c: Category, ids: seq<Sb.StoryboardOccurrence>): seq<Finding>
  {
    Report(ids, NamingTest(c), NamingReport(c))
  }

  /** `check_naming`: segue ids, then storyboard ids, then reuse ids. */
  function NamingCheck(segueIds: seq<Sb.StoryboardOccurrence>, storyboardIds: seq<Sb.StoryboardOccurrence>,
                       reuseIds: seq<Sb.StoryboardOccurrence>): seq<Finding>
  {
    NamingFindings(SegueId, segueIds) + NamingFindings(StoryboardId, storyboardIds) + NamingFindings(ReuseId, reuseIds)
  }

  /** As written, every storyboard-side id of the category gets a warning, in order, naming its file's basename. */
  lemma NamingWarnsEveryId(c: Category, ids: seq<Sb.StoryboardOccurrence>)
    ensures |NamingFindings(c, ids)| == |ids|
    ensures forall k :: 0 <= k < |ids| ==>
      NamingFindings(c, ids)[k] == Finding(Warning, BadPrefix(c), ids[k].text, Basename(ids[k].file), None)
  {
    forall k | 0 <= k < |ids| ensures !EndAnchoredMatch(ids[k].text, Prefix(c)) {
      EndAnchoredNeverMatches(ids[k].text, Prefix(c));
    }
    ReportAll(ids, NamingTest(c), NamingReport(c));
  }

  /** `check_naming` as written warns once for every storyboard-side id. */
  lemma NamingCheckCount(segueIds: seq<Sb.StoryboardOccurrence>, storyboardIds: seq<Sb.StoryboardOccurrence>,
                         reuseIds: seq<Sb.StoryboardOccurrence>)
    ensures |NamingCheck(segueIds, storyboardIds, reuseIds)| == |segueIds| + |storyboardIds| + |reuseIds|
  {
    NamingWarnsEveryId(SegueId, segueIds);
    NamingWarnsEveryId(StoryboardId, storyboardIds);
    NamingWarnsEveryId(ReuseId, reuseIds);
  }

  /** The naming test the messages describe: the id starts with the prefix. */
  function IntendedNamingFindings(c: Category, ids: seq<Sb.StoryboardOccurrence>): seq<Finding>
  {
    Report(ids, IntendedNamingTest(c), NamingReport(c))
  }

  /** With the intended test, a warning is given exactly for the ids that do not start with the prefix. */
  lemma IntendedNamingWarnsExactly(c: Category, ids: seq<Sb.StoryboardOccurrence>, f: Finding)
    ensures f in IntendedNamingFindings(c, ids) <==>
      exists k :: 0 <= k < |ids| && !StartsWith(ids[k].text, Prefix(c)) && f == NamingWarning(c, ids[k])
    ensures |IntendedNamingFindings(c, ids)| == |set k: nat | k < |ids| && !StartsWith(ids[k].text, Prefix(c))|
  {
    var flagged := IntendedNamingTest(c);
    ReportMembership(ids, flagged, NamingReport(c), f);
    ReportCount(ids, flagged, NamingReport(c));
    assert Flagged(ids, flagged) == set k: nat | k < |ids| && !StartsWith(ids[k].text, Prefix(c));
  }

  /** With the intended test, well-named ids give no warning. */
  lemma IntendedNamingQuietOnPrefixedIds(c: Category, ids: seq<Sb.StoryboardOccurrence>)
    requires forall k :: 0 <= k < |ids| ==> StartsWith(ids[k].text, Prefix(c))
    ensures IntendedNamingFindings(c, ids) == []
  {
    ReportNone(ids, IntendedNamingTest(c), NamingReport(c));
  }

  /**
   * The intended check warns about a subset of what the check as written
   * warns about: exactly the ids that do not start with the prefix.
   */
  lemma IntendedNamingWithinAsWritten(c: Category, ids: seq<Sb.StoryboardOccurrence>)
    ensures |IntendedNamingFindings(c, ids)| <= |NamingFindings(c, ids)|
    ensures forall f :: f in IntendedNamingFindings(c, ids) ==> f in NamingFindings(c, ids)
  {
    forall k | 0 <= k < |ids| ensures NamingTest(c)(ids[k]) {
      EndAnchoredNeverMatches(ids[k].text, Prefix(c));
    }
    ReportMonotone(ids, NamingTest(c), IntendedNamingTest(c), NamingReport(c));
    forall f | f in IntendedNamingFindings(c, ids) ensures f in NamingFindings(c, ids) {
      ReportMembership(ids, IntendedNamingTest(c), NamingReport(c), f);
      ReportMembership(ids, NamingTest(c), NamingReport(c), f);
    }
  }

  /** The segue id `seg_test` follows the convention, yet the check as written warns about it. */
  lemma NamingCounterexample()
    ensures var ids := [Sb.StoryboardOccurrence("ui/Main.storyboard", "seg_test")];
      && NamingFindings(SegueId, ids) == [Finding(Warning, BadPrefix(SegueId), "seg_test", "Main.storyboard", None)]
      && IntendedNamingFindings(SegueId, ids) == []
  {
    var ids := [Sb.StoryboardOccurrence("ui/Main.storyboard", "seg_test")];
    NamingWarnsEveryId(SegueId, ids);
    MainStoryboardBasename();
    SegTestIsPrefixed();
    IntendedNamingQuietOnPrefixedIds(SegueId, ids);
  }

  lemma MainStoryboardBasename()
    ensures Basename("ui/Main.storyboard") == "Main.storyboard"
  {
    assert "ui/Main.storyboard" == "ui" + "/" + "Main.storyboard";
    BasenameAfterSlash("ui", "Main.storyboard");
  }

  lemma SegTestIsPrefixed()
    ensures StartsWith("seg_test", Prefix(SegueId))
  {
  }

  // ---------------------------------------------------------------------
  // check_custom_classes
  // ---------------------------------------------------------------------

  /** `class_names.map { |cn| cn[:class_name] }`. */
  function ClassNames(classes: seq<Src.SourceOccurrence>): seq<string>
  {
    Strings(classes, (o: Src.SourceOccurrence) => o.text)
  }

  function MissingClassError(o: Sb.StoryboardOccurrence): Finding
  {
    Finding(Error, UnknownCustomClass, o.text, Basename(o.file), None)
  }

  /** The name of the custom class is not among the declared class names. */
  function MissingClass(classes: seq<Src.SourceOccurrence>): Sb.StoryboardOccurrence -> bool
  {
    (o: Sb.StoryboardOccurrence) => o.text !in ClassNames(classes)
  }

  /** `check_custom_classes`: an error for every custom class whose name no source file declares. */
  function CustomClassFindings(customs: seq<Sb.StoryboardOccurrence>, classes: seq<Src.SourceOccurrence>): seq<Finding>
  {
    Report(customs, MissingClass(classes), MissingClassError)
  }

  /**
   * An error is reported exactly for a custom-class entry whose name is not
   * among the declared class names (by name alone), and there is one error
   * per such entry, so a class used twice is reported twice.
   */
  lemma CustomClassesReportedExactly(customs: seq<Sb.StoryboardOccurrence>, classes: seq<Src.SourceOccurrence>, f: Finding)
    ensures f in CustomClassFindings(customs, classes) <==>
      exists k :: 0 <= k < |customs| && customs[k].text !in ClassNames(classes) && f == MissingClassError(customs[k])
    ensures |CustomClassFindings(customs, classes)|
      == |set k: nat | k < |customs| && customs[k].text !in ClassNames(classes)|
  {
    var flagged := MissingClass(classes);
    ReportMembership(customs, flagged, MissingClassError, f);
    ReportCount(customs, flagged, MissingClassError);
    assert Flagged(customs, flagged) == set k: nat | k < |customs| && customs[k].text !in ClassNames(classes);
  }

  /** The order of the errors is the order of the custom-class entries. */
  lemma CustomClassesInOrder(a: seq<Sb.StoryboardOccurrence>, b: seq<Sb.StoryboardOccurrence>, classes: seq<Src.SourceOccurrence>)
    ensures CustomClassFindings(a + b, classes) == CustomClassFindings(a, classes) + CustomClassFindings(b, classes)
  {
    ReportAppend(a, b, MissingClass(classes), MissingClassError);
  }

  /** A missing class referenced twice in the same storyboard is reported twice. */
  lemma MissingClassReportedTwice(o: Sb.StoryboardOccurrence, classes: seq<Src.SourceOccurrence>)
    requires forall k :: 0 <= k < |classes| ==> classes[k].text != o.text
    ensures CustomClassFindings([o, o], classes) == [MissingClassError(o), MissingClassError(o)]
  {
    ReportAll([o, o], MissingClass(classes), MissingClassError);
  }

  // ---------------------------------------------------------------------
  // check_ids
  // ---------------------------------------------------------------------

  /** `ids.map { |i| i[:id] }` of a storyboard-side list. */
  function DeclaredIds(declared: seq<Sb.StoryboardOccurrence>): seq<string>
  {
    Strings(declared, (o: Sb.StoryboardOccurrence) => o.text)
  }

  function UndeclaredWarning(c: Category, o: Src.SourceOccurrence): Finding
  {
    Finding(Warning, UndeclaredId(c), o.text, o.file, Some(o.line))
  }

  function UndeclaredReport(c: Category): Src.SourceOccurrence -> Finding
  {
    o => UndeclaredWarning(c, o)
  }

  /** The id used in source is not among the ids the storyboards declare. */
  function Undeclared(declared: seq<Sb.StoryboardOccurrence>): Src.SourceOccurrence -> bool
  {
    (o: Src.SourceOccurrence) => o.text !in DeclaredIds(declared)
  }

  /** One of the three loops of `check_ids`: a warning for every id used in source but declared in no storyboard. */
  function IdFindings(c: Category, used: seq<Src.SourceOccurrence>, declared: seq<Sb.StoryboardOccurrence>): seq<Finding>
  {
    Report(used, Undeclared(declared), UndeclaredReport(c))
  }

  /** `check_ids`: segue ids, then storyboard ids, then reuse ids. */
  function IdCheck(usedSegueIds: seq<Src.SourceOccurrence>, usedStoryboardIds: seq<Src.SourceOccurrence>,
                    usedReuseIds: seq<Src.SourceOccurrence>, segueIds: seq<Sb.StoryboardOccurrence>,
                    storyboardIds: seq<Sb.StoryboardOccurrence>, reuseIds: seq<Sb.StoryboardOccurrence>): seq<Finding>
  {
    IdFindings(SegueId, usedSegueIds, segueIds)
    + IdFindings(StoryboardId, usedStoryboardIds, storyboardIds)
    + IdFindings(ReuseId, usedReuseIds, reuseIds)
  }

  /**
   * A warning is reported exactly for a source occurrence whose id the
   * storyboards of the same category do not declare, it carries that
   * occurrence's file and line, and there is one per such occurrence.
   */
  lemma IdsReportedExactly(c: Category, used: seq<Src.SourceOccurrence>, declared: seq<Sb.StoryboardOccurrence>, f: Finding)
    ensures f in IdFindings(c, used, declared) <==>
      exists k :: 0 <= k < |used| && used[k].text !in DeclaredIds(declared)
        && f == Finding(Warning, UndeclaredId(c), used[k].text, used[k].file, Some(used[k].line))
    ensures |IdFindings(c, used, declared)| == |set k: nat | k < |used| && used[k].text !in DeclaredIds(declared)|
  {
    var flagged := Undeclared(declared);
    ReportMembership(used, flagged, UndeclaredReport(c), f);
    ReportCount(used, flagged, UndeclaredReport(c));
    assert Flagged(used, flagged) == set k: nat | k < |used| && used[k].text !in DeclaredIds(declared);
  }

  /** Declaring more ids in the storyboards never gives more warnings. */
  lemma MoreDeclaredFewerWarnings(c: Category, used: seq<Src.SourceOccurrence>,
                                  declared: seq<Sb.StoryboardOccurrence>, more: seq<Sb.StoryboardOccurrence>)
    requires forall k :: 0 <= k < |declared| ==> declared[k].text in DeclaredIds(more)
    ensures |IdFindings(c, used, more)| <= |IdFindings(c, used, declared)|
  {
    ReportMonotone(used, Undeclared(declared), Undeclared(more), UndeclaredReport(c));
  }

  /** When every id used in source is declared, the check reports nothing. */
  lemma AllDeclaredNoWarnings(c: Category, used: seq<Src.SourceOccurrence>, declared: seq<Sb.StoryboardOccurrence>)
    requires forall k :: 0 <= k < |used| ==> exists j :: 0 <= j < |declared| && declared[j].text == used[k].text
    ensures IdFindings(c, used, declared) == []
  {
    ReportNone(used, Undeclared(declared), UndeclaredReport(c));
  }

  // ---------------------------------------------------------------------
  // The loops, one list at a time
  // ---------------------------------------------------------------------

  /** `ids.each { |id| puts ... if id[:id] !~ /$<prefix>/ }`. */
  method CheckNamingOf(c: Category, ids: seq<Sb.StoryboardOccurrence>) returns (findings: seq<Finding>)
    ensures findings == NamingFindings(c, ids)
  {
    findings := [];
    for k := 0 to |ids|
      invariant findings == NamingFindings(c, ids[..k])
    {
      ReportStep(ids, k, NamingTest(c), NamingReport(c));
      if !EndAnchoredMatch(ids[k].text, Prefix(c)) {
        findings := findings + [NamingWarning(c, ids[k])];
      }
    }
    assert ids[..|ids|] == ids;
  }

  /** `custom_class_names.each { |cc| puts ... if !names.include?(cc[:class_name]) }`. */
  method CheckCustomClassesOf(customs: seq<Sb.StoryboardOccurrence>, classes: seq<Src.SourceOccurrence>)
    returns (findings: seq<Finding>)
    ensures findings == CustomClassFindings(customs, classes)
  {
    findings := [];
    for k := 0 to |customs|
      invariant findings == CustomClassFindings(customs[..k], classes)
    {
      ReportStep(customs, k, MissingClass(classes), MissingClassError);
      if customs[k].text !in ClassNames(classes) {
        findings := findings + [MissingClassError(customs[k])];
      }
    }
    assert customs[..|customs|] == customs;
  }

  /** `used.each { |id| puts ... if !declared_ids.include?(id[:id]) }`. */
  method CheckIdsOf(c: Category, used: seq<Src.SourceOccurrence>, declared: seq<Sb.StoryboardOccurrence>)
    returns (findings: seq<Finding>)
    ensures findings == IdFindings(c, used, declared)
  {
    findings := [];
    for k := 0 to |used|
      invariant findings == IdFindings(c, used[..k], declared)
    {
      ReportStep(used, k, Undeclared(declared), UndeclaredReport(c));
      if used[k].text !in DeclaredIds(declared) {
        findings := findings + [UndeclaredWarning(c, used[k])];
      }
    }
    assert used[..|used|] == used;
  }

  // ---------------------------------------------------------------------
  // The linter object
  // ---------------------------------------------------------------------

  /** What `lint` prints for the storyboards `sb` and the source files `src`. */
  function LintFindings(sb: seq<Sb.StoryboardFile>, src: seq<Src.SourceFile>): seq<Finding>
  {
    var segueIds := Sb.Occurrences(Sb.SegueIdQuery, sb);
    var storyboardIds := Sb.Occurrences(Sb.StoryboardIdQuery, sb);
    var reuseIds := Sb.Occurrences(Sb.ReuseIdQuery, sb);
    NamingCheck(segueIds, storyboardIds, reuseIds)
    + CustomClassFindings(Sb.Occurrences(Sb.CustomClassQuery, sb), Src.Occurrences(Src.ClassNameCaptures, src))
    + IdCheck(Src.Occurrences(Src.SegueIdCaptures, src), Src.Occurrences(Src.StoryboardIdCaptures, src),
               Src.Occurrences(Src.ReuseIdCaptures, src), segueIds, storyboardIds, reuseIds)
  }

  /** `StoryboardLint::Linter`, over a storyboard scanner and a source scanner. */
  class Linter {
    const sbScanner: Sb.StoryboardScanner
    const sourceScanner: Src.SourceScanner

    ghost predicate Valid()
      reads this, sbScanner, sourceScanner
    {
      sbScanner.Valid() && sourceScanner.Valid()
    }

    constructor (sbScanner: Sb.StoryboardScanner, sourceScanner: Src.SourceScanner)
      requires sbScanner.Valid() && sourceScanner.Valid()
      ensures Valid() && this.sbScanner == sbScanner && this.sourceScanner == sourceScanner
    {
      this.sbScanner := sbScanner;
      this.sourceScanner := sourceScanner;
    }

    /** `lint`: the naming check, then the custom-class check, then the id check, each to completion. */
    method Lint() returns (findings: seq<Finding>)
      requires Valid()
      modifies sbScanner, sourceScanner
      ensures Valid()
      ensures sbScanner.scanPerformed && sourceScanner.scanPerformed
      ensures findings == LintFindings(sbScanner.tree, sourceScanner.tree)
    {
      var naming := CheckNaming();
      var classes := CheckCustomClasses();
      var ids := CheckIds();
      findings := naming + classes + ids;
    }

    method CheckNaming() returns (findings: seq<Finding>)
      requires Valid()
      modifies sbScanner
      ensures Valid()
      ensures sbScanner.scanPerformed
      ensures findings == NamingCheck(Sb.Occurrences(Sb.SegueIdQuery, sbScanner.tree),
        Sb.Occurrences(Sb.StoryboardIdQuery, sbScanner.tree), Sb.Occurrences(Sb.ReuseIdQuery, sbScanner.tree))
    {
      var segueIds := sbScanner.SegueIds();
      var segues := CheckNamingOf(SegueId, segueIds);
      var storyboardIds := sbScanner.StoryboardIds();
      var storyboards := CheckNamingOf(StoryboardId, storyboardIds);
      var reuseIds := sbScanner.ReuseIds();
      var reuses := CheckNamingOf(ReuseId, reuseIds);
      findings := segues + storyboards + reuses;
    }

    method CheckCustomClasses() returns (findings: seq<Finding>)
      requires Valid()
      modifies sbScanner, sourceScanner
      ensures Valid()
      ensures sbScanner.scanPerformed
      ensures old(sourceScanner.scanPerformed) ==> sourceScanner.scanPerformed
      ensures findings == CustomClassFindings(Sb.Occurrences(Sb.CustomClassQuery, sbScanner.tree),
        Src.Occurrences(Src.ClassNameCaptures, sourceScanner.tree))
    {
      var customs := sbScanner.CustomClassNames();
      var classes := sourceScanner.ClassNames();
      findings := CheckCustomClassesOf(customs, classes);
    }

    method CheckIds() returns (findings: seq<Finding>)
      requires Valid()
      modifies sbScanner, sourceScanner
      ensures Valid()
      ensures sourceScanner.scanPerformed
      ensures old(sbScanner.scanPerformed) ==> sbScanner.scanPerformed
      ensures findings == IdCheck(Src.Occurrences(Src.SegueIdCaptures, sourceScanner.tree),
        Src.Occurrences(Src.StoryboardIdCaptures, sourceScanner.tree), Src.Occurrences(Src.ReuseIdCaptures, sourceScanner.tree),
        Sb.Occurrences(Sb.SegueIdQuery, sbScanner.tree), Sb.Occurrences(Sb.StoryboardIdQuery, sbScanner.tree),
        Sb.Occurrences(Sb.ReuseIdQuery, sbScanner.tree))
    {
      var usedSegueIds := sourceScanner.SegueIds();
      var segueIds := sbScanner.SegueIds();
      var segues := CheckIdsOf(SegueId, usedSegueIds, segueIds);
      var usedStoryboardIds := sourceScanner.StoryboardIds();
      var storyboardIds := sbScanner.StoryboardIds();
      var storyboards := CheckIdsOf(StoryboardId, usedStoryboardIds, storyboardIds);
      var usedReuseIds := sourceScanner.ReuseIds();
      var reuseIds := sbScanner.ReuseIds();
      var reuses := CheckIdsOf(ReuseId, usedReuseIds, reuseIds);
      findings := segues + storyboards + reuses;
    }
  }
}
