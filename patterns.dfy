/**
 * The four fixed patterns of the source scanner and Ruby's `String#scan` over them.
 *
 *   CLASS_REGEX          = /@interface\s+([a-zA-Z_]+\w*)/
 *   SEGUE_ID_REGEX       = /@"(seg_(?:\\"|[^"])+)"/     (and likewise for "sb_" and "ruid_")
 *
 * Each pattern is written out as a matcher at one position (`MatchAt`) whose
 * contract is a declarative description of the match the regex engine picks
 * there; `Scan` then applies it the way `String#scan` does: leftmost match
 * first, resuming after the end of the previous match.
 */
module Patterns {
  import opened Text

  const SegueIdPrefix := "seg_"
  const StoryboardIdPrefix := "sb_"
  const ReuseIdPrefix := "ruid_"

  /** The keyword that opens an Objective-C class interface. */
  const Keyword := "@interface"

  datatype Pattern =
    | ClassDecl               // `@interface\s+([a-zA-Z_]+\w*)`
    | Literal(prefix: string) // `@"(<prefix>(?:\\"|[^"])+)"`

  const ClassRegex := ClassDecl
  const SegueIdRegex := Literal(SegueIdPrefix)
  const StoryboardIdRegex := Literal(StoryboardIdPrefix)
  const ReuseIdRegex := Literal(ReuseIdPrefix)

  /**
   * One match in a line: the pattern matched `s[start..stop]` and its
   * capture group is `s[from..to]`.
   */
  datatype Hit = Hit(start: nat, from: nat, to: nat, stop: nat)

  ghost predicate WellFormed(s: string, h: Hit)
  {
    h.start < h.from <= h.to <= h.stop <= |s|
  }

  // ---------------------------------------------------------------------
  // The class-declaration pattern
  // ---------------------------------------------------------------------

  /**
   * `@interface`, one or more whitespace characters, a letter or underscore,
   * and the whole run of word characters that follows, which is the capture.
   * (`[a-zA-Z_]+\w*` is greedy and `\w` includes `[a-zA-Z_]`, so the capture
   * is the maximal word run.)
   */
  ghost predicate IsClassMatch(s: string, h: Hit)
  {
    h.start + |Keyword| < h.from < h.to == h.stop <= |s|
    && s[h.start..h.start + |Keyword|] == Keyword
    && (forall k :: h.start + |Keyword| <= k < h.from ==> IsSpace(s[k]))
    && IsIdentStart(s[h.from])
    && (forall k :: h.from <= k < h.to ==> IsWordChar(s[k]))
    && (h.to == |s| || !IsWordChar(s[h.to]))
  }

  /** The first index at or after `k` that is not whitespace. */
  function SkipSpaces(s: string, k: nat): (r: nat)
    requires k <= |s|
    ensures k <= r <= |s|
    ensures forall m :: k <= m < r ==> IsSpace(s[m])
    ensures r == |s| || !IsSpace(s[r])
    decreases |s| - k
  {
    if k == |s| || !IsSpace(s[k]) then k else SkipSpaces(s, k + 1)
  }

  /** The first index at or after `k` that is not a word character. */
  function SkipWord(s: string, k: nat): (r: nat)
    requires k <= |s|
    ensures k <= r <= |s|
    ensures forall m :: k <= m < r ==> IsWordChar(s[m])
    ensures r == |s| || !IsWordChar(s[r])
    decreases |s| - k
  {
    if k == |s| || !IsWordChar(s[k]) then k else SkipWord(s, k + 1)
  }

  /** The class pattern tried at position `i`: `@interface`, skip whitespace, take the word. */
  function ClassMatchAt(s: string, i: nat): (r: Option<Hit>)
    ensures r.Some? ==> r.value.start == i && WellFormed(s, r.value)
  {
    if i + |Keyword| <= |s| && s[i..i + |Keyword|] == Keyword then
      var w := SkipSpaces(s, i + |Keyword|);
      if i + |Keyword| < w < |s| && IsIdentStart(s[w]) then
        var e := SkipWord(s, w);
        Some(Hit(i, w, e, e))
      else
        None
    else
      None
  }

  /** The class matcher finds exactly the match the regex describes, and nothing where there is none. */
  lemma ClassMatchAtCorrect(s: string, i: nat)
    ensures ClassMatchAt(s, i).Some? ==> IsClassMatch(s, ClassMatchAt(s, i).value)
    ensures ClassMatchAt(s, i).None? ==> forall h: Hit :: h.start == i ==> !IsClassMatch(s, h)
  {
    if ClassMatchAt(s, i).None? {
      forall h: Hit | h.start == i && IsClassMatch(s, h) ensures false {
      }
    }
  }

  // ---------------------------------------------------------------------
  // The quoted-literal patterns
  // ---------------------------------------------------------------------

  /**
   * Where the body of a literal begins at `j`, a quote at `m` is "bare" when
   * no backslash right before it (inside the body) escapes it. The greedy
   * loop `(?:\\"|[^"])+` consumes `\"` pairs and non-quote characters, so it
   * can never step over a bare quote.
   */
  predicate IsBareQuote(s: string, j: nat, m: nat)
    requires j <= m < |s|
  {
    s[m] == '"' && (m == j || s[m - 1] != '\\')
  }

  ghost predicate NoBareQuote(s: string, j: nat, e: nat)
    requires j <= e <= |s|
  {
    forall m :: j <= m < e ==> !IsBareQuote(s, j, m)
  }

  /** `s[j..e]` can be consumed by `(?:\\"|[^"])+` and the closing `"` is at `e`. */
  ghost predicate IsLiteralBody(s: string, j: nat, e: nat)
  {
    j < e < |s| && s[e] == '"' && NoBareQuote(s, j, e)
  }

  /** `e` closes a body starting at `j`, and no later quote would. */
  ghost predicate IsLongestBody(s: string, j: nat, e: nat)
  {
    IsLiteralBody(s, j, e) && forall e': nat :: e < e' ==> !IsLiteralBody(s, j, e')
  }

  /**
   * `@"`, the prefix, a body, the closing quote. The capture runs from the
   * prefix to just before the closing quote. Of all the closing quotes that
   * would do, the regex engine takes the last one (the loop is greedy and
   * backtracks one step at a time), so no later quote in the line would also
   * close a body.
   */
  ghost predicate IsLiteralMatch(prefix: string, s: string, h: Hit)
  {
    h.from == h.start + 2 && h.stop == h.to + 1
    && h.from + |prefix| <= |s|
    && s[h.start] == '@' && s[h.start + 1] == '"'
    && s[h.from..h.from + |prefix|] == prefix
    && IsLongestBody(s, h.from + |prefix|, h.to)
  }

  /** The first bare quote at or after `k` (body starting at `j`), or `|s|`. */
  function FirstBareQuote(s: string, j: nat, k: nat): (r: nat)
    requires j <= k <= |s|
    ensures k <= r <= |s|
    ensures forall m :: k <= m < r ==> !IsBareQuote(s, j, m)
    ensures r < |s| ==> IsBareQuote(s, j, r)
    decreases |s| - k
  {
    if k == |s| || IsBareQuote(s, j, k) then k else FirstBareQuote(s, j, k + 1)
  }

  /** The last quote strictly after `j`, if any. */
  function LastQuote(s: string, j: nat, n: nat): (r: Option<nat>)
    requires j <= n <= |s|
    ensures r.Some? ==> j < r.value < n && s[r.value] == '"'
    ensures r.Some? ==> forall m :: r.value < m < n ==> s[m] != '"'
    ensures r.None? ==> forall m :: j < m < n ==> s[m] != '"'
    decreases n
  {
    if n <= j + 1 then None
    else if s[n - 1] == '"' then Some(n - 1)
    else LastQuote(s, j, n - 1)
  }

  /**
   * Where the greedy body starting at `j` closes. If the body runs into a
   * bare quote, that quote closes it (unless the body would be empty); if
   * it runs to the end of the line, the engine backtracks to the last
   * quote, which is then necessarily an escaped one.
   */
  function Closing(s: string, j: nat): (r: Option<nat>)
    requires j <= |s|
    ensures r.Some? ==> j < r.value < |s|
  {
    var b := FirstBareQuote(s, j, j);
    if b < |s| then
      if j < b then Some(b) else None
    else
      LastQuote(s, j, |s|)
  }

  /** The closing quote `Closing` picks is the one the regex engine settles on. */
  lemma ClosingCorrect(s: string, j: nat)
    requires j <= |s|
    ensures Closing(s, j).Some? ==> IsLongestBody(s, j, Closing(s, j).value)
    ensures Closing(s, j).None? ==> forall e: nat :: !IsLiteralBody(s, j, e)
  {
  }

  /** A literal pattern tried at position `i`: `@"`, the prefix, then the body up to its closing quote. */
  function LiteralMatchAt(prefix: string, s: string, i: nat): (r: Option<Hit>)
    ensures r.Some? ==> r.value.start == i && WellFormed(s, r.value)
  {
    var j := i + 2 + |prefix|;
    if j <= |s| && s[i] == '@' && s[i + 1] == '"' && s[i + 2..j] == prefix then
      match Closing(s, j)
      case Some(e) => Some(Hit(i, i + 2, e, e + 1))
      case None => None
    else
      None
  }

  /** The literal matcher finds exactly the match the regex describes, and nothing where there is none. */
  lemma LiteralMatchAtCorrect(prefix: string, s: string, i: nat)
    ensures LiteralMatchAt(prefix, s, i).Some? ==> IsLiteralMatch(prefix, s, LiteralMatchAt(prefix, s, i).value)
    ensures LiteralMatchAt(prefix, s, i).None? ==> forall h: Hit :: h.start == i ==> !IsLiteralMatch(prefix, s, h)
  {
    var j := i + 2 + |prefix|;
    if j <= |s| {
      ClosingCorrect(s, j);
    }
  }

  // ---------------------------------------------------------------------
  // Any of the four patterns, and String#scan
  // ---------------------------------------------------------------------

  ghost predicate IsMatch(p: Pattern, s: string, h: Hit)
  {
    match p
    case ClassDecl => IsClassMatch(s, h)
    case Literal(prefix) => IsLiteralMatch(prefix, s, h)
  }

  /** The match the pattern's regex finds when tried at position `i` of `s`. */
  function MatchAt(p: Pattern, s: string, i: nat): (r: Option<Hit>)
    ensures r.Some? ==> r.value.start == i && WellFormed(s, r.value)
  {
    match p
    case ClassDecl => ClassMatchAt(s, i)
    case Literal(prefix) => LiteralMatchAt(prefix, s, i)
  }

  /**
   * The match found at `i` is a match of the regex starting at `i`, and
   * when none is found the regex has no match starting there.
   */
  lemma MatchAtCorrect(p: Pattern, s: string, i: nat)
    ensures MatchAt(p, s, i).Some? ==> IsMatch(p, s, MatchAt(p, s, i).value)
    ensures MatchAt(p, s, i).None? ==> forall h: Hit :: h.start == i ==> !IsMatch(p, s, h)
  {
    match p
    case ClassDecl => ClassMatchAtCorrect(s, i);
    case Literal(prefix) => LiteralMatchAtCorrect(prefix, s, i);
  }

  /**
   * A table of attempts: entry `i` is the match found when the regex is tried
   * at position `i` of a line of length `|t|`, if any.
   */
  ghost predicate IsMatchTable(t: seq<Option<Hit>>)
  {
    forall i :: 0 <= i < |t| && t[i].Some? ==>
      t[i].value.start == i < t[i].value.from <= t[i].value.to <= t[i].value.stop <= |t|
  }

  /** The pattern tried at each of the first `n` positions of `s`. */
  function MatchTablePrefix(p: Pattern, s: string, n: nat): (t: seq<Option<Hit>>)
    requires n <= |s|
    ensures |t| == n
    ensures forall i :: 0 <= i < n && t[i].Some? ==>
      t[i].value.start == i < t[i].value.from <= t[i].value.to <= t[i].value.stop <= |s|
  {
    if n == 0 then [] else MatchTablePrefix(p, s, n - 1) + [MatchAt(p, s, n - 1)]
  }

  /** The pattern tried at every position of `s`. */
  function MatchTable(p: Pattern, s: string): (t: seq<Option<Hit>>)
    ensures |t| == |s| && IsMatchTable(t)
  {
    MatchTablePrefix(p, s, |s|)
  }

  lemma {:induction false} MatchTablePrefixAt(p: Pattern, s: string, n: nat, i: nat)
    requires i < n <= |s|
    ensures MatchTablePrefix(p, s, n)[i] == MatchAt(p, s, i)
  {
    if i < n - 1 {
      MatchTablePrefixAt(p, s, n - 1, i);
    }
  }

  /** Entry `i` of the table is the regex tried at position `i`. */
  lemma MatchTableAt(p: Pattern, s: string, i: nat)
    requires i < |s|
    ensures MatchTable(p, s)[i] == MatchAt(p, s, i)
  {
    MatchTablePrefixAt(p, s, |s|, i);
  }

  /**
   * `String#scan` from position `pos`: the leftmost match, then the rest of
   * the line after that match.
   */
  function ScanFrom(t: seq<Option<Hit>>, pos: nat): (hits: seq<Hit>)
    requires IsMatchTable(t) && pos <= |t|
    ensures forall k :: 0 <= k < |hits| ==> pos <= hits[k].start < |t| && t[hits[k].start] == Some(hits[k])
    ensures forall a, b :: 0 <= a < b < |hits| ==> hits[a].stop <= hits[b].start
    decreases |t| - pos
  {
    if pos == |t| then []
    else
      match t[pos]
      case Some(h) => [h] + ScanFrom(t, h.stop)
      case None => ScanFrom(t, pos + 1)
  }

  function Scan(p: Pattern, s: string): seq<Hit>
  {
    ScanFrom(MatchTable(p, s), 0)
  }

  /** Every hit of the scan is the regex's match at the position where the hit starts. */
  lemma ScanSound(p: Pattern, s: string, k: nat)
    requires k < |Scan(p, s)|
    ensures Scan(p, s)[k].start < |s| && MatchAt(p, s, Scan(p, s)[k].start) == Some(Scan(p, s)[k])
  {
    MatchTableAt(p, s, Scan(p, s)[k].start);
  }

  /** `line.scan(regex).map { |m| m[0] }`: the capture group of every match, left to right. */
  function Captures(p: Pattern, s: string): (caps: seq<string>)
    ensures |caps| == |Scan(p, s)|
    ensures forall k :: 0 <= k < |caps| ==> WellFormed(s, Scan(p, s)[k]) && caps[k] == s[Scan(p, s)[k].from..Scan(p, s)[k].to]
  {
    var hits := Scan(p, s);
    seq(|hits|, k requires 0 <= k < |hits| => s[hits[k].from..hits[k].to])
  }

  // ---------------------------------------------------------------------
  // Properties
  // ---------------------------------------------------------------------

  /**
   * The scan misses no match: every position where the regex matches is the
   * start of a hit or inside an earlier one (the result `k` names that hit).
   * Together with the contract of `ScanFrom` (every hit is the match at its
   * start, hits do not overlap and come left to right) this pins the result
   * down completely.
   */
  lemma {:induction false} ScanMissesNothing(t: seq<Option<Hit>>, pos: nat, i: nat) returns (k: nat)
    requires IsMatchTable(t)
    requires pos <= i < |t| && t[i].Some?
    ensures k < |ScanFrom(t, pos)|
    ensures ScanFrom(t, pos)[k].start <= i < ScanFrom(t, pos)[k].stop
    decreases |t| - pos
  {
    var hits := ScanFrom(t, pos);
    match t[pos]
    case Some(h) =>
      var rest := ScanFrom(t, h.stop);
      assert hits == [h] + rest;
      if i < h.stop {
        k := 0;
      } else {
        var k' := ScanMissesNothing(t, h.stop, i);
        k := k' + 1;
        assert hits[k] == rest[k'];
      }
    case None =>
      k := ScanMissesNothing(t, pos + 1, i);
  }

  /** A line in which the pattern matches nowhere yields no captures. */
  lemma {:induction false} ScanEmptyWithoutMatch(t: seq<Option<Hit>>, pos: nat)
    requires IsMatchTable(t) && pos <= |t|
    requires forall i :: pos <= i < |t| ==> t[i].None?
    ensures ScanFrom(t, pos) == []
    decreases |t| - pos
  {
    if pos < |t| {
      ScanEmptyWithoutMatch(t, pos + 1);
    }
  }

  /**
   * Shape of every class name the class pattern captures: it starts with a
   * letter or underscore, consists of word characters, is the whole word,
   * and follows `@interface` and at least one whitespace character.
   */
  lemma ClassCaptureShape(s: string, k: nat)
    requires k < |Scan(ClassRegex, s)|
    ensures var h := Scan(ClassRegex, s)[k];
      var name := Captures(ClassRegex, s)[k];
      && |name| > 0 && IsIdentStart(name[0])
      && (forall m :: 0 <= m < |name| ==> IsWordChar(name[m]))
      && h.start + |Keyword| < h.from && s[h.start..h.start + |Keyword|] == Keyword
      && (forall m :: h.start + |Keyword| <= m < h.from ==> IsSpace(s[m]))
      && name == s[h.from..h.stop]
      && (h.stop == |s| || !IsWordChar(s[h.stop]))
  {
    var h := Scan(ClassRegex, s)[k];
    ScanSound(ClassRegex, s, k);
    assert IsClassMatch(s, h);
  }

  /**
   * Shape of every id a literal pattern captures: it starts with the prefix
   * and is longer than it, it was opened by `@"` and is closed by `"`, and
   * every quote inside it is escaped by the backslash just before it.
   */
  lemma LiteralCaptureShape(prefix: string, s: string, k: nat)
    requires '"' !in prefix
    requires k < |Scan(Literal(prefix), s)|
    ensures var h := Scan(Literal(prefix), s)[k];
      var id := Captures(Literal(prefix), s)[k];
      && StartsWith(id, prefix) && |id| > |prefix|
      && 2 <= h.from && s[h.from - 2] == '@' && s[h.from - 1] == '"'
      && h.to < |s| && s[h.to] == '"' && id == s[h.from..h.to]
      && (forall m :: 0 <= m < |id| && id[m] == '"' ==> 0 < m && id[m - 1] == '\\')
  {
    var h := Scan(Literal(prefix), s)[k];
    var id := Captures(Literal(prefix), s)[k];
    ScanSound(Literal(prefix), s, k);
    assert IsLiteralMatch(prefix, s, h);
    var j := h.from + |prefix|;
    forall m | 0 <= m < |id| && id[m] == '"' ensures 0 < m && id[m - 1] == '\\' {
      assert s[h.from + m] == '"';
      assert !IsBareQuote(s, j, h.from + m);
    }
  }

  /** `String#scan` finds, left to right, a hit at or around every position where the regex matches. */
  lemma ScanIsComplete(p: Pattern, s: string, i: nat) returns (k: nat)
    requires i < |s| && MatchAt(p, s, i).Some?
    ensures k < |Scan(p, s)| && Scan(p, s)[k].start <= i < Scan(p, s)[k].stop
  {
    MatchTableAt(p, s, i);
    k := ScanMissesNothing(MatchTable(p, s), 0, i);
  }

  /**
   * What `line.scan(regex)` collects, stated against the pattern itself:
   * every capture is the group of a match of the pattern, the matches come
   * left to right without overlapping, and every match of the pattern on the
   * line lies inside one of them.
   */
  lemma CapturesAreGroups(p: Pattern, s: string)
    ensures |Captures(p, s)| == |Scan(p, s)|
    ensures forall k :: 0 <= k < |Scan(p, s)| ==>
      IsMatch(p, s, Scan(p, s)[k]) && Captures(p, s)[k] == s[Scan(p, s)[k].from..Scan(p, s)[k].to]
    ensures forall a, b :: 0 <= a < b < |Scan(p, s)| ==> Scan(p, s)[a].stop <= Scan(p, s)[b].start
    ensures forall h :: IsMatch(p, s, h) ==>
      exists k :: 0 <= k < |Scan(p, s)| && Scan(p, s)[k].start <= h.start < Scan(p, s)[k].stop
  {
    forall k | 0 <= k < |Scan(p, s)| ensures IsMatch(p, s, Scan(p, s)[k]) {
      ScanSound(p, s, k);
      MatchAtCorrect(p, s, Scan(p, s)[k].start);
    }
    forall h | IsMatch(p, s, h)
      ensures exists k :: 0 <= k < |Scan(p, s)| && Scan(p, s)[k].start <= h.start < Scan(p, s)[k].stop
    {
      MatchAtCorrect(p, s, h.start);
      MatchStartsWithAt(p, s, h.start);
      var k := ScanIsComplete(p, s, h.start);
    }
  }

  /** Every match of the four patterns begins with `@`. */
  lemma MatchStartsWithAt(p: Pattern, s: string, i: nat)
    requires MatchAt(p, s, i).Some?
    ensures i < |s| && s[i] == '@'
  {
    var h := MatchAt(p, s, i).value;
    if p.ClassDecl? {
      assert IsClassMatch(s, h);
      assert s[i..i + |Keyword|][0] == Keyword[0];
    }
  }

  /** A line without `@` after `pos` yields no further matches. */
  lemma NoAtNoHits(p: Pattern, s: string, pos: nat)
    requires pos <= |s|
    requires forall i :: pos <= i < |s| ==> s[i] != '@'
    ensures ScanFrom(MatchTable(p, s), pos) == []
  {
    var t := MatchTable(p, s);
    forall i | pos <= i < |s| ensures t[i].None? {
      MatchTableAt(p, s, i);
      if t[i].Some? {
        MatchStartsWithAt(p, s, i);
      }
    }
    ScanEmptyWithoutMatch(t, pos);
  }

  /** A class match is determined by where it starts. */
  lemma ClassMatchIs(s: string, h: Hit)
    requires IsClassMatch(s, h)
    ensures MatchAt(ClassDecl, s, h.start) == Some(h)
  {
    var h' := ClassMatchAt(s, h.start).value;
    assert IsClassMatch(s, h');
  }

  /** A literal match is determined by where it starts. */
  lemma LiteralMatchIs(prefix: string, s: string, h: Hit)
    requires IsLiteralMatch(prefix, s, h)
    ensures MatchAt(Literal(prefix), s, h.start) == Some(h)
  {
    var h' := LiteralMatchAt(prefix, s, h.start).value;
    assert IsLongestBody(s, h.from + |prefix|, h.to);
    assert IsLongestBody(s, h'.from + |prefix|, h'.to);
  }

/** The class pattern on a line holding one declaration `@interface <name>...`. */
  lemma ClassExample(s: string, name: string, e: nat)
    requires e == 11 + |name| <= |s| && s[..e] == Keyword + " " + name
    requires |name| > 0 && IsIdentStart(name[0]) && forall m :: 0 <= m < |name| ==> IsWordChar(name[m])
    requires e == |s| || !IsWordChar(s[e])
    requires forall i :: e <= i < |s| ==> s[i] != '@'
    ensures Captures(ClassRegex, s) == [name]
  {
    var h := Hit(0, 11, e, e);
    assert s[0..10] == Keyword;
    assert forall m :: 11 <= m < e ==> s[m] == name[m - 11];
    assert IsClassMatch(s, h);
    ClassMatchIs(s, h);
    var t := MatchTable(ClassRegex, s);
    MatchTableAt(ClassRegex, s, 0);
    NoAtNoHits(ClassRegex, s, e);
    assert Scan(ClassRegex, s) == [h];
    assert s[11..e] == name;
  }

/** Examples of lines that declare no class. */
  lemma ClassPatternRejectsPlainWord()
    ensures Captures(ClassRegex, "Test") == []
  {
    NoAtNoHits(ClassRegex, "Test", 0);
  }

  lemma ClassPatternRejectsProtocol()
    ensures Captures(ClassRegex, "@protocol Test") == []
  {
    NoFirstMatch("@protocol Test");
  }

  lemma ClassPatternRejectsMissingSpace()
    ensures Captures(ClassRegex, "@interface@TEST.com") == []
  {
    NoFirstMatch("@interface@TEST.com");
  }

  /** A line whose first `@` does not open a class declaration. */
  lemma NoFirstMatch(s: string)
    requires 0 < |s| && s[0] == '@'
    requires forall i :: 1 <= i < |s| && s[i] == '@' ==> |s| < i + |Keyword|
    requires |s| < 10 || s[..10] != Keyword || SkipSpaces(s, 10) == 10
    ensures Scan(ClassRegex, s) == []
  {
    var t := MatchTable(ClassRegex, s);
    forall i | 0 <= i < |t| ensures t[i].None? {
      NoClassAt(s, i);
    }
    ScanEmptyWithoutMatch(t, 0);
  }

  lemma NoClassAt(s: string, i: nat)
    requires i < |s|
    requires 0 < i ==> s[i] != '@' || |s| < i + |Keyword|
    requires i == 0 ==> |s| < 10 || s[..10] != Keyword || SkipSpaces(s, 10) == 10
    ensures MatchTable(ClassRegex, s)[i].None?
  {
    MatchTableAt(ClassRegex, s, i);
    if 0 < i {
      NoKeywordAt(s, i);
    } else {
      NoClassAtStart(s);
    }
  }

  lemma NoClassAtStart(s: string)
    requires |s| < 10 || s[..10] != Keyword || SkipSpaces(s, 10) == 10
    ensures ClassMatchAt(s, 0).None?
  {
  }

  lemma NoKeywordAt(s: string, i: nat)
    requires i < |s| && (s[i] != '@' || |s| < i + |Keyword|)
    ensures ClassMatchAt(s, i).None?
  {
    if i + |Keyword| <= |s| {
      assert s[i..i + |Keyword|][0] == s[i];
    }
  }

  /** Examples of lines that declare a class. */
  lemma ClassPatternExamples()
    ensures Captures(ClassRegex, "@interface Test") == ["Test"]
  {
    ClassExample("@interface Test", "Test", 15);
  }

  lemma ClassPatternLongName()
    ensures Captures(ClassRegex, "@interface Test_1234__ClassNAME") == ["Test_1234__ClassNAME"]
  {
    var name := "Test_1234__ClassNAME";
    var s := "@interface Test_1234__ClassNAME";
    AllWordChars(name);
    LongLine(s, name);
    ClassExample(s, name, 31);
  }

  /** The declaration line of the fixture header `SPWKDetailViewController.h`, as `File.readlines` gives it. */
  lemma ClassPatternFixtureLine()
    ensures Captures(ClassRegex, "@interface SPWKDetailViewController" + " : UIViewController"
                                 + " <UISplitViewControllerDelegate>\n") == ["SPWKDetailViewController"]
  {
    var name := "SPWKDetailViewController";
    var superclass, protocols := " : UIViewController", " <UISplitViewControllerDelegate>\n";
    FixtureName(name);
    FixtureRest(superclass, protocols);
    DeclarationLine(name, superclass + protocols);
    assert Keyword + " " + name == "@interface SPWKDetailViewController";
    assert Keyword + " " + name + (superclass + protocols)
      == "@interface SPWKDetailViewController" + superclass + protocols;
  }

  /** `@interface <name><rest>`, where the name is complete and the rest holds no `@`. */
  lemma DeclarationLine(name: string, rest: string)
    requires |name| > 0 && IsIdentStart(name[0]) && forall m :: 0 <= m < |name| ==> IsWordChar(name[m])
    requires rest == [] || !IsWordChar(rest[0])
    requires '@' !in rest
    ensures Captures(ClassRegex, Keyword + " " + name + rest) == [name]
  {
    var s := Keyword + " " + name + rest;
    var e := 11 + |name|;
    assert s[..e] == Keyword + " " + name;
    assert forall i :: e <= i < |s| ==> s[i] == rest[i - e];
    ClassExample(s, name, e);
  }

  lemma FixtureName(name: string)
    requires name == "SPWKDetailViewController"
    ensures |name| > 0 && IsIdentStart(name[0]) && forall m :: 0 <= m < |name| ==> IsWordChar(name[m])
  {
  }

  lemma FixtureRest(superclass: string, protocols: string)
    requires superclass == " : UIViewController" && protocols == " <UISplitViewControllerDelegate>\n"
    ensures !IsWordChar((superclass + protocols)[0]) && '@' !in superclass + protocols
  {
    assert '@' !in superclass && '@' !in protocols;
  }

  lemma LongLine(s: string, name: string)
    requires s == "@interface Test_1234__ClassNAME" && name == "Test_1234__ClassNAME"
    ensures |s| == 31 && s[..31] == Keyword + " " + name
  {
  }

  lemma AllWordChars(name: string)
    requires name == "Test_1234__ClassNAME"
    ensures forall m :: 0 <= m < |name| ==> IsWordChar(name[m])
  {
  }

  /** A line that is exactly one quoted literal `@"<id>"` without inner quotes. */
  lemma LiteralExample(prefix: string, id: string, s: string)
    requires s == "@\"" + id + "\""
    requires StartsWith(id, prefix) && |prefix| < |id| && '"' !in id
    ensures Captures(Literal(prefix), s) == [id]
  {
    var e := 2 + |id|;
    var h := Hit(0, 2, e, e + 1);
    assert s[2..2 + |prefix|] == prefix by { assert s[2..e] == id; }
    var j := 2 + |prefix|;
    forall m | j <= m < e ensures !IsBareQuote(s, j, m) {
      assert s[m] == id[m - 2];
    }
    assert IsLiteralMatch(prefix, s, h);
    LiteralMatchIs(prefix, s, h);
    var t := MatchTable(Literal(prefix), s);
    MatchTableAt(Literal(prefix), s, 0);
    assert ScanFrom(t, 0) == [h] + ScanFrom(t, e + 1);
    assert s[2..e] == id;
  }

  /** The literal patterns on the example lines `@"seg_test"`, `@"sb_test"`, `@"ruid_test"`. */
  lemma SegueLiteralExample()
    ensures Captures(SegueIdRegex, "@\"seg_test\"") == ["seg_test"]
  {
    LiteralExample(SegueIdPrefix, "seg_test", "@\"seg_test\"");
  }

  lemma StoryboardLiteralExample()
    ensures Captures(StoryboardIdRegex, "@\"sb_test\"") == ["sb_test"]
  {
    LiteralExample(StoryboardIdPrefix, "sb_test", "@\"sb_test\"");
  }

  lemma ReuseLiteralExample()
    ensures Captures(ReuseIdRegex, "@\"ruid_test\"") == ["ruid_test"]
  {
    LiteralExample(ReuseIdPrefix, "ruid_test", "@\"ruid_test\"");
  }

  /** Without the opening `@"` an id is not captured. */
  lemma BareIdExamples()
    ensures Captures(StoryboardIdRegex, "sb_test") == []
    ensures Captures(StoryboardIdRegex, "test") == []
    ensures Captures(SegueIdRegex, "seg_test") == []
    ensures Captures(SegueIdRegex, "test") == []
    ensures Captures(ReuseIdRegex, "ruid_test") == []
    ensures Captures(ReuseIdRegex, "test") == []
  {
    NoAtNoHits(StoryboardIdRegex, "sb_test", 0);
    NoAtNoHits(StoryboardIdRegex, "test", 0);
    NoAtNoHits(SegueIdRegex, "seg_test", 0);
    NoAtNoHits(SegueIdRegex, "test", 0);
    NoAtNoHits(ReuseIdRegex, "ruid_test", 0);
    NoAtNoHits(ReuseIdRegex, "test", 0);
  }

  /** An escaped quote does not end the capture. */
  lemma EscapedQuoteExample()
    ensures Captures(SegueIdRegex, "@\"seg_a\\\"b\"") == ["seg_a\\\"b"]
  {
    var s := "@\"seg_a\\\"b\"";
    var h := Hit(0, 2, 10, 11);
    assert s[2..6] == SegueIdPrefix;
    assert IsBareQuote(s, 6, 10) && !IsBareQuote(s, 6, 8);
    assert IsLiteralMatch(SegueIdPrefix, s, h);
    LiteralMatchIs(SegueIdPrefix, s, h);
    var t := MatchTable(SegueIdRegex, s);
    MatchTableAt(SegueIdRegex, s, 0);
    assert ScanFrom(t, 0) == [h] + ScanFrom(t, 11);
    assert s[2..10] == "seg_a\\\"b";
  }

  /**
   * With no bare quote left on the line, the engine backs off to the last
   * escaped quote: the backslash before it ends the capture and the quote
   * itself closes the literal.
   */
  lemma UnterminatedLiteralExample()
    ensures Captures(SegueIdRegex, "@\"seg_a\\\"b") == ["seg_a\\"]
  {
    var s := "@\"seg_a\\\"b";
    var h := Hit(0, 2, 8, 9);
    assert s[2..6] == SegueIdPrefix;
    assert !IsBareQuote(s, 6, 8);
    assert IsLiteralMatch(SegueIdPrefix, s, h);
    LiteralMatchIs(SegueIdPrefix, s, h);
    var t := MatchTable(SegueIdRegex, s);
    MatchTableAt(SegueIdRegex, s, 0);
    NoAtNoHits(SegueIdRegex, s, 9);
    assert ScanFrom(t, 0) == [h] + ScanFrom(t, 9);
    assert s[2..8] == "seg_a\\";
  }
}
