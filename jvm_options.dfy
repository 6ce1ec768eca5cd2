/** The starter's JVM options file: each line is a comment, a blank line, or an option with an
    optional Java-major-version prefix `N:`, `N-:` or `N-M:`; the options that apply to the
    running version are collected, and any malformed line makes the whole file fail. */
module JvmOptions {
  import opened Wrappers
  import opened JavaText
  import opened JavaErrors

  /** The file the parser reads inside the configuration directory. */
  const OptionsFileName := "jvm_options"

  /** The groups `start`, `range` and `end` of the line pattern, as text. */
  datatype VersionPrefix =
    | NoPrefix
    | Exact(lower: string)
    | AtLeast(lower: string)
    | Between(lower: string, upper: string)

  /** A successful match of the whole line: the version prefix and the `option` group. */
  datatype PatternMatch = PatternMatch(prefix: VersionPrefix, option: string)

  /** The `option` group `-.*`: a dash, then characters that `.` matches. */
  predicate IsOptionText(s: string) {
    |s| >= 1 && s[0] == '-' && forall i | 0 <= i < |s| :: !IsLineTerminator(s[i])
  }

  /** `\d+`. */
  predicate IsDigitRun(s: string) {
    s != [] && AllDigits(s)
  }

  predicate WellFormedPrefix(p: VersionPrefix) {
    match p
    case NoPrefix => true
    case Exact(n) => IsDigitRun(n)
    case AtLeast(n) => IsDigitRun(n)
    case Between(n, m) => IsDigitRun(n) && IsDigitRun(m)
  }

  predicate WellFormed(m: PatternMatch) {
    WellFormedPrefix(m.prefix) && IsOptionText(m.option)
  }

  /** The line a match was made from: the reference reading of the pattern. */
  function Render(m: PatternMatch): string {
    match m.prefix
    case NoPrefix => m.option
    case Exact(n) => n + ":" + m.option
    case AtLeast(n) => n + "-:" + m.option
    case Between(n, u) => n + "-" + u + ":" + m.option
  }

  /** The length of the run of ASCII digits starting at `from`. */
  function DigitRun(s: string, from: nat): (n: nat)
    requires from <= |s|
    ensures from + n <= |s|
    ensures AllDigits(s[from..from + n])
    ensures from + n == |s| || !IsAsciiDigit(s[from + n])
    decreases |s| - from
  {
    if from == |s| || !IsAsciiDigit(s[from]) then 0
    else
      var k := DigitRun(s, from + 1);
      assert s[from..from + 1 + k] == [s[from]] + s[from + 1..from + 1 + k];
      1 + k
  }

  /** The option part after a prefix ending at `colon`, when `colon` holds the ':'. */
  function OptionAfter(line: string, colon: nat): (r: Option<string>)
    ensures r.Some? ==> colon < |line| && r.value == line[colon + 1..] && IsOptionText(r.value)
  {
    if colon < |line| && line[colon] == ':' && IsOptionText(line[colon + 1..])
    then Some(line[colon + 1..])
    else None
  }

  /** `matcher.matches()` on the line pattern. The prefix group can only begin with a digit and
      the option group only with a dash, so at most one reading of a line exists; the greedy
      `\d+` of `start` and `end` takes the whole digit run. */
  function MatchPattern(line: string): (r: Option<PatternMatch>)
    ensures r.Some? ==> WellFormed(r.value) && Render(r.value) == line
  {
    if IsOptionText(line) then Some(PatternMatch(NoPrefix, line))
    else MatchPrefixed(line, DigitRun(line, 0))
  }

  /** The match of a line whose `start` group is its first `d1` characters. */
  function MatchPrefixed(line: string, d1: nat): (r: Option<PatternMatch>)
    requires d1 <= |line| && AllDigits(line[..d1])
    ensures r.Some? ==> WellFormed(r.value) && Render(r.value) == line
  {
    if d1 == 0 || d1 == |line| then None
    else if line[d1] == ':' then
      match OptionAfter(line, d1)
      case None => None
      case Some(o) =>
        assert line == line[..d1] + ":" + o;
        Some(PatternMatch(Exact(line[..d1]), o))
    else if line[d1] == '-' then MatchRange(line, d1, DigitRun(line, d1 + 1))
    else None
  }

  /** The match of a line whose `start` group is followed by the `range` dash and an `end`
      group of `d2` digits. */
  function MatchRange(line: string, d1: nat, d2: nat): (r: Option<PatternMatch>)
    requires 0 < d1 < |line| && d1 + 1 + d2 <= |line| && line[d1] == '-'
    requires IsDigitRun(line[..d1]) && AllDigits(line[d1 + 1..d1 + 1 + d2])
    ensures r.Some? ==> WellFormed(r.value) && Render(r.value) == line
  {
    match OptionAfter(line, d1 + 1 + d2)
    case None => None
    case Some(o) =>
      if d2 == 0 then
        assert line == line[..d1] + "-:" + o;
        Some(PatternMatch(AtLeast(line[..d1]), o))
      else
        assert line == line[..d1] + "-" + line[d1 + 1..d1 + 1 + d2] + ":" + o;
        Some(PatternMatch(Between(line[..d1], line[d1 + 1..d1 + 1 + d2]), o))
  }

  /** A digit run followed by a non-digit ends where the run ends. */
  lemma {:induction false} DigitRunStops(s: string, from: nat, k: nat)
    requires from + k < |s|
    requires AllDigits(s[from..from + k]) && !IsAsciiDigit(s[from + k])
    ensures DigitRun(s, from) == k
    decreases k
  {
    if k > 0 {
      assert s[from] == s[from..from + k][0];
      assert s[from + 1..from + 1 + (k - 1)] == s[from..from + k][1..];
      DigitRunStops(s, from + 1, k - 1);
    }
  }

  /** The line `n` + `rest`, with `n` a digit run and `rest` starting with a non-digit, is
      not an unprefixed option and its first digit run is `n`. */
  lemma LeadingRun(line: string, n: string, rest: string)
    requires line == n + rest && IsDigitRun(n) && rest != [] && !IsAsciiDigit(rest[0])
    ensures !IsOptionText(line)
    ensures DigitRun(line, 0) == |n| && line[..|n|] == n && line[|n|..] == rest
  {
    assert line[0] == n[0];
    assert line[..|n|] == n && line[|n|] == rest[0];
    DigitRunStops(line, 0, |n|);
  }

  /** Every well-formed match is found again in the line it renders to. */
  lemma MatchPatternComplete(m: PatternMatch)
    requires WellFormed(m)
    ensures MatchPattern(Render(m)) == Some(m)
  {
    match m.prefix
    case NoPrefix =>
    case Exact(n) => MatchExactComplete(n, m.option);
    case AtLeast(n) => MatchAtLeastComplete(n, m.option);
    case Between(n, u) => MatchBetweenComplete(n, u, m.option);
  }

  lemma MatchExactComplete(n: string, option: string)
    requires IsDigitRun(n) && IsOptionText(option)
    ensures MatchPattern(n + ":" + option) == Some(PatternMatch(Exact(n), option))
  {
    var line := n + ":" + option;
    LeadingRun(line, n, ":" + option);
    assert line[|n| + 1..] == option;
    assert OptionAfter(line, |n|) == Some(option);
  }

  lemma MatchAtLeastComplete(n: string, option: string)
    requires IsDigitRun(n) && IsOptionText(option)
    ensures MatchPattern(n + "-:" + option) == Some(PatternMatch(AtLeast(n), option))
  {
    var line := n + "-:" + option;
    assert line[..|n|] == n && line[|n|] == '-' && line[|n| + 1] == ':' && line[|n| + 2..] == option;
    MatchAtLeastSlices(line, n, option);
  }

  /** MatchAtLeastComplete for a line given by its slices. */
  lemma MatchAtLeastSlices(line: string, n: string, option: string)
    requires IsDigitRun(n) && IsOptionText(option)
    requires |line| == |n| + 2 + |option|
    requires line[..|n|] == n && line[|n|] == '-' && line[|n| + 1] == ':' && line[|n| + 2..] == option
    ensures MatchPattern(line) == Some(PatternMatch(AtLeast(n), option))
  {
    assert line[0] == n[0];
    DigitRunStops(line, 0, |n|);
    DigitRunStops(line, |n| + 1, 0);
    assert OptionAfter(line, |n| + 1) == Some(option);
    assert MatchRange(line, |n|, 0) == Some(PatternMatch(AtLeast(n), option));
  }

  lemma MatchBetweenComplete(n: string, u: string, option: string)
    requires IsDigitRun(n) && IsDigitRun(u) && IsOptionText(option)
    ensures MatchPattern(n + "-" + u + ":" + option) == Some(PatternMatch(Between(n, u), option))
  {
    var line := n + "-" + u + ":" + option;
    var j := |n| + 1 + |u|;
    assert line[..|n|] == n && line[|n|] == '-' && line[|n| + 1..j] == u;
    assert line[j] == ':' && line[j + 1..] == option;
    MatchBetweenSlices(line, n, u, option);
  }

  /** MatchBetweenComplete for a line given by its slices. */
  lemma MatchBetweenSlices(line: string, n: string, u: string, option: string)
    requires IsDigitRun(n) && IsDigitRun(u) && IsOptionText(option)
    requires |line| == |n| + 2 + |u| + |option|
    requires line[..|n|] == n && line[|n|] == '-' && line[|n| + 1..|n| + 1 + |u|] == u
    requires line[|n| + 1 + |u|] == ':' && line[|n| + 2 + |u|..] == option
    ensures MatchPattern(line) == Some(PatternMatch(Between(n, u), option))
  {
    var j := |n| + 1 + |u|;
    assert line[0] == n[0];
    DigitRunStops(line, 0, |n|);
    DigitRunStops(line, |n| + 1, |u|);
    assert OptionAfter(line, j) == Some(option);
    assert MatchRange(line, |n|, |u|) == Some(PatternMatch(Between(n, u), option));
  }

  /** What a line contributes: an option, an invalid-line report, or nothing. */
  datatype LineKind = Comment | Blank | Accepted(option: string) | OtherVersion | Invalid

  /** The version range a prefix names, with Integer.parseInt of its bounds; None where a
      bound overflows int or the range is empty. */
  function Bounds(p: VersionPrefix): (r: Option<(int, int)>)
    requires p != NoPrefix
    ensures r.Some? ==> IntMin <= r.value.0 <= r.value.1 <= IntMax
  {
    match ParseInt(p.lower)
    case None => None
    case Some(lower) =>
      match p
      case Exact(_) => Some((lower, lower))
      case AtLeast(_) => Some((lower, IntMax))
      case Between(_, u) =>
        match ParseInt(u)
        case None => None
        case Some(upper) => if upper < lower then None else Some((lower, upper))
  }

  /** One pass of the parse loop's body over a line, for the running Java major version. */
  function Classify(version: int, line: string): LineKind {
    if StartsWith(line, "#") then Comment
    else if forall i | 0 <= i < |line| :: IsRegexSpace(line[i]) then Blank
    else
      match MatchPattern(line)
      case None => Invalid
      case Some(m) =>
        if m.prefix == NoPrefix then Accepted(line)
        else
          match Bounds(m.prefix)
          case None => Invalid
          case Some((lower, upper)) =>
            if lower <= version <= upper then Accepted(m.option) else OtherVersion
  }

  /** A comment or a whitespace-only line yields neither an option nor an error. */
  lemma ClassifySkips(version: int, line: string)
    requires StartsWith(line, "#") || forall i | 0 <= i < |line| :: IsRegexSpace(line[i])
    ensures Classify(version, line) == Comment || Classify(version, line) == Blank
  {
  }

  /** A line starting with a digit is neither a comment nor blank. */
  lemma DigitLineIsNotSkipped(line: string)
    requires line != [] && IsAsciiDigit(line[0])
    ensures !StartsWith(line, "#")
    ensures !(forall i | 0 <= i < |line| :: IsRegexSpace(line[i]))
  {
    assert line[..1] == [line[0]];
  }

  /** A well-formed option with no prefix is accepted whole, whatever the version. */
  lemma ClassifyUnprefixed(version: int, option: string)
    requires IsOptionText(option)
    ensures Classify(version, option) == Accepted(option)
  {
    assert option[..1] == [option[0]];
    assert !IsRegexSpace(option[0]);
  }

  /** `N:opt` is accepted exactly for version N; an N that overflows int is invalid. */
  lemma ClassifyExact(version: int, n: string, option: string)
    requires IsDigitRun(n) && IsOptionText(option)
    ensures Classify(version, n + ":" + option) ==
      if ParseInt(n).None? then Invalid
      else if version == ParseInt(n).value then Accepted(option)
      else OtherVersion
  {
    var m := PatternMatch(Exact(n), option);
    MatchPatternComplete(m);
    assert (n + ":" + option)[0] == n[0];
    DigitLineIsNotSkipped(Render(m));
  }

  /** `N-:opt` is accepted exactly for the versions from N on. */
  lemma ClassifyAtLeast(version: int, n: string, option: string)
    requires IsDigitRun(n) && IsOptionText(option)
    ensures Classify(version, n + "-:" + option) ==
      if ParseInt(n).None? then Invalid
      else if ParseInt(n).value <= version <= IntMax then Accepted(option)
      else OtherVersion
  {
    var m := PatternMatch(AtLeast(n), option);
    MatchPatternComplete(m);
    assert (n + "-:" + option)[0] == n[0];
    DigitLineIsNotSkipped(Render(m));
  }

  /** `N-M:opt` is accepted exactly for N <= version <= M; M < N or an overflowing bound is
      invalid. */
  lemma ClassifyBetween(version: int, n: string, u: string, option: string)
    requires IsDigitRun(n) && IsDigitRun(u) && IsOptionText(option)
    ensures Classify(version, n + "-" + u + ":" + option) ==
      if ParseInt(n).None? || ParseInt(u).None? then Invalid
      else if ParseInt(u).value < ParseInt(n).value then Invalid
      else if ParseInt(n).value <= version <= ParseInt(u).value then Accepted(option)
      else OtherVersion
  {
    var m := PatternMatch(Between(n, u), option);
    MatchPatternComplete(m);
    assert Render(m)[0] == n[0];
    ClassifyPrefixed(version, Render(m), m);
  }

  /** On a line with a version prefix, the outcome is decided by the prefix's bounds. */
  lemma ClassifyPrefixed(version: int, line: string, m: PatternMatch)
    requires line != [] && IsAsciiDigit(line[0])
    requires MatchPattern(line) == Some(m) && m.prefix != NoPrefix
    ensures Classify(version, line) ==
      if Bounds(m.prefix).None? then Invalid
      else if Bounds(m.prefix).value.0 <= version <= Bounds(m.prefix).value.1 then Accepted(m.option)
      else OtherVersion
  {
    DigitLineIsNotSkipped(line);
  }

  /** Any other line that is neither a comment nor blank is reported invalid. */
  lemma ClassifyUnmatched(version: int, line: string)
    requires !StartsWith(line, "#") && exists i | 0 <= i < |line| :: !IsRegexSpace(line[i])
    requires forall m | WellFormed(m) :: Render(m) != line
    ensures Classify(version, line) == Invalid
  {
    if MatchPattern(line).Some? {
      assert false;
    }
  }

  /** The sample options of the documentation, for Java 8 and for Java 9 and later. */
  const GcDateStamps := "-XX:+PrintGCDateStamps"
  const GcLog := "-Xlog:age*=trace," + "gc*,safepoint:" + "file=logs/gc.log:" + "utctime,pid," + "tags:filecount=32," + "filesize=64m"

  predicate NoLineTerminator(s: string) {
    forall i | 0 <= i < |s| :: !IsLineTerminator(s[i])
  }

  lemma NoLineTerminatorConcat(a: string, b: string)
    requires NoLineTerminator(a) && NoLineTerminator(b)
    ensures NoLineTerminator(a + b)
  {
    forall i | 0 <= i < |a + b|
      ensures !IsLineTerminator((a + b)[i])
    {
      if i >= |a| {
        assert (a + b)[i] == b[i - |a|];
      }
    }
  }

  lemma SampleOptionsAreOptionText()
    ensures IsOptionText(GcDateStamps) && IsOptionText(GcLog)
  {
    var p1, p2, p3 := "-Xlog:age*=trace,", "gc*,safepoint:", "file=logs/gc.log:";
    var p4, p5, p6 := "utctime,pid,", "tags:filecount=32,", "filesize=64m";
    assert GcLog == p1 + p2 + p3 + p4 + p5 + p6;
    FirstSamplePartsPlain();
    LastSamplePartsPlain();
    NoLineTerminatorConcat(p1, p2);
    NoLineTerminatorConcat(p1 + p2, p3);
    NoLineTerminatorConcat(p1 + p2 + p3, p4);
    NoLineTerminatorConcat(p1 + p2 + p3 + p4, p5);
    NoLineTerminatorConcat(p1 + p2 + p3 + p4 + p5, p6);
    assert GcLog[0] == p1[0];
  }

  lemma FirstSamplePartsPlain()
    ensures NoLineTerminator(GcDateStamps)
    ensures NoLineTerminator("-Xlog:age*=trace,") && NoLineTerminator("gc*,safepoint:")
  {
  }

  lemma LastSamplePartsPlain()
    ensures NoLineTerminator("file=logs/gc.log:") && NoLineTerminator("utctime,pid,")
    ensures NoLineTerminator("tags:filecount=32,") && NoLineTerminator("filesize=64m")
  {
  }

  lemma SmallVersions()
    ensures ParseInt("7") == Some(7) && ParseInt("8") == Some(8)
    ensures ParseInt("9") == Some(9) && ParseInt("10") == Some(10)
    ensures IsDigitRun("7") && IsDigitRun("8") && IsDigitRun("9") && IsDigitRun("10")
  {
    ParseIntOfNatToString(7);
    ParseIntOfNatToString(8);
    ParseIntOfNatToString(9);
    ParseIntOfNatToString(10);
    assert NatToString(7) == "7" && NatToString(8) == "8" && NatToString(9) == "9";
    assert NatToString(10) == "10" by { assert NatToString(1) == "1"; }
  }

  /** The documented forms for Java 8 that are accepted with their option: unprefixed and
      `8:`. */
  lemma DocumentedAcceptedForJava8(option: string)
    requires IsOptionText(option)
    ensures Classify(8, option) == Accepted(option)
    ensures Classify(8, "8:" + option) == Accepted(option)
  {
    ClassifyUnprefixed(8, option);
    ExactForJava8(option);
  }

  lemma ExactForJava8(option: string)
    requires IsOptionText(option)
    ensures Classify(8, "8:" + option) == Accepted(option)
  {
    var line := "8:" + option;
    assert line == "8" + ":" + option;
    SmallVersions();
    ClassifyExact(8, "8", option);
  }

  /** The documented range forms for Java 8 that are accepted with their option: `8-:` and
      `7-8:`. */
  lemma DocumentedRangesAcceptedForJava8(option: string)
    requires IsOptionText(option)
    ensures Classify(8, "8-:" + option) == Accepted(option)
    ensures Classify(8, "7-8:" + option) == Accepted(option)
  {
    AtLeastForJava8(option);
    BetweenForJava8(option);
  }

  lemma AtLeastForJava8(option: string)
    requires IsOptionText(option)
    ensures Classify(8, "8-:" + option) == Accepted(option)
  {
    var line := "8-:" + option;
    assert line == "8" + "-:" + option;
    SmallVersions();
    ClassifyAtLeast(8, "8", option);
  }

  lemma BetweenForJava8(option: string)
    requires IsOptionText(option)
    ensures Classify(8, "7-8:" + option) == Accepted(option)
  {
    var line := "7-8:" + option;
    assert line == "7" + "-" + "8" + ":" + option;
    SmallVersions();
    ClassifyBetween(8, "7", "8", option);
  }

  /** The documented forms for Java 8 that are passed over, neither accepted nor reported
      invalid: `9:`, `9-:` and `9-10:`. */
  lemma DocumentedSkippedForJava8(option: string)
    requires IsOptionText(option)
    ensures Classify(8, "9:" + option) == OtherVersion
    ensures Classify(8, "9-:" + option) == OtherVersion
    ensures Classify(8, "9-10:" + option) == OtherVersion
  {
    ExactSkippedForJava8(option);
    AtLeastSkippedForJava8(option);
    BetweenSkippedForJava8(option);
  }

  lemma ExactSkippedForJava8(option: string)
    requires IsOptionText(option)
    ensures Classify(8, "9:" + option) == OtherVersion
  {
    var line := "9:" + option;
    assert line == "9" + ":" + option;
    SmallVersions();
    ClassifyExact(8, "9", option);
  }

  lemma AtLeastSkippedForJava8(option: string)
    requires IsOptionText(option)
    ensures Classify(8, "9-:" + option) == OtherVersion
  {
    var line := "9-:" + option;
    assert line == "9" + "-:" + option;
    SmallVersions();
    ClassifyAtLeast(8, "9", option);
  }

  lemma BetweenSkippedForJava8(option: string)
    requires IsOptionText(option)
    ensures Classify(8, "9-10:" + option) == OtherVersion
  {
    var line := "9-10:" + option;
    assert line == "9" + "-" + "10" + ":" + option;
    SmallVersions();
    ClassifyBetween(8, "9", "10", option);
  }

  /** The documentation's own examples. */
  lemma DocumentedExamples()
    ensures Classify(8, GcDateStamps) == Accepted(GcDateStamps)
    ensures Classify(8, "8:" + GcDateStamps) == Accepted(GcDateStamps)
    ensures Classify(8, "8-:" + GcDateStamps) == Accepted(GcDateStamps)
    ensures Classify(8, "7-8:" + GcDateStamps) == Accepted(GcDateStamps)
    ensures Classify(8, "9:" + GcLog) == OtherVersion
    ensures Classify(8, "9-:" + GcLog) == OtherVersion
    ensures Classify(8, "9-10:" + GcLog) == OtherVersion
  {
    SampleOptionsAreOptionText();
    DocumentedAcceptedForJava8(GcDateStamps);
    DocumentedRangesAcceptedForJava8(GcDateStamps);
    DocumentedSkippedForJava8(GcLog);
  }

  /** An invalid-line callback: the 1-based line number and the whole line. */
  datatype InvalidLine = InvalidLine(lineNumber: int, line: string)

  /** What each line contributes, as a function of the line alone. */
  type Classifier = string -> LineKind

  /** The parse loop's body for the running Java major version. */
  function ClassifierFor(version: int): Classifier {
    line => Classify(version, line)
  }

  /** The options a classifier lets through, in file order. */
  function Collected(kind: Classifier, lines: seq<string>): seq<string> {
    if lines == [] then []
    else
      var last := lines[|lines| - 1];
      Collected(kind, lines[..|lines| - 1]) + (match kind(last) case Accepted(o) => [o] case _ => [])
  }

  /** The lines a classifier reports invalid, with their 1-based numbers, in file order. */
  function Reported(kind: Classifier, lines: seq<string>): seq<InvalidLine> {
    if lines == [] then []
    else
      var last := lines[|lines| - 1];
      Reported(kind, lines[..|lines| - 1]) + (if kind(last) == Invalid then [InvalidLine(|lines|, last)] else [])
  }

  /** The options the option callback receives, in file order. */
  function Options(version: int, lines: seq<string>): seq<string> {
    Collected(ClassifierFor(version), lines)
  }

  /** The invalid-line callbacks, in file order. */
  function Invalids(version: int, lines: seq<string>): seq<InvalidLine> {
    Reported(ClassifierFor(version), lines)
  }

  /** JvmOptionsParser.parse over the lines the reader yields. */
  method Parse(version: int, lines: seq<string>) returns (options: seq<string>, invalid: seq<InvalidLine>)
    ensures options == Options(version, lines)
    ensures invalid == Invalids(version, lines)
  {
    options, invalid := [], [];
    var lineNumber := 0;
    while true
      invariant 0 <= lineNumber <= |lines|
      invariant options == Options(version, lines[..lineNumber])
      invariant invalid == Invalids(version, lines[..lineNumber])
      decreases |lines| - lineNumber
    {
      var next := if lineNumber < |lines| then Some(lines[lineNumber]) else None;
      lineNumber := lineNumber + 1;
      if next.None? {
        assert lines[..lineNumber - 1] == lines;
        break;
      }
      var line := next.value;
      assert lines[..lineNumber][..lineNumber - 1] == lines[..lineNumber - 1];
      match Classify(version, line)
      case Accepted(o) => options := options + [o];
      case Invalid => invalid := invalid + [InvalidLine(lineNumber, line)];
      case _ =>
    }
  }

  // ----- The callbacks, for any classifier -----

  lemma {:induction false} CollectedReportedBound(kind: Classifier, lines: seq<string>)
    ensures |Collected(kind, lines)| + |Reported(kind, lines)| <= |lines|
  {
    if lines != [] {
      CollectedReportedBound(kind, lines[..|lines| - 1]);
    }
  }

  lemma {:induction false} CollectedConcat(kind: Classifier, a: seq<string>, b: seq<string>)
    ensures Collected(kind, a + b) == Collected(kind, a) + Collected(kind, b)
    decreases |b|
  {
    if b != [] {
      var b' := b[..|b| - 1];
      assert (a + b)[..|a + b| - 1] == a + b';
      CollectedConcat(kind, a, b');
    } else {
      assert a + b == a;
    }
  }

  lemma {:induction false} CollectedHasAcceptedLine(kind: Classifier, lines: seq<string>, o: string)
    requires o in Collected(kind, lines)
    ensures exists i | 0 <= i < |lines| :: kind(lines[i]) == Accepted(o)
  {
    var init := lines[..|lines| - 1];
    if o in Collected(kind, init) {
      CollectedHasAcceptedLine(kind, init, o);
      var i :| 0 <= i < |init| && kind(init[i]) == Accepted(o);
      assert lines[i] == init[i];
    } else {
      assert kind(lines[|lines| - 1]) == Accepted(o);
    }
  }

  lemma {:induction false} AcceptedLineCollected(kind: Classifier, lines: seq<string>, i: int, o: string)
    requires 0 <= i < |lines| && kind(lines[i]) == Accepted(o)
    ensures o in Collected(kind, lines)
  {
    var init := lines[..|lines| - 1];
    if i < |init| {
      assert init[i] == lines[i];
      AcceptedLineCollected(kind, init, i, o);
    }
  }

  lemma {:induction false} ReportedSound(kind: Classifier, lines: seq<string>)
    ensures forall e | e in Reported(kind, lines) ::
      1 <= e.lineNumber <= |lines| && lines[e.lineNumber - 1] == e.line && kind(e.line) == Invalid
  {
    if lines != [] {
      var init := lines[..|lines| - 1];
      ReportedSound(kind, init);
      forall e | e in Reported(kind, init)
        ensures lines[e.lineNumber - 1] == e.line
      {
        assert init[e.lineNumber - 1] == lines[e.lineNumber - 1];
      }
    }
  }

  lemma {:induction false} ReportedComplete(kind: Classifier, lines: seq<string>)
    ensures forall i | 0 <= i < |lines| && kind(lines[i]) == Invalid ::
      InvalidLine(i + 1, lines[i]) in Reported(kind, lines)
  {
    if lines != [] {
      var init := lines[..|lines| - 1];
      ReportedComplete(kind, init);
      var last := lines[|lines| - 1];
      var tail := if kind(last) == Invalid then [InvalidLine(|lines|, last)] else [];
      assert Reported(kind, lines) == Reported(kind, init) + tail;
      forall i | 0 <= i < |lines| && kind(lines[i]) == Invalid
        ensures InvalidLine(i + 1, lines[i]) in Reported(kind, lines)
      {
        if i < |init| {
          assert init[i] == lines[i];
          assert InvalidLine(i + 1, init[i]) in Reported(kind, init);
        } else {
          assert tail == [InvalidLine(i + 1, lines[i])];
        }
      }
    }
  }

  lemma {:induction false} ReportedIncreasing(kind: Classifier, lines: seq<string>)
    ensures forall j, k | 0 <= j < k < |Reported(kind, lines)| ::
      Reported(kind, lines)[j].lineNumber < Reported(kind, lines)[k].lineNumber
  {
    if lines != [] {
      var init := lines[..|lines| - 1];
      ReportedIncreasing(kind, init);
      ReportedSound(kind, init);
      var r := Reported(kind, lines);
      var p := Reported(kind, init);
      forall j, k | 0 <= j < k < |r|
        ensures r[j].lineNumber < r[k].lineNumber
      {
        if k >= |p| {
          assert r[j] == p[j] && r[j] in p;
        }
      }
    }
  }

  // ----- The callbacks of the parser -----

  /** Every line causes at most one callback. */
  lemma OneCallbackPerLine(version: int, lines: seq<string>)
    ensures |Options(version, lines)| + |Invalids(version, lines)| <= |lines|
  {
    CollectedReportedBound(ClassifierFor(version), lines);
  }

  /** The options of a file are those of its first part followed by those of the rest. */
  lemma OptionsInFileOrder(version: int, a: seq<string>, b: seq<string>)
    ensures Options(version, a + b) == Options(version, a) + Options(version, b)
  {
    CollectedConcat(ClassifierFor(version), a, b);
  }

  /** An option is emitted exactly when some line is accepted with it. */
  lemma OptionsFromAcceptedLines(version: int, lines: seq<string>, o: string)
    ensures o in Options(version, lines) <==>
      exists i | 0 <= i < |lines| :: Classify(version, lines[i]) == Accepted(o)
  {
    var kind := ClassifierFor(version);
    if o in Options(version, lines) {
      CollectedHasAcceptedLine(kind, lines, o);
      var i :| 0 <= i < |lines| && kind(lines[i]) == Accepted(o);
      assert Classify(version, lines[i]) == Accepted(o);
    }
    if exists i | 0 <= i < |lines| :: Classify(version, lines[i]) == Accepted(o) {
      var i :| 0 <= i < |lines| && Classify(version, lines[i]) == Accepted(o);
      AcceptedLineCollected(kind, lines, i, o);
    }
  }

  /** Every invalid-line report names an invalid line by its 1-based number. */
  lemma InvalidsSound(version: int, lines: seq<string>)
    ensures forall e | e in Invalids(version, lines) ::
      1 <= e.lineNumber <= |lines| && lines[e.lineNumber - 1] == e.line
      && Classify(version, e.line) == Invalid
  {
    ReportedSound(ClassifierFor(version), lines);
  }

  /** Every invalid line is reported, with its 1-based number. */
  lemma InvalidsComplete(version: int, lines: seq<string>)
    ensures forall i | 0 <= i < |lines| && Classify(version, lines[i]) == Invalid ::
      InvalidLine(i + 1, lines[i]) in Invalids(version, lines)
  {
    ReportedComplete(ClassifierFor(version), lines);
  }

  /** Reports come in strictly increasing line order, so no line number is reported twice. */
  lemma InvalidsIncreasing(version: int, lines: seq<string>)
    ensures forall j, k | 0 <= j < k < |Invalids(version, lines)| ::
      Invalids(version, lines)[j].lineNumber < Invalids(version, lines)[k].lineNumber
  {
    ReportedIncreasing(ClassifierFor(version), lines);
  }

  /** The message of the exception for `count` invalid lines of `file`. */
  function ErrorMessage(count: nat, file: string): (s: string)
    ensures StartsWith(s, "encountered [" + IntToString(count) + "] error")
  {
    "encountered [" + IntToString(count) + "] error" + (if count == 1 then "" else "s")
      + " parsing [" + file + "]"
  }

  /** JvmOptionsParser.readJvmOptionsFiles for the single file `jvm_options` of the
      configuration directory, whose path is `file` and whose lines are `lines`. */
  method ReadJvmOptionsFiles(version: int, file: string, lines: seq<string>)
    returns (r: Result<seq<string>, Exception>)
    ensures r.Err? <==> Invalids(version, lines) != []
    ensures r.Ok? ==> r.value == Options(version, lines)
    ensures r.Err? ==>
      r.error == JvmOptionsParserException(ErrorMessage(|Invalids(version, lines)|, file))
  {
    var jvmOptions, invalidLines := Parse(version, lines);
    if invalidLines != [] {
      return Err(JvmOptionsParserException(ErrorMessage(|invalidLines|, file)));
    }
    return Ok(jvmOptions);
  }

  /** A file with a malformed line fails however many good lines surround it. */
  lemma InvalidLineFailsFile(version: int, lines: seq<string>, i: nat)
    requires i < |lines| && Classify(version, lines[i]) == Invalid
    ensures Invalids(version, lines) != []
    ensures InvalidLine(i + 1, lines[i]) in Invalids(version, lines)
  {
    InvalidsComplete(version, lines);
  }
}
