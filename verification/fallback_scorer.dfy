/** The heuristic fallback scorer of the analyze endpoint
    (`getFallbackAnalysis`): it reads a fixed set of signals off the text,
    adds fixed amounts to a neutral 50, clamps to [0, 100], and builds the
    verdict text, finding lists, sources and correction from the score. */
module FallbackScorer {
  import opened Lists
  import opened Text
  import opened Verdicts

  /** The scorer's case-insensitive word-boundary patterns, left
      uninterpreted: each field says whether its regular expression matches
      the text. `sensational` is the hype-word pattern, `citations` the
      research-attribution pattern, `stats` the percentage/rate pattern,
      `dates` the recency pattern, `vague` the unattributed-claim pattern. */
  datatype Patterns = Patterns(
    sensational: string -> bool,
    citations: string -> bool,
    stats: string -> bool,
    dates: string -> bool,
    vague: string -> bool)

  /** Each of those patterns needs at least one character to match, so none
      of them matches the empty text. */
  predicate SilentOnEmpty(p: Patterns) {
    !p.sensational("") && !p.citations("") && !p.stats("") && !p.dates("") && !p.vague("")
  }

  /** The signals read off one text. */
  datatype Signals = Signals(
    hasExclamations: bool,
    hasSensationalWords: bool,
    hasUrls: bool,
    wordCount: nat,
    hasNumbers: bool,
    hasCitations: bool,
    hasStats: bool,
    hasQuotes: bool,
    hasDateReferences: bool,
    hasVagueClaims: bool)

  /** No boolean signal is set (the word count may be anything). */
  predicate NoneDetected(s: Signals) {
    && !s.hasExclamations && !s.hasSensationalWords && !s.hasUrls && !s.hasNumbers
    && !s.hasCitations && !s.hasStats && !s.hasQuotes && !s.hasDateReferences && !s.hasVagueClaims
  }

  /** The signals of one text. The four concrete detectors mean what their
      patterns say: a run of three exclamation marks, `http`, an optional
      `s` and `://` in a row, a digit, and a quote with a later quote and
      none between. */
  function Detect(text: string, p: Patterns): (s: Signals)
    ensures s.wordCount == Count(text, ' ') + 1
    ensures s.hasExclamations <==> exists i: nat :: OccursAt(text, "!!!", i)
    ensures s.hasUrls <==> exists i: nat :: UrlAt(text, i)
    ensures s.hasNumbers <==> exists i :: 0 <= i < |text| && IsDigit(text[i])
    ensures s.hasQuotes <==> exists i, j :: QuotedSpanAt(text, i, j)
    ensures |text| == 0 && SilentOnEmpty(p) ==> NoneDetected(s) && s.wordCount == 1
  {
    HasUrlMatchesPattern(text);
    Signals(
      hasExclamations := Includes(text, "!!!"),
      hasSensationalWords := p.sensational(text),
      hasUrls := HasUrl(text),
      wordCount := WordCount(text),
      hasNumbers := HasDigit(text),
      hasCitations := p.citations(text),
      hasStats := p.stats(text),
      hasQuotes := HasQuotedSpan(text),
      hasDateReferences := p.dates(text),
      hasVagueClaims := p.vague(text))
  }

  /** What `if (cond) score += delta` contributes to the score. */
  function Adjustment(cond: bool, delta: int): int {
    if cond then delta else 0
  }

  /** Content-structure factors: shortness, length and vague attribution. */
  function StructureAdjustment(s: Signals): int {
    Adjustment(s.wordCount < 10, -10) + Adjustment(s.wordCount > 20, 10) + Adjustment(s.hasVagueClaims, -15)
  }

  /** Credibility indicators: citations, statistics, dates, quotes, URLs. */
  function IndicatorAdjustment(s: Signals): int {
    Adjustment(s.hasCitations, 15) + Adjustment(s.hasStats, 10) + Adjustment(s.hasDateReferences, 5)
    + Adjustment(s.hasQuotes, 5) + Adjustment(s.hasUrls, 10)
  }

  /** Red flags: exclamation runs and sensational words. */
  function RedFlagAdjustment(s: Signals): int {
    Adjustment(s.hasExclamations, -20) + Adjustment(s.hasSensationalWords, -25)
  }

  /** Evidence factor: digits together with citations. */
  function EvidenceAdjustment(s: Signals): int {
    Adjustment(s.hasNumbers && s.hasCitations, 10)
  }

  /** The score before clamping: the neutral 50 plus the adjustment of
      every signal, grouped as the scorer groups them. */
  function RawScore(s: Signals): (score: int)
    ensures -20 <= score <= 115
  {
    50 + StructureAdjustment(s) + IndicatorAdjustment(s) + RedFlagAdjustment(s) + EvidenceAdjustment(s)
  }

  /** `Math.max(lo, Math.min(hi, x))` */
  function Clamp(lo: int, hi: int, x: int): (r: int)
    requires lo <= hi
    ensures lo <= r <= hi
    ensures lo <= x <= hi ==> r == x
    ensures x < lo ==> r == lo
    ensures x > hi ==> r == hi
  {
    var m := if hi < x then hi else x;
    if lo > m then lo else m
  }

  /** The final credibility score. */
  function Score(s: Signals): (score: int)
    ensures 0 <= score <= 100
    ensures 0 <= RawScore(s) <= 100 ==> score == RawScore(s)
  {
    Clamp(0, 100, RawScore(s))
  }

  /** The fallback's verdict threshold. */
  predicate IsTrue(score: int) {
    score > 60
  }

  datatype Confidence = Low | Moderate | High {
    function Label(): string {
      match this
      case Low => "low"
      case Moderate => "moderate"
      case High => "high"
    }
  }

  /** The confidence band of a score. It agrees with the verdict at the
      ends: a true verdict never comes with low confidence, and high
      confidence always comes with a true verdict. */
  function ConfidenceOf(score: int): (c: Confidence)
    ensures IsTrue(score) ==> c != Low
    ensures c == High ==> IsTrue(score)
  {
    if score >= 80 then High else if score >= 60 then Moderate else Low
  }

  const ExclamationFlag := "Uses excessive exclamation marks, which is uncommon in factual reporting"
  const SensationalFlag := "Contains sensational or hyperbolic language"
  const VagueFlag := "Uses vague or unattributed claims"
  const ShortFlag := "Lacks sufficient detail or context"

  /** Every red-flag message, in the order the scorer reports them. */
  const RedFlagMessages: seq<string> := [ExclamationFlag, SensationalFlag, VagueFlag, ShortFlag]

  /** Which red flags a text raises, position by position with `RedFlagMessages`. */
  function RedFlagMask(s: Signals): seq<bool> {
    [s.hasExclamations, s.hasSensationalWords, s.hasVagueClaims, s.wordCount < 10]
  }

  /** The red-flag list: one message per raised flag, in catalogue order. */
  function RedFlags(s: Signals): (flags: seq<string>)
    ensures flags == Select(RedFlagMessages, RedFlagMask(s))
    ensures |flags| <= 4
  {
    SelectFour(RedFlagMessages, RedFlagMask(s));
    (if s.hasExclamations then [ExclamationFlag] else [])
    + (if s.hasSensationalWords then [SensationalFlag] else [])
    + (if s.hasVagueClaims then [VagueFlag] else [])
    + (if s.wordCount < 10 then [ShortFlag] else [])
  }

  const CitationIndicator := "References credible sources or experts"
  const StatsIndicator := "Includes specific statistical data"
  const DateIndicator := "Provides temporal context"
  const UrlIndicator := "Contains links to source material"

  /** Every positive-indicator message, in the order the scorer reports them. */
  const IndicatorMessages: seq<string> := [CitationIndicator, StatsIndicator, DateIndicator, UrlIndicator]

  function IndicatorMask(s: Signals): seq<bool> {
    [s.hasCitations, s.hasStats, s.hasDateReferences, s.hasUrls]
  }

  /** The positive-indicator list: one message per indicator present, in
      catalogue order. Quotes and the numbers-with-citations bonus add
      points but no message. */
  function PositiveIndicators(s: Signals): (indicators: seq<string>)
    ensures indicators == Select(IndicatorMessages, IndicatorMask(s))
    ensures |indicators| <= 4
  {
    SelectFour(IndicatorMessages, IndicatorMask(s));
    (if s.hasCitations then [CitationIndicator] else [])
    + (if s.hasStats then [StatsIndicator] else [])
    + (if s.hasDateReferences then [DateIndicator] else [])
    + (if s.hasUrls then [UrlIndicator] else [])
  }

  const AnalysisLead := "Analysis confidence: "
  const IssuesLead := "Potential issues identified: "
  const IndicatorsLead := "Credibility indicators: "
  const AssessmentLead := "Overall credibility assessment: "
  const CredibleAssessment := "The statement demonstrates characteristics of credible information."
  const SuspectAssessment := "The statement shows multiple signs of potential misinformation."

  /** The human-readable analysis: the confidence label, the red flags and
      indicators as semicolon-joined clauses when there are any, and the
      overall assessment keyed on the verdict. */
  function AnalysisText(conf: Confidence, redFlags: seq<string>, indicators: seq<string>, isTrue: bool): (a: string)
    ensures |a| >= |AnalysisLead| + |conf.Label()| + 2 + |AssessmentLead| + |Assessment(isTrue)|
    ensures a[..|AnalysisLead| + |conf.Label()| + 2] == AnalysisLead + conf.Label() + ". "
    ensures a[|a| - |AssessmentLead| - |Assessment(isTrue)|..] == AssessmentLead + Assessment(isTrue)
    ensures forall m :: m in redFlags ==> Includes(a, m)
    ensures forall m :: m in indicators ==> Includes(a, m)
  {
    Assemble(
      AnalysisLead + conf.Label() + ". ",
      Clause(IssuesLead, redFlags, "; ", ". "),
      Clause(IndicatorsLead, indicators, "; ", ". "),
      AssessmentLead + Assessment(isTrue))
  }

  /** The closing sentence of the analysis, chosen by the verdict. */
  function Assessment(isTrue: bool): string {
    if isTrue then CredibleAssessment else SuspectAssessment
  }

  const StyleLine := "Linguistic pattern analysis indicates professional/academic writing style"
  const StructureLine := "Content structure follows established fact-based reporting patterns"
  const AcceptableMarkersLine := "Limited but acceptable credibility markers"
  const ConcernsLine := "Multiple credibility concerns detected"
  const DeviationLine := "Content structure deviates from fact-based reporting standards"
  const VerificationLine := "Lacks sufficient verification elements"

  const PositivesLead := "Positive indicators: "
  const WarningsLead := "Warning signs: "

  /** The three descriptive source lines. Two fixed lines depend only on
      the verdict; the third names every indicator (for a credible verdict)
      or every red flag (otherwise), with a fixed line exactly when that
      list is empty. */
  function Sources(isTrue: bool, redFlags: seq<string>, indicators: seq<string>): (r: seq<string>)
    ensures |r| == 3
    ensures isTrue ==> r[0] == StyleLine && r[1] == StructureLine
    ensures isTrue ==> (r[2] == AcceptableMarkersLine <==> |indicators| == 0)
    ensures isTrue && |indicators| > 0 ==>
      |r[2]| >= |PositivesLead| && r[2][..|PositivesLead|] == PositivesLead
      && forall m :: m in indicators ==> Includes(r[2], m)
    ensures !isTrue ==> r[1] == DeviationLine && r[2] == VerificationLine
    ensures !isTrue ==> (r[0] == ConcernsLine <==> |redFlags| == 0)
    ensures !isTrue && |redFlags| > 0 ==>
      |r[0]| >= |WarningsLead| && r[0][..|WarningsLead|] == WarningsLead
      && forall m :: m in redFlags ==> Includes(r[0], m)
  {
    if isTrue then
      var line := if |indicators| > 0 then PositivesLead + Join(indicators, ", ") else AcceptableMarkersLine;
      assert |indicators| > 0 ==>
        (line[0] != AcceptableMarkersLine[0] && forall m :: m in indicators ==> Includes(line, m)) by {
        if |indicators| > 0 {
          MentionsAll(PositivesLead, indicators, ", ", "");
          assert PositivesLead + Join(indicators, ", ") + "" == line;
        }
      }
      [StyleLine, StructureLine, line]
    else
      var line := if |redFlags| > 0 then WarningsLead + Join(redFlags, ", ") else ConcernsLine;
      assert |redFlags| > 0 ==>
        (line[0] != ConcernsLine[0] && forall m :: m in redFlags ==> Includes(line, m)) by {
        if |redFlags| > 0 {
          MentionsAll(WarningsLead, redFlags, ", ", "");
          assert WarningsLead + Join(redFlags, ", ") + "" == line;
        }
      }
      [line, DeviationLine, VerificationLine]
  }

  const CredibleCorrection :=
    "While the core information appears credible, consider: "
    + "1. Adding specific citations to strengthen claims\n"
    + "2. Including more statistical data if available\n"
    + "3. Linking to primary sources"

  const SuspectCorrection :=
    "To improve credibility, consider: "
    + "1. Removing sensational language\n"
    + "2. Adding specific citations and sources\n"
    + "3. Including verifiable data and statistics\n"
    + "4. Using more measured and objective tone"

  /** The suggested correction. The two texts differ, so the correction
      tells the verdict. */
  function Correction(isTrue: bool): (r: string)
    ensures r == CredibleCorrection <==> isTrue
    ensures r == SuspectCorrection <==> !isTrue
  {
    assert CredibleCorrection[0] == "While the core information appears credible, consider: "[0];
    assert SuspectCorrection[0] == "To improve credibility, consider: "[0];
    if isTrue then CredibleCorrection else SuspectCorrection
  }

  /** The whole fallback analysis of one text. It is total: every text
      gets a verdict with a score in range, the verdict agrees with the
      60-point threshold, and there are always three source lines. */
  function FallbackAnalysis(text: string, p: Patterns): (v: Verdict)
    ensures 0 <= v.credibilityScore <= 100
    ensures v.isTrue <==> v.credibilityScore > 60
    ensures |v.sources| == 3
    ensures v.credibilityScore == Score(Detect(text, p))
  {
    var s := Detect(text, p);
    var score := Score(s);
    var isTrue := IsTrue(score);
    var redFlags := RedFlags(s);
    var indicators := PositiveIndicators(s);
    Verdict(
      credibilityScore := score,
      analysis := AnalysisText(ConfidenceOf(score), redFlags, indicators, isTrue),
      sources := Sources(isTrue, redFlags, indicators),
      correction := Correction(isTrue),
      isTrue := isTrue)
  }

  // ---------------------------------------------------------------------
  // Properties of the score

  /** The clamp is needed at both ends: the worst combination of signals
      reaches -20 before clamping and the best reaches 115. */
  lemma ClampMattersAtBothEnds()
    ensures RawScore(Signals(true, true, false, 1, false, false, false, false, false, true)) == -20
    ensures Score(Signals(true, true, false, 1, false, false, false, false, false, true)) == 0
    ensures RawScore(Signals(false, false, true, 21, true, true, true, true, true, false)) == 115
    ensures Score(Signals(false, false, true, 21, true, true, true, true, true, false)) == 100
  {
  }

  /** A short text with no signal scores exactly 40 and is judged false. */
  lemma QuietShortTextScoresForty(s: Signals)
    requires NoneDetected(s) && s.wordCount < 10
    ensures Score(s) == 40
    ensures !IsTrue(Score(s))
  {
  }

  /** The empty text scores exactly 40 and is judged false. */
  lemma EmptyTextScoresForty(p: Patterns)
    requires SilentOnEmpty(p)
    ensures FallbackAnalysis("", p).credibilityScore == 40
    ensures !FallbackAnalysis("", p).isTrue
  {
  }

  /** The verdict flips between 60 and 61; the confidence bands are
      [80, 100] high, [60, 80) moderate, below 60 low, so a score of 60 is
      "moderate" yet judged false. */
  lemma Thresholds(score: int)
    ensures IsTrue(score) <==> score >= 61
    ensures ConfidenceOf(score) == High <==> score >= 80
    ensures ConfidenceOf(score) == Moderate <==> 60 <= score < 80
    ensures ConfidenceOf(score) == Low <==> score < 60
    ensures !IsTrue(60) && IsTrue(61) && ConfidenceOf(60) == Moderate
  {
  }

  /** The clamp preserves order. */
  lemma ClampMonotone(lo: int, hi: int, x: int, y: int)
    requires lo <= hi && x <= y
    ensures Clamp(lo, hi, x) <= Clamp(lo, hi, y)
  {
  }

  /** `b` is at least as credible-looking as `a`: every credibility signal
      of `a` (digits included) is in `b`, every red flag of `b` is in `a`,
      and `b` has at least as many words. */
  predicate AtLeastAsCredible(a: Signals, b: Signals) {
    && a.wordCount <= b.wordCount
    && (a.hasCitations ==> b.hasCitations)
    && (a.hasStats ==> b.hasStats)
    && (a.hasDateReferences ==> b.hasDateReferences)
    && (a.hasQuotes ==> b.hasQuotes)
    && (a.hasUrls ==> b.hasUrls)
    && (a.hasNumbers ==> b.hasNumbers)
    && (b.hasExclamations ==> a.hasExclamations)
    && (b.hasSensationalWords ==> a.hasSensationalWords)
    && (b.hasVagueClaims ==> a.hasVagueClaims)
  }

  /** The score is monotone: gaining credibility signals or words, or
      losing red flags, never lowers it. */
  lemma ScoreMonotone(a: Signals, b: Signals)
    requires AtLeastAsCredible(a, b)
    ensures RawScore(a) <= RawScore(b)
    ensures Score(a) <= Score(b)
  {
    GroupsMonotone(a, b);
    ClampMonotone(0, 100, RawScore(a), RawScore(b));
  }

  /** Each adjustment group is monotone on its own. */
  lemma GroupsMonotone(a: Signals, b: Signals)
    requires AtLeastAsCredible(a, b)
    ensures StructureAdjustment(a) <= StructureAdjustment(b)
    ensures IndicatorAdjustment(a) <= IndicatorAdjustment(b)
    ensures RedFlagAdjustment(a) <= RedFlagAdjustment(b)
    ensures EvidenceAdjustment(a) <= EvidenceAdjustment(b)
  {
  }

  /** Switching on a red-flag signal never raises the score. */
  lemma RedFlagNeverRaises(s: Signals, flagged: Signals)
    requires || flagged == s.(hasExclamations := true)
             || flagged == s.(hasSensationalWords := true)
             || flagged == s.(hasVagueClaims := true)
    ensures Score(flagged) <= Score(s)
  {
    ScoreMonotone(flagged, s);
  }

  /** Switching on a credibility signal never lowers the score. */
  lemma IndicatorNeverLowers(s: Signals, gained: Signals)
    requires || gained == s.(hasCitations := true)
             || gained == s.(hasStats := true)
             || gained == s.(hasDateReferences := true)
             || gained == s.(hasQuotes := true)
             || gained == s.(hasUrls := true)
    ensures Score(s) <= Score(gained)
  {
    ScoreMonotone(s, gained);
  }

  /** More words never lower the score. */
  lemma MoreWordsNeverLower(s: Signals, fewer: nat, more: nat)
    requires fewer <= more
    ensures Score(s.(wordCount := fewer)) <= Score(s.(wordCount := more))
  {
  }

  /** Digits alone change nothing: without citations, switching on
      `hasNumbers` leaves the score as it was. */
  lemma NumbersAloneChangeNothing(s: Signals, t: Signals)
    requires t == s.(hasNumbers := true) && !s.hasCitations
    ensures RawScore(t) == RawScore(s)
    ensures Score(t) == Score(s)
  {
  }

  /** Together with citations, digits add exactly 10 before clamping. */
  lemma NumbersWithCitationsAddTen(s: Signals, t: Signals)
    requires t == s.(hasNumbers := true) && s.hasCitations && !s.hasNumbers
    ensures RawScore(t) == RawScore(s) + 10
  {
  }

  /** A short text with an exclamation run and a sensational word, and no
      URL, digit or quotation, scores below 50 and is judged false, whatever
      the other patterns say. */
  lemma HypeScoresBelowFifty(s: Signals)
    requires s.hasExclamations && s.hasSensationalWords && s.wordCount < 10
    requires !s.hasUrls && !s.hasNumbers && !s.hasQuotes
    ensures Score(s) < 50
    ensures !IsTrue(Score(s))
  {
  }

  /** A text with a URL, a citation and a statistic, and no red flag other
      than shortness, scores above 70. */
  lemma WellSourcedScoresAboveSeventy(s: Signals)
    requires s.hasUrls && s.hasCitations && s.hasStats
    requires !s.hasExclamations && !s.hasSensationalWords && !s.hasVagueClaims
    ensures Score(s) > 70
    ensures IsTrue(Score(s))
  {
  }

  // ---------------------------------------------------------------------
  // Properties of the finding lists

  /** Each red-flag message is listed exactly when its flag is raised, and
      the list has one entry per raised flag. */
  lemma RedFlagsExact(s: Signals)
    ensures ExclamationFlag in RedFlags(s) <==> s.hasExclamations
    ensures SensationalFlag in RedFlags(s) <==> s.hasSensationalWords
    ensures VagueFlag in RedFlags(s) <==> s.hasVagueClaims
    ensures ShortFlag in RedFlags(s) <==> s.wordCount < 10
    ensures |RedFlags(s)| == CountTrue(RedFlagMask(s))
  {
    RedFlagMessagesDistinct();
    SelectMembership(RedFlagMessages, RedFlagMask(s), 0);
    SelectMembership(RedFlagMessages, RedFlagMask(s), 1);
    SelectMembership(RedFlagMessages, RedFlagMask(s), 2);
    SelectMembership(RedFlagMessages, RedFlagMask(s), 3);
  }

  lemma RedFlagMessagesDistinct()
    ensures forall a, b :: 0 <= a < b < |RedFlagMessages| ==> RedFlagMessages[a] != RedFlagMessages[b]
  {
  }

  /** Each indicator message is listed exactly when its signal holds, and
      the list has one entry per signal present. */
  lemma PositiveIndicatorsExact(s: Signals)
    ensures CitationIndicator in PositiveIndicators(s) <==> s.hasCitations
    ensures StatsIndicator in PositiveIndicators(s) <==> s.hasStats
    ensures DateIndicator in PositiveIndicators(s) <==> s.hasDateReferences
    ensures UrlIndicator in PositiveIndicators(s) <==> s.hasUrls
    ensures |PositiveIndicators(s)| == CountTrue(IndicatorMask(s))
  {
    IndicatorMessagesDistinct();
    SelectMembership(IndicatorMessages, IndicatorMask(s), 0);
    SelectMembership(IndicatorMessages, IndicatorMask(s), 1);
    SelectMembership(IndicatorMessages, IndicatorMask(s), 2);
    SelectMembership(IndicatorMessages, IndicatorMask(s), 3);
  }

  lemma IndicatorMessagesDistinct()
    ensures forall a, b :: 0 <= a < b < |IndicatorMessages| ==> IndicatorMessages[a] != IndicatorMessages[b]
  {
  }

  /** Quotes and digits earn points but never change the indicator list. */
  lemma QuotesAndDigitsUnlisted(s: Signals, quotes: bool, numbers: bool)
    ensures PositiveIndicators(s.(hasQuotes := quotes, hasNumbers := numbers)) == PositiveIndicators(s)
  {
  }

  /** The rest of the record follows the findings: the correction is the
      verdict's, the analysis opens with the score's confidence label,
      closes with the verdict's assessment and mentions every finding, and
      the list line of the sources names the list the verdict selects. */
  lemma RecordFollowsFindings(text: string, p: Patterns)
    ensures var v := FallbackAnalysis(text, p);
      (v.isTrue ==> v.correction == CredibleCorrection)
      && (!v.isTrue ==> v.correction == SuspectCorrection)
    ensures var v := FallbackAnalysis(text, p);
      var head := AnalysisLead + ConfidenceOf(v.credibilityScore).Label() + ". ";
      var tail := AssessmentLead + Assessment(v.isTrue);
      |v.analysis| >= |head| + |tail|
      && v.analysis[..|head|] == head
      && v.analysis[|v.analysis| - |tail|..] == tail
    ensures var v := FallbackAnalysis(text, p); var s := Detect(text, p);
      (forall m :: m in RedFlags(s) ==> Includes(v.analysis, m))
      && (forall m :: m in PositiveIndicators(s) ==> Includes(v.analysis, m))
    ensures var v := FallbackAnalysis(text, p); var s := Detect(text, p);
      v.isTrue ==>
        (v.sources[2] == AcceptableMarkersLine <==> |PositiveIndicators(s)| == 0)
        && forall m :: m in PositiveIndicators(s) ==> Includes(v.sources[2], m)
    ensures var v := FallbackAnalysis(text, p); var s := Detect(text, p);
      !v.isTrue ==>
        (v.sources[0] == ConcernsLine <==> |RedFlags(s)| == 0)
        && forall m :: m in RedFlags(s) ==> Includes(v.sources[0], m)
  {
    var s := Detect(text, p);
    var v := FallbackAnalysis(text, p);
    var isTrue := IsTrue(Score(s));
    assert v.isTrue == isTrue && v.credibilityScore == Score(s);
    assert v.analysis == AnalysisText(ConfidenceOf(Score(s)), RedFlags(s), PositiveIndicators(s), isTrue);
    assert v.sources == Sources(isTrue, RedFlags(s), PositiveIndicators(s));
    assert v.correction == Correction(isTrue);
  }

  /** The source lines come from the branch the verdict selects. */
  lemma SourcesFollowVerdict(text: string, p: Patterns)
    ensures FallbackAnalysis(text, p).isTrue ==>
      FallbackAnalysis(text, p).sources[0] == StyleLine && FallbackAnalysis(text, p).sources[1] == StructureLine
    ensures !FallbackAnalysis(text, p).isTrue ==>
      FallbackAnalysis(text, p).sources[1] == DeviationLine && FallbackAnalysis(text, p).sources[2] == VerificationLine
  {
  }
}
