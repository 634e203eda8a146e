/** The offline demo scorer (`analyzeContent`): five yes/no factors of the
    text, the share that hold as a percentage, a verdict at 70, and three
    canned texts chosen by score tier. */
module DemoChecker {
  import opened Lists
  import opened Text
  import opened Verdicts

  /** The five factors, in the demo's order: longer than 50 characters, no
      `!!!`, a URL, no sensational term, more than ten space-separated
      pieces. `sensational` is the case-insensitive word-boundary pattern
      for the demo's hype terms, left uninterpreted. */
  function Factors(text: string, sensational: string -> bool): (f: seq<bool>)
    ensures |f| == 5
  {
    [ |text| > 50,
      !Includes(text, "!!!"),
      HasUrl(text),
      !sensational(text),
      WordCount(text) > 10 ]
  }

  /** `Math.round(x)`: the nearest integer, halves rounded up. */
  function Round(x: real): (r: int)
    ensures x - 0.5 < r as real <= x + 0.5
  {
    (x + 0.5).Floor
  }

  /** `Math.round((count / total) * 100)`, in exact arithmetic. */
  function Percent(count: nat, total: nat): int
    requires total > 0
  {
    Round((count as real / total as real) * 100.0)
  }

  /** Out of five, the rounded percentage is exactly 20 per count. */
  lemma PercentOfFive(count: nat)
    requires count <= 5
    ensures Percent(count, 5) == 20 * count
  {
  }

  /** The score: the share of factors that hold, as a whole percentage. It
      is 20 per factor that holds, so one of 0, 20, 40, 60, 80 and 100. */
  function CredibilityScore(text: string, sensational: string -> bool): (score: int)
    ensures score == 20 * CountTrue(Factors(text, sensational))
    ensures Reachable(score)
  {
    var factors := Factors(text, sensational);
    PercentOfFive(CountTrue(factors));
    Percent(CountTrue(factors), |factors|)
  }

  /** The scores the demo can produce. */
  predicate Reachable(score: int) {
    score in {0, 20, 40, 60, 80, 100}
  }

  /** The demo's verdict threshold. */
  predicate IsTrue(score: int) {
    score > 70
  }

  /** The three text tiers, keyed `> 80`, then `> 60`, then the rest. */
  datatype Tier = Accurate | Partial | Inaccurate

  /** The tier of a score: the top tier is always judged true and the
      bottom tier always false; the middle tier straddles the threshold. */
  function TierOf(score: int): (t: Tier)
    ensures t == Accurate ==> IsTrue(score)
    ensures t == Inaccurate ==> !IsTrue(score)
  {
    if score > 80 then Accurate else if score > 60 then Partial else Inaccurate
  }

  const AccurateAnalysis := "Based on our verification process and cross-referencing with reliable sources, this claim appears to be highly accurate."
  const PartialAnalysis := "The claim contains some accurate information but may need additional context or clarification."
  const InaccurateAnalysis := "Our fact-checking process has identified significant issues with this claim's accuracy."

  /** The analysis text of the score's tier. The top-tier text never
      accompanies a false verdict, the bottom-tier text never a true one. */
  function GenerateAnalysis(score: int): (r: string)
    ensures r == AccurateAnalysis <==> TierOf(score) == Accurate
    ensures r == PartialAnalysis <==> TierOf(score) == Partial
    ensures r == InaccurateAnalysis <==> TierOf(score) == Inaccurate
    ensures r == AccurateAnalysis ==> IsTrue(score)
    ensures r == InaccurateAnalysis ==> !IsTrue(score)
  {
    TextsDistinct();
    match TierOf(score)
    case Accurate => AccurateAnalysis
    case Partial => PartialAnalysis
    case Inaccurate => InaccurateAnalysis
  }

  const AccurateSources: seq<string> := [
    "Multiple credible news sources confirm this information",
    "Official records support the main claims",
    "Expert consensus aligns with this statement"]
  const PartialSources: seq<string> := [
    "Partial confirmation from reliable sources",
    "Some aspects need additional verification",
    "Mixed results from fact-checking organizations"]
  const InaccurateSources: seq<string> := [
    "Limited or no verification from credible sources",
    "Contradictory information found in reliable sources",
    "Known misinformation patterns detected"]

  /** The canned source lines of the score's tier: always three of them. */
  function GenerateSources(score: int): (r: seq<string>)
    ensures |r| == 3
    ensures r == AccurateSources <==> TierOf(score) == Accurate
    ensures r == PartialSources <==> TierOf(score) == Partial
    ensures r == InaccurateSources <==> TierOf(score) == Inaccurate
    ensures r == AccurateSources ==> IsTrue(score)
    ensures r == InaccurateSources ==> !IsTrue(score)
  {
    TextsDistinct();
    match TierOf(score)
    case Accurate => AccurateSources
    case Partial => PartialSources
    case Inaccurate => InaccurateSources
  }

  const AccurateCorrection := "The information is largely accurate, though some minor details could be clarified: [Specific details would be provided here]"
  const PartialCorrection := "While partially accurate, the following corrections are needed: [Corrections would be listed here based on verified sources]"
  const InaccurateCorrection := "This claim requires significant correction. Here are the facts: [Verified information would be provided here]"

  /** The canned correction of the score's tier; the text is accepted and
      not read. The top-tier correction never accompanies a false verdict,
      the bottom-tier one never a true one. */
  function GenerateCorrection(score: int, text: string): (r: string)
    ensures r == AccurateCorrection <==> TierOf(score) == Accurate
    ensures r == PartialCorrection <==> TierOf(score) == Partial
    ensures r == InaccurateCorrection <==> TierOf(score) == Inaccurate
    ensures r == AccurateCorrection ==> IsTrue(score)
    ensures r == InaccurateCorrection ==> !IsTrue(score)
  {
    TextsDistinct();
    match TierOf(score)
    case Accurate => AccurateCorrection
    case Partial => PartialCorrection
    case Inaccurate => InaccurateCorrection
  }

  /** The three canned texts of each kind are pairwise distinct. */
  lemma TextsDistinct()
    ensures AccurateAnalysis != PartialAnalysis && AccurateAnalysis != InaccurateAnalysis
      && PartialAnalysis != InaccurateAnalysis
    ensures AccurateSources != PartialSources && AccurateSources != InaccurateSources
      && PartialSources != InaccurateSources
    ensures AccurateCorrection != PartialCorrection && AccurateCorrection != InaccurateCorrection
      && PartialCorrection != InaccurateCorrection
  {
  }

  /** The demo analysis of one text (after its simulated delay). */
  function AnalyzeContent(text: string, sensational: string -> bool): (v: Verdict)
    ensures Reachable(v.credibilityScore)
    ensures v.isTrue <==> v.credibilityScore >= 80
    ensures |v.sources| == 3
    ensures v.credibilityScore == 80 ==> v.isTrue && v.analysis == PartialAnalysis
    ensures v.analysis == AccurateAnalysis <==> v.credibilityScore == 100
  {
    var score := CredibilityScore(text, sensational);
    Verdict(
      credibilityScore := score,
      analysis := GenerateAnalysis(score),
      sources := GenerateSources(score),
      correction := GenerateCorrection(score, text),
      isTrue := IsTrue(score))
  }

  // ---------------------------------------------------------------------
  // Properties

  /** On reachable scores, only 100 reaches the top tier, only 80 the
      middle one, and the verdict holds exactly for 80 and 100; so 80 is
      judged true but described as partially accurate. */
  lemma ReachableTiers(score: int)
    requires Reachable(score)
    ensures TierOf(score) == Accurate <==> score == 100
    ensures TierOf(score) == Partial <==> score == 80
    ensures IsTrue(score) <==> score >= 80
    ensures IsTrue(80) && TierOf(80) == Partial
  {
  }

  /** One false factor keeps the score at most 80. */
  lemma FalseFactorCapsScore(text: string, sensational: string -> bool, i: int)
    requires 0 <= i < 5 && !Factors(text, sensational)[i]
    ensures CredibilityScore(text, sensational) <= 80
    ensures TierOf(CredibilityScore(text, sensational)) != Accurate
  {
  }

  /** A text with `!!!` or a sensational term never reaches the top tier. */
  lemma HypeNeverAccurate(text: string, sensational: string -> bool)
    requires Includes(text, "!!!") || sensational(text)
    ensures CredibilityScore(text, sensational) <= 80
    ensures TierOf(CredibilityScore(text, sensational)) != Accurate
  {
    if Includes(text, "!!!") {
      FalseFactorCapsScore(text, sensational, 1);
    } else {
      FalseFactorCapsScore(text, sensational, 3);
    }
  }

  /** The empty text satisfies only the "no `!!!`" and "no sensational
      term" factors: it scores 40 and is judged false. */
  lemma EmptyTextScoresForty(sensational: string -> bool)
    requires !sensational("")
    ensures Factors("", sensational) == [false, true, false, true, false]
    ensures CredibilityScore("", sensational) == 40
    ensures !AnalyzeContent("", sensational).isTrue
  {
    var f := Factors("", sensational);
    assert f == [false, true, false, true, false];
    assert CountTrue(f[4..]) == 0;
    assert CountTrue(f[3..]) == 1 by { assert f[3..][1..] == f[4..]; }
    assert CountTrue(f[2..]) == 1 by { assert f[2..][1..] == f[3..]; }
    assert CountTrue(f[1..]) == 2 by { assert f[1..][1..] == f[2..]; }
  }

  /** Each canned text tells the tier: two scores get the same analysis,
      the same sources or the same correction exactly when they are in the
      same tier. */
  lemma TierTextsAgree(a: int, b: int, text: string, other: string)
    ensures GenerateAnalysis(a) == GenerateAnalysis(b) <==> TierOf(a) == TierOf(b)
    ensures GenerateSources(a) == GenerateSources(b) <==> TierOf(a) == TierOf(b)
    ensures GenerateCorrection(a, text) == GenerateCorrection(b, other) <==> TierOf(a) == TierOf(b)
  {
    TextsDistinct();
  }

  /** Which texts the demo answers with, by score: the accurate texts
      exactly at 100, the partial ones exactly at 80, and the inaccurate
      ones exactly at 60 and below. */
  lemma TextsFollowScore(text: string, sensational: string -> bool)
    ensures var v := AnalyzeContent(text, sensational);
      && (v.analysis == AccurateAnalysis <==> v.credibilityScore == 100)
      && (v.analysis == PartialAnalysis <==> v.credibilityScore == 80)
      && (v.analysis == InaccurateAnalysis <==> v.credibilityScore <= 60)
      && (v.sources == AccurateSources <==> v.credibilityScore == 100)
      && (v.sources == PartialSources <==> v.credibilityScore == 80)
      && (v.sources == InaccurateSources <==> v.credibilityScore <= 60)
      && (v.correction == AccurateCorrection <==> v.credibilityScore == 100)
      && (v.correction == PartialCorrection <==> v.credibilityScore == 80)
      && (v.correction == InaccurateCorrection <==> v.credibilityScore <= 60)
  {
    ReachableTiers(CredibilityScore(text, sensational));
  }

  /** The correction does not depend on the text. */
  lemma CorrectionIgnoresText(score: int, text: string, other: string)
    ensures GenerateCorrection(score, text) == GenerateCorrection(score, other)
  {
  }

  /** Everything in the result follows from the score alone: two texts
      with the same score get the same result. */
  lemma ScoreDeterminesResult(text: string, other: string, sensational: string -> bool)
    requires CredibilityScore(text, sensational) == CredibilityScore(other, sensational)
    ensures AnalyzeContent(text, sensational) == AnalyzeContent(other, sensational)
  {
  }
}
