# Fact-check credibility scoring: a Dafny model

This project models the logic of a small fact-checking web application.
A user submits a claim and the analyze endpoint answers with a
credibility verdict. Only the heuristic stage's answer is guaranteed to
have the verdict's shape: a score from 0 to 100, a verdict flag, an
analysis text, three "source" lines and a suggested correction. An answer
from a provider is whatever JSON it returned, spread into the response
with a `model` tag added (route.ts:183, 195). Two parts of the application
carry logic:

- **The analyze endpoint** (`app/api/analyze/route.ts`) runs a fallback
  chain. It asks an OpenAI chat model first. If that fails, it asks Gemini.
  If that fails too, it runs a local heuristic scorer. The answer is tagged
  with the stage that produced it (`gpt`, `gemini` or `fallback`). The
  heuristic scorer reads signals off the text (exclamation runs,
  sensational words, citations, statistics, dates, quotes, URLs, vague
  attributions, word count). It adds fixed amounts to a neutral 50, clamps
  the total to [0, 100] and judges the claim true above 60.
- **The demo scorer** (`app/utils/factChecker.ts`) counts how many of
  five yes/no factors hold and turns the count into a percentage. It judges
  the claim true above 70 and picks canned texts by score tier.

Modules, one per component:

| module | file | models |
|---|---|---|
| `Lists` | `lists.dfy` | counting true flags; keeping the items a mask selects, in order |
| `Text` | `text.dfy` | JavaScript `includes`, `split(' ')`, `join`, the URL pattern |
| `JsonModel` | `json_model.dfy` | JSON values and what object spread copies from them |
| `Verdicts` | `verdicts.dfy` | the result record and its JSON form |
| `FallbackScorer` | `fallback_scorer.dfy` | `getFallbackAnalysis` |
| `AnalyzeRoute` | `analyze_route.dfy` | the two provider adapters and the `POST` fallback chain |
| `DemoChecker` | `demo_checker.dfy` | `analyzeContent` and its helpers |

Representation choices:

- Text is a `string` (`seq<char>`).
- `includes('!!!')` is substring occurrence.
- `split(' ').length` is the number of spaces plus one. It is modelled by
  an actual `Split` with a join round trip.
- Three simple regular expressions are modelled exactly:
  - `/https?:\/\//` (`Text.HasUrl`): the text contains `http://` or
    `https://`, which is `http`, an optional `s` and `://` in a row;
  - `/\d/` (`Text.HasDigit`): some character is `0`–`9`;
  - `/"[^"]*"/` (`Text.HasQuotedSpan`): a `"` with a later `"` and none
    in between.
- The case-insensitive word-boundary patterns are left uninterpreted.
  Each one is a `string -> bool` field of `FallbackScorer.Patterns`:
  - `sensational` is line 81;
  - `citations` is line 85;
  - `stats` is line 86;
  - `dates` is line 88;
  - `vague` is line 89.

  The demo's sensational-term pattern (factChecker.ts:39) is the
  `sensational` parameter of `DemoChecker`.
- Where a property needs to know that a pattern cannot match the empty
  text, it says so as a precondition (`SilentOnEmpty`, `!sensational("")`).
- Provider calls are inputs to the model:
  - a `GptReply` is a failure or the list of choice contents;
  - a `GeminiReply` is a failure or the response text;
  - reading the request body is an `Outcome`;
  - `JSON.parse` is an uninterpreted `string -> Outcome`.
- The response is a `Response`: a 200 with a JSON object, or a 500 with
  `error` and `details`. Beside it, `Analyze` records the list of stages
  it attempted, in order.

A 500 is not limited to an unreadable request body. When both providers
fail, the heuristic scorer runs on the body's `text` (route.ts:204). It
calls `text.split` (route.ts:83), which throws for every value that is not
a string. For most such values `text.includes` (route.ts:80) throws first;
an array gets past it, because arrays have an `includes` method. The outer
handler turns the throw into a 500 (route.ts:208-213). Destructuring
`{ text }` from a `null` body (route.ts:176) throws too.
`AnalyzeRoute.Analyze` states the exact condition for a 500.
`NonStringTextFails` proves it for every non-string `text`, and
`NonStringTextCanFail` exhibits it for a numeric and for a missing one.
`ChainCannotFail` proves that a body with a string `text` always gets a
200.

## Model

| member | source | states |
|---|---|---|
| `Text.Count` | app/api/analyze/route.ts:83 | the number of occurrences of a character is at most the length, and is zero exactly when the character does not occur |
| `Text.CountIsMultiplicity` | app/api/analyze/route.ts:83 | the count is exactly the multiplicity of the character in the text, so every space is counted once |
| `Text.Includes` | app/api/analyze/route.ts:80 | `includes` holds exactly when the pattern occurs at some index of the text |
| `Text.Split` | app/api/analyze/route.ts:83 | `split` on one character gives one piece more than there are separators, no piece contains the separator, and joining the pieces with it restores the text |
| `Text.SplitJoin` | app/api/analyze/route.ts:83 | round trip: splitting the join of separator-free pieces gives the pieces back |
| `Text.WordCount` | app/api/analyze/route.ts:83 | the word count is the number of spaces plus one, so at least 1 even for the empty text |
| `Lists.CountTrue` | app/utils/factChecker.ts:43 | `filter(Boolean).length` is at most the number of factors; it is zero exactly when none holds and full exactly when all hold |
| `Lists.CountTrueIsMultiplicity` | app/utils/factChecker.ts:43 | `filter(Boolean).length` is exactly the number of `true` entries |
| `Lists.Select` | app/api/analyze/route.ts:120-130 | a chain of guarded pushes keeps one entry per set flag, and only items whose flag is set |
| `Lists.SelectMembership` | app/api/analyze/route.ts:120-130 | with distinct items, an item is selected exactly when its flag is set |
| `JsonModel.NatToStringInjective` | app/api/analyze/route.ts:183 | distinct indices have distinct property keys, since a decimal spelling determines its number |
| `JsonModel.IndexFields` | app/api/analyze/route.ts:183 | the index keys of an array-like value are exactly `"0"` to `"n-1"`, and each holds the item at its index |
| `JsonModel.Spread` | app/api/analyze/route.ts:183 | spreading an object copies its fields; spreading an array copies each item under its index key, and a string each character, and those index keys are the only keys copied; spreading null, booleans or numbers copies nothing |
| `Verdicts.ToJson` | app/api/analyze/route.ts:146-171 | the result object has exactly the keys credibilityScore, analysis, sources, correction and isTrue, and never `model` |
| `Verdicts.JsonRoundTrip` | app/api/analyze/route.ts:146-171 | the JSON form of a result reads back as that same result, so every field's value is carried |
| `Verdicts.JsonReadsBack` | app/api/analyze/route.ts:146-171 | conversely, an object that reads as a result agrees with that result's JSON form on all five keys |
| `Text.HasUrlMatchesPattern` | app/api/analyze/route.ts:82 | the URL test holds exactly when `http`, an optional `s` and `://` occur in a row somewhere in the text |
| `Text.HasDigit` | app/api/analyze/route.ts:84 | the `\d` test holds exactly when some character is an ASCII digit |
| `Text.HasQuotedSpan` | app/api/analyze/route.ts:87 | the quote test holds exactly when some `"` has a later `"` with no `"` between them |
| `FallbackScorer.Detect` | app/api/analyze/route.ts:80-89 | the word count is the number of spaces plus one; `!!!`, the URL pattern, a digit and a quoted span are detected exactly when they occur; the empty text raises no signal when no pattern matches the empty string |
| `FallbackScorer.RawScore` | app/api/analyze/route.ts:92-111 | before clamping, the score lies in [-20, 115] |
| `FallbackScorer.Clamp` | app/api/analyze/route.ts:114 | `max(0, min(100, x))` lies in range, keeps in-range values and maps values below and above the range to its ends |
| `FallbackScorer.Score` | app/api/analyze/route.ts:92-114 | the final score lies in [0, 100] and equals the raw score whenever that is in range |
| `FallbackScorer.RedFlags` | app/api/analyze/route.ts:120-124 | the red-flag list is the catalogue exclamations, sensational, vague, short, filtered by the raised flags in that order |
| `FallbackScorer.PositiveIndicators` | app/api/analyze/route.ts:126-130 | the indicator list is the catalogue citations, stats, dates, URLs, filtered by the signals present in that order |
| `FallbackScorer.ConfidenceOf` | app/api/analyze/route.ts:116-117 | a true verdict never comes with low confidence, and high confidence always comes with a true verdict |
| `Text.JoinMentionsEach` | app/api/analyze/route.ts:134-156 | every part of a `join` occurs in the joined text |
| `Text.Clause` | app/api/analyze/route.ts:133-139 | an optional clause is empty when there is nothing to list, and, with a non-empty lead, only then; it starts with its lead otherwise, and mentions every listed item |
| `Text.Assemble` | app/api/analyze/route.ts:132-144 | the analysis template starts with its head, ends with its tail, and contains whatever either middle clause contains |
| `FallbackScorer.AnalysisText` | app/api/analyze/route.ts:132-144 | the analysis opens with "Analysis confidence: ", the confidence label and ". "; it closes with the assessment sentence the verdict selects; it mentions every red flag and every indicator |
| `FallbackScorer.Sources` | app/api/analyze/route.ts:149-159 | there are always three source lines; the fixed ones come from the branch the verdict selects; the list line is the fixed fallback line exactly when its list is empty, and otherwise starts with "Positive indicators: " or "Warning signs: " and mentions every entry |
| `FallbackScorer.Correction` | app/api/analyze/route.ts:160-169 | the credible correction goes with a true verdict and the other with a false one, and the two differ, so the correction tells the verdict |
| `FallbackScorer.FallbackAnalysis` | app/api/analyze/route.ts:78-172 | every text gets a verdict: the score is in [0, 100], `isTrue` holds exactly when the score exceeds 60, and there are three source lines |
| `FallbackScorer.ClampMattersAtBothEnds` | app/api/analyze/route.ts:92-114 | the worst signals reach -20 and the best reach 115 before clamping, so the clamp matters at both ends |
| `FallbackScorer.QuietShortTextScoresForty` | app/api/analyze/route.ts:83-116 | a text with no signal and fewer than 10 words scores exactly 40 and is judged false |
| `FallbackScorer.EmptyTextScoresForty` | app/api/analyze/route.ts:80-116 | the empty text scores exactly 40 and is judged false |
| `FallbackScorer.Thresholds` | app/api/analyze/route.ts:116-117 | the verdict holds from 61 up; the bands are high for 80 and up, moderate for 60 to 79 and low below 60; 60 is moderate yet false |
| `FallbackScorer.ClampMonotone` | app/api/analyze/route.ts:114 | clamping preserves order |
| `FallbackScorer.GroupsMonotone` | app/api/analyze/route.ts:94-111 | each adjustment group (structure, indicators, red flags, evidence) is monotone in the signals |
| `FallbackScorer.ScoreMonotone` | app/api/analyze/route.ts:92-114 | gaining credibility signals or words, or losing red flags, never lowers the raw or the final score |
| `FallbackScorer.RedFlagNeverRaises` | app/api/analyze/route.ts:97-108 | switching on exclamations, sensational words or vague claims never raises the score |
| `FallbackScorer.IndicatorNeverLowers` | app/api/analyze/route.ts:99-104 | switching on citations, stats, dates, quotes or URLs never lowers the score |
| `FallbackScorer.MoreWordsNeverLower` | app/api/analyze/route.ts:95-96 | a larger word count never lowers the score |
| `FallbackScorer.NumbersAloneChangeNothing` | app/api/analyze/route.ts:111 | without citations, digits change neither the raw nor the final score |
| `FallbackScorer.NumbersWithCitationsAddTen` | app/api/analyze/route.ts:111 | with citations, digits add exactly 10 before clamping |
| `FallbackScorer.HypeScoresBelowFifty` | app/api/analyze/route.ts:80-116 | a short text with `!!!` and a sensational word, and no URL, digit or quote, scores below 50 and is false |
| `FallbackScorer.WellSourcedScoresAboveSeventy` | app/api/analyze/route.ts:82-116 | a URL, a citation and a statistic, without red flags other than shortness, give a score above 70 and a true verdict |
| `FallbackScorer.RedFlagsExact` | app/api/analyze/route.ts:120-124 | each red-flag message is listed exactly when its flag is raised, and there is one entry per raised flag |
| `FallbackScorer.PositiveIndicatorsExact` | app/api/analyze/route.ts:126-130 | each indicator message is listed exactly when its signal holds, and there is one entry per signal present |
| `FallbackScorer.QuotesAndDigitsUnlisted` | app/api/analyze/route.ts:126-130 | quotes and digits earn points but never change the indicator list |
| `FallbackScorer.RecordFollowsFindings` | app/api/analyze/route.ts:116-171 | in the scorer's result, the correction is the verdict's; the analysis opens with the score's confidence label, closes with the verdict's assessment and mentions every red flag and indicator; the list line of the sources is the fixed line exactly when the verdict's list is empty, and mentions every entry of it |
| `FallbackScorer.SourcesFollowVerdict` | app/api/analyze/route.ts:149-159 | the fixed source lines of a result are those of the branch its verdict selects |
| `AnalyzeRoute.RequestText` | app/api/analyze/route.ts:176 | destructuring `{ text }` reads the same own property that spreading the body would copy; arrays and strings have none |
| `AnalyzeRoute.GptAdapter` | app/api/analyze/route.ts:14-33 | a failed call propagates its error; a missing or empty first content fails with "No response from OpenAI"; success means non-empty content that parses, and yields the parse |
| `AnalyzeRoute.GeminiAdapter` | app/api/analyze/route.ts:35-55 | a failed call propagates its error; unparsable text fails with "Invalid JSON response from Gemini"; success means the text parses, and yields the parse |
| `AnalyzeRoute.Tagged` | app/api/analyze/route.ts:183 | `{...payload, model: tag}` has `model` equal to the tag, even when the payload had its own `model`; every other key and value is the payload's |
| `AnalyzeRoute.Analyze` | app/api/analyze/route.ts:174-215 | the stages are attempted as a prefix of gpt, gemini, fallback; none is attempted exactly when the body is unusable; a 200 carries the tag of the last stage attempted; a 500 happens exactly for an unusable body or a non-string text after both providers fail |
| `AnalyzeRoute.GptAnswersFirst` | app/api/analyze/route.ts:179-183 | when GPT succeeds its payload is the answer tagged `gpt`, and Gemini's reply cannot change the outcome |
| `AnalyzeRoute.GeminiAnswersSecond` | app/api/analyze/route.ts:184-195 | when GPT fails and Gemini succeeds, Gemini's payload is the answer tagged `gemini`; an object payload is unmodified apart from `model` |
| `AnalyzeRoute.FallbackAnswersLast` | app/api/analyze/route.ts:196-205 | when both providers fail, the answer is the heuristic verdict tagged `fallback`, after all three stages |
| `AnalyzeRoute.FallbackVerdictUnchanged` | app/api/analyze/route.ts:204-205 | apart from `model`, the fallback answer is exactly the heuristic scorer's result for the request text |
| `AnalyzeRoute.FallbackAnswerUntagged` | app/api/analyze/route.ts:204-205 | removing the tag from the fallback answer leaves the JSON form of the scorer's result |
| `AnalyzeRoute.ChainCannotFail` | app/api/analyze/route.ts:176-206 | once the body has been read with a string `text`, the answer is always 200 |
| `AnalyzeRoute.UnreadableBodyFails` | app/api/analyze/route.ts:208-213 | an unreadable body gives a 500 with the reader's message, and no stage is attempted |
| `AnalyzeRoute.NonStringTextFails` | app/api/analyze/route.ts:203-213 | once both providers fail, every readable non-null body whose `text` is not a string gets a 500 with the scorer's error, after all three stages |
| `AnalyzeRoute.NonStringTextCanFail` | app/api/analyze/route.ts:203-213 | a body whose `text` is a number or missing gives a 500 once both providers fail |
| `AnalyzeRoute.AdapterFailuresFallThrough` | app/api/analyze/route.ts:30-50 | an empty or null first content, or Gemini text that does not parse, moves the chain on to the next stage |
| `DemoChecker.Factors` | app/utils/factChecker.ts:35-41 | there are exactly five factors |
| `DemoChecker.Round` | app/utils/factChecker.ts:44 | `Math.round` gives the integer within half of its argument, halves rounded up |
| `DemoChecker.PercentOfFive` | app/utils/factChecker.ts:43-44 | `Math.round((count / 5) * 100)` is exactly `20 * count` for counts 0 to 5 |
| `DemoChecker.CredibilityScore` | app/utils/factChecker.ts:33-45 | the score is 20 per factor that holds, so one of 0, 20, 40, 60, 80, 100 |
| `DemoChecker.TierOf` | app/utils/factChecker.ts:47-55 | the top tier (above 80) is always judged true and the bottom tier (60 and below) always false |
| `DemoChecker.GenerateAnalysis` | app/utils/factChecker.ts:47-55 | each tier gets its own analysis (above 80 the accurate one, above 60 the partial one, otherwise the inaccurate one), so the top-tier text never goes with a false verdict and the bottom-tier one never with a true verdict |
| `DemoChecker.GenerateSources` | app/utils/factChecker.ts:57-78 | there are always exactly three source lines, and each tier gets its own three; the top-tier lines never go with a false verdict, the bottom-tier ones never with a true verdict |
| `DemoChecker.GenerateCorrection` | app/utils/factChecker.ts:80-88 | each tier gets its own correction; the top-tier correction never goes with a false verdict, the bottom-tier one never with a true verdict |
| `DemoChecker.TextsFollowScore` | app/utils/factChecker.ts:47-88 | a score of 100 gets the accurate analysis, sources and correction, 80 the partial ones, and 60 or less the inaccurate ones, each exactly then |
| `DemoChecker.TierTextsAgree` | app/utils/factChecker.ts:47-88 | two scores get the same analysis, the same sources or the same correction exactly when they are in the same tier |
| `DemoChecker.AnalyzeContent` | app/utils/factChecker.ts:11-31 | the score is reachable; `isTrue` holds exactly for 80 and up; there are three sources; 80 is true but gets the partial-accuracy text; only 100 gets the top text |
| `DemoChecker.ReachableTiers` | app/utils/factChecker.ts:22-88 | on reachable scores, only 100 reaches the top tier and only 80 the middle one, and the verdict holds exactly for 80 and 100 |
| `DemoChecker.FalseFactorCapsScore` | app/utils/factChecker.ts:35-44 | one false factor keeps the score at most 80 and out of the top tier |
| `DemoChecker.HypeNeverAccurate` | app/utils/factChecker.ts:37-39 | a text with `!!!` or a sensational term scores at most 80 and never reaches the top tier |
| `DemoChecker.EmptyTextScoresForty` | app/utils/factChecker.ts:35-44 | for the empty text only the no-`!!!` and no-sensational factors hold, so it scores 40 and is false |
| `DemoChecker.CorrectionIgnoresText` | app/utils/factChecker.ts:80-88 | the correction depends on the score only, not on the text |
| `DemoChecker.ScoreDeterminesResult` | app/utils/factChecker.ts:21-30 | two texts with the same score get the same result |

## Left out

- The OpenAI and Gemini SDK calls are left out. So are the prompt text
  (`getPrompt`), the model names and the structured-output request. They
  are network I/O with foreign libraries. Their results enter the model
  as `GptReply` and `GeminiReply` values.
- `JSON.parse` and `req.json()` are not modelled internally. They are
  foreign code. The model uses an uninterpreted parser and a given body
  outcome.
- The regular-expression engine is not modelled. The five word-boundary,
  case-insensitive patterns of the fallback scorer and the demo's
  sensational pattern are uninterpreted predicates. Re-implementing
  JavaScript `\b` and `/i` semantics is out of scope. The three simple
  patterns are modelled exactly, as described above.
- The demo's `Math.round((trueCount / 5) * 100)` is computed in exact
  rational arithmetic. IEEE double rounding is not modelled. For counts 0
  to 5 both give `20 * trueCount`.
- JSON numbers are exact rationals, and object key order is not kept.
  Serialising the response (`NextResponse.json`) is not modelled.
- The runtime's wording of `TypeError` messages is not modelled. The
  `details` of the 500s they cause are fixed descriptive strings
  (`NullBodyMessage`, `NonStringTextMessage`). `MissingChoice` stands for
  the `TypeError` the GPT adapter raises on an empty `choices`
  (route.ts:30). The catch at route.ts:184 swallows it and moves on to
  Gemini, so it never reaches a response.
- A provider error that is not a normal error object is not modelled.
  The two inner catch blocks (route.ts:184-201) read `.message`,
  `.status` and `.type` from the error only for logging. The outer catch
  puts `error.message` into the 500's `details` (route.ts:211), as
  `UnreadableBodyFails` states.
- `console` logging, the `setTimeout` delay in `analyzeContent` and the
  absence of timeouts on provider calls are left out. They are timing and
  side effects only.
- Text length and string indices count characters, not UTF-16 code units.
- `FallbackScorer.AnalysisText` does not state the order of the issue and
  indicator clauses, or that nothing else lies between the opening and
  the closing. It states the opening, the closing and that every finding
  is mentioned. The clause order is fixed by the body, which follows
  route.ts:132-144.
- The `Sources` contract states that the list line mentions every entry.
  It does not state the `, ` separators, because the red-flag messages
  contain commas themselves.
- `FallbackScorer.HypeScoresBelowFifty` is stated on signals, not on the
  literal text `"SHOCKING!!! miracle cure revealed"`. Evaluating the
  detectors on that literal is too costly for the verifier. The lemma's
  hypotheses are what that text yields: an exclamation run, a sensational
  word, four words, and no URL, digit or quote.
- The chat relay (`app/api/chat/route.ts`) is left out. It is a streaming
  pass-through to another provider.
- Environment loading (`app/config/env.ts`) is left out. It depends on
  the ambient runtime.
- The React components and page are left out. They are UI only.
