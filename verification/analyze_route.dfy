/** The analyze endpoint: a three-stage fallback chain. It tries the
    OpenAI adapter, then the Gemini adapter, then the heuristic scorer,
    in that order and without going back, and answers with the first
    result, tagged with the stage that produced it.

    Nothing here talks to a network: what each provider call returned is
    an input (`GptReply`, `GeminiReply`), and so is the outcome of reading
    the request body. `JSON.parse` is the uninterpreted `parse`. */
module AnalyzeRoute {
  import opened JsonModel
  import opened Verdicts
  import FallbackScorer

  /** A parse or an adapter either yields a JSON value or fails with a message. */
  datatype Outcome = Ok(payload: Json) | Err(message: string)

  /** The stages of the chain, in the order they are tried. */
  datatype Stage = Gpt | Gemini | Fallback {
    /** The `model` tag the response carries for this stage. */
    function Tag(): string {
      match this
      case Gpt => "gpt"
      case Gemini => "gemini"
      case Fallback => "fallback"
    }
  }

  /** What the chat-completion call returned: the call failed (transport,
      status or authentication), or it answered with its choices, each
      choice's message content being `null` (`None`) or a string. */
  datatype GptReply = GptFailure(message: string) | GptChoices(contents: seq<Option<string>>)

  /** What the Gemini call returned: the call or reading its response text
      failed, or the response text. */
  datatype GeminiReply = GeminiFailure(message: string) | GeminiText(content: string)

  const NoOpenAIResponse := "No response from OpenAI"
  const InvalidGeminiJson := "Invalid JSON response from Gemini"

  /** Reading `message` of `choices[0]` when there is no choice. */
  const MissingChoice := "Cannot read properties of undefined (reading 'message')"

  /** The content of the first choice, when there is a non-empty one. */
  predicate HasContent(reply: GptReply) {
    reply.GptChoices? && |reply.contents| > 0 && reply.contents[0].Some? && reply.contents[0].value != ""
  }

  /** The OpenAI adapter: take the first choice's content, fail when it is
      missing or empty, otherwise parse it. */
  function GptAdapter(reply: GptReply, parse: string -> Outcome): (o: Outcome)
    ensures reply.GptFailure? ==> o == Err(reply.message)
    ensures reply.GptChoices? && |reply.contents| > 0 && !HasContent(reply) ==> o == Err(NoOpenAIResponse)
    ensures o.Ok? <==> HasContent(reply) && parse(reply.contents[0].value).Ok?
    ensures o.Ok? ==> o == parse(reply.contents[0].value)
  {
    match reply
    case GptFailure(message) => Err(message)
    case GptChoices(contents) =>
      if |contents| == 0 then Err(MissingChoice)
      else match contents[0]
        case None => Err(NoOpenAIResponse)
        case Some(content) =>
          if content == "" then Err(NoOpenAIResponse) else parse(content)
  }

  /** The Gemini adapter: parse the response text, replacing a parse
      failure by a fixed message. */
  function GeminiAdapter(reply: GeminiReply, parse: string -> Outcome): (o: Outcome)
    ensures reply.GeminiFailure? ==> o == Err(reply.message)
    ensures reply.GeminiText? && parse(reply.content).Err? ==> o == Err(InvalidGeminiJson)
    ensures o.Ok? <==> reply.GeminiText? && parse(reply.content).Ok?
    ensures o.Ok? ==> o == parse(reply.content)
  {
    match reply
    case GeminiFailure(message) => Err(message)
    case GeminiText(content) =>
      match parse(content)
      case Ok(j) => Ok(j)
      case Err(_) => Err(InvalidGeminiJson)
  }

  /** The response: a 200 with a JSON object, or a 500 with `error` and `details`. */
  datatype Response = Success(body: map<string, Json>) | ServerError(error: string, details: string) {
    function Status(): int {
      if Success? then 200 else 500
    }
  }

  /** A response, with the stages attempted on the way, in order. */
  datatype Handled = Handled(response: Response, attempted: seq<Stage>)

  const GeneralError := "Failed to analyze content"

  /** Destructuring `{ text }` out of `null` fails. */
  const NullBodyMessage := "Cannot destructure property 'text' of null"

  /** The scorer calls `includes` and then `split` on the text. `split`
      fails for anything but a string; `includes` already fails for most
      non-strings, though not for an array. One descriptive message stands
      for the JavaScript error in every case. */
  const NonStringTextMessage := "text.includes or text.split is not a function"

  /** The body was read and `{ text }` can be destructured from it. */
  predicate Destructurable(body: Outcome) {
    body.Ok? && !body.payload.JNull?
  }

  /** The `text` property of the request body, if it has one: the same own
      property that spreading the body would copy. Arrays and strings have
      only index keys, so no `text`. */
  function RequestText(body: Outcome): (t: Option<Json>)
    requires Destructurable(body)
    ensures t.Some? <==> "text" in Spread(body.payload)
    ensures t.Some? ==> t.value == Spread(body.payload)["text"]
  {
    assert "text"[0] == 't';
    assert !IsIndexKey("text");
    if body.payload.JObj? && "text" in body.payload.fields then Some(body.payload.fields["text"]) else None
  }

  /** The request carries its text as a string. */
  predicate HasStringText(body: Outcome) {
    Destructurable(body) && RequestText(body).Some? && RequestText(body).value.JStr?
  }

  /** `{ ...payload, model: tag }`: the payload's own fields, with `model`
      written last, so the tag wins over any `model` of the payload. */
  function Tagged(payload: Json, stage: Stage): (fields: map<string, Json>)
    ensures "model" in fields && fields["model"] == JStr(stage.Tag())
    ensures forall k :: k != "model" ==> (k in fields <==> k in Spread(payload))
    ensures forall k :: k in fields && k != "model" ==> fields[k] == Spread(payload)[k]
    ensures payload.JObj? ==> fields - {"model"} == payload.fields - {"model"}
  {
    Spread(payload)["model" := JStr(stage.Tag())]
  }

  /** The heuristic stage's answer: the scorer's verdict, tagged `fallback`. */
  function FallbackAnswer(text: string, patterns: FallbackScorer.Patterns): map<string, Json> {
    ToJson(FallbackScorer.FallbackAnalysis(text, patterns))["model" := JStr(Fallback.Tag())]
  }

  /** The whole request: read the text, then try the stages in order. Only
      a body that cannot be read or destructured, or a non-string text
      reaching the scorer, ends in a 500. */
  function Analyze(
    body: Outcome, gpt: GptReply, gemini: GeminiReply,
    parse: string -> Outcome, patterns: FallbackScorer.Patterns): (h: Handled)
    ensures h.attempted in [[], [Gpt], [Gpt, Gemini], [Gpt, Gemini, Fallback]]
    ensures h.attempted == [] <==> !Destructurable(body)
    ensures h.response.Success? ==>
      |h.attempted| > 0 && "model" in h.response.body
      && h.response.body["model"] == JStr(h.attempted[|h.attempted| - 1].Tag())
    ensures h.response.ServerError? ==> h.response.error == GeneralError
    ensures h.response.ServerError? <==>
      !Destructurable(body) || (h.attempted == [Gpt, Gemini, Fallback] && !HasStringText(body))
  {
    match body
    case Err(message) => Handled(ServerError(GeneralError, message), [])
    case Ok(request) =>
      if request.JNull? then Handled(ServerError(GeneralError, NullBodyMessage), [])
      else
        match GptAdapter(gpt, parse)
        case Ok(result) => Handled(Success(Tagged(result, Gpt)), [Gpt])
        case Err(_) =>
          match GeminiAdapter(gemini, parse)
          case Ok(result) => Handled(Success(Tagged(result, Gemini)), [Gpt, Gemini])
          case Err(_) =>
            match RequestText(body)
            case Some(JStr(text)) =>
              Handled(Success(FallbackAnswer(text, patterns)), [Gpt, Gemini, Fallback])
            case _ => Handled(ServerError(GeneralError, NonStringTextMessage), [Gpt, Gemini, Fallback])
  }

  // ---------------------------------------------------------------------
  // Path selection

  /** When the OpenAI adapter succeeds, its payload is the answer, tagged
      `gpt`, and Gemini is never asked: its reply cannot change anything. */
  lemma GptAnswersFirst(
    body: Outcome, gpt: GptReply, gemini: GeminiReply, otherGemini: GeminiReply,
    parse: string -> Outcome, patterns: FallbackScorer.Patterns)
    requires Destructurable(body) && GptAdapter(gpt, parse).Ok?
    ensures Analyze(body, gpt, gemini, parse, patterns)
         == Handled(Success(Tagged(GptAdapter(gpt, parse).payload, Gpt)), [Gpt])
    ensures Analyze(body, gpt, gemini, parse, patterns) == Analyze(body, gpt, otherGemini, parse, patterns)
  {
  }

  /** When OpenAI fails and Gemini succeeds, Gemini's payload is the
      answer, tagged `gemini`; an object payload reaches the caller
      unmodified apart from `model`. */
  lemma GeminiAnswersSecond(
    body: Outcome, gpt: GptReply, gemini: GeminiReply,
    parse: string -> Outcome, patterns: FallbackScorer.Patterns)
    requires Destructurable(body) && GptAdapter(gpt, parse).Err? && GeminiAdapter(gemini, parse).Ok?
    ensures Analyze(body, gpt, gemini, parse, patterns)
         == Handled(Success(Tagged(GeminiAdapter(gemini, parse).payload, Gemini)), [Gpt, Gemini])
    ensures GeminiAdapter(gemini, parse).payload.JObj? ==>
      Analyze(body, gpt, gemini, parse, patterns).response.body - {"model"}
      == GeminiAdapter(gemini, parse).payload.fields - {"model"}
  {
  }

  /** When both providers fail, the answer is the heuristic scorer's
      verdict for the request text, tagged `fallback`. */
  lemma FallbackAnswersLast(
    body: Outcome, gpt: GptReply, gemini: GeminiReply,
    parse: string -> Outcome, patterns: FallbackScorer.Patterns)
    requires HasStringText(body)
    requires GptAdapter(gpt, parse).Err? && GeminiAdapter(gemini, parse).Err?
    ensures Analyze(body, gpt, gemini, parse, patterns)
         == Handled(Success(FallbackAnswer(RequestText(body).value.s, patterns)), [Gpt, Gemini, Fallback])
  {
  }

  /** Apart from its tag, the fallback answer is exactly the scorer's
      verdict. */
  lemma FallbackVerdictUnchanged(
    body: Outcome, gpt: GptReply, gemini: GeminiReply,
    parse: string -> Outcome, patterns: FallbackScorer.Patterns)
    requires HasStringText(body)
    requires GptAdapter(gpt, parse).Err? && GeminiAdapter(gemini, parse).Err?
    ensures Analyze(body, gpt, gemini, parse, patterns).response.body - {"model"}
         == ToJson(FallbackScorer.FallbackAnalysis(RequestText(body).value.s, patterns))
  {
    FallbackAnswersLast(body, gpt, gemini, parse, patterns);
    FallbackAnswerUntagged(RequestText(body).value.s, patterns);
  }

  /** Removing the tag from the fallback answer leaves the verdict's JSON
      form. */
  lemma FallbackAnswerUntagged(text: string, patterns: FallbackScorer.Patterns)
    ensures FallbackAnswer(text, patterns) - {"model"} == ToJson(FallbackScorer.FallbackAnalysis(text, patterns))
  {
    UpdateThenRemove(ToJson(FallbackScorer.FallbackAnalysis(text, patterns)), "model", JStr(Fallback.Tag()));
  }

  lemma UpdateThenRemove<K, V>(m: map<K, V>, k: K, v: V)
    requires k !in m
    ensures m[k := v] - {k} == m
  {
  }

  /** Once the body has been read with a string text, the chain always
      answers 200: the heuristic stage cannot fail. */
  lemma ChainCannotFail(
    body: Outcome, gpt: GptReply, gemini: GeminiReply,
    parse: string -> Outcome, patterns: FallbackScorer.Patterns)
    requires HasStringText(body)
    ensures Analyze(body, gpt, gemini, parse, patterns).response.Status() == 200
  {
  }

  /** A body that cannot be read answers 500 with the reader's message,
      before any stage is attempted. */
  lemma UnreadableBodyFails(
    message: string, gpt: GptReply, gemini: GeminiReply,
    parse: string -> Outcome, patterns: FallbackScorer.Patterns)
    ensures Analyze(Err(message), gpt, gemini, parse, patterns)
         == Handled(ServerError(GeneralError, message), [])
  {
  }

  /** A readable body whose `text` is not a string also ends in a 500 once
      both providers fail, because the scorer throws on it. */
  lemma NonStringTextCanFail(
    gpt: GptReply, gemini: GeminiReply,
    parse: string -> Outcome, patterns: FallbackScorer.Patterns)
    requires GptAdapter(gpt, parse).Err? && GeminiAdapter(gemini, parse).Err?
    ensures Analyze(Ok(JObj(map["text" := JNum(5.0)])), gpt, gemini, parse, patterns).response.Status() == 500
    ensures Analyze(Ok(JObj(map[])), gpt, gemini, parse, patterns).response.Status() == 500
  {
    assert RequestText(Ok(JObj(map["text" := JNum(5.0)]))) == Some(JNum(5.0));
    assert RequestText(Ok(JObj(map[]))) == None;
  }

  /** In general: once both providers fail, every readable, non-null body
      whose `text` is not a string answers 500 with the scorer's error,
      after all three stages were attempted. */
  lemma NonStringTextFails(
    body: Outcome, gpt: GptReply, gemini: GeminiReply,
    parse: string -> Outcome, patterns: FallbackScorer.Patterns)
    requires Destructurable(body) && !HasStringText(body)
    requires GptAdapter(gpt, parse).Err? && GeminiAdapter(gemini, parse).Err?
    ensures Analyze(body, gpt, gemini, parse, patterns)
         == Handled(ServerError(GeneralError, NonStringTextMessage), [Gpt, Gemini, Fallback])
  {
  }

  /** An empty first choice, or a Gemini text that does not parse, falls
      through to the next stage. */
  lemma AdapterFailuresFallThrough(
    body: Outcome, gemini: GeminiReply, badText: string,
    parse: string -> Outcome, patterns: FallbackScorer.Patterns)
    requires Destructurable(body) && parse(badText).Err?
    ensures |Analyze(body, GptChoices([Some("")]), gemini, parse, patterns).attempted| >= 2
    ensures |Analyze(body, GptChoices([None]), gemini, parse, patterns).attempted| >= 2
    ensures Analyze(body, GptChoices([]), GeminiText(badText), parse, patterns).attempted
         == [Gpt, Gemini, Fallback]
  {
    assert GptAdapter(GptChoices([Some("")]), parse).Err?;
    assert GptAdapter(GptChoices([None]), parse).Err?;
    assert GptAdapter(GptChoices([]), parse).Err?;
    assert GeminiAdapter(GeminiText(badText), parse).Err?;
  }
}
