/** The small decision rules around the language-model calls: the
    non-streaming response checks of the Chrome popup, the choice between
    OpenRouter and Gemini (`callTextApi`) and the refined-query fallback. */
module Providers {
  import opened Wrappers
  import opened JsString

  /** What a call can throw: an `Error` with its message, or the `TypeError`
      of calling `trim` on a missing text. */
  datatype CallError = Thrown(message: string) | MissingText

  // ---------------------------------------------------------------------
  // Chrome callGemini, from the response on
  // ---------------------------------------------------------------------

  datatype ReplyPart = ReplyPart(text: Option<string>)
  datatype ReplyContent = ReplyContent(parts: Option<seq<ReplyPart>>)
  datatype ReplyCandidate = ReplyCandidate(finishReason: Option<string>, content: Option<ReplyContent>)
  datatype GeminiReply = GeminiReply(candidates: Option<seq<ReplyCandidate>>)

  /** The status line and the parsed JSON body of a `fetch` answer. */
  datatype Response<T> = Response(ok: bool, status: nat, statusText: string, data: T)

  /** `candidate.finishReason && candidate.finishReason !== 'STOP'`: an
      absent or empty reason lets the reply through. */
  predicate Stopped(c: ReplyCandidate)
  {
    c.finishReason.Some? && c.finishReason.value != [] && c.finishReason.value != "STOP"
  }

  predicate HasFirstPart(c: ReplyCandidate)
  {
    c.content.Some? && c.content.value.parts.Some? && |c.content.value.parts.value| > 0
  }

  function StatusError(prefix: string, status: nat, statusText: string): string
  {
    prefix + NatToDecimal(status) + " - " + statusText
  }

  /** The checks after `fetch` in Chrome `callGemini`, in their order. */
  function GeminiReplyText(response: Response<GeminiReply>): (r: Result<string, CallError>)
    ensures !response.ok ==> r == Err(Thrown(StatusError("API error: ", response.status, response.statusText)))
    ensures response.ok && (response.data.candidates.None? || |response.data.candidates.value| == 0) ==>
              r == Err(Thrown("No candidates in API response."))
    ensures response.ok && response.data.candidates.Some? && |response.data.candidates.value| > 0 &&
            Stopped(response.data.candidates.value[0]) ==>
              r == Err(Thrown("Generation stopped: " + response.data.candidates.value[0].finishReason.value))
    ensures response.ok && response.data.candidates.Some? && |response.data.candidates.value| > 0 &&
            !Stopped(response.data.candidates.value[0]) && !HasFirstPart(response.data.candidates.value[0]) ==>
              r == Err(Thrown("Empty content from API."))
    ensures r.Ok? <==>
              response.ok && response.data.candidates.Some? && |response.data.candidates.value| > 0 &&
              !Stopped(response.data.candidates.value[0]) && HasFirstPart(response.data.candidates.value[0]) &&
              response.data.candidates.value[0].content.value.parts.value[0].text.Some?
    ensures r.Ok? ==>
              r.value == Trim(response.data.candidates.value[0].content.value.parts.value[0].text.value) &&
              NoEdgeWhitespace(r.value)
  {
    if !response.ok then Err(Thrown(StatusError("API error: ", response.status, response.statusText)))
    else if response.data.candidates.None? || |response.data.candidates.value| == 0 then
      Err(Thrown("No candidates in API response."))
    else
      var candidate := response.data.candidates.value[0];
      if Stopped(candidate) then Err(Thrown("Generation stopped: " + candidate.finishReason.value))
      else if !HasFirstPart(candidate) then Err(Thrown("Empty content from API."))
      else
        match candidate.content.value.parts.value[0].text
        case None => Err(MissingText)
        case Some(text) => Ok(Trim(text))
  }

  // ---------------------------------------------------------------------
  // Chrome callOpenRouter
  // ---------------------------------------------------------------------

  datatype ReplyMessage = ReplyMessage(content: Option<string>)
  datatype ReplyChoice = ReplyChoice(message: Option<ReplyMessage>)
  datatype ChoicesReply = ChoicesReply(choices: Option<seq<ReplyChoice>>)

  /** Chrome `callOpenRouter`: the key and model are checked before any
      request; `response` is what the request would answer. */
  function OpenRouterReplyText(apiKey: string, model: string, response: Response<ChoicesReply>): (r: Result<string, CallError>)
    ensures apiKey == [] || model == [] ==> r == Err(Thrown("Missing OpenRouter API key or model."))
    ensures apiKey != [] && model != [] && !response.ok ==>
              r == Err(Thrown(StatusError("OpenRouter API error: ", response.status, response.statusText)))
    ensures r.Ok? <==>
              apiKey != [] && model != [] && response.ok &&
              response.data.choices.Some? && |response.data.choices.value| > 0 &&
              response.data.choices.value[0].message.Some? &&
              response.data.choices.value[0].message.value.content.Some?
    ensures r.Ok? ==> r.value == Trim(response.data.choices.value[0].message.value.content.value)
    ensures apiKey != [] && model != [] && response.ok &&
            (response.data.choices.None? || |response.data.choices.value| == 0) ==>
              r == Err(Thrown("No choices in API response."))
    ensures apiKey != [] && model != [] && response.ok &&
            response.data.choices.Some? && |response.data.choices.value| > 0 &&
            (response.data.choices.value[0].message.None? || response.data.choices.value[0].message.value.content.None?) ==>
              r == Err(MissingText)
  {
    if apiKey == [] || model == [] then Err(Thrown("Missing OpenRouter API key or model."))
    else if !response.ok then Err(Thrown(StatusError("OpenRouter API error: ", response.status, response.statusText)))
    else if response.data.choices.None? || |response.data.choices.value| == 0 then
      Err(Thrown("No choices in API response."))
    else
      var choice := response.data.choices.value[0];
      if choice.message.None? || choice.message.value.content.None? then Err(MissingText)
      else Ok(Trim(choice.message.value.content.value))
  }

  // ---------------------------------------------------------------------
  // callTextApi
  // ---------------------------------------------------------------------

  const DefaultOpenRouterModel: string := "arcee-ai/trinity-mini:free"

  /** The popup's inputs that the choice reads. */
  datatype Settings = Settings(
    geminiKeyInput: string,
    useOpenRouter: bool,
    openRouterKeyInput: string,
    openRouterModelInput: string,
    geminiModel: string)

  datatype Route =
    | ViaOpenRouter(key: string, model: string)
    | ViaGemini(key: string, model: string)
    | NoKey

  /** `getOpenRouterModel`: the trimmed input, or the default model when it is empty. */
  function OpenRouterModel(input: string): (m: string)
    ensures m != []
    ensures Trim(input) != [] ==> m == Trim(input)
    ensures Trim(input) == [] ==> m == DefaultOpenRouterModel
  {
    if Trim(input) == [] then DefaultOpenRouterModel else Trim(input)
  }

  /** `callTextApi`: OpenRouter when it is switched on and has a key,
      otherwise Gemini when it has a key, otherwise no call at all. */
  function ChooseTextApi(s: Settings): (route: Route)
    ensures route.ViaOpenRouter? <==> s.useOpenRouter && Trim(s.openRouterKeyInput) != []
    ensures route.ViaGemini? <==> !(s.useOpenRouter && Trim(s.openRouterKeyInput) != []) && Trim(s.geminiKeyInput) != []
    ensures route.ViaOpenRouter? ==> route.key == Trim(s.openRouterKeyInput) && route.model == OpenRouterModel(s.openRouterModelInput)
    ensures route.ViaGemini? ==> route.key == Trim(s.geminiKeyInput) && route.model == s.geminiModel
  {
    var apiKey := Trim(s.geminiKeyInput);
    var orKey := Trim(s.openRouterKeyInput);
    if s.useOpenRouter && orKey != [] then ViaOpenRouter(orKey, OpenRouterModel(s.openRouterModelInput))
    else if apiKey != [] then ViaGemini(apiKey, s.geminiModel)
    else NoKey
  }

  /** Chrome `callTextApi` with the answers either provider would give. */
  function CallTextApi(s: Settings, geminiAnswer: Response<GeminiReply>, openRouterAnswer: Response<ChoicesReply>)
    : (r: Result<string, CallError>)
    ensures ChooseTextApi(s).NoKey? ==> r == Err(Thrown("No valid API key for text generation."))
    ensures ChooseTextApi(s).ViaGemini? ==> r == GeminiReplyText(geminiAnswer)
    ensures ChooseTextApi(s).ViaOpenRouter? ==>
              r == OpenRouterReplyText(ChooseTextApi(s).key, ChooseTextApi(s).model, openRouterAnswer)
  {
    match ChooseTextApi(s)
    case ViaOpenRouter(key, model) => OpenRouterReplyText(key, model, openRouterAnswer)
    case ViaGemini(_, _) => GeminiReplyText(geminiAnswer)
    case NoKey => Err(Thrown("No valid API key for text generation."))
  }

  /** Through `callTextApi` the OpenRouter call always has a key and a
      model, so its "missing key or model" error can never be raised. */
  lemma OpenRouterConfigAlwaysPresent(s: Settings, geminiAnswer: Response<GeminiReply>,
                                      openRouterAnswer: Response<ChoicesReply>)
    ensures CallTextApi(s, geminiAnswer, openRouterAnswer) != Err(Thrown("Missing OpenRouter API key or model."))
  {
    match ChooseTextApi(s)
    case ViaOpenRouter(key, model) =>
      var r := OpenRouterReplyText(key, model, openRouterAnswer);
      if r.Err? && r.error.Thrown? {
        assert r.error.message[0] == 'O' || r.error.message[0] == 'N';
      }
    case ViaGemini(_, _) =>
      var r := GeminiReplyText(geminiAnswer);
      if r.Err? && r.error.Thrown? && r.error.message == "Missing OpenRouter API key or model." {
        GeminiMessagesDiffer(geminiAnswer);
      }
    case NoKey =>
  }

  /** None of Gemini's error messages is OpenRouter's configuration error. */
  lemma GeminiMessagesDiffer(response: Response<GeminiReply>)
    ensures GeminiReplyText(response) != Err(Thrown("Missing OpenRouter API key or model."))
  {
    var r := GeminiReplyText(response);
    if r.Err? && r.error.Thrown? {
      var m := r.error.message;
      assert m[0] == 'A' || m[0] == 'N' || m[0] == 'G' || m[0] == 'E';
    }
  }

  // ---------------------------------------------------------------------
  // the refined-query fallback
  // ---------------------------------------------------------------------

  const MaxQueryLength: nat := 400

  /** `refinedQuery.length > 400 ? question : refinedQuery`. */
  function EffectiveQuery(refined: string, question: string): (q: string)
    ensures q == refined || q == question
    ensures q == refined ==> Utf16Length(q) <= MaxQueryLength || refined == question
    ensures Utf16Length(refined) <= MaxQueryLength ==> q == refined
  {
    if Utf16Length(refined) > MaxQueryLength then question else refined
  }
}
