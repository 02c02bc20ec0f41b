/**
 * The backend's client for the AI service (backend/utils/aiServiceClient.js).
 * A generation request goes to the AI service first; when that call fails,
 * at most one fallback provider is asked, chosen from the configured API
 * keys in an order that depends on the kind of request. The embedding
 * helpers never throw: a failure becomes a `{ success: false }` value.
 *
 * The HTTP calls are parameters: the AI service's reply body or an error,
 * and a provider call that answers (after `JSON.parse` for quizzes and
 * flashcards) or fails.
 */
module AiServiceClient {
  import opened Wrappers
  import opened Strings
  import opened Js

  datatype Kind = SummaryKind | QuizKind | FlashcardKind

  datatype Provider = OpenAi | Mistral

  /** The process environment's keys; an unset variable is "". */
  datatype Keys = Keys(openai: string, mistral: string, mistralModel: string)

  /** The arguments of `generateSummary`, `generateQuiz` and `generateFlashcards`. */
  datatype Request = Request(content: string, title: JsValue, count: JsValue, difficulty: JsValue)

  // ---------------------------------------------------------------------------
  // Default parameters
  // ---------------------------------------------------------------------------

  /** A default parameter applies only to an undefined argument. */
  function Default(arg: JsValue, default: JsValue): (r: JsValue)
    ensures arg.Undefined? ==> r == default
    ensures !arg.Undefined? ==> r == arg
  {
    if arg.Undefined? then default else arg
  }

  /** `maxLength = 500`, `numQuestions = 5`, `numCards = 10`. */
  function DefaultCount(kind: Kind): nat
  {
    match kind
    case SummaryKind => 500
    case QuizKind => 5
    case FlashcardKind => 10
  }

  /** The request as the method sees it after its defaults (`difficulty = 'medium'` for quizzes). */
  function WithDefaults(kind: Kind, req: Request): (r: Request)
    ensures r.content == req.content && r.title == req.title
    ensures r.count == Default(req.count, Num(DefaultCount(kind)))
    ensures kind.QuizKind? ==> r.difficulty == Default(req.difficulty, Str("medium"))
  {
    Request(req.content, req.title, Default(req.count, Num(DefaultCount(kind))),
            if kind.QuizKind? then Default(req.difficulty, Str("medium")) else req.difficulty)
  }

  // ---------------------------------------------------------------------------
  // The AI service's reply
  // ---------------------------------------------------------------------------

  const DefaultModel: string := "fine-tuned-llama"

  /**
   * `{ success: true, data: response.data.data, model: response.data.data.model || 'fine-tuned-llama', cached: response.data.cached || false }`.
   * Reading `model` of a missing `data` throws inside the `try`, so that
   * reply is handled like a failed call: None.
   */
  function PrimaryEnvelope(body: JsValue): (r: Option<JsValue>)
    ensures r.Some? <==> !Nullish(Prop(body, "data"))
    ensures r.Some? ==>
      && Prop(r.value, "success") == Bool(true)
      && Prop(r.value, "data") == Prop(body, "data")
      && Truthy(Prop(r.value, "model"))
      && (Truthy(Prop(Prop(body, "data"), "model")) ==> Prop(r.value, "model") == Prop(Prop(body, "data"), "model"))
      && (Truthy(Prop(body, "cached")) <==> Prop(r.value, "cached") != Bool(false))
  {
    var data := Prop(body, "data");
    if Nullish(data) then None
    else
      Some(Obj(map["success" := Bool(true), "data" := data,
                   "model" := Or(Prop(data, "model"), Str(DefaultModel)),
                   "cached" := Or(Prop(body, "cached"), Bool(false))]))
  }

  // ---------------------------------------------------------------------------
  // Choosing the fallback
  // ---------------------------------------------------------------------------

  /** What `.` matches in a regular expression: anything but a line terminator. */
  predicate IsLineTerminator(c: char)
  {
    c == '\n' || c == '\r' || c == '\U{2028}' || c == '\U{2029}'
  }

  /** `.*here` at `p`: some later `here`, with no line terminator before it. */
  predicate HereAfter(s: string, p: nat)
  {
    exists j: nat :: p <= j <= |s| && OccursAt(s, "here", j) && forall k :: p <= k < j ==> !IsLineTerminator(s[k])
  }

  /** `your-?ope.*here` matching at `i`. */
  predicate PlaceholderAt(s: string, i: nat)
  {
    && OccursAt(s, "your", i)
    && ((OccursAt(s, "-ope", i + 4) && HereAfter(s, i + 8)) || (OccursAt(s, "ope", i + 4) && HereAfter(s, i + 7)))
  }

  /**
   * `/your-?ope.*here/i.test(key)`. With the `i` flag and no `u` flag only
   * ASCII letters fold onto these ASCII letters, so lower-casing the ASCII
   * letters is exact.
   */
  predicate LooksLikePlaceholder(key: string)
  {
    exists i: nat :: i <= |key| && PlaceholderAt(Lower(key), i)
  }

  const MinOpenAiKey: nat := 20

  /**
   * `openaiKey && openaiKey.trim().length > 20 && !/your-?ope.*here/i.test(openaiKey)`,
   * the length in UTF-16 code units.
   */
  predicate PlausibleOpenAiKey(key: string)
  {
    |key| > 0 && Utf16Length(JsTrim(key)) > MinOpenAiKey && !LooksLikePlaceholder(key)
  }

  /**
   * The one provider a failed call falls back to: for summaries a plausible
   * OpenAI key, then any Mistral key; for quizzes and flashcards any Mistral
   * key, then any OpenAI key, checked for nothing but being set.
   */
  function FallbackChoice(kind: Kind, keys: Keys): (r: Option<Provider>)
    ensures kind.SummaryKind? ==>
      && (r == Some(OpenAi) <==> PlausibleOpenAiKey(keys.openai))
      && (r == Some(Mistral) <==> !PlausibleOpenAiKey(keys.openai) && keys.mistral != "")
    ensures !kind.SummaryKind? ==>
      && (r == Some(Mistral) <==> keys.mistral != "")
      && (r == Some(OpenAi) <==> keys.mistral == "" && keys.openai != "")
  {
    if kind.SummaryKind? then
      if PlausibleOpenAiKey(keys.openai) then Some(OpenAi)
      else if keys.mistral != "" then Some(Mistral)
      else None
    else
      if keys.mistral != "" then Some(Mistral)
      else if keys.openai != "" then Some(OpenAi)
      else None
  }

  /** A placeholder key never selects OpenAI for a summary, however long it is. */
  lemma PlaceholderKeyNotUsed(keys: Keys, i: nat)
    requires i <= |keys.openai| && PlaceholderAt(Lower(keys.openai), i)
    ensures FallbackChoice(SummaryKind, keys) != Some(OpenAi)
    ensures FallbackChoice(SummaryKind, keys) == (if keys.mistral != "" then Some(Mistral) else None)
  {
  }

  // ---------------------------------------------------------------------------
  // The fallback prompts
  // ---------------------------------------------------------------------------

  /** Only this much of the content goes into a fallback prompt. */
  const PromptContentLength: nat := 2000

  const SummarySystem: string := "You are an expert at " + "creating concise, " + "informative summaries " + "for educational content."
  const QuizSystem: string := "You are an expert " + "educator creating quiz " + "questions for educational " + "content. Return valid " + "JSON only."
  const FlashcardSystem: string := "You are an expert " + "educator creating " + "flashcards for effective " + "learning. Return valid " + "JSON only."
  const QuizFormat: string := "\n\nReturn as JSON array " + "of questions with: " + "question, options (A-D), " + "correctAnswer, explanation"
  const FlashcardFormat: string := "\n\nReturn as JSON array " + "of cards with: front, " + "back, category, difficulty"

  /**
   * `\n\nTitle: ${title}\n\nContent: ${content.substring(0, 2000)}`: the
   * content's longest prefix within 2000 UTF-16 code units.
   */
  function Excerpt(req: Request): string
  {
    "\n\nTitle: " + ToStr(req.title) + "\n\nContent: " + Utf16Prefix(req.content, PromptContentLength)
  }

  /** The user message of a fallback prompt. */
  function UserPrompt(kind: Kind, req: Request): string
  {
    match kind
    case SummaryKind => "Create a summary of " + "approximately " + ToStr(req.count) + " words for:" + Excerpt(req)
    case QuizKind => "Create " + ToStr(req.count) + " " + ToStr(req.difficulty) + " quiz questions " + "based on:" + Excerpt(req) + QuizFormat
    case FlashcardKind => "Create " + ToStr(req.count) + " flashcards based on:" + Excerpt(req) + FlashcardFormat
  }

  /** A chat-completion request to a provider. */
  datatype ProviderCall = ProviderCall(model: string, system: string, user: string, maxTokens: JsValue, temperature: Option<real>)

  /** The request sent to the chosen provider. */
  function FallbackCall(kind: Kind, p: Provider, keys: Keys, req: Request): (r: ProviderCall)
    ensures r.user == UserPrompt(kind, req)
    ensures kind.SummaryKind? ==> r.maxTokens == req.count
    ensures p.Mistral? <==> r.temperature == Some(0.7)
  {
    var system := match kind
      case SummaryKind => SummarySystem
      case QuizKind => QuizSystem
      case FlashcardKind => FlashcardSystem;
    var tokens := if kind.SummaryKind? then req.count else if p.Mistral? then Num(1200) else Num(1000);
    match p
    case Mistral =>
      ProviderCall(if keys.mistralModel != "" then keys.mistralModel else "mistral-small-latest", system, UserPrompt(kind, req), tokens, Some(0.7))
    case OpenAi =>
      ProviderCall("gpt-3.5-turbo", system, UserPrompt(kind, req), tokens, None)
  }

  /**
   * The content a fallback prompt carries is its prefix within 2000 UTF-16
   * code units: the rest never reaches a provider.
   */
  lemma PromptSeesOnlyPrefix(kind: Kind, p: Provider, keys: Keys, req: Request, req': Request)
    requires req.title == req'.title && req.count == req'.count && req.difficulty == req'.difficulty
    requires Utf16Prefix(req.content, PromptContentLength) == Utf16Prefix(req'.content, PromptContentLength)
    ensures FallbackCall(kind, p, keys, req) == FallbackCall(kind, p, keys, req')
  {
  }

  /**
   * Content of at most 2000 code units reaches the prompt whole; content
   * beyond the Basic Multilingual Plane is cut after 1000 characters.
   */
  lemma PromptContentCut(req: Request)
    ensures Utf16Length(req.content) <= PromptContentLength ==>
      Excerpt(req) == "\n\nTitle: " + ToStr(req.title) + "\n\nContent: " + req.content
    ensures Astral(req.content) ==>
      Excerpt(req) == "\n\nTitle: " + ToStr(req.title) + "\n\nContent: " + Prefix(req.content, 1000)
  {
    if Astral(req.content) {
      Utf16PrefixAstral(req.content, PromptContentLength);
    }
  }

  // ---------------------------------------------------------------------------
  // Generation with fallback
  // ---------------------------------------------------------------------------

  /** `'mistral-fallback'` or `'openai-fallback'` */
  function FallbackLabel(p: Provider): string
  {
    match p
    case Mistral => "mistral-fallback"
    case OpenAi => "openai-fallback"
  }

  /** `{ success: true, data: { content | questions | cards, title, model } }` */
  function FallbackEnvelope(kind: Kind, p: Provider, answer: JsValue, title: JsValue): (r: JsValue)
    ensures Prop(r, "success") == Bool(true)
    ensures Prop(Prop(r, "data"), "model") == Str(FallbackLabel(p))
    ensures Prop(Prop(r, "data"), "title") == title
  {
    var key := match kind
      case SummaryKind => "content"
      case QuizKind => "questions"
      case FlashcardKind => "cards";
    Obj(map["success" := Bool(true), "data" := Obj(map[key := answer, "title" := title, "model" := Str(FallbackLabel(p))])])
  }

  const NoFallback: string := "AI service unavailable " + "and no fallback configured"

  /** The message a failed fallback is rethrown with. */
  function FailedText(kind: Kind): string
  {
    match kind
    case SummaryKind => "Failed to generate summary"
    case QuizKind => "Failed to generate quiz"
    case FlashcardKind => "Failed to generate flashcards"
  }

  /** What a generation method returns or throws, and which providers it asked. */
  datatype Generation = Generation(result: Result<JsValue, string>, asked: seq<Provider>)

  /**
   * `generateSummary`, `generateQuiz`, `generateFlashcards`: `primary` is the
   * AI service's reply body (or the error it threw), `provider` a provider
   * call's answer or None when it throws.
   */
  function Generate(kind: Kind, req: Request, primary: Result<JsValue, string>, keys: Keys,
                    provider: (Provider, ProviderCall) -> Option<JsValue>): (r: Generation)
    ensures |r.asked| <= 1
    ensures primary.Ok? && PrimaryEnvelope(primary.value).Some? ==> r == Generation(Ok(PrimaryEnvelope(primary.value).value), [])
    ensures r.asked == [] && r.result.Err? ==> r.result.error == NoFallback && FallbackChoice(kind, keys).None?
    ensures |r.asked| == 1 ==> Some(r.asked[0]) == FallbackChoice(kind, keys)
    ensures |r.asked| == 1 && r.result.Err? ==> r.result.error == FailedText(kind)
    ensures |r.asked| == 1 && r.result.Ok? ==> Prop(Prop(r.result.value, "data"), "model") == Str(FallbackLabel(r.asked[0]))
  {
    var req := WithDefaults(kind, req);
    if primary.Ok? && PrimaryEnvelope(primary.value).Some? then
      Generation(Ok(PrimaryEnvelope(primary.value).value), [])
    else
      match FallbackChoice(kind, keys)
      case None => Generation(Err(NoFallback), [])
      case Some(p) =>
        match provider(p, FallbackCall(kind, p, keys, req))
        case None => Generation(Err(FailedText(kind)), [p])
        case Some(answer) => Generation(Ok(FallbackEnvelope(kind, p, answer, req.title)), [p])
  }

  /** A failed fallback is not followed by the other provider, whatever keys are set. */
  lemma OneFallbackOnly(kind: Kind, req: Request, primary: Result<JsValue, string>, keys: Keys,
                        provider: (Provider, ProviderCall) -> Option<JsValue>)
    requires primary.Err? || PrimaryEnvelope(primary.value).None?
    requires FallbackChoice(kind, keys).Some?
    ensures var p := FallbackChoice(kind, keys).value;
      var r := Generate(kind, req, primary, keys, provider);
      && r.asked == [p]
      && (provider(p, FallbackCall(kind, p, keys, WithDefaults(kind, req))).None? ==> r.result == Err(FailedText(kind)))
  {
  }

  // ---------------------------------------------------------------------------
  // Helpers that never throw
  // ---------------------------------------------------------------------------

  /** `addEmbeddings` and `deleteEmbeddings`: the reply body, or `{ success: false, error }`. */
  function EmbeddingReply(reply: Result<JsValue, string>): (r: JsValue)
    ensures reply.Ok? ==> r == reply.value
    ensures reply.Err? ==> Prop(r, "success") == Bool(false) && Prop(r, "error") == Str(reply.error)
  {
    match reply
    case Ok(data) => data
    case Err(m) => Obj(map["success" := Bool(false), "error" := Str(m)])
  }

  /** `searchEmbeddings`: the reply body, or `{ success: false, results: [] }`. */
  function SearchReply(reply: Result<JsValue, string>): (r: JsValue)
    ensures reply.Ok? ==> r == reply.value
    ensures reply.Err? ==> Prop(r, "success") == Bool(false) && Prop(r, "results") == Arr([])
  {
    match reply
    case Ok(data) => data
    case Err(_) => Obj(map["success" := Bool(false), "results" := Arr([])])
  }

  /** `healthCheck`: `{ available: true, status }` or `{ available: false, error }`. */
  function HealthReply(reply: Result<JsValue, string>): (r: JsValue)
    ensures Prop(r, "available") == Bool(reply.Ok?)
    ensures reply.Ok? ==> Prop(r, "status") == reply.value
    ensures reply.Err? ==> Prop(r, "error") == Str(reply.error)
  {
    match reply
    case Ok(data) => Obj(map["available" := Bool(true), "status" := data])
    case Err(m) => Obj(map["available" := Bool(false), "error" := Str(m)])
  }
}
