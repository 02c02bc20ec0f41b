/**
 * The backend's AI routes (backend/routes/ai.js): the three generation
 * routes, which resolve a document, validate in a fixed order, call the AI
 * service once and forward its reply, and the two chat routes, which append
 * one user/assistant exchange to a stored chat and derive its title.
 *
 * The document store, the AI service and the chat store are parameters: a
 * lookup by id, a lookup of the newest document with a title, a `post`
 * function answering with a status and a body (or failing to connect), and
 * the chat object `Chat.findOne` returned.
 */
module AiRoutes {
  import opened Wrappers
  import opened Strings
  import opened Js
  import opened Express

  // ---------------------------------------------------------------------------
  // Collaborators
  // ---------------------------------------------------------------------------

  /** A stored document as `Document.findById` returns it. */
  datatype StoredDoc = StoredDoc(id: JsValue, extractedText: JsValue, content: JsValue, title: JsValue)

  /**
   * `Document.findById(id)`: the document, None when there is none, or the
   * message of the error it throws (a CastError for a malformed id).
   */
  type DocLookup = JsValue -> Result<Option<StoredDoc>, string>

  /** `(await Document.findOne({ title }).sort({ createdAt: -1 }))?._id`: Undefined when there is none. */
  type LatestByTitle = JsValue -> JsValue

  /** What `ai.post` gives back: every status is a reply, only a connection failure throws. */
  datatype AiReply = Replied(status: int, data: JsValue) | NetworkError(message: string)

  type AiPost = (string, JsValue) -> AiReply

  /** The body that is sent: `JSON.stringify` drops undefined members. */
  function Sent(fields: map<string, JsValue>): (r: JsValue)
    ensures r.Obj? && forall k :: k in r.fields <==> k in fields && !fields[k].Undefined?
  {
    Obj(map k | k in fields && !fields[k].Undefined? :: fields[k])
  }

  /** The message of the TypeError thrown by reading `key` of null or undefined. */
  function ReadError(v: JsValue, key: string): string
  {
    "Cannot read properties of " + (if v.Null? then "null" else "undefined") + " (reading '" + key + "')"
  }

  // ---------------------------------------------------------------------------
  // Which text a generation route works on
  // ---------------------------------------------------------------------------

  /** The content, the title and the document id a route goes on with. */
  datatype Source = Source(content: JsValue, title: JsValue, docId: JsValue)

  const DocumentNotFound: string := "Document not found"

  /** `documentId && !actualContent`: the document is fetched only then. */
  predicate NeedsLookup(body: JsValue)
  {
    Truthy(Prop(body, "documentId")) && !Truthy(Prop(body, "content"))
  }

  /** The lookup of the body's `documentId`. */
  function LookupOf(body: JsValue, findById: DocLookup): Result<Option<StoredDoc>, string>
  {
    findById(Prop(body, "documentId"))
  }

  /**
   * Content in the body is used as it is; only when it is missing and a
   * `documentId` is given is the document fetched, and then its extracted
   * text (or its content), its title and its id replace the body's. A
   * missing document is a 404; a lookup that throws reaches the route's
   * outer catch, a 500 with the error's message.
   */
  function ResolveSource(body: JsValue, findById: DocLookup): (r: Result<Source, Response>)
    ensures r.Err? <==> NeedsLookup(body) && (LookupOf(body, findById).Err? || LookupOf(body, findById).value.None?)
    ensures !NeedsLookup(body) ==> r == Ok(Source(Prop(body, "content"), Prop(body, "title"), Prop(body, "documentId")))
    ensures NeedsLookup(body) && LookupOf(body, findById).Err? ==> r == Err(BackendError(LookupOf(body, findById).error))
    ensures NeedsLookup(body) && LookupOf(body, findById) == Ok(None) ==> r == Err(Fail(404, DocumentNotFound))
    ensures r.Ok? && NeedsLookup(body) ==>
      LookupOf(body, findById).Ok? && LookupOf(body, findById).value.Some? &&
      var d := LookupOf(body, findById).value.value;
      r.value == Source(Or(d.extractedText, d.content), d.title, d.id)
    ensures r.Err? ==> r.error.status in {404, 500}
  {
    var content, title, id := Prop(body, "content"), Prop(body, "title"), Prop(body, "documentId");
    if NeedsLookup(body) then
      match findById(id)
      case Err(m) => Err(BackendError(m))
      case Ok(None) => Err(Fail(404, DocumentNotFound))
      case Ok(Some(d)) => Ok(Source(Or(d.extractedText, d.content), d.title, d.id))
    else Ok(Source(content, title, id))
  }

  /** The lookup decides only what the body leaves open: given content, no lookup is consulted. */
  lemma ContentNeedsNoLookup(body: JsValue, findById: DocLookup, findById': DocLookup)
    requires !NeedsLookup(body)
    ensures ResolveSource(body, findById) == ResolveSource(body, findById')
    ensures ResolveSource(body, findById).Ok?
  {
  }

  // ---------------------------------------------------------------------------
  // Validation
  // ---------------------------------------------------------------------------

  const MinContentLength: nat := 20
  const MaxSummaryContent: nat := 1_000_000

  const ContentRequired: string := "content must be a non-empty " + "string (>=20 chars)"
  const TitleRequired: string := "title must be a string"
  const TooLarge: string := "Document too large. " + "Please split and try again."

  /** A string of at least 20 UTF-16 code units. */
  predicate UsableContent(c: JsValue)
  {
    Truthy(c) && c.Str? && Utf16Length(c.s) >= MinContentLength
  }

  predicate UsableTitle(t: JsValue)
  {
    Truthy(t) && t.Str?
  }

  /** The summary route's checks, in their order: content, title, size. */
  function SummaryCheck(src: Source): (r: Option<Response>)
    ensures r.None? <==> UsableContent(src.content) && UsableTitle(src.title) && Utf16Length(src.content.s) <= MaxSummaryContent
    ensures !UsableContent(src.content) ==> r == Some(Fail(400, ContentRequired))
    ensures UsableContent(src.content) && !UsableTitle(src.title) ==> r == Some(Fail(400, TitleRequired))
    ensures UsableContent(src.content) && UsableTitle(src.title) && Utf16Length(src.content.s) > MaxSummaryContent ==> r == Some(Fail(413, TooLarge))
  {
    if !UsableContent(src.content) then Some(Fail(400, ContentRequired))
    else if !UsableTitle(src.title) then Some(Fail(400, TitleRequired))
    else if Utf16Length(src.content.s) > MaxSummaryContent then Some(Fail(413, TooLarge))
    else None
  }

  /** The quiz route's checks: content, then title; there is no size limit. */
  function QuizCheck(src: Source): (r: Option<Response>)
    ensures r.None? <==> UsableContent(src.content) && UsableTitle(src.title)
    ensures !UsableContent(src.content) ==> r == Some(Fail(400, ContentRequired))
    ensures UsableContent(src.content) && !UsableTitle(src.title) ==> r == Some(Fail(400, TitleRequired))
  {
    if !UsableContent(src.content) then Some(Fail(400, ContentRequired))
    else if !UsableTitle(src.title) then Some(Fail(400, TitleRequired))
    else None
  }

  // ---------------------------------------------------------------------------
  // What the routes store
  // ---------------------------------------------------------------------------

  const StoredModel: string := "Qwen2.5-7B-Instruct"

  /** One flashcard as the backend stores it. */
  datatype Card = Card(front: JsValue, back: JsValue, category: JsValue, difficulty: JsValue)

  /** The record a route hands to `create` after a successful reply. */
  datatype Record =
    | SummaryRecord(documentId: JsValue, content: JsValue, maxLength: nat, model: JsValue)
    | QuizRecord(documentId: JsValue, questionsText: JsValue, numQuestions: JsValue, model: JsValue)
    | FlashcardRecord(documentId: JsValue, cards: seq<Card>, numCards: nat, model: JsValue)

  /** A route's reply and the record it stores, if any. */
  datatype Outcome = Outcome(response: Response, saved: Option<Record>)

  /** `r.data?.data || r.data` */
  function Payload(data: JsValue): JsValue
  {
    Or(Prop(data, "data"), data)
  }

  /** The id to store under: the route's own, else the newest document with that title. */
  function SaveTarget(src: Source, latestByTitle: LatestByTitle): JsValue
  {
    if Truthy(src.docId) then src.docId else latestByTitle(src.title)
  }

  /** `{ front: c.term || c.front, back: c.definition || c.back, category: … || 'General', difficulty: … || 'easy' }` */
  function NormalizeCard(c: JsValue): (r: Card)
    ensures Truthy(r.category) && Truthy(r.difficulty)
    ensures Truthy(Prop(c, "term")) ==> r.front == Prop(c, "term")
    ensures !Truthy(Prop(c, "term")) ==> r.front == Prop(c, "front")
    ensures Truthy(Prop(c, "definition")) ==> r.back == Prop(c, "definition")
    ensures !Truthy(Prop(c, "definition")) ==> r.back == Prop(c, "back")
  {
    Card(Or(Prop(c, "term"), Prop(c, "front")), Or(Prop(c, "definition"), Prop(c, "back")),
         Or(Prop(c, "category"), Str("General")), Or(Prop(c, "difficulty"), Str("easy")))
  }

  /**
   * `(payload?.flashcards || []).map(...)`: None when it throws, because the
   * list is not an array or one of its elements is null or undefined.
   */
  function NormalizeCards(list: JsValue): (r: Option<seq<Card>>)
    ensures !Truthy(list) ==> r == Some([])
    ensures Truthy(list) && !list.Arr? ==> r.None?
    ensures list.Arr? ==> (r.Some? <==> forall i :: 0 <= i < |list.items| ==> !Nullish(list.items[i]))
    ensures list.Arr? && r.Some? ==>
      |r.value| == |list.items| && forall i :: 0 <= i < |list.items| ==> r.value[i] == NormalizeCard(list.items[i])
  {
    if !Truthy(list) then Some([])
    else if !list.Arr? then None
    else if exists i :: 0 <= i < |list.items| && Nullish(list.items[i]) then None
    else Some(MapSeq(NormalizeCard, list.items))
  }

  function SummarySave(src: Source, data: JsValue, latestByTitle: LatestByTitle): Option<Record>
  {
    var p, id := Payload(data), SaveTarget(src, latestByTitle);
    if Truthy(id) then
      Some(SummaryRecord(id, Or(Or(Prop(p, "content"), Prop(p, "data")), Str("")), 500, Or(Prop(p, "model"), Str(StoredModel))))
    else None
  }

  function QuizSave(src: Source, data: JsValue, latestByTitle: LatestByTitle): Option<Record>
  {
    var p, id := Payload(data), SaveTarget(src, latestByTitle);
    if Truthy(id) then
      Some(QuizRecord(id, Or(Prop(p, "questions"), Str("")), Or(Or(Prop(p, "num_questions"), Prop(p, "numQuestions")), Num(0)), Str(StoredModel)))
    else None
  }

  /** The card list is built before the id is looked up, so a list that throws stores nothing. */
  function FlashcardSave(src: Source, data: JsValue, latestByTitle: LatestByTitle): (r: Option<Record>)
    ensures r.Some? ==> r.value.FlashcardRecord? && r.value.numCards == |r.value.cards|
  {
    match NormalizeCards(Prop(Payload(data), "flashcards"))
    case None => None
    case Some(cards) =>
      var id := SaveTarget(src, latestByTitle);
      if Truthy(id) then Some(FlashcardRecord(id, cards, |cards|, Str(StoredModel))) else None
  }

  // ---------------------------------------------------------------------------
  // The generation routes
  // ---------------------------------------------------------------------------

  const AiServiceError: string := "AI service error"
  const BackendErrorText: string := "backend error"

  /** The outer `catch`: 500 with the exception's message. */
  function BackendError(message: string): (r: Response)
    ensures r.status == 500
    ensures Prop(r.body, "error") == Str(BackendErrorText) && Prop(r.body, "message") == Str(message)
  {
    FailWith(500, BackendErrorText, "message", Str(message))
  }

  /** `r.data?.detail || r.data?.message || JSON.stringify(r.data)`; the JSON text is a parameter. */
  function SummaryAiError(status: int, data: JsValue, stringify: JsValue -> string): (r: Response)
    ensures r.status == 502
  {
    var detail := Or(Or(Prop(data, "detail"), Prop(data, "message")), Str(stringify(data)));
    Response(502, Obj(map["error" := Str(AiServiceError), "status" := Num(status), "detail" := detail]))
  }

  /** `POST /generate-summary` */
  function GenerateSummary(body: JsValue, findById: DocLookup, latestByTitle: LatestByTitle, ai: AiPost, stringify: JsValue -> string): (r: Outcome)
    ensures NeedsLookup(body) && LookupOf(body, findById) == Ok(None) ==> r == Outcome(Fail(404, DocumentNotFound), None)
    ensures NeedsLookup(body) && LookupOf(body, findById).Err? ==> r == Outcome(BackendError(LookupOf(body, findById).error), None)
    ensures ResolveSource(body, findById).Ok? && SummaryCheck(ResolveSource(body, findById).value).Some? ==>
      r == Outcome(SummaryCheck(ResolveSource(body, findById).value).value, None)
    ensures r.response.status in {200, 400, 404, 413, 500, 502}
    ensures r.saved.Some? ==> r.response.status == 200 && r.saved.value.SummaryRecord?
  {
    match ResolveSource(body, findById)
    case Err(e) => Outcome(e, None)
    case Ok(src) =>
      match SummaryCheck(src)
      case Some(e) => Outcome(e, None)
      case None =>
        match ai("/generate/summary", Sent(map["content" := src.content, "title" := src.title]))
        case NetworkError(m) => Outcome(BackendError(m), None)
        case Replied(status, data) =>
          if IsSuccess(status) then Outcome(Json(data), SummarySave(src, data, latestByTitle))
          else Outcome(SummaryAiError(status, data, stringify), None)
  }

  /** A valid summary request is forwarded with the AI service's body on any 2xx status, stored or not. */
  lemma SummaryForwards(body: JsValue, findById: DocLookup, latestByTitle: LatestByTitle, ai: AiPost, stringify: JsValue -> string)
    requires ResolveSource(body, findById).Ok?
    requires SummaryCheck(ResolveSource(body, findById).value).None?
    ensures var src := ResolveSource(body, findById).value;
      var reply := ai("/generate/summary", Sent(map["content" := src.content, "title" := src.title]));
      && (reply.Replied? && IsSuccess(reply.status) ==>
            GenerateSummary(body, findById, latestByTitle, ai, stringify).response == Json(reply.data))
      && (reply.Replied? && !IsSuccess(reply.status) ==>
            GenerateSummary(body, findById, latestByTitle, ai, stringify).response.status == 502)
      && (reply.NetworkError? ==> GenerateSummary(body, findById, latestByTitle, ai, stringify).response.status == 500)
  {
  }

  /** Every check runs before the AI call: a rejected request gives the same reply whatever the AI service would do. */
  lemma SummaryChecksBeforeCall(body: JsValue, findById: DocLookup, latestByTitle: LatestByTitle, ai: AiPost, ai': AiPost, stringify: JsValue -> string)
    requires ResolveSource(body, findById).Err? || SummaryCheck(ResolveSource(body, findById).value).Some?
    ensures GenerateSummary(body, findById, latestByTitle, ai, stringify) == GenerateSummary(body, findById, latestByTitle, ai', stringify)
    ensures GenerateSummary(body, findById, latestByTitle, ai, stringify).response.status in {400, 404, 413, 500}
    ensures GenerateSummary(body, findById, latestByTitle, ai, stringify).response.status == 500 ==>
      NeedsLookup(body) && LookupOf(body, findById).Err?
  {
  }

  const QuestionsPer10k: nat := 3
  const MinQuestions: nat := 8
  const MaxQuestions: nat := 30

  /**
   * `Math.max(8, Math.min(30, Math.floor(len / 10000 * 3)))`, in integers:
   * since 3 and 10000 are coprime, the floating-point product never lands on
   * the wrong side of an integer for a string's length.
   */
  function DefaultQuestionCount(len: nat): (r: nat)
    ensures MinQuestions <= r <= MaxQuestions
    ensures MinQuestions <= len * QuestionsPer10k / 10000 <= MaxQuestions ==> r == len * QuestionsPer10k / 10000
    ensures len * QuestionsPer10k / 10000 < MinQuestions ==> r == MinQuestions
    ensures len * QuestionsPer10k / 10000 > MaxQuestions ==> r == MaxQuestions
  {
    Max(MinQuestions, Min(MaxQuestions, len * QuestionsPer10k / 10000)) as nat
  }

  lemma FiftyThousandCharsGiveFifteen()
    ensures DefaultQuestionCount(50000) == 15
  {
  }

  /** More content never asks for fewer questions. */
  lemma DefaultQuestionCountMonotone(a: nat, b: nat)
    requires a <= b
    ensures DefaultQuestionCount(a) <= DefaultQuestionCount(b)
  {
    assert a * QuestionsPer10k <= b * QuestionsPer10k;
  }

  /** `numQuestions || calculatedQuestions` */
  function QuestionCount(numQuestions: JsValue, len: nat): (r: JsValue)
    ensures Truthy(numQuestions) ==> r == numQuestions
    ensures !Truthy(numQuestions) ==> r == Num(DefaultQuestionCount(len))
  {
    Or(numQuestions, Num(DefaultQuestionCount(len)))
  }

  const AiCallFailed: string := "Failed to call AI service"

  /** `POST /generate-quiz` */
  function GenerateQuiz(body: JsValue, findById: DocLookup, latestByTitle: LatestByTitle, ai: AiPost): (r: Outcome)
    ensures NeedsLookup(body) && LookupOf(body, findById) == Ok(None) ==> r == Outcome(Fail(404, DocumentNotFound), None)
    ensures NeedsLookup(body) && LookupOf(body, findById).Err? ==> r == Outcome(BackendError(LookupOf(body, findById).error), None)
    ensures ResolveSource(body, findById).Ok? && Nullish(ResolveSource(body, findById).value.content) ==>
      r.response.status == 500 && r.saved.None?
    ensures r.response.status in {200, 400, 404, 500, 502}
    ensures r.saved.Some? ==> r.response.status == 200 && r.saved.value.QuizRecord?
  {
    match ResolveSource(body, findById)
    case Err(e) => Outcome(e, None)
    case Ok(src) =>
      if Nullish(src.content) then Outcome(BackendError(ReadError(src.content, "length")), None)
      else
        match QuizCheck(src)
        case Some(e) => Outcome(e, None)
        case None =>
          var count := QuestionCount(Prop(body, "numQuestions"), Utf16Length(src.content.s));
          match ai("/generate/quiz", Sent(map["content" := src.content, "title" := src.title, "num_questions" := count]))
          case NetworkError(m) => Outcome(FailWith(502, AiCallFailed, "detail", Str(m)), None)
          case Replied(status, data) =>
            if IsSuccess(status) then Outcome(Json(data), QuizSave(src, data, latestByTitle))
            else Outcome(FailWith(502, AiServiceError, "detail", Prop(data, "detail")), None)
  }

  /** The length is read before validation: no content and no document id is a 500, not a 400. */
  lemma QuizWithoutContentFails(body: JsValue, findById: DocLookup, latestByTitle: LatestByTitle, ai: AiPost)
    requires Nullish(Prop(body, "content")) && !Truthy(Prop(body, "documentId"))
    ensures GenerateQuiz(body, findById, latestByTitle, ai).response
         == BackendError(ReadError(Prop(body, "content"), "length"))
  {
  }

  /** A valid quiz request sends the requested count, or the default one for the content's length. */
  lemma QuizSendsCount(body: JsValue, findById: DocLookup, latestByTitle: LatestByTitle, ai: AiPost, len: nat)
    requires ResolveSource(body, findById).Ok?
    requires var src := ResolveSource(body, findById).value;
      !Nullish(src.content) && QuizCheck(src).None? && len == Utf16Length(src.content.s)
    ensures len >= MinContentLength
    ensures var src := ResolveSource(body, findById).value;
      var count := if Truthy(Prop(body, "numQuestions")) then Prop(body, "numQuestions") else Num(DefaultQuestionCount(len));
      var reply := ai("/generate/quiz", Sent(map["content" := src.content, "title" := src.title, "num_questions" := count]));
      reply.Replied? && IsSuccess(reply.status) ==>
        GenerateQuiz(body, findById, latestByTitle, ai).response == Json(reply.data)
  {
  }

  const DefaultNumCards: nat := 12

  /** `POST /generate-flashcards`: only the content is checked; the title may be missing. */
  function GenerateFlashcards(body: JsValue, findById: DocLookup, latestByTitle: LatestByTitle, ai: AiPost): (r: Outcome)
    ensures NeedsLookup(body) && LookupOf(body, findById) == Ok(None) ==> r == Outcome(Fail(404, DocumentNotFound), None)
    ensures NeedsLookup(body) && LookupOf(body, findById).Err? ==> r == Outcome(BackendError(LookupOf(body, findById).error), None)
    ensures ResolveSource(body, findById).Ok? && !UsableContent(ResolveSource(body, findById).value.content) ==>
      r == Outcome(Fail(400, ContentRequired), None)
    ensures r.response.status in {200, 400, 404, 500, 502}
    ensures r.saved.Some? ==> r.response.status == 200 && r.saved.value.FlashcardRecord?
  {
    match ResolveSource(body, findById)
    case Err(e) => Outcome(e, None)
    case Ok(src) =>
      if !UsableContent(src.content) then Outcome(Fail(400, ContentRequired), None)
      else
        var count := Or(Prop(body, "numCards"), Num(DefaultNumCards));
        match ai("/generate/flashcards", Sent(map["content" := src.content, "title" := src.title, "num_cards" := count]))
        case NetworkError(m) => Outcome(BackendError(m), None)
        case Replied(status, data) =>
          if IsSuccess(status) then Outcome(Json(data), FlashcardSave(src, data, latestByTitle))
          else Outcome(FailWith(502, AiServiceError, "detail", Prop(data, "detail")), None)
  }

  /** The stored cards are the AI service's cards, normalised, and their count. */
  lemma FlashcardsStored(body: JsValue, findById: DocLookup, latestByTitle: LatestByTitle, ai: AiPost)
    requires GenerateFlashcards(body, findById, latestByTitle, ai).saved.Some?
    ensures var rec := GenerateFlashcards(body, findById, latestByTitle, ai).saved.value;
      var src := ResolveSource(body, findById).value;
      var count := Or(Prop(body, "numCards"), Num(DefaultNumCards));
      var reply := ai("/generate/flashcards", Sent(map["content" := src.content, "title" := src.title, "num_cards" := count]));
      && reply.Replied?
      && NormalizeCards(Prop(Payload(reply.data), "flashcards")) == Some(rec.cards)
      && rec.numCards == |rec.cards|
      && Truthy(rec.documentId)
  {
  }

  // ---------------------------------------------------------------------------
  // Chats
  // ---------------------------------------------------------------------------

  datatype Role = User | Assistant | System

  /** One stored chat message; `thinking` is present only when it was truthy. */
  datatype ChatMessage = ChatMessage(role: Role, content: string, thinking: Option<string>)

  /** What Mongoose's cast to a `String` path gives: the path left unset, its text, or a cast error. */
  datatype StringCast = Unset | Cast(s: string) | Uncastable

  /** An object whose `_id` is a non-empty string, which Mongoose casts to that id. */
  predicate HasStringId(v: JsValue)
  {
    v.Obj? && "_id" in v.fields && v.fields["_id"].Str? && |v.fields["_id"].s| > 0
  }

  /**
   * Mongoose's cast of a value to a `String` path (the `content` and
   * `thinking` of a chat message): null and undefined leave the path unset,
   * an object with a string `_id` gives that id, and a value whose
   * `toString` is its own gives that text; arrays and other objects fail.
   */
  function SchemaString(v: JsValue): (r: StringCast)
    ensures r.Unset? <==> Nullish(v)
    ensures r.Uncastable? <==> v.Arr? || (v.Obj? && !HasStringId(v))
    ensures v.Str? ==> r == Cast(v.s)
    ensures (v.Num? || v.Bool?) ==> r == Cast(ToStr(v))
    ensures Truthy(v) && r.Cast? ==> |r.s| > 0
  {
    match v
    case Undefined => Unset
    case Null => Unset
    case Obj(fields) => if HasStringId(v) then Cast(fields["_id"].s) else Uncastable
    case Arr(_) => Uncastable
    case _ => Cast(ToStr(v))
  }

  const NewChatTitle: string := "New Chat"
  const TitleLength: nat := 50

  /**
   * `s.slice(0, 50) + (s.length > 50 ? '...' : '')`, lengths in UTF-16 code
   * units: a text that fits is kept, a longer one is cut to its longest
   * prefix within 50 units and marked with "...".
   */
  function TitleFrom(s: string): (t: string)
    ensures Utf16Length(s) <= TitleLength ==> t == s
    ensures Utf16Length(s) > TitleLength ==>
      && |t| >= 3 && t[|t| - 3..] == "..."
      && var cut := t[..|t| - 3];
      && cut < s && TitleLength - 1 <= Utf16Length(cut) <= TitleLength
    ensures InBmp(s) && |s| > TitleLength ==> t == s[..TitleLength] + "..."
    ensures Utf16Length(t) <= TitleLength + 3
  {
    var cut := Utf16Prefix(s, TitleLength);
    Utf16LengthAppend(cut, "...");
    assert (cut + "...")[..|cut|] == cut && (cut + "...")[|cut|..] == "...";
    assert InBmp(s) ==> cut == Prefix(s, TitleLength) && Utf16Length(s) == |s| by {
      if InBmp(s) {
        Utf16PrefixBmp(s, TitleLength);
        Utf16LengthBmp(s);
      }
    }
    if Utf16Length(s) > TitleLength then cut + "..." else cut
  }

  /** `messages.find(m => m.role === 'user')?.content || ''` */
  function FirstUserContent(messages: seq<ChatMessage>): (r: string)
    ensures (forall i :: 0 <= i < |messages| ==> messages[i].role != User) ==> r == ""
    ensures forall i :: 0 <= i < |messages| && messages[i].role == User && (forall j :: 0 <= j < i ==> messages[j].role != User) ==> r == messages[i].content
  {
    if |messages| == 0 then ""
    else if messages[0].role == User then messages[0].content
    else FirstUserContent(messages[1..])
  }

  /** The two messages one exchange appends: the user's, then the assistant's with its thinking. */
  function Exchange(user: string, reply: string, thinking: Option<string>): (r: seq<ChatMessage>)
    ensures |r| == 2 && r[0].role == User && r[1].role == Assistant
    ensures r[0].content == user && r[0].thinking.None?
    ensures r[1].content == reply && r[1].thinking == thinking
  {
    [ChatMessage(User, user, None), ChatMessage(Assistant, reply, thinking)]
  }

  /**
   * The exchange as the Chat schema stores it, from the user's text, the
   * reply and the thinking as the route has them (the thinking set only
   * when truthy). None when the document fails validation: a reply that
   * cannot be cast, or that leaves the required `content` unset or empty,
   * or a truthy thinking that cannot be cast.
   */
  function CastExchange(user: string, reply: JsValue, thinking: JsValue): (r: Option<seq<ChatMessage>>)
    ensures r.Some? <==>
      && SchemaString(reply).Cast? && |SchemaString(reply).s| > 0
      && (Truthy(thinking) ==> SchemaString(thinking).Cast?)
    ensures r.Some? ==>
      r.value == Exchange(user, SchemaString(reply).s, if Truthy(thinking) then Some(SchemaString(thinking).s) else None)
  {
    var content := SchemaString(reply);
    if !content.Cast? || |content.s| == 0 then None
    else if !Truthy(thinking) then Some(Exchange(user, content.s, None))
    else match SchemaString(thinking)
      case Cast(t) => Some(Exchange(user, content.s, Some(t)))
      case _ => None
  }

  /** A non-blank reply text is always stored; its thinking is kept as text when it is a string, number or boolean. */
  lemma SavedExchangeCast(user: string, reply: string, thinking: JsValue)
    requires |reply| > 0
    ensures CastExchange(user, Str(reply), thinking).Some? <==> !(thinking.Arr? || (thinking.Obj? && !HasStringId(thinking)))
    ensures Truthy(thinking) && (thinking.Str? || thinking.Num? || thinking.Bool?) ==>
      CastExchange(user, Str(reply), thinking) == Some(Exchange(user, reply, Some(ToStr(thinking))))
  {
  }

  /** The title after an exchange: derived from the first user message only while it is still "New Chat". */
  function NextTitle(title: string, messages: seq<ChatMessage>): string
  {
    if title == NewChatTitle then TitleFrom(FirstUserContent(messages)) else title
  }

  /** After an exchange the first user message is the older one, or else the exchange's own. */
  lemma {:induction false} FirstUserAfterExchange(messages: seq<ChatMessage>, user: string, reply: string, thinking: Option<string>)
    ensures (exists i :: 0 <= i < |messages| && messages[i].role == User) ==>
      FirstUserContent(messages + Exchange(user, reply, thinking)) == FirstUserContent(messages)
    ensures (forall i :: 0 <= i < |messages| ==> messages[i].role != User) ==>
      FirstUserContent(messages + Exchange(user, reply, thinking)) == user
    decreases |messages|
  {
    var e := Exchange(user, reply, thinking);
    if |messages| == 0 {
      EmptyAppend(e);
    } else {
      assert (messages + e)[0] == messages[0];
      assert (messages + e)[1..] == messages[1..] + e;
      if messages[0].role != User {
        assert forall i :: 1 <= i < |messages| ==> messages[i] == messages[1..][i - 1];
        FirstUserAfterExchange(messages[1..], user, reply, thinking);
      }
    }
  }

  /** A chat still titled "New Chat" with no user message yet gets the same title a new chat would. */
  lemma FirstExchangeTitle(messages: seq<ChatMessage>, user: string, reply: string, thinking: Option<string>)
    requires forall i :: 0 <= i < |messages| ==> messages[i].role != User
    ensures NextTitle(NewChatTitle, messages + Exchange(user, reply, thinking)) == TitleFrom(user)
  {
    FirstUserAfterExchange(messages, user, reply, thinking);
  }

  /** A stored chat: its title and its messages, which the chat routes update in place. */
  class ChatDoc {
    /** The `_id` the store gave the chat, as text. */
    const id: string
    var title: string
    var messages: seq<ChatMessage>

    constructor (id: string, title: string, messages: seq<ChatMessage>)
      ensures this.id == id && this.title == title && this.messages == messages
    {
      this.id := id;
      this.title := title;
      this.messages := messages;
    }

    /** Push the exchange, then derive the title if it is still "New Chat". */
    method AddExchange(user: string, reply: string, thinking: Option<string>)
      modifies this
      ensures messages == old(messages) + Exchange(user, reply, thinking)
      ensures title == NextTitle(old(title), messages)
    {
      messages := messages + [ChatMessage(User, user, None)];
      var assistant := ChatMessage(Assistant, reply, thinking);
      messages := messages + [assistant];
      assert messages == old(messages) + Exchange(user, reply, thinking);
      if title == NewChatTitle && |messages| >= 2 {
        title := TitleFrom(FirstUserContent(messages));
      }
    }
  }

  /** Missing, not a string, or blank once trimmed. */
  predicate Blank(v: JsValue)
  {
    !Truthy(v) || !v.Str? || |JsTrim(v.s)| == 0
  }

  const MessageRequired: string := "Message is required"
  const UserMessageRequired: string := "User message is required"
  const ChatNotFound: string := "Chat not found"

  /** `/chat/save` checks the assistant's message, then the user's. */
  function SaveCheck(body: JsValue): (r: Option<Response>)
    ensures r.None? <==> !Blank(Prop(body, "message")) && !Blank(Prop(body, "userMessage"))
    ensures Blank(Prop(body, "message")) ==> r == Some(Fail(400, MessageRequired))
    ensures !Blank(Prop(body, "message")) && Blank(Prop(body, "userMessage")) ==> r == Some(Fail(400, UserMessageRequired))
  {
    if Blank(Prop(body, "message")) then Some(Fail(400, MessageRequired))
    else if Blank(Prop(body, "userMessage")) then Some(Fail(400, UserMessageRequired))
    else None
  }

  /**
   * Append the exchange to the chat found for a truthy `chatId` (None when
   * there is none), or create a chat titled after the user's message; the
   * reply and the thinking are cast as the Chat schema casts them.
   *
   * `found` stands for the stored chat `Chat.findOne` returned;
   * `findError` is the message of the error that query throws (a CastError
   * for a malformed id), and `saveError` that of `chat.save()` or
   * `Chat.create` for a valid document; `invalidError` is the message of
   * the ValidationError they throw when the exchange cannot be cast. Any
   * error gives `err` and no chat, and leaves the stored chat as it was:
   * the pushes made on the fetched copy are not persisted when `save`
   * throws.
   */
  method StoreExchange(chatId: JsValue, findError: Option<string>, found: ChatDoc?, saveError: Option<string>,
                       invalidError: string, newId: string, user: string, reply: JsValue, thinking: JsValue)
    returns (chat: ChatDoc?, err: Option<string>)
    modifies found
    ensures err.Some? ==> chat == null && (found != null ==> unchanged(found))
    ensures Truthy(chatId) && findError.Some? ==> err == findError
    ensures Truthy(chatId) && findError.None? && found == null ==> chat == null && err.None?
    ensures (Truthy(chatId) ==> findError.None? && found != null) && CastExchange(user, reply, thinking).None? ==>
      err == Some(invalidError)
    ensures (Truthy(chatId) ==> findError.None? && found != null) && CastExchange(user, reply, thinking).Some? ==>
      err == saveError
    ensures Truthy(chatId) && findError.None? && found != null && CastExchange(user, reply, thinking).Some? && saveError.None? ==>
      && chat == found
      && found.messages == old(found.messages) + CastExchange(user, reply, thinking).value
      && found.title == NextTitle(old(found.title), found.messages)
    ensures !Truthy(chatId) && CastExchange(user, reply, thinking).Some? && saveError.None? ==>
      && chat != null && fresh(chat) && chat.id == newId
      && chat.messages == CastExchange(user, reply, thinking).value
      && chat.title == TitleFrom(user)
      && (found != null ==> unchanged(found))
  {
    if Truthy(chatId) {
      if findError.Some? {
        return null, findError;
      }
      if found == null {
        return null, None;
      }
    }
    var exchange := CastExchange(user, reply, thinking);
    if exchange.None? {
      return null, Some(invalidError);
    }
    if saveError.Some? {
      return null, saveError;
    }
    var assistant := exchange.value[1];
    if Truthy(chatId) {
      found.AddExchange(user, assistant.content, assistant.thinking);
      chat, err := found, None;
    } else {
      chat := new ChatDoc(newId, TitleFrom(user), exchange.value);
      err := None;
    }
  }

  function RoleName(role: Role): string
  {
    match role
    case User => "user"
    case Assistant => "assistant"
    case System => "system"
  }

  /** A stored message as a reply lists it: its role, content and, when kept, its thinking. */
  function MessageJson(m: ChatMessage): (r: JsValue)
    ensures Prop(r, "role") == Str(RoleName(m.role)) && Prop(r, "content") == Str(m.content)
    ensures "thinking" in r.fields <==> m.thinking.Some?
    ensures m.thinking.Some? ==> Prop(r, "thinking") == Str(m.thinking.value)
  {
    var base := map["role" := Str(RoleName(m.role)), "content" := Str(m.content)];
    Obj(if m.thinking.Some? then base["thinking" := Str(m.thinking.value)] else base)
  }

  /** The `chat` member of a reply: the chat's id as text, its title and its messages in order. */
  function ChatJson(id: string, title: string, messages: seq<ChatMessage>): (r: JsValue)
    ensures Prop(r, "id") == Str(id) && Prop(r, "title") == Str(title)
    ensures Prop(r, "messages").Arr? && |Prop(r, "messages").items| == |messages|
    ensures forall i :: 0 <= i < |messages| ==> Prop(r, "messages").items[i] == MessageJson(messages[i])
  {
    Obj(map["id" := Str(id), "title" := Str(title),
            "messages" := Arr(seq(|messages|, i requires 0 <= i < |messages| => MessageJson(messages[i])))])
  }

  /** `res.json({success: true, chatId, chat})` */
  function SavedReply(id: string, title: string, messages: seq<ChatMessage>): (r: Response)
    ensures r.status == 200
    ensures Prop(r.body, "chatId") == Str(id) && Prop(r.body, "chat") == ChatJson(id, title, messages)
  {
    Json(Obj(map["success" := Bool(true), "chatId" := Str(id), "chat" := ChatJson(id, title, messages)]))
  }

  const SaveFailed: string := "Failed to save chat"

  /**
   * `POST /chat/save`, with `found` the chat `Chat.findOne` returned for the
   * body's `chatId` (consulted only when that id is truthy), `newId` the id
   * the store gives a chat it creates, and the store's errors as in
   * `StoreExchange`; an error answers 500 with its message. The trimmed
   * texts always cast, so only a `thinking` that is an array or an object
   * without a string `_id` makes the document invalid.
   */
  method SaveChat(body: JsValue, findError: Option<string>, found: ChatDoc?, saveError: Option<string>,
                  invalidError: string, newId: string)
    returns (r: Response, chat: ChatDoc?)
    modifies found
    ensures SaveCheck(body).Some? ==> r == SaveCheck(body).value && chat == null && (found != null ==> unchanged(found))
    ensures SaveCheck(body).None? && Truthy(Prop(body, "chatId")) && findError.Some? ==>
      r == FailWith(500, SaveFailed, "message", Str(findError.value)) && chat == null && (found != null ==> unchanged(found))
    ensures SaveCheck(body).None? && Truthy(Prop(body, "chatId")) && findError.None? && found == null ==>
      r == Fail(404, ChatNotFound) && chat == null
    ensures SaveCheck(body).None? && (Truthy(Prop(body, "chatId")) ==> findError.None? && found != null) && SchemaString(Prop(body, "thinking")).Uncastable? ==>
      r == FailWith(500, SaveFailed, "message", Str(invalidError)) && chat == null && (found != null ==> unchanged(found))
    ensures SaveCheck(body).None? && (Truthy(Prop(body, "chatId")) ==> findError.None? && found != null) && !SchemaString(Prop(body, "thinking")).Uncastable? && saveError.Some? ==>
      r == FailWith(500, SaveFailed, "message", Str(saveError.value)) && chat == null && (found != null ==> unchanged(found))
    ensures SaveCheck(body).None? && Truthy(Prop(body, "chatId")) && findError.None? && found != null && !SchemaString(Prop(body, "thinking")).Uncastable? && saveError.None? ==>
      var user, reply, thinking := JsTrim(Prop(body, "userMessage").s), JsTrim(Prop(body, "message").s), Prop(body, "thinking");
      && chat == found
      && found.messages == old(found.messages) + Exchange(user, reply, if Truthy(thinking) then Some(SchemaString(thinking).s) else None)
      && found.title == NextTitle(old(found.title), found.messages)
      && r == SavedReply(found.id, found.title, found.messages)
    ensures SaveCheck(body).None? && !Truthy(Prop(body, "chatId")) && !SchemaString(Prop(body, "thinking")).Uncastable? && saveError.None? ==>
      var user, reply, thinking := JsTrim(Prop(body, "userMessage").s), JsTrim(Prop(body, "message").s), Prop(body, "thinking");
      && chat != null && fresh(chat) && chat.id == newId
      && chat.messages == Exchange(user, reply, if Truthy(thinking) then Some(SchemaString(thinking).s) else None)
      && chat.title == TitleFrom(user)
      && r == SavedReply(newId, chat.title, chat.messages)
      && (found != null ==> unchanged(found))
  {
    var check := SaveCheck(body);
    if check.Some? {
      return check.value, null;
    }
    var user, reply := JsTrim(Prop(body, "userMessage").s), JsTrim(Prop(body, "message").s);
    SavedExchangeCast(user, reply, Prop(body, "thinking"));
    var err;
    chat, err := StoreExchange(Prop(body, "chatId"), findError, found, saveError, invalidError, newId,
                               user, Str(reply), Prop(body, "thinking"));
    if err.Some? {
      r := FailWith(500, SaveFailed, "message", Str(err.value));
    } else {
      r := if chat == null then Fail(404, ChatNotFound) else SavedReply(chat.id, chat.title, chat.messages);
    }
  }

  const ChatMessageRequired: string := "Message is required and " + "must be a non-empty string"
  const ChatFailed: string := "Failed to process chat"
  const NoResponse: string := "No response generated"

  /** `history = []`: the default applies to a missing history only. */
  function HistoryOf(body: JsValue): JsValue
  {
    if Prop(body, "history").Undefined? then Arr([]) else Prop(body, "history")
  }

  /**
   * The first part of `POST /chat`: the message check, the history's
   * `length` read for logging (which throws on null), and the AI call. It
   * gives the trimmed message and the AI service's body on a 2xx reply.
   */
  function ChatStart(body: JsValue, ai: AiPost): (r: Result<(string, JsValue), Response>)
    ensures Blank(Prop(body, "message")) ==> r == Err(Fail(400, ChatMessageRequired))
    ensures !Blank(Prop(body, "message")) && Prop(body, "history").Null? ==> r.Err? && r.error.status == 500
    ensures r.Err? ==> r.error.status in {400, 500, 502}
    ensures r.Ok? ==>
      && !Blank(Prop(body, "message")) && !HistoryOf(body).Null?
      && r.value.0 == JsTrim(Prop(body, "message").s)
      && var reply := ai("/chat", Sent(map["message" := Str(r.value.0), "history" := HistoryOf(body)]));
         reply.Replied? && IsSuccess(reply.status) && reply.data == r.value.1
  {
    var m, history := Prop(body, "message"), HistoryOf(body);
    if Blank(m) then Err(Fail(400, ChatMessageRequired))
    else if history.Null? then Err(FailWith(500, ChatFailed, "message", Str(ReadError(history, "length"))))
    else
      var message := JsTrim(m.s);
      match ai("/chat", Sent(map["message" := Str(message), "history" := history]))
      case NetworkError(e) => Err(FailWith(500, ChatFailed, "message", Str(e)))
      case Replied(status, data) =>
        if IsSuccess(status) then Ok((message, data))
        else Err(FailWith(502, AiServiceError, "detail", Or(Prop(data, "detail"), Prop(data, "message"))))
  }

  /** `r.data?.message || r.data?.data?.message || r.data?.response || 'No response generated'` */
  function ReplyText(data: JsValue): (r: JsValue)
    ensures Truthy(r)
  {
    Or(Or(Or(Prop(data, "message"), Prop(Prop(data, "data"), "message")), Prop(data, "response")), Str(NoResponse))
  }

  /** `r.data?.data?.thinking || r.data?.thinking || null` */
  function ReplyThinking(data: JsValue): JsValue
  {
    Or(Or(Prop(Prop(data, "data"), "thinking"), Prop(data, "thinking")), Null)
  }

  /** `r.data?.data || {}`: what the reply spreads over its own members. */
  function Inner(data: JsValue): JsValue
  {
    Or(Prop(data, "data"), Obj(map[]))
  }

  /**
   * `{success: true, message, thinking, chatId, chat, ...(r.data?.data || {})}`
   * for the stored chat: the spread members win (an object's own members, a
   * string's characters or an array's elements under their indices), and
   * the others are kept.
   */
  function ChatReplyBody(data: JsValue, id: string, title: string, messages: seq<ChatMessage>): (r: JsValue)
    ensures r.Obj?
    ensures forall k :: k in Spread(Inner(data)) ==> Prop(r, k) == Spread(Inner(data))[k]
    ensures forall k :: k in OwnReplyKeys && k !in Spread(Inner(data)) ==>
      Prop(r, k) == Prop(ChatReplyOwn(data, id, title, messages), k)
    ensures forall k :: k in r.fields <==> k in OwnReplyKeys || k in Spread(Inner(data))
    ensures !Truthy(Prop(data, "data")) ==> r == ChatReplyOwn(data, id, title, messages)
    ensures "message" !in Spread(Inner(data)) ==> Prop(r, "message") == ReplyText(data)
    ensures "chatId" !in Spread(Inner(data)) ==> Prop(r, "chatId") == Str(id)
  {
    Obj(ChatReplyOwn(data, id, title, messages).fields + Spread(Inner(data)))
  }

  const OwnReplyKeys: set<string> := {"success", "message", "thinking", "chatId", "chat"}

  /** The reply's own members, before the AI service's `data` is spread over them. */
  function ChatReplyOwn(data: JsValue, id: string, title: string, messages: seq<ChatMessage>): (r: JsValue)
    ensures r.Obj? && r.fields.Keys == OwnReplyKeys
  {
    Obj(map["success" := Bool(true), "message" := ReplyText(data), "thinking" := ReplyThinking(data),
            "chatId" := Str(id), "chat" := ChatJson(id, title, messages)])
  }

  /**
   * `POST /chat`: after `ChatStart`, the exchange is stored like
   * `/chat/save` stores it, with the AI service's reply text and thinking
   * cast by the Chat schema; a store error, an uncastable reply or
   * thinking included, answers 500 "Failed to process chat" with its
   * message.
   */
  method SendChat(body: JsValue, ai: AiPost, findError: Option<string>, found: ChatDoc?, saveError: Option<string>,
                  invalidError: string, newId: string)
    returns (r: Response, chat: ChatDoc?)
    modifies found
    ensures ChatStart(body, ai).Err? ==> r == ChatStart(body, ai).error && chat == null && (found != null ==> unchanged(found))
    ensures ChatStart(body, ai).Ok? && Truthy(Prop(body, "chatId")) && findError.Some? ==>
      r == FailWith(500, ChatFailed, "message", Str(findError.value)) && chat == null && (found != null ==> unchanged(found))
    ensures ChatStart(body, ai).Ok? && Truthy(Prop(body, "chatId")) && findError.None? && found == null ==>
      r == Fail(404, ChatNotFound) && chat == null
    ensures ChatStart(body, ai).Ok? && (Truthy(Prop(body, "chatId")) ==> findError.None? && found != null) ==>
      var (message, data) := ChatStart(body, ai).value;
      CastExchange(message, ReplyText(data), ReplyThinking(data)).None? ==>
      r == FailWith(500, ChatFailed, "message", Str(invalidError)) && chat == null && (found != null ==> unchanged(found))
    ensures ChatStart(body, ai).Ok? && (Truthy(Prop(body, "chatId")) ==> findError.None? && found != null) && saveError.Some? ==>
      var (message, data) := ChatStart(body, ai).value;
      CastExchange(message, ReplyText(data), ReplyThinking(data)).Some? ==>
      r == FailWith(500, ChatFailed, "message", Str(saveError.value)) && chat == null && (found != null ==> unchanged(found))
    ensures ChatStart(body, ai).Ok? && Truthy(Prop(body, "chatId")) && findError.None? && found != null && saveError.None? ==>
      var (message, data) := ChatStart(body, ai).value;
      CastExchange(message, ReplyText(data), ReplyThinking(data)).Some? ==>
      && chat == found
      && found.messages == old(found.messages) + CastExchange(message, ReplyText(data), ReplyThinking(data)).value
      && found.title == NextTitle(old(found.title), found.messages)
      && r == Json(ChatReplyBody(data, found.id, found.title, found.messages))
    ensures ChatStart(body, ai).Ok? && !Truthy(Prop(body, "chatId")) && saveError.None? ==>
      var (message, data) := ChatStart(body, ai).value;
      CastExchange(message, ReplyText(data), ReplyThinking(data)).Some? ==>
      && chat != null && fresh(chat) && chat.id == newId
      && chat.messages == CastExchange(message, ReplyText(data), ReplyThinking(data)).value
      && chat.title == TitleFrom(message)
      && r == Json(ChatReplyBody(data, newId, chat.title, chat.messages))
      && (found != null ==> unchanged(found))
  {
    var start := ChatStart(body, ai);
    if start.Err? {
      return start.error, null;
    }
    var (message, data) := start.value;
    var err;
    chat, err := StoreExchange(Prop(body, "chatId"), findError, found, saveError, invalidError, newId,
                               message, ReplyText(data), ReplyThinking(data));
    if err.Some? {
      r := FailWith(500, ChatFailed, "message", Str(err.value));
    } else {
      r := if chat == null then Fail(404, ChatNotFound) else Json(ChatReplyBody(data, chat.id, chat.title, chat.messages));
    }
  }
}
