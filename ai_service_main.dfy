/**
 * The AI service's HTTP layer (ai-service/main.py): request bodies and their
 * defaults, the `{"success": true, "data": ...}` envelopes of the generation
 * endpoints, and the server-sent event stream of `/chat/stream`, where each
 * event of `generate_stream` becomes one `data: <json>` frame and a final
 * `data: [DONE]` frame closes the stream.
 *
 * The loaded models are a map from task name to language model;
 * `model_manager.get` indexes it, so a missing model raises a KeyError whose
 * text is the quoted task name.
 */
module AiServiceMain {
  import opened Wrappers
  import opened Strings
  import opened Js
  import opened PyJson
  import opened SpecializedModels
  import opened ChatGenerator

  type Models = map<string, LanguageModel>

  /** `str(KeyError(name))` */
  function KeyErrorText(name: string): string
  {
    "'" + name + "'"
  }

  /** `model_manager.get(name)` */
  function GetModel(models: Models, name: string): Result<LanguageModel, string>
  {
    if name in models then Ok(models[name]) else Err(KeyErrorText(name))
  }

  // ---------------------------------------------------------------------------
  // Request bodies
  // ---------------------------------------------------------------------------

  datatype SummaryRequest = SummaryRequest(content: string, title: string)
  datatype QuizRequest = QuizRequest(content: string, title: string, numQuestions: int)
  datatype FlashcardRequest = FlashcardRequest(content: string, title: string, numCards: int)
  datatype ChatRequest = ChatRequest(message: string, history: seq<JsValue>)

  const DefaultNumQuestions: int := 8
  const DefaultNumCards: int := 12

  /** A required `str` field. */
  function StrField(body: JsValue, key: string): Option<string>
  {
    var p := Prop(body, key);
    if p.Str? then Some(p.s) else None
  }

  predicate AllDigits(s: string)
  {
    forall i :: 0 <= i < |s| ==> IsDigit(s[i])
  }

  /**
   * A string read as an `int` the lax way: surrounding whitespace, an
   * optional sign, then one or more decimal digits.
   */
  function ParseIntText(s: string): (r: Option<int>)
  {
    SignedDigits(PyStrip(s))
  }

  /** An optional sign followed by one or more decimal digits. */
  function SignedDigits(t: string): (r: Option<int>)
  {
    if |t| > 0 && (t[0] == '-' || t[0] == '+') then
      var d := t[1..];
      if |d| > 0 && AllDigits(d) then
        var v: int := DigitsValue(d);
        Some(if t[0] == '-' then -v else v)
      else None
    else if |t| > 0 && AllDigits(t) then Some(DigitsValue(t))
    else None
  }

  /** Every integer's decimal text reads back as that integer. */
  lemma IntTextRoundTrip(n: int)
    ensures ParseIntText(IntToString(n)) == Some(n)
  {
    IntTextStripped(n);
    var digits := if n < 0 then NatToString(-n) else NatToString(n);
    NatToStringValue(if n < 0 then -n else n);
    DigitsRead(digits);
    assert IntToString(n) == if n < 0 then ['-'] + digits else digits;
  }

  /** Digits read back as their value, and with a minus sign as its negation. */
  lemma DigitsRead(digits: string)
    requires |digits| > 0 && AllDigits(digits)
    ensures SignedDigits(digits) == Some(DigitsValue(digits))
    ensures SignedDigits(['-'] + digits) == Some(0 - DigitsValue(digits) as int)
  {
    var t := ['-'] + digits;
    assert t[0] == '-' && t[1..] == digits;
    assert digits[0] != '-' && digits[0] != '+';
  }

  /** An integer's decimal text has no blanks to strip. */
  lemma IntTextStripped(n: int)
    ensures PyStrip(IntToString(n)) == IntToString(n)
  {
    var s := IntToString(n);
    var digits := if n < 0 then NatToString(-n) else NatToString(n);
    assert s[|s| - 1] == digits[|digits| - 1];
    assert s[0] == '-' || IsDigit(s[0]);
    StripOfStripped(s, IsPyWhitespace);
  }

  /**
   * Only text holding a decimal digit is an `int`: the empty string, blanks
   * and a lone sign are not.
   */
  lemma DigitlessText(s: string)
    ensures ParseIntText(s).Some? ==> exists i :: 0 <= i < |s| && IsDigit(s[i])
  {
    var t := PyStrip(s);
    if ParseIntText(s).Some? {
      var j := if t[0] == '-' || t[0] == '+' then 1 else 0;
      if j == 1 {
        assert t[1..][0] == t[1];
      }
      assert IsDigit(t[j]);
      StripFromText(s, IsPyWhitespace, j);
    }
  }

  /** A character that is not a digit, a sign or a blank makes the text not an `int`. */
  lemma ForeignCharText(s: string, i: int)
    requires 0 <= i < |s| && !IsDigit(s[i]) && !IsPyWhitespace(s[i]) && s[i] != '-' && s[i] != '+'
    ensures ParseIntText(s) == None
  {
    StripKeepsNonBlank(s, IsPyWhitespace, i);
    var t := PyStrip(s);
    var j :| 0 <= j < |t| && t[j] == s[i];
    if j > 0 {
      assert t[1..][j - 1] == t[j];
    }
  }

  /** Blanks around the text are ignored. */
  lemma PaddedText(before: string, s: string, after: string)
    requires All(before, IsPyWhitespace) && All(after, IsPyWhitespace)
    ensures ParseIntText(before + s + after) == ParseIntText(s)
  {
    StripPadded(before, s, after, IsPyWhitespace);
  }

  /**
   * An `int` field with a default, read leniently: absent gives the default,
   * a number is itself, `true` and `false` are 1 and 0, and a numeric string
   * is its value; anything else is rejected.
   */
  function IntField(body: JsValue, key: string, default: int): (r: Option<int>)
    ensures Prop(body, key).Undefined? ==> r == Some(default)
    ensures Prop(body, key).Num? ==> r == Some(Prop(body, key).n)
    ensures Prop(body, key).Bool? ==> r == Some(if Prop(body, key).b then 1 else 0)
    ensures Prop(body, key).Str? ==> r == ParseIntText(Prop(body, key).s)
    ensures r.Some? ==> !(Prop(body, key).Null? || Prop(body, key).Arr? || Prop(body, key).Obj?)
  {
    match Prop(body, key)
    case Undefined => Some(default)
    case Num(n) => Some(n)
    case Bool(b) => Some(if b then 1 else 0)
    case Str(t) => ParseIntText(t)
    case _ => None
  }

  function ParseSummaryRequest(body: JsValue): (r: Option<SummaryRequest>)
    ensures r.Some? <==> StrField(body, "content").Some? && StrField(body, "title").Some?
    ensures r.Some? ==> r.value.content == Prop(body, "content").s && r.value.title == Prop(body, "title").s
  {
    match (StrField(body, "content"), StrField(body, "title"))
    case (Some(c), Some(t)) => Some(SummaryRequest(c, t))
    case _ => None
  }

  function ParseQuizRequest(body: JsValue): (r: Option<QuizRequest>)
    ensures r.Some? <==> StrField(body, "content").Some? && StrField(body, "title").Some?
                         && IntField(body, "num_questions", DefaultNumQuestions).Some?
    ensures r.Some? ==> r.value.content == Prop(body, "content").s && r.value.title == Prop(body, "title").s
    ensures r.Some? && Prop(body, "num_questions").Undefined? ==> r.value.numQuestions == 8
    ensures r.Some? ==> Some(r.value.numQuestions) == IntField(body, "num_questions", DefaultNumQuestions)
  {
    match (StrField(body, "content"), StrField(body, "title"), IntField(body, "num_questions", DefaultNumQuestions))
    case (Some(c), Some(t), Some(n)) => Some(QuizRequest(c, t, n))
    case _ => None
  }

  function ParseFlashcardRequest(body: JsValue): (r: Option<FlashcardRequest>)
    ensures r.Some? <==> StrField(body, "content").Some? && StrField(body, "title").Some?
                         && IntField(body, "num_cards", DefaultNumCards).Some?
    ensures r.Some? ==> r.value.content == Prop(body, "content").s && r.value.title == Prop(body, "title").s
    ensures r.Some? && Prop(body, "num_cards").Undefined? ==> r.value.numCards == 12
    ensures r.Some? ==> Some(r.value.numCards) == IntField(body, "num_cards", DefaultNumCards)
  {
    match (StrField(body, "content"), StrField(body, "title"), IntField(body, "num_cards", DefaultNumCards))
    case (Some(c), Some(t), Some(n)) => Some(FlashcardRequest(c, t, n))
    case _ => None
  }

  /**
   * The chat body: a string `message` and a `history` that is any JSON
   * array, its items taken as they are, or absent for the empty list.
   */
  function ParseChatRequest(body: JsValue): (r: Option<ChatRequest>)
    ensures r.Some? <==> StrField(body, "message").Some? && (Prop(body, "history").Undefined? || Prop(body, "history").Arr?)
    ensures r.Some? ==> StrField(body, "message") == Some(r.value.message)
    ensures r.Some? && Prop(body, "history").Undefined? ==> r.value.history == []
    ensures r.Some? && Prop(body, "history").Arr? ==> r.value.history == Prop(body, "history").items
  {
    match StrField(body, "message")
    case None => None
    case Some(m) =>
      match Prop(body, "history")
      case Undefined => Some(ChatRequest(m, []))
      case Arr(items) => Some(ChatRequest(m, items))
      case _ => None
  }

  // ---------------------------------------------------------------------------
  // Results as JSON and the response envelopes
  // ---------------------------------------------------------------------------

  function SummaryJson(s: SummaryResult): (r: JsValue)
    ensures Prop(r, "title") == Str(s.title)
  {
    Obj(map["content" := Str(s.content), "title" := Str(s.title), "model" := Str(s.model), "timestamp" := Str(s.timestamp)])
  }

  function QuizJson(q: QuizResult): (r: JsValue)
    ensures Prop(r, "num_questions") == Num(q.numQuestions)
  {
    Obj(map["questions" := Str(q.questions), "title" := Str(q.title), "num_questions" := Num(q.numQuestions)])
  }

  function CardJson(c: Flashcard): JsValue
  {
    Obj(map["term" := Str(c.term), "definition" := Str(c.definition)])
  }

  function FlashcardsJson(f: FlashcardResult): (r: JsValue)
    ensures Prop(r, "num_cards") == Num(f.numCards)
    ensures Prop(r, "flashcards").Arr? && |Prop(r, "flashcards").items| == |f.flashcards|
    ensures forall i :: 0 <= i < |f.flashcards| ==> Prop(r, "flashcards").items[i] == CardJson(f.flashcards[i])
  {
    Obj(map["flashcards" := Arr(seq(|f.flashcards|, i requires 0 <= i < |f.flashcards| => CardJson(f.flashcards[i]))),
            "raw" := Str(f.raw), "title" := Str(f.title), "num_cards" := Num(f.numCards)])
  }

  /** The chat result; `thinking` is present only when it was generated and is non-empty. */
  function ChatJson(c: ChatResult): (r: JsValue)
    ensures Prop(r, "message") == Str(c.message)
    ensures "thinking" in r.fields <==> c.thinking.Some?
  {
    var base := map["message" := Str(c.message), "model" := Str(c.model), "timestamp" := Str(c.timestamp)];
    Obj(if c.thinking.Some? then base["thinking" := Str(c.thinking.value)] else base)
  }

  /** An HTTP response: its status and its JSON body. */
  datatype Reply = Reply(status: nat, body: JsValue)

  function Success(data: JsValue): (r: Reply)
    ensures IsEnvelope(r) && r.body.fields["data"] == data
  {
    Reply(200, Obj(map["success" := Bool(true), "data" := data]))
  }

  /** `HTTPException(status_code=500, detail=str(e))` */
  function Failure(detail: string): Reply
  {
    Reply(500, Obj(map["detail" := Str(detail)]))
  }

  /** A body that does not match the request model (FastAPI's 422; its error list is not modelled). */
  const Rejected := Reply(422, Null)

  /** An exception nothing catches: the server's plain-text 500. */
  const InternalServerError := Reply(500, Str("Internal Server Error"))

  predicate IsEnvelope(r: Reply)
  {
    r.status == 200 && r.body.Obj? && Prop(r.body, "success") == Bool(true) && "data" in r.body.fields
  }

  /**
   * The summary generator's outcome as a response: the size error and a
   * failing model call become a 500 with their message.
   */
  function SummaryReply(lm: LanguageModel, req: SummaryRequest, now: string): (r: Reply)
    ensures |lm.encode(req.content)| > MaxInputTokens ==> r == Failure(TooLarge(|lm.encode(req.content)|))
    ensures |lm.encode(req.content)| <= MaxInputTokens && !Answered(lm, ModelCalls(Summary, lm, req.content)) ==>
      r == Failure(Chat(lm, Last(ModelCalls(Summary, lm, req.content))).error)
    ensures |lm.encode(req.content)| <= MaxInputTokens && Answered(lm, ModelCalls(Summary, lm, req.content)) ==>
      IsEnvelope(r) && Prop(r.body.fields["data"], "title") == Str(req.title)
  {
    match Summarize(lm, req.content, req.title, now)
    case Err(e) => Failure(e)
    case Ok(s) => Success(SummaryJson(s))
  }

  /** `POST /generate/summary`, with `now` the clock reading of the generator. */
  function SummaryEndpoint(models: Models, body: JsValue, now: string): (r: Reply)
    ensures ParseSummaryRequest(body).None? ==> r == Rejected
    ensures ParseSummaryRequest(body).Some? && "summary" !in models ==> r == Failure(KeyErrorText("summary"))
    ensures ParseSummaryRequest(body).Some? && "summary" in models ==> r == SummaryReply(models["summary"], ParseSummaryRequest(body).value, now)
  {
    match ParseSummaryRequest(body)
    case None => Rejected
    case Some(req) =>
      match GetModel(models, "summary")
      case Err(e) => Failure(e)
      case Ok(lm) => SummaryReply(lm, req, now)
  }

  /**
   * The quiz generator's outcome as a response: the size error and a
   * failing model call become a 500 with their message.
   */
  function QuizReply(lm: LanguageModel, req: QuizRequest): (r: Reply)
    ensures |lm.encode(req.content)| > MaxInputTokens ==> r == Failure(TooLarge(|lm.encode(req.content)|))
    ensures |lm.encode(req.content)| <= MaxInputTokens && !Answered(lm, ModelCalls(Quiz, lm, req.content)) ==>
      r == Failure(Chat(lm, Last(ModelCalls(Quiz, lm, req.content))).error)
    ensures |lm.encode(req.content)| <= MaxInputTokens && Answered(lm, ModelCalls(Quiz, lm, req.content)) ==>
      && IsEnvelope(r)
      && Prop(r.body.fields["data"], "num_questions")
         == Num(QuizTargetCounts(|lm.encode(req.content)|, |PlanFor(Quiz, lm, req.content).value.chunks|).baseline)
  {
    match MakeQuiz(lm, req.content, req.title, req.numQuestions)
    case Err(e) => Failure(e)
    case Ok(q) =>
      QuizCountIgnoresRequest(lm, req.content, req.title, req.numQuestions, req.numQuestions);
      Success(QuizJson(q))
  }

  /** `POST /generate/quiz` */
  function QuizEndpoint(models: Models, body: JsValue): (r: Reply)
    ensures ParseQuizRequest(body).None? ==> r == Rejected
    ensures ParseQuizRequest(body).Some? && "quiz" !in models ==> r == Failure(KeyErrorText("quiz"))
    ensures ParseQuizRequest(body).Some? && "quiz" in models ==> r == QuizReply(models["quiz"], ParseQuizRequest(body).value)
  {
    match ParseQuizRequest(body)
    case None => Rejected
    case Some(req) =>
      match GetModel(models, "quiz")
      case Err(e) => Failure(e)
      case Ok(lm) => QuizReply(lm, req)
  }

  /**
   * The flashcard generator's outcome; nothing catches its errors, so the
   * size error and a failing model call are both the bare 500.
   */
  function FlashcardReply(lm: LanguageModel, req: FlashcardRequest): (r: Reply)
    ensures r == InternalServerError <==>
      |lm.encode(req.content)| > MaxInputTokens || !Answered(lm, ModelCalls(Flashcards, lm, req.content))
    ensures r != InternalServerError ==>
      IsEnvelope(r)
      && var data := r.body.fields["data"];
      && Prop(data, "flashcards").Arr? && Prop(data, "num_cards") == Num(|Prop(data, "flashcards").items|)
  {
    match MakeFlashcards(lm, req.content, req.title, req.numCards)
    case Err(_) => InternalServerError
    case Ok(f) => Success(FlashcardsJson(f))
  }

  /** `POST /generate/flashcards`: a missing model is a bare 500 as well. */
  function FlashcardEndpoint(models: Models, body: JsValue): (r: Reply)
    ensures ParseFlashcardRequest(body).None? ==> r == Rejected
    ensures ParseFlashcardRequest(body).Some? && "flashcards" !in models ==> r == InternalServerError
    ensures ParseFlashcardRequest(body).Some? && "flashcards" in models
            ==> r == FlashcardReply(models["flashcards"], ParseFlashcardRequest(body).value)
  {
    match ParseFlashcardRequest(body)
    case None => Rejected
    case Some(req) =>
      match GetModel(models, "flashcards")
      case Err(_) => InternalServerError
      case Ok(lm) => FlashcardReply(lm, req)
  }

  const ChatMaxTokens: nat := 1000
  const ChatTemperature: real := 0.5

  /** The chat answer as a response: the envelope also carries the answer at the top level. */
  function ChatReply(c: ChatResult): (r: Reply)
    ensures IsEnvelope(r)
    ensures Prop(r.body, "message") == Str(c.message) == Prop(r.body.fields["data"], "message")
  {
    Reply(200, Obj(map["success" := Bool(true), "message" := Str(c.message), "data" := ChatJson(c)]))
  }

  /**
   * `POST /chat`: a missing model, a history item that is not a dict and a
   * failing model call all become a 500 with their message.
   */
  function ChatEndpoint(models: Models, body: JsValue, now: string): (r: Reply)
    ensures ParseChatRequest(body).None? ==> r == Rejected
    ensures ParseChatRequest(body).Some? && "summary" !in models ==> r == Failure(KeyErrorText("summary"))
    ensures
      ParseChatRequest(body).Some? && "summary" in models ==>
        var req := ParseChatRequest(body).value;
        var answer := Respond(models["summary"], req.message, req.history, ChatMaxTokens, ChatTemperature, true, now);
        && (answer.Err? ==> r == Failure(answer.error))
        && (answer.Ok? ==> r == ChatReply(answer.value))
  {
    match ParseChatRequest(body)
    case None => Rejected
    case Some(req) =>
      match GetModel(models, "summary")
      case Err(e) => Failure(e)
      case Ok(lm) =>
        match Respond(lm, req.message, req.history, ChatMaxTokens, ChatTemperature, true, now)
        case Err(e) => Failure(e)
        case Ok(c) => ChatReply(c)
  }

  /**
   * `POST /upload/document`, given what the document processor made of the
   * file: its text or the error it raised.
   */
  function UploadEndpoint(processed: Result<string, string>): (r: Reply)
    ensures processed.Ok? <==> r.status == 200
    ensures processed.Ok? ==> r.body == Obj(map["success" := Bool(true), "content" := Str(processed.value)])
    ensures processed.Err? ==> r == Failure(processed.error)
  {
    match processed
    case Ok(text) => Reply(200, Obj(map["success" := Bool(true), "content" := Str(text)]))
    case Err(e) => Failure(e)
  }

  // ---------------------------------------------------------------------------
  // The event stream of `/chat/stream`
  // ---------------------------------------------------------------------------

  /** The event as the dictionary `generate_stream` yields, keys in order. */
  function EventFields(e: StreamEvent): seq<(string, string)>
  {
    match e
    case ThinkingStart => [("type", "thinking_start")]
    case Thinking(token, text) => [("type", "thinking"), ("token", token), ("text", text)]
    case ThinkingComplete(text) => [("type", "thinking_complete"), ("text", text)]
    case MessageStart => [("type", "message_start")]
    case Message(token, text) => [("type", "message"), ("token", token), ("text", text)]
    case MessageComplete(text) => [("type", "message_complete"), ("text", text)]
    case Error(message) => [("type", "error"), ("message", message)]
  }

  function EventJson(e: StreamEvent): string
  {
    DumpsObject(EventFields(e))
  }

  const FramePrefix: string := "data: "
  const DoneFrame: string := "data: [DONE]\n\n"

  /** The line that carries an event. */
  function DataLine(e: StreamEvent): string
  {
    FramePrefix + EventJson(e)
  }

  function DataLines(events: seq<StreamEvent>): (r: seq<string>)
    ensures |r| == |events|
  {
    MapSeq(DataLine, events)
  }

  /** Each line followed by a blank line. */
  function Framed(lines: seq<string>): string
  {
    if |lines| == 0 then "" else lines[0] + "\n\n" + Framed(lines[1..])
  }

  /** `f"data: {json.dumps(chunk)}\n\n"` */
  function Frame(e: StreamEvent): string
  {
    Framed([DataLine(e)])
  }

  /** The frames of the events, in order. */
  function Frames(events: seq<StreamEvent>): string
  {
    Framed(DataLines(events))
  }

  /**
   * Everything the inner `generate()` yields. When the model cannot be
   * obtained, the `except` yields one error frame and no `[DONE]`; a
   * failure during generation is caught by `generate_stream` itself and
   * arrives as an error event followed by `[DONE]`.
   */
  function StreamBody(models: Models, req: ChatRequest): string
  {
    match GetModel(models, "summary")
    case Err(e) => Frame(Error(e))
    case Ok(lm) => Frames(StreamEvents(lm, req.message, req.history, ChatMaxTokens, ChatTemperature, true)) + DoneFrame
  }

  /** `POST /chat/stream`: a rejected body, or a stream whose text is `body`. */
  datatype StreamReply = StreamRejected | Streamed(body: string)

  function ChatStreamEndpoint(models: Models, body: JsValue): (r: StreamReply)
    ensures r.StreamRejected? <==> ParseChatRequest(body).None?
    ensures r.Streamed? ==> r.body == StreamBody(models, ParseChatRequest(body).value)
  {
    match ParseChatRequest(body)
    case None => StreamRejected
    case Some(req) => Streamed(StreamBody(models, req))
  }

  /** Each line, then a blank line. */
  function WithBlanks(lines: seq<string>): (r: seq<string>)
    ensures |r| == 2 * |lines|
  {
    if |lines| == 0 then [] else [lines[0], ""] + WithBlanks(lines[1..])
  }

  /** The data line of a frame holds no line break: `json.dumps` writes none. */
  lemma DataLineUnbroken(e: StreamEvent)
    ensures !Contains(DataLine(e), "\n")
  {
    FramePrefixPrintable();
    var j := EventJson(e);
    assert forall i :: 0 <= i < |j| ==> IsPrintableAscii(j[i]);
    PrintableUnbroken(FramePrefix, j);
  }

  lemma FramePrefixPrintable()
    ensures forall i :: 0 <= i < |FramePrefix| ==> IsPrintableAscii(FramePrefix[i])
  {
  }

  lemma PrintableUnbroken(p: string, j: string)
    requires forall i :: 0 <= i < |p| ==> IsPrintableAscii(p[i])
    requires forall i :: 0 <= i < |j| ==> IsPrintableAscii(j[i])
    ensures !Contains(p + j, "\n")
  {
    var w := p + j;
    forall i | 0 <= i < |w|
      ensures w[i] != '\n'
    {
      if i >= |p| {
        assert w[i] == j[i - |p|];
      }
    }
    WithoutChar(w, '\n');
  }

  /** Lines without breaks, each framed, split back into those lines and blank ones. */
  lemma {:induction false} FramedSplit(lines: seq<string>, tail: string)
    requires forall i :: 0 <= i < |lines| ==> !Contains(lines[i], "\n")
    ensures SplitOn(Framed(lines) + tail, "\n") == WithBlanks(lines) + SplitOn(tail, "\n")
    decreases |lines|
  {
    if |lines| == 0 {
      EmptyAppend(tail);
      EmptyAppend(SplitOn(tail, "\n"));
    } else {
      var w, more := lines[0], Framed(lines[1..]);
      assert forall i :: 0 <= i < |lines| - 1 ==> lines[1..][i] == lines[i + 1];
      FramedSplit(lines[1..], tail);
      AppendAssoc(w + "\n\n", more, tail);
      SplitAfterBlankLine(w, more + tail);
      AppendAssoc([w, ""], WithBlanks(lines[1..]), SplitOn(tail, "\n"));
    }
  }

  /** Each event becomes exactly one data line, in order, whatever follows the frames. */
  lemma FramesSplit(events: seq<StreamEvent>, tail: string)
    ensures SplitOn(Frames(events) + tail, "\n") == WithBlanks(DataLines(events)) + SplitOn(tail, "\n")
  {
    var lines := DataLines(events);
    forall i | 0 <= i < |lines|
      ensures !Contains(lines[i], "\n")
    {
      DataLineUnbroken(events[i]);
    }
    FramedSplit(lines, tail);
  }

  const DoneLine: string := "data: [DONE]"

  lemma DoneSplit()
    ensures SplitOn(DoneFrame, "\n") == [DoneLine, "", ""]
  {
    WithoutChar(DoneLine, '\n');
    assert DoneFrame == Framed([DoneLine]) + "";
    FramedSplit([DoneLine], "");
    SplitWithoutSeparator("", "\n");
  }

  /**
   * The body's lines. With the model loaded: one data line per event, then
   * the `[DONE]` line, and the text ends with a line break. Without it: the
   * error's data line alone, and no `[DONE]`.
   */
  lemma StreamBodyLines(models: Models, req: ChatRequest)
    ensures
      "summary" in models ==>
        SplitOn(StreamBody(models, req), "\n")
        == WithBlanks(DataLines(StreamEvents(models["summary"], req.message, req.history, ChatMaxTokens, ChatTemperature, true)))
           + [DoneLine, "", ""]
    ensures
      "summary" !in models ==>
        SplitOn(StreamBody(models, req), "\n") == [DataLine(Error(KeyErrorText("summary"))), "", ""]
  {
    if "summary" in models {
      FramesSplit(StreamEvents(models["summary"], req.message, req.history, ChatMaxTokens, ChatTemperature, true), DoneFrame);
      DoneSplit();
    } else {
      var e := Error(KeyErrorText("summary"));
      DataLineUnbroken(e);
      assert Frame(e) == Framed([DataLine(e)]) + "";
      FramedSplit([DataLine(e)], "");
      SplitWithoutSeparator("", "\n");
    }
  }
}
