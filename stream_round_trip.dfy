/**
 * The two ends of the chat stream together: the body the AI service writes
 * for `/chat/stream` (ai-service/main.py) read by the web app's
 * `chatStream` (app/src/services/backendApi.js).
 *
 * `JSON.parse` stays a parameter. The one thing assumed of it is that it
 * reads back what `json.dumps` writes for a flat dictionary of strings: an
 * object whose keys map to the strings, a later duplicate key winning.
 */
module StreamRoundTrip {
  import opened Wrappers
  import opened Strings
  import opened Js
  import opened PyJson
  import opened SpecializedModels
  import opened ChatGenerator
  import opened BackendApi
  import opened AiServiceMain

  /** The object a flat dictionary of strings denotes. */
  function ObjOf(fields: seq<(string, string)>): map<string, JsValue>
  {
    if |fields| == 0 then map[]
    else ObjOf(AllButLast(fields))[Last(fields).0 := Str(Last(fields).1)]
  }

  /** `JSON.parse` reads back what `json.dumps` writes. */
  ghost predicate ParsesDumps(parse: Parser)
  {
    forall fields :: parse(DumpsObject(fields)) == Some(Obj(ObjOf(fields)))
  }

  /** What the reader does with the data line of one event. */
  function Apply(ch: Channels, e: StreamEvent, h: Handlers): LineStep
  {
    match e
    case ThinkingStart => Continue(ch.(thinking := Str("")))
    case Thinking(token, text) =>
      Continue(ch.(thinking := Str(text), calls := ch.calls + if h.onThinkingToken then [ThinkingCall(Str(token), Str(text))] else []))
    case ThinkingComplete(text) => Continue(ch.(thinking := Str(text)))
    case MessageStart => Continue(ch.(message := Str("")))
    case Message(token, text) =>
      Continue(ch.(message := Str(text), calls := ch.calls + if h.onToken then [MessageCall(Str(token), Str(text))] else []))
    case MessageComplete(text) => Stop(ch.(message := Str(text)))
    case Error(_) => Continue(ch)
  }

  /** The events in order until one makes the reader return. */
  function RunEvents(ch: Channels, events: seq<StreamEvent>, h: Handlers): LineStep
    decreases |events|
  {
    if |events| == 0 then Continue(ch)
    else
      match Apply(ch, events[0], h)
      case Stop(c) => Stop(c)
      case Continue(c) => RunEvents(c, events[1..], h)
  }

  /** The object `JSON.parse` makes of an event's JSON. */
  function EventValue(e: StreamEvent): JsValue
  {
    Obj(ObjOf(EventFields(e)))
  }

  lemma DataLineRead(e: StreamEvent)
    ensures DataOf(DataLine(e)) == Some(EventJson(e))
    ensures EventJson(e) != DoneMarker
  {
    var j := EventJson(e);
    assert |j| >= 2 && j[0] == '{';
    DataOfFramed(j);
    NotDoneMarker(j);
  }

  lemma DataOfFramed(j: string)
    ensures DataOf(FramePrefix + j) == Some(j)
  {
    assert DataPrefix == FramePrefix;
    assert (FramePrefix + j)[|DataPrefix|..] == j;
  }

  lemma NotDoneMarker(j: string)
    requires |j| > 0 && j[0] == '{'
    ensures j != DoneMarker
  {
    assert DoneMarker[0] == '[';
  }

  /** The reader parses an event's data line into the event's object. */
  lemma StepDataLine(ch: Channels, e: StreamEvent, parse: Parser, h: Handlers)
    requires ParsesDumps(parse)
    ensures Step(ch, DataLine(e), parse, h) == Dispatch(ch, EventValue(e), h)
  {
    DataLineRead(e);
    assert parse(EventJson(e)) == Some(EventValue(e));
    StepParsed(ch, DataLine(e), EventJson(e), EventValue(e), parse, h);
  }

  lemma StepParsed(ch: Channels, line: string, data: string, v: JsValue, parse: Parser, h: Handlers)
    requires DataOf(line) == Some(data) && data != DoneMarker && parse(data) == Some(v)
    ensures Step(ch, line, parse, h) == Dispatch(ch, v, h)
  {
  }

  lemma StepBlankLine(ch: Channels, parse: Parser, h: Handlers)
    ensures Step(ch, "", parse, h) == Continue(ch)
  {
    assert !(DataPrefix <= "");
  }

  /** The value of a key in the object of a dictionary none of whose later keys repeats it. */
  lemma {:induction false} ObjOfKey(f: seq<(string, string)>, i: nat)
    requires i < |f|
    requires forall j :: i < j < |f| ==> f[j].0 != f[i].0
    ensures f[i].0 in ObjOf(f) && ObjOf(f)[f[i].0] == Str(f[i].1)
    decreases |f|
  {
    if i < |f| - 1 {
      ObjOfKey(AllButLast(f), i);
    }
  }

  /** What the reader makes of each kind of event. */
  lemma DispatchEvent(ch: Channels, e: StreamEvent, h: Handlers)
    ensures Dispatch(ch, EventValue(e), h) == Apply(ch, e, h)
  {
    EventProps(e);
  }

  /** The members of an event's object: its `type`, its last key and, for a token event, the token. */
  lemma EventProps(e: StreamEvent)
    ensures var f, v := EventFields(e), EventValue(e);
      && Prop(v, "type") == Str(f[0].1)
      && (|f| >= 2 ==> Prop(v, f[|f| - 1].0) == Str(f[|f| - 1].1))
      && (|f| == 3 ==> Prop(v, "token") == Str(f[1].1))
  {
    var f := EventFields(e);
    ObjOfKey(f, 0);
    if |f| >= 2 {
      ObjOfKey(f, |f| - 1);
    }
    if |f| == 3 {
      ObjOfKey(f, 1);
    }
  }

  /** The reader goes on with `rest` unless it has returned. */
  function AndThen(step: LineStep, rest: seq<string>, parse: Parser, h: Handlers): LineStep
  {
    if step.Stop? then step else RunLines(step.ch, rest, parse, h)
  }

  /** A line followed by a blank line is read as that line alone. */
  lemma RunLineAndBlank(ch: Channels, line: string, later: seq<string>, parse: Parser, h: Handlers)
    ensures RunLines(ch, [line, ""] + later, parse, h)
         == AndThen(Step(ch, line, parse, h), later, parse, h)
  {
    var lines := [line, ""] + later;
    assert lines[0] == line && lines[1..] == [""] + later;
    var step := Step(ch, line, parse, h);
    if step.Continue? {
      StepBlankLine(step.ch, parse, h);
      assert ([""] + later)[0] == "" && ([""] + later)[1..] == later;
    }
  }

  /** Reading the framed events line by line is reading the events. */
  lemma {:induction false} RunFramed(ch: Channels, events: seq<StreamEvent>, rest: seq<string>, parse: Parser, h: Handlers)
    requires ParsesDumps(parse)
    ensures RunLines(ch, WithBlanks(DataLines(events)) + rest, parse, h) == AndThen(RunEvents(ch, events, h), rest, parse, h)
    decreases |events|
  {
    if |events| == 0 {
      assert WithBlanks(DataLines(events)) + rest == rest;
    } else {
      var e := events[0];
      var later := WithBlanks(DataLines(events[1..])) + rest;
      FramedLinesCons(events, rest);
      RunLineAndBlank(ch, DataLine(e), later, parse, h);
      StepDataLine(ch, e, parse, h);
      DispatchEvent(ch, e, h);
      var step := Apply(ch, e, h);
      assert AndThen(Step(ch, DataLine(e), parse, h), later, parse, h) == AndThen(step, later, parse, h);
      if step.Continue? {
        RunFramed(step.ch, events[1..], rest, parse, h);
        assert RunEvents(ch, events, h) == RunEvents(step.ch, events[1..], h);
      } else {
        assert RunEvents(ch, events, h) == step;
      }
    }
  }

  lemma FramedLinesCons(events: seq<StreamEvent>, rest: seq<string>)
    requires |events| > 0
    ensures WithBlanks(DataLines(events)) + rest == [DataLine(events[0]), ""] + (WithBlanks(DataLines(events[1..])) + rest)
  {
    DataLinesTail(events);
    WithBlanksCons(DataLines(events), rest);
  }

  lemma DataLinesTail(events: seq<StreamEvent>)
    requires |events| > 0
    ensures DataLines(events)[0] == DataLine(events[0]) && DataLines(events)[1..] == DataLines(events[1..])
  {
    MapSeqCons(DataLine, events);
    ConsTail(DataLine(events[0]), DataLines(events[1..]));
  }

  lemma WithBlanksCons(lines: seq<string>, rest: seq<string>)
    requires |lines| > 0
    ensures WithBlanks(lines) + rest == [lines[0], ""] + (WithBlanks(lines[1..]) + rest)
  {
  }

  lemma {:induction false} RunEventsAppend(ch: Channels, a: seq<StreamEvent>, b: seq<StreamEvent>, h: Handlers)
    requires RunEvents(ch, a, h).Continue?
    ensures RunEvents(ch, a + b, h) == RunEvents(RunEvents(ch, a, h).ch, b, h)
    decreases |a|
  {
    if |a| == 0 {
      assert a + b == b;
    } else {
      assert (a + b)[1..] == a[1..] + b;
      RunEventsAppend(Apply(ch, a[0], h).ch, a[1..], b, h);
    }
  }

  // ---------------------------------------------------------------------------
  // One phase as the reader sees it
  // ---------------------------------------------------------------------------

  /** Whether the web app passed a callback for the phase's tokens. */
  predicate Fires(thinking: bool, h: Handlers)
  {
    if thinking then h.onThinkingToken else h.onToken
  }

  /** The callback of one token of a phase, with the text so far. */
  function TokenCall(thinking: bool, token: string, text: string): Callback
  {
    if thinking then ThinkingCall(Str(token), Str(text)) else MessageCall(Str(token), Str(text))
  }

  /** The callbacks a phase's tokens fire: one per token, with the text so far. */
  function PhaseCalls(thinking: bool, tokens: seq<string>, h: Handlers): (r: seq<Callback>)
    ensures |r| == (if Fires(thinking, h) then |tokens| else 0)
  {
    var texts := Texts(tokens);
    if Fires(thinking, h) then seq(|tokens|, i requires 0 <= i < |tokens| => TokenCall(thinking, tokens[i], texts[i]))
    else []
  }

  function TokenEvents(thinking: bool, tokens: seq<string>): seq<StreamEvent>
  {
    var texts := Texts(tokens);
    seq(|tokens|, i requires 0 <= i < |tokens| => TokenEvent(thinking, tokens[i], texts[i]))
  }

  /** The channel of the phase, set to `text`. */
  function SetChannel(ch: Channels, thinking: bool, text: string): Channels
  {
    if thinking then ch.(thinking := Str(text)) else ch.(message := Str(text))
  }

  lemma TokenEventsSnoc(thinking: bool, tokens: seq<string>)
    requires |tokens| > 0
    ensures TokenEvents(thinking, tokens)
         == TokenEvents(thinking, AllButLast(tokens)) + [TokenEvent(thinking, Last(tokens), Concat(tokens))]
  {
    TokenEventsPrefix(thinking, tokens);
    TextsOfAll(tokens);
    LastSplit(TokenEvents(thinking, tokens));
  }

  lemma TokenEventsPrefix(thinking: bool, tokens: seq<string>)
    requires |tokens| > 0
    ensures TokenEvents(thinking, tokens)[..|tokens| - 1] == TokenEvents(thinking, AllButLast(tokens))
  {
    forall i | 0 <= i < |tokens| - 1
      ensures TokenEvents(thinking, AllButLast(tokens))[i] == TokenEvents(thinking, tokens)[i]
    {
      TextsOfInit(tokens, i);
    }
  }

  lemma PhaseCallsSnoc(thinking: bool, tokens: seq<string>, h: Handlers)
    requires |tokens| > 0
    ensures PhaseCalls(thinking, tokens, h)
         == PhaseCalls(thinking, AllButLast(tokens), h)
            + if Fires(thinking, h) then [TokenCall(thinking, Last(tokens), Concat(tokens))] else []
  {
    if Fires(thinking, h) {
      PhaseCallsPrefix(thinking, tokens, h);
      TextsOfAll(tokens);
      LastSplit(PhaseCalls(thinking, tokens, h));
    }
  }

  lemma PhaseCallsPrefix(thinking: bool, tokens: seq<string>, h: Handlers)
    requires |tokens| > 0 && Fires(thinking, h)
    ensures PhaseCalls(thinking, tokens, h)[..|tokens| - 1] == PhaseCalls(thinking, AllButLast(tokens), h)
  {
    forall i | 0 <= i < |tokens| - 1
      ensures PhaseCalls(thinking, AllButLast(tokens), h)[i] == PhaseCalls(thinking, tokens, h)[i]
    {
      TextsOfInit(tokens, i);
    }
  }

  /** One token event on top of the text so far. */
  lemma TokenEventRead(ch: Channels, thinking: bool, token: string, text: string, h: Handlers)
    ensures Apply(ch, TokenEvent(thinking, token, text), h)
         == Continue(SetChannel(ch, thinking, text).(calls := ch.calls
              + if Fires(thinking, h) then [TokenCall(thinking, token, text)] else []))
  {
  }

  /**
   * After the start event, the token events leave the phase's channel at the
   * text so far and add one callback per token; the other channel stays.
   */
  lemma {:induction false} TokensRead(ch: Channels, thinking: bool, tokens: seq<string>, h: Handlers)
    ensures RunEvents(SetChannel(ch, thinking, ""), TokenEvents(thinking, tokens), h)
         == Continue(SetChannel(ch, thinking, Concat(tokens)).(calls := ch.calls + PhaseCalls(thinking, tokens, h)))
    decreases |tokens|
  {
    var start := SetChannel(ch, thinking, "");
    var n := |tokens|;
    if n == 0 {
      assert PhaseCalls(thinking, tokens, h) == [];
      assert start.calls == ch.calls;
    } else {
      var init := AllButLast(tokens);
      TokensRead(ch, thinking, init, h);
      var mid := SetChannel(ch, thinking, Concat(init)).(calls := ch.calls + PhaseCalls(thinking, init, h));
      var last := TokenEvent(thinking, Last(tokens), Concat(tokens));
      TokenEventsSnoc(thinking, tokens);
      RunEventsAppend(start, TokenEvents(thinking, init), [last], h);
      TokenEventRead(mid, thinking, Last(tokens), Concat(tokens), h);
      assert RunEvents(mid, [last], h) == Apply(mid, last, h);
      PhaseCallsSnoc(thinking, tokens, h);
    }
  }

  /**
   * A whole phase: its channel ends at the concatenation of its tokens, one
   * callback per token. Only a completed message phase makes the reader
   * return; thinking phases and failed phases let it go on.
   */
  lemma PhaseRead(ch: Channels, thinking: bool, run: TokenRun, h: Handlers)
    ensures
      var after := SetChannel(ch, thinking, Concat(run.tokens)).(calls := ch.calls + PhaseCalls(thinking, run.tokens, h));
      RunEvents(ch, Phase(thinking, run), h)
      == if !thinking && run.failure.None? then Stop(after) else Continue(after)
  {
    var first := if thinking then ThinkingStart else MessageStart;
    var last := match run.failure
      case Some(e) => Error(e)
      case None => if thinking then ThinkingComplete(Concat(run.tokens)) else MessageComplete(Concat(run.tokens));
    var mid := TokenEvents(thinking, run.tokens);
    assert Phase(thinking, run) == [first] + (mid + [last]);
    assert Apply(ch, first, h) == Continue(SetChannel(ch, thinking, ""));
    TokensRead(ch, thinking, run.tokens, h);
    RunEventsAppend(SetChannel(ch, thinking, ""), mid, [last], h);
    assert ([first] + (mid + [last]))[1..] == mid + [last];
  }

  // ---------------------------------------------------------------------------
  // The whole stream
  // ---------------------------------------------------------------------------

  /** With thinking the stream is the thinking phase and, unless it failed, the answer phase. */
  lemma ThinkingEvents(lm: LanguageModel, message: string, conv: seq<PromptMessage>, maxTokens: nat, temperature: real)
    ensures
      PhasedEvents(lm, message, conv, maxTokens, temperature, true)
      == PhasesOf(ThinkingRun(lm, message, conv), AnswerRun(lm, message, conv, maxTokens, temperature))
  {
  }

  /** The two phases of a stream with thinking, run from the start: what the reader is left with. */
  lemma PhasesRead(th: TokenRun, answer: TokenRun, h: Handlers)
    ensures
      RunEvents(Start, PhasesOf(th, answer), h).ch
      == if th.failure.Some? then Channels(Str(Concat(th.tokens)), Str(""), PhaseCalls(true, th.tokens, h))
         else Channels(Str(Concat(th.tokens)), Str(Concat(answer.tokens)), PhaseCalls(true, th.tokens, h) + PhaseCalls(false, answer.tokens, h))
  {
    PhaseRead(Start, true, th, h);
    var afterThinking := RunEvents(Start, Phase(true, th), h).ch;
    assert afterThinking == Channels(Str(Concat(th.tokens)), Str(""), PhaseCalls(true, th.tokens, h));
    if th.failure.None? {
      RunEventsAppend(Start, Phase(true, th), Phase(false, answer), h);
      PhaseRead(afterThinking, false, answer, h);
    }
  }

  /** The `[DONE]` line makes the reader return, with the channels as they are. */
  lemma DoneRead(ch: Channels, parse: Parser, h: Handlers)
    ensures RunLines(ch, [DoneLine, ""], parse, h) == Stop(ch)
  {
    assert DoneLine[..|DataPrefix|] == DataPrefix;
    assert DataOf(DoneLine) == Some(DoneMarker);
  }

  /** A body of framed events and then `[DONE]`: the reader ends where the events leave it. */
  lemma FramedEventsRead(text: string, events: seq<StreamEvent>, parse: Parser, h: Handlers)
    requires ParsesDumps(parse)
    requires SplitOn(text, "\n") == WithBlanks(DataLines(events)) + [DoneLine, "", ""]
    ensures
      var ch := RunEvents(Start, events, h).ch;
      Consume(true, 200, text, parse, h) == Completed(ch.thinking, ch.message, ch.calls)
  {
    var lines := WithBlanks(DataLines(events)) + [DoneLine, ""];
    assert SplitOn(text, "\n") == lines + [""];
    ConsumeLines(text, lines, "", parse, h);
    RunFramed(Start, events, [DoneLine, ""], parse, h);
    DoneRead(RunEvents(Start, events, h).ch, parse, h);
  }

  /**
   * The service's stream read by the web app. With the model loaded and a
   * history it can read, the reader returns the complete thinking text and,
   * unless thinking failed, the complete answer; every token fired its
   * callback with the text so far. A failure inside generation, and a
   * history item that is not a dict, is an error event that the reader skips.
   */
  lemma StreamRead(models: Models, req: ChatRequest, parse: Parser, h: Handlers)
    requires ParsesDumps(parse) && "summary" in models
    ensures
      var lm := models["summary"];
      var conv := Conversation(req.history, true);
      && (conv.Err? ==> Consume(true, 200, StreamBody(models, req), parse, h) == Completed(Str(""), Str(""), []))
      && (conv.Ok? ==>
            var th := ThinkingRun(lm, req.message, conv.value);
            var answer := AnswerRun(lm, req.message, conv.value, ChatMaxTokens, ChatTemperature);
            Consume(true, 200, StreamBody(models, req), parse, h) == PhasesResult(th, answer, h))
  {
    var lm := models["summary"];
    var conv := Conversation(req.history, true);
    if conv.Ok? {
      var th := ThinkingRun(lm, req.message, conv.value);
      var answer := AnswerRun(lm, req.message, conv.value, ChatMaxTokens, ChatTemperature);
      PhaseLines(models, req);
      PhasesTextRead(StreamBody(models, req), PhasesOf(th, answer), th, answer, parse, h);
    } else {
      UnreadHistoryRead(models, req, parse, h);
    }
  }

  lemma ErrorEventSkipped(ch: Channels, msg: string, h: Handlers)
    ensures RunEvents(ch, [Error(msg)], h) == Continue(ch)
  {
    assert [Error(msg)][1..] == [];
  }

  /** A history the service cannot read: the one error event is skipped, and nothing fires. */
  lemma UnreadHistoryRead(models: Models, req: ChatRequest, parse: Parser, h: Handlers)
    requires ParsesDumps(parse) && "summary" in models && Conversation(req.history, true).Err?
    ensures Consume(true, 200, StreamBody(models, req), parse, h) == Completed(Str(""), Str(""), [])
  {
    var lm := models["summary"];
    var e := Conversation(req.history, true).error;
    var events := [Error(e)];
    var text := StreamBody(models, req);
    assert StreamEvents(lm, req.message, req.history, ChatMaxTokens, ChatTemperature, true) == events;
    StreamBodyLines(models, req);
    assert SplitOn(text, "\n") == WithBlanks(DataLines(events)) + [DoneLine, "", ""];
    FramedEventsRead(text, events, parse, h);
    ErrorEventSkipped(Start, e, h);
  }

  /**
   * What the reader returns for the two phases: the complete thinking text
   * and, unless thinking failed, the complete answer, with one callback per
   * token that had a handler.
   */
  function PhasesResult(th: TokenRun, answer: TokenRun, h: Handlers): StreamResult
  {
    if th.failure.Some? then
      Completed(Str(Concat(th.tokens)), Str(""), PhaseCalls(true, th.tokens, h))
    else
      Completed(Str(Concat(th.tokens)), Str(Concat(answer.tokens)),
                PhaseCalls(true, th.tokens, h) + PhaseCalls(false, answer.tokens, h))
  }

  /** The events of a stream with thinking, given its two runs. */
  function PhasesOf(th: TokenRun, answer: TokenRun): seq<StreamEvent>
  {
    if th.failure.Some? then Phase(true, th) else Phase(true, th) + Phase(false, answer)
  }

  /** The body's lines with the model loaded, phase by phase. */
  lemma PhaseLines(models: Models, req: ChatRequest)
    requires "summary" in models && Conversation(req.history, true).Ok?
    ensures
      var lm := models["summary"];
      var conv := Conversation(req.history, true).value;
      var th := ThinkingRun(lm, req.message, conv);
      var answer := AnswerRun(lm, req.message, conv, ChatMaxTokens, ChatTemperature);
      SplitOn(StreamBody(models, req), "\n") == WithBlanks(DataLines(PhasesOf(th, answer))) + [DoneLine, "", ""]
  {
    var lm := models["summary"];
    ThinkingEvents(lm, req.message, Conversation(req.history, true).value, ChatMaxTokens, ChatTemperature);
    StreamBodyLines(models, req);
  }

  lemma PhasesTextRead(text: string, events: seq<StreamEvent>, th: TokenRun, answer: TokenRun, parse: Parser, h: Handlers)
    requires ParsesDumps(parse)
    requires events == PhasesOf(th, answer)
    requires SplitOn(text, "\n") == WithBlanks(DataLines(events)) + [DoneLine, "", ""]
    ensures
      Consume(true, 200, text, parse, h) == PhasesResult(th, answer, h)
  {
    FramedEventsRead(text, events, parse, h);
    PhasesRead(th, answer, h);
  }

  /** A body whose split ends in `last`: the lines before it are read. */
  lemma ConsumeLines(text: string, lines: seq<string>, last: string, parse: Parser, h: Handlers)
    requires SplitOn(text, "\n") == lines + [last]
    ensures
      var ch := RunLines(Start, lines, parse, h).ch;
      Consume(true, 200, text, parse, h) == Completed(ch.thinking, ch.message, ch.calls)
  {
    assert AllButLast(lines + [last]) == lines;
  }

  /** A lone error frame is skipped. */
  lemma ErrorFrameRead(text: string, msg: string, parse: Parser, h: Handlers)
    requires ParsesDumps(parse)
    requires SplitOn(text, "\n") == [DataLine(Error(msg)), "", ""]
    ensures Consume(true, 200, text, parse, h) == Completed(Str(""), Str(""), [])
  {
    ErrorLinesRead(Start, msg, parse, h);
    ConsumeLines(text, [DataLine(Error(msg)), ""], "", parse, h);
  }

  lemma ErrorLinesRead(ch: Channels, msg: string, parse: Parser, h: Handlers)
    requires ParsesDumps(parse)
    ensures RunLines(ch, [DataLine(Error(msg)), ""], parse, h) == Continue(ch)
  {
    var e := Error(msg);
    var lines := WithBlanks(DataLines([e])) + [];
    DataLinesTail([e]);
    assert lines == [DataLine(e), ""];
    assert RunEvents(ch, [e], h) == Continue(ch);
    assert AndThen(Continue(ch), [], parse, h) == Continue(ch);
    RunFramed(ch, [e], [], parse, h);
    assert RunLines(ch, lines, parse, h) == Continue(ch);
  }

  /** Without the model the one error frame is skipped: both texts stay empty and nothing fires. */
  lemma UnavailableRead(models: Models, req: ChatRequest, parse: Parser, h: Handlers)
    requires ParsesDumps(parse) && "summary" !in models
    ensures Consume(true, 200, StreamBody(models, req), parse, h) == Completed(Str(""), Str(""), [])
  {
    StreamBodyLines(models, req);
    ErrorFrameRead(StreamBody(models, req), KeyErrorText("summary"), parse, h);
  }

  /**
   * When nothing fails, the reader's texts are exactly those of the
   * `thinking_complete` and `message_complete` events, and the stream ends
   * with the latter.
   */
  lemma CompleteTextsRead(th: TokenRun, answer: TokenRun, h: Handlers)
    requires th.failure.None? && answer.failure.None?
    ensures
      var events := PhasesOf(th, answer);
      var r := PhasesResult(th, answer, h);
      && |events| > 0 && Last(events) == MessageComplete(Concat(answer.tokens))
      && r.Completed? && r.message == Str(Last(events).text)
      && ThinkingComplete(Concat(th.tokens)) in events && r.thinking == Str(Concat(th.tokens))
  {
    var events := PhasesOf(th, answer);
    assert events[|th.tokens| + 1] == Phase(true, th)[|th.tokens| + 1];
    assert Last(events) == Last(Phase(false, answer));
  }
}
