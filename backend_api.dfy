/**
 * The web app's HTTP client (app/src/services/backendApi.js): request headers,
 * the error raised for a failed response, and `chatStream`, the reader of the
 * AI service's server-sent event stream.
 *
 * The stream reader follows a subset of the event-stream format of the WHATWG
 * HTML Living Standard (sections 9.2.5 and 9.2.6): the received text is cut at
 * `\n` only, a line counts only when it starts with `data: `, and every data
 * line is read on its own. Each payload is a JSON object whose `type` selects
 * one of two channels, thinking or message; the channel's text is replaced, not
 * appended to, by every event that carries one.
 */
module BackendApi {
  import opened Wrappers
  import opened Strings
  import opened Js

  // ---------------------------------------------------------------------------
  // Request headers and failed responses
  // ---------------------------------------------------------------------------

  /**
   * `getHeaders(includeAuth)`, given the stored token (`localStorage` returns
   * a string or null).
   */
  function Headers(includeAuth: bool, token: Option<string>): (h: map<string, string>)
    ensures "Content-Type" in h && h["Content-Type"] == "application/json"
    ensures "Authorization" in h <==> includeAuth && token.Some? && token.value != ""
    ensures "Authorization" in h ==> h["Authorization"] == "Bearer " + token.value
    ensures h.Keys <= {"Content-Type", "Authorization"}
  {
    var base := map["Content-Type" := "application/json"];
    if includeAuth && token.Some? && token.value != "" then
      base["Authorization" := "Bearer " + token.value]
    else base
  }

  datatype ResponseOutcome =
    | Payload(data: JsValue)
    | Failure(message: string, status: int, data: JsValue)
    | BodyNotJson
    | NullBodyTypeError

  /**
   * `handleResponse`: the body is read as JSON first; a non-ok response then
   * throws with the body's `message`, else its `error`, else a generic text
   * naming the status. Reading `data.message` of a JSON `null` body throws a
   * TypeError instead.
   */
  function HandleResponse(ok: bool, status: int, body: Option<JsValue>): (r: ResponseOutcome)
    ensures body.None? <==> r.BodyNotJson?
    ensures r.NullBodyTypeError? <==> body.Some? && !ok && Nullish(body.value)
    ensures body.Some? && ok ==> r == Payload(body.value)
    ensures body.Some? && !ok && !Nullish(body.value) ==> r.Failure? && r.status == status && r.data == body.value
    ensures
      body.Some? && !ok && !Nullish(body.value) ==>
        var d := body.value;
        && (Truthy(Prop(d, "message")) ==> r.message == ToStr(Prop(d, "message")))
        && (!Truthy(Prop(d, "message")) && Truthy(Prop(d, "error")) ==> r.message == ToStr(Prop(d, "error")))
        && ((!Truthy(Prop(d, "message")) && !Truthy(Prop(d, "error")))
            ==> r.message == "API request failed (" + IntToString(status) + ")")
  {
    match body
    case None => BodyNotJson
    case Some(d) =>
      if ok then Payload(d)
      else if Nullish(d) then NullBodyTypeError
      else
        var chosen := Or(Prop(d, "message"), Or(Prop(d, "error"), Str("API request failed (" + IntToString(status) + ")")));
        Failure(ToStr(chosen), status, d)
  }

  // ---------------------------------------------------------------------------
  // The stream reader's state machine, one line at a time
  // ---------------------------------------------------------------------------

  /** A call of `onThinkingToken` or `onToken`, with (token, cumulative text). */
  datatype Callback =
    | ThinkingCall(token: JsValue, text: JsValue)
    | MessageCall(token: JsValue, text: JsValue)

  /** Which of the two optional callbacks the caller passed. */
  datatype Handlers = Handlers(onToken: bool, onThinkingToken: bool)

  /** `thinkingText`, `messageText` and the callbacks fired so far. */
  datatype Channels = Channels(thinking: JsValue, message: JsValue, calls: seq<Callback>)

  const Start := Channels(Str(""), Str(""), [])

  /** After one line the reader either goes on or returns. */
  datatype LineStep = Continue(ch: Channels) | Stop(ch: Channels)

  /** `JSON.parse`, which either yields a value or throws. */
  type Parser = string -> Option<JsValue>

  const DataPrefix: string := "data: "
  const DoneMarker: string := "[DONE]"

  /** The payload of a `data: ` line. */
  function DataOf(line: string): (r: Option<string>)
    ensures r.Some? <==> DataPrefix <= line
    ensures r.Some? ==> line == DataPrefix + r.value
  {
    if DataPrefix <= line then Some(line[|DataPrefix|..]) else None
  }

  /** The parsed event object of a line, when it is a data line that parses. */
  function EventOf(line: string, parse: Parser): Option<JsValue>
  {
    match DataOf(line)
    case None => None
    case Some(data) => if data == DoneMarker then None else parse(data)
  }

  predicate HasType(line: string, parse: Parser, kind: string)
  {
    var e := EventOf(line, parse);
    e.Some? && Prop(e.value, "type") == Str(kind)
  }

  /** `chunk.text || ''` */
  function TextOf(chunk: JsValue): JsValue
  {
    Or(Prop(chunk, "text"), Str(""))
  }

  /** The line makes the reader return: `[DONE]` or a `message_complete` event. */
  predicate Terminates(line: string, parse: Parser)
  {
    DataOf(line) == Some(DoneMarker) || HasType(line, parse, "message_complete")
  }

  /** The value a line gives the thinking channel, if it touches it. */
  function ThinkingUpdate(line: string, parse: Parser): Option<JsValue>
  {
    if HasType(line, parse, "thinking_start") then Some(Str(""))
    else if HasType(line, parse, "thinking") || HasType(line, parse, "thinking_complete") then
      Some(TextOf(EventOf(line, parse).value))
    else None
  }

  /** The value a line gives the message channel, if it touches it. */
  function MessageUpdate(line: string, parse: Parser): Option<JsValue>
  {
    if HasType(line, parse, "message_start") then Some(Str(""))
    else if HasType(line, parse, "message") || HasType(line, parse, "message_complete") then
      Some(TextOf(EventOf(line, parse).value))
    else None
  }

  /** The callbacks a line fires: one for a token event whose handler exists. */
  function LineCallbacks(line: string, parse: Parser, h: Handlers): seq<Callback>
  {
    if HasType(line, parse, "thinking") && h.onThinkingToken then
      var e := EventOf(line, parse).value;
      [ThinkingCall(Prop(e, "token"), TextOf(e))]
    else if HasType(line, parse, "message") && h.onToken then
      var e := EventOf(line, parse).value;
      [MessageCall(Prop(e, "token"), TextOf(e))]
    else []
  }

  /**
   * The body of the `for (const line of lines)` loop. An `error` event throws
   * inside the `try` and is caught right there, like a payload that is not
   * JSON, so neither changes anything.
   */
  function Step(ch: Channels, line: string, parse: Parser, h: Handlers): LineStep
  {
    match DataOf(line)
    case None => Continue(ch)
    case Some(data) =>
      if data == DoneMarker then Stop(ch)
      else
        match parse(data)
        case None => Continue(ch)
        case Some(chunk) => Dispatch(ch, chunk, h)
  }

  /**
   * What one line does: lines that are not data lines, payloads that do not
   * parse and `error` events change nothing; the reader returns exactly on
   * `[DONE]` and `message_complete`; otherwise each channel takes the value
   * the line gives it and the token's callback is appended.
   */
  lemma StepEffects(ch: Channels, line: string, parse: Parser, h: Handlers)
    ensures DataOf(line).None? ==> Step(ch, line, parse, h) == Continue(ch)
    ensures (DataOf(line).Some? && DataOf(line) != Some(DoneMarker) && parse(DataOf(line).value).None?)
            ==> Step(ch, line, parse, h) == Continue(ch)
    ensures HasType(line, parse, "error") ==> Step(ch, line, parse, h) == Continue(ch)
    ensures Step(ch, line, parse, h).Stop? <==> Terminates(line, parse)
    ensures Step(ch, line, parse, h).ch.thinking == ThinkingUpdate(line, parse).GetOr(ch.thinking)
    ensures Step(ch, line, parse, h).ch.message == MessageUpdate(line, parse).GetOr(ch.message)
    ensures Step(ch, line, parse, h).ch.calls == ch.calls + LineCallbacks(line, parse, h)
  {
  }

  /** What a parsed event does to the channels, selected by its `type`. */
  function Dispatch(ch: Channels, chunk: JsValue, h: Handlers): LineStep
  {
    var kind := Prop(chunk, "type");
    var text := TextOf(chunk);
    if kind == Str("thinking_start") then Continue(ch.(thinking := Str("")))
    else if kind == Str("thinking") then
      Continue(ch.(thinking := text,
                   calls := ch.calls + if h.onThinkingToken then [ThinkingCall(Prop(chunk, "token"), text)] else []))
    else if kind == Str("thinking_complete") then Continue(ch.(thinking := text))
    else if kind == Str("message_start") then Continue(ch.(message := Str("")))
    else if kind == Str("message") then
      Continue(ch.(message := text,
                   calls := ch.calls + if h.onToken then [MessageCall(Prop(chunk, "token"), text)] else []))
    else if kind == Str("message_complete") then Stop(ch.(message := text))
    else Continue(ch)
  }

  /** The lines in order until one makes the reader return. */
  function RunLines(ch: Channels, lines: seq<string>, parse: Parser, h: Handlers): LineStep
    decreases |lines|
  {
    if |lines| == 0 then Continue(ch)
    else
      match Step(ch, lines[0], parse, h)
      case Stop(c) => Stop(c)
      case Continue(c) => RunLines(c, lines[1..], parse, h)
  }

  /** The lines of the text that a `\n` ends; what follows the last one is not a line yet. */
  function CompleteLines(text: string): seq<string>
  {
    AllButLast(SplitOn(text, "\n"))
  }

  datatype StreamResult =
    | HttpError(reason: string)
    | Completed(thinking: JsValue, message: JsValue, calls: seq<Callback>)

  /** What `chatStream` returns for a response whose body is `text`. */
  function Consume(ok: bool, status: int, text: string, parse: Parser, h: Handlers): StreamResult
  {
    if !ok then HttpError("HTTP error! status: " + IntToString(status))
    else
      var ch := RunLines(Start, CompleteLines(text), parse, h).ch;
      Completed(ch.thinking, ch.message, ch.calls)
  }

  // ---------------------------------------------------------------------------
  // The reader itself
  // ---------------------------------------------------------------------------

  /**
   * `chatStream` after the request: `ok` and `status` come from the response
   * and `received` are the successive decoded pieces of its body.
   */
  method ChatStream(ok: bool, status: int, received: seq<string>, parse: Parser, h: Handlers)
    returns (r: StreamResult)
    ensures r == Consume(ok, status, Concat(received), parse, h)
  {
    if !ok {
      return HttpError("HTTP error! status: " + IntToString(status));
    }
    var buffer := "";
    var thinkingText := Str("");
    var messageText := Str("");
    var calls: seq<Callback> := [];
    var k := 0;
    while k < |received|
      invariant 0 <= k <= |received|
      invariant buffer == Last(SplitOn(Concat(received[..k]), "\n"))
      invariant RunLines(Start, CompleteLines(Concat(received[..k])), parse, h)
             == Continue(Channels(thinkingText, messageText, calls))
    {
      ghost var before := CompleteLines(Concat(received[..k]));
      var lines := SplitOn(buffer + received[k], "\n");
      buffer := Last(lines);
      ReadLines(received, k);
      ghost var rest := CompleteLines(buffer + Concat(received[k + 1..]));
      ghost var ch := Channels(thinkingText, messageText, calls);
      var stop;
      thinkingText, messageText, calls, stop := HandleLines(thinkingText, messageText, calls, AllButLast(lines), parse, h);
      RunLinesAppend(Start, before, AllButLast(lines), parse, h);
      if stop {
        RunLinesAfterStop(Start, before + AllButLast(lines), rest, parse, h);
        return Completed(thinkingText, messageText, calls);
      }
      k := k + 1;
    }
    assert received[..k] == received;
    return Completed(thinkingText, messageText, calls);
  }

  /** The `for (const line of lines)` loop over the complete lines of one read. */
  method HandleLines(thinking: JsValue, message: JsValue, calls: seq<Callback>, lines: seq<string>, parse: Parser, h: Handlers)
    returns (thinkingText: JsValue, messageText: JsValue, calls': seq<Callback>, stop: bool)
    ensures var ch' := Channels(thinkingText, messageText, calls');
            RunLines(Channels(thinking, message, calls), lines, parse, h) == if stop then Stop(ch') else Continue(ch')
  {
    ghost var ch0 := Channels(thinking, message, calls);
    thinkingText, messageText, calls', stop := thinking, message, calls, false;
    var i := 0;
    while i < |lines|
      invariant 0 <= i <= |lines|
      invariant RunLines(ch0, lines[..i], parse, h) == Continue(Channels(thinkingText, messageText, calls'))
    {
      RunLinesSnoc(ch0, lines[..i], lines[i], parse, h);
      assert lines[..i + 1] == lines[..i] + [lines[i]];
      thinkingText, messageText, calls', stop := HandleLine(thinkingText, messageText, calls', lines[i], parse, h);
      if stop {
        RunLinesAfterStop(ch0, lines[..i + 1], lines[i + 1..], parse, h);
        assert lines[..i + 1] + lines[i + 1..] == lines;
        return;
      }
      i := i + 1;
    }
    assert lines[..i] == lines;
  }

  /**
   * One line of the `for (const line of lines)` loop, on the reader's three
   * variables; `stop` is set where the source returns.
   */
  method HandleLine(thinking: JsValue, message: JsValue, calls: seq<Callback>, line: string, parse: Parser, h: Handlers)
    returns (thinkingText: JsValue, messageText: JsValue, calls': seq<Callback>, stop: bool)
    ensures var ch' := Channels(thinkingText, messageText, calls');
            Step(Channels(thinking, message, calls), line, parse, h) == if stop then Stop(ch') else Continue(ch')
  {
    thinkingText, messageText, calls', stop := thinking, message, calls, false;
    if DataPrefix <= line {
      var data := line[|DataPrefix|..];
      if data == DoneMarker {
        return thinkingText, messageText, calls', true;
      }
      match parse(data)
      case None =>
      case Some(chunk) =>
        var kind := Prop(chunk, "type");
        if kind == Str("thinking_start") {
          thinkingText := Str("");
        } else if kind == Str("thinking") {
          thinkingText := Or(Prop(chunk, "text"), Str(""));
          if h.onThinkingToken {
            calls' := calls' + [ThinkingCall(Prop(chunk, "token"), thinkingText)];
          }
        } else if kind == Str("thinking_complete") {
          thinkingText := Or(Prop(chunk, "text"), Str(""));
        } else if kind == Str("message_start") {
          messageText := Str("");
        } else if kind == Str("message") {
          messageText := Or(Prop(chunk, "text"), Str(""));
          if h.onToken {
            calls' := calls' + [MessageCall(Prop(chunk, "token"), messageText)];
          }
        } else if kind == Str("message_complete") {
          messageText := Or(Prop(chunk, "text"), Str(""));
          stop := true;
        }
    }
  }

  // ---------------------------------------------------------------------------
  // Lemmas about the reader
  // ---------------------------------------------------------------------------

  /** Appending lines after `a` moves the last line and keeps `a` in front of the others. */
  lemma AllButLastAppend(a: seq<string>, b: seq<string>)
    requires |b| > 0
    ensures AllButLast(a + b) == a + AllButLast(b)
    ensures Last(a + b) == Last(b)
  {
  }

  /** The complete lines of `x + y`: those of `x`, then those of `x`'s unfinished line followed by `y`. */
  lemma CompleteLinesAppend(x: string, y: string)
    ensures CompleteLines(x + y) == CompleteLines(x) + CompleteLines(Last(SplitOn(x, "\n")) + y)
    ensures Last(SplitOn(x + y, "\n")) == Last(SplitOn(Last(SplitOn(x, "\n")) + y, "\n"))
  {
    SplitOnAppend(x, y, "\n");
    AllButLastAppend(AllButLast(SplitOn(x, "\n")), SplitOn(Last(SplitOn(x, "\n")) + y, "\n"));
  }

  /** How one read extends the lines the reader has seen, and what remains. */
  lemma ReadLines(received: seq<string>, k: nat)
    requires k < |received|
    ensures
      var buffer := Last(SplitOn(Concat(received[..k]), "\n"));
      var lines := SplitOn(buffer + received[k], "\n");
      && CompleteLines(Concat(received[..k + 1])) == CompleteLines(Concat(received[..k])) + AllButLast(lines)
      && Last(SplitOn(Concat(received[..k + 1]), "\n")) == Last(lines)
      && CompleteLines(Concat(received))
         == CompleteLines(Concat(received[..k])) + AllButLast(lines) + CompleteLines(Last(lines) + Concat(received[k + 1..]))
  {
    var p := Concat(received[..k]);
    var q := p + received[k];
    var r := Concat(received[k + 1..]);
    var lines := SplitOn(Last(SplitOn(p, "\n")) + received[k], "\n");
    ConcatTake(received, k);
    ConcatSplit(received, k + 1);
    CompleteLinesAppend(p, received[k]);
    assert CompleteLines(q) == CompleteLines(p) + AllButLast(lines);
    assert Last(SplitOn(q, "\n")) == Last(lines);
    CompleteLinesAppend(q, r);
  }

  /** Running one more line, when the earlier ones did not make the reader return. */
  lemma {:induction false} RunLinesSnoc(ch: Channels, lines: seq<string>, line: string, parse: Parser, h: Handlers)
    requires RunLines(ch, lines, parse, h).Continue?
    ensures RunLines(ch, lines + [line], parse, h) == Step(RunLines(ch, lines, parse, h).ch, line, parse, h)
    decreases |lines|
  {
    if |lines| == 0 {
      assert lines + [line] == [line];
      assert RunLines(ch, [line], parse, h) == RunLines(Step(ch, line, parse, h).ch, [], parse, h)
        || Step(ch, line, parse, h).Stop?;
    } else {
      assert (lines + [line])[1..] == lines[1..] + [line];
      RunLinesSnoc(Step(ch, lines[0], parse, h).ch, lines[1..], line, parse, h);
    }
  }

  /**
   * Once the reader has returned, nothing after that line is examined: the
   * result, callbacks included, is the same whatever lines follow.
   */
  lemma {:induction false} RunLinesAfterStop(ch: Channels, lines: seq<string>, later: seq<string>, parse: Parser, h: Handlers)
    requires RunLines(ch, lines, parse, h).Stop?
    ensures RunLines(ch, lines + later, parse, h) == RunLines(ch, lines, parse, h)
    decreases |lines|
  {
    assert |lines| > 0;
    assert (lines + later)[0] == lines[0];
    assert (lines + later)[1..] == lines[1..] + later;
    if Step(ch, lines[0], parse, h).Continue? {
      RunLinesAfterStop(Step(ch, lines[0], parse, h).ch, lines[1..], later, parse, h);
    }
  }

  /** Running `a + b` when `a` does not make the reader return. */
  lemma {:induction false} RunLinesAppend(ch: Channels, a: seq<string>, b: seq<string>, parse: Parser, h: Handlers)
    requires RunLines(ch, a, parse, h).Continue?
    ensures RunLines(ch, a + b, parse, h) == RunLines(RunLines(ch, a, parse, h).ch, b, parse, h)
    decreases |a|
  {
    if |a| == 0 {
      assert a + b == b;
    } else {
      assert (a + b)[0] == a[0];
      assert (a + b)[1..] == a[1..] + b;
      RunLinesAppend(Step(ch, a[0], parse, h).ch, a[1..], b, parse, h);
    }
  }

  /** No line, except possibly the last, makes the reader return. */
  predicate NoEarlyStop(lines: seq<string>, parse: Parser)
  {
    forall i :: 0 <= i < |lines| - 1 ==> !Terminates(lines[i], parse)
  }

  /** Reference reading of the thinking channel: the last line that sets it wins. */
  function LastThinking(initial: JsValue, lines: seq<string>, parse: Parser): JsValue
    decreases |lines|
  {
    if |lines| == 0 then initial
    else
      match ThinkingUpdate(Last(lines), parse)
      case Some(v) => v
      case None => LastThinking(initial, AllButLast(lines), parse)
  }

  /** Reference reading of the message channel: the last line that sets it wins. */
  function LastMessage(initial: JsValue, lines: seq<string>, parse: Parser): JsValue
    decreases |lines|
  {
    if |lines| == 0 then initial
    else
      match MessageUpdate(Last(lines), parse)
      case Some(v) => v
      case None => LastMessage(initial, AllButLast(lines), parse)
  }

  /** Reference reading of the callbacks: each line's own callbacks, in line order. */
  function AllCallbacks(lines: seq<string>, parse: Parser, h: Handlers): seq<Callback>
    decreases |lines|
  {
    if |lines| == 0 then []
    else AllCallbacks(AllButLast(lines), parse, h) + LineCallbacks(Last(lines), parse, h)
  }

  lemma NoEarlyStopPrefix(lines: seq<string>, parse: Parser, ch: Channels, h: Handlers)
    requires |lines| > 0 && NoEarlyStop(lines, parse)
    ensures NoEarlyStop(AllButLast(lines), parse)
    ensures RunLines(ch, AllButLast(lines), parse, h).Continue?
  {
    NoStopContinues(ch, AllButLast(lines), parse, h);
  }

  lemma {:induction false} NoStopContinues(ch: Channels, lines: seq<string>, parse: Parser, h: Handlers)
    requires forall i :: 0 <= i < |lines| ==> !Terminates(lines[i], parse)
    ensures RunLines(ch, lines, parse, h).Continue?
    decreases |lines|
  {
    if |lines| > 0 {
      assert !Terminates(lines[0], parse);
      StepEffects(ch, lines[0], parse, h);
      NoStopContinues(Step(ch, lines[0], parse, h).ch, lines[1..], parse, h);
    }
  }

  /**
   * Until the reader returns, each channel holds the value set by the last
   * line that touched it (replacing, never appending), and the callbacks are
   * exactly the ones the token lines fire, one each, in order.
   */
  lemma {:induction false} ChannelsAreLastWrites(ch: Channels, lines: seq<string>, parse: Parser, h: Handlers)
    requires NoEarlyStop(lines, parse)
    ensures RunLines(ch, lines, parse, h).ch.thinking == LastThinking(ch.thinking, lines, parse)
    ensures RunLines(ch, lines, parse, h).ch.message == LastMessage(ch.message, lines, parse)
    ensures RunLines(ch, lines, parse, h).ch.calls == ch.calls + AllCallbacks(lines, parse, h)
    decreases |lines|
  {
    if |lines| > 0 {
      var init, line := AllButLast(lines), Last(lines);
      assert init + [line] == lines;
      NoEarlyStopPrefix(lines, parse, ch, h);
      ChannelsAreLastWrites(ch, init, parse, h);
      RunLinesSnoc(ch, init, line, parse, h);
      var c := RunLines(ch, init, parse, h).ch;
      var r := Step(c, line, parse, h);
      StepEffects(c, line, parse, h);
      assert RunLines(ch, lines, parse, h) == r;
      assert r.ch.thinking == ThinkingUpdate(line, parse).GetOr(c.thinking);
      assert r.ch.message == MessageUpdate(line, parse).GetOr(c.message);
      assert r.ch.calls == c.calls + LineCallbacks(line, parse, h);
    }
  }

  /** A text that ends with a complete line followed by an unfinished one. */
  lemma UnfinishedLineIgnored(s: string, t: string, ok: bool, status: int, parse: Parser, h: Handlers)
    requires s == "" || s[|s| - 1] == '\n'
    requires !Contains(t, "\n")
    ensures Consume(ok, status, s + t, parse, h) == Consume(ok, status, s, parse, h)
  {
    CompleteLinesAppend(s, t);
    if s == "" {
      assert SplitOn(s, "\n") == [""];
    } else {
      SplitEndingInSeparator(s, "\n");
    }
    assert "" + t == t;
    SplitWithoutSeparator(t, "\n");
    assert CompleteLines(t) == [];
    assert s + t == s + t;
    assert CompleteLines(s + t) == CompleteLines(s);
  }
}
