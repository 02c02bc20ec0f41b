/**
 * The chat generator of the AI service: the prompt it builds from the
 * history, the token-by-token generation loop, and the event sequence
 * `generate_stream` yields (an optional thinking phase, then the answer,
 * each event carrying the text generated so far).
 */
module ChatGenerator {
  import opened Wrappers
  import opened Strings
  import opened Js
  import opened SpecializedModels

  // ---------------------------------------------------------------------------
  // The prompt
  // ---------------------------------------------------------------------------

  const SystemPrompt: string := "You are a helpful AI assistant "
    + "powered by Qwen. Provide "
    + "clear, concise, and accurate "
    + "responses. Be brief and "
    + "to the point."
  const ThinkingHint: string := " Before responding, think "
    + "about the question and explain "
    + "your reasoning."
  const HistoryWindow: nat := 6

  const ThinkingLead: string := "Think step by step about " + "how to answer this question: "
  const ThinkingTail: string :=
    "\n\nProvide your reasoning "
      + "as if you're planning your "
      + "response. Use bullet points "
      + "to break down your thought "
      + "process."

  function ThinkingRequest(message: string): string
  {
    ThinkingLead + message + ThinkingTail
  }

  /** Python's name for the type of a decoded JSON value. */
  function PyTypeName(v: JsValue): string
  {
    match v
    case Num(_) => "int"
    case Str(_) => "str"
    case Arr(_) => "list"
    case Obj(_) => "dict"
    case Bool(_) => "bool"
    case _ => "NoneType"
  }

  /** The `AttributeError` raised by `msg.get(...)` on a history item that is not a dict. */
  function NoGetError(v: JsValue): string
  {
    "'" + PyTypeName(v) + "' object has no attribute 'get'"
  }

  /** `d.get(key, default)` */
  function Get(fields: map<string, JsValue>, key: string, default: JsValue): (r: JsValue)
    ensures key in fields ==> r == fields[key]
    ensures key !in fields ==> r == default
  {
    if key in fields then fields[key] else default
  }

  /**
   * One history item as a prompt message: the role defaulting to `user`
   * and the content to the empty string; an item that is not a dict has no
   * `get` and raises.
   */
  function FromHistory(msg: JsValue): (r: Result<PromptMessage, string>)
    ensures msg.Obj? ==> r == Ok(PromptMessage(Get(msg.fields, "role", Str("user")), Get(msg.fields, "content", Str(""))))
    ensures !msg.Obj? ==> r == Err(NoGetError(msg))
  {
    match msg
    case Obj(fields) => Ok(PromptMessage(Get(fields, "role", Str("user")), Get(fields, "content", Str(""))))
    case _ => Err(NoGetError(msg))
  }

  /** The items read in order; the first one that raises ends the loop. */
  function Entries(items: seq<JsValue>): Result<seq<PromptMessage>, string>
  {
    if |items| == 0 then Ok([])
    else
      match FromHistory(items[0])
      case Err(e) => Err(e)
      case Ok(m) => PrependOk([m], Entries(items[1..]))
  }

  /** Item `i` is the first that is not a dict. */
  predicate FirstNonDict(items: seq<JsValue>, i: int)
  {
    0 <= i < |items| && !items[i].Obj? && forall k :: 0 <= k < i ==> items[k].Obj?
  }

  /**
   * The loop succeeds exactly when every item is a dict, and then yields one
   * message per item in order; otherwise it fails with the error of the
   * first item that is not.
   */
  lemma {:induction false} EntriesMeaning(items: seq<JsValue>)
    ensures Entries(items).Ok? <==> forall i :: 0 <= i < |items| ==> items[i].Obj?
    ensures Entries(items).Ok? ==>
      && |Entries(items).value| == |items|
      && forall i :: 0 <= i < |items| ==> Ok(Entries(items).value[i]) == FromHistory(items[i])
    ensures Entries(items).Err? ==> exists i :: FirstNonDict(items, i) && Entries(items).error == NoGetError(items[i])
    decreases |items|
  {
    if |items| > 0 {
      var rest := items[1..];
      EntriesMeaning(rest);
      assert forall i :: 1 <= i < |items| ==> items[i] == rest[i - 1];
      if items[0].Obj? && Entries(rest).Ok? {
        var r := Entries(items).value;
        assert r == [FromHistory(items[0]).value] + Entries(rest).value;
        assert forall i :: 1 <= i < |items| ==> r[i] == Entries(rest).value[i - 1];
      } else if items[0].Obj? {
        var j :| FirstNonDict(rest, j) && Entries(rest).error == NoGetError(rest[j]);
        assert FirstNonDict(items, j + 1);
      } else {
        assert FirstNonDict(items, 0);
      }
    }
  }

  /** `history[-6:]` */
  function Recent(history: seq<JsValue>): (r: seq<JsValue>)
    ensures |r| == Min(|history|, HistoryWindow) && r == history[|history| - |r|..]
  {
    if |history| <= HistoryWindow then history else history[|history| - HistoryWindow..]
  }

  /**
   * The messages ahead of the new question: a system message only when
   * there is no history, otherwise the last six history items as prompt
   * messages. The conversation fails exactly when one of those six is not a
   * dict, with the error of the first such item; older items are not read.
   */
  function Conversation(history: seq<JsValue>, includeThinking: bool): (r: Result<seq<PromptMessage>, string>)
    ensures |history| == 0 ==> r == Ok([PromptMessage(Str("system"), Str(SystemPrompt + (if includeThinking then ThinkingHint else "")))])
    ensures |history| > 0 ==> var recent := Recent(history);
      && (r.Ok? <==> forall i :: 0 <= i < |recent| ==> recent[i].Obj?)
      && (r.Ok? ==> |r.value| == |recent| && forall i :: 0 <= i < |recent| ==> Ok(r.value[i]) == FromHistory(recent[i]))
      && (r.Err? ==> exists i :: FirstNonDict(recent, i) && r.error == NoGetError(recent[i]))
  {
    if |history| == 0 then
      Ok([Says("system", SystemPrompt + (if includeThinking then ThinkingHint else ""))])
    else
      EntriesMeaning(Recent(history));
      Entries(Recent(history))
  }

  /** Items ahead of the last six never change the conversation. */
  lemma {:induction false} OnlyRecentRead(older: seq<JsValue>, history: seq<JsValue>, includeThinking: bool)
    requires |history| >= HistoryWindow
    ensures Conversation(older + history, includeThinking) == Conversation(history, includeThinking)
  {
    var all := older + history;
    assert all[|all| - HistoryWindow..] == history[|history| - HistoryWindow..];
    assert Recent(all) == Recent(history);
    assert Conversation(all, includeThinking) == Entries(Recent(all));
    assert Conversation(history, includeThinking) == Entries(Recent(history));
  }

  /** The prompt-building loop at the top of `generate` and `generate_stream`. */
  method BuildConversation(history: seq<JsValue>, includeThinking: bool) returns (messages: Result<seq<PromptMessage>, string>)
    ensures messages == Conversation(history, includeThinking)
  {
    if |history| == 0 {
      var content := SystemPrompt;
      if includeThinking {
        content := content + ThinkingHint;
      } else {
        assert content == SystemPrompt + "";
      }
      return Ok([Says("system", content)]);
    }
    var recent := Recent(history);
    var done: seq<PromptMessage> := [];
    var i := 0;
    assert recent[0..] == recent;
    PrependNothing(Entries(recent));
    while i < |recent|
      invariant 0 <= i <= |recent|
      invariant Entries(recent) == PrependOk(done, Entries(recent[i..]))
    {
      assert recent[i..][0] == recent[i] && recent[i..][1..] == recent[i + 1..];
      var m := FromHistory(recent[i]);
      if m.Err? {
        return Err(m.error);
      }
      PrependOkSnoc(done, m.value, Entries(recent[i + 1..]));
      done := done + [m.value];
      i := i + 1;
    }
    assert Entries(recent[i..]) == Ok([]);
    assert done + [] == done;
    return Ok(done);
  }

  // ---------------------------------------------------------------------------
  // Token-by-token generation (`_chat_stream`)
  // ---------------------------------------------------------------------------

  /**
   * What one generation run produced: the token ids, their decoded texts,
   * and the failure that ended it, if the model raised.
   */
  datatype TokenRun = TokenRun(ids: seq<int>, tokens: seq<string>, failure: Option<string>)

  /**
   * At most `budget` steps: each asks the model for the next id, stops at
   * the end-of-sequence id or at a failure, and otherwise yields the
   * id's decoded text and extends the context.
   */
  function Generated(lm: LanguageModel, context: seq<int>, budget: nat, temperature: real): (r: TokenRun)
    ensures |r.ids| == |r.tokens| <= budget
    decreases budget
  {
    if budget == 0 then TokenRun([], [], None)
    else
      match lm.next(context, temperature)
      case Err(e) => TokenRun([], [], Some(e))
      case Ok(t) =>
        if t == lm.eos then TokenRun([], [], None)
        else
          var rest := Generated(lm, context + [t], budget - 1, temperature);
          TokenRun([t] + rest.ids, [lm.decode([t])] + rest.tokens, rest.failure)
  }

  /** Id `i` is what the model picked after the context and the ids before it; none is the end-of-sequence id. */
  predicate Picked(lm: LanguageModel, context: seq<int>, ids: seq<int>, temperature: real)
  {
    forall i :: 0 <= i < |ids| ==> lm.next(context + ids[..i], temperature) == Ok(ids[i]) && ids[i] != lm.eos
  }

  /** The run step by step: each id is the model's pick, and each token is its id decoded. */
  lemma {:induction false} GeneratedPicks(lm: LanguageModel, context: seq<int>, budget: nat, temperature: real)
    ensures var r := Generated(lm, context, budget, temperature);
      && Picked(lm, context, r.ids, temperature)
      && forall i :: 0 <= i < |r.ids| ==> r.tokens[i] == lm.decode([r.ids[i]])
    decreases budget
  {
    var r := Generated(lm, context, budget, temperature);
    if budget > 0 && lm.next(context, temperature).Ok? && lm.next(context, temperature).value != lm.eos {
      var t := lm.next(context, temperature).value;
      var rest := Generated(lm, context + [t], budget - 1, temperature);
      GeneratedPicks(lm, context + [t], budget - 1, temperature);
      assert r.ids == [t] + rest.ids;
      forall i | 0 <= i < |r.ids|
        ensures lm.next(context + r.ids[..i], temperature) == Ok(r.ids[i]) && r.ids[i] != lm.eos
      {
        if i == 0 {
          assert context + r.ids[..0] == context;
        } else {
          ShiftedPrefix(context, t, rest.ids, i);
        }
      }
      forall i | 0 <= i < |r.ids|
        ensures r.tokens[i] == lm.decode([r.ids[i]])
      {
        if i > 0 {
          assert r.ids[i] == rest.ids[i - 1] && r.tokens[i] == rest.tokens[i - 1];
        }
      }
    }
  }

  /** The context before id `i` of `[t] + ids` is the context grown by `t`, before id `i - 1` of `ids`. */
  lemma ShiftedPrefix(context: seq<int>, t: int, ids: seq<int>, i: nat)
    requires 0 < i <= |ids|
    ensures ([t] + ids)[i] == ids[i - 1]
    ensures context + ([t] + ids)[..i] == (context + [t]) + ids[..i - 1]
  {
    assert ([t] + ids)[..i] == [t] + ids[..i - 1];
    AppendAssoc(context, [t], ids[..i - 1]);
  }

  /**
   * How the run ended: at the failure it reports, or, short of the budget,
   * because the model picked the end-of-sequence id.
   */
  lemma {:induction false} GeneratedEnds(lm: LanguageModel, context: seq<int>, budget: nat, temperature: real)
    ensures var r := Generated(lm, context, budget, temperature);
      && (r.failure.Some? ==> lm.next(context + r.ids, temperature) == Err(r.failure.value))
      && (r.failure.None? && |r.ids| < budget ==> lm.next(context + r.ids, temperature) == Ok(lm.eos))
    decreases budget
  {
    var r := Generated(lm, context, budget, temperature);
    if budget > 0 {
      if lm.next(context, temperature).Ok? && lm.next(context, temperature).value != lm.eos {
        var t := lm.next(context, temperature).value;
        var rest := Generated(lm, context + [t], budget - 1, temperature);
        GeneratedEnds(lm, context + [t], budget - 1, temperature);
        assert context + r.ids == (context + [t]) + rest.ids;
      } else {
        assert context + r.ids == context;
      }
    }
  }

  /** `_chat_stream`: the generation loop over the rendered prompt. */
  method ChatStream(lm: LanguageModel, messages: seq<PromptMessage>, maxNewTokens: nat, temperature: real)
    returns (run: TokenRun)
    ensures run == Generated(lm, lm.prompt(messages), maxNewTokens, temperature)
  {
    var input := lm.prompt(messages);
    var generated := input;
    var ids: seq<int> := [];
    var tokens: seq<string> := [];
    var step := 0;
    while step < maxNewTokens
      invariant 0 <= step <= maxNewTokens && generated == input + ids
      invariant var rest := Generated(lm, generated, maxNewTokens - step, temperature);
        Generated(lm, input, maxNewTokens, temperature) == TokenRun(ids + rest.ids, tokens + rest.tokens, rest.failure)
    {
      var next := lm.next(generated, temperature);
      if next.Err? {
        return TokenRun(ids, tokens, Some(next.error));
      }
      if next.value == lm.eos {
        break;
      }
      ghost var rest := Generated(lm, generated + [next.value], maxNewTokens - step - 1, temperature);
      assert ids + ([next.value] + rest.ids) == (ids + [next.value]) + rest.ids;
      assert tokens + ([lm.decode([next.value])] + rest.tokens) == (tokens + [lm.decode([next.value])]) + rest.tokens;
      generated := generated + [next.value];
      ids := ids + [next.value];
      tokens := tokens + [lm.decode([next.value])];
      step := step + 1;
    }
    return TokenRun(ids, tokens, None);
  }

  // ---------------------------------------------------------------------------
  // The event sequence (`generate_stream`)
  // ---------------------------------------------------------------------------

  datatype StreamEvent =
    | ThinkingStart
    | Thinking(token: string, text: string)
    | ThinkingComplete(text: string)
    | MessageStart
    | Message(token: string, text: string)
    | MessageComplete(text: string)
    | Error(message: string)

  /** The token event of a phase, carrying the text so far. */
  function TokenEvent(thinking: bool, token: string, text: string): StreamEvent
  {
    if thinking then Thinking(token, text) else Message(token, text)
  }

  /**
   * One phase: the start event, one token event per token with the text
   * generated so far, then the complete event or, when the model failed,
   * the error event.
   */
  function Phase(thinking: bool, run: TokenRun): (r: seq<StreamEvent>)
    ensures |r| == |run.tokens| + 2
  {
    [if thinking then ThinkingStart else MessageStart]
    + seq(|run.tokens|, i requires 0 <= i < |run.tokens| => TokenEvent(thinking, run.tokens[i], Concat(run.tokens[..i + 1])))
    + [match run.failure
       case Some(e) => Error(e)
       case None => if thinking then ThinkingComplete(Concat(run.tokens)) else MessageComplete(Concat(run.tokens))]
  }

  /** The thinking prompt: the conversation plus the step-by-step request. */
  function ThinkingMessages(message: string, conv: seq<PromptMessage>): seq<PromptMessage>
  {
    conv + [Says("user", ThinkingRequest(message))]
  }

  /** The answer prompt: the conversation plus the question itself. */
  function AnswerMessages(message: string, conv: seq<PromptMessage>): seq<PromptMessage>
  {
    conv + [Says("user", message)]
  }

  /** The thinking run: 300 tokens at temperature 0.7. */
  function ThinkingRun(lm: LanguageModel, message: string, conv: seq<PromptMessage>): TokenRun
  {
    Generated(lm, lm.prompt(ThinkingMessages(message, conv)), 300, 0.7)
  }

  /** The answer run, with the caller's budget and temperature. */
  function AnswerRun(lm: LanguageModel, message: string, conv: seq<PromptMessage>, maxTokens: nat, temperature: real): TokenRun
  {
    Generated(lm, lm.prompt(AnswerMessages(message, conv)), maxTokens, temperature)
  }

  /**
   * The phases over a conversation that was built. A model failure ends the
   * stream with an error event: after a failed thinking phase no answer is
   * generated.
   */
  function PhasedEvents(lm: LanguageModel, message: string, conv: seq<PromptMessage>, maxTokens: nat, temperature: real, includeThinking: bool): seq<StreamEvent>
  {
    var answer := Phase(false, AnswerRun(lm, message, conv, maxTokens, temperature));
    if !includeThinking then answer
    else
      var thinking := ThinkingRun(lm, message, conv);
      if thinking.failure.Some? then Phase(true, thinking) else Phase(true, thinking) + answer
  }

  /**
   * Everything `generate_stream` yields: a history that cannot be read
   * gives the single error event, before any phase starts.
   */
  function StreamEvents(lm: LanguageModel, message: string, history: seq<JsValue>, maxTokens: nat, temperature: real, includeThinking: bool): seq<StreamEvent>
  {
    match Conversation(history, includeThinking)
    case Err(e) => [Error(e)]
    case Ok(conv) => PhasedEvents(lm, message, conv, maxTokens, temperature, includeThinking)
  }

  /** `generate_stream`, with the events it yields collected in order. */
  method GenerateStream(lm: LanguageModel, message: string, history: seq<JsValue>, maxTokens: nat, temperature: real, includeThinking: bool)
    returns (events: seq<StreamEvent>)
    ensures events == StreamEvents(lm, message, history, maxTokens, temperature, includeThinking)
  {
    var built := BuildConversation(history, includeThinking);
    if built.Err? {
      return [Error(built.error)];
    }
    var messages := built.value;
    events := [];
    if includeThinking {
      var run := ChatStream(lm, ThinkingMessages(message, messages), 300, 0.7);
      var part := EmitPhase(true, run);
      events := part;
      if run.failure.Some? {
        return;
      }
    }
    var run := ChatStream(lm, AnswerMessages(message, messages), maxTokens, temperature);
    var part := EmitPhase(false, run);
    events := events + part;
  }

  /** One phase's loop: `text += token` and one event per token. */
  method EmitPhase(thinking: bool, run: TokenRun) returns (events: seq<StreamEvent>)
    ensures events == Phase(thinking, run)
  {
    events := [if thinking then ThinkingStart else MessageStart];
    var text := "";
    var i := 0;
    while i < |run.tokens|
      invariant 0 <= i <= |run.tokens| && |events| == i + 1
      invariant text == Concat(run.tokens[..i])
      invariant events[0] == (if thinking then ThinkingStart else MessageStart)
      invariant forall k :: 0 <= k < i ==> events[k + 1] == TokenEvent(thinking, run.tokens[k], Concat(run.tokens[..k + 1]))
    {
      ConcatTake(run.tokens, i);
      text := text + run.tokens[i];
      events := events + [TokenEvent(thinking, run.tokens[i], text)];
      i := i + 1;
    }
    assert run.tokens[..i] == run.tokens;
    if run.failure.Some? {
      events := events + [Error(run.failure.value)];
    } else if thinking {
      events := events + [ThinkingComplete(text)];
    } else {
      events := events + [MessageComplete(text)];
    }
  }

  // ---------------------------------------------------------------------------
  // Properties of the event sequence
  // ---------------------------------------------------------------------------

  function ThinkingToken(e: StreamEvent): Option<string>
  {
    if e.Thinking? then Some(e.token) else None
  }

  function MessageToken(e: StreamEvent): Option<string>
  {
    if e.Message? then Some(e.token) else None
  }

  /** The token a phase's own events carry. */
  function PhaseToken(thinking: bool): StreamEvent -> Option<string>
  {
    if thinking then ThinkingToken else MessageToken
  }

  /** The token the other phase's events carry. */
  function OtherToken(thinking: bool): StreamEvent -> Option<string>
  {
    if thinking then MessageToken else ThinkingToken
  }

  /** A token event counts for its own phase only. */
  lemma TokenEventTokens(thinking: bool, token: string, text: string)
    ensures FilterMap(PhaseToken(thinking), [TokenEvent(thinking, token, text)]) == [token]
    ensures FilterMap(OtherToken(thinking), [TokenEvent(thinking, token, text)]) == []
  {
    var e := [TokenEvent(thinking, token, text)];
    assert e[1..] == [];
  }

  /** The tokens of the thinking events, in order. */
  function ThinkingTokens(events: seq<StreamEvent>): seq<string>
  {
    FilterMap(ThinkingToken, events)
  }

  /** The tokens of the message events, in order. */
  function MessageTokens(events: seq<StreamEvent>): seq<string>
  {
    FilterMap(MessageToken, events)
  }

  lemma {:induction false} FilterMapAppend<A, B>(f: A -> Option<B>, xs: seq<A>, ys: seq<A>)
    ensures FilterMap(f, xs + ys) == FilterMap(f, xs) + FilterMap(f, ys)
    decreases |xs|
  {
    if |xs| > 0 {
      assert (xs + ys)[1..] == xs[1..] + ys;
      FilterMapAppend(f, xs[1..], ys);
    } else {
      assert xs + ys == ys;
    }
  }

  /**
   * The events of one phase up to and including position `j` carry that
   * phase's first tokens and none of the other phase's.
   */
  lemma {:induction false} PhasePrefixTokens(thinking: bool, run: TokenRun, j: nat)
    requires j <= |run.tokens|
    ensures var p := Phase(thinking, run)[..j + 1];
      && FilterMap(PhaseToken(thinking), p) == run.tokens[..j]
      && FilterMap(OtherToken(thinking), p) == []
    decreases j
  {
    var f, g := PhaseToken(thinking), OtherToken(thinking);
    var full := Phase(thinking, run);
    if j == 0 {
      assert full[..1] == [full[0]];
    } else {
      PhasePrefixTokens(thinking, run, j - 1);
      TakeSnoc(full, j);
      FilterMapAppend(f, full[..j], [full[j]]);
      FilterMapAppend(g, full[..j], [full[j]]);
      assert full[j] == TokenEvent(thinking, run.tokens[j - 1], Concat(run.tokens[..j]));
      TokenEventTokens(thinking, run.tokens[j - 1], Concat(run.tokens[..j]));
      TakeSnoc(run.tokens, j - 1);
    }
  }

  /** A whole phase carries exactly its tokens. */
  lemma PhaseTokens(thinking: bool, run: TokenRun)
    ensures ThinkingTokens(Phase(thinking, run)) == (if thinking then run.tokens else [])
    ensures MessageTokens(Phase(thinking, run)) == (if thinking then [] else run.tokens)
  {
    var full := Phase(thinking, run);
    var n := |run.tokens|;
    PhasePrefixTokens(thinking, run, n);
    assert full == full[..n + 1] + [full[n + 1]];
    FilterMapAppend(ThinkingToken, full[..n + 1], [full[n + 1]]);
    FilterMapAppend(MessageToken, full[..n + 1], [full[n + 1]]);
    assert run.tokens[..n] == run.tokens;
  }

  /**
   * Inside a phase, every token event's text is the concatenation of the
   * phase's tokens up to and including it, and the complete event's text
   * is all of them: the text of the last token event, or "" when there is
   * none.
   */
  lemma PhaseTexts(thinking: bool, run: TokenRun)
    ensures var p := Phase(thinking, run);
      forall j :: 1 <= j <= |run.tokens| ==>
        p[j] == TokenEvent(thinking, run.tokens[j - 1], Concat(FilterMap(PhaseToken(thinking), p[..j + 1])))
    ensures run.failure.None? ==>
      Last(Phase(thinking, run)) == (if thinking then ThinkingComplete(Concat(run.tokens)) else MessageComplete(Concat(run.tokens)))
    ensures run.failure.None? && |run.tokens| > 0 ==> Last(Phase(thinking, run)).text == Phase(thinking, run)[|run.tokens|].text
    ensures run.failure.Some? ==> Last(Phase(thinking, run)) == Error(run.failure.value)
  {
    var p := Phase(thinking, run);
    forall j | 1 <= j <= |run.tokens|
      ensures p[j] == TokenEvent(thinking, run.tokens[j - 1], Concat(FilterMap(PhaseToken(thinking), p[..j + 1])))
    {
      PhasePrefixTokens(thinking, run, j);
    }
    if |run.tokens| > 0 {
      assert run.tokens[..|run.tokens|] == run.tokens;
    }
  }

  predicate IsThinkingEvent(e: StreamEvent)
  {
    e.ThinkingStart? || e.Thinking? || e.ThinkingComplete?
  }

  predicate IsMessageEvent(e: StreamEvent)
  {
    e.MessageStart? || e.Message? || e.MessageComplete?
  }

  /** A phase opens with its start event, ends with its complete event or an error, and holds only its own kind of event. */
  lemma PhaseShape(thinking: bool, run: TokenRun)
    ensures var p := Phase(thinking, run);
      && p[0] == (if thinking then ThinkingStart else MessageStart)
      && (forall i :: 0 <= i < |p| - 1 ==> (if thinking then IsThinkingEvent(p[i]) else IsMessageEvent(p[i])))
      && (Last(p).Error? || (if thinking then Last(p).ThinkingComplete? else Last(p).MessageComplete?))
      && (forall i :: 0 <= i < |p| ==> p[i].Error? || (if thinking then IsThinkingEvent(p[i]) else IsMessageEvent(p[i])))
  {
  }

  /** Only the last event may be an error. */
  predicate ErrorOnlyLast(ev: seq<StreamEvent>)
  {
    forall i :: 0 <= i < |ev| - 1 ==> !ev[i].Error?
  }

  /** No thinking event comes after an answer event. */
  predicate ThinkingFirst(ev: seq<StreamEvent>)
  {
    forall i, j :: 0 <= i < j < |ev| && IsMessageEvent(ev[i]) ==> !IsThinkingEvent(ev[j])
  }

  lemma PhaseOrder(thinking: bool, run: TokenRun)
    ensures ErrorOnlyLast(Phase(thinking, run)) && ThinkingFirst(Phase(thinking, run))
    ensures !thinking ==> forall i :: 0 <= i < |Phase(thinking, run)| ==> !IsThinkingEvent(Phase(thinking, run)[i])
  {
    PhaseShape(thinking, run);
  }

  /** A thinking phase that ended normally followed by an answer phase keeps the order. */
  lemma PhasesOrder(th: seq<StreamEvent>, answer: seq<StreamEvent>)
    requires |th| > 0 && |answer| > 0 && !Last(th).Error?
    requires ErrorOnlyLast(th) && ErrorOnlyLast(answer) && ThinkingFirst(answer)
    requires forall i :: 0 <= i < |th| ==> !IsMessageEvent(th[i])
    requires forall i :: 0 <= i < |answer| ==> !IsThinkingEvent(answer[i])
    ensures ErrorOnlyLast(th + answer) && ThinkingFirst(th + answer)
  {
    var ev := th + answer;
    forall i | 0 <= i < |ev| - 1
      ensures !ev[i].Error?
    {
      if i >= |th| {
        assert ev[i] == answer[i - |th|];
      } else {
        assert ev[i] == th[i];
      }
    }
    forall i, j | 0 <= i < j < |ev| && IsMessageEvent(ev[i])
      ensures !IsThinkingEvent(ev[j])
    {
      assert ev[j] == answer[j - |th|];
    }
  }

  /**
   * The order of the events: a history that cannot be read gives the single
   * error event; otherwise the stream opens with the thinking phase when it
   * is asked for and with the answer otherwise; an error event can only be
   * the last one; a stream without an error ends with the answer's complete
   * event; and no thinking event follows an answer event.
   */
  lemma StreamOrder(lm: LanguageModel, message: string, history: seq<JsValue>, maxTokens: nat, temperature: real, includeThinking: bool)
    ensures var ev := StreamEvents(lm, message, history, maxTokens, temperature, includeThinking);
      && (Conversation(history, includeThinking).Err? ==> ev == [Error(Conversation(history, includeThinking).error)])
      && (Conversation(history, includeThinking).Ok? ==>
            && |ev| >= 2
            && ev[0] == (if includeThinking then ThinkingStart else MessageStart)
            && (!Last(ev).Error? ==> Last(ev).MessageComplete?))
      && ErrorOnlyLast(ev)
      && ThinkingFirst(ev)
      && (!includeThinking ==> forall i :: 0 <= i < |ev| ==> !IsThinkingEvent(ev[i]))
  {
    if Conversation(history, includeThinking).Ok? {
      var conv := Conversation(history, includeThinking).value;
      var ans := AnswerRun(lm, message, conv, maxTokens, temperature);
      var answer := Phase(false, ans);
      PhaseShape(false, ans);
      PhaseOrder(false, ans);
      if includeThinking {
        var thr := ThinkingRun(lm, message, conv);
        var th := Phase(true, thr);
        PhaseShape(true, thr);
        PhaseOrder(true, thr);
        if thr.failure.None? {
          PhasesOrder(th, answer);
          assert Last(th + answer) == Last(answer);
          assert (th + answer)[0] == th[0];
        }
      }
    }
  }

  /**
   * What a reader of the stream sees: the texts of the complete events are
   * the concatenation of their phase's tokens, and the answer carries the
   * answer run's tokens and no thinking token, whatever the thinking phase did.
   */
  lemma StreamTokens(lm: LanguageModel, message: string, conv: seq<PromptMessage>, maxTokens: nat, temperature: real, includeThinking: bool)
    ensures var ev := PhasedEvents(lm, message, conv, maxTokens, temperature, includeThinking);
      var th := ThinkingRun(lm, message, conv);
      var ans := AnswerRun(lm, message, conv, maxTokens, temperature);
      && ThinkingTokens(ev) == (if includeThinking then th.tokens else [])
      && MessageTokens(ev) == (if includeThinking && th.failure.Some? then [] else ans.tokens)
  {
    var th := ThinkingRun(lm, message, conv);
    var ans := AnswerRun(lm, message, conv, maxTokens, temperature);
    PhaseTokens(true, th);
    PhaseTokens(false, ans);
    if includeThinking && th.failure.None? {
      FilterMapAppend(ThinkingToken, Phase(true, th), Phase(false, ans));
      FilterMapAppend(MessageToken, Phase(true, th), Phase(false, ans));
    }
  }

  // ---------------------------------------------------------------------------
  // The non-streaming answer (`ChatGenerator.generate`)
  // ---------------------------------------------------------------------------

  datatype ChatResult = ChatResult(message: string, model: string, timestamp: string, thinking: Option<string>)

  /**
   * `generate`: the same prompts answered in one call each; the thinking
   * text is attached only when it is non-empty. A history that cannot be
   * read and a failing model call raise, and the error is passed on. `now`
   * is the timestamp read from the clock.
   */
  function Respond(lm: LanguageModel, message: string, history: seq<JsValue>, maxTokens: nat, temperature: real, includeThinking: bool, now: string): (r: Result<ChatResult, string>)
    ensures Conversation(history, includeThinking).Err? ==> r == Err(Conversation(history, includeThinking).error)
    ensures Conversation(history, includeThinking).Ok? ==>
      var conv := Conversation(history, includeThinking).value;
      var th := Chat(lm, ChatCall(ThinkingMessages(message, conv), 300, 0.7));
      var ans := Chat(lm, ChatCall(AnswerMessages(message, conv), maxTokens, temperature));
      && (includeThinking && th.Err? ==> r == Err(th.error))
      && (!(includeThinking && th.Err?) && ans.Err? ==> r == Err(ans.error))
      && (r.Ok? <==> (!includeThinking || th.Ok?) && ans.Ok?)
      && (r.Ok? ==>
            && r.value.message == ans.value
            && (r.value.thinking.Some? <==> includeThinking && |th.value| > 0)
            && (r.value.thinking.Some? ==> r.value.thinking.value == th.value))
    ensures r.Ok? ==> r.value.model == "Qwen2.5-7B-Instruct" && r.value.timestamp == now
    ensures r.Ok? && r.value.thinking.Some? ==> includeThinking && |r.value.thinking.value| > 0
  {
    match Conversation(history, includeThinking)
    case Err(e) => Err(e)
    case Ok(conv) =>
      var thinking := if includeThinking then Chat(lm, ChatCall(ThinkingMessages(message, conv), 300, 0.7)) else Ok("");
      if thinking.Err? then Err(thinking.error)
      else
        match Chat(lm, ChatCall(AnswerMessages(message, conv), maxTokens, temperature))
        case Err(e) => Err(e)
        case Ok(answer) =>
          Ok(ChatResult(answer, "Qwen2.5-7B-Instruct", now, if |thinking.value| > 0 then Some(thinking.value) else None))
  }
}
