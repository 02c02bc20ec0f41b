// The chat page: the greeting and date labels it shows, the history it
// sends with a new message, the titles it gives new chats, and what one
// send does to the conversation.  The clock, the streaming request and its
// fallback are parameters: their outcome arrives as a value.

module Chat {
  import opened Wrappers
  import opened Strings
  import opened Js

  // ---------------------------------------------------------------------------
  // Labels
  // ---------------------------------------------------------------------------

  /** The greeting for the hour of the day. */
  function Greeting(hour: int): (g: string)
    ensures hour < 12 ==> g == "Good Morning"
    ensures 12 <= hour < 18 ==> g == "Good Afternoon"
    ensures 18 <= hour ==> g == "Good Evening"
  {
    if hour < 12 then "Good Morning" else if hour < 18 then "Good Afternoon" else "Good Evening"
  }

  const DayMs: nat := 1000 * 60 * 60 * 24

  /** Whole days, rounded up, between two instants in milliseconds. */
  function DiffDays(now: int, date: int): (d: nat)
    ensures d * DayMs >= if now >= date then now - date else date - now
    ensures d == 0 || (d - 1) * DayMs < if now >= date then now - date else date - now
  {
    var diff := if now >= date then now - date else date - now;
    (diff + DayMs - 1) / DayMs
  }

  /**
   * The label of a chat's date: empty without a date, then "Today",
   * "Yesterday", "<n> days ago" below a week, else the locale's date.
   */
  function FormatDate(date: Option<int>, now: int, localeDate: string): (r: string)
    ensures date.None? ==> r == ""
    ensures date.Some? && DiffDays(now, date.value) == 1 ==> r == "Today"
    ensures date.Some? && DiffDays(now, date.value) == 2 ==> r == "Yesterday"
    ensures date.Some? && DiffDays(now, date.value) !in {1, 2} && DiffDays(now, date.value) < 7 ==>
      r == NatToString(DiffDays(now, date.value)) + " days ago"
    ensures date.Some? && DiffDays(now, date.value) >= 7 ==> r == localeDate
  {
    if date.None? then ""
    else
      var days := DiffDays(now, date.value);
      if days == 1 then "Today"
      else if days == 2 then "Yesterday"
      else if days < 7 then NatToString(days) + " days ago"
      else localeDate
  }

  /**
   * Anything within the last day, up to and including 24 hours, is "Today";
   * the same instant is "0 days ago"; the next day is "Yesterday".
   */
  lemma DateBands(now: int, date: int, localeDate: string)
    ensures date < now <= date + DayMs ==> FormatDate(Some(date), now, localeDate) == "Today"
    ensures date == now ==> FormatDate(Some(date), now, localeDate) == "0 days ago"
    ensures date + DayMs < now <= date + 2 * DayMs ==> FormatDate(Some(date), now, localeDate) == "Yesterday"
  {
    if date == now {
      assert DiffDays(now, date) == 0;
      assert NatToString(0) == "0";
    }
  }

  // ---------------------------------------------------------------------------
  // Messages
  // ---------------------------------------------------------------------------

  datatype Message = Message(id: int, role: string, content: JsValue, thinking: JsValue)

  /** What the API receives for a message. */
  datatype Turn = Turn(role: string, content: JsValue)

  /** The prior conversation as sent: system messages removed, roles and contents kept, in order. */
  function HistoryMessages(messages: seq<Message>): (r: seq<Turn>)
    ensures |r| <= |messages|
    ensures forall i :: 0 <= i < |r| ==> r[i].role != "system"
    ensures forall t :: t in r <==> exists m :: m in messages && m.role != "system" && t == Turn(m.role, m.content)
  {
    if |messages| == 0 then []
    else
      var rest := HistoryMessages(messages[1..]);
      assert forall m :: m in messages[1..] ==> m in messages;
      assert forall m :: m in messages ==> m == messages[0] || m in messages[1..];
      if messages[0].role == "system" then rest
      else [Turn(messages[0].role, messages[0].content)] + rest
  }

  /** One message is sent as its turn, unless it is a system message. */
  lemma HistoryOfOne(m: Message)
    ensures HistoryMessages([m]) == if m.role == "system" then [] else [Turn(m.role, m.content)]
  {
    assert [m][1..] == [];
  }

  /**
   * The history of a concatenation is the concatenation of the histories:
   * with HistoryOfOne, the history keeps the non-system messages in their
   * order, each once per occurrence.
   */
  lemma {:induction false} HistoryAppend(a: seq<Message>, b: seq<Message>)
    ensures HistoryMessages(a + b) == HistoryMessages(a) + HistoryMessages(b)
  {
    if |a| > 0 {
      assert (a + b)[1..] == a[1..] + b;
      assert (a + b)[0] == a[0];
      HistoryAppend(a[1..], b);
    } else {
      assert a + b == b;
    }
  }

  /** A conversation without system messages is sent whole. */
  lemma {:induction false} HistoryKeepsConversation(messages: seq<Message>)
    requires forall i :: 0 <= i < |messages| ==> messages[i].role != "system"
    ensures |HistoryMessages(messages)| == |messages|
    ensures forall i :: 0 <= i < |messages| ==> HistoryMessages(messages)[i] == Turn(messages[i].role, messages[i].content)
  {
    if |messages| > 0 {
      HistoryKeepsConversation(messages[1..]);
    }
  }

  const TitleLength: nat := 50

  /**
   * The title a new chat is created with: the first 50 UTF-16 code units,
   * with "..." only when the text was longer.
   */
  function CreationTitle(text: string): (t: string)
    ensures Utf16Length(text) <= TitleLength ==> t == text
    ensures Utf16Length(text) > TitleLength ==>
      && |t| >= 3 && t[|t| - 3..] == "..."
      && var cut := t[..|t| - 3];
      && cut < text && TitleLength - 1 <= Utf16Length(cut) <= TitleLength
    ensures InBmp(text) && |text| > TitleLength ==> t == text[..TitleLength] + "..."
  {
    var cut := Utf16Prefix(text, TitleLength);
    assert (cut + "...")[..|cut|] == cut && (cut + "...")[|cut|..] == "...";
    assert InBmp(text) ==> cut == Prefix(text, TitleLength) && Utf16Length(text) == |text| by {
      if InBmp(text) {
        Utf16PrefixBmp(text, TitleLength);
        Utf16LengthBmp(text);
      }
    }
    if Utf16Length(text) > TitleLength then cut + "..." else cut
  }

  /**
   * The sidebar title on the fallback path: the server's title, else the
   * first 50 UTF-16 code units and "...", whatever the text's length.
   */
  function FallbackTitle(serverTitle: JsValue, text: string): (r: JsValue)
    ensures Truthy(serverTitle) ==> r == serverTitle
    ensures !Truthy(serverTitle) ==> r.Str? && r.s == Utf16Prefix(text, TitleLength) + "..."
    ensures !Truthy(serverTitle) && Utf16Length(text) <= TitleLength ==> r == Str(text + "...")
  {
    Or(serverTitle, Str(Utf16Prefix(text, TitleLength) + "..."))
  }

  /** Without a server title the two paths disagree on every short message: only the fallback adds "...". */
  lemma TitlesDisagreeOnShortMessages(text: string)
    requires Utf16Length(text) <= TitleLength
    ensures CreationTitle(text) == text
    ensures FallbackTitle(Undefined, text) == Str(text + "...")
  {
  }

  /** `input.trim()` is non-empty and nothing is being loaded or streamed. */
  predicate CanSend(input: string, isLoading: bool, isStreaming: bool)
  {
    |JsTrim(input)| > 0 && !isLoading && !isStreaming
  }

  /** A send is allowed exactly when the input has a non-whitespace character and the page is idle. */
  lemma CanSendIffNonBlank(input: string, isLoading: bool, isStreaming: bool)
    ensures CanSend(input, isLoading, isStreaming) <==>
      (exists i :: 0 <= i < |input| && !IsJsWhitespace(input[i])) && !isLoading && !isStreaming
  {
    StripEmptyIffBlank(input, IsJsWhitespace);
  }

  // ---------------------------------------------------------------------------
  // One send
  // ---------------------------------------------------------------------------

  /** How the request for a reply ended. */
  datatype Outcome =
    /** The stream finished: its result and the last texts the callbacks saw. */
    | Streamed(message: JsValue, thinking: JsValue, finalMessage: string, finalThinking: string)
    /** The stream failed and the plain request answered with this body. */
    | Fallback(response: map<string, JsValue>)
    /** Both failed; the error's message. */
    | Failed(errorMessage: string)

  const NoReply := "Sorry, I couldn't" + " generate a response."
  const FailedReply := "Failed to get response." + " Please try again."

  /**
   * The assistant's message for an answered request, or the error message
   * shown instead; `later` is the clock read once the requests have settled.
   */
  function Reply(outcome: Outcome, later: int): (m: Message)
    ensures m.role == "assistant" && m.id == later + 1
    ensures outcome.Failed? ==> m.content == Str("Error: " + (if |outcome.errorMessage| > 0 then outcome.errorMessage else FailedReply))
  {
    match outcome
    case Streamed(message, thinking, finalMessage, finalThinking) =>
      Message(later + 1, "assistant", Or(message, Str(finalMessage)), Or(Or(thinking, Str(finalThinking)), Null))
    case Fallback(response) =>
      var body := Obj(response);
      Message(later + 1, "assistant",
        Or(Or(Prop(body, "message"), Prop(body, "content")), Str(NoReply)),
        Or(Or(Prop(body, "thinking"), Prop(body, "thought")), Null))
    case Failed(e) =>
      Message(later + 1, "assistant", Str("Error: " + (if |e| > 0 then e else FailedReply)), Undefined)
  }

  /** The streamed reply's text is the result's message, else the last streamed text; thinking falls back to null. */
  lemma StreamedReply(message: JsValue, thinking: JsValue, finalMessage: string, finalThinking: string, later: int)
    ensures var m := Reply(Streamed(message, thinking, finalMessage, finalThinking), later);
      (Truthy(message) ==> m.content == message) &&
      (!Truthy(message) ==> m.content == Str(finalMessage)) &&
      (!Truthy(thinking) && finalThinking == "" ==> m.thinking == Null) &&
      (Truthy(thinking) ==> m.thinking == thinking)
  {
  }

  /** The page's conversation state. */
  datatype Session = Session(messages: seq<Message>, input: string, isLoading: bool, isStreaming: bool, isThinking: bool)

  /**
   * A send as written: the user's message and the reply are appended, but
   * when both requests fail loading is never switched off, because the
   * final clean-up tests the value `isLoading` had when the click began,
   * which the send guard has just required to be false.
   */
  function AfterSendAsWritten(s: Session, now: int, later: int, outcome: Outcome): (r: Session)
    requires CanSend(s.input, s.isLoading, s.isStreaming)
    ensures r.messages == s.messages + [Message(now, "user", Str(JsTrim(s.input)), Undefined), Reply(outcome, later)]
    ensures r.isLoading <==> outcome.Failed?
    ensures !r.isStreaming && !r.isThinking && r.input == ""
  {
    var user := Message(now, "user", Str(JsTrim(s.input)), Undefined);
    Session(s.messages + [user, Reply(outcome, later)], "", outcome.Failed?, false, false)
  }

  /**
   * Once both requests have failed, every later send is ignored until
   * another chat is loaded (see LoadUnsticks).
   */
  lemma StuckAfterFailure(s: Session, now: int, later: int, e: string, input: string)
    requires CanSend(s.input, s.isLoading, s.isStreaming)
    ensures AfterSendAsWritten(s, now, later, Failed(e)).isLoading
    ensures !CanSend(input, AfterSendAsWritten(s, now, later, Failed(e)).isLoading, AfterSendAsWritten(s, now, later, Failed(e)).isStreaming)
  {
  }

  /**
   * `loadChat`: loading is switched on, the stored chat's messages replace
   * the conversation when the server returns one (`loaded`, their ids
   * taken from the clock), and the `finally` block switches loading off
   * whatever happened.
   */
  function AfterLoadChat(s: Session, loaded: Option<seq<Message>>): (r: Session)
    ensures !r.isLoading
    ensures r.messages == (if loaded.Some? then loaded.value else s.messages)
    ensures r.input == s.input && r.isStreaming == s.isStreaming && r.isThinking == s.isThinking
  {
    var messages := if loaded.Some? then loaded.value else s.messages;
    s.(messages := messages, isLoading := false)
  }

  /** Loading another chat, or failing to, frees the page a double failure left stuck. */
  lemma LoadUnsticks(s: Session, now: int, later: int, e: string, loaded: Option<seq<Message>>, input: string)
    requires CanSend(s.input, s.isLoading, s.isStreaming)
    requires |JsTrim(input)| > 0
    ensures var stuck := AfterSendAsWritten(s, now, later, Failed(e));
      CanSend(input, AfterLoadChat(stuck, loaded).isLoading, AfterLoadChat(stuck, loaded).isStreaming)
  {
  }

  /** A send with loading switched off on every path, as the other paths do. */
  function AfterSend(s: Session, now: int, later: int, outcome: Outcome): (r: Session)
    requires CanSend(s.input, s.isLoading, s.isStreaming)
    ensures r.messages == s.messages + [Message(now, "user", Str(JsTrim(s.input)), Undefined), Reply(outcome, later)]
    ensures !r.isLoading && !r.isStreaming && !r.isThinking && r.input == ""
  {
    var user := Message(now, "user", Str(JsTrim(s.input)), Undefined);
    Session(s.messages + [user, Reply(outcome, later)], "", false, false, false)
  }

  /** AfterSend written out: the two new messages, and every flag off. */
  lemma AfterSendIs(s: Session, now: int, later: int, outcome: Outcome)
    requires CanSend(s.input, s.isLoading, s.isStreaming)
    ensures AfterSend(s, now, later, outcome) ==
      Session(s.messages + [Message(now, "user", Str(JsTrim(s.input)), Undefined), Reply(outcome, later)], "", false, false, false)
  {
  }

  /** After any send a non-blank input can be sent again. */
  lemma SendCanRepeat(s: Session, now: int, later: int, outcome: Outcome, input: string)
    requires CanSend(s.input, s.isLoading, s.isStreaming)
    requires |JsTrim(input)| > 0
    ensures CanSend(input, AfterSend(s, now, later, outcome).isLoading, AfterSend(s, now, later, outcome).isStreaming)
  {
  }

  /** The outcomes agree except on loading after a double failure. */
  lemma SendFixOnlyLoading(s: Session, now: int, later: int, outcome: Outcome)
    requires CanSend(s.input, s.isLoading, s.isStreaming)
    ensures AfterSendAsWritten(s, now, later, outcome) == AfterSend(s, now, later, outcome).(isLoading := outcome.Failed?)
  {
  }

  class ChatPage {
    var messages: seq<Message>
    var input: string
    var isLoading: bool
    var isStreaming: bool
    var isThinking: bool

    constructor()
      ensures Snapshot() == Session([], "", false, false, false)
    {
      messages := [];
      input := "";
      isLoading := false;
      isStreaming := false;
      isThinking := false;
    }

    function Snapshot(): Session
      reads this
    {
      Session(messages, input, isLoading, isStreaming, isThinking)
    }

    /**
     * The send button.  Ignored for blank input or while loading or
     * streaming.  `request` is the text and history sent, taken from the
     * conversation before the new message is added.  `now` is the clock
     * read when the click is handled, `later` the one read once the
     * requests have settled.
     */
    method Send(now: int, later: int, outcome: Outcome) returns (request: Option<(string, seq<Turn>)>)
      modifies this
      ensures old(CanSend(input, isLoading, isStreaming)) ==>
        Snapshot() == AfterSend(old(Snapshot()), now, later, outcome) &&
        request == Some((JsTrim(old(input)), HistoryMessages(old(messages))))
      ensures !old(CanSend(input, isLoading, isStreaming)) ==> Snapshot() == old(Snapshot()) && request == None
    {
      if |JsTrim(input)| == 0 || isLoading || isStreaming {
        return None;
      }
      ghost var before := Snapshot();
      var text := JsTrim(input);
      var user := Message(now, "user", Str(text), Undefined);
      request := Some((text, HistoryMessages(messages)));
      var reply := Reply(outcome, later);
      ghost var after := Session(before.messages + [user, reply], "", false, false, false);
      AfterSendIs(before, now, later, outcome);
      messages := messages + [user, reply];
      input := "";
      isStreaming := false;
      isThinking := false;
      isLoading := false;
      assert Snapshot() == after;
    }
  }
}
