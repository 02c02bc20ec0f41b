/**
 * The batch generators of the AI service: summary, quiz and flashcard
 * generation over a document's token ids. Each one refuses inputs above
 * 120 000 tokens, cuts the ids into overlapping windows (at most a fixed
 * number of them), asks the language model once per window ("map") and
 * once more over the joined answers ("reduce"). The tokenizer and the
 * language model are values passed in.
 */
module SpecializedModels {
  import opened Wrappers
  import opened Strings
  import opened Js

  // ---------------------------------------------------------------------------
  // The language model as seen by the generators
  // ---------------------------------------------------------------------------

  /**
   * One `{"role": …, "content": …}` entry of a chat prompt. The generators
   * write strings; the chat copies whatever JSON values the history holds.
   */
  datatype PromptMessage = PromptMessage(role: JsValue, content: JsValue)

  /** An entry whose role and content are strings. */
  function Says(role: string, content: string): PromptMessage
  {
    PromptMessage(Str(role), Str(content))
  }

  /** One request to the model: the prompt and the sampling settings. */
  datatype ChatCall = ChatCall(messages: seq<PromptMessage>, maxNewTokens: nat, temperature: real)

  /**
   * The tokenizer and the model. `complete` stands for rendering the chat
   * template, generating and decoding the new tokens, or the exception
   * this raised; `prompt` renders and tokenizes the template, and `next`
   * picks the token that follows a context (sampling when the temperature
   * is positive) or fails.
   */
  datatype LanguageModel = LanguageModel(
    encode: string -> seq<int>,
    decode: seq<int> -> string,
    complete: ChatCall -> Result<string, string>,
    prompt: seq<PromptMessage> -> seq<int>,
    next: (seq<int>, real) -> Result<int, string>,
    eos: int)

  /** `_chat`: the model's completion, stripped, or the text of the exception it raised. */
  function Chat(lm: LanguageModel, call: ChatCall): Result<string, string>
  {
    match lm.complete(call)
    case Ok(text) => Ok(PyStrip(text))
    case Err(e) => Err(e)
  }

  /** A completion is already stripped: stripping it again changes nothing. */
  lemma ChatIsStripped(lm: LanguageModel, call: ChatCall)
    requires Chat(lm, call).Ok?
    ensures PyStrip(Chat(lm, call).value) == Chat(lm, call).value
  {
    StripOfStripped(PyStrip(lm.complete(call).value), IsPyWhitespace);
  }

  /** The model answers every one of `calls`. */
  predicate Answered(lm: LanguageModel, calls: seq<ChatCall>)
  {
    forall i :: 0 <= i < |calls| ==> Chat(lm, calls[i]).Ok?
  }

  // ---------------------------------------------------------------------------
  // Token windows (`_chunk_by_tokens`)
  // ---------------------------------------------------------------------------

  datatype Kind = Summary | Quiz | Flashcards

  const MaxInputTokens: nat := 120000

  /** `MAX_CHUNKS` of each generator class. */
  function MaxChunks(kind: Kind): nat
  {
    match kind
    case Summary => 24
    case Quiz => 20
    case Flashcards => 20
  }

  /** The ids `[start, end)` that one chunk decodes. */
  datatype Window = Window(start: nat, end: nat)

  /** Every window lies within the `n` ids. */
  predicate WithinIds(ws: seq<Window>, n: nat)
  {
    forall i :: 0 <= i < |ws| ==> ws[i].start <= ws[i].end <= n
  }

  /** Every window is `[start, min(start + size, n))`. */
  predicate Sized(ws: seq<Window>, size: nat, n: nat)
  {
    forall i :: 0 <= i < |ws| ==> ws[i].end == Min(ws[i].start + size, n)
  }

  /** Every window but the last ends before `n`, and the next one starts `overlap` ids before that end. */
  predicate Chained(ws: seq<Window>, overlap: nat, n: nat)
  {
    forall i :: 0 <= i < |ws| - 1 ==> ws[i].end < n && ws[i + 1].start == Max(0, ws[i].end - overlap)
  }

  /**
   * The windows the chunking loop visits from `start` on, when `made`
   * chunks already exist: each is `[start, min(start + size, n))`, the
   * next one starts `overlap` ids before the previous end, and the loop
   * stops at the end of the ids or once `cap` chunks exist.
   */
  function WindowsFrom(start: nat, n: nat, size: nat, overlap: nat, made: nat, cap: nat): (r: seq<Window>)
    ensures WithinIds(r, n)
    decreases cap - made
  {
    if start >= n then []
    else
      var end := Min(start + size, n);
      if end == n || made + 1 >= cap then [Window(start, end)]
      else
        var rest := WindowsFrom(Max(0, end - overlap), n, size, overlap, made + 1, cap);
        assert WithinIds([Window(start, end)] + rest, n) by {
          forall i | 1 <= i < |rest| + 1
            ensures ([Window(start, end)] + rest)[i].end <= n
          {
            assert ([Window(start, end)] + rest)[i] == rest[i - 1];
          }
        }
        [Window(start, end)] + rest
  }

  function Windows(n: nat, size: nat, overlap: nat, cap: nat): (r: seq<Window>)
    ensures WithinIds(r, n)
  {
    WindowsFrom(0, n, size, overlap, 0, cap)
  }

  /** The decoded text of each window, in order. */
  function DecodeWindows(ids: seq<int>, ws: seq<Window>, decode: seq<int> -> string): (r: seq<string>)
    requires WithinIds(ws, |ids|)
    ensures |r| == |ws|
  {
    seq(|ws|, i requires 0 <= i < |ws| => decode(ids[ws[i].start..ws[i].end]))
  }

  /** `_chunk_by_tokens(ids, max_tokens, overlap)` with the class's `MAX_CHUNKS` as `cap`. */
  method ChunkByTokens(ids: seq<int>, maxTokens: nat, overlap: nat, cap: nat, decode: seq<int> -> string)
    returns (chunks: seq<string>)
    ensures chunks == DecodeWindows(ids, Windows(|ids|, maxTokens, overlap, cap), decode)
  {
    var n := |ids|;
    chunks := [];
    var start: nat := 0;
    ghost var all := Windows(n, maxTokens, overlap, cap);
    ghost var done: seq<Window> := [];
    while start < n
      invariant WithinIds(done, n)
      invariant all == done + WindowsFrom(start, n, maxTokens, overlap, |done|, cap)
      invariant chunks == DecodeWindows(ids, done, decode)
      invariant |done| < cap || |done| == 0
      decreases cap - |done|
    {
      var end := Min(start + maxTokens, n);
      WindowsAfter(all, done, start, n, maxTokens, overlap, cap);
      DecodeWindowsSnoc(ids, done, Window(start, end), decode);
      chunks := chunks + [decode(ids[start..end])];
      done := done + [Window(start, end)];
      if end == n || |chunks| >= cap {
        assert all == done;
        return;
      }
      start := Max(0, end - overlap);
      assert all == done + WindowsFrom(start, n, maxTokens, overlap, |done|, cap);
    }
  }

  /** The windows left after the loop's next window. */
  lemma WindowsAfter(all: seq<Window>, done: seq<Window>, start: nat, n: nat, size: nat, overlap: nat, cap: nat)
    requires start < n
    requires all == done + WindowsFrom(start, n, size, overlap, |done|, cap)
    ensures var end := Min(start + size, n);
      var done' := done + [Window(start, end)];
      && (end == n || |done'| >= cap ==> all == done')
      && (end < n && |done'| < cap ==> all == done' + WindowsFrom(Max(0, end - overlap), n, size, overlap, |done'|, cap))
  {
    var end := Min(start + size, n);
    var w := Window(start, end);
    WindowsStep(start, n, size, overlap, |done|, cap);
    if end == n || |done| + 1 >= cap {
      assert all == done + [w];
    } else {
      AppendAssoc(done, [w], WindowsFrom(Max(0, end - overlap), n, size, overlap, |done| + 1, cap));
    }
  }

  /** One step of the window sequence. */
  lemma WindowsStep(start: nat, n: nat, size: nat, overlap: nat, made: nat, cap: nat)
    requires start < n
    ensures var end := Min(start + size, n);
      var r := WindowsFrom(start, n, size, overlap, made, cap);
      && (end == n || made + 1 >= cap ==> r == [Window(start, end)])
      && (end < n && made + 1 < cap ==> r == [Window(start, end)] + WindowsFrom(Max(0, end - overlap), n, size, overlap, made + 1, cap))
  {
  }

  lemma DecodeWindowsSnoc(ids: seq<int>, ws: seq<Window>, w: Window, decode: seq<int> -> string)
    requires WithinIds(ws, |ids|)
    requires w.start <= w.end <= |ids|
    ensures WithinIds(ws + [w], |ids|)
    ensures DecodeWindows(ids, ws + [w], decode) == DecodeWindows(ids, ws, decode) + [decode(ids[w.start..w.end])]
  {
    assert WithinIds(ws + [w], |ids|) by {
      forall i | 0 <= i < |ws|
        ensures (ws + [w])[i] == ws[i]
      {
      }
    }
    var l, r := DecodeWindows(ids, ws + [w], decode), DecodeWindows(ids, ws, decode) + [decode(ids[w.start..w.end])];
    forall i | 0 <= i < |l|
      ensures l[i] == r[i]
    {
      if i < |ws| {
        assert (ws + [w])[i] == ws[i];
      }
    }
  }

  /** Where the windows start, and that there is one exactly when ids remain. */
  lemma WindowsFirst(start: nat, n: nat, size: nat, overlap: nat, made: nat, cap: nat)
    ensures var r := WindowsFrom(start, n, size, overlap, made, cap);
      && (|r| == 0 <==> start >= n)
      && (|r| > 0 ==> r[0].start == start)
  {
  }

  /** Each window is `[start, min(start + size, n))`. */
  lemma {:induction false} WindowsEnds(start: nat, n: nat, size: nat, overlap: nat, made: nat, cap: nat)
    ensures Sized(WindowsFrom(start, n, size, overlap, made, cap), size, n)
    decreases cap - made
  {
    if start < n {
      var end := Min(start + size, n);
      if !(end == n || made + 1 >= cap) {
        var next := Max(0, end - overlap);
        WindowsEnds(next, n, size, overlap, made + 1, cap);
        var rest := WindowsFrom(next, n, size, overlap, made + 1, cap);
        var r := WindowsFrom(start, n, size, overlap, made, cap);
        assert r == [Window(start, end)] + rest;
        forall i | 1 <= i < |r|
          ensures r[i].end == Min(r[i].start + size, n)
        {
          assert r[i] == rest[i - 1];
        }
      }
    }
  }

  lemma {:induction false} WindowsNext(start: nat, n: nat, size: nat, overlap: nat, made: nat, cap: nat)
    ensures Chained(WindowsFrom(start, n, size, overlap, made, cap), overlap, n)
    decreases cap - made
  {
    if start < n {
      var end := Min(start + size, n);
      if !(end == n || made + 1 >= cap) {
        var next := Max(0, end - overlap);
        WindowsNext(next, n, size, overlap, made + 1, cap);
        WindowsFirst(next, n, size, overlap, made + 1, cap);
        var rest := WindowsFrom(next, n, size, overlap, made + 1, cap);
        var r := WindowsFrom(start, n, size, overlap, made, cap);
        assert r == [Window(start, end)] + rest;
        forall i | 0 <= i < |r| - 1
          ensures r[i].end < n && r[i + 1].start == Max(0, r[i].end - overlap)
        {
          if i > 0 {
            assert r[i] == rest[i - 1] && r[i + 1] == rest[i];
          }
        }
      }
    }
  }

  /** The cap: the loop makes at most `cap` chunks (one at least), and stops short of `n` only at the cap. */
  lemma {:induction false} WindowsCount(start: nat, n: nat, size: nat, overlap: nat, made: nat, cap: nat)
    ensures var r := WindowsFrom(start, n, size, overlap, made, cap);
      && (|r| <= 1 || made + |r| <= cap)
      && (|r| > 0 && r[|r| - 1].end < n ==> made + |r| >= cap)
    decreases cap - made
  {
    if start < n {
      var end := Min(start + size, n);
      if !(end == n || made + 1 >= cap) {
        var next := Max(0, end - overlap);
        WindowsCount(next, n, size, overlap, made + 1, cap);
        WindowsFirst(next, n, size, overlap, made + 1, cap);
        var rest := WindowsFrom(next, n, size, overlap, made + 1, cap);
        var r := WindowsFrom(start, n, size, overlap, made, cap);
        assert r == [Window(start, end)] + rest;
        assert r[|r| - 1] == rest[|rest| - 1];
      }
    }
  }

  /**
   * The windows of the whole id list: the first starts at 0, none is
   * longer than `size`, there are at most `max(cap, 1)` of them, and they
   * run to the end of the ids unless the cap stopped them.
   */
  lemma ChunkWindows(n: nat, size: nat, overlap: nat, cap: nat)
    ensures var r := Windows(n, size, overlap, cap);
      && (|r| > 0 <==> n > 0)
      && (n > 0 ==> r[0].start == 0)
      && (forall i :: 0 <= i < |r| ==> r[i].end - r[i].start <= size)
      && (forall i :: 0 <= i < |r| - 1 ==> r[i + 1].start == Max(0, r[i].end - overlap))
      && |r| <= Max(cap, 1)
      && (n > 0 && |r| < cap ==> r[|r| - 1].end == n)
  {
    WindowsFirst(0, n, size, overlap, 0, cap);
    WindowsEnds(0, n, size, overlap, 0, cap);
    WindowsNext(0, n, size, overlap, 0, cap);
    WindowsCount(0, n, size, overlap, 0, cap);
  }

  /** Some window holds id number `j`. */
  predicate Covered(ws: seq<Window>, j: nat)
  {
    exists i :: 0 <= i < |ws| && ws[i].start <= j < ws[i].end
  }

  /** When the windows run to the end of the ids, every id lies in one of them. */
  lemma {:induction false} WindowsCover(start: nat, n: nat, size: nat, overlap: nat, made: nat, cap: nat, j: nat)
    requires start <= j < n
    requires var r := WindowsFrom(start, n, size, overlap, made, cap); |r| > 0 && r[|r| - 1].end == n
    ensures Covered(WindowsFrom(start, n, size, overlap, made, cap), j)
    decreases cap - made
  {
    var r := WindowsFrom(start, n, size, overlap, made, cap);
    var end := Min(start + size, n);
    if j < end {
      assert r[0].start <= j < r[0].end;
    } else {
      assert !(end == n || made + 1 >= cap);
      var next := Max(0, end - overlap);
      var rest := WindowsFrom(next, n, size, overlap, made + 1, cap);
      assert r == [Window(start, end)] + rest;
      assert rest[|rest| - 1] == r[|r| - 1];
      WindowsCover(next, n, size, overlap, made + 1, cap, j);
      var i :| 0 <= i < |rest| && rest[i].start <= j < rest[i].end;
      assert r[i + 1] == rest[i];
    }
  }

  // ---------------------------------------------------------------------------
  // Tables (`_choose_chunking`, `_gen_budgets`, `_target_counts`)
  // ---------------------------------------------------------------------------

  datatype Chunking = Chunking(window: nat, overlap: nat)

  /** `_choose_chunking`: the window grows with the input; quizzes and flashcards share a table. */
  function ChooseChunking(kind: Kind, total: nat): (r: Chunking)
    ensures 0 < r.overlap < r.window
    ensures forall t: nat :: t <= total ==> ChooseChunkingRow(kind, t).window <= r.window
  {
    ChooseChunkingRow(kind, total)
  }

  function ChooseChunkingRow(kind: Kind, total: nat): Chunking
  {
    if kind == Summary then
      if total <= 2000 then Chunking(1000, 60)
      else if total <= 8000 then Chunking(1600, 100)
      else if total <= 20000 then Chunking(1900, 140)
      else Chunking(2100, 160)
    else
      if total <= 2000 then Chunking(1400, 80)
      else if total <= 8000 then Chunking(1900, 120)
      else if total <= 20000 then Chunking(2200, 150)
      else Chunking(2400, 180)
  }

  /**
   * With the overlap below the window, each window starts strictly after
   * the previous one, so the chunking loop always moves forward.
   */
  lemma ChunkingAdvances(kind: Kind, total: nat, n: nat)
    ensures var c := ChooseChunking(kind, total);
      var r := Windows(n, c.window, c.overlap, MaxChunks(kind));
      forall i :: 0 <= i < |r| - 1 ==> r[i].start < r[i + 1].start
  {
    var c := ChooseChunking(kind, total);
    WindowsEnds(0, n, c.window, c.overlap, 0, MaxChunks(kind));
    WindowsNext(0, n, c.window, c.overlap, 0, MaxChunks(kind));
  }

  datatype Budgets = Budgets(mapTokens: nat, reduceTokens: nat)

  /** `_gen_budgets`: token budgets for one map call and for the reduce call. */
  function GenBudgets(numChunks: nat): (r: Budgets)
    ensures 0 < r.mapTokens < r.reduceTokens
    ensures 60 <= r.mapTokens <= 120 && 400 <= r.reduceTokens <= 700
    ensures forall m: nat :: m <= numChunks ==> GenBudgetsRow(m).mapTokens >= r.mapTokens && GenBudgetsRow(m).reduceTokens >= r.reduceTokens
  {
    GenBudgetsRow(numChunks)
  }

  function GenBudgetsRow(numChunks: nat): Budgets
  {
    if numChunks <= 4 then Budgets(120, 700)
    else if numChunks <= 10 then Budgets(100, 600)
    else if numChunks <= 16 then Budgets(80, 500)
    else Budgets(60, 400)
  }

  datatype Targets = Targets(baseline: nat, perChunk: nat)

  /** The quiz generator's `_target_counts`: 12 to 30 questions, 3 to 6 per chunk. */
  function QuizTargetCounts(total: nat, numChunks: nat): (r: Targets)
    ensures 12 <= r.baseline <= 30 && 3 <= r.perChunk <= 6
    ensures total >= 50000 ==> r.baseline == 30
    ensures total < 5000 ==> r.baseline == 12
  {
    var baseline := Max(12, Min(30, total / 2500 + 10));
    Targets(baseline, Max(3, Min(6, baseline / Max(1, numChunks))))
  }

  /** The flashcard generator's `_target_counts`: 15 to 35 cards, 4 to 7 per chunk. */
  function FlashcardTargetCounts(total: nat, numChunks: nat): (r: Targets)
    ensures 15 <= r.baseline <= 35 && 4 <= r.perChunk <= 7
    ensures total >= 40000 ==> r.baseline == 35
    ensures total < 2000 ==> r.baseline == 15
  {
    var baseline := Max(15, Min(35, total / 2000 + 15));
    Targets(baseline, Max(4, Min(7, baseline / Max(1, numChunks))))
  }

  // ---------------------------------------------------------------------------
  // Reading the input (`_scan_input` and the size guard)
  // ---------------------------------------------------------------------------

  /** What every generator knows once the input is accepted. */
  datatype Plan = Plan(total: nat, chunking: Chunking, chunks: seq<string>)

  function TooLarge(total: nat): string
  {
    "Input too large (" + NatToString(total) + " tokens). Split the PDF (< " + NatToString(MaxInputTokens) + ")."
  }

  function Chunks(ids: seq<int>, c: Chunking, cap: nat, decode: seq<int> -> string): seq<string>
  {
    DecodeWindows(ids, Windows(|ids|, c.window, c.overlap, cap), decode)
  }

  /** Tokenize, refuse more than 120 000 tokens, choose the windows and chunk. */
  function PlanFor(kind: Kind, lm: LanguageModel, content: string): (r: Result<Plan, string>)
    ensures r.Err? <==> |lm.encode(content)| > MaxInputTokens
    ensures r.Err? ==> r.error == TooLarge(|lm.encode(content)|)
    ensures r.Ok? ==> r.value.total == |lm.encode(content)| && r.value.chunking == ChooseChunking(kind, r.value.total)
    ensures r.Ok? ==> (|r.value.chunks| > 0 <==> r.value.total > 0) && |r.value.chunks| <= MaxChunks(kind)
  {
    var ids := lm.encode(content);
    if |ids| > MaxInputTokens then Err(TooLarge(|ids|))
    else
      var c := ChooseChunking(kind, |ids|);
      ChunkWindows(|ids|, c.window, c.overlap, MaxChunks(kind));
      Ok(Plan(|ids|, c, Chunks(ids, c, MaxChunks(kind), lm.decode)))
  }

  /** The same steps with the chunking loop. */
  method Prepare(kind: Kind, lm: LanguageModel, content: string) returns (r: Result<Plan, string>)
    ensures r == PlanFor(kind, lm, content)
  {
    var ids := lm.encode(content);
    var total := |ids|;
    if total > MaxInputTokens {
      return Err(TooLarge(total));
    }
    var c := ChooseChunking(kind, total);
    var chunks := ChunkByTokens(ids, c.window, c.overlap, MaxChunks(kind), lm.decode);
    return Ok(Plan(total, c, chunks));
  }

  // ---------------------------------------------------------------------------
  // Map and reduce
  // ---------------------------------------------------------------------------

  const ChunkSeparator: string := "\n\n-----\n\n"

  /**
   * The calls the map phase makes: one per chunk in chunk order, stopping
   * after the first one the model does not answer, since its exception
   * leaves the loop.
   */
  function MapCalls(lm: LanguageModel, chunks: seq<string>, call: string -> ChatCall): (r: seq<ChatCall>)
    ensures |r| <= |chunks|
    ensures forall i :: 0 <= i < |r| ==> r[i] == call(chunks[i])
    ensures forall i :: 0 <= i < |r| - 1 ==> Chat(lm, r[i]).Ok?
    ensures |r| < |chunks| ==> |r| > 0 && Chat(lm, r[|r| - 1]).Err?
  {
    if |chunks| == 0 then []
    else
      var first := call(chunks[0]);
      if Chat(lm, first).Err? then [first]
      else
        var rest := MapCalls(lm, chunks[1..], call);
        var r := [first] + rest;
        assert forall i :: 1 <= i < |r| ==> r[i] == rest[i - 1] && chunks[i] == chunks[1..][i - 1];
        r
  }

  /**
   * The map phase: the answers in chunk order, or the exception of the
   * first call the model did not answer.
   */
  function MapAll(lm: LanguageModel, chunks: seq<string>, call: string -> ChatCall): Result<seq<string>, string>
  {
    if |chunks| == 0 then Ok([])
    else
      match Chat(lm, call(chunks[0]))
      case Err(e) => Err(e)
      case Ok(s) => PrependOk([s], MapAll(lm, chunks[1..], call))
  }

  /**
   * The map phase in terms of the calls it makes: it succeeds exactly when
   * the model answers them all, and otherwise fails with the exception of
   * the last call made.
   */
  lemma {:induction false} MapAllCalls(lm: LanguageModel, chunks: seq<string>, call: string -> ChatCall)
    ensures var r := MapAll(lm, chunks, call);
      var calls := MapCalls(lm, chunks, call);
      && (r.Ok? <==> Answered(lm, calls))
      && (r.Err? ==> |calls| > 0 && Chat(lm, Last(calls)) == Err(r.error))
  {
    if |chunks| > 0 {
      var calls := MapCalls(lm, chunks, call);
      var first := call(chunks[0]);
      if Chat(lm, first).Err? {
        assert !Answered(lm, calls) by { assert Chat(lm, calls[0]).Err?; }
      } else {
        MapAllCalls(lm, chunks[1..], call);
        var rest := MapCalls(lm, chunks[1..], call);
        assert calls == [first] + rest;
        assert Answered(lm, calls) <==> Answered(lm, rest) by {
          assert forall i :: 1 <= i < |calls| ==> calls[i] == rest[i - 1];
          assert forall i :: 0 <= i < |rest| ==> rest[i] == calls[i + 1];
        }
        if MapAll(lm, chunks[1..], call).Err? {
          assert Last(calls) == Last(rest);
        }
      }
    }
  }

  /** A successful map phase holds one answer per chunk, in chunk order. */
  lemma {:induction false} MapAllValues(lm: LanguageModel, chunks: seq<string>, call: string -> ChatCall)
    requires MapAll(lm, chunks, call).Ok?
    ensures var outs := MapAll(lm, chunks, call).value;
      |outs| == |chunks| && forall i :: 0 <= i < |chunks| ==> Chat(lm, call(chunks[i])) == Ok(outs[i])
  {
    if |chunks| > 0 {
      MapAllValues(lm, chunks[1..], call);
      var outs := MapAll(lm, chunks[1..], call).value;
      var r := [Chat(lm, call(chunks[0])).value] + outs;
      assert MapAll(lm, chunks, call) == Ok(r);
      forall i | 0 <= i < |chunks|
        ensures Chat(lm, call(chunks[i])) == Ok(r[i])
      {
        if i > 0 {
          assert chunks[i] == chunks[1..][i - 1] && r[i] == outs[i - 1];
        }
      }
    }
  }

  /** The map loop: one `_chat` per chunk, answers appended in chunk order. */
  method MapChunks(lm: LanguageModel, chunks: seq<string>, call: string -> ChatCall) returns (outs: Result<seq<string>, string>)
    ensures outs == MapAll(lm, chunks, call)
  {
    var done: seq<string> := [];
    var i := 0;
    assert chunks[0..] == chunks;
    PrependNothing(MapAll(lm, chunks, call));
    while i < |chunks|
      invariant 0 <= i <= |chunks|
      invariant MapAll(lm, chunks, call) == PrependOk(done, MapAll(lm, chunks[i..], call))
    {
      assert chunks[i..][0] == chunks[i] && chunks[i..][1..] == chunks[i + 1..];
      var s := Chat(lm, call(chunks[i]));
      if s.Err? {
        return Err(s.error);
      }
      PrependOkSnoc(done, s.value, MapAll(lm, chunks[i + 1..], call));
      done := done + [s.value];
      i := i + 1;
    }
    assert MapAll(lm, chunks[i..], call) == Ok([]);
    assert done + [] == done;
    return Ok(done);
  }

  /**
   * The calls a generator makes for its chunks: the map calls and then,
   * when all of them were answered, the reduce call over the joined answers.
   */
  function PlanCalls(lm: LanguageModel, chunks: seq<string>, mapCall: string -> ChatCall, reduceCall: string -> ChatCall): seq<ChatCall>
  {
    MapCalls(lm, chunks, mapCall)
      + (match MapAll(lm, chunks, mapCall)
         case Err(_) => []
         case Ok(outs) => [reduceCall(Join(outs, ChunkSeparator))])
  }

  lemma AnsweredSnoc(lm: LanguageModel, calls: seq<ChatCall>, c: ChatCall)
    ensures Answered(lm, calls + [c]) <==> Answered(lm, calls) && Chat(lm, c).Ok?
  {
    var all := calls + [c];
    assert all[|calls|] == c;
    assert forall i :: 0 <= i < |calls| ==> all[i] == calls[i];
  }

  /** Map, then reduce: the reduce call's answer, or the exception of the first call that failed. */
  function MapReduce(lm: LanguageModel, chunks: seq<string>, mapCall: string -> ChatCall, reduceCall: string -> ChatCall): Result<string, string>
  {
    match MapAll(lm, chunks, mapCall)
    case Err(e) => Err(e)
    case Ok(outs) => Chat(lm, reduceCall(Join(outs, ChunkSeparator)))
  }

  /**
   * The outcome of map and reduce is that of the last call made, and it
   * succeeds exactly when every call made was answered.
   */
  lemma {:induction false} MapReduceCalls(lm: LanguageModel, chunks: seq<string>, mapCall: string -> ChatCall, reduceCall: string -> ChatCall)
    ensures var calls := PlanCalls(lm, chunks, mapCall, reduceCall);
      var r := MapReduce(lm, chunks, mapCall, reduceCall);
      && |calls| > 0
      && r == Chat(lm, Last(calls))
      && (r.Ok? <==> Answered(lm, calls))
  {
    var calls := PlanCalls(lm, chunks, mapCall, reduceCall);
    var mapped := MapCalls(lm, chunks, mapCall);
    MapAllCalls(lm, chunks, mapCall);
    if MapAll(lm, chunks, mapCall).Err? {
      assert calls == mapped;
      assert !Answered(lm, calls) by { assert Chat(lm, calls[|calls| - 1]).Err?; }
    } else {
      var reduce := reduceCall(Join(MapAll(lm, chunks, mapCall).value, ChunkSeparator));
      assert calls == mapped + [reduce];
      AnsweredSnoc(lm, mapped, reduce);
    }
  }

  // Summary generator

  function SummaryMapCall(budget: nat): string -> ChatCall
  {
    c => ChatCall([Says("system", SummaryMapSystem), Says("user", SummaryMapLead + c)], budget, 0.0)
  }

  const SummaryMapSystem: string :=
    "Summarize accurately. "
      + "Bullet points only. "
      + "No hallucinations. "
      + "No paragraphs."

  const SummaryMapLead: string :=
    "Summarize into crisp "
      + "bullet points. Keep "
      + "definitions and "
      + "mechanisms.\n\n"

  /** The reduce instructions, ahead of the joined chunk summaries. */
  const SummaryReduceRules: string :=
    "Convert the combined notes "
      + "into structured study notes.\n"
      + "\nRules:\n- KEEP important "
      + "details; remove only exact "
      + "duplicates.\n- DO NOT write "
      + "paragraphs.\n- Group related "
      + "ideas; keep bullets short.\n"
      + "- Prefer mechanisms, definitions, "
      + "cause\U{2192}effect links.\n\nOutput:\n"
      + "### Executive Summary (4\U{2013}6 "
      + "short bullets)\n### Core "
      + "Concepts (10\U{2013}20 bullets)\n"
      + "### Key Terms & Definitions "
      + "(5\U{2013}15 items)\n### Processes "
      + "/ Mechanisms (numbered steps "
      + "if present)\n### Cause \U{2192} "
      + "Effect (if applicable)\n\n"

  function SummaryReduceCall(joined: string, budget: nat): ChatCall
  {
    ChatCall([Says("system", SummaryReduceSystem), Says("user", SummaryReduceRules + joined)], budget, 0.0)
  }

  const SummaryReduceSystem: string := "You produce exam-ready " + "structured notes."

  datatype SummaryResult = SummaryResult(content: string, title: string, model: string, timestamp: string)

  function SummaryModelLabel(b: Budgets, numChunks: nat): string
  {
    "Qwen2.5-7B-Instruct " + "(Study Notes, map=" + NatToString(b.mapTokens)
      + ", reduce=" + NatToString(b.reduceTokens) + ", chunks=" + NatToString(numChunks) + ")"
  }

  /** `SummaryGenerator.generate`; `now` is the UTC timestamp it reads from the clock. */
  function Summarize(lm: LanguageModel, content: string, title: string, now: string): (r: Result<SummaryResult, string>)
    ensures var total := |lm.encode(content)|;
      && (r.Ok? <==> total <= MaxInputTokens && Answered(lm, ModelCalls(Summary, lm, content)))
      && (total > MaxInputTokens ==> r == Err(TooLarge(total)))
      && (total <= MaxInputTokens && r.Err? ==> Chat(lm, Last(ModelCalls(Summary, lm, content))) == Err(r.error))
    ensures r.Ok? ==> r.value.content == Reduced(Summary, lm, content).value && r.value.title == title && r.value.timestamp == now
  {
    match Reduced(Summary, lm, content)
    case Err(e) => Err(e)
    case Ok(final) =>
      var p := PlanFor(Summary, lm, content).value;
      ChatIsStripped(lm, Last(ModelCalls(Summary, lm, content)));
      Ok(SummaryResult(PyStrip(final), title, SummaryModelLabel(GenBudgets(|p.chunks|), |p.chunks|), now))
  }

  method GenerateSummary(lm: LanguageModel, content: string, title: string, now: string)
    returns (r: Result<SummaryResult, string>)
    ensures r == Summarize(lm, content, title, now)
  {
    var plan := Prepare(Summary, lm, content);
    if plan.Err? {
      return Err(plan.error);
    }
    var p := plan.value;
    var b := GenBudgets(|p.chunks|);
    var summaries := MapChunks(lm, p.chunks, SummaryMapCall(b.mapTokens));
    if summaries.Err? {
      return Err(summaries.error);
    }
    var final := Chat(lm, SummaryReduceCall(Join(summaries.value, ChunkSeparator), b.reduceTokens));
    if final.Err? {
      return Err(final.error);
    }
    return Ok(SummaryResult(PyStrip(final.value), title, SummaryModelLabel(b, |p.chunks|), now));
  }

  // Quiz generator

  /** The map instructions after the question count, ahead of the chunk. */
  const QuizMapRules: string :=
    " MCQs from the text. Follow "
      + "strictly:\n- One sentence "
      + "per question\n- 4 options "
      + "A\U{2013}D, only one correct\n- "
      + "Plausible distractors; rephrase; "
      + "same category across options\n"
      + "- Shuffle correct letter "
      + "across questions\n- Output "
      + "ONLY in this format:\n\nQ1) "
      + "Question?\nA) Option\nB) Option\n"
      + "C) Option\nD) Option\nCorrect: "
      + "<Letter>\n\nTEXT:\n"

  function QuizMapCall(perChunk: nat): string -> ChatCall
  {
    c => ChatCall([Says("system", QuizMapSystem),
                   Says("user", "\nWrite " + NatToString(perChunk) + QuizMapRules + c + "\n")],
                  180, 0.25)
  }

  const QuizMapSystem: string := "Generate high-quality " + "MCQs for exams. " + "Strong distractors."

  /** The reduce instructions after the question count, ahead of the joined chunk questions. */
  const QuizReduceRules: string :=
    " questions.\nRules:\n- Keep "
      + "only the best, non-duplicate "
      + "questions\n- Maintain the "
      + "required format exactly "
      + "(no extra commentary)\n- "
      + "Ensure distribution of correct "
      + "letters is shuffled\n\nMCQs:\n"

  function QuizReduceCall(joined: string, target: nat): ChatCall
  {
    ChatCall([Says("system", QuizReduceSystem),
              Says("user", QuizReduceLead + NatToString(target) + QuizReduceRules + joined + "\n")],
             600, 0.2)
  }

  const QuizReduceSystem: string := "You are a meticulous " + "exam MCQ editor. " + "Output strictly the " + "MCQ list only."
  const QuizReduceLead: string := "\nCombine the MCQs " + "below into a SINGLE " + "quiz of "

  datatype QuizResult = QuizResult(questions: string, title: string, numQuestions: nat)

  /**
   * `QuizGenerator.generate`. The requested `numQuestions` is accepted and
   * never read: the count comes from `_target_counts`.
   */
  function MakeQuiz(lm: LanguageModel, content: string, title: string, numQuestions: int): (r: Result<QuizResult, string>)
    ensures var total := |lm.encode(content)|;
      && (r.Ok? <==> total <= MaxInputTokens && Answered(lm, ModelCalls(Quiz, lm, content)))
      && (total > MaxInputTokens ==> r == Err(TooLarge(total)))
      && (total <= MaxInputTokens && r.Err? ==> Chat(lm, Last(ModelCalls(Quiz, lm, content))) == Err(r.error))
    ensures r.Ok? ==> r.value.questions == Reduced(Quiz, lm, content).value && r.value.title == title
  {
    match Reduced(Quiz, lm, content)
    case Err(e) => Err(e)
    case Ok(final) =>
      var p := PlanFor(Quiz, lm, content).value;
      ChatIsStripped(lm, Last(ModelCalls(Quiz, lm, content)));
      Ok(QuizResult(PyStrip(final), title, QuizTargetCounts(p.total, |p.chunks|).baseline))
  }

  /** The question count is the size-based baseline, 12 to 30, whatever was asked for. */
  lemma {:induction false} QuizCountIgnoresRequest(lm: LanguageModel, content: string, title: string, asked: int, other: int)
    requires MakeQuiz(lm, content, title, asked).Ok?
    ensures MakeQuiz(lm, content, title, asked) == MakeQuiz(lm, content, title, other)
    ensures var q := MakeQuiz(lm, content, title, asked).value;
      && q.numQuestions == QuizTargetCounts(|lm.encode(content)|, |PlanFor(Quiz, lm, content).value.chunks|).baseline
      && 12 <= q.numQuestions <= 30
  {
    var final := Reduced(Quiz, lm, content);
    var p := PlanFor(Quiz, lm, content).value;
    var q := QuizResult(PyStrip(final.value), title, QuizTargetCounts(p.total, |p.chunks|).baseline);
    assert MakeQuiz(lm, content, title, asked) == Ok(q);
    assert MakeQuiz(lm, content, title, other) == Ok(q);
  }

  method GenerateQuiz(lm: LanguageModel, content: string, title: string, numQuestions: int)
    returns (r: Result<QuizResult, string>)
    ensures r == MakeQuiz(lm, content, title, numQuestions)
  {
    var plan := Prepare(Quiz, lm, content);
    if plan.Err? {
      return Err(plan.error);
    }
    var p := plan.value;
    var t := QuizTargetCounts(p.total, |p.chunks|);
    var mapped := MapChunks(lm, p.chunks, QuizMapCall(t.perChunk));
    if mapped.Err? {
      return Err(mapped.error);
    }
    var final := Chat(lm, QuizReduceCall(Join(mapped.value, ChunkSeparator), t.baseline));
    if final.Err? {
      return Err(final.error);
    }
    return Ok(QuizResult(PyStrip(final.value), title, t.baseline));
  }

  // Flashcard generator

  const FlashcardMapRules: string := " flashcards. Format (repeat "
    + "for each):\nTerm: X\nDefinition: "
    + "Y\n\nTEXT:\n"

  function FlashcardMapCall(perChunk: nat): string -> ChatCall
  {
    c => ChatCall([Says("system", FlashcardMapSystem),
                   Says("user", "\nGenerate " + NatToString(perChunk) + FlashcardMapRules + c + "\n")],
                  200, 0.0)
  }

  const FlashcardMapSystem: string := "Generate concise " + "flashcards for memory " + "recall. Deterministic."

  const FlashcardReduceRules: string :=
    " high-quality flashcards.\n"
      + "Rules:\n+- Keep only the "
      + "best, non-duplicate terms\n"
      + "+- Maintain the format exactly "
      + "(Term: ... Definition: ...)\n"
      + "+- Ensure definitions are "
      + "clear and concise\n\nFlashcards:\n"

  function FlashcardReduceCall(joined: string, target: nat): ChatCall
  {
    ChatCall([Says("system", FlashcardReduceSystem),
              Says("user", FlashcardReduceLead + NatToString(target) + FlashcardReduceRules + joined + "\n")],
             700, 0.0)
  }

  const FlashcardReduceSystem: string := "You are a meticulous " + "flashcard editor. " + "Output strictly the " + "flashcard list only."
  const FlashcardReduceLead: string := "\nCombine the flashcards " + "below into a SINGLE " + "set of "

  datatype Flashcard = Flashcard(term: string, definition: string)

  const TermMarker: string := "Term:"
  const DefinitionMarker: string := "Definition:"

  /**
   * One block after a `Term:` marker: split once at the first
   * `Definition:`, both sides stripped, kept only when neither is empty.
   */
  function CardOf(block: string): (r: Option<Flashcard>)
    ensures r.Some? ==> |r.value.term| > 0 && |r.value.definition| > 0
  {
    match Find(block, DefinitionMarker)
    case None => None
    case Some(i) =>
      var term, definition := PyStrip(block[..i]), PyStrip(block[i + |DefinitionMarker|..]);
      if |term| > 0 && |definition| > 0 then Some(Flashcard(term, definition)) else None
  }

  /** The cards of the blocks that yield one, in order. */
  function CardsOf(blocks: seq<string>): (r: seq<Flashcard>)
    ensures |r| <= |blocks|
  {
    FilterMap(CardOf, blocks)
  }

  /** The blocks of text after each `Term:`; text before the first marker is dropped. */
  function Blocks(final: string): seq<string>
  {
    SplitOn(final, TermMarker)[1..]
  }

  /** The parse loop at the end of `FlashcardGenerator.generate`. */
  method ParseFlashcards(final: string) returns (cards: seq<Flashcard>)
    ensures cards == CardsOf(Blocks(final))
  {
    var blocks := Blocks(final);
    cards := [];
    var i := |blocks|;
    while i > 0
      invariant 0 <= i <= |blocks|
      invariant cards == FilterMap(CardOf, blocks[i..])
    {
      i := i - 1;
      assert blocks[i..][1..] == blocks[i + 1..];
      var c := CardOf(blocks[i]);
      if c.Some? {
        cards := [c.value] + cards;
      }
    }
    assert blocks[0..] == blocks;
  }

  /** Every parsed card is the card of some block, and the cards keep the blocks' order. */
  lemma CardsComeFromBlocks(blocks: seq<string>, k: nat) returns (j: nat)
    requires k < |CardsOf(blocks)|
    ensures j < |blocks| && CardOf(blocks[j]) == Some(CardsOf(blocks)[k])
  {
    j := FilterMapSource(CardOf, blocks, k);
  }

  /** A block whose first `Definition:` splits it into two non-blank parts yields exactly those parts, stripped. */
  lemma CardOfSplit(block: string, i: nat)
    requires OccursAt(block, DefinitionMarker, i)
    requires forall j: nat :: j < i ==> !OccursAt(block, DefinitionMarker, j)
    ensures CardOf(block).Some? <==> PyStrip(block[..i]) != "" && PyStrip(block[i + |DefinitionMarker|..]) != ""
    ensures CardOf(block).Some? ==> CardOf(block).value == Flashcard(PyStrip(block[..i]), PyStrip(block[i + |DefinitionMarker|..]))
  {
    FindFirst(block, DefinitionMarker, i);
  }

  /** A block without `Definition:` yields no card. */
  lemma CardNeedsDefinition(block: string)
    requires !Contains(block, DefinitionMarker)
    ensures CardOf(block) == None
  {
  }

  /** Text before the first `Term:` marker never changes the parsed cards. */
  lemma PreambleIgnored(preamble: string, s: string)
    requires !Contains(preamble, TermMarker)
    requires OccursAt(s, TermMarker, 0)
    ensures Blocks(preamble + s) == Blocks(s)
  {
    var t := preamble + s;
    var p := |preamble|;
    assert |TermMarker| == 5;
    assert t[p..] == s;
    assert OccursAt(t, TermMarker, p) by {
      assert t[p..p + 5] == s[..5];
    }
    forall j: nat | j < p
      ensures !OccursAt(t, TermMarker, j)
    {
      if j + 5 <= p {
        assert preamble[j..j + 5] == t[j..j + 5];
        assert !OccursAt(preamble, TermMarker, j);
      } else if j + 5 <= |t| {
        assert t[p] == s[0] == 'T';
        assert TermMarker[p - j] != 'T';
        assert t[j..j + 5][p - j] == t[p];
      }
    }
    assert Find(t, TermMarker) == Some(p);
    assert Find(s, TermMarker) == Some(0);
    assert t[p + 5..] == s[5..];
  }

  datatype FlashcardResult = FlashcardResult(flashcards: seq<Flashcard>, raw: string, title: string, numCards: nat)

  /** `FlashcardGenerator.generate`; the requested count is never read. */
  function MakeFlashcards(lm: LanguageModel, content: string, title: string, numCards: int): (r: Result<FlashcardResult, string>)
    ensures var total := |lm.encode(content)|;
      && (r.Ok? <==> total <= MaxInputTokens && Answered(lm, ModelCalls(Flashcards, lm, content)))
      && (total > MaxInputTokens ==> r == Err(TooLarge(total)))
      && (total <= MaxInputTokens && r.Err? ==> Chat(lm, Last(ModelCalls(Flashcards, lm, content))) == Err(r.error))
    ensures r.Ok? ==> r.value.raw == Reduced(Flashcards, lm, content).value && r.value.title == title
    ensures r.Ok? ==> r.value.flashcards == CardsOf(Blocks(r.value.raw)) && r.value.numCards == |r.value.flashcards|
  {
    match Reduced(Flashcards, lm, content)
    case Err(e) => Err(e)
    case Ok(final) =>
      ChatIsStripped(lm, Last(ModelCalls(Flashcards, lm, content)));
      var cards := CardsOf(Blocks(final));
      Ok(FlashcardResult(cards, PyStrip(final), title, |cards|))
  }

  method GenerateFlashcards(lm: LanguageModel, content: string, title: string, numCards: int)
    returns (r: Result<FlashcardResult, string>)
    ensures r == MakeFlashcards(lm, content, title, numCards)
  {
    var plan := Prepare(Flashcards, lm, content);
    if plan.Err? {
      return Err(plan.error);
    }
    var p := plan.value;
    var t := FlashcardTargetCounts(p.total, |p.chunks|);
    var mapped := MapChunks(lm, p.chunks, FlashcardMapCall(t.perChunk));
    if mapped.Err? {
      return Err(mapped.error);
    }
    var final := Chat(lm, FlashcardReduceCall(Join(mapped.value, ChunkSeparator), t.baseline));
    if final.Err? {
      return Err(final.error);
    }
    var cards := ParseFlashcards(final.value);
    return Ok(FlashcardResult(cards, PyStrip(final.value), title, |cards|));
  }

  // ---------------------------------------------------------------------------
  // The calls each generator makes
  // ---------------------------------------------------------------------------

  /** The map prompt of each generator for an accepted input. */
  function MapCallOf(kind: Kind, p: Plan): string -> ChatCall
  {
    match kind
    case Summary => SummaryMapCall(GenBudgets(|p.chunks|).mapTokens)
    case Quiz => QuizMapCall(QuizTargetCounts(p.total, |p.chunks|).perChunk)
    case Flashcards => FlashcardMapCall(FlashcardTargetCounts(p.total, |p.chunks|).perChunk)
  }

  /** The reduce prompt of each generator, given the joined map answers. */
  function ReduceCallOf(kind: Kind, p: Plan): string -> ChatCall
  {
    match kind
    case Summary => j => SummaryReduceCall(j, GenBudgets(|p.chunks|).reduceTokens)
    case Quiz => j => QuizReduceCall(j, QuizTargetCounts(p.total, |p.chunks|).baseline)
    case Flashcards => j => FlashcardReduceCall(j, FlashcardTargetCounts(p.total, |p.chunks|).baseline)
  }

  /**
   * Every model call a generator makes for `content`, in order: none for
   * a refused input, otherwise one map call per chunk up to the first
   * that fails and, if none failed, the reduce call.
   */
  function ModelCalls(kind: Kind, lm: LanguageModel, content: string): (r: seq<ChatCall>)
    ensures r == [] <==> |lm.encode(content)| > MaxInputTokens
    ensures |lm.encode(content)| <= MaxInputTokens ==>
      var p := PlanFor(kind, lm, content).value;
      && |r| <= |p.chunks| + 1
      && (forall i :: 0 <= i < |r| && i < |p.chunks| ==> r[i] == MapCallOf(kind, p)(p.chunks[i]))
      && (forall i :: 0 <= i < |r| - 1 ==> Chat(lm, r[i]).Ok?)
  {
    match PlanFor(kind, lm, content)
    case Err(_) => []
    case Ok(p) =>
      var r := PlanCalls(lm, p.chunks, MapCallOf(kind, p), ReduceCallOf(kind, p));
      PlanCallsShape(lm, p.chunks, MapCallOf(kind, p), ReduceCallOf(kind, p));
      r
  }

  /** The calls a plan makes: the chunks' map calls in order, every call but the last answered. */
  lemma {:induction false} PlanCallsShape(lm: LanguageModel, chunks: seq<string>, mapCall: string -> ChatCall, reduceCall: string -> ChatCall)
    ensures var r := PlanCalls(lm, chunks, mapCall, reduceCall);
      && 0 < |r| <= |chunks| + 1
      && (forall i :: 0 <= i < |r| && i < |chunks| ==> r[i] == mapCall(chunks[i]))
      && (forall i :: 0 <= i < |r| - 1 ==> Chat(lm, r[i]).Ok?)
  {
    var r := PlanCalls(lm, chunks, mapCall, reduceCall);
    var m := MapCalls(lm, chunks, mapCall);
    MapAllCalls(lm, chunks, mapCall);
    forall i | 0 <= i < |r| && i < |chunks|
      ensures r[i] == mapCall(chunks[i])
    {
      assert i < |m| by {
        if MapAll(lm, chunks, mapCall).Ok? {
          assert Answered(lm, m);
        } else {
          assert r == m + [];
        }
      }
      assert r[i] == m[i];
    }
    forall i | 0 <= i < |r| - 1
      ensures Chat(lm, r[i]).Ok?
    {
      if i < |m| {
        assert r[i] == m[i];
        if i == |m| - 1 {
          assert MapAll(lm, chunks, mapCall).Ok?;
        }
      }
    }
  }

  /**
   * A generator's reduce answer, or why there is none: the size refusal,
   * or the exception of the last call made, the first that failed.
   */
  function Reduced(kind: Kind, lm: LanguageModel, content: string): (r: Result<string, string>)
    ensures var total := |lm.encode(content)|;
      && (total > MaxInputTokens ==> r == Err(TooLarge(total)))
      && (total <= MaxInputTokens ==> r == Chat(lm, Last(ModelCalls(kind, lm, content))))
      && (r.Ok? <==> total <= MaxInputTokens && Answered(lm, ModelCalls(kind, lm, content)))
  {
    match PlanFor(kind, lm, content)
    case Err(e) => Err(e)
    case Ok(p) =>
      MapReduceCalls(lm, p.chunks, MapCallOf(kind, p), ReduceCallOf(kind, p));
      MapReduce(lm, p.chunks, MapCallOf(kind, p), ReduceCallOf(kind, p))
  }
}
