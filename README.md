# NotesQuest core, modelled in Dafny

NotesQuest turns an uploaded or pasted document into study material: a
summary, a quiz, flashcards, and a chat about the content. It has three
parts: a React web app, an Express backend that stores documents and their
artifacts, and a FastAPI AI service that runs the language models and
streams chat answers as server-sent events.

This project models the decision logic of those three parts and proves its
properties. Every library the code relies on is a parameter: the PDF and
OCR engines, the tokenizer and the language models, the database, HTTP,
bcrypt, JWT, the clock and the browser's storage. Each arrives as a value
or a function, so that the model can follow the branches, constants and
error paths written in the repository's own files. What it does not follow,
and the fields it does not carry, are listed under "## Left out".

The modules follow the source files:

- `backend_api.dfy` models `app/src/services/backendApi.js`. It covers the headers, the error of a failed response and the `chatStream` reader, a line buffer feeding a two-channel state machine. The reader is proved insensitive to how the stream is cut into reads.
- `ai_service_main.dfy` models `ai-service/main.py`: request defaults, the response envelopes and the framing of the chat event stream.
- `py_json.dfy` models `json.dumps` for the flat string dictionaries the stream carries, together with a reader that inverts its escapes.
- `stream_round_trip.dfy` joins the two ends: frames written by the AI service and read by the web app yield the final thinking and message texts.
- `specialized_models.dfy` and `chat_generator.dfy` model `ai-service/models/specialized_models.py`. They cover token-window chunking, the window and budget tables, the target counts, the input-size guard, the flashcard text parser and the event sequence of `generate_stream`.
- `ai_routes.dfy` models `backend/routes/ai.js`. `ai_service_client.dfy` models `backend/utils/aiServiceClient.js`, including fallback-provider selection.
- `ocr_processor.dfy`, `documents.dfy` and `data_processor.dfy` model ingestion. They cover the text-layer threshold, OCR page concatenation, extension dispatch, the Document schema's trim setters and validators, document-id normalisation, the cascade delete and whitespace normalisation.
- `vector_db.dfy` models the chunking and chunk bookkeeping of `ai-service/utils/vector_db.py`. `cache_manager.dfy` models the in-memory TTL cache.
- The web app's state and pages: `app_context.dfy` (the reducer and the restore sequence), `flashcards.dfy`, `history.dfy`, `chat.dfy`, `use_ai.dfy` and `profile_icon.dfy`.
- The backend's account code: `users.dfy`, `auth.dfy` and `user_model.dfy`.
- Shared helpers: `wrappers.dfy` (Option and Result), `strings.dfy`, `js.dfy` (JavaScript values with truthiness, `||` and `String()`) and `express.dfy` (status and JSON replies).

State that the source updates in place is modelled as a class. This covers the cache, the chunk store, the document store, the temporary directory of the OCR path, the flashcard deck, the history and chat pages, a stored chat and an account. Each of these methods states its whole new state.

## Model

| member | source | states |
|---|---|---|
| BackendApi.Headers | app/src/services/backendApi.js:22-35 | always the JSON content type; an `Authorization: Bearer <token>` header exactly when auth is requested and a non-empty token is stored; no other header |
| BackendApi.HandleResponse | app/src/services/backendApi.js:40-52 | a body that is not JSON fails first; an ok response yields its body; a non-ok response with a JSON `null` body throws a TypeError; otherwise the failure carries the status and body, and its message is `data.message`, else `data.error`, else `API request failed (<status>)` |
| BackendApi.DataOf | app/src/services/backendApi.js:332-333 | a line has a payload exactly when it starts with `data: `, and the line is that prefix followed by the payload |
| BackendApi.Step | app/src/services/backendApi.js:332-365 | no contract of its own: the body of the per-line loop as a state step; see StepEffects, HandleLine and ChannelsAreLastWrites |
| BackendApi.StepEffects | app/src/services/backendApi.js:331-365 | non-data lines, payloads that do not parse and `error` events change nothing; the reader returns exactly on `[DONE]` and `message_complete`; each channel takes the value the line gives it (replaced, not appended); the callbacks grow by the line's one token callback |
| BackendApi.ChatStream | app/src/services/backendApi.js:313-370 | a non-ok status fails before any callback; otherwise the result and callbacks equal those of running the complete lines of the concatenated body, so they do not depend on where the reads split it |
| BackendApi.HandleLines | app/src/services/backendApi.js:331-366 | the loop over one read's lines equals running those lines in order, stopping at the first line that returns |
| BackendApi.HandleLine | app/src/services/backendApi.js:332-365 | one line's effect on the three reader variables equals the line step of the state machine |
| BackendApi.CompleteLinesAppend | app/src/services/backendApi.js:327-329 | the complete lines of `x + y` are those of `x`, then those of `x`'s unfinished line followed by `y`; the unfinished remainder is the same either way |
| BackendApi.ReadLines | app/src/services/backendApi.js:327-329 | one read extends the complete lines seen so far by the complete lines of buffer plus piece, and its last piece becomes the new buffer |
| BackendApi.RunLinesSnoc | app/src/services/backendApi.js:331-366 | after lines that did not return, one more line is one more step |
| BackendApi.RunLinesAfterStop | app/src/services/backendApi.js:334-358 | once the reader has returned, no later line is examined: any suffix leaves the result and the callbacks unchanged |
| BackendApi.RunLinesAppend | app/src/services/backendApi.js:323-331 | running `a + b` is running `b` from where `a` left the channels, when `a` does not return |
| BackendApi.NoStopContinues | app/src/services/backendApi.js:334-358 | lines none of which is `[DONE]` or `message_complete` never make the reader return |
| BackendApi.ChannelsAreLastWrites | app/src/services/backendApi.js:342-356 | until the reader returns, each channel holds the value set by the last line that touched it, and the callbacks are those of the token lines, one each, in line order |
| BackendApi.UnfinishedLineIgnored | app/src/services/backendApi.js:369-370 | text after the last line break is never parsed: appending an unterminated line to the body changes nothing |
| BackendApi.RunLines | app/src/services/backendApi.js:331-366 | no contract of its own: the lines in order until one returns; see HandleLines, RunLinesSnoc, RunLinesAfterStop, RunLinesAppend and NoStopContinues |
| BackendApi.CompleteLines | app/src/services/backendApi.js:327-329 | no contract of its own: the `\n`-ended lines of a text, without the unfinished last piece; see CompleteLinesAppend, ReadLines and UnfinishedLineIgnored |
| BackendApi.Consume | app/src/services/backendApi.js:313-370 | no contract of its own: the reference result of `chatStream` for a whole body; see ChatStream, which is proved equal to it, and StreamRoundTrip.StreamRead |
| AiServiceMain.IntField | ai-service/main.py:45-48 | an absent integer field takes its default; a number is taken as given, a boolean as 1 or 0, and a string as the integer it spells; null, arrays and objects are rejected |
| AiServiceMain.ParseIntText | ai-service/main.py:48 | no contract of its own: text read as an integer, with white space, an optional sign and decimal digits; see IntTextRoundTrip, DigitlessText, ForeignCharText, PaddedText and IntField |
| AiServiceMain.IntTextRoundTrip | ai-service/main.py:48 | every integer written out in decimal reads back as itself |
| AiServiceMain.DigitlessText | ai-service/main.py:48 | only text holding a decimal digit reads as an integer, so the empty string, blanks and a lone sign are rejected |
| AiServiceMain.ForeignCharText | ai-service/main.py:48 | text holding a character that is not a digit, a sign or white space, such as a word, is rejected |
| AiServiceMain.PaddedText | ai-service/main.py:48 | white space before and after the text does not change what it reads as |
| AiServiceMain.GetModel | ai-service/models/model_manager.py:48-49 | no contract of its own: the loaded model, or the quoted name of the KeyError; see SummaryEndpoint, QuizEndpoint, FlashcardEndpoint, ChatEndpoint and StreamBodyLines |
| AiServiceMain.ParseSummaryRequest | ai-service/main.py:29-31 | the body is accepted exactly when `content` and `title` are strings, and the request carries them |
| AiServiceMain.ParseQuizRequest | ai-service/main.py:45-48 | accepted exactly when `content` and `title` are strings and `num_questions` is absent or reads as an integer; the count is that integer, 8 when absent |
| AiServiceMain.ParseFlashcardRequest | ai-service/main.py:62-65 | accepted exactly when `content` and `title` are strings and `num_cards` is absent or reads as an integer; the count is that integer, 12 when absent |
| AiServiceMain.ParseChatRequest | ai-service/main.py:81-83 | accepted exactly when `message` is a string and `history` is absent or a list of any items; the history is that list as given, empty when absent |
| AiServiceMain.SummaryJson | ai-service/main.py:38-40 | the summary's JSON carries its title |
| AiServiceMain.QuizJson | ai-service/main.py:55-57 | the quiz's JSON carries its question count |
| AiServiceMain.FlashcardsJson | ai-service/main.py:70-71 | the JSON carries `num_cards` and one card object per card, in order |
| AiServiceMain.ChatJson | ai-service/main.py:91-93 | the chat JSON carries the message, and a `thinking` key exactly when thinking was produced |
| AiServiceMain.Success | ai-service/main.py:40 | the envelope is a 200 with `success: true` and the result under `data` |
| AiServiceMain.SummaryReply | ai-service/main.py:35-43 | an input over the token limit is a 500 with the size message; a failing model call is a 500 with that call's error; otherwise the success envelope with the request's title |
| AiServiceMain.SummaryEndpoint | ai-service/main.py:33-43 | a malformed body is rejected; a missing summary model is a 500 whose detail is the quoted task name; otherwise the generator's reply |
| AiServiceMain.QuizReply | ai-service/main.py:52-60 | over the token limit a 500 with the size message; a failing model call a 500 with its error; otherwise the envelope whose `num_questions` is the target-count baseline, whatever count was requested |
| AiServiceMain.QuizEndpoint | ai-service/main.py:50-60 | a malformed body is rejected; a missing quiz model is a 500 with the quoted task name; otherwise the quiz reply |
| AiServiceMain.FlashcardReply | ai-service/main.py:67-71 | nothing catches the generator's error, so a bare 500 exactly when the input is too large or a model call fails; otherwise the envelope whose `num_cards` is the number of cards |
| AiServiceMain.FlashcardEndpoint | ai-service/main.py:67-71 | a malformed body is rejected; a missing model is a bare 500 too; otherwise the flashcard reply |
| AiServiceMain.ChatReply | ai-service/main.py:93 | the envelope carries the answer both at the top level and inside `data` |
| AiServiceMain.ChatEndpoint | ai-service/main.py:85-96 | a malformed body is rejected; without the summary model a 500; a failed generation (an unreadable history item or a failing model call) a 500 with its message; otherwise the reply for 1000 tokens at temperature 0.5 |
| AiServiceMain.UploadEndpoint | ai-service/main.py:73-79 | 200 exactly when the document processor succeeds, with its text as `content`; otherwise a 500 whose detail is the error |
| AiServiceMain.DataLines | ai-service/main.py:107-108 | one data line per event |
| AiServiceMain.ChatStreamEndpoint | ai-service/main.py:98-114 | a malformed body is rejected; otherwise the stream's text is the body the inner generator yields |
| AiServiceMain.WithBlanks | ai-service/main.py:108 | each line is followed by the blank line that ends its frame |
| AiServiceMain.DataLineUnbroken | ai-service/main.py:108 | the data line of an event holds no line break, because the JSON encoder escapes every control character |
| AiServiceMain.FramedSplit | ai-service/main.py:107-109 | framed lines without breaks split back into those lines, each followed by a blank one, whatever text follows |
| AiServiceMain.FramesSplit | ai-service/main.py:107-108 | each event becomes exactly one `data: <json>` line, in order |
| AiServiceMain.DoneSplit | ai-service/main.py:109 | the closing frame is the single line `data: [DONE]` |
| AiServiceMain.StreamBodyLines | ai-service/main.py:104-112 | with the model: one data line per event, then `data: [DONE]`; when the model cannot be obtained: one error data line and no `[DONE]` |
| AiServiceMain.StreamBody | ai-service/main.py:98-114 | no contract of its own: everything the inner generator yields; see StreamBodyLines, ChatStreamEndpoint and StreamRoundTrip.StreamRead |
| SpecializedModels.ChatIsStripped | ai-service/models/specialized_models.py:46 | a completion is returned stripped, so stripping it again (as the generators do) changes nothing |
| SpecializedModels.WindowsFrom | ai-service/models/specialized_models.py:110-118 | the windows the chunking loop visits all lie within the ids |
| SpecializedModels.Windows | ai-service/models/specialized_models.py:110-118 | the windows of the whole id list lie within the ids |
| SpecializedModels.DecodeWindows | ai-service/models/specialized_models.py:113 | one decoded chunk per window |
| SpecializedModels.ChunkByTokens | ai-service/models/specialized_models.py:110-118 | the loop returns the decoded text of exactly the reference windows, in order |
| SpecializedModels.WindowsAfter | ai-service/models/specialized_models.py:112-117 | after the loop's next window, either the loop stops (end of ids or cap reached) and no window remains, or the rest starts `overlap` ids before that window's end |
| SpecializedModels.WindowsStep | ai-service/models/specialized_models.py:112-117 | one step of the window sequence: the window `[start, min(start + size, n))`, then the rest unless the ids or the cap are exhausted |
| SpecializedModels.DecodeWindowsSnoc | ai-service/models/specialized_models.py:113 | appending a window appends its decoded chunk |
| SpecializedModels.WindowsFirst | ai-service/models/specialized_models.py:112 | there is a window exactly when ids remain, and it starts at the current start |
| SpecializedModels.WindowsEnds | ai-service/models/specialized_models.py:113 | every window is `[start, min(start + size, n))` |
| SpecializedModels.WindowsNext | ai-service/models/specialized_models.py:115-116 | every window but the last ends before `n`, and the next one starts at `max(0, end - overlap)` |
| SpecializedModels.WindowsCount | ai-service/models/specialized_models.py:115-117 | at most `cap` windows (one at least), and the last one stops short of `n` only when the cap is reached |
| SpecializedModels.ChunkWindows | ai-service/models/specialized_models.py:110-118 | the first window starts at 0, none is longer than the window size, each next one starts `overlap` ids before the previous end, there are at most `max(cap, 1)`, and below the cap the last one ends at `n` |
| SpecializedModels.WindowsCover | ai-service/models/specialized_models.py:112-115 | when the windows run to the end, every id lies in one of them |
| SpecializedModels.ChooseChunking | ai-service/models/specialized_models.py:104-108 | every row of the table has `0 < overlap < window`, and the window never shrinks as the input grows (the quiz and flashcard table of lines 192-197 and 298-302 as well) |
| SpecializedModels.ChunkingAdvances | ai-service/models/specialized_models.py:104-118 | with the chosen table row, each window starts strictly after the previous one, so the chunking loop terminates |
| SpecializedModels.GenBudgets | ai-service/models/specialized_models.py:120-125 | the map budget is 60 to 120 tokens and below the reduce budget of 400 to 700; neither grows with the chunk count |
| SpecializedModels.QuizTargetCounts | ai-service/models/specialized_models.py:209-213 | baseline 12 to 30 and 3 to 6 per chunk; 30 from 50 000 tokens on, 12 below 5 000 |
| SpecializedModels.FlashcardTargetCounts | ai-service/models/specialized_models.py:314-318 | baseline 15 to 35 and 4 to 7 per chunk; 35 from 40 000 tokens on, 15 below 2 000 |
| SpecializedModels.PlanFor | ai-service/models/specialized_models.py:128-134 | inputs over 120 000 tokens are refused with the size message; otherwise the chunking follows the table and there is a chunk exactly when there is a token, never more than the cap |
| SpecializedModels.Prepare | ai-service/models/specialized_models.py:128-134 | tokenizing, the size guard and the chunking loop give the reference plan |
| SpecializedModels.MapChunks | ai-service/models/specialized_models.py:139-151 | the map loop stops at the first failing call with its error, and otherwise gives one stripped model answer per chunk, in chunk order |
| SpecializedModels.MapCalls | ai-service/models/specialized_models.py:139-151 | the calls made are the chunks' map calls in order, up to and including the first that fails, and only the last of them can fail |
| SpecializedModels.MapAllCalls | ai-service/models/specialized_models.py:139-151 | the map step succeeds exactly when every call it made was answered, and a failure carries the last call's error |
| SpecializedModels.MapAllValues | ai-service/models/specialized_models.py:139-151 | a successful map step has one answer per chunk, the model's answer to that chunk's call |
| SpecializedModels.MapReduceCalls | ai-service/models/specialized_models.py:139-170 | map then reduce makes at least one call; its outcome is the last call's, and it succeeds exactly when every call was answered |
| SpecializedModels.MapReduce | ai-service/models/specialized_models.py:139-170 | no contract of its own: the map calls, then the reduce call over the joined answers, or the first failure; see MapReduceCalls and Reduced |
| SpecializedModels.PlanCallsShape | ai-service/models/specialized_models.py:139-170 | at most one call per chunk and the reduce call; the first calls are the chunks' map calls in order, and every call but the last was answered |
| SpecializedModels.ModelCalls | ai-service/models/specialized_models.py:127-170 | no model call at all exactly when the input is too large; otherwise at most one per chunk plus the reduce call, the chunks' map calls first, every call but the last answered |
| SpecializedModels.Reduced | ai-service/models/specialized_models.py:127-170 | the reduced text is the size error for an input over the limit, and otherwise the outcome of the last model call, an answer exactly when every call was answered |
| SpecializedModels.Summarize | ai-service/models/specialized_models.py:127-182 | succeeds exactly when the input is within the limit and every model call was answered; too large gives the size message, a failed call its error; a result holds the reduced text, the request's title and the clock's timestamp |
| SpecializedModels.GenerateSummary | ai-service/models/specialized_models.py:127-182 | the loop version gives the reference summary result |
| SpecializedModels.MakeQuiz | ai-service/models/specialized_models.py:215-288 | succeeds exactly when the input is within the limit and every model call was answered; too large gives the size message, a failed call its error; a result holds the reduced questions and the title |
| SpecializedModels.QuizCountIgnoresRequest | ai-service/models/specialized_models.py:215-288 | the result does not depend on the requested question count, and `num_questions` is the target-count baseline, 12 to 30 |
| SpecializedModels.GenerateQuiz | ai-service/models/specialized_models.py:215-288 | the loop version gives the reference quiz result |
| SpecializedModels.CardOf | ai-service/models/specialized_models.py:380-384 | a block yields a card only when both stripped parts are non-empty |
| SpecializedModels.CardsOf | ai-service/models/specialized_models.py:378-384 | at most one card per block |
| SpecializedModels.ParseFlashcards | ai-service/models/specialized_models.py:378-384 | the parse loop keeps the cards of the blocks after each `Term:`, in order |
| SpecializedModels.CardsComeFromBlocks | ai-service/models/specialized_models.py:379-384 | every parsed card is the card of some block |
| SpecializedModels.CardOfSplit | ai-service/models/specialized_models.py:381-384 | the block is split at its first `Definition:`; it yields a card exactly when both stripped sides are non-empty, and the card is those two sides |
| SpecializedModels.CardNeedsDefinition | ai-service/models/specialized_models.py:380 | a block without `Definition:` yields no card |
| SpecializedModels.PreambleIgnored | ai-service/models/specialized_models.py:379 | text before the first `Term:` never changes the parsed cards |
| SpecializedModels.MakeFlashcards | ai-service/models/specialized_models.py:320-386 | succeeds exactly when the input is within the limit and every model call was answered; a failed call gives its error; `num_cards` is the number of cards parsed from the reduced text |
| SpecializedModels.GenerateFlashcards | ai-service/models/specialized_models.py:320-386 | the loop version gives the reference flashcard result |
| ChatGenerator.Recent | ai-service/models/specialized_models.py:498 | `history[-6:]`: the last `min(n, 6)` entries |
| ChatGenerator.FromHistory | ai-service/models/specialized_models.py:499-502 | an object item gives its role (default `user`) and content (default `""`) as they are; any other item fails with Python's `'<type>' object has no attribute 'get'` |
| ChatGenerator.EntriesMeaning | ai-service/models/specialized_models.py:498-502 | reading items succeeds exactly when all are objects, one message per item in order, and otherwise fails at the first non-object |
| ChatGenerator.Conversation | ai-service/models/specialized_models.py:485-502 | with no history, one system message, with the reasoning hint when thinking is on; otherwise it succeeds exactly when each of the last six items is an object, and then holds them in order, role defaulting to `user` and content to `""`; else it fails with the `.get` error of the first non-object |
| ChatGenerator.OnlyRecentRead | ai-service/models/specialized_models.py:498 | items older than the last six are never read: prefixing any items to a history of six or more leaves the conversation as it was |
| ChatGenerator.BuildConversation | ai-service/models/specialized_models.py:485-502 | the prompt-building loop gives the reference conversation |
| ChatGenerator.Generated | ai-service/models/specialized_models.py:71-91 | at most `max_new_tokens` ids, one decoded token per id |
| ChatGenerator.GeneratedPicks | ai-service/models/specialized_models.py:71-91 | each id is the model's pick after the prompt and the ids before it, none is the end-of-sequence id, and each token is its id decoded |
| ChatGenerator.GeneratedEnds | ai-service/models/specialized_models.py:71-84 | a run ends at the model's failure, at the budget, or because the model picked the end-of-sequence id |
| ChatGenerator.ChatStream | ai-service/models/specialized_models.py:48-94 | the generation loop gives the reference token run over the rendered prompt |
| ChatGenerator.Phase | ai-service/models/specialized_models.py:511-529 | a phase has its start event, one event per token and one closing event |
| ChatGenerator.GenerateStream | ai-service/models/specialized_models.py:478-533 | the events yielded, in order, are the reference event sequence |
| ChatGenerator.EmitPhase | ai-service/models/specialized_models.py:511-529 | the phase loop yields the start event, one token event per token carrying the text so far, then the complete or error event |
| ChatGenerator.PhasePrefixTokens | ai-service/models/specialized_models.py:513-515 | the events of a phase up to position `j` carry its first `j` tokens and none of the other channel's |
| ChatGenerator.PhaseTokens | ai-service/models/specialized_models.py:511-529 | a whole phase carries exactly its run's tokens, on its own channel only |
| ChatGenerator.PhaseTexts | ai-service/models/specialized_models.py:512-529 | every token event's text is the concatenation of its phase's tokens so far; the complete event carries them all, the same text as the last token event; a failed run ends in the error event |
| ChatGenerator.PhaseShape | ai-service/models/specialized_models.py:511-529 | a phase opens with its start event, ends with its complete event or an error, and holds only its own kind of event |
| ChatGenerator.PhaseOrder | ai-service/models/specialized_models.py:511-529 | within a phase only the last event may be an error, and an answer phase holds no thinking event |
| ChatGenerator.PhasesOrder | ai-service/models/specialized_models.py:505-529 | a thinking phase that ended normally, followed by an answer phase, keeps both orders |
| ChatGenerator.StreamOrder | ai-service/models/specialized_models.py:478-533 | an unreadable history yields the one error event; otherwise the stream opens with `thinking_start` when thinking is on and with `message_start` otherwise, and without an error it ends with `message_complete`; only the last event can be an error and no thinking event follows an answer event |
| ChatGenerator.StreamTokens | ai-service/models/specialized_models.py:505-533 | for a readable conversation, the thinking events carry the thinking run's tokens; the answer events carry the answer run's tokens, or none after a failed thinking phase |
| ChatGenerator.Respond | ai-service/models/specialized_models.py:392-476 | an unreadable history fails with its error, a failing thinking call with its error, then a failing answer call with its; it succeeds exactly when the calls made were answered, with the answer as the message, `thinking` exactly when thinking is on and non-empty, and the model label and the clock's timestamp |
| StreamRoundTrip.DataLineRead | app/src/services/backendApi.js:332-334 | the reader takes the data line of an event for a data line whose payload is the event's JSON, never the `[DONE]` marker |
| StreamRoundTrip.StepDataLine | app/src/services/backendApi.js:332-340 | given a `JSON.parse` that reads back `json.dumps`, the reader parses an event's data line into the event's object |
| StreamRoundTrip.DispatchEvent | app/src/services/backendApi.js:342-361 | what the reader does with each kind of event yielded by the generator: start events clear their channel, token and complete events set it, a token event fires its callback, `message_complete` returns, an error changes nothing |
| StreamRoundTrip.RunFramed | ai-service/main.py:107-108 | reading the framed events line by line is reading the events themselves, blank separator lines included |
| StreamRoundTrip.RunEventsAppend | app/src/services/backendApi.js:331-366 | reading `a + b` is reading `b` from where `a` left the channels, when `a` does not return |
| StreamRoundTrip.TokensRead | ai-service/models/specialized_models.py:512-515 | after a start event, the token events leave the phase's channel at the concatenated tokens and fire one callback per token with the text so far; the other channel stays |
| StreamRoundTrip.PhaseRead | ai-service/models/specialized_models.py:511-529 | a whole phase leaves its channel at the concatenation of its tokens; only a completed answer phase makes the reader return |
| StreamRoundTrip.PhasesRead | ai-service/models/specialized_models.py:505-529 | after both phases, the reader holds the complete thinking text and, unless thinking failed, the complete answer, with the callbacks of both phases in order |
| StreamRoundTrip.DoneRead | ai-service/main.py:109 | the `[DONE]` frame makes the reader return with the channels as they are |
| StreamRoundTrip.FramedEventsRead | ai-service/main.py:107-109 | a body of framed events followed by `[DONE]` is read as those events |
| StreamRoundTrip.PhaseLines | ai-service/main.py:104-109 | with the model loaded, the body's lines are the framed thinking phase, then the answer phase unless thinking failed, then `[DONE]` |
| StreamRoundTrip.PhasesTextRead | ai-service/main.py:104-109 | a body that splits into the framed phases and `[DONE]` is read as the two phases' result |
| StreamRoundTrip.StreamRead | ai-service/main.py:104-109 | the round trip: the web app reads the service's stream as the complete thinking text and, unless thinking failed, the complete answer, each token having fired its callback with the text so far; an unreadable history reads as two empty texts |
| StreamRoundTrip.UnreadHistoryRead | ai-service/models/specialized_models.py:531-533 | when the history cannot be read, the one error event is swallowed and the reader ends at `[DONE]` with empty texts and no callback |
| StreamRoundTrip.ThinkingEvents | ai-service/models/specialized_models.py:505-529 | with thinking on, the events are the thinking phase followed by the answer phase, unless thinking failed |
| StreamRoundTrip.ErrorFrameRead | app/src/services/backendApi.js:359-364 | a lone error frame is swallowed: both texts stay empty and no callback fires |
| StreamRoundTrip.ErrorLinesRead | app/src/services/backendApi.js:359-364 | an error event's lines change nothing and do not make the reader return |
| StreamRoundTrip.UnavailableRead | ai-service/main.py:110-112 | when the model cannot be obtained, the one error frame is skipped and the reader ends with empty texts at the end of the body |
| StreamRoundTrip.CompleteTextsRead | ai-service/main.py:104-109 | when nothing fails, the reader's texts are those of the `thinking_complete` and `message_complete` events, and the stream's last event is `message_complete` |
| AiRoutes.Sent | backend/routes/ai.js:43 | the request body keeps exactly the members whose value is not undefined, as `JSON.stringify` drops the others |
| AiRoutes.ResolveSource | backend/routes/ai.js:14-28 | body content is used as given; only a truthy `documentId` without content fetches the document; a missing document is a 404, a lookup that throws (a malformed id's CastError) is the outer catch's 500 "backend error" with its message, and a found document supplies its extracted text (else content), title and id |
| AiRoutes.ContentNeedsNoLookup | backend/routes/ai.js:18-19 | with content in the body, or no `documentId`, the document store is never consulted and the source always resolves |
| AiRoutes.SummaryCheck | backend/routes/ai.js:30-38 | the summary request passes exactly when the content is a string of at least 20 UTF-16 code units, the title a truthy string and the content at most 1,000,000 code units; failures come in that order with 400, 400 and 413 |
| AiRoutes.QuizCheck | backend/routes/ai.js:117-122 | the quiz request passes exactly when content and title are usable; content is checked first; there is no size limit |
| AiRoutes.NormalizeCard | backend/routes/ai.js:216 | the front is the term when truthy, else `front`; the back is the definition when truthy, else `back`; category and difficulty are never falsy |
| AiRoutes.NormalizeCards | backend/routes/ai.js:215-216 | a falsy list gives no cards; a truthy non-array throws; an array succeeds exactly when no element is nullish, and then gives one normalised card per element, in order |
| AiRoutes.FlashcardSave | backend/routes/ai.js:214-229 | a stored flashcard record's count is the number of its cards |
| AiRoutes.BackendError | backend/routes/ai.js:85-88 | an exception inside a route answers 500 with the error `backend error` and the exception's message |
| AiRoutes.SummaryAiError | backend/routes/ai.js:80-84 | a non-2xx reply from the AI service answers 502 |
| AiRoutes.GenerateSummary | backend/routes/ai.js:9-89 | a missing document is a 404, a throwing lookup the 500 "backend error" with its message, and a failed check answers with that check's error, all storing nothing; every reply is 200, 400, 404, 413, 500 or 502; a summary is stored only with a 200 |
| AiRoutes.SummaryForwards | backend/routes/ai.js:43-84 | a request that passes the checks answers with the AI service's own body on a 2xx status, 502 on another status and 500 when the call throws |
| AiRoutes.SummaryChecksBeforeCall | backend/routes/ai.js:19-43 | a request rejected by the lookup or the checks gets the same answer whatever the AI service would reply; that answer is 400, 404, 413 or 500, and a 500 only when the lookup threw |
| AiRoutes.DefaultQuestionCount | backend/routes/ai.js:129-130 | the default count is 3 per 10,000 UTF-16 code units of content, rounded down and clamped to between 8 and 30 |
| AiRoutes.FiftyThousandCharsGiveFifteen | backend/routes/ai.js:129-130 | 50,000 characters ask for 15 questions |
| AiRoutes.DefaultQuestionCountMonotone | backend/routes/ai.js:130 | longer content never asks for fewer questions |
| AiRoutes.QuestionCount | backend/routes/ai.js:131 | a truthy requested count wins; otherwise the length-based default is sent |
| AiRoutes.GenerateQuiz | backend/routes/ai.js:91-178 | a missing document is a 404 and a throwing lookup the 500 "backend error" with its message; nullish content is a 500 because its length is read before validation; every reply is 200, 400, 404, 500 or 502; a quiz is stored only with a 200 |
| AiRoutes.QuizWithoutContentFails | backend/routes/ai.js:115 | a body with neither content nor a document id fails with the backend error for reading `length`, not with a 400 |
| AiRoutes.QuizSendsCount | backend/routes/ai.js:117-165 | a request that passes the checks has at least 20 code units, sends the requested count or the default for its UTF-16 length with the content and title, and forwards the AI service's body on a 2xx reply |
| AiRoutes.GenerateFlashcards | backend/routes/ai.js:180-243 | a missing document is a 404 and a throwing lookup the 500 "backend error" with its message; unusable content is a 400 whatever the title; every reply is 200, 400, 404, 500 or 502; cards are stored only with a 200 |
| AiRoutes.FlashcardsStored | backend/routes/ai.js:206-229 | stored cards are the normalised cards of the AI service's 2xx reply, their count is stored with them, and they are stored under a truthy document id |
| AiRoutes.TitleFrom | backend/routes/ai.js:392 | a text of at most 50 UTF-16 code units is its own title; a longer one is cut to a proper prefix of 49 or 50 code units (never splitting a character) followed by `...`; in the basic plane that is its first 50 characters |
| AiRoutes.FirstUserContent | backend/routes/ai.js:391 | the content of the first user message, or "" when there is none |
| AiRoutes.SchemaString | backend/models/Chat.js:21-28 | Mongoose's cast to a `String` path: null and undefined leave it unset; a string is kept; a number or boolean becomes its `String(v)` text; an object with a non-empty string `_id` becomes that id; every array and every other object fails; a truthy value that casts gives a non-empty text |
| AiRoutes.Exchange | backend/routes/ai.js:374-387 | an exchange is two messages, the user's (no thinking) followed by the assistant's with the reply and the thinking given |
| AiRoutes.CastExchange | backend/models/Chat.js:15-28 | the exchange is valid exactly when the reply casts to a non-empty text and a truthy thinking casts; it then holds the cast reply and, only when the thinking was truthy, its cast text |
| AiRoutes.SavedExchangeCast | backend/routes/ai.js:376-386 | with a non-empty reply text the exchange is invalid exactly when the thinking is an array or an object without a string `_id`; a truthy string, number or boolean thinking is stored as its text |
| AiRoutes.FirstUserAfterExchange | backend/routes/ai.js:389-393 | appending an exchange keeps an existing first user message; without one, the exchange's user message becomes the first |
| AiRoutes.FirstExchangeTitle | backend/routes/ai.js:389-400 | a "New Chat" without user messages is titled after the first exchange as a chat created with that message would be |
| AiRoutes.ChatDoc.constructor | backend/routes/ai.js:409-420 | a new chat holds the given id, title and messages |
| AiRoutes.ChatDoc.AddExchange | backend/routes/ai.js:374-393 | the messages grow by exactly the exchange, and the title is derived from the first user message only while it is "New Chat" |
| AiRoutes.SaveCheck | backend/routes/ai.js:352-360 | the save passes exactly when both messages are non-blank strings; the assistant's message is checked first |
| AiRoutes.StoreExchange | backend/routes/ai.js:363-422 | a throwing `findOne` (for a truthy chat id) gives its error; once the chat is found (or none is needed), an exchange the schema cannot cast gives the validation error, and a valid one the error of a throwing `save` or `create`; every error gives no chat and leaves the stored chat unchanged; otherwise a truthy chat id appends the exchange to the chat found, or finds none, and no chat id creates a fresh chat under the new id, holding only the exchange (as cast) and titled after the user's message, leaving any other chat unchanged |
| AiRoutes.SaveChat | backend/routes/ai.js:339-441 | a failed check answers its 400 and changes nothing; a throwing lookup, save or create, or a `thinking` that is an array or an object without a string `_id`, answers 500 "Failed to save chat" with the error's message and changes nothing; an unknown chat id is a 404; otherwise the trimmed exchange, with a truthy thinking stored as its cast text, is appended to the found chat or starts a new one, and the answer carries `success`, the chat's id and the chat as stored |
| AiRoutes.MessageJson | backend/routes/ai.js:430 | a stored message is listed with its role and content, and with `thinking`, as text, exactly when it kept one |
| AiRoutes.ChatJson | backend/routes/ai.js:427-431 | the chat of a reply carries its id, its title and one listed message per stored message, in order |
| AiRoutes.SavedReply | backend/routes/ai.js:424-433 | the save answers 200 with `chatId` the chat's id and `chat` that chat |
| AiRoutes.ChatStart | backend/routes/ai.js:449-469 | a blank message is a 400; a null history throws when its length is read (500); a network failure is a 500 and a non-2xx reply a 502; success means the trimmed message and the history were sent and the service answered 2xx with the returned body |
| AiRoutes.ReplyText | backend/routes/ai.js:471 | the stored reply is never falsy: the first truthy of the three reply fields, else "No response generated" |
| AiRoutes.ChatReplyBody | backend/routes/ai.js:537-549 | the answer is an object whose members are exactly `success`, `message`, `thinking`, `chatId`, `chat` and those spread from a truthy `data.data` (an object's members, a string's characters or an array's elements under their indices); a spread member overrides, each of the five not overridden keeps its own value (the message being the reply text and the id the stored chat's), and a falsy `data.data` adds nothing |
| AiRoutes.ChatReplyOwn | backend/routes/ai.js:537-548 | the answer's own members are exactly `success`, `message`, `thinking`, `chatId` and `chat` |
| AiRoutes.SendChat | backend/routes/ai.js:447-555 | a failure before the AI reply is answered as it is and changes nothing; a throwing lookup, save or create, or a reply text or truthy thinking the schema cannot cast, answers 500 "Failed to process chat" with the error's message and changes nothing; an unknown chat id is a 404; otherwise the exchange with the chosen reply text and thinking, cast by the schema, is stored as `/chat/save` stores it, and the answer carries the stored chat's id and contents under the AI service's spread data |
| AiServiceClient.Default | backend/utils/aiServiceClient.js:17 | a default parameter replaces an undefined argument only; any other value, falsy or not, is kept |
| AiServiceClient.WithDefaults | backend/utils/aiServiceClient.js:17-105 | content and title pass through; the count defaults to 500, 5 or 10 by generation, and a quiz's difficulty to `medium` |
| AiServiceClient.PrimaryEnvelope | backend/utils/aiServiceClient.js:34-39 | a reply with a `data` member is wrapped with success, that data, a model that is never falsy (the reply's own when truthy) and a cached flag that is false exactly when the reply's is falsy; a reply without `data` throws inside the `try` |
| AiServiceClient.FallbackChoice | backend/utils/aiServiceClient.js:47-57 | a summary falls back to OpenAI exactly when its key is set, longer than 20 characters once trimmed, counted in UTF-16 code units, and not a placeholder, else to Mistral exactly when that key is set; quizzes and flashcards prefer Mistral, then any OpenAI key |
| AiServiceClient.PlaceholderKeyNotUsed | backend/utils/aiServiceClient.js:49 | a key containing the `your-openai-key-here` placeholder pattern, in any letter case, never selects OpenAI for a summary |
| AiServiceClient.PlausibleOpenAiKey | backend/utils/aiServiceClient.js:48-49 | no contract of its own: a non-empty key whose trimmed UTF-16 length exceeds 20 and that does not match the placeholder pattern; see FallbackChoice and PlaceholderKeyNotUsed |
| AiServiceClient.FallbackCall | backend/utils/aiServiceClient.js:145-490 | the provider request carries the generation's prompt, whose content is cut at 2000 UTF-16 code units; a summary's token budget is its length; only Mistral calls set a temperature, of 0.7 |
| AiServiceClient.PromptSeesOnlyPrefix | backend/utils/aiServiceClient.js:159-487 | two requests whose content agrees on its prefix within 2000 UTF-16 code units produce the same provider call |
| AiServiceClient.PromptContentCut | backend/utils/aiServiceClient.js:159 | content of at most 2000 code units reaches the prompt whole, and content made only of characters beyond U+FFFF is cut after its first 1000 characters |
| AiServiceClient.Excerpt | backend/utils/aiServiceClient.js:159-162 | no contract of its own: the title and the content's first 2000 code units as the prompts quote them; see PromptContentCut and PromptSeesOnlyPrefix |
| AiServiceClient.FallbackEnvelope | backend/utils/aiServiceClient.js:177-184 | a fallback answer is wrapped with success, the request's title and the provider's fallback label as its model |
| AiServiceClient.Generate | backend/utils/aiServiceClient.js:17-138 | at most one provider is asked; a usable primary reply is returned unchanged and asks none; without a fallback the error says none is configured; a fallback asked is the chosen one, and its failure or answer gives the matching error or labelled result |
| AiServiceClient.OneFallbackOnly | backend/utils/aiServiceClient.js:185-188 | after a failed primary call exactly the chosen provider is asked, and when it fails the method throws instead of trying the other one |
| AiServiceClient.EmbeddingReply | backend/utils/aiServiceClient.js:317-385 | adding or deleting embeddings never throws: a reply is returned as it is, a failure becomes `success: false` with the error's message |
| AiServiceClient.SearchReply | backend/utils/aiServiceClient.js:344-366 | a search never throws: a failure becomes `success: false` with no results |
| AiServiceClient.HealthReply | backend/utils/aiServiceClient.js:296-312 | the health check reports availability exactly when the service answered, with its status, or else the error |
| OcrProcessor.TextLayerBounds | backend/utils/ocrProcessor.js:14-25 | lengths are UTF-16 code units: a PDF that cannot be parsed, whose text is blank, or whose trimmed text is exactly 100 units has no text layer; more than 100 trimmed characters always make one, and so do more than 50 when all lie beyond U+FFFF; a text layer means more than 100 units of text |
| OcrProcessor.HasTextLayer | backend/utils/ocrProcessor.js:14-25 | no contract of its own: a parsed text longer than 100 UTF-16 code units once trimmed; see TextLayerBounds, ProcessPdf and PdfCleanUp |
| OcrProcessor.ConvertAll | backend/utils/ocrProcessor.js:47-51 | rasterising `n` pages gives `n` image paths |
| OcrProcessor.ConvertAllPages | backend/utils/ocrProcessor.js:48-50 | the i-th path is that of page i + 1, in page order |
| OcrProcessor.ConvertAllFails | backend/utils/ocrProcessor.js:48-57 | a page that fails to rasterise makes the whole extraction fail, however many pages follow |
| OcrProcessor.ExtractImages | backend/utils/ocrProcessor.js:47-53 | the loop yields exactly the paths of pages 1 to the page count, or fails as soon as one page fails |
| OcrProcessor.AsWrittenPageCount | backend/utils/ocrProcessor.js:43-45 | the page count the code reads is the number of `.pdf` entries of the output directory, so at most its number of entries |
| OcrProcessor.FreshTempDirYieldsNoText | backend/utils/ocrProcessor.js:43-51 | read from the freshly created, empty directory the page count is 0 and the scanned text is empty, whereas a document of one page or more read in full has non-empty text |
| OcrProcessor.OcrAll | backend/utils/ocrProcessor.js:112-116 | reading the images gives one text per image |
| OcrProcessor.OcrAllFails | backend/utils/ocrProcessor.js:112-116 | a page that cannot be read makes the whole OCR fail, however many pages follow |
| OcrProcessor.Blocks | backend/utils/ocrProcessor.js:115 | one block per page text, numbered from 1 in order |
| OcrProcessor.PagesTextBlocks | backend/utils/ocrProcessor.js:111-116 | the text built up page by page is the concatenation of the page blocks |
| OcrProcessor.OcrPages | backend/utils/ocrProcessor.js:111-116 | the loop fails exactly when some page fails, and otherwise yields the concatenated page blocks |
| OcrProcessor.ScannedText | backend/utils/ocrProcessor.js:102-116 | no contract of its own: rasterise the pages, read each image, and join the page blocks, or fail at the first failure; see OcrBranch, ScannedTextCoversEveryPage and FreshTempDirYieldsNoText |
| OcrProcessor.ScannedTextCoversEveryPage | backend/utils/ocrProcessor.js:108-116 | with the document's own page count, the scanned text has one block per page, in order |
| OcrProcessor.FileSystem.constructor | backend/utils/ocrProcessor.js:6 | a fresh file system has seen no calls |
| OcrProcessor.FileSystem.Call | backend/utils/ocrProcessor.js:104-135 | each call is recorded after the earlier ones |
| OcrProcessor.FileSystem.UnlinkAll | backend/utils/ocrProcessor.js:119-125 | each image is unlinked once, in order |
| OcrProcessor.OcrBranch | backend/utils/ocrProcessor.js:102-139 | the branch's text is the scanned text; the directory is created first and removed last on every exit, and the images are unlinked only when every page was read |
| OcrProcessor.ProcessPdf | backend/utils/ocrProcessor.js:84-144 | a PDF with a text layer (more than 100 UTF-16 code units once trimmed) returns its text by extraction and touches no file; otherwise the scanned text is returned as OCR, or the failure, with the file calls of the OCR branch |
| OcrProcessor.PdfCleanUp | backend/utils/ocrProcessor.js:118-139 | without a text layer the calls start by creating and end by removing the directory: two calls on failure, and one unlink per page on success |
| OcrProcessor.ProcessImage | backend/utils/ocrProcessor.js:149-161 | an image's text is its OCR result, marked as scanned, or the image failure |
| Documents.LastSegment | backend/routes/documents.js:42 | the segment `path.extname` looks at contains no slash |
| Documents.Extname | backend/routes/documents.js:42 | an extension is empty or starts with its dot |
| Documents.ExtnameOf | backend/routes/documents.js:42 | `stem.ext`, with a non-empty stem and no dot or slash in the extension, has extension `.ext` |
| Documents.NoExtname | backend/routes/documents.js:42 | a last segment with no dot after its first character has no extension |
| Documents.FileType | backend/routes/documents.js:42 | the file type is the lower-cased extension without its dot, and empty without an extension |
| Documents.AllowedTypes | backend/routes/documents.js:41 | no contract of its own: `ALLOWED_FILE_TYPES`, else the default list, split at commas; see UploadFilter and UploadFilterByExtension |
| Documents.UploadFilter | backend/routes/documents.js:40-49 | a file is accepted exactly when its type is among the allowed types, and a refusal names the type |
| Documents.UploadFilterByExtension | backend/routes/documents.js:40-49 | `stem.ext` is accepted exactly when the lower-cased `ext` is allowed |
| Documents.ExtractText | backend/routes/documents.js:53-92 | text and markdown are read as UTF-8, PDFs through the OCR processor, Word files through the docx reader, images by OCR; any other type, and any reader failure, fails with the one extraction error |
| Documents.PdfTextFromProcessor | backend/routes/documents.js:56-63 | a PDF's text is its text layer when it has one, else the scanned text, else the extraction error |
| Documents.SchemaTrim | backend/models/Document.js:4-13 | the `trim: true` setter of `title` and `description`: a string is stored with neither end blank, as a piece of what was given, and any other value as it is |
| Documents.SchemaTrimIdempotent | backend/models/Document.js:7 | setting a trimmed value again changes nothing |
| Documents.FileErrors | backend/models/Document.js:14-25 | no contract of its own: `filename`, `originalName` and `filePath` fail `required` when empty, or, as written, when a document has no file; see SchemaErrors, ProcessTextNeverStores |
| Documents.FileTypeErrors | backend/models/Document.js:26-30 | no contract of its own: an empty type fails `required`, any other type outside the enum fails the enum; see SchemaErrors, ImageUploadRefused |
| Documents.SchemaErrors | backend/models/Document.js:3-38 | a record passes validation exactly when it has a present title and extracted text, a type listed in the enum, and either the three file names of its upload or, where the schema allows it, no file at all |
| Documents.ValidationMessage | backend/models/Document.js:61 | no contract of its own: the message of the validation error of the `Document` model, each failing path with its message; see Upload and ProcessText |
| Documents.BlankTitleRequired | backend/models/Document.js:4-8 | a title of blanks is trimmed to nothing and is the first path reported, as missing |
| Documents.Description | backend/routes/documents.js:111 | the description is the given one, trimmed, when truthy, and otherwise the empty string |
| Documents.UploadRecord | backend/routes/documents.js:109-120 | the stored document is titled by the given title, trimmed, when truthy, else by the original name, trimmed; it holds the description, the extracted text and the file type |
| Documents.Upload | backend/routes/documents.js:95-175 | no file is a 400; a 200 means text was extracted, the record passed the schema and was stored, with nothing unlinked; a valid record is stored whenever the store saves it; any other answer is a 500 that unlinks the uploaded file, with the extraction error or the validation message |
| Documents.ImageTypes | backend/models/Document.js:29 | the upload filter's image types are outside the written enum and inside the intended one |
| Documents.ImageUploadRefused | backend/models/Document.js:26-30 | as written, an image upload is never stored and its file is unlinked; a read image fails the `fileType` enum |
| Documents.IntendedUploadValid | backend/models/Document.js:3-38 | a named upload with a title and some text passes the intended schema exactly when its type is listed |
| Documents.IntendedImageStored | backend/routes/documents.js:41 | with image types storable, a read and named image is stored exactly when the store saves it, as the record the route builds |
| Documents.TextRecord | backend/routes/documents.js:187-194 | the pasted-text document has the trimmed title, the description, the content as its text, type `text` and no file |
| Documents.ProcessText | backend/routes/documents.js:178-216 | a falsy title or content is a 400; nothing is ever unlinked; a document is stored exactly when the answer is 200, and only a record that passed the schema; a validation failure answers with the validation message and a store failure with its own |
| Documents.ProcessTextNeverStores | backend/routes/documents.js:187-196 | as written, `/process-text` never stores a document, because the record lacks `filename`, which the schema requires |
| Documents.IntendedTextStored | backend/routes/documents.js:187-196 | when pasted text needs no file fields, a text with a truthy, non-blank title and truthy content is stored exactly when the store saves it |
| Documents.Flags | backend/routes/documents.js:234-256 | an item keeps the document's id, title and date and has each flag exactly when an artifact of that kind refers to the document |
| Documents.History | backend/routes/documents.js:219-260 | the history has one flagged item per listed document, at most 100, in the listing's order |
| Documents.HistoryOrdered | backend/routes/documents.js:222 | a newest-first listing gives a newest-first history |
| Documents.NormalizeId | backend/routes/documents.js:300-321 | an id is accepted exactly when its first 24 characters are hexadecimal digits, and the id looked up is those 24 characters |
| Documents.NormalizeIdIdempotent | backend/routes/documents.js:303-310 | normalising a normalised id changes nothing, and an id of 24 hexadecimal digits is its own normal form |
| Documents.Without | backend/routes/documents.js:393-397 | removing a document's artifacts keeps exactly the artifacts of other documents, each as many times as before |
| Documents.PlanDelete | backend/routes/documents.js:289-376 | a malformed id is a 400; a document is removed exactly when the normalised id names a stored document, under the lower-cased id; a 24-character id that is unknown is a 404, and a longer one a 500 from the string lookup |
| Documents.DocumentStore.constructor | backend/routes/documents.js:7-10 | a new store is empty |
| Documents.DocumentStore.Delete | backend/routes/documents.js:289-414 | the answer follows the plan; a refused delete changes nothing and unlinks nothing; an accepted one leaves the cascade of the old state and unlinks the removed document's file |
| Documents.Cascade | backend/routes/documents.js:393-399 | no contract of its own: the store without the document and its summaries, quizzes and flashcards; see CascadeRemoves, CascadeComplete and DocumentStore.Delete |
| Documents.CascadeRemoves | backend/routes/documents.js:393-399 | after the cascade the document is gone, every other document stays, and exactly the artifacts of other documents remain |
| Documents.CascadeComplete | backend/routes/documents.js:393-397 | nothing left refers to the removed document, and removing it again changes nothing |
| Documents.WithoutNothing | backend/routes/documents.js:393-397 | removing the artifacts of a document nothing refers to leaves the list as it is |
| DataProcessor.WithoutCr | ai-service/utils/data_processor.py:11 | removing carriage returns leaves none, never lengthens the text, and keeps a text without them as it is |
| DataProcessor.CollapseBlanks | ai-service/utils/data_processor.py:13 | each run of spaces and tabs becomes one space: the result is empty exactly when the line is, starts with a space exactly when the line starts with a blank, has no tab and no two spaces in a row |
| DataProcessor.Debullet | ai-service/utils/data_processor.py:15 | a line starting with bullet characters has them and the blanks after them replaced by `- `; any other line is kept |
| DataProcessor.BulletRun | ai-service/utils/data_processor.py:15 | a run of bullets, then blanks, then text becomes `- ` followed by that text |
| DataProcessor.DebulletTidy | ai-service/utils/data_processor.py:15 | replacing a bullet keeps a line free of carriage returns, tabs and double spaces |
| DataProcessor.CleanLineTidy | ai-service/utils/data_processor.py:13-15 | every cleaned line is free of carriage returns, tabs and double spaces |
| DataProcessor.BlankLineEmpty | ai-service/utils/data_processor.py:12-13 | a line of blanks is kept as an empty line, so paragraph breaks survive |
| DataProcessor.JoinTidy | ai-service/utils/data_processor.py:17 | joining tidy lines with newlines gives tidy text |
| DataProcessor.NormalizedTidy | ai-service/utils/data_processor.py:8-17 | normalised text never holds a carriage return, a tab or two spaces in a row |
| DataProcessor.NormalizeEmpty | ai-service/utils/data_processor.py:8-17 | the empty text normalises to the empty text |
| DataProcessor.NormalizeWs | ai-service/utils/data_processor.py:8-17 | no contract of its own: `_normalize_ws` drops carriage returns, cleans each line and strips the joined text; see NormalizedTidy, NormalizeEmpty, CleanLineTidy and BlankLineEmpty |
| DataProcessor.PageBlocks | ai-service/utils/data_processor.py:69-79 | one block per page |
| DataProcessor.PageBlocksAt | ai-service/utils/data_processor.py:76-79 | the i-th block is page i + 1's header followed by its text |
| DataProcessor.FramePages | ai-service/utils/data_processor.py:69-82 | the page loop builds exactly the PDF text: the normalised pages' blocks joined by blank lines and stripped |
| DataProcessor.EveryPageFramed | ai-service/utils/data_processor.py:74-79 | every page has its block under its own number, and an empty page keeps a bare header so the page count matches |
| DataProcessor.PdfText | ai-service/utils/data_processor.py:69-82 | no contract of its own: the normalised pages under their `[Page n]` headers, joined by blank lines and stripped; see FramePages, PageBlocksAt, EveryPageFramed and ProcessPdf |
| DataProcessor.DocxParagraphLines | ai-service/utils/data_processor.py:137-143 | one line per paragraph, in order; each is a prefix of its paragraph that does not end in whitespace, and only whitespace was dropped from it, so a blank paragraph gives an empty line |
| DataProcessor.DocxParagraphLinesAt | ai-service/utils/data_processor.py:139 | each line is its paragraph right-stripped |
| DataProcessor.DocxTrailingBlanksIgnored | ai-service/utils/data_processor.py:139 | whitespace appended to any paragraph leaves the lines, and so the DOCX text, unchanged |
| DataProcessor.DocxLines | ai-service/utils/data_processor.py:137-143 | the paragraph loop gives exactly the right-stripped lines |
| DataProcessor.DocxText | ai-service/utils/data_processor.py:146-147 | no contract of its own: the right-stripped lines under one synthetic `[Page 1]` header, normalised as a whole; see DocxParagraphLines, NormalizedTidy and ProcessFile |
| DataProcessor.Extension | ai-service/utils/data_processor.py:33 | the extension holds no dot; a name without a dot has none; otherwise the name is everything before its last dot, the dot and the extension |
| DataProcessor.ProcessPdf | ai-service/utils/data_processor.py:54-124 | PyMuPDF's pages when it succeeds, else PyPDF2's, framed the same way; when both fail the PDF error carries PyPDF2's message after "Failed to process PDF: ", and a missing PyPDF2 gives the bare message that a PDF library is required |
| DataProcessor.ProcessFile | ai-service/utils/data_processor.py:26-50 | text types and unknown types are decoded and stripped; PDFs succeed exactly when the PDF extraction does, with its text; Word files give the DOCX text of their right-stripped paragraph lines, the DOCX error after its prefix, or the bare message that python-docx is required; a PDF failure is the PDF error; every failure carries the document-processing prefix |
| DataProcessor.ValidateFile | ai-service/utils/data_processor.py:158-165 | a file is valid exactly when its lower-cased extension is one of txt, pdf, docx, doc, md and markdown |
| DataProcessor.TextExtension | ai-service/utils/data_processor.py:33 | a lower-case `stem.text` has extension `text` |
| DataProcessor.TextExtensionRefused | ai-service/utils/data_processor.py:35-163 | a `.text` file is processed as text yet refused by the validation |
| VectorDb.ChunkCount | ai-service/utils/vector_db.py:154-160 | the loop makes no window exactly when the text is empty |
| VectorDb.ChunkCountCovers | ai-service/utils/vector_db.py:154 | the windows reach the end of the text, and the last one starts inside it |
| VectorDb.ChunkCountUnique | ai-service/utils/vector_db.py:154 | the window count is the only count that covers the text with a last window starting inside it |
| VectorDb.StrideOf | ai-service/utils/vector_db.py:154-160 | every position lies in the stride of exactly one window start |
| VectorDb.Chunks | ai-service/utils/vector_db.py:149-162 | there are as many chunks as windows needed to cover the text |
| VectorDb.ChunkText | ai-service/utils/vector_db.py:149-162 | the loop produces exactly the chunk windows |
| VectorDb.WindowShape | ai-service/utils/vector_db.py:155-156 | each chunk is the text from its start for up to the chunk size, non-empty and starting inside the text |
| VectorDb.EmptyTextHasNoChunks | ai-service/utils/vector_db.py:154 | the empty text has no chunks |
| VectorDb.EveryCharacterCovered | ai-service/utils/vector_db.py:149-162 | every character of the text appears in some chunk at the offset its position dictates |
| VectorDb.NeighboursOverlap | ai-service/utils/vector_db.py:160 | each chunk but the last is full length past the stride, and its last `overlap` characters begin the next chunk |
| VectorDb.ChunkIdsDistinct | ai-service/utils/vector_db.py:62 | distinct chunk numbers give distinct ids |
| VectorDb.ChunkId | ai-service/utils/vector_db.py:62 | no contract of its own: `<document id>_chunk_<i>`; see ChunkIdsDistinct and NewRowsAt |
| VectorDb.ChunkMetadata | ai-service/utils/vector_db.py:63-70 | the caller's metadata is kept, with the chunk number and a preview of at most 100 leading characters added over it |
| VectorDb.NewRows | ai-service/utils/vector_db.py:56-78 | one row per chunk |
| VectorDb.NewRowsAt | ai-service/utils/vector_db.py:62-77 | row i holds chunk i and chunk number i, and the rows' ids are pairwise distinct |
| VectorDb.NewRowsBelong | ai-service/utils/vector_db.py:63-66 | a new row belongs to a document exactly when the caller's metadata names it |
| VectorDb.Where | ai-service/utils/vector_db.py:122-124 | the lookup keeps exactly the rows whose metadata names the document |
| VectorDb.Without | ai-service/utils/vector_db.py:118-134 | deleting keeps exactly the rows whose metadata does not name the document |
| VectorDb.WhereAppend | ai-service/utils/vector_db.py:122-124 | the lookup distributes over appended rows |
| VectorDb.WhereAll | ai-service/utils/vector_db.py:122-124 | rows that all belong to the document are all found |
| VectorDb.WhereNone | ai-service/utils/vector_db.py:122-124 | rows none of which belong to the document give nothing |
| VectorDb.Views | ai-service/utils/vector_db.py:171-178 | one returned chunk per row, carrying its text, metadata and id |
| VectorDb.Insert | ai-service/utils/vector_db.py:180 | inserting grows the list by one, at its front or behind its first element |
| VectorDb.InsertSorted | ai-service/utils/vector_db.py:180 | inserting into a list in chunk order keeps it in chunk order |
| VectorDb.InsertPermutes | ai-service/utils/vector_db.py:180 | inserting adds exactly the one chunk |
| VectorDb.SortByKey | ai-service/utils/vector_db.py:180 | the sort gives a permutation in chunk order |
| VectorDb.InsertStable | ai-service/utils/vector_db.py:180 | insertion puts a chunk before the later chunks of equal number |
| VectorDb.SortStable | ai-service/utils/vector_db.py:180 | like Python's `sorted`, the sort keeps chunks of equal number in their original order |
| VectorDb.SortSorted | ai-service/utils/vector_db.py:180 | a list already in chunk order is returned unchanged |
| VectorDb.DocumentChunks | ai-service/utils/vector_db.py:164-184 | a document's chunks are read back in chunk order and are exactly its rows |
| VectorDb.ChunkStore.constructor | ai-service/utils/vector_db.py:45-48 | a new store holds no rows |
| VectorDb.ChunkStore.AddDocument | ai-service/utils/vector_db.py:52-85 | success exactly when nothing failed, and then the store gains exactly the new rows after the old ones; a failure writes nothing |
| VectorDb.ChunkStore.DeleteDocument | ai-service/utils/vector_db.py:118-134 | success exactly when nothing failed, and then exactly the document's rows are gone; a failure changes nothing |
| VectorDb.ChunkStore.UpdateDocument | ai-service/utils/vector_db.py:136-147 | the delete's effect and then the add's; the answer is the add's, whether or not the delete failed |
| VectorDb.UpdateReplaces | ai-service/utils/vector_db.py:136-143 | after a successful update the document's rows are exactly its new rows |
| VectorDb.UpdateKeepsOthers | ai-service/utils/vector_db.py:136-143 | an update leaves every other document's rows unchanged |
| VectorDb.NewRowsOrdered | ai-service/utils/vector_db.py:62-70 | new rows are written in chunk order |
| VectorDb.UpdateReadsBack | ai-service/utils/vector_db.py:136-184 | after a successful update the document reads back as its new chunks, in order |
| VectorDb.WhereWithout | ai-service/utils/vector_db.py:118-127 | deleting one document leaves the rows of every other document as they were |
| VectorDb.FailedUpdateLosesChunks | ai-service/utils/vector_db.py:139-143 | an update whose add fails has still removed the document's old rows |
| CacheManager.Lookup | ai-service/utils/cache_manager.py:51-59 | a read answers exactly when the key is stored and has not expired, with its stored value |
| CacheManager.AfterLookup | ai-service/utils/cache_manager.py:51-57 | a read removes the key if it has expired, and touches nothing else |
| CacheManager.Stored | ai-service/utils/cache_manager.py:75-79 | a write adds or replaces exactly that key, expiring `ttl` seconds from now, and keeps every other entry |
| CacheManager.Removed | ai-service/utils/cache_manager.py:89-90 | a delete removes exactly that key, if present |
| CacheManager.Cache.constructor | ai-service/utils/cache_manager.py:13-14 | a new cache is empty |
| CacheManager.Cache.Get | ai-service/utils/cache_manager.py:42-63 | the read's answer and the cache after it are those of the lookup and its expiry |
| CacheManager.Cache.Set | ai-service/utils/cache_manager.py:65-81 | the cache after a write is the stored map |
| CacheManager.Cache.Delete | ai-service/utils/cache_manager.py:83-92 | the cache after a delete is the map without the key |
| CacheManager.Cache.Clear | ai-service/utils/cache_manager.py:94-100 | clearing leaves no entry |
| CacheManager.ReadAfterWrite | ai-service/utils/cache_manager.py:54-78 | a written value reads back until its expiry instant and not at or after it |
| CacheManager.DefaultLifetime | ai-service/utils/cache_manager.py:65 | with the default lifetime a value is still there after 3599 seconds and gone after 3600 |
| CacheManager.WriteIsolated | ai-service/utils/cache_manager.py:76 | a write never changes what another key reads |
| CacheManager.LookupStable | ai-service/utils/cache_manager.py:51-57 | the removal made by a read never changes what another key reads at the same instant |
| CacheManager.MissingKey | ai-service/utils/cache_manager.py:51-59 | an absent key reads as nothing and the read changes nothing |
| CacheManager.DeleteEffect | ai-service/utils/cache_manager.py:89-90 | a deleted key reads as nothing, other keys read as before, and deleting an absent key changes nothing |
| CacheManager.SizeCountsExpired | ai-service/utils/cache_manager.py:76-118 | an expired entry still counts in the reported size until a read of it removes it |
| AppContext.ScoreQuizzes | app/src/context/AppContext.jsx:75-79 | the score update maps each quiz in place, keeping the number of quizzes |
| AppContext.ScoreQuiz | app/src/context/AppContext.jsx:75-79 | no contract of its own: one quiz after a score update; see ScoreQuizzes, ScoreUpdate and NullScorePayload |
| AppContext.Reduce | app/src/context/AppContext.jsx:30-85 | the reducer throws exactly on a score update of a non-empty quiz list whose payload or some quiz is null or undefined |
| AppContext.ReduceFrames | app/src/context/AppContext.jsx:30-85 | each action changes only the fields its kind names, and an unknown kind changes nothing |
| AppContext.ErrorActions | app/src/context/AppContext.jsx:38-42 | setting an error also stops loading; clearing the error sets it to null |
| AppContext.ListActions | app/src/context/AppContext.jsx:44-70 | documents, summaries and quizzes are appended, the added document becomes the current one, and history entries are prepended |
| AppContext.ScoreUpdate | app/src/context/AppContext.jsx:72-80 | the quiz count is kept; exactly the quizzes whose id strictly equals the payload's quiz id get its score and are marked completed, the others are unchanged |
| AppContext.ScoreUpdateThrows | app/src/context/AppContext.jsx:75-76 | a null or undefined quiz in the list makes the update throw |
| AppContext.NullScorePayload | app/src/context/AppContext.jsx:75-76 | a null score payload throws exactly when there are quizzes, and with none the state stays as it is |
| AppContext.RunAppend | app/src/context/AppContext.jsx:100-103 | dispatching two action lists one after the other is dispatching their concatenation |
| AppContext.RunStep | app/src/context/AppContext.jsx:100-103 | a restore step dispatches its action only when the saved field is truthy, and never throws |
| AppContext.RestoreStep | app/src/context/AppContext.jsx:100-103 | no contract of its own: one `ADD_*` action for a truthy saved field, none otherwise; see RunStep, RestoreActions and RestoreWraps |
| AppContext.Run | app/src/context/AppContext.jsx:100-103 | dispatching no action keeps the state, and a list without score updates never throws |
| AppContext.RestoreActions | app/src/context/AppContext.jsx:95-108 | nothing saved, or a null parse, dispatches nothing; otherwise at most four `ADD_*` actions, each with a truthy payload |
| AppContext.RestoreWraps | app/src/context/AppContext.jsx:95-108 | restoring into the initial state puts each saved list into its list as one single element, and the saved documents list becomes the current document |
| AppContext.NothingRestored | app/src/context/AppContext.jsx:96-107 | with nothing saved, unparsable data or a null parse result the state stays initial |
| AppContext.SaveRestoreNests | app/src/context/AppContext.jsx:98-118 | as written, a state with one document, saved and restored, comes back with the saved list as its one document |
| AppContext.Restore | app/src/context/AppContext.jsx:95-108 | the corrected restore puts each saved list back as the state's list and changes nothing else; without saved data it is the initial state |
| AppContext.SaveRestoreRoundTrip | app/src/context/AppContext.jsx:95-119 | with the corrected restore, saving and restoring gives back every list as it was, in order |
| Flashcards.FirstOf | app/src/pages/flashcards.jsx:26-29 | a card field is the first truthy of its alternatives, else its fallback label, so it is always truthy |
| Flashcards.NormalizeCard | app/src/pages/flashcards.jsx:25-30 | a card keeps its number and has a truthy front, back, category and difficulty; a truthy category or difficulty is kept as given |
| Flashcards.Normalize | app/src/pages/flashcards.jsx:21-31 | normalising throws exactly when truthy passed cards are not an array or a card of the list read is null or undefined; otherwise one card per raw card |
| Flashcards.NormalizedCards | app/src/pages/flashcards.jsx:21-31 | the cards shown are the passed (else loaded) ones, in order, numbered 1..n, each with a truthy front and back |
| Flashcards.CardFront | app/src/pages/flashcards.jsx:26-27 | the front prefers term, then front, then question, falling back to "Term"; the back falls back to "Definition" |
| Flashcards.NormalizeThrows | app/src/pages/flashcards.jsx:22-24 | truthy passed cards that are not an array cannot be mapped and throw |
| Flashcards.NextIndex | app/src/pages/flashcards.jsx:67 | the next index always names a card of the deck |
| Flashcards.PrevIndex | app/src/pages/flashcards.jsx:73 | the previous index always names a card of the deck |
| Flashcards.NavigationInverse | app/src/pages/flashcards.jsx:66-76 | next then previous, and previous then next, return to the same card |
| Flashcards.Toggled | app/src/pages/flashcards.jsx:59-64 | flipping turns over exactly the one card and leaves every other card's state alone |
| Flashcards.Deck.constructor | app/src/pages/flashcards.jsx:14-15 | a deck opens on the first card with nothing turned over |
| Flashcards.Deck.CurrentCard | app/src/pages/flashcards.jsx:78 | the card shown is the one at the index, or the empty placeholder card when the index is past the end |
| Flashcards.Deck.SetCards | app/src/pages/flashcards.jsx:21-31 | new cards replace the deck without resetting the index or the flip state |
| Flashcards.Deck.FlipCard | app/src/pages/flashcards.jsx:59-64 | flipping updates the flip state by Toggled and nothing else |
| Flashcards.Deck.Next | app/src/pages/flashcards.jsx:66-70 | on a non-empty deck it moves to NextIndex and turns every card face up; on an empty one nothing changes (the guard at :316) |
| Flashcards.Deck.Prev | app/src/pages/flashcards.jsx:72-76 | on a non-empty deck it moves to PrevIndex and turns every card face up; on an empty one nothing changes (the guard at :283) |
| Flashcards.Deck.Jump | app/src/pages/flashcards.jsx:298-303 | a dot moves straight to its card and turns every card face up |
| History.Truncate | app/src/pages/history.jsx:35 | an id is cut to its first 24 characters, so it is a prefix of at most 24 characters, unchanged when short enough |
| History.DisplayId | app/src/pages/history.jsx:31-35 | a document is shown under a prefix of at most 24 characters of `String(id || _id)`, its id's when truthy |
| History.Fetch | app/src/pages/history.jsx:17-26 | the history endpoint's answer is used when it succeeds, the documents listing's otherwise |
| History.LoadedItems | app/src/pages/history.jsx:29-46 | a null response or a truthy non-array `documents` throws; a falsy `documents` gives no items; otherwise one item per document |
| History.Load | app/src/pages/history.jsx:16-46 | loading reads the history answer when it succeeded, the listing's when only that succeeded, and nothing when both failed |
| History.LoadedIds | app/src/pages/history.jsx:29-46 | every loaded item is an object whose id is its document's id (or _id), truncated to 24 characters, and is matched by that id when deleting |
| History.ShortId | app/src/pages/history.jsx:95-97 | an item is matched by a prefix of at most 24 characters of its id |
| History.DeleteCandidate | app/src/pages/history.jsx:75-82 | the id a delete sends is the clicked id trimmed and cut to at most 24 characters |
| History.DeleteTarget | app/src/pages/history.jsx:75-88 | a delete goes ahead exactly when the trimmed, truncated id is 24 hex digits, and otherwise fails with the message naming its length |
| History.ServerAcceptsSentId | app/src/pages/history.jsx:85-91 | any id the page sends passes the server's own id check unchanged |
| History.Remaining | app/src/pages/history.jsx:93-102 | after a delete exactly the items whose truncated id differs from the deleted id remain |
| History.RemainingOfOne | app/src/pages/history.jsx:93-102 | a one-item list keeps its item exactly when the item's truncated id differs from the deleted id |
| History.RemainingAppend | app/src/pages/history.jsx:93-102 | the items left from a concatenation are those left from each part, concatenated: with the one-item case, order and repetitions are kept as `filter` keeps them |
| History.RemainingNothing | app/src/pages/history.jsx:93-102 | deleting an id that matches no item leaves the list as it was |
| History.CheckId | app/src/pages/history.jsx:75-88 | the local check computes DeleteTarget |
| History.Sent | app/src/pages/history.jsx:69-91 | a delete request is sent exactly when confirmed and the trimmed, truncated id is 24 hex digits, and it sends that id |
| History.DeleteAlert | app/src/pages/history.jsx:67-108 | nothing is alerted exactly when the delete is declined or succeeds; an invalid id alerts the format message, a failed request the server's message or the default |
| History.FailureAlert | app/src/pages/history.jsx:104-107 | no contract of its own: the server's message, else the default; see DeleteAlert and HistoryPage.HandleDelete |
| History.HistoryPage.constructor | app/src/pages/history.jsx:10-12 | the page starts with no items, loading, and no menu open |
| History.HistoryPage.LoadItems | app/src/pages/history.jsx:16-58 | loading stores the loaded items when a response could be read, keeps the old list otherwise, and always ends loading |
| History.HistoryPage.HandleDelete | app/src/pages/history.jsx:67-109 | nothing is sent unless confirmed and the id is valid; a successful delete removes the matching items and closes the menu; any failure alerts the server's message, else the default |
| Chat.Greeting | app/src/pages/chat.jsx:38-43 | mornings run to noon, afternoons to six, evenings after |
| Chat.DiffDays | app/src/pages/chat.jsx:410-411 | the day count is the distance between the instants rounded up to whole days, in either direction |
| Chat.FormatDate | app/src/pages/chat.jsx:406-417 | no date gives an empty label; 1 day is "Today", 2 "Yesterday", fewer than 7 "n days ago", the locale's date after that |
| Chat.DateBands | app/src/pages/chat.jsx:410-415 | the last 24 hours are "Today", the same instant is "0 days ago", and the day before is "Yesterday" |
| Chat.HistoryMessages | app/src/pages/chat.jsx:199-204 | the history sent holds only non-system turns, and a turn exactly for each non-system message |
| Chat.HistoryOfOne | app/src/pages/chat.jsx:199-204 | one message contributes its role and content, unless it is a system message |
| Chat.HistoryAppend | app/src/pages/chat.jsx:199-204 | the history of two conversations in a row is their histories in a row, so the filter keeps the messages' order and multiplicity |
| Chat.HistoryKeepsConversation | app/src/pages/chat.jsx:199-204 | a conversation without system messages is sent whole and in order |
| Chat.CreationTitle | app/src/pages/chat.jsx:169 | a new chat is titled by its message when it has at most 50 UTF-16 code units, else by a proper prefix of 49 or 50 code units and "..."; in the basic plane that is its first 50 characters |
| Chat.TitlesDisagreeOnShortMessages | app/src/pages/chat.jsx:169 | for a short message with no server title, the creation title is the message while the fallback sidebar title (:324) adds "..." |
| Chat.FallbackTitle | app/src/pages/chat.jsx:324 | the sidebar shows a truthy server title as it is; otherwise the first 50 code units of the message followed by "...", even when the message is shorter |
| Chat.Reply | app/src/pages/chat.jsx:231-237 | the reply is an assistant message whose id is one after the clock read once the requests have settled (not the user's clock reading), carrying the error text when both requests failed (:344-349) |
| Chat.CanSendIffNonBlank | app/src/pages/chat.jsx:154 | a send is allowed exactly when the input holds a non-whitespace character and nothing is loading or streaming |
| Chat.StreamedReply | app/src/pages/chat.jsx:232-237 | a streamed reply shows the result's message, else the last streamed text, and its thinking falls back to null |
| Chat.AfterSendAsWritten | app/src/pages/chat.jsx:154-355 | as written, a send appends the user's trimmed message and the reply, clears the input and streaming, and leaves loading on exactly when both requests failed |
| Chat.StuckAfterFailure | app/src/pages/chat.jsx:351-355 | as written, once both requests fail loading stays on and every later send is refused until another chat is loaded |
| Chat.AfterLoadChat | app/src/pages/chat.jsx:79-104 | loading a chat replaces the conversation with the stored messages when the server returns them, keeps it otherwise, and leaves loading off whatever happened |
| Chat.LoadUnsticks | app/src/pages/chat.jsx:101-103 | after a double failure, loading a chat (or failing to) makes a non-blank input sendable again |
| Chat.AfterSend | app/src/pages/chat.jsx:154-355 | a send appends the user's trimmed message and the reply, clears the input, and leaves nothing loading, streaming or thinking |
| Chat.SendCanRepeat | app/src/pages/chat.jsx:154 | after any send a non-blank input can be sent again |
| Chat.SendFixOnlyLoading | app/src/pages/chat.jsx:351-355 | the corrected send differs from the one as written only in the loading flag, and only after a double failure |
| Chat.ChatPage.constructor | app/src/pages/chat.jsx:154 | the page starts with no messages and nothing loading, streaming or thinking |
| Chat.ChatPage.Send | app/src/pages/chat.jsx:151-360 | a refused send changes nothing and sends nothing; an accepted one sends the trimmed text with the prior history and moves to AfterSend |
| ProfileIcon.FirstUpper | app/src/components/ProfileIcon.jsx:52-53 | the initial of a name is its first character upper-cased, or nothing for an empty name |
| ProfileIcon.Initials | app/src/components/ProfileIcon.jsx:48-55 | without a user the initials are "U"; otherwise they are one or two characters |
| ProfileIcon.InitialsShape | app/src/components/ProfileIcon.jsx:50-54 | the initials begin with the first name's initial, or "U" when it is empty, and have a second letter exactly when there is a last name, its initial |
| ProfileIcon.CharCode | app/src/components/ProfileIcon.jsx:72 | `charCodeAt` yields a UTF-16 code unit, below 65536 |
| ProfileIcon.ColorIndex | app/src/components/ProfileIcon.jsx:72 | a non-empty string picks the colour of its first code unit modulo 8, a value without length picks the first colour, and only a non-empty array throws |
| ProfileIcon.UserString | app/src/components/ProfileIcon.jsx:71 | no contract of its own: `user.email || user._id || user.id || ''`; see BgColor, SameEmailSameColor and FallbackPurple |
| ProfileIcon.BgColor | app/src/components/ProfileIcon.jsx:58-74 | no user is purple; a user gets the colour of their email, else their id |
| ProfileIcon.SameEmailSameColor | app/src/components/ProfileIcon.jsx:71-73 | two users with the same email get the same colour whatever their ids |
| ProfileIcon.FallbackPurple | app/src/components/ProfileIcon.jsx:71-73 | a user with no email and no id is purple, like no user |
| UseAi.StripExtension | app/src/hooks/useAI.js:20 | the untitled upload's name is the file name with at most one final extension removed |
| UseAi.StripExtensionExact | app/src/hooks/useAI.js:20 | wherever the name ends in an extension, exactly that extension is removed |
| UseAi.StripExtensionKeeps | app/src/hooks/useAI.js:20 | a name that ends in no extension is kept |
| UseAi.DocumentRequest | app/src/hooks/useAI.js:17-31 | a file-like value is uploaded when it has a truthy title or a string name, under the title when truthy; a file-like value with neither throws a TypeError; a string is sent as text; anything else fails with "Unsupported content type" |
| UseAi.UploadTitle | app/src/hooks/useAI.js:17-22 | an upload with no title is titled by its file name without the extension |
| UseAi.ReadProcessed | app/src/hooks/useAI.js:34-40 | the result reads the nested document when there is one, else the body itself, and always carries a processing time |
| UseAi.DocumentId | app/src/hooks/useAI.js:62-65 | the id is the content when a string, else its id, else its _id, and a missing one fails naming the generation (also :96-99, :142-145) |
| UseAi.MissingIdThrows | app/src/hooks/useAI.js:62-65 | null, an empty string or an object without ids fails before any request |
| UseAi.GenerationRequest | app/src/hooks/useAI.js:62-67 | a generation is requested exactly when a document id is found, and fails with the id's error otherwise (also :96-106, :142-149) |
| UseAi.Defaults | app/src/hooks/useAI.js:67 | without options a summary asks for 500 characters, a quiz for 5 medium questions (:105-106) and flashcards for 20 cards (:149) |
| UseAi.ZeroFallsBack | app/src/hooks/useAI.js:149 | a given number of cards is sent, except 0, which falls back to 20 |
| Users.DashboardUsage | backend/routes/users.js:36-42 | the dashboard reports each count as counted, and the total is their sum |
| Users.PeriodDays | backend/routes/users.js:65-83 | "7d" and "90d" look back 7 and 90 days; every other period, and no period, 30 |
| Users.StartDate | backend/routes/users.js:68-83 | activity is counted from the period's number of days before now |
| Users.PeriodWindows | backend/routes/users.js:71-83 | the windows are 604800000, 7776000000 and, for anything else, 2592000000 milliseconds |
| Users.PageCount | backend/routes/users.js:183 | a positive limit gives the number of pages that covers the total; a zero limit gives NaN for no documents and Infinity otherwise |
| Users.Skip | backend/routes/users.js:157 | no contract of its own: `(page - 1) * limit`; see PageOf, PagesAdjacent and DefaultListing |
| Users.PageOf | backend/routes/users.js:155-183 | with a positive limit every document lies on a page between 1 and the page count, inside that page's window |
| Users.PagesAdjacent | backend/routes/users.js:157 | each page starts where the one before ends, and the first page starts at 0 |
| Users.DefaultListing | backend/routes/users.js:155-157 | without query values the listing is the first page of ten |
| Users.ZeroLimit | backend/routes/users.js:183 | with limit 0 the page count is NaN exactly when there are no documents and Infinity exactly when there are some |
| Users.HistoryQuery | backend/routes/users.js:155-163 | the listing filters by type only for a type other than "all", the default |
| Users.DeleteAccount | backend/routes/users.js:200-205 | deleting the account always fails with 501 and the message that there are no accounts |
| UserModel.IndexFrom | backend/models/User.js:21 | the search finds the first occurrence at or after the start, and reports none exactly when there is none |
| UserModel.EmailValidMatches | backend/models/User.js:21 | the one-pass email check accepts exactly the addresses the pattern matches |
| UserModel.MatchesEmail | backend/models/User.js:21 | no contract of its own: the pattern `^\S+@\S+\.\S+$` written as a predicate; see EmailValidMatches and Validate |
| UserModel.PhoneForms | backend/models/User.js:27 | a phone number is valid with or without its "+", and a valid one has 2 to 15 digits and does not start with 0 |
| UserModel.PhoneValid | backend/models/User.js:27 | no contract of its own: the pattern `^\+?[1-9]\d{1,14}$` written as a predicate; see PhoneForms and Validate |
| UserModel.NewUser | backend/models/User.js:4-94 | a new user keeps the password given, stores the email trimmed and lower-cased, and has every default: no avatar, dark theme, English, both notifications, the free plan, active |
| UserModel.FullName | backend/models/User.js:113-115 | the full name is the first name, one space, and the last name |
| UserModel.Validate | backend/models/User.js:5-33 | a user validates exactly when both names are present, the email and phone number match their patterns and the password has at least 6 UTF-16 code units |
| UserModel.BlankNameRequired | backend/models/User.js:5-9 | a first name of blanks is trimmed to nothing and fails as required, first among the messages |
| UserModel.ComparePassword | backend/models/User.js:118-121 | without a stored password every candidate is refused; otherwise the hash comparison decides |
| UserModel.SavedPassword | backend/models/User.js:100-110 | a save hashes the password only when it was changed |
| UserModel.HashOnce | backend/models/User.js:100-110 | saving again without a change keeps the hash rather than hashing it twice |
| Auth.Register | backend/routes/auth.js:10-95 | a registration stores a user exactly when it answers 201, and the stored password is the hash of the one given |
| Auth.ProfileJson | backend/routes/auth.js:68-77 | the members every reply's user shares: the id, the email, the full name, the preferences and the subscription, and never `usage` or the password |
| Auth.UserJson | backend/routes/auth.js:65-78 | the user of a reply carries the id, names, full name, email, phone number, preferences and subscription and never the password; `usage` exactly when asked for, as the login answers at :137-147 |
| Auth.RegisterChecks | backend/routes/auth.js:24-36 | the route's own checks pass exactly when every field is present, the password has at least 6 UTF-16 code units and no user has the email |
| Auth.AstralPasswordLongEnough | backend/routes/auth.js:28 | `password.length` counts code units, so three characters outside the basic plane are long enough |
| Auth.SaveReply | backend/routes/auth.js:56-93 | a save stores the user with the password hashed (backend/models/User.js:100-110) and answers 201; a duplicate key and a validation error answer 400 and store nothing |
| Auth.ValidationFailed | backend/routes/auth.js:52-53 | no contract of its own: `Validation failed: ` and the messages joined by `, `; see Register and SaveReply |
| Auth.RegisterOrder | backend/routes/auth.js:24-36 | a missing field is reported before a short password, and a short password before a taken email |
| Auth.RegisteredValid | backend/routes/auth.js:24-65 | a stored user has passed every check: unused email, long enough password, valid email and phone, both names, and it is the new user with the password hashed |
| Auth.RegisterSaves | backend/routes/auth.js:39-56 | once the route's checks and the schema's validation pass, the reply is decided by the save alone |
| Auth.Login | backend/routes/auth.js:98-157 | a login succeeds only for a found, active user whose password compares true |
| Auth.LoginIndistinguishable | backend/routes/auth.js:108-122 | an unknown email and a wrong password get the same reply, whether or not the account is active |
| Auth.DeactivatedAfterPassword | backend/routes/auth.js:103-122 | the deactivated reply is given exactly to a found, inactive user whose password compares true |
| Auth.ProfileUpdates | backend/routes/auth.js:189-195 | the update holds exactly the truthy names, phone number and preferences given; the preferences are merged over the current ones |
| Auth.PreferencesMerge | backend/routes/auth.js:195 | merged preferences take each given key's new value and keep every other current key |
| Auth.ChangePasswordReply | backend/routes/auth.js:230-256 | a change succeeds exactly when both passwords are given, the new one has at least 6 UTF-16 code units, the current one compares true and the save succeeds |
| Auth.Account.constructor | backend/routes/auth.js:241 | an account holds the stored password it is given |
| Auth.Account.ChangePassword | backend/routes/auth.js:228-256 | a successful change stores the new password's hash; any other reply leaves the stored password alone |
| Auth.ChangeRefused | backend/routes/auth.js:236-247 | a new password under 6 characters is refused first, then a current password that compares false |
| PyJson.DumpsObject | ai-service/main.py:108 | an event is written as one JSON object of printable ASCII characters, braces first and last |
| PyJson.DumpsHasNoNewline | ai-service/main.py:108 | an encoded event contains no line break, so each frame's payload stays on its `data: ` line |
| PyJson.EscapeRoundTrip | ai-service/main.py:108 | every string the encoder escapes, including characters outside the basic plane, reads back unchanged |
| Js.IndexFieldsAt | app/src/pages/history.jsx:42-45 | spreading a list gives the keys "0" to "n-1", each holding its element, and no other key |
| Js.Spread | backend/routes/auth.js:195 | object spread copies an object's members, a list's or a string's elements under their indices, and nothing for any other value |
| Js.SpreadIndices | backend/routes/auth.js:195 | `{..."ab"}` is `{0: "a", 1: "b"}`, and a one-element list spreads to its element under "0" |
| Strings.Utf16Length | backend/routes/ai.js:30 | a string's `length` counts UTF-16 code units: at least one and at most two per character, and 0 only for the empty string |
| Strings.Utf16LengthAppend | backend/routes/ai.js:30 | the code-unit length of a concatenation is the sum of the lengths |
| Strings.Utf16LengthBmp | backend/routes/ai.js:30 | in the basic plane the code-unit length is the number of characters |
| Strings.Utf16AstralCounts | backend/routes/ai.js:30 | three characters outside the basic plane have length 6 |
| Strings.Utf16Prefix | backend/routes/ai.js:392 | the longest prefix of whole characters within `n` code units: the whole string when it fits, and otherwise one more character would exceed `n` |
| Strings.Utf16PrefixBmp | backend/routes/ai.js:392 | in the basic plane the prefix of `n` code units is the first `n` characters |

## Left out

- Quiz text parsing and attempt grading. The repository's code has no parser for quiz text and no grader; `app/src/pages/quiz.jsx` and `app/src/pages/score.jsx` render fixed sample answers.
- Model inference. The tokenizer's `encode` and `decode`, token generation and the models' loading are parameters; `_chat` and the body of `_chat_stream` belong to the machine-learning libraries.
- Network clients: axios, fetch, the OpenAI SDK and the Mistral HTTP calls. Each call is a parameter that answers or fails; `JSON.parse` of a provider's text is part of that answer.
- Persistence. Mongoose queries and the connection are parameters or plain collections. Of the schemas, the setters and validators of the User schema and of the Document schema are modelled, and so is the Chat schema's cast of a message's `content` and `thinking` to text together with its `required` content; the others supply only their enums and field types. The message of the validation error an uncastable exchange raises is passed in. A document lookup (`Document.findById`) and a chat's `findOne`, `save` and `create` in the AI routes are outcomes passed in, each either an answer or the message of the error it throws; the save of an artifact is an outcome passed in, and the order in which Mongoose reports several validation errors is taken as schema-field order.
- The PDF, OCR and DOCX libraries (pdf-parse, pdf2pic, Tesseract, mammoth, PyMuPDF, python-docx). They are extractors passed in; only the decisions and the concatenation around them are modelled.
- Decoding bytes in the AI service's `process_file`: the decoded text is a parameter.
- The Redis branch of the cache, and ChromaDB's embeddings and similarity search. These use floating point, so the chunk store is a plain list of rows and `search`, `health_check` and the embedding calls are left out.
- VectorDb.ChunkStore.AddDocument: ChromaDB's treatment of an id that is already stored is not modelled; rows are appended.
- VectorDb.SortByKey: a missing `chunk_index` sorts as 0, as in the source. A stored index that is not an integer also sorts as 0, whereas Python would compare it as it is.
- VectorDb.ChunkText: requires `overlap < size`. The source's loop does not terminate otherwise, and its only caller passes 512 and 50.
- bcrypt hashing and JWT signing. The hash is a function passed in, a comparison is an outcome, and a token is a string.
- `updateLastActive`, the `/me` route, and the race in which the user found by `findById` disappears during a password change.
- Auth.ProfileUpdates: the body fields are JSON values, but the current preferences are a parameter rather than read from the signed-in user.
- Auth.Register: body fields are strings, an absent one being "". A non-string field, which the source would pass to `.length` or to Mongoose, is not represented.
- Users: query values arrive as numbers, so the string arithmetic JavaScript would do on `page` and `limit` is not modelled. The aggregated activity timeline of `/stats` is a database query and is left out.
- The other chat routes of `backend/routes/ai.js`: listing chats, reading a chat, creating, renaming and deleting one. They are plain database reads and writes.
- The summary route's catch around persistence. The stored artifact is an outcome, and a failure to store it does not change the reply, which is what the model states.
- Documents: the `my-documents` and `GET /:id` routes, multer's size limit and file naming, and Express's error handler are left out.
- AiRoutes.SchemaString: JSON numbers are whole numbers here, so a number is cast to its decimal digits; the text JavaScript gives a fraction or an exponent is not modelled.
- Documents.SchemaTrim: a title, description or content that is not a string is kept as given. Mongoose would first cast it to a string, or refuse it with a cast error, and that is not modelled.
- Documents.SchemaErrors: only the validators the routes' records can fail are checked: `required`, the trimmed title and the `fileType` enum. The routes set `status` and `userId` to values the schema accepts. The store's answer once validation passes is a parameter.
- Documents.PlanDelete: the cast error Mongoose raises for a malformed id in the raw-string lookup is a parameter (`castError`).
- Documents.DocumentStore.Delete: the fire-and-forget request that deletes embeddings is not modelled; its result never reaches the reply.
- Documents.History: a failure of the history store's queries, answered with 500, is left out.
- OcrProcessor: a failure to create the temporary directory is left out. So are the libraries' own page rasterisation and recognition.
- AppContext: reading and writing `localStorage` is I/O. The saved data arrives already parsed, and `JSON.parse` of what `JSON.stringify` wrote is taken to give back the saved value.
- UseAi: `instanceof File` is a boolean parameter, and duck typing is read only through `name` and `size`.
- Chat: the background save scheduled with `setTimeout`, the sidebar bookkeeping and the chat-creation request are left out; the chat id they produce does not reach the messages.
- Chat.FormatDate: a date is an optional number of milliseconds. The source treats every falsy date (an empty string, or the instant 0) as no date; the caller maps such a value to `None`.
- Case mapping (`toLowerCase`, `toUpperCase`, `lower()`) covers ASCII letters only.
- ProfileIcon.ColorIndex: an object carrying its own `length` property is read as a value without length.
- AiServiceMain: FastAPI's 422 error list for a body that fails the request model is represented by its status only.
- BackendError: the reply's `stack` member (backend/routes/ai.js:87) is the runtime's stack trace, which the model has no value for; the reply carries `error` and `message` only.
- SaveChat: its 500 reply carries no `stack`; the source adds one only when `NODE_ENV` is "development", which the model does not read.
- SaveChat: the chat's `createdAt` and `updatedAt`, and each stored message's `timestamp` and `_id`, are clock and database values; the chat in the reply carries its id, title and messages (role, content and thinking) only.
- SendChat: the same clock and database values are missing from the chat in its reply.
- ChatReplyBody: the same clock and database values are missing from its `chat` member.
- Auth.UserJson: the subscription's `startDate` and `endDate` and the usage's `lastActive` are dates and are not carried; the `/me` route, whose user adds `authProvider`, is not modelled.
- IntField: pydantic's other lax forms of an integer (a float with no fraction such as `8.0`, the string `"8.0"`, digits separated by underscores) are not accepted; the model follows pydantic 2's rules for booleans and decimal strings.
- ParseChatRequest: the history is any list, and its items are read only by ChatGenerator.Conversation, as the source does.
- SpecializedModels: the prompt templates, the tokenizer and the model are a total `LanguageModel` value; a model call is a `Result`, its failure carrying the exception's message, but failures of `encode`, `decode` or prompt rendering are not represented.
- TitleFrom: JavaScript's `slice(0, 50)` can split a character outside the basic plane into half a surrogate pair; the model keeps whole characters, so such a title stops at 49 code units instead of ending in a lone surrogate.
- CreationTitle: the same whole-character cut replaces `slice(0, 50)` (app/src/pages/chat.jsx:169).
- FallbackTitle: the same whole-character cut replaces `slice(0, 50)` (app/src/pages/chat.jsx:324).
- History.Truncate, History.DisplayId and History.ShortId count characters rather than UTF-16 code units; database ids are ASCII, where the two agree.
- FallbackCall: `substring(0, 2000)` can split a character outside the basic plane into half a surrogate pair; Excerpt keeps whole characters, so such a prompt's content stops one code unit short instead of ending in a lone surrogate.
- ProfileIcon.FirstUpper: `charAt(0)` of a name starting outside the basic plane is a lone high surrogate, which a Dafny string cannot hold; the model takes the whole first character.
- Js.StrictEquals: every comparison of an object or array is false, since the model has no references; `===` on the very same object is true in JavaScript. Its two callers in AppContext compare quiz ids, so a quiz id that is an object or array is never matched in the model.
- Js.Spread: a string is spread by characters, where JavaScript spreads a character outside the basic plane as two code units under two indices.
- Rendering, timers, randomness and concurrency: JSX markup, `useEffect` ordering, `Promise.all` fan-out, and `Date.now` and `Math.random` ids (the clock is a parameter).

## Findings

| source | as written | input that shows it | evidently intended | confidence | as-written member | corrected member |
|---|---|---|---|---|---|---|
| backend/utils/ocrProcessor.js:43-51 | the page count is the number of `.pdf` files in the output directory, which was created empty just before | any scanned PDF of one page or more: no page is rasterised and the OCR text is empty | rasterise and read every page of the document | not executed | OcrProcessor.AsWrittenPageCount, OcrProcessor.FreshTempDirYieldsNoText | OcrProcessor.ProcessPdf, OcrProcessor.ScannedTextCoversEveryPage |
| app/src/pages/chat.jsx:338-355 | the `finally` block switches loading off only if `isLoading` was true when the click began, which the guard at :154 rules out, and the catch never switches it off | a message for which both the stream and the plain chat request fail: `isLoading` stays true and every later send is ignored until another chat is loaded | switch loading off on every path, as the stream and fallback paths do | not executed | Chat.AfterSendAsWritten, Chat.StuckAfterFailure | Chat.AfterSend, Chat.ChatPage.Send |
| backend/routes/documents.js:187-196 | the pasted-text record sets none of `filename`, `originalName`, `filePath` and `fileSize`, which backend/models/Document.js:14-34 requires, so every save fails validation | any body with a truthy title and content: the answer is a 500 "Failed to process text content" and nothing is stored | store pasted text as a document of type `text` with no file fields | not executed | Documents.ProcessTextNeverStores | Documents.IntendedTextStored |
| backend/models/Document.js:26-30 | the `fileType` enum lists no image type, although the upload filter (backend/routes/documents.js:41) and the text extraction accept png, jpg, jpeg and gif | an upload of `scan.png`: it is read by OCR, then refused by validation with a 500, and the file is unlinked | store images, whose text the OCR path has just read | not executed | Documents.ImageUploadRefused | Documents.IntendedImageStored |
| app/src/context/AppContext.jsx:100-103 | each saved list is dispatched as one `ADD_*` payload, so the reducer wraps the whole list as a single element | a state holding one document, saved (:111-119) and reloaded: `documents` becomes a list whose one element is the saved list | put each saved list back as it was | not executed | AppContext.SaveRestoreNests, AppContext.RestoreWraps | AppContext.Restore, AppContext.SaveRestoreRoundTrip |
