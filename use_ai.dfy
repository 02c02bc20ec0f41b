// The web app's hooks that call the AI endpoints: which request a piece of
// content turns into, the document id a generation request is made for, the
// defaults it sends, and how the answer is read back.  The requests
// themselves are left to the caller; their bodies arrive as values.

module UseAi {
  import opened Wrappers
  import opened Strings
  import opened Js

  // ---------------------------------------------------------------------------
  // File names
  // ---------------------------------------------------------------------------

  /** A match of `/\.[^/.]+$/`: a dot, then one or more characters none of which is a dot or a slash. */
  predicate IsExtension(s: string)
  {
    |s| >= 2 && s[0] == '.' && forall k :: 1 <= k < |s| ==> s[k] != '.' && s[k] != '/'
  }

  /** `name.replace(/\.[^/.]+$/, '')`: the name without its final extension, if it has one. */
  function StripExtension(name: string): (r: string)
    ensures r <= name
    ensures r == name || IsExtension(name[|r|..])
  {
    match LastIndexOf(name, '.')
    case None => name
    case Some(i) => if IsExtension(name[i..]) then name[..i] else name
  }

  /** The extension removed is the only one the name ends with: wherever the pattern matches, the cut is there. */
  lemma StripExtensionExact(name: string, i: nat)
    requires i <= |name| && IsExtension(name[i..])
    ensures StripExtension(name) == name[..i]
  {
    assert name[i] == '.';
    assert forall j :: i < j < |name| ==> name[j] == name[i..][j - i];
    LastIndexOfIs(name, '.', i);
  }

  /** A name that ends in no extension is kept as it is. */
  lemma StripExtensionKeeps(name: string)
    requires forall i :: 0 <= i <= |name| ==> !IsExtension(name[i..])
    ensures StripExtension(name) == name
  {
  }

  // ---------------------------------------------------------------------------
  // Processing a document
  // ---------------------------------------------------------------------------

  /** The request `processDocument` makes. */
  datatype Request =
    | Upload(file: JsValue, title: JsValue, description: JsValue)
    | ProcessText(title: JsValue, text: string, description: JsValue)

  /** Why a hook throws before any request. */
  datatype Fault = Error(message: string) | TypeError

  const Unsupported := "Unsupported content type"

  /** `content instanceof File || (content && content.name && content.size)` */
  predicate IsFileLike(content: JsValue, isFile: bool)
  {
    isFile || (Truthy(content) && Truthy(Prop(content, "name")) && Truthy(Prop(content, "size")))
  }

  /**
   * The request for some content: a file (an instance of `File`, or any
   * value with a truthy name and size) is uploaded under the given title,
   * else its name without the extension; a string is sent as text, titled
   * "Untitled Document" when no title is given.  An untitled file-like value
   * whose name is not a string cannot be renamed and throws; with a title
   * its name is never read.
   */
  function DocumentRequest(content: JsValue, isFile: bool, options: map<string, JsValue>): (r: Result<Request, Fault>)
    requires isFile ==> content.Obj? && Prop(content, "name").Str?
    ensures r.Ok? && r.value.Upload? <==>
      IsFileLike(content, isFile) && (Truthy(Prop(Obj(options), "title")) || Prop(content, "name").Str?)
    ensures r == Err(TypeError) <==>
      IsFileLike(content, isFile) && !Truthy(Prop(Obj(options), "title")) && !Prop(content, "name").Str?
    ensures r.Ok? && r.value.ProcessText? <==> !IsFileLike(content, isFile) && content.Str?
    ensures r == Err(Error(Unsupported)) <==> !IsFileLike(content, isFile) && !content.Str?
    ensures r.Ok? && Truthy(Prop(Obj(options), "title")) ==> r.value.title == Prop(Obj(options), "title")
  {
    var opts := Obj(options);
    var description := Or(Prop(opts, "description"), Str(""));
    if IsFileLike(content, isFile) then
      var title := Prop(opts, "title");
      var name := Prop(content, "name");
      if Truthy(title) then Ok(Upload(content, title, description))
      else if !name.Str? then Err(TypeError)
      else Ok(Upload(content, Str(StripExtension(name.s)), description))
    else if content.Str? then Ok(ProcessText(Or(Prop(opts, "title"), Str("Untitled Document")), content.s, description))
    else Err(Error(Unsupported))
  }

  /** An untitled file upload is titled by its name without the extension; a string is never taken for a file. */
  lemma UploadTitle(content: JsValue, isFile: bool, options: map<string, JsValue>)
    requires isFile ==> content.Obj? && Prop(content, "name").Str?
    requires IsFileLike(content, isFile) && Prop(content, "name").Str?
    requires "title" !in options || !Truthy(options["title"])
    ensures DocumentRequest(content, isFile, options) ==
      Ok(Upload(content, Str(StripExtension(Prop(content, "name").s)), Or(Prop(Obj(options), "description"), Str(""))))
    ensures !(content.Str? && !isFile)
  {
  }

  /** What `processDocument` returns for the response body; `None` is a TypeError on a null or undefined body. */
  datatype Processed = Processed(id: JsValue, title: JsValue, content: JsValue, processedAt: JsValue)

  /** `nowIso` is the clock's ISO timestamp, never empty. */
  function ReadProcessed(response: JsValue, nowIso: string): (r: Option<Processed>)
    requires |nowIso| > 0
    ensures r.None? <==> Nullish(response)
    ensures r.Some? && Truthy(Prop(response, "document")) ==>
      r.value.title == Prop(Prop(response, "document"), "title")
    ensures r.Some? && !Truthy(Prop(response, "document")) ==> r.value.title == Prop(response, "title")
    ensures r.Some? ==> Truthy(r.value.processedAt)
  {
    if Nullish(response) then None
    else
      var doc := Or(Prop(response, "document"), response);
      Some(Processed(
        Or(Prop(doc, "id"), Prop(doc, "_id")),
        Prop(doc, "title"),
        Or(Or(Prop(doc, "extractedText"), Prop(doc, "content")), Str("")),
        Or(Prop(doc, "createdAt"), Str(nowIso))))
  }

  // ---------------------------------------------------------------------------
  // Generation requests
  // ---------------------------------------------------------------------------

  /**
   * The document a generation is requested for: the content itself when it
   * is a string, else its `id`, else its `_id`.  A falsy result throws with
   * the message naming the generation.
   */
  function DocumentId(content: JsValue, purpose: string): (r: Result<JsValue, Fault>)
    ensures r.Ok? ==> Truthy(r.value)
    ensures content.Str? ==> r == if |content.s| > 0 then Ok(content) else Err(Error("Missing documentId for " + purpose))
    ensures !content.Str? && Truthy(Prop(content, "id")) ==> r == Ok(Prop(content, "id"))
    ensures !content.Str? && !Truthy(Prop(content, "id")) ==>
      r == if Truthy(Prop(content, "_id")) then Ok(Prop(content, "_id")) else Err(Error("Missing documentId for " + purpose))
  {
    var id := if content.Str? then content else Or(Prop(content, "id"), Prop(content, "_id"));
    if Truthy(id) then Ok(id) else Err(Error("Missing documentId for " + purpose))
  }

  /** Null, undefined, an empty string or an object without ids never get as far as a request. */
  lemma MissingIdThrows(content: JsValue, purpose: string)
    requires Nullish(content) || content == Str("") || (content.Obj? && "id" !in content.fields && "_id" !in content.fields)
    ensures DocumentId(content, purpose).Err?
  {
  }

  const DefaultMaxLength: int := 500
  const DefaultQuestionCount: int := 5
  const DefaultDifficulty := "medium"
  const DefaultNumCards: int := 20

  /** The arguments a generation sends besides the id, each the option given or its default. */
  datatype Generation =
    | Summary(documentId: JsValue, maxLength: JsValue)
    | Quiz(documentId: JsValue, questionCount: JsValue, difficulty: JsValue)
    | Flashcards(documentId: JsValue, numCards: JsValue)

  datatype Kind = SummaryKind | QuizKind | FlashcardsKind

  function Purpose(kind: Kind): string
  {
    match kind
    case SummaryKind => "summary generation"
    case QuizKind => "quiz generation"
    case FlashcardsKind => "flashcards generation"
  }

  function GenerationRequest(kind: Kind, content: JsValue, options: map<string, JsValue>): (r: Result<Generation, Fault>)
    ensures r.Err? <==> DocumentId(content, Purpose(kind)).Err?
    ensures r.Err? ==> r.error == DocumentId(content, Purpose(kind)).error
  {
    var opts := Obj(options);
    match DocumentId(content, Purpose(kind))
    case Err(e) => Err(e)
    case Ok(id) =>
      match kind
      case SummaryKind => Ok(Summary(id, Or(Prop(opts, "maxLength"), Num(DefaultMaxLength))))
      case QuizKind => Ok(Quiz(id, Or(Prop(opts, "questionCount"), Num(DefaultQuestionCount)),
        Or(Prop(opts, "difficulty"), Str(DefaultDifficulty))))
      case FlashcardsKind => Ok(Flashcards(id, Or(Prop(opts, "numCards"), Num(DefaultNumCards))))
  }

  /** Without options: 500 characters, 5 questions of medium difficulty, 20 cards. */
  lemma Defaults(content: JsValue)
    requires DocumentId(content, Purpose(SummaryKind)).Ok?
    ensures var id := DocumentId(content, Purpose(SummaryKind)).value;
      GenerationRequest(SummaryKind, content, map[]) == Ok(Summary(id, Num(500))) &&
      GenerationRequest(QuizKind, content, map[]) == Ok(Quiz(id, Num(5), Str("medium"))) &&
      GenerationRequest(FlashcardsKind, content, map[]) == Ok(Flashcards(id, Num(20)))
  {
  }

  /** Given options override the defaults, except a falsy one such as 0, which falls back to the default. */
  lemma ZeroFallsBack(content: JsValue)
    requires DocumentId(content, Purpose(FlashcardsKind)).Ok?
    ensures GenerationRequest(FlashcardsKind, content, map["numCards" := Num(0)]).value.numCards == Num(20)
    ensures GenerationRequest(FlashcardsKind, content, map["numCards" := Num(8)]).value.numCards == Num(8)
  {
  }
}
