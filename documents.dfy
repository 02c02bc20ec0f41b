/**
 * The documents routes (backend/routes/documents.js): the upload filter on
 * file extensions, text extraction by file type, the upload and
 * `process-text` handlers with the trim setters and validators of the
 * Document schema (backend/models/Document.js) that their records meet,
 * the history listing with its artifact flags, and
 * deletion with its document-ID normalisation and cascade over summaries,
 * quizzes and flashcards.
 *
 * The readers of each file type, the document store's answers and the clock
 * are parameters.
 */
module Documents {
  import opened Wrappers
  import opened Strings
  import opened Js
  import opened Express
  import OcrProcessor
  import UserModel

  // ---------------------------------------------------------------------------
  // File extensions
  // ---------------------------------------------------------------------------

  predicate IsSlash(c: char) { c == '/' }

  /** The last path segment, ignoring trailing slashes. */
  function LastSegment(name: string): (seg: string)
    ensures forall j :: 0 <= j < |seg| ==> seg[j] != '/'
  {
    var t := TrimEndBy(name, IsSlash);
    match LastIndexOf(t, '/')
    case None => t
    case Some(k) => t[k + 1..]
  }

  /**
   * Node's `path.extname`: from the last `.` of the last segment to its end,
   * or "" when the segment has no `.`, starts with its only `.`, or is `..`.
   */
  function Extname(name: string): (ext: string)
    ensures ext == "" || ext[0] == '.'
  {
    var seg := LastSegment(name);
    match LastIndexOf(seg, '.')
    case None => ""
    case Some(d) => if d == 0 || seg == ".." then "" else seg[d..]
  }

  /** A name `stem.ext` whose extension has no dot has extension `.ext`. */
  lemma ExtnameOf(stem: string, ext: string)
    requires |stem| > 0 && stem != "."
    requires forall j :: 0 <= j < |stem| ==> stem[j] != '/'
    requires forall j :: 0 <= j < |ext| ==> ext[j] != '/' && ext[j] != '.'
    ensures Extname(stem + "." + ext) == "." + ext
  {
    var name := stem + "." + ext;
    assert name[|name| - 1] != '/';
    assert TrimEndBy(name, IsSlash) == name;
    assert LastSegment(name) == name;
    assert name[|stem|] == '.';
    assert forall j :: |stem| < j < |name| ==> name[j] == ext[j - |stem| - 1];
    assert LastIndexOf(name, '.') == Some(|stem|);
    assert name[|stem|..] == "." + ext;
  }

  /** A last segment without a dot, or whose only dot leads it, has no extension. */
  lemma NoExtname(name: string)
    requires forall j :: 0 < j < |LastSegment(name)| ==> LastSegment(name)[j] != '.'
    ensures Extname(name) == ""
  {
  }

  /** `path.extname(name).toLowerCase().substring(1)` */
  function FileType(name: string): (t: string)
    ensures Extname(name) == "" ==> t == ""
    ensures Extname(name) != "" ==> t == Lower(Extname(name))[1..]
  {
    var e := Lower(Extname(name));
    if |e| == 0 then "" else e[1..]
  }

  const DefaultAllowed: string := "pdf,txt,docx,md," + "png,jpg,jpeg,gif"

  /** `(ALLOWED_FILE_TYPES || 'pdf,txt,docx,md,png,jpg,jpeg,gif').split(',')` */
  function AllowedTypes(env: Option<string>): seq<string>
  {
    SplitOn(if env.Some? && |env.value| > 0 then env.value else DefaultAllowed, ",")
  }

  /** The upload filter: accepted, or the error it raises. */
  function UploadFilter(name: string, env: Option<string>): (r: Result<(), string>)
    ensures r.Ok? <==> FileType(name) in AllowedTypes(env)
    ensures r.Err? ==> r.error == "File type ." + FileType(name) + " is not allowed"
  {
    var t := FileType(name);
    if t in AllowedTypes(env) then Ok(()) else Err("File type ." + t + " is not allowed")
  }

  /** Acceptance looks only at the lower-cased text after the last dot. */
  lemma UploadFilterByExtension(stem: string, ext: string, env: Option<string>)
    requires |stem| > 0 && stem != "."
    requires forall j :: 0 <= j < |stem| ==> stem[j] != '/'
    requires forall j :: 0 <= j < |ext| ==> ext[j] != '/' && ext[j] != '.'
    ensures UploadFilter(stem + "." + ext, env).Ok? <==> Lower(ext) in AllowedTypes(env)
  {
    ExtnameOf(stem, ext);
    assert Lower("." + ext) == "." + Lower(ext);
  }

  // ---------------------------------------------------------------------------
  // Text extraction
  // ---------------------------------------------------------------------------

  /**
   * What each reader gives for the uploaded file: the utf-8 text, the PDF and
   * image OCR results, the docx converter's text; None or Err when it throws.
   */
  datatype Readers = Readers(
    utf8: Option<string>,
    pdf: Result<OcrProcessor.Extraction, string>,
    docx: Option<string>,
    image: Result<OcrProcessor.Extraction, string>)

  const ExtractFailed: string := "Failed to extract text from file"

  predicate IsImageType(t: string)
  {
    t == "png" || t == "jpg" || t == "jpeg" || t == "gif"
  }

  /** The file types `extractTextFromFile` knows. */
  predicate Extractable(t: string)
  {
    t == "pdf" || t == "txt" || t == "md" || t == "docx" || IsImageType(t)
  }

  /** `extractTextFromFile`, every failure reported as the same error. */
  function ExtractText(fileType: string, readers: Readers): (r: Result<string, string>)
    ensures r.Err? ==> r.error == ExtractFailed
    ensures !Extractable(fileType) ==> r.Err?
    ensures (fileType == "txt" || fileType == "md") ==> (r.Ok? <==> readers.utf8.Some?) && (r.Ok? ==> r.value == readers.utf8.value)
    ensures fileType == "pdf" ==> (r.Ok? <==> readers.pdf.Ok?) && (r.Ok? ==> r.value == readers.pdf.value.text)
    ensures fileType == "docx" ==> (r.Ok? <==> readers.docx.Some?) && (r.Ok? ==> r.value == readers.docx.value)
    ensures IsImageType(fileType) ==> (r.Ok? <==> readers.image.Ok?) && (r.Ok? ==> r.value == readers.image.value.text)
  {
    if fileType == "pdf" then
      if readers.pdf.Ok? then Ok(readers.pdf.value.text) else Err(ExtractFailed)
    else if fileType == "txt" || fileType == "md" then
      if readers.utf8.Some? then Ok(readers.utf8.value) else Err(ExtractFailed)
    else if fileType == "docx" then
      if readers.docx.Some? then Ok(readers.docx.value) else Err(ExtractFailed)
    else if IsImageType(fileType) then
      if readers.image.Ok? then Ok(readers.image.value.text) else Err(ExtractFailed)
    else Err(ExtractFailed)
  }

  /** A PDF's text is the OCR processor's text, whichever branch produced it. */
  lemma PdfTextFromProcessor(readers: Readers, parsed: Option<string>, pageCount: nat, convert: OcrProcessor.Converter, ocr: OcrProcessor.Recognizer)
    requires readers.pdf == OcrProcessor.PdfResult(parsed, pageCount, convert, ocr)
    ensures OcrProcessor.HasTextLayer(parsed) ==> ExtractText("pdf", readers) == Ok(parsed.value)
    ensures !OcrProcessor.HasTextLayer(parsed) && OcrProcessor.ScannedText(pageCount, convert, ocr).None? ==> ExtractText("pdf", readers) == Err(ExtractFailed)
    ensures !OcrProcessor.HasTextLayer(parsed) && OcrProcessor.ScannedText(pageCount, convert, ocr).Some? ==> ExtractText("pdf", readers) == Ok(OcrProcessor.ScannedText(pageCount, convert, ocr).value)
  {
  }

  // ---------------------------------------------------------------------------
  // Creating documents
  // ---------------------------------------------------------------------------

  /** The uploaded file as the upload middleware describes it. */
  datatype UploadedFile = UploadedFile(path: string, originalName: string, filename: string, size: nat)

  /** A stored document; `file` is absent for documents made from pasted text. */
  datatype DocRecord = DocRecord(
    title: JsValue,
    description: JsValue,
    extractedText: JsValue,
    fileType: string,
    file: Option<UploadedFile>)

  /** The store's answer to `document.save()` once validation passed: the assigned id and creation time, or the error's message. */
  datatype SaveReply = Stored(id: JsValue, createdAt: JsValue) | SaveFailed(message: string)

  /** A reply, the document stored, and the file unlinked on failure. */
  datatype Created = Created(response: Response, saved: Option<DocRecord>, unlinked: Option<string>)

  const NoFile: string := "No file uploaded"
  const UploadFailed: string := "Failed to process document"
  const FieldsRequired: string := "Title and content " + "are required"
  const TextFailed: string := "Failed to process " + "text content"

  function StoreFailure(error: string, message: string): Response
  {
    FailWith(500, error, "message", Str(message))
  }

  // ---------------------------------------------------------------------------
  // The Document schema
  // ---------------------------------------------------------------------------

  /** Neither end of `s` is a JavaScript blank. */
  predicate Unpadded(s: string)
  {
    |s| == 0 || (!IsJsWhitespace(s[0]) && !IsJsWhitespace(s[|s| - 1]))
  }

  /** The `trim: true` setter of `title` and `description`: a string is stored trimmed. */
  function SchemaTrim(v: JsValue): (r: JsValue)
    ensures r.Str? <==> v.Str?
    ensures r.Str? ==> Unpadded(r.s) && Contains(v.s, r.s)
    ensures !v.Str? ==> r == v
  {
    if v.Str? then Str(JsTrim(v.s)) else v
  }

  /** Setting a trimmed value again changes nothing. */
  lemma SchemaTrimIdempotent(v: JsValue)
    ensures SchemaTrim(SchemaTrim(v)) == SchemaTrim(v)
  {
    if v.Str? {
      StripOfStripped(JsTrim(v.s), IsJsWhitespace);
    }
  }

  /**
   * The validators of the Document schema that the routes' records can fail:
   * the storable file types, and whether a document without an uploaded file
   * must still carry the file fields.
   */
  datatype DocSchema = DocSchema(fileTypes: seq<string>, fileFieldsRequired: bool)

  /** backend/models/Document.js as written. */
  const WrittenSchema: DocSchema := DocSchema(["pdf", "txt", "docx", "md", "text"], true)

  /** The schema the routes expect: the upload filter's images are storable, and pasted text has no file. */
  const IntendedSchema: DocSchema :=
    DocSchema(["pdf", "txt", "docx", "md", "text", "png", "jpg", "jpeg", "gif"], false)

  /** A value `required: true` accepts: set, and not the empty string. */
  predicate Present(v: JsValue)
  {
    !v.Undefined? && !v.Null? && v != Str("")
  }

  /** `<path>: <message>` when the path fails `required`. */
  function RequiredError(present: bool, path: string): seq<string>
  {
    if present then [] else [path + ": " + UserModel.Required(path)]
  }

  /** The enum validator's message. */
  function EnumError(value: string, path: string): string
  {
    "`" + value + "` is not a valid enum value for path `" + path + "`."
  }

  /** The file fields: set from the upload, or missing for pasted text. */
  function FileErrors(file: Option<UploadedFile>, schema: DocSchema): seq<string>
  {
    match file
    case Some(f) =>
      RequiredError(f.filename != "", "filename") + RequiredError(f.originalName != "", "originalName")
      + RequiredError(f.path != "", "filePath")
    case None =>
      if schema.fileFieldsRequired then
        RequiredError(false, "filename") + RequiredError(false, "originalName") + RequiredError(false, "filePath")
      else []
  }

  /** `fileType` is required first, then checked against the enum. */
  function FileTypeErrors(t: string, schema: DocSchema): seq<string>
  {
    if t == "" then RequiredError(false, "fileType")
    else if t !in schema.fileTypes then ["fileType: " + EnumError(t, "fileType")]
    else []
  }

  /** Each failing path with its message, in the schema's order of fields; empty when the record is valid. */
  function SchemaErrors(d: DocRecord, schema: DocSchema): (errors: seq<string>)
    ensures errors == [] <==>
      Present(d.title) && Present(d.extractedText) && d.fileType != "" && d.fileType in schema.fileTypes &&
      (d.file.Some? ==> d.file.value.filename != "" && d.file.value.originalName != "" && d.file.value.path != "") &&
      (d.file.None? ==> !schema.fileFieldsRequired)
  {
    RequiredError(Present(d.title), "title")
    + FileErrors(d.file, schema)
    + FileTypeErrors(d.fileType, schema)
    + RequiredError(d.file.Some? || !schema.fileFieldsRequired, "fileSize")
    + RequiredError(Present(d.extractedText), "extractedText")
  }

  /** The message of Mongoose's validation error for a `Document`. */
  function ValidationMessage(errors: seq<string>): string
  {
    "Document validation " + "failed: " + Join(errors, ", ")
  }

  /** A title that trims to nothing is reported first, as missing. */
  lemma BlankTitleRequired(d: DocRecord, schema: DocSchema, title: string)
    requires d.title == SchemaTrim(Str(title)) && All(title, IsJsWhitespace)
    ensures SchemaErrors(d, schema)[0] == "title: " + UserModel.Required("title")
  {
    StripEmptyIffBlank(title, IsJsWhitespace);
  }

  // ---------------------------------------------------------------------------
  // The upload and process-text handlers
  // ---------------------------------------------------------------------------

  /** The description both routes store: the given one when truthy, else "", through the trim setter. */
  function Description(body: JsValue): (r: JsValue)
    ensures Truthy(Prop(body, "description")) && Prop(body, "description").Str? ==>
      r == Str(JsTrim(Prop(body, "description").s))
    ensures Truthy(Prop(body, "description")) && !Prop(body, "description").Str? ==> r == Prop(body, "description")
    ensures !Truthy(Prop(body, "description")) ==> r == Str("")
  {
    SchemaTrim(Or(Prop(body, "description"), Str("")))
  }

  function UploadRecord(file: UploadedFile, body: JsValue, text: string): (d: DocRecord)
    ensures Truthy(Prop(body, "title")) && Prop(body, "title").Str? ==> d.title == Str(JsTrim(Prop(body, "title").s))
    ensures Truthy(Prop(body, "title")) && !Prop(body, "title").Str? ==> d.title == Prop(body, "title")
    ensures !Truthy(Prop(body, "title")) ==> d.title == Str(JsTrim(file.originalName))
    ensures d.title.Str? ==> Unpadded(d.title.s)
    ensures !d.title.Undefined? && !d.title.Null?
    ensures d.description == Description(body)
    ensures d.extractedText == Str(text) && d.fileType == FileType(file.originalName) && d.file == Some(file)
  {
    DocRecord(
      SchemaTrim(Or(Prop(body, "title"), Str(file.originalName))),
      Description(body),
      Str(text),
      FileType(file.originalName),
      Some(file))
  }

  function UploadReply(d: DocRecord, file: UploadedFile, id: JsValue, createdAt: JsValue): JsValue
  {
    Obj(map[
      "success" := Bool(true),
      "document" := Obj(map[
        "id" := id, "title" := d.title, "description" := d.description,
        "fileType" := Str(d.fileType), "fileSize" := Num(file.size),
        "extractedText" := d.extractedText, "createdAt" := createdAt])])
  }

  /**
   * `POST /upload` once the filter has accepted the file: extract the text,
   * validate and store the document, and unlink the uploaded file on any failure.
   */
  function Upload(file: Option<UploadedFile>, body: JsValue, readers: Readers, schema: DocSchema, save: SaveReply): (c: Created)
    ensures file.None? ==> c == Created(Fail(400, NoFile), None, None)
    ensures c.saved.Some? <==> c.response.status == 200
    ensures c.response.status == 200 ==> (file.Some? && save.Stored? && c.unlinked.None?
      && ExtractText(FileType(file.value.originalName), readers).Ok?
      && c.saved == Some(UploadRecord(file.value, body, ExtractText(FileType(file.value.originalName), readers).value))
      && SchemaErrors(c.saved.value, schema) == [])
    ensures file.Some? && c.response.status != 200 ==> c.response.status == 500 && c.unlinked == Some(file.value.path)
    ensures file.Some? && ExtractText(FileType(file.value.originalName), readers).Err? ==>
      c.response == StoreFailure(UploadFailed, ExtractFailed)
    ensures file.Some? && ExtractText(FileType(file.value.originalName), readers).Ok? ==>
      var d := UploadRecord(file.value, body, ExtractText(FileType(file.value.originalName), readers).value);
      SchemaErrors(d, schema) != [] ==> c.response == StoreFailure(UploadFailed, ValidationMessage(SchemaErrors(d, schema)))
    ensures file.Some? && ExtractText(FileType(file.value.originalName), readers).Ok? ==>
      var d := UploadRecord(file.value, body, ExtractText(FileType(file.value.originalName), readers).value);
      SchemaErrors(d, schema) == [] && save.Stored? ==> c.saved == Some(d)
  {
    if file.None? then Created(Fail(400, NoFile), None, None)
    else
      var f := file.value;
      match ExtractText(FileType(f.originalName), readers)
      case Err(e) => Created(StoreFailure(UploadFailed, e), None, Some(f.path))
      case Ok(text) =>
        var d := UploadRecord(f, body, text);
        if SchemaErrors(d, schema) != [] then
          Created(StoreFailure(UploadFailed, ValidationMessage(SchemaErrors(d, schema))), None, Some(f.path))
        else
          match save
          case SaveFailed(m) => Created(StoreFailure(UploadFailed, m), None, Some(f.path))
          case Stored(id, at) => Created(Json(UploadReply(d, f, id, at)), Some(d), None)
  }

  /** The upload filter's image types are missing from the written enum and listed in the intended one. */
  lemma ImageTypes(t: string)
    requires IsImageType(t)
    ensures t !in WrittenSchema.fileTypes && t in IntendedSchema.fileTypes
  {
  }

  /** As written, an image passes the upload filter and is read, and is then refused by the `fileType` enum. */
  lemma ImageUploadRefused(file: UploadedFile, body: JsValue, readers: Readers, save: SaveReply)
    requires IsImageType(FileType(file.originalName))
    ensures Upload(Some(file), body, readers, WrittenSchema, save).saved.None?
    ensures Upload(Some(file), body, readers, WrittenSchema, save).unlinked == Some(file.path)
    ensures readers.image.Ok? ==>
      "fileType: " + EnumError(FileType(file.originalName), "fileType")
        in SchemaErrors(UploadRecord(file, body, readers.image.value.text), WrittenSchema)
  {
    var t := FileType(file.originalName);
    ImageTypes(t);
    if readers.image.Ok? {
      var d := UploadRecord(file, body, readers.image.value.text);
      var head := RequiredError(Present(d.title), "title") + FileErrors(d.file, WrittenSchema);
      var e := "fileType: " + EnumError(t, "fileType");
      assert FileTypeErrors(t, WrittenSchema) == [e];
      assert SchemaErrors(d, WrittenSchema)[|head|] == e;
    }
  }

  /** An upload of a named file with a title and some text passes the intended schema exactly when its type is listed. */
  lemma IntendedUploadValid(file: UploadedFile, body: JsValue, text: string)
    requires text != "" && file.filename != "" && file.originalName != "" && file.path != ""
    requires UploadRecord(file, body, text).title != Str("")
    ensures SchemaErrors(UploadRecord(file, body, text), IntendedSchema) == [] <==>
      FileType(file.originalName) != "" && FileType(file.originalName) in IntendedSchema.fileTypes
  {
  }

  /** With the intended schema, an image that was read and named is stored exactly when the store saves it. */
  lemma IntendedImageStored(file: UploadedFile, body: JsValue, readers: Readers, save: SaveReply)
    requires IsImageType(FileType(file.originalName)) && readers.image.Ok? && readers.image.value.text != ""
    requires file.filename != "" && file.originalName != "" && file.path != ""
    requires UploadRecord(file, body, readers.image.value.text).title != Str("")
    ensures Upload(Some(file), body, readers, IntendedSchema, save).saved.Some? <==> save.Stored?
    ensures save.Stored? ==>
      Upload(Some(file), body, readers, IntendedSchema, save).saved == Some(UploadRecord(file, body, readers.image.value.text))
  {
    ImageTypes(FileType(file.originalName));
    IntendedUploadValid(file, body, readers.image.value.text);
    assert ExtractText(FileType(file.originalName), readers) == Ok(readers.image.value.text);
  }

  /** The document `process-text` builds from the body. */
  function TextRecord(body: JsValue): (d: DocRecord)
    ensures Prop(body, "title").Str? ==> d.title == Str(JsTrim(Prop(body, "title").s))
    ensures !Prop(body, "title").Str? ==> d.title == Prop(body, "title")
    ensures d.description == Description(body)
    ensures d.extractedText == Prop(body, "content") && d.fileType == "text" && d.file.None?
  {
    DocRecord(SchemaTrim(Prop(body, "title")), Description(body), Prop(body, "content"), "text", None)
  }

  /** `POST /process-text`: both title and content must be truthy, then the document is validated and stored. */
  function ProcessText(body: JsValue, schema: DocSchema, save: SaveReply): (c: Created)
    ensures !Truthy(Prop(body, "title")) || !Truthy(Prop(body, "content")) ==> c == Created(Fail(400, FieldsRequired), None, None)
    ensures c.unlinked.None?
    ensures c.saved.Some? <==> c.response.status == 200
    ensures c.saved.Some? ==> save.Stored? && c.saved.value == TextRecord(body) && SchemaErrors(TextRecord(body), schema) == []
    ensures Truthy(Prop(body, "title")) && Truthy(Prop(body, "content")) && SchemaErrors(TextRecord(body), schema) != [] ==>
      c.response == StoreFailure(TextFailed, ValidationMessage(SchemaErrors(TextRecord(body), schema)))
    ensures Truthy(Prop(body, "title")) && Truthy(Prop(body, "content")) && SchemaErrors(TextRecord(body), schema) == [] && save.SaveFailed? ==>
      c.response == StoreFailure(TextFailed, save.message)
  {
    var title := Prop(body, "title");
    var content := Prop(body, "content");
    if !Truthy(content) || !Truthy(title) then Created(Fail(400, FieldsRequired), None, None)
    else
      var d := TextRecord(body);
      if SchemaErrors(d, schema) != [] then
        Created(StoreFailure(TextFailed, ValidationMessage(SchemaErrors(d, schema))), None, None)
      else
        match save
        case SaveFailed(m) => Created(StoreFailure(TextFailed, m), None, None)
        case Stored(id, at) =>
          Created(Json(Obj(map[
            "success" := Bool(true),
            "document" := Obj(map[
              "id" := id, "title" := d.title, "description" := d.description,
              "extractedText" := d.extractedText, "createdAt" := at])])), Some(d), None)
  }

  /** As written, pasted text never carries the file fields the schema requires, so nothing is ever stored. */
  lemma ProcessTextNeverStores(body: JsValue, save: SaveReply)
    ensures ProcessText(body, WrittenSchema, save).saved.None?
    ensures ProcessText(body, WrittenSchema, save).response.status != 200
    ensures "filename: " + UserModel.Required("filename") in SchemaErrors(TextRecord(body), WrittenSchema)
  {
    var d := TextRecord(body);
    var head := RequiredError(Present(d.title), "title");
    assert FileErrors(None, WrittenSchema)[0] == "filename: " + UserModel.Required("filename");
    assert SchemaErrors(d, WrittenSchema)[|head|] == "filename: " + UserModel.Required("filename");
  }

  /** With the intended schema, pasted text with a non-blank title is stored exactly when the store saves it. */
  lemma IntendedTextStored(body: JsValue, save: SaveReply)
    requires Truthy(Prop(body, "title")) && Truthy(Prop(body, "content"))
    requires TextRecord(body).title != Str("")
    ensures ProcessText(body, IntendedSchema, save).saved.Some? <==> save.Stored?
    ensures save.Stored? ==> ProcessText(body, IntendedSchema, save).saved == Some(TextRecord(body))
  {
    assert "text" in IntendedSchema.fileTypes;
  }

  // ---------------------------------------------------------------------------
  // History
  // ---------------------------------------------------------------------------

  const HistoryLimit: nat := 100

  /** A document row of the listing, its id as a string. */
  datatype DocRow = DocRow(id: string, title: JsValue, createdAt: int)

  datatype HistoryItem = HistoryItem(
    id: string, title: JsValue, createdAt: int,
    hasSummary: bool, hasQuiz: bool, hasFlashcards: bool)

  /** The document ids of all stored summaries, quizzes and flashcard sets. */
  datatype Artifacts = Artifacts(summaries: seq<string>, quizzes: seq<string>, flashcards: seq<string>)

  function Flags(d: DocRow, arts: Artifacts): (item: HistoryItem)
    ensures item.id == d.id && item.title == d.title && item.createdAt == d.createdAt
    ensures item.hasSummary <==> exists i :: 0 <= i < |arts.summaries| && arts.summaries[i] == d.id
    ensures item.hasQuiz <==> exists i :: 0 <= i < |arts.quizzes| && arts.quizzes[i] == d.id
    ensures item.hasFlashcards <==> exists i :: 0 <= i < |arts.flashcards| && arts.flashcards[i] == d.id
  {
    HistoryItem(d.id, d.title, d.createdAt, d.id in arts.summaries, d.id in arts.quizzes, d.id in arts.flashcards)
  }

  /**
   * `GET /history`: `listing` is the store's documents newest first; the
   * first 100 are returned, each with its three flags.
   */
  function History(listing: seq<DocRow>, arts: Artifacts): (items: seq<HistoryItem>)
    ensures |items| == Min(HistoryLimit, |listing|)
    ensures forall i :: 0 <= i < |items| ==> items[i] == Flags(listing[i], arts)
  {
    var docs := if |listing| <= HistoryLimit then listing else listing[..HistoryLimit];
    seq(|docs|, i requires 0 <= i < |docs| => Flags(docs[i], arts))
  }

  predicate NewestFirst(rows: seq<DocRow>)
  {
    forall i, j :: 0 <= i < j < |rows| ==> rows[i].createdAt >= rows[j].createdAt
  }

  /** The history keeps the listing's newest-first order. */
  lemma HistoryOrdered(listing: seq<DocRow>, arts: Artifacts)
    requires NewestFirst(listing)
    ensures var items := History(listing, arts);
      forall i, j :: 0 <= i < j < |items| ==> items[i].createdAt >= items[j].createdAt
  {
    var items := History(listing, arts);
    forall i, j | 0 <= i < j < |items|
      ensures items[i].createdAt >= items[j].createdAt
    {
      assert items[i] == Flags(listing[i], arts) && items[j] == Flags(listing[j], arts);
    }
  }

  // ---------------------------------------------------------------------------
  // Deleting
  // ---------------------------------------------------------------------------

  /**
   * The id the delete route looks up: exactly 24 hex digits as given, else
   * the first 24 characters when they are hex digits, else no id.
   */
  function NormalizeId(raw: string): (r: Option<string>)
    ensures r.Some? ==> |raw| >= 24 && IsObjectIdHex(r.value) && r.value == raw[..24]
    ensures r.None? <==> (|raw| < 24 || !IsObjectIdHex(raw[..24]))
  {
    if |raw| == 24 && IsObjectIdHex(raw) then Some(raw)
    else
      var short := Prefix(raw, 24);
      if IsObjectIdHex(short) then Some(short) else None
  }

  /** A well-formed id is its own normal form; any longer string keeps only its first 24 characters. */
  lemma NormalizeIdIdempotent(raw: string)
    requires NormalizeId(raw).Some?
    ensures NormalizeId(NormalizeId(raw).value) == NormalizeId(raw)
    ensures |raw| == 24 ==> NormalizeId(raw) == Some(raw)
  {
    assert raw[..24][..24] == raw[..24];
  }

  datatype Artifact = Artifact(id: string, documentId: string)

  /** `deleteMany({ documentId })` on one collection. */
  function Without(arts: seq<Artifact>, docId: string): (r: seq<Artifact>)
    ensures forall a: Artifact :: a in r <==> a in arts && a.documentId != docId
    ensures forall a: Artifact :: a.documentId != docId ==> multiset(r)[a] == multiset(arts)[a]
  {
    if |arts| == 0 then []
    else
      var rest := Without(arts[1..], docId);
      assert arts == [arts[0]] + arts[1..];
      if arts[0].documentId == docId then rest else [arts[0]] + rest
  }

  datatype StoredDoc = StoredDoc(title: JsValue, filePath: JsValue)

  const InvalidId: string := "Invalid document ID format"
  const InvalidIdHint: string := "Document ID must be a " + "valid MongoDB ObjectId"
  const DocNotFound: string := "Document not found"
  const DeleteFailed: string := "Failed to delete document"
  const DeletedText: string := "Document deleted " + "successfully"

  function InvalidIdReply(): Response
  {
    FailWith(400, InvalidId, "message", Str(InvalidIdHint))
  }

  /** The 404 reply; ids print as lower-case hex, and the route runs without a signed-in user. */
  function NotFoundReply(raw: string, key: string): Response
  {
    Response(404, Obj(map[
      "error" := Str(DocNotFound),
      "message" := Str("Document with ID " + raw + " not found in database"),
      "searchedId" := Str(key),
      "requestUser" := Str("not authenticated")]))
  }

  function DeletedReply(): Response
  {
    Json(Obj(map["success" := Bool(true), "message" := Str(DeletedText)]))
  }

  /** What the delete route decides, before it touches the store. */
  datatype DeletePlan = Reject(response: Response) | Remove(key: string)

  /**
   * The lookup of `DELETE /:id` against the ids present. The id is matched
   * in lower case, as object ids compare. When the normalised id is absent,
   * the second lookup strategy passes the raw string, which the store
   * refuses to cast unless it is itself a 24-digit id, so a longer raw id
   * fails with the cast error `castError` instead of 404.
   */
  function PlanDelete(raw: string, present: set<string>, castError: string): (p: DeletePlan)
    ensures NormalizeId(raw).None? ==> p == Reject(InvalidIdReply())
    ensures p.Remove? <==> NormalizeId(raw).Some? && Lower(NormalizeId(raw).value) in present
    ensures p.Remove? ==> p.key == Lower(raw[..24])
    ensures NormalizeId(raw).Some? && p.Reject? && |raw| == 24 ==> p.response == NotFoundReply(raw, Lower(raw))
    ensures NormalizeId(raw).Some? && p.Reject? && |raw| > 24 ==> p.response == StoreFailure(DeleteFailed, castError)
  {
    match NormalizeId(raw)
    case None => Reject(InvalidIdReply())
    case Some(oid) =>
      var key := Lower(oid);
      if key in present then Remove(key)
      else if |raw| == 24 then Reject(NotFoundReply(raw, key))
      else Reject(StoreFailure(DeleteFailed, castError))
  }

  /** The stored documents by id, and the artifacts of the three collections. */
  datatype Contents = Contents(
    documents: map<string, StoredDoc>,
    summaries: seq<Artifact>,
    quizzes: seq<Artifact>,
    flashcards: seq<Artifact>)

  /** The store once document `key` and everything generated from it are gone. */
  function Cascade(c: Contents, key: string): Contents
  {
    Contents(c.documents - {key}, Without(c.summaries, key), Without(c.quizzes, key), Without(c.flashcards, key))
  }

  /** The file to unlink: the removed document's path, when it is truthy. */
  function FileToUnlink(c: Contents, key: string): Option<JsValue>
  {
    if key in c.documents && Truthy(c.documents[key].filePath) then Some(c.documents[key].filePath) else None
  }

  function DeleteReply(p: DeletePlan): Response
  {
    match p
    case Reject(reply) => reply
    case Remove(_) => DeletedReply()
  }

  /** The document collection and the three artifact collections. */
  class DocumentStore {
    var documents: map<string, StoredDoc>
    var summaries: seq<Artifact>
    var quizzes: seq<Artifact>
    var flashcards: seq<Artifact>

    function Snapshot(): Contents
      reads this
    {
      Contents(documents, summaries, quizzes, flashcards)
    }

    constructor ()
      ensures Snapshot() == Contents(map[], [], [], [])
    {
      documents := map[];
      summaries := [];
      quizzes := [];
      flashcards := [];
    }

    /**
     * `DELETE /:id`: on a match, drop every artifact of the document, then
     * the document, and report the stored file to unlink (an unlink failure
     * is only logged).
     */
    method Delete(raw: string, castError: string) returns (r: Response, unlink: Option<JsValue>)
      modifies this
      ensures var plan := PlanDelete(raw, old(documents).Keys, castError);
        && r == DeleteReply(plan)
        && (plan.Reject? ==> Snapshot() == old(Snapshot()) && unlink.None?)
        && (plan.Remove? ==> Snapshot() == Cascade(old(Snapshot()), plan.key) && unlink == FileToUnlink(old(Snapshot()), plan.key))
    {
      var plan := PlanDelete(raw, documents.Keys, castError);
      if plan.Reject? {
        return plan.response, None;
      }
      var key := plan.key;
      unlink := FileToUnlink(Snapshot(), key);
      summaries := Without(summaries, key);
      quizzes := Without(quizzes, key);
      flashcards := Without(flashcards, key);
      documents := documents - {key};
      r := DeletedReply();
    }
  }

  /** A delete removes the document and exactly the artifacts that refer to it. */
  lemma CascadeRemoves(c: Contents, key: string)
    ensures var d := Cascade(c, key);
      && key !in d.documents
      && (forall k :: k in d.documents <==> k in c.documents && k != key)
      && (forall a: Artifact :: a in d.summaries <==> a in c.summaries && a.documentId != key)
      && (forall a: Artifact :: a in d.quizzes <==> a in c.quizzes && a.documentId != key)
      && (forall a: Artifact :: a in d.flashcards <==> a in c.flashcards && a.documentId != key)
  {
  }

  /** After a delete nothing refers to the removed document. */
  lemma CascadeComplete(arts: seq<Artifact>, key: string)
    ensures forall a: Artifact :: a in Without(arts, key) ==> a.documentId != key
    ensures Without(Without(arts, key), key) == Without(arts, key)
  {
    var w := Without(arts, key);
    assert forall i :: 0 <= i < |w| ==> w[i] in w;
    WithoutNothing(w, key);
  }

  lemma {:induction false} WithoutNothing(arts: seq<Artifact>, key: string)
    requires forall i :: 0 <= i < |arts| ==> arts[i].documentId != key
    ensures Without(arts, key) == arts
  {
    if |arts| > 0 {
      WithoutNothing(arts[1..], key);
    }
  }
}
