/**
 * Text from an uploaded PDF or image (backend/utils/ocrProcessor.js). A PDF
 * whose trimmed text layer is longer than 100 UTF-16 code units is read
 * directly; any other PDF is rasterised page by page into a temporary
 * directory and each page image is read by OCR, the page texts joined under
 * `--- Page N ---` markers. One failing page fails the whole PDF.
 *
 * The PDF parser, the rasteriser and the OCR engine are parameters; the
 * temporary directory is a `FileSystem` object recording the calls made on
 * it.
 */
module OcrProcessor {
  import opened Wrappers
  import opened Strings

  // ---------------------------------------------------------------------------
  // The text layer
  // ---------------------------------------------------------------------------

  const TextLayerThreshold: nat := 100

  /**
   * `hasTextLayer`: `parsed` is pdf-parse's text, or None when parsing
   * throws; the trimmed text's length is counted in UTF-16 code units.
   */
  predicate HasTextLayer(parsed: Option<string>)
  {
    parsed.Some? && Utf16Length(JsTrim(parsed.value)) > TextLayerThreshold
  }

  /**
   * Blank text has no layer, and the threshold is strict: exactly 100 code
   * units go to OCR. More than 100 characters always make a layer, and more
   * than 50 suffice when they all lie beyond U+FFFF.
   */
  lemma TextLayerBounds(parsed: Option<string>)
    ensures parsed.None? ==> !HasTextLayer(parsed)
    ensures parsed.Some? && All(parsed.value, IsJsWhitespace) ==> !HasTextLayer(parsed)
    ensures parsed.Some? && Utf16Length(JsTrim(parsed.value)) == TextLayerThreshold ==> !HasTextLayer(parsed)
    ensures parsed.Some? && |JsTrim(parsed.value)| > TextLayerThreshold ==> HasTextLayer(parsed)
    ensures parsed.Some? && Astral(JsTrim(parsed.value)) ==>
      (HasTextLayer(parsed) <==> |JsTrim(parsed.value)| > TextLayerThreshold / 2)
    ensures HasTextLayer(parsed) ==> Utf16Length(parsed.value) > TextLayerThreshold && 2 * |JsTrim(parsed.value)| > TextLayerThreshold
  {
    if parsed.Some? {
      StripEmptyIffBlank(parsed.value, IsJsWhitespace);
      var t := JsTrim(parsed.value);
      if Astral(t) {
        Utf16LengthAstral(t);
      }
      if |t| > 0 {
        var i: nat :| i <= |parsed.value| && OccursAt(parsed.value, t, i);
        Utf16LengthOccurs(parsed.value, t, i);
      }
    }
  }

  // ---------------------------------------------------------------------------
  // Rasterising the pages
  // ---------------------------------------------------------------------------

  /** The rasteriser: the image path of page `i` (from 1), or None when it throws. */
  type Converter = nat -> Option<string>

  /** The image paths of pages 1 to `n`, or None when one of them fails. */
  function ConvertAll(convert: Converter, n: nat): (r: Option<seq<string>>)
    ensures r.Some? ==> |r.value| == n
  {
    if n == 0 then Some([])
    else
      match ConvertAll(convert, n - 1)
      case None => None
      case Some(paths) =>
        match convert(n)
        case None => None
        case Some(p) => Some(paths + [p])
  }

  /** Page `i`'s image is the rasteriser's answer for page `i + 1`. */
  lemma {:induction false} ConvertAllPages(convert: Converter, n: nat)
    requires ConvertAll(convert, n).Some?
    ensures forall i :: 0 <= i < n ==> Some(ConvertAll(convert, n).value[i]) == convert(i + 1)
  {
    if n > 0 {
      ConvertAllPages(convert, n - 1);
    }
  }

  lemma {:induction false} ConvertAllFails(convert: Converter, k: nat, n: nat)
    requires k <= n && ConvertAll(convert, k).None?
    ensures ConvertAll(convert, n).None?
    decreases n - k
  {
    if k < n {
      ConvertAllFails(convert, k + 1, n);
    }
  }

  /**
   * `extractImagesFromPDF`'s loop over pages 1 to `pageCount`: the first
   * failing page abandons the rest.
   */
  method ExtractImages(pageCount: nat, convert: Converter) returns (r: Option<seq<string>>)
    ensures r == ConvertAll(convert, pageCount)
  {
    var paths: seq<string> := [];
    var i := 1;
    while i <= pageCount
      invariant 1 <= i <= pageCount + 1
      invariant ConvertAll(convert, i - 1) == Some(paths)
    {
      var p := convert(i);
      if p.None? {
        ConvertAllFails(convert, i, pageCount);
        return None;
      }
      paths := paths + [p.value];
      i := i + 1;
    }
    return Some(paths);
  }

  /**
   * The page count as written: the entries ending in `.pdf` of the listing
   * of the output directory, which is the temporary directory created just
   * before.
   */
  function AsWrittenPageCount(entries: seq<string>): (r: nat)
    ensures r <= |entries|
  {
    if |entries| == 0 then 0
    else
      var e := entries[0];
      (if |e| >= 4 && e[|e| - 4..] == ".pdf" then 1 else 0) + AsWrittenPageCount(entries[1..])
  }

  // ---------------------------------------------------------------------------
  // Reading the pages
  // ---------------------------------------------------------------------------

  /** The OCR engine: an image's text, or None when it throws. */
  type Recognizer = string -> Option<string>

  /** Every image's text in order, or None when one of them fails. */
  function OcrAll(ocr: Recognizer, paths: seq<string>): (r: Option<seq<string>>)
    ensures r.Some? ==> |r.value| == |paths|
  {
    if |paths| == 0 then Some([])
    else
      match OcrAll(ocr, AllButLast(paths))
      case None => None
      case Some(texts) =>
        match ocr(Last(paths))
        case None => None
        case Some(t) => Some(texts + [t])
  }

  lemma {:induction false} OcrAllFails(ocr: Recognizer, paths: seq<string>, k: nat)
    requires k <= |paths| && OcrAll(ocr, paths[..k]).None?
    ensures OcrAll(ocr, paths).None?
    decreases |paths| - k
  {
    if k < |paths| {
      TakeSnoc(paths, k);
      AllButLastSnoc(paths[..k], paths[k]);
      OcrAllFails(ocr, paths, k + 1);
    } else {
      assert paths[..k] == paths;
    }
  }

  /** `\n\n--- Page ${n} ---\n\n${text}` */
  function PageBlock(n: nat, text: string): string
  {
    "\n\n--- Page " + NatToString(n) + " ---\n\n" + text
  }

  /** The page texts, each under the marker of its page number from 1. */
  function PagesText(texts: seq<string>): string
  {
    if |texts| == 0 then "" else PagesText(AllButLast(texts)) + PageBlock(|texts|, Last(texts))
  }

  function Blocks(texts: seq<string>): (r: seq<string>)
    ensures |r| == |texts| && forall i :: 0 <= i < |texts| ==> r[i] == PageBlock(i + 1, texts[i])
  {
    seq(|texts|, i requires 0 <= i < |texts| => PageBlock(i + 1, texts[i]))
  }

  /** The OCR text is the pages' blocks, in page order. */
  lemma {:induction false} PagesTextBlocks(texts: seq<string>)
    ensures PagesText(texts) == Concat(Blocks(texts))
    decreases |texts|
  {
    if |texts| > 0 {
      var init := AllButLast(texts);
      PagesTextBlocks(init);
      assert Blocks(texts) == Blocks(init) + [PageBlock(|texts|, Last(texts))];
      ConcatSnoc(Blocks(init), PageBlock(|texts|, Last(texts)));
    }
  }

  lemma AllButLastSnoc<T>(s: seq<T>, x: T)
    ensures AllButLast(s + [x]) == s && Last(s + [x]) == x
  {
    assert (s + [x])[..|s|] == s;
  }

  /** The OCR loop: `allText += PageBlock(i + 1, pageText)`, or None at the first failing page. */
  method OcrPages(paths: seq<string>, ocr: Recognizer) returns (r: Option<string>)
    ensures OcrAll(ocr, paths).None? ==> r.None?
    ensures OcrAll(ocr, paths).Some? ==> r == Some(PagesText(OcrAll(ocr, paths).value))
  {
    var allText := "";
    var texts: seq<string> := [];
    var i := 0;
    while i < |paths|
      invariant 0 <= i <= |paths|
      invariant OcrAll(ocr, paths[..i]) == Some(texts)
      invariant allText == PagesText(texts)
    {
      var pageText := ocr(paths[i]);
      TakeSnoc(paths, i);
      AllButLastSnoc(paths[..i], paths[i]);
      if pageText.None? {
        OcrAllFails(ocr, paths, i + 1);
        return None;
      }
      AllButLastSnoc(texts, pageText.value);
      allText := allText + PageBlock(i + 1, pageText.value);
      texts := texts + [pageText.value];
      i := i + 1;
    }
    assert paths[..i] == paths;
    return Some(allText);
  }

  /** The text of the OCR branch for `pageCount` rasterised pages, or None when a page fails. */
  function ScannedText(pageCount: nat, convert: Converter, ocr: Recognizer): Option<string>
  {
    match ConvertAll(convert, pageCount)
    case None => None
    case Some(paths) =>
      match OcrAll(ocr, paths)
      case None => None
      case Some(texts) => Some(PagesText(texts))
  }

  /** Every page of the document has its block, in order, under its own number. */
  lemma ScannedTextCoversEveryPage(pageCount: nat, convert: Converter, ocr: Recognizer)
    requires ScannedText(pageCount, convert, ocr).Some?
    ensures var texts := OcrAll(ocr, ConvertAll(convert, pageCount).value).value;
      && |texts| == pageCount
      && ScannedText(pageCount, convert, ocr).value == Concat(Blocks(texts))
  {
    PagesTextBlocks(OcrAll(ocr, ConvertAll(convert, pageCount).value).value);
  }

  /**
   * As written, the page count is read from the freshly created, empty
   * temporary directory, so no page is rasterised and a scanned PDF of any
   * number of pages yields the empty text.
   */
  lemma FreshTempDirYieldsNoText(pdfPages: nat, convert: Converter, ocr: Recognizer)
    requires pdfPages > 0
    requires ScannedText(pdfPages, convert, ocr).Some?
    ensures ScannedText(AsWrittenPageCount([]), convert, ocr) == Some("")
    ensures ScannedText(pdfPages, convert, ocr) != Some("")
  {
    var texts := OcrAll(ocr, ConvertAll(convert, pdfPages).value).value;
    assert |texts| == pdfPages;
    assert |PagesText(texts)| >= |PageBlock(|texts|, Last(texts))|;
  }

  // ---------------------------------------------------------------------------
  // The whole PDF
  // ---------------------------------------------------------------------------

  /** `{ text, method, isScanned }`, the method named `via` here. */
  datatype Extraction = Extraction(text: string, via: string, isScanned: bool)

  const PdfFailed: string := "Failed to process PDF with OCR"
  const ImageFailed: string := "Failed to process image with OCR"

  datatype FsCall = MakeDir(path: string) | Unlink(path: string) | RemoveDir(path: string)

  function UnlinkCall(path: string): FsCall
  {
    Unlink(path)
  }

  /** The temporary area: the calls made on it, in order. A failing unlink or rmdir is caught where it is made. */
  class FileSystem {
    var calls: seq<FsCall>

    constructor ()
      ensures calls == []
    {
      calls := [];
    }

    method Call(c: FsCall)
      modifies this
      ensures calls == old(calls) + [c]
    {
      calls := calls + [c];
    }

    /** The clean-up loop: one unlink per image path, in order. */
    method UnlinkAll(paths: seq<string>)
      modifies this
      ensures calls == old(calls) + MapSeq(UnlinkCall, paths)
    {
      var i := 0;
      while i < |paths|
        invariant 0 <= i <= |paths|
        invariant calls == old(calls) + MapSeq(UnlinkCall, paths[..i])
      {
        MapSeqSnoc(UnlinkCall, paths[..i], paths[i]);
        TakeSnoc(paths, i);
        AppendAssoc(old(calls), MapSeq(UnlinkCall, paths[..i]), [Unlink(paths[i])]);
        Call(Unlink(paths[i]));
        i := i + 1;
      }
      assert paths[..i] == paths;
    }
  }

  /** What the OCR branch leaves behind: images are unlinked only when every page was read. */
  function CleanUp(tempDir: string, pageCount: nat, convert: Converter, ocr: Recognizer): seq<FsCall>
  {
    [MakeDir(tempDir)]
    + (if ScannedText(pageCount, convert, ocr).Some? then MapSeq(UnlinkCall, ConvertAll(convert, pageCount).value) else [])
    + [RemoveDir(tempDir)]
  }

  /** The outcome of `processPDFWithOCR` for `pageCount` pages to rasterise. */
  function PdfResult(parsed: Option<string>, pageCount: nat, convert: Converter, ocr: Recognizer): Result<Extraction, string>
  {
    if HasTextLayer(parsed) then Ok(Extraction(parsed.value, "text-extraction", false))
    else
      match ScannedText(pageCount, convert, ocr)
      case Some(t) => Ok(Extraction(t, "ocr", true))
      case None => Err(PdfFailed)
  }

  /** The calls `processPDFWithOCR` makes on the temporary area. */
  function PdfCalls(parsed: Option<string>, tempDir: string, pageCount: nat, convert: Converter, ocr: Recognizer): seq<FsCall>
  {
    if HasTextLayer(parsed) then [] else CleanUp(tempDir, pageCount, convert, ocr)
  }

  /**
   * The OCR branch of `processPDFWithOCR`: create the temporary directory,
   * rasterise and read the pages, unlink the images once every page was
   * read, and remove the directory on every exit.
   */
  method OcrBranch(fs: FileSystem, tempDir: string, pageCount: nat, convert: Converter, ocr: Recognizer)
    returns (text: Option<string>)
    modifies fs
    ensures text == ScannedText(pageCount, convert, ocr)
    ensures fs.calls == old(fs.calls) + CleanUp(tempDir, pageCount, convert, ocr)
  {
    fs.Call(MakeDir(tempDir));
    var images := ExtractImages(pageCount, convert);
    if images.None? {
      fs.Call(RemoveDir(tempDir));
      SnocSnoc(old(fs.calls), MakeDir(tempDir), [], RemoveDir(tempDir));
      return None;
    }
    text := OcrPages(images.value, ocr);
    if text.None? {
      fs.Call(RemoveDir(tempDir));
      SnocSnoc(old(fs.calls), MakeDir(tempDir), [], RemoveDir(tempDir));
      return;
    }
    ghost var unlinks := MapSeq(UnlinkCall, images.value);
    fs.UnlinkAll(images.value);
    fs.Call(RemoveDir(tempDir));
    SnocSnoc(old(fs.calls), MakeDir(tempDir), unlinks, RemoveDir(tempDir));
  }

  /**
   * `processPDFWithOCR` with `pageCount` the number of pages to rasterise
   * (the document's own page count; see `AsWrittenPageCount` for the count
   * the code reads).
   */
  method ProcessPdf(fs: FileSystem, parsed: Option<string>, tempDir: string, pageCount: nat, convert: Converter, ocr: Recognizer)
    returns (r: Result<Extraction, string>)
    modifies fs
    ensures r == PdfResult(parsed, pageCount, convert, ocr)
    ensures fs.calls == old(fs.calls) + PdfCalls(parsed, tempDir, pageCount, convert, ocr)
  {
    if HasTextLayer(parsed) {
      AppendEmpty(fs.calls);
      return Ok(Extraction(parsed.value, "text-extraction", false));
    }
    var text := OcrBranch(fs, tempDir, pageCount, convert, ocr);
    if text.None? {
      return Err(PdfFailed);
    }
    r := Ok(Extraction(text.value, "ocr", true));
  }

  lemma SnocSnoc<T>(a: seq<T>, x: T, b: seq<T>, y: T)
    ensures a + [x] + b + [y] == a + ([x] + b + [y])
  {
  }

  /** The OCR branch always ends by removing the temporary directory, and removes images only after every page was read. */
  lemma PdfCleanUp(parsed: Option<string>, tempDir: string, pageCount: nat, convert: Converter, ocr: Recognizer)
    requires !HasTextLayer(parsed)
    ensures var calls := PdfCalls(parsed, tempDir, pageCount, convert, ocr);
      && calls[0] == MakeDir(tempDir) && Last(calls) == RemoveDir(tempDir)
      && (PdfResult(parsed, pageCount, convert, ocr).Err? ==> |calls| == 2)
      && (PdfResult(parsed, pageCount, convert, ocr).Ok? ==> |calls| == pageCount + 2)
  {
  }

  /** `processImageWithOCR` */
  function ProcessImage(ocr: Recognizer, path: string): (r: Result<Extraction, string>)
    ensures ocr(path).Some? ==> r == Ok(Extraction(ocr(path).value, "ocr", true))
    ensures ocr(path).None? ==> r == Err(ImageFailed)
  {
    match ocr(path)
    case Some(t) => Ok(Extraction(t, "ocr", true))
    case None => Err(ImageFailed)
  }
}
