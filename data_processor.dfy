/**
 * Text extraction in the AI service (ai-service/utils/data_processor.py):
 * whitespace and bullet normalisation, `[Page i]` framing of PDF pages and
 * DOCX paragraphs, the dispatch on the file extension, and the extension
 * check for uploads. Decoding bytes and the PDF and DOCX libraries are
 * parameters: the decoded text, the page texts, the paragraph texts, or the
 * message of the exception they raise.
 */
module DataProcessor {
  import opened Wrappers
  import opened Strings

  // ---------------------------------------------------------------------------
  // Whitespace normalisation
  // ---------------------------------------------------------------------------

  /** The class `[ \t]`. */
  predicate IsBlank(c: char) { c == ' ' || c == '\t' }

  /** The class `[•\-•]`. */
  predicate IsBullet(c: char) { c == '-' || c == '\U{2022}' }

  /** `text.replace("\r", "")` */
  function WithoutCr(s: string): (r: string)
    ensures NoCr(r)
    ensures |r| <= |s|
    ensures NoCr(s) ==> r == s
  {
    if |s| == 0 then ""
    else
      var t := WithoutCr(s[1..]);
      TidyWithin(s, s[1..], 1);
      if s[0] == '\r' then t
      else
        assert forall i :: 1 <= i < |t| + 1 ==> ([s[0]] + t)[i] == t[i - 1];
        [s[0]] + t
  }

  /** No carriage return. */
  predicate NoCr(s: string)
  {
    forall i :: 0 <= i < |s| ==> s[i] != '\r'
  }

  /** No tab. */
  predicate NoTab(s: string)
  {
    forall i :: 0 <= i < |s| ==> s[i] != '\t'
  }

  /** No two spaces in a row. */
  predicate SingleSpaced(s: string)
  {
    forall i :: 0 <= i < |s| - 1 ==> !(s[i] == ' ' && s[i + 1] == ' ')
  }

  /** No tab, no carriage return, and no two spaces in a row. */
  predicate Tidy(s: string)
  {
    NoCr(s) && NoTab(s) && SingleSpaced(s)
  }

  lemma ConsTidy(c: char, t: string)
    requires c != '\t' && NoTab(t) && SingleSpaced(t)
    requires c == ' ' ==> |t| == 0 || t[0] != ' '
    ensures NoTab([c] + t) && SingleSpaced([c] + t)
    ensures NoCr(t) && c != '\r' ==> NoCr([c] + t)
  {
    var s := [c] + t;
    assert forall i :: 1 <= i < |s| ==> s[i] == t[i - 1];
  }

  /** A piece of a text keeps each of the three properties. */
  lemma TidyWithin(s: string, r: string, k: nat)
    requires k + |r| <= |s| && s[k..k + |r|] == r
    ensures NoCr(s) ==> NoCr(r)
    ensures NoTab(s) ==> NoTab(r)
    ensures SingleSpaced(s) ==> SingleSpaced(r)
  {
    assert forall i :: 0 <= i < |r| ==> r[i] == s[k + i];
  }

  lemma TidyContained(s: string, r: string)
    requires Contains(s, r)
    ensures NoCr(s) ==> NoCr(r)
    ensures NoTab(s) ==> NoTab(r)
    ensures SingleSpaced(s) ==> SingleSpaced(r)
  {
    var k: nat :| k <= |s| && OccursAt(s, r, k);
    TidyWithin(s, r, k);
  }

  lemma TrimStartSuffix(s: string, ws: char -> bool)
    ensures var r := TrimStartBy(s, ws);
      (NoCr(s) ==> NoCr(r)) && (NoTab(s) ==> NoTab(r)) && (SingleSpaced(s) ==> SingleSpaced(r))
  {
    var r := TrimStartBy(s, ws);
    TidyWithin(s, r, |s| - |r|);
  }

  lemma DropBlanksShorter(s: string)
    requires |s| > 0 && IsBlank(s[0])
    ensures |TrimStartBy(s, IsBlank)| < |s|
  {
    var r := TrimStartBy(s, IsBlank);
    assert |r| > 0 ==> r[0] == s[|s| - |r|];
  }

  /** `re.sub(r"[ \t]+", " ", s)`: each maximal run of blanks becomes one space. */
  function CollapseBlanks(s: string): (r: string)
    ensures |r| == 0 <==> |s| == 0
    ensures |r| > 0 ==> (r[0] == ' ' <==> IsBlank(s[0]))
    ensures NoTab(r) && SingleSpaced(r)
    ensures NoCr(s) ==> NoCr(r)
    decreases |s|
  {
    if |s| == 0 then ""
    else if IsBlank(s[0]) then
      var rest := TrimStartBy(s, IsBlank);
      DropBlanksShorter(s);
      TrimStartSuffix(s, IsBlank);
      var t := CollapseBlanks(rest);
      ConsTidy(' ', t);
      [' '] + t
    else
      var t := CollapseBlanks(s[1..]);
      TidyWithin(s, s[1..], 1);
      ConsTidy(s[0], t);
      [s[0]] + t
  }

  /** `re.sub(r"^[•\-•]+[ \t]*", "- ", s)` */
  function Debullet(s: string): (r: string)
    ensures |s| > 0 && IsBullet(s[0]) ==>
      r == "- " + TrimStartBy(TrimStartBy(s, IsBullet), IsBlank)
    ensures !(|s| > 0 && IsBullet(s[0])) ==> r == s
  {
    if |s| > 0 && IsBullet(s[0]) then "- " + TrimStartBy(TrimStartBy(s, IsBullet), IsBlank) else s
  }

  /** One line: blank runs collapsed, stripped, then a leading bullet run normalised. */
  function CleanLine(line: string): string
  {
    Debullet(PyStrip(CollapseBlanks(line)))
  }

  /** Normalising a leading bullet run keeps a tidy line tidy. */
  lemma DebulletTidy(p: string)
    requires Tidy(p)
    ensures Tidy(Debullet(p))
  {
    if |p| > 0 && IsBullet(p[0]) {
      var a := TrimStartBy(p, IsBullet);
      TrimStartSuffix(p, IsBullet);
      var b := TrimStartBy(a, IsBlank);
      TrimStartSuffix(a, IsBlank);
      DashTidy(b);
    }
  }

  lemma DashTidy(b: string)
    requires Tidy(b) && (|b| == 0 || !IsBlank(b[0]))
    ensures Tidy("- " + b)
  {
    var s := "- " + b;
    assert s[0] == '-' && s[1] == ' ';
    assert forall i :: 2 <= i < |s| ==> s[i] == b[i - 2];
  }

  /** A cleaned line of text without carriage returns has none of the untidy spacing. */
  lemma CleanLineTidy(line: string)
    requires NoCr(line)
    ensures Tidy(CleanLine(line))
  {
    var c := CollapseBlanks(line);
    var p := PyStrip(c);
    assert Contains(c, p);
    TidyContained(c, p);
    DebulletTidy(p);
  }

  /** A leading run of bullets and the blanks after it become exactly `- `. */
  lemma BulletRun(bullets: string, blanks: string, rest: string)
    requires |bullets| > 0 && forall i :: 0 <= i < |bullets| ==> IsBullet(bullets[i])
    requires forall i :: 0 <= i < |blanks| ==> IsBlank(blanks[i])
    requires |rest| == 0 || (!IsBullet(rest[0]) && !IsBlank(rest[0]))
    ensures Debullet(bullets + blanks + rest) == "- " + rest
  {
    var tail := blanks + rest;
    var s := bullets + tail;
    assert bullets + blanks + rest == s;
    assert s[0] == bullets[0];
    assert |tail| == 0 || !IsBullet(tail[0]) by {
      if |blanks| > 0 {
        assert tail[0] == blanks[0];
      } else {
        assert tail == rest;
      }
    }
    TrimAll(bullets, tail, IsBullet);
    TrimAll(blanks, rest, IsBlank);
  }

  /** Trimming a prefix of `ws` characters stops at the first other character. */
  lemma {:induction false} TrimAll(pre: string, rest: string, ws: char -> bool)
    requires forall i :: 0 <= i < |pre| ==> ws(pre[i])
    requires |rest| == 0 || !ws(rest[0])
    ensures TrimStartBy(pre + rest, ws) == rest
    decreases |pre|
  {
    if |pre| > 0 {
      assert (pre + rest)[1..] == pre[1..] + rest;
      TrimAll(pre[1..], rest, ws);
    } else {
      assert pre + rest == rest;
    }
  }

  /** A line of spaces and tabs becomes empty, so blank lines are kept as empty lines. */
  lemma BlankLineEmpty(line: string)
    requires forall i :: 0 <= i < |line| ==> IsBlank(line[i])
    ensures CleanLine(line) == ""
  {
    var c := CollapseBlanks(line);
    if |line| > 0 {
      TrimAll(line, "", IsBlank);
      assert line + "" == line;
      assert c == " ";
      assert IsPyWhitespace(' ');
      StripEmptyIffBlank(c, IsPyWhitespace);
    }
  }

  /** `_normalize_ws` */
  function NormalizeWs(text: string): string
  {
    PyStrip(Join(MapBack(CleanLine, SplitOn(WithoutCr(text), "\n")), "\n"))
  }

  lemma {:induction false} JoinTidy(parts: seq<string>)
    requires forall k :: 0 <= k < |parts| ==> Tidy(parts[k])
    ensures Tidy(Join(parts, "\n"))
  {
    if |parts| > 1 {
      JoinTidy(parts[1..]);
      var a := parts[0];
      var b := Join(parts[1..], "\n");
      var s := a + "\n" + b;
      assert forall i :: 0 <= i < |a| ==> s[i] == a[i];
      assert s[|a|] == '\n';
      assert forall i :: |a| < i < |s| ==> s[i] == b[i - |a| - 1];
    }
  }

  /** The normalised text has no carriage return and no tab, and no two spaces in a row on any line. */
  lemma NormalizedTidy(text: string)
    ensures Tidy(NormalizeWs(text))
  {
    var lines := SplitOn(WithoutCr(text), "\n");
    var cleaned := MapBack(CleanLine, lines);
    forall k | 0 <= k < |lines|
      ensures Tidy(cleaned[k])
    {
      var piece := lines[k];
      MapBackAt(CleanLine, lines, k);
      SplitOnPieceWithin(WithoutCr(text), k);
      CleanLineTidy(piece);
    }
    JoinTidy(cleaned);
    var j := Join(cleaned, "\n");
    TidyContained(j, PyStrip(j));
  }

  /** Each piece of a text without carriage returns has none either. */
  lemma SplitOnPieceWithin(s: string, k: nat)
    requires NoCr(s)
    requires k < |SplitOn(s, "\n")|
    ensures NoCr(SplitOn(s, "\n")[k])
  {
    SplitOnJoin(s, "\n");
    JoinContains(SplitOn(s, "\n"), "\n", k);
    TidyContained(s, SplitOn(s, "\n")[k]);
  }

  /** Every part occurs in the joined text. */
  lemma {:induction false} JoinContains(parts: seq<string>, sep: string, k: nat)
    requires k < |parts|
    ensures Contains(Join(parts, sep), parts[k])
  {
    var j := Join(parts, sep);
    if |parts| == 1 {
      assert OccursAt(j, parts[k], 0);
    } else if k == 0 {
      assert j[..|parts[0]|] == parts[0];
      assert OccursAt(j, parts[k], 0);
    } else {
      JoinContains(parts[1..], sep, k - 1);
      var rest := Join(parts[1..], sep);
      var m: nat :| m <= |rest| && OccursAt(rest, parts[k], m);
      var off := |parts[0]| + |sep|;
      assert j == parts[0] + sep + rest;
      assert j[off + m..off + m + |parts[k]|] == rest[m..m + |parts[k]|];
      assert OccursAt(j, parts[k], off + m);
    }
  }

  // ---------------------------------------------------------------------------
  // Page framing
  // ---------------------------------------------------------------------------

  /** `f"[Page {n}]\n{txt}"` for a normalised page text `txt`, which an empty page leaves empty. */
  function PageBlock(n: nat, txt: string): string
  {
    "[Page " + NatToString(n) + "]\n" + txt
  }

  /** One block per normalised page text, in order, numbered from 1. */
  function PageBlocks(texts: seq<string>): (r: seq<string>)
    ensures |r| == |texts|
  {
    if |texts| == 0 then [] else PageBlocks(AllButLast(texts)) + [PageBlock(|texts|, Last(texts))]
  }

  lemma {:induction false} PageBlocksAt(texts: seq<string>, i: nat)
    requires i < |texts|
    ensures PageBlocks(texts)[i] == PageBlock(i + 1, texts[i])
    decreases |texts|
  {
    if i < |texts| - 1 {
      var init := AllButLast(texts);
      PageBlocksAt(init, i);
      assert init[i] == texts[i];
    }
  }

  /** The PDF text: the normalised pages' blocks joined by blank lines, then stripped. */
  function PdfText(pages: seq<string>): string
  {
    PyStrip(Join(PageBlocks(MapBack(NormalizeWs, pages)), "\n\n"))
  }

  /** The page loop: one block per page, including the empty ones. */
  method FramePages(pages: seq<string>) returns (text: string)
    ensures text == PdfText(pages)
  {
    ghost var texts := MapBack(NormalizeWs, pages);
    var blocks: seq<string> := [];
    var i := 0;
    while i < |pages|
      invariant 0 <= i <= |pages|
      invariant blocks == PageBlocks(texts[..i])
    {
      var txt := NormalizeWs(pages[i]);
      MapBackAt(NormalizeWs, pages, i);
      TakeSnoc(texts, i);
      assert AllButLast(texts[..i + 1]) == texts[..i];
      blocks := blocks + [PageBlock(i + 1, txt)];
      i := i + 1;
    }
    assert texts[..i] == texts;
    text := PyStrip(Join(blocks, "\n\n"));
  }

  /** An empty page normalises to the empty text. */
  lemma NormalizeEmpty()
    ensures NormalizeWs("") == ""
  {
    assert WithoutCr("") == "";
    assert SplitOn("", "\n") == [""];
    assert CleanLine("") == "";
    MapBackAt(CleanLine, [""], 0);
    assert MapBack(CleanLine, [""]) == [""];
  }

  /** Every page has its block under its own number, and an empty page keeps a bare header. */
  lemma EveryPageFramed(pages: seq<string>, i: nat)
    requires i < |pages|
    ensures PageBlocks(MapBack(NormalizeWs, pages))[i] == "[Page " + NatToString(i + 1) + "]\n" + NormalizeWs(pages[i])
    ensures pages[i] == "" ==> PageBlocks(MapBack(NormalizeWs, pages))[i] == "[Page " + NatToString(i + 1) + "]\n"
  {
    PageBlocksAt(MapBack(NormalizeWs, pages), i);
    MapBackAt(NormalizeWs, pages, i);
    if pages[i] == "" {
      NormalizeEmpty();
    }
  }

  /**
   * The lines the DOCX paragraphs give: one per paragraph, in order, each
   * the paragraph without its trailing whitespace (a blank paragraph an
   * empty line).
   */
  function DocxParagraphLines(paragraphs: seq<string>): (lines: seq<string>)
    ensures |lines| == |paragraphs|
    ensures forall i :: 0 <= i < |lines| ==> |lines[i]| <= |paragraphs[i]| && lines[i] == paragraphs[i][..|lines[i]|]
    ensures forall i :: 0 <= i < |lines| ==> |lines[i]| == 0 || !IsPyWhitespace(lines[i][|lines[i]| - 1])
    ensures forall i, j :: 0 <= i < |lines| && |lines[i]| <= j < |paragraphs[i]| ==> IsPyWhitespace(paragraphs[i][j])
    decreases |paragraphs|
  {
    if |paragraphs| == 0 then []
    else DocxParagraphLines(paragraphs[..|paragraphs| - 1]) + [TrimEndBy(paragraphs[|paragraphs| - 1], IsPyWhitespace)]
  }

  lemma {:induction false} DocxParagraphLinesAt(paragraphs: seq<string>, i: nat)
    requires i < |paragraphs|
    ensures DocxParagraphLines(paragraphs)[i] == TrimEndBy(paragraphs[i], IsPyWhitespace)
    decreases |paragraphs|
  {
    if i < |paragraphs| - 1 {
      var init := paragraphs[..|paragraphs| - 1];
      DocxParagraphLinesAt(init, i);
      assert init[i] == paragraphs[i];
    }
  }

  /** Whitespace a paragraph ends with never reaches the DOCX text. */
  lemma DocxTrailingBlanksIgnored(paragraphs: seq<string>, i: nat, blanks: string)
    requires i < |paragraphs|
    requires All(blanks, IsPyWhitespace)
    ensures DocxParagraphLines(paragraphs[i := paragraphs[i] + blanks]) == DocxParagraphLines(paragraphs)
  {
    var padded := paragraphs[i := paragraphs[i] + blanks];
    forall k | 0 <= k < |paragraphs|
      ensures DocxParagraphLines(padded)[k] == DocxParagraphLines(paragraphs)[k]
    {
      DocxParagraphLinesAt(padded, k);
      DocxParagraphLinesAt(paragraphs, k);
      if k == i {
        TrimEndPadded(paragraphs[i], blanks, IsPyWhitespace);
      }
    }
  }

  /** The DOCX paragraph loop: each paragraph right-stripped, blanks kept as empty lines. */
  method DocxLines(paragraphs: seq<string>) returns (lines: seq<string>)
    ensures lines == DocxParagraphLines(paragraphs)
  {
    lines := [];
    var i := 0;
    while i < |paragraphs|
      invariant 0 <= i <= |paragraphs|
      invariant |lines| == i
      invariant lines == DocxParagraphLines(paragraphs[..i])
    {
      assert paragraphs[..i + 1][..i] == paragraphs[..i];
      var txt := TrimEndBy(paragraphs[i], IsPyWhitespace);
      if |txt| > 0 {
        lines := lines + [txt];
      } else {
        lines := lines + [""];
      }
      i := i + 1;
    }
    assert paragraphs[..i] == paragraphs;
  }

  /** The DOCX text: a synthetic first page holding every paragraph, normalised as a whole. */
  function DocxText(lines: seq<string>): string
  {
    NormalizeWs("[Page 1]\n" + Join(lines, "\n"))
  }

  // ---------------------------------------------------------------------------
  // Dispatch on the extension
  // ---------------------------------------------------------------------------

  /** `name.split('.')[-1] if '.' in name else ""` */
  function Extension(name: string): (ext: string)
    ensures forall i :: 0 <= i < |ext| ==> ext[i] != '.'
    ensures LastIndexOf(name, '.').None? ==> ext == ""
    ensures LastIndexOf(name, '.').Some? ==> name == name[..LastIndexOf(name, '.').value] + "." + ext
  {
    match LastIndexOf(name, '.')
    case None => ""
    case Some(k) =>
      assert name == name[..k] + "." + name[k + 1..];
      name[k + 1..]
  }

  predicate IsTextType(ext: string)
  {
    ext == "txt" || ext == "text" || ext == "md" || ext == "markdown"
  }

  /** What one extractor gives: its pages or paragraphs, the message of what it raises, or an ImportError. */
  datatype Extracted = Parts(parts: seq<string>) | Raised(message: string) | NotInstalled

  /** What the extractors give for one upload. */
  datatype Sources = Sources(
    decoded: string,
    pymupdf: Extracted,
    pypdf2: Extracted,
    docx: Extracted)

  const PdfFailed: string := "Failed to process PDF: "
  const PdfLibraryMissing: string := "PDF processing requires " + "either PyMuPDF (pymupdf) " + "or PyPDF2"
  const DocxFailed: string := "Failed to process DOCX: "
  const DocxLibraryMissing: string := "DOCX processing requires " + "python-docx package"

  /**
   * `_process_pdf_pymupdf`: PyMuPDF's pages, or on any failure (a missing
   * library included) PyPDF2's. PyPDF2's own failure is reported with the
   * PDF prefix; its ImportError is turned into a bare message that the
   * handler of the same `try` does not catch again.
   */
  function ProcessPdf(src: Sources): (r: Result<string, string>)
    ensures src.pymupdf.Parts? ==> r == Ok(PdfText(src.pymupdf.parts))
    ensures !src.pymupdf.Parts? && src.pypdf2.Parts? ==> r == Ok(PdfText(src.pypdf2.parts))
    ensures !src.pymupdf.Parts? && src.pypdf2.Raised? ==> r == Err(PdfFailed + src.pypdf2.message)
    ensures !src.pymupdf.Parts? && src.pypdf2.NotInstalled? ==> r == Err(PdfLibraryMissing)
  {
    match src.pymupdf
    case Parts(pages) => Ok(PdfText(pages))
    case _ =>
      match src.pypdf2
      case Parts(pages) => Ok(PdfText(pages))
      case Raised(e) => Err(PdfFailed + e)
      case NotInstalled => Err(PdfLibraryMissing)
  }

  /**
   * `process_file`: text types are decoded and stripped, pdf and docx go to
   * their extractors, anything else is decoded anyway.
   */
  function ProcessFile(filename: string, src: Sources): (r: Result<string, string>)
    ensures var ext := Extension(Lower(filename));
      && (ext != "pdf" && ext != "docx" && ext != "doc" ==> r == Ok(PyStrip(src.decoded)))
      && (ext == "pdf" ==> (r.Ok? <==> ProcessPdf(src).Ok?))
      && (ext == "pdf" && r.Ok? ==> r.value == ProcessPdf(src).value)
      && (ext == "pdf" && r.Err? ==> r.error == FailedPrefix + ProcessPdf(src).error)
    ensures var ext := Extension(Lower(filename));
      && ((ext == "docx" || ext == "doc") && src.docx.Parts? ==> r == Ok(DocxText(DocxParagraphLines(src.docx.parts))))
      && ((ext == "docx" || ext == "doc") && src.docx.Raised? ==> r == Err(FailedPrefix + DocxFailed + src.docx.message))
      && ((ext == "docx" || ext == "doc") && src.docx.NotInstalled? ==> r == Err(FailedPrefix + DocxLibraryMissing))
    ensures r.Err? ==> |r.error| >= |FailedPrefix| && r.error[..|FailedPrefix|] == FailedPrefix
  {
    var ext := Extension(Lower(filename));
    if IsTextType(ext) then Ok(PyStrip(src.decoded))
    else if ext == "pdf" then
      match ProcessPdf(src)
      case Ok(t) => Ok(t)
      case Err(e) => Err(FailedPrefix + e)
    else if ext == "docx" || ext == "doc" then
      match src.docx
      case Parts(paragraphs) => Ok(DocxText(DocxParagraphLines(paragraphs)))
      case Raised(e) => Err(FailedPrefix + DocxFailed + e)
      case NotInstalled => Err(FailedPrefix + DocxLibraryMissing)
    else Ok(PyStrip(src.decoded))
  }

  const FailedPrefix: string := "Failed to process document: "

  /** `validate_file` */
  function ValidateFile(filename: string): (ok: bool)
    ensures ok <==> Lower(Extension(filename)) in ["txt", "pdf", "docx", "doc", "md", "markdown"]
  {
    var ext := Lower(Extension(filename));
    ext == "txt" || ext == "pdf" || ext == "docx" || ext == "doc" || ext == "md" || ext == "markdown"
  }

  lemma TextExtension(stem: string)
    requires forall i :: 0 <= i < |stem| ==> stem[i] != '.' && !('A' <= stem[i] <= 'Z')
    ensures Extension(stem + ".text") == "text"
    ensures Lower(stem + ".text") == stem + ".text"
  {
    var name := stem + ".text";
    assert forall i :: |stem| < i < |name| ==> name[i] != '.';
    LastIndexOfIs(name, '.', |stem|);
    assert name[|stem| + 1..] == "text";
    LowerIdentity(name);
  }

  /** A `.text` file is processed as text, but the upload check refuses it. */
  lemma TextExtensionRefused(stem: string, src: Sources)
    requires forall i :: 0 <= i < |stem| ==> stem[i] != '.' && !('A' <= stem[i] <= 'Z')
    ensures !ValidateFile(stem + ".text")
    ensures ProcessFile(stem + ".text", src) == Ok(PyStrip(src.decoded))
  {
    TextExtension(stem);
    LowerIdentity("text");
  }

  /** Lower-casing text without capitals changes nothing. */
  lemma LowerIdentity(s: string)
    requires forall i :: 0 <= i < |s| ==> !('A' <= s[i] <= 'Z')
    ensures Lower(s) == s
  {
  }
}
