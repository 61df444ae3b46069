/**
 * backend/app/api/routes/extraction.py: choosing a text extractor from the
 * upload's file name, the image media-type table, stitching PDF pages and
 * DOCX paragraphs together, stripping a Markdown code fence from the task
 * parser's reply, and the placeholder transcription.
 */
module Extraction {

  import opened Wrappers
  import opened Text
  import Seqs

  /** An HTTPException: status code and detail text. */
  datatype HttpError = HttpError(status: int, detail: string)

  /** The last dot-separated piece of the lower-cased name starts right after a dot of the name, or at its start. */
  lemma LastPieceAfterDot(filename: string)
    ensures var pieces := Split(Lower(filename), '.');
      exists k :: 0 <= k <= |filename| && (k == 0 || filename[k - 1] == '.') && pieces[|pieces| - 1] == Lower(filename)[k..]
  {
    var low := Lower(filename);
    var pieces := Split(low, '.');
    SplitLastPiece(low, '.');
    var k :| 0 <= k <= |low| && (k == 0 || low[k - 1] == '.') && pieces[|pieces| - 1] == low[k..];
    if k > 0 {
      assert LowerChar(filename[k - 1]) == '.';
    }
  }

  /** `filename.lower().split('.')[-1]`. */
  function Extension(filename: string): (ext: string)
    ensures '.' !in ext
    ensures exists k :: 0 <= k <= |filename| && (k == 0 || filename[k - 1] == '.') && ext == Lower(filename)[k..]
    ensures '.' !in filename ==> ext == Lower(filename)
  {
    var pieces := Split(Lower(filename), '.');
    LastPieceAfterDot(filename);
    LowerKeepsNonLetter(filename, '.');
    if '.' !in filename then
      SplitNoSep(Lower(filename), '.');
      pieces[|pieces| - 1]
    else pieces[|pieces| - 1]
  }

  predicate IsImageExtension(ext: string) {
    ext in ["png", "jpg", "jpeg", "gif", "webp"]
  }

  /** `media_types.get(ext, 'image/png')`. */
  function MediaType(ext: string): (m: string)
    ensures ext == "png" ==> m == "image/png"
    ensures ext == "jpg" || ext == "jpeg" ==> m == "image/jpeg"
    ensures ext == "gif" ==> m == "image/gif"
    ensures ext == "webp" ==> m == "image/webp"
    ensures !IsImageExtension(ext) ==> m == "image/png"
  {
    match ext
    case "png" => "image/png"
    case "jpg" => "image/jpeg"
    case "jpeg" => "image/jpeg"
    case "gif" => "image/gif"
    case "webp" => "image/webp"
    case _ => "image/png"
  }

  /** Every media type the table can produce is an image type. */
  lemma MediaTypeIsImage(ext: string)
    ensures StartsWith(MediaType(ext), "image/")
  {
  }

  /** pypdf's text for `pages`, one page after the other, each followed by a newline. */
  function PagesText(pages: seq<string>): string {
    if pages == [] then [] else pages[0] + "\n" + PagesText(pages[1..])
  }

  lemma {:induction false} PagesTextSnoc(pages: seq<string>, page: string)
    ensures PagesText(pages + [page]) == PagesText(pages) + page + "\n"
  {
    if pages == [] {
      assert [] + [page] == [page];
    } else {
      assert (pages + [page])[1..] == pages[1..] + [page];
      PagesTextSnoc(pages[1..], page);
    }
  }

  /** The PDF branch's loop: `text += page.extract_text() + "\n"` for each page. */
  method ConcatPages(pages: seq<string>) returns (text: string)
    ensures text == PagesText(pages)
    ensures |text| >= |pages|
  {
    text := "";
    var i := 0;
    while i < |pages|
      invariant 0 <= i <= |pages|
      invariant text == PagesText(pages[..i])
      invariant |text| >= i
    {
      assert pages[..i + 1] == pages[..i] + [pages[i]];
      PagesTextSnoc(pages[..i], pages[i]);
      text := text + pages[i] + "\n";
      i := i + 1;
    }
    assert pages[..|pages|] == pages;
  }

  /** The PDF text is the pages joined by newlines with one newline after the last. */
  lemma {:induction false} PagesTextIsJoin(pages: seq<string>)
    ensures PagesText(pages) == Join(pages + [""], '\n')
  {
    if pages != [] {
      PagesTextIsJoin(pages[1..]);
      assert (pages + [""])[1..] == pages[1..] + [""];
    }
  }

  /** Pages without line breaks of their own come back one per line. */
  lemma PagesTextLines(pages: seq<string>)
    requires forall k :: 0 <= k < |pages| ==> '\n' !in pages[k]
    ensures Split(PagesText(pages), '\n') == pages + [""]
  {
    PagesTextIsJoin(pages);
    SplitJoin(pages + [""], '\n');
  }

  /** `"\n".join(paragraph.text for paragraph in doc.paragraphs)`. */
  function DocxText(paragraphs: seq<string>): string {
    Join(paragraphs, '\n')
  }

  /** Paragraphs without line breaks of their own come back one per line. */
  lemma DocxTextLines(paragraphs: seq<string>)
    requires |paragraphs| >= 1
    requires forall k :: 0 <= k < |paragraphs| ==> '\n' !in paragraphs[k]
    ensures Split(DocxText(paragraphs), '\n') == paragraphs
  {
    SplitJoin(paragraphs, '\n');
  }

  /**
   * What the libraries would return for the uploaded file: its UTF-8 text,
   * pypdf's page texts, python-docx's paragraph texts, and the vision
   * model's reply for an image of a given media type. Each is either its
   * result or the message of the exception it raised (a file that cannot
   * be opened or decoded, a document the library cannot read, a failed
   * model call).
   */
  datatype Readers = Readers(
    fileText: Result<string, string>,
    pages: Result<seq<string>, string>,
    paragraphs: Result<seq<string>, string>,
    ocr: string -> Result<string, string>)

  const ImageKeyMissing: string := "ANTHROPIC_API_KEY not configured for image OCR"

  /** The `except Exception` wrapper: every failure becomes HTTP 400. */
  function Failed(message: string): HttpError {
    HttpError(400, "Failed to extract text: " + message)
  }

  predicate Supported(ext: string) {
    ext in ["txt", "pdf", "doc", "docx", "png", "jpg", "jpeg", "gif", "webp"]
  }

  /** The dispatch in extract_text_from_file on the lower-cased extension. */
  function ExtractByExtension(ext: string, readers: Readers, apiKey: Option<string>): (r: Result<string, HttpError>)
    ensures ext == "txt" && readers.fileText.Success? ==> r == Success(readers.fileText.value)
    ensures ext == "txt" && readers.fileText.Failure? ==> r == Failure(Failed(readers.fileText.error))
    ensures ext == "pdf" && readers.pages.Success? ==> r == Success(PagesText(readers.pages.value))
    ensures ext == "pdf" && readers.pages.Failure? ==> r == Failure(Failed(readers.pages.error))
    ensures ext in ["doc", "docx"] && readers.paragraphs.Success? ==> r == Success(DocxText(readers.paragraphs.value))
    ensures ext in ["doc", "docx"] && readers.paragraphs.Failure? ==> r == Failure(Failed(readers.paragraphs.error))
    ensures IsImageExtension(ext) && (apiKey.None? || apiKey.value == []) ==> r == Failure(Failed(ImageKeyMissing))
    ensures IsImageExtension(ext) && apiKey.Some? && apiKey.value != [] ==>
      var reply := readers.ocr(MediaType(ext));
      r == if reply.Success? then Success(reply.value) else Failure(Failed(reply.error))
    ensures r.Failure? ==> r.error.status == 400
    ensures r.Failure? <==>
      (ext == "txt" && readers.fileText.Failure?)
      || (ext == "pdf" && readers.pages.Failure?)
      || (ext in ["doc", "docx"] && readers.paragraphs.Failure?)
      || (IsImageExtension(ext) && (apiKey.None? || apiKey.value == [] || readers.ocr(MediaType(ext)).Failure?))
      || !Supported(ext)
  {
    if ext == "txt" then
      if readers.fileText.Success? then Success(readers.fileText.value) else Failure(Failed(readers.fileText.error))
    else if ext == "pdf" then
      if readers.pages.Success? then Success(PagesText(readers.pages.value)) else Failure(Failed(readers.pages.error))
    else if ext in ["doc", "docx"] then
      if readers.paragraphs.Success? then Success(DocxText(readers.paragraphs.value))
      else Failure(Failed(readers.paragraphs.error))
    else if IsImageExtension(ext) then
      if apiKey.None? || apiKey.value == [] then Failure(Failed(ImageKeyMissing))
      else
        var reply := readers.ocr(MediaType(ext));
        if reply.Success? then Success(reply.value) else Failure(Failed(reply.error))
    else Failure(Failed("Unsupported file type: " + ext))
  }

  /** extract_text_from_file, with the file and library results given by `readers`. */
  function ExtractText(filename: string, readers: Readers, apiKey: Option<string>): (r: Result<string, HttpError>)
    ensures Extension(filename) == "txt" && readers.fileText.Success? ==> r == Success(readers.fileText.value)
    ensures Extension(filename) == "txt" && readers.fileText.Failure? ==> r == Failure(Failed(readers.fileText.error))
    ensures Extension(filename) == "pdf" && readers.pages.Success? ==> r == Success(PagesText(readers.pages.value))
    ensures Extension(filename) == "pdf" && readers.pages.Failure? ==> r == Failure(Failed(readers.pages.error))
    ensures Extension(filename) in ["doc", "docx"] && readers.paragraphs.Success? ==>
      r == Success(DocxText(readers.paragraphs.value))
    ensures Extension(filename) in ["doc", "docx"] && readers.paragraphs.Failure? ==>
      r == Failure(Failed(readers.paragraphs.error))
    ensures IsImageExtension(Extension(filename)) && (apiKey.None? || apiKey.value == []) ==>
      r == Failure(Failed(ImageKeyMissing))
    ensures IsImageExtension(Extension(filename)) && apiKey.Some? && apiKey.value != [] ==>
      var reply := readers.ocr(MediaType(Extension(filename)));
      r == if reply.Success? then Success(reply.value) else Failure(Failed(reply.error))
    ensures r.Failure? ==> r.error.status == 400
    ensures r.Failure? <==>
      (Extension(filename) == "txt" && readers.fileText.Failure?)
      || (Extension(filename) == "pdf" && readers.pages.Failure?)
      || (Extension(filename) in ["doc", "docx"] && readers.paragraphs.Failure?)
      || (IsImageExtension(Extension(filename))
          && (apiKey.None? || apiKey.value == [] || readers.ocr(MediaType(Extension(filename))).Failure?))
      || !Supported(Extension(filename))
  {
    ExtractByExtension(Extension(filename), readers, apiKey)
  }

  /** An unsupported name says which extension was refused. */
  lemma UnsupportedNamesExtension(filename: string, readers: Readers, apiKey: Option<string>)
    requires !Supported(Extension(filename))
    ensures ExtractText(filename, readers, apiKey)
         == Failure(HttpError(400, "Failed to extract text: " + "Unsupported file type: " + Extension(filename)))
  {
    var ext := Extension(filename);
    assert ExtractByExtension(ext, readers, apiKey) == Failure(Failed("Unsupported file type: " + ext));
    Seqs.AppendAssoc("Failed to extract text: ", "Unsupported file type: ", ext);
  }

  /** `lines[1:-1]`: empty when there are fewer than three lines. */
  function Inner(lines: seq<string>): (r: seq<string>)
    ensures |lines| >= 2 ==> r == lines[1..|lines| - 1]
    ensures |lines| < 2 ==> r == []
  {
    if |lines| < 2 then [] else lines[1..|lines| - 1]
  }

  /**
   * The reply clean-up in parse_tasks_from_text: strip, then if the text
   * starts with a code fence drop its first and last lines.
   */
  function StripFence(reply: string): (r: string)
    ensures !StartsWith(Trim(reply), "```") ==> r == Trim(reply)
  {
    var text := Trim(reply);
    if StartsWith(text, "```") then Join(Inner(Split(text, '\n')), '\n') else text
  }

  lemma TrimUnchanged(s: string)
    requires s != [] && !IsSpace(s[0]) && !IsSpace(s[|s| - 1])
    ensures Trim(s) == s
  {
    assert LeadingSpaces(s) == 0;
    assert TrimLeft(s) == s;
    assert TrailingStart(s) == |s|;
  }

  /**
   * Text starting with a fence loses its first and last lines: with three
   * lines or more the result splits into exactly the lines in between, and
   * with fewer it is empty. The fence need not be closed.
   */
  lemma StripFenceDropsEnds(reply: string)
    requires StartsWith(Trim(reply), "```")
    ensures var lines := Split(Trim(reply), '\n');
      |lines| >= 3 ==> Split(StripFence(reply), '\n') == lines[1..|lines| - 1]
    ensures |Split(Trim(reply), '\n')| < 3 ==> StripFence(reply) == []
  {
    var lines := Split(Trim(reply), '\n');
    if |lines| >= 3 {
      var inner := lines[1..|lines| - 1];
      assert Inner(lines) == inner;
      forall k | 0 <= k < |inner| ensures '\n' !in inner[k] {
        assert inner[k] == lines[k + 1];
      }
      SplitJoin(inner, '\n');
    }
  }

  /** Round trip: a fenced block (with its language tag line) gives back exactly its body. */
  lemma StripFenceRoundTrip(tag: string, body: string)
    requires '\n' !in tag
    ensures StripFence("```" + tag + "\n" + body + "\n```") == body
  {
    var fenced := "```" + tag + "\n" + body + "\n```";
    var bodyLines := Split(body, '\n');
    var lines := ["```" + tag] + bodyLines + ["```"];
    assert fenced[0] == '`' && fenced[|fenced| - 1] == '`';
    TrimUnchanged(fenced);
    JoinAppend(["```" + tag] + bodyLines, ["```"], '\n');
    JoinAppend(["```" + tag], bodyLines, '\n');
    assert fenced == Join(lines, '\n');
    forall k | 0 <= k < |lines| ensures '\n' !in lines[k] {
      if k == 0 {
        assert lines[0] == "```" + tag;
      } else if k < |lines| - 1 {
        assert lines[k] == bodyLines[k - 1];
      }
    }
    SplitJoin(lines, '\n');
    assert StartsWith(fenced, "```");
    assert Inner(lines) == bodyLines;
  }

  const ParseKeyMissing: string := "ANTHROPIC_API_KEY not configured"

  /**
   * parse_tasks_from_text up to the JSON text it hands to json.loads: no API
   * key is HTTP 500 before any call; a failed model call is HTTP 500 with the
   * error; otherwise the fence-stripped reply.
   */
  function ParseTasksText(apiKey: Option<string>, reply: Result<string, string>): (r: Result<string, HttpError>)
    ensures (apiKey.None? || apiKey.value == []) ==> r == Failure(HttpError(500, ParseKeyMissing))
    ensures apiKey.Some? && apiKey.value != [] && reply.Failure? ==>
      r == Failure(HttpError(500, "Failed to parse tasks: " + reply.error))
    ensures apiKey.Some? && apiKey.value != [] && reply.Success? ==> r == Success(StripFence(reply.value))
  {
    if apiKey.None? || apiKey.value == [] then Failure(HttpError(500, ParseKeyMissing))
    else match reply
      case Failure(e) => Failure(HttpError(500, "Failed to parse tasks: " + e))
      case Success(text) => Success(StripFence(text))
  }

  const TranscriptionPlaceholder: string :=
    "Please describe your workflow tasks manually for now. Audio transcription will be added soon."

  /** transcribe_audio: the same placeholder whatever the upload holds. */
  function TranscribeAudio(audio: seq<bv8>): (transcription: string)
    ensures transcription == TranscriptionPlaceholder
  {
    TranscriptionPlaceholder
  }
}
