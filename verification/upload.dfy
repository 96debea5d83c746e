/** `POST /upload`: resolve the file's media type, pick one of four text
    extractors, ask the model for an analysis of the extracted text, and
    assemble the response. Extractor results, the model's outcome for a
    given prompt, the clock, the random number and the request's host are
    parameters. */
module UploadRoute {
  import opened Wrappers
  import opened Strings
  import opened Decimal
  import opened Upstream
  import opened UploadNaming

  const OctetStream: string := "application/octet-stream"
  const PdfType: string := "application/pdf"

  const PromptLimit: nat := 8000
  const PreviewLimit: nat := 2000
  const FallbackPreviewLimit: nat := 1000

  const AnalysisApology: string :=
    "I couldn't analyze the file with AI at the moment, but here's the extracted content preview:\n\n"
  /** The fixed instruction that opens the analysis prompt. */
  const PromptIntro: string :=
    "You are an assistant that analyzes uploaded files. Summarize and extract key insights, and suggest next actions.\n\nFilename: "
  const NoTextMarker: string := "<no text>"
  const ServerErrorAnalysis: string :=
    "I couldn't analyze the file due to a server error. Please verify the server configuration (e.g., GEMINI_API_KEY) and try again."

  /** `mimeType || mime.lookup(filePath) || "application/octet-stream"`. */
  function EffectiveType(declared: Option<string>, lookedUp: Option<string>): (t: string)
    ensures t != ""
    ensures Truthy(declared) ==> t == declared.value
    ensures !Truthy(declared) && Truthy(lookedUp) ==> t == lookedUp.value
    ensures !Truthy(declared) && !Truthy(lookedUp) ==> t == OctetStream
  {
    if Truthy(declared) then declared.value
    else if Truthy(lookedUp) then lookedUp.value
    else OctetStream
  }

  /** The value of `a || b || ...` over optional strings: the first truthy
      one, or the last operand when none is. */
  function FirstTruthy(vs: seq<Option<string>>): Option<string>
    requires |vs| > 0
  {
    if |vs| == 1 || Truthy(vs[0]) then vs[0] else FirstTruthy(vs[1..])
  }

  /** The effective type is JavaScript's `||` over the declared type, the
      looked-up type and the octet-stream default. */
  lemma EffectiveTypeIsFirstTruthy(declared: Option<string>, lookedUp: Option<string>)
    ensures FirstTruthy([declared, lookedUp, Some(OctetStream)]) == Some(EffectiveType(declared, lookedUp))
  {
    var vs := [declared, lookedUp, Some(OctetStream)];
    assert vs[1..] == [lookedUp, Some(OctetStream)];
    assert vs[1..][1..] == [Some(OctetStream)];
    assert FirstTruthy(vs[1..][1..]) == Some(OctetStream);
    assert FirstTruthy(vs[1..]) == if Truthy(lookedUp) then lookedUp else Some(OctetStream);
  }

  datatype Extractor = PdfParse | TextRead | Ocr | RawRead

  /** The extractor a media type is sent to; the tests are tried in this
      order and the first that matches wins. */
  function ChooseExtractor(t: string): (e: Extractor)
    ensures e == PdfParse <==> t == PdfType
    ensures e == TextRead <==> t != PdfType && StartsWith(t, "text/")
    ensures e == Ocr <==> t != PdfType && !StartsWith(t, "text/") && StartsWith(t, "image/")
    ensures e == RawRead <==> t != PdfType && !StartsWith(t, "text/") && !StartsWith(t, "image/")
  {
    if t == PdfType then PdfParse
    else if StartsWith(t, "text/") then TextRead
    else if StartsWith(t, "image/") then Ocr
    else RawRead
  }

  /** The extractors in the order the route tries them. */
  const ExtractorOrder: seq<Extractor> := [PdfParse, TextRead, Ocr, RawRead]

  /** Extractor `e`'s own test on a media type; the raw read takes anything. */
  predicate Accepts(e: Extractor, t: string) {
    match e
    case PdfParse => t == PdfType
    case TextRead => StartsWith(t, "text/")
    case Ocr => StartsWith(t, "image/")
    case RawRead => true
  }

  /** Dispatch is first-match-wins: the chosen extractor accepts the type and
      every extractor tried before it refuses it. */
  lemma ChosenIsFirstAccepting(t: string)
    ensures exists i ::
              && 0 <= i < |ExtractorOrder|
              && ExtractorOrder[i] == ChooseExtractor(t)
              && Accepts(ExtractorOrder[i], t)
              && forall j :: 0 <= j < i ==> !Accepts(ExtractorOrder[j], t)
  {
    var i := match ChooseExtractor(t)
      case PdfParse => 0
      case TextRead => 1
      case Ocr => 2
      case RawRead => 3;
    assert ExtractorOrder[i] == ChooseExtractor(t);
  }

  /** A parsing library's outcome: it threw, or it resolved with a result
      whose `text` may be absent. */
  datatype LibraryResult = LibraryThrew | Parsed(text: Option<string>)

  /** What each extractor would yield for the stored file. A file read
      either throws (`None`) or returns the whole content. */
  datatype Extractions = Extractions(
    pdf: LibraryResult,
    textRead: Option<string>,
    ocr: LibraryResult,
    rawRead: Option<string>)

  /** The text a library result stands for, if any (`result.text || ""`). */
  function LibraryText(l: LibraryResult): Option<string> {
    match l
    case LibraryThrew => None
    case Parsed(t) => t
  }

  /** The text the chosen extractor produced, `None` when it failed or
      produced nothing. */
  function Produced(x: Extractions, e: Extractor): Option<string> {
    match e
    case PdfParse => LibraryText(x.pdf)
    case TextRead => x.textRead
    case Ocr => LibraryText(x.ocr)
    case RawRead => x.rawRead
  }

  /** `extractTextFromFile`: never fails; every extractor failure and every
      missing result collapses to the empty string. */
  function ExtractText(t: string, x: Extractions): (r: string)
    ensures Produced(x, ChooseExtractor(t)).None? ==> r == ""
    ensures Produced(x, ChooseExtractor(t)).Some? ==> r == Produced(x, ChooseExtractor(t)).value
  {
    match ChooseExtractor(t)
    case PdfParse =>
      (match x.pdf
       case LibraryThrew => ""
       case Parsed(text) => if Truthy(text) then text.value else "")
    case TextRead =>
      (match x.textRead
       case None => ""
       case Some(content) => content)
    case Ocr =>
      (match x.ocr
       case LibraryThrew => ""
       case Parsed(text) => if Truthy(text) then text.value else "")
    case RawRead =>
      (match x.rawRead
       case None => ""
       case Some(content) => content)
  }

  /** Only the chosen extractor is consulted. */
  lemma ExtractUsesOnlyChosen(t: string, x1: Extractions, x2: Extractions)
    requires Produced(x1, ChooseExtractor(t)) == Produced(x2, ChooseExtractor(t))
    ensures ExtractText(t, x1) == ExtractText(t, x2)
  {
  }

  /** The file as the upload middleware describes it; its original name is
      `base + ext`. */
  datatype IncomingFile = IncomingFile(base: string, ext: string, mimetype: Option<string>, size: nat) {
    function OriginalName(): string { base + ext }
  }

  /** `${value}` of an optional string in a template literal. */
  function Interpolate(v: Option<string>): string {
    v.GetOr("undefined")
  }

  function PromptHeader(f: IncomingFile): string {
    PromptIntro
    + f.OriginalName() + "\nMIME: " + Interpolate(f.mimetype) + "\nSize: " + Render(f.size)
    + " bytes\n\nExtracted content (raw):\n"
  }

  /** The analysis prompt: the header, followed by exactly the first 8000
      characters of the extracted text (all of it when shorter). */
  function Prompt(f: IncomingFile, text: string): (p: string)
    ensures PromptHeader(f) <= p
    ensures p[|PromptHeader(f)|..] <= text
    ensures |p| == |PromptHeader(f)| + Min(PromptLimit, |text|)
  {
    var p := PromptHeader(f) + Truncate(text, PromptLimit);
    assert p[|PromptHeader(f)|..] == Truncate(text, PromptLimit);
    p
  }

  /** The analysis: the model's text when it gave one, the empty string when
      it resolved without text, and on a thrown call an apology followed by
      a preview of at most 1000 characters (or a marker for empty text). */
  function Analysis(g: Generation, text: string): (a: string)
    ensures g.Generated? ==> a == g.text
    ensures g.NoText? ==> a == ""
    ensures g.Threw? ==> |a| > |AnalysisApology| && a[..|AnalysisApology|] == AnalysisApology
    ensures g.Threw? && text == "" ==> a[|AnalysisApology|..] == NoTextMarker
    ensures g.Threw? && text != "" ==>
      a[|AnalysisApology|..] <= text && |a[|AnalysisApology|..]| == Min(FallbackPreviewLimit, |text|)
  {
    match g
    case Generated(t) => t
    case NoText => ""
    case Threw =>
      var preview := Truncate(text, FallbackPreviewLimit);
      var a := AnalysisApology + (if preview != "" then preview else NoTextMarker);
      assert a[|AnalysisApology|..] == (if preview != "" then preview else NoTextMarker);
      a
  }

  /** The request environment: clock and random number for the stored name,
      scheme and host for the URL, the media-type lookup by file name, the
      extractors' results, the model as a function of the prompt, and an
      unexpected error raised while processing (with its message), if any. */
  datatype UploadEnv = UploadEnv(
    timestamp: nat,
    random: nat,
    protocol: string,
    host: string,
    lookedUp: Option<string>,
    extractions: Extractions,
    model: string -> Generation,
    crash: Option<string>)

  datatype UploadBody =
    | NoFile(error: string)
    | Analyzed(
        filename: string,
        originalname: string,
        mimetype: Option<string>,
        size: nat,
        url: string,
        extractedText: string,
        analysis: string)
    | ProcessingFailed(error: string, details: string, analysis: string)

  datatype UploadResponse = UploadResponse(status: nat, body: UploadBody)

  function FileUrl(env: UploadEnv, filename: string): string {
    env.protocol + "://" + env.host + "/uploads/" + filename
  }

  /** The success body for a file whose extracted text is `text`. */
  function AnalyzedBody(f: IncomingFile, env: UploadEnv, text: string): (b: UploadBody)
    ensures b.Analyzed?
    ensures b.extractedText <= text && |b.extractedText| == Min(PreviewLimit, |text|)
    ensures b.analysis == Analysis(env.model(Prompt(f, text)), text)
  {
    var name := StoredName(f.base, f.ext, env.timestamp, env.random);
    var preview := Truncate(text, PreviewLimit);
    var analysis := Analysis(env.model(Prompt(f, text)), text);
    Analyzed(name, f.OriginalName(), f.mimetype, f.size, FileUrl(env, name), preview, analysis)
  }

  /** The route. It answers 400 only when no file arrived and never 500. */
  function PostUpload(file: Option<IncomingFile>, env: UploadEnv): (r: UploadResponse)
    ensures r.status == 200 || r.status == 400
    ensures r.status == 400 <==> file.None?
    ensures file.None? ==> r.body == NoFile("No file uploaded")
    ensures file.Some? && env.crash.Some? ==>
      r.body == ProcessingFailed("Upload processing failed", env.crash.value, ServerErrorAnalysis)
    ensures file.Some? && env.crash.None? ==>
      var f := file.value;
      var text := ExtractText(EffectiveType(f.mimetype, env.lookedUp), env.extractions);
      && r.body.Analyzed?
      && r.body.filename == StoredName(f.base, f.ext, env.timestamp, env.random)
      && r.body.originalname == f.OriginalName()
      && r.body.mimetype == f.mimetype
      && r.body.size == f.size
      && r.body.url == FileUrl(env, r.body.filename)
      && r.body.extractedText <= text
      && |r.body.extractedText| == Min(PreviewLimit, |text|)
      && r.body.analysis == Analysis(env.model(Prompt(f, text)), text)
  {
    match file
    case None => UploadResponse(400, NoFile("No file uploaded"))
    case Some(f) =>
      match env.crash
      case Some(details) =>
        UploadResponse(200, ProcessingFailed("Upload processing failed", details, ServerErrorAnalysis))
      case None =>
        var text := ExtractText(EffectiveType(f.mimetype, env.lookedUp), env.extractions);
        UploadResponse(200, AnalyzedBody(f, env, text))
  }

  /** The returned URL serves the stored file under `/uploads/`. */
  lemma UrlNamesStoredFile(f: IncomingFile, env: UploadEnv)
    requires env.crash.None?
    ensures var b := PostUpload(Some(f), env).body;
      var tail := "/uploads/" + b.filename;
      |b.url| >= |tail| && b.url[|b.url| - |tail|..] == tail
  {
    var b := PostUpload(Some(f), env).body;
    assert b.url == (env.protocol + "://" + env.host) + ("/uploads/" + b.filename);
  }

  /** Everything the response says about the extracted text is decided by
      its first 8000 characters: the prompt, the preview and the fallback
      analysis never look further. Two requests that differ only in what
      the extractors yield, with texts agreeing on that prefix, get the same
      response. */
  lemma ResponseSeesOnlyPromptPrefix(f: IncomingFile, env: UploadEnv, x: Extractions)
    requires env.crash.None?
    requires var t := EffectiveType(f.mimetype, env.lookedUp);
      Truncate(ExtractText(t, env.extractions), PromptLimit) == Truncate(ExtractText(t, x), PromptLimit)
    ensures PostUpload(Some(f), env) == PostUpload(Some(f), env.(extractions := x))
  {
    var t := EffectiveType(f.mimetype, env.lookedUp);
    var t1, t2 := ExtractText(t, env.extractions), ExtractText(t, x);
    TruncateTwice(t1, PromptLimit, PreviewLimit);
    TruncateTwice(t2, PromptLimit, PreviewLimit);
    TruncateTwice(t1, PromptLimit, FallbackPreviewLimit);
    TruncateTwice(t2, PromptLimit, FallbackPreviewLimit);
    assert Prompt(f, t1) == Prompt(f, t2);
    assert (t1 == "") == (t2 == "");
    assert AnalyzedBody(f, env, t1) == AnalyzedBody(f, env.(extractions := x), t2);
  }

  /** A plain-text upload of `"abc"` with a model that answers comes back
      with the text itself and the model's non-empty answer. */
  lemma PlainTextExample(env: UploadEnv, answer: string)
    requires env.crash.None? && env.extractions.textRead == Some("abc")
    requires forall p :: env.model(p) == Generated(answer)
    requires answer != ""
    ensures var r := PostUpload(Some(IncomingFile("notes", ".txt", Some("text/plain"), 3)), env);
      r.status == 200 && r.body.Analyzed? && r.body.extractedText == "abc" && r.body.analysis != ""
  {
  }
}
