/**
 * The `POST /parse` handler of the extraction service: the ordered upload
 * checks, the fallback from plain text extraction to OCR, and the status and
 * body of each outcome.
 */
module Endpoint {
  import opened Wrappers
  import opened Text
  import opened Json
  import opened Statement

  type Bytes = seq<bv8>

  /** Reading the uploaded part either yields its bytes or raises with a message. */
  datatype Content = Read(bytes: Bytes) | ReadError(message: string)

  /** One part of the multipart body: the client's file name and its content. */
  datatype Upload = Upload(filename: string, content: Content)

  /** The request's file parts, by form-field name. */
  datatype Request = Request(files: map<string, Upload>)

  /** What the handler returns: an HTTP status and a JSON object. */
  datatype Response = Response(status: int, body: Object)

  /**
   * The libraries the handler calls: plain text extraction (pdfplumber), OCR
   * (pdf2image and tesseract) and the regular-expression matcher. Each extractor
   * reports its own failures as None.
   */
  datatype Services = Services(
    plain: Bytes -> Option<string>,
    ocr: Bytes -> Option<string>,
    search: Matcher)

  const NO_FILE_PART := "No file part in the request"
  const NO_FILE_SELECTED := "No file selected"
  const INVALID_TYPE := "Invalid file type. Please upload a PDF."
  const NO_TEXT := "Could not extract text from the PDF using OCR. File may be corrupted."
  const UNEXPECTED := "An unexpected error occurred: "

  /** Python's truthiness of the extracted text: neither None nor empty. */
  predicate HasText(t: Option<string>) {
    t.Some? && t.value != ""
  }

  /** The file-type check: the lower-cased name ends in `.pdf`. */
  predicate IsPdfName(name: string) {
    EndsWith(Lower(name), ".pdf")
  }

  /** The upload passes all three checks, in their order. */
  predicate Acceptable(req: Request) {
    "file" in req.files && req.files["file"].filename != "" && IsPdfName(req.files["file"].filename)
  }

  /** The text the handler parses: plain extraction, or OCR when that gives nothing. */
  function ExtractText(bytes: Bytes, services: Services): (text: Option<string>)
    ensures HasText(services.plain(bytes)) ==> text == services.plain(bytes)
    ensures !HasText(services.plain(bytes)) ==> text == services.ocr(bytes)
  {
    var text := services.plain(bytes);
    if HasText(text) then text else services.ocr(bytes)
  }

  /** `parse_pdf_endpoint`. */
  function ParsePdfEndpoint(req: Request, services: Services): (r: Response)
    ensures r.status == 400 <==> !Acceptable(req)
    ensures r.status == 200 || r.status == 400 || r.status == 500
    ensures r.status != 200 ==> HasError(r.body)
  {
    if "file" !in req.files then Response(400, ErrorBody(NO_FILE_PART))
    else
      var file := req.files["file"];
      if file.filename == "" then Response(400, ErrorBody(NO_FILE_SELECTED))
      else if !IsPdfName(file.filename) then Response(400, ErrorBody(INVALID_TYPE))
      else
        match file.content
        case ReadError(message) => Response(500, ErrorBody(UNEXPECTED + message))
        case Read(bytes) =>
          var text := ExtractText(bytes, services);
          if !HasText(text) then Response(500, ErrorBody(NO_TEXT))
          else Response(200, StatementData(text.value, services.search))
  }

  /**
   * The first failing check decides the answer: a missing part, then an empty
   * name, then a name that does not end in `.pdf`.
   */
  lemma RejectionOrder(req: Request, services: Services)
    ensures "file" !in req.files ==>
      ParsePdfEndpoint(req, services) == Response(400, ErrorBody(NO_FILE_PART))
    ensures "file" in req.files && req.files["file"].filename == "" ==>
      ParsePdfEndpoint(req, services) == Response(400, ErrorBody(NO_FILE_SELECTED))
    ensures "file" in req.files && req.files["file"].filename != "" && !IsPdfName(req.files["file"].filename) ==>
      ParsePdfEndpoint(req, services) == Response(400, ErrorBody(INVALID_TYPE))
  {
  }

  /** The file-type check looks only at the last four characters, whatever their case. */
  lemma PdfNameIgnoresCase(name: string)
    ensures IsPdfName(name) <==> |name| >= 4 && Lower(name[|name| - 4..]) == ".pdf"
  {
  }

  /** Any stem followed by `.pdf` in any mix of cases passes the file-type check. */
  lemma PdfSuffixAccepted(stem: string, suffix: string)
    requires Lower(suffix) == ".pdf"
    ensures IsPdfName(stem + suffix)
  {
  }

  /** `report.PDF` and `Report.Pdf` are accepted; `report.pdf.txt` is not. */
  lemma PdfNameExamples()
    ensures IsPdfName("report.PDF") && IsPdfName("Report.Pdf")
    ensures !IsPdfName("report.pdf.txt")
  {
    PdfSuffixAccepted("report", ".PDF");
    PdfSuffixAccepted("Report", ".Pdf");
    assert Lower("report.pdf.txt")[10..] == ".txt";
  }

  /**
   * OCR is consulted only when plain extraction yields no text: with text from
   * the plain extractor, any other OCR engine gives the same response.
   */
  lemma OcrOnlyAsFallback(req: Request, services: Services, otherOcr: Bytes -> Option<string>)
    requires Acceptable(req) && req.files["file"].content.Read?
    requires HasText(services.plain(req.files["file"].content.bytes))
    ensures ParsePdfEndpoint(req, services)
         == ParsePdfEndpoint(req, services.(ocr := otherOcr))
    ensures ParsePdfEndpoint(req, services)
         == Response(200, StatementData(services.plain(req.files["file"].content.bytes).value, services.search))
  {
  }

  /** When plain extraction yields nothing, the OCR text is what gets parsed. */
  lemma OcrTextParsed(req: Request, services: Services)
    requires Acceptable(req) && req.files["file"].content.Read?
    requires !HasText(services.plain(req.files["file"].content.bytes))
    requires HasText(services.ocr(req.files["file"].content.bytes))
    ensures ParsePdfEndpoint(req, services)
         == Response(200, StatementData(services.ocr(req.files["file"].content.bytes).value, services.search))
  {
  }

  /**
   * When neither extractor yields text the answer is the 500 "could not extract"
   * body, and the statement parser is never reached: any other matcher gives the
   * same response.
   */
  lemma NoTextNeverParsed(req: Request, services: Services, otherSearch: Matcher)
    requires Acceptable(req) && req.files["file"].content.Read?
    requires !HasText(services.plain(req.files["file"].content.bytes))
    requires !HasText(services.ocr(req.files["file"].content.bytes))
    ensures ParsePdfEndpoint(req, services) == Response(500, ErrorBody(NO_TEXT))
    ensures ParsePdfEndpoint(req, services.(search := otherSearch)) == ParsePdfEndpoint(req, services)
  {
  }

  /** A failure while reading the upload is reported as a 500 with its message. */
  lemma ReadFailureReported(req: Request, services: Services)
    requires Acceptable(req) && req.files["file"].content.ReadError?
    ensures ParsePdfEndpoint(req, services)
         == Response(500, ErrorBody(UNEXPECTED + req.files["file"].content.message))
  {
  }

  /**
   * A 200 answer is either exactly the five extracted fields, or the one-entry
   * "not supported" body when no issuer occurs in the text.
   */
  lemma SuccessBodies(req: Request, services: Services)
    requires ParsePdfEndpoint(req, services).status == 200
    ensures var body := ParsePdfEndpoint(req, services).body;
      body.Keys == RESULT_KEYS || body == ErrorBody(UNSUPPORTED)
  {
    var text := ExtractText(req.files["file"].content.bytes, services).value;
    match Detect(PATTERNS, text)
    case None =>
    case Some(i) => DetectedStatement(text, services.search, i);
  }
}
