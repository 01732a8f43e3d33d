/**
 * The client and the service together: what the page shows for each kind of
 * answer the `POST /parse` handler gives, and whole interactions with the page.
 */
module Integration {
  import opened Wrappers
  import opened Json
  import opened Statement
  import opened Endpoint
  import opened Frontend

  /** The reply the page receives when the handler answers `r`. */
  function Delivered(r: Response): Reply {
    FromHttp(r.status, r.body)
  }

  /**
   * Every error status the handler produces carries its own non-empty message,
   * so the page shows the service's message and never the generic fallback.
   */
  lemma ServiceErrorsReachBanner(req: Request, services: Services)
    ensures var r := ParsePdfEndpoint(req, services);
      r.status != 200 ==>
        Outcome(Delivered(r)) == Failure(r.body["error"]) && r.body["error"] != FALLBACK_MESSAGE
  {
  }

  /**
   * A statement whose issuer is not supported is answered with status 200 and an
   * `error` body: the page stores it as data, shows no result panel and, since
   * the error message stays empty, no banner either.
   */
  lemma UnsupportedIssuerIsSilent(req: Request, services: Services)
    requires Acceptable(req) && req.files["file"].content.Read?
    requires var text := ExtractText(req.files["file"].content.bytes, services);
      HasText(text) && forall j :: 0 <= j < |PATTERNS| ==> !IssuerIn(text.value, PATTERNS[j])
    ensures var r := ParsePdfEndpoint(req, services);
      r == Response(200, ErrorBody(UNSUPPORTED)) &&
      Outcome(Delivered(r)) == Success(r.body) && !ShowsResults(Some(r.body))
  {
  }

  /** A statement of a supported bank reaches the page as data that the result panel shows. */
  lemma DetectedStatementShown(req: Request, services: Services)
    requires Acceptable(req) && req.files["file"].content.Read?
    requires var text := ExtractText(req.files["file"].content.bytes, services);
      HasText(text) && Detect(PATTERNS, text.value).Some?
    ensures var r := ParsePdfEndpoint(req, services);
      r.status == 200 && r.body.Keys == RESULT_KEYS &&
      Outcome(Delivered(r)) == Success(r.body) && ShowsResults(Some(r.body))
  {
    var text := ExtractText(req.files["file"].content.bytes, services).value;
    DetectedStatement(text, services.search, Detect(PATTERNS, text).value);
  }

  /** The data and the error message a settled submission leaves behind. */
  function Settled(reply: Reply): (Option<Object>, string) {
    match Outcome(reply)
    case Success(body) => (Some(body), "")
    case Failure(message) => (None, message)
  }

  /** Submitting before any file is chosen sends nothing and shows the prompt to pick one. */
  method SubmitWithoutFile() returns (request: Option<File>, banner: string, loading: bool)
    ensures request.None? && banner == NO_FILE_MESSAGE && !loading
  {
    var app := new App();
    request := app.SubmitStart();
    banner, loading := app.error, app.isLoading;
  }

  /**
   * Two full cycles, with a different file the second time: the page reflects
   * only the second reply.
   */
  method TwoCycles(first: File, second: File, reply1: Reply, reply2: Reply)
    returns (data: Option<Object>, message: string, current: Option<File>)
    ensures (data, message) == Settled(reply2) && current == Some(second)
  {
    var app := new App();
    app.HandleFileChange([first]);
    var sent1 := app.SubmitStart();
    app.SubmitComplete(reply1);
    app.HandleFileChange([second]);
    var sent2 := app.SubmitStart();
    app.SubmitComplete(reply2);
    data, message, current := app.extractedData, app.error, app.selectedFile;
  }

  /**
   * A new file chosen while a request is in flight does not discard that request:
   * its reply is then stored and shown next to the name of the new file.
   */
  method StaleReplyShown(first: File, second: File, body: Object)
    returns (data: Option<Object>, current: Option<File>, panel: bool)
    requires !HasError(body)
    ensures data == Some(body) && current == Some(second) && panel
  {
    var app := new App();
    app.HandleFileChange([first]);
    var sent := app.SubmitStart();
    app.HandleFileChange([second]);
    app.SubmitComplete(Ok(body));
    data, current, panel := app.extractedData, app.selectedFile, app.ResultPanelShown();
  }

  /** An ok body that carries an `error` field leaves both the banner and the panel hidden. */
  method OkErrorBodyShowsNothing(file: File, body: Object) returns (banner: bool, panel: bool)
    requires HasError(body)
    ensures !banner && !panel
  {
    var app := new App();
    app.HandleFileChange([file]);
    var sent := app.SubmitStart();
    app.SubmitComplete(Ok(body));
    banner, panel := app.ErrorBannerShown(), app.ResultPanelShown();
  }

  /** A cancelled file dialog leaves the page as it was. */
  method CancelledDialog(file: File, reply: Reply) returns (data: Option<Object>, message: string, name: string)
    ensures (data, message) == Settled(reply) && name == file.name
  {
    var app := new App();
    app.HandleFileChange([file]);
    var sent := app.SubmitStart();
    app.SubmitComplete(reply);
    app.HandleFileChange([]);
    data, message, name := app.extractedData, app.error, app.fileName;
  }
}
