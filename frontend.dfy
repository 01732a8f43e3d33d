/**
 * The upload page of the client: the five pieces of component state, the two
 * event handlers and the conditions that decide what is rendered.
 */
module Frontend {
  import opened Wrappers
  import opened Json

  /** A file picked in the browser's file dialog. */
  datatype File = File(name: string, content: seq<bv8>)

  /**
   * How the request started by a submission ends: a response with an ok status
   * and its parsed body, a response with any other status and its parsed body,
   * or a failure of the transport or of the JSON parsing, with its message.
   */
  datatype Reply = Ok(body: Object) | NotOk(body: Object) | TransportFail(message: string)

  const NO_FILE_MESSAGE := "Please select a PDF file first."
  const FALLBACK_MESSAGE := "Something went wrong"

  /** `fetch` reports a response as ok exactly when its status is in 200..299. */
  function FromHttp(status: int, body: Object): (reply: Reply)
    ensures reply.Ok? <==> 200 <= status <= 299
    ensures !reply.TransportFail? && reply.body == body
  {
    if 200 <= status <= 299 then Ok(body) else NotOk(body)
  }

  /** The message thrown for a not-ok response: `data.error || 'Something went wrong'`. */
  function RejectionMessage(body: Object): (message: string)
    ensures message != ""
    ensures HasError(body) ==> message == body["error"]
    ensures !HasError(body) ==> message == FALLBACK_MESSAGE
  {
    if HasError(body) then body["error"] else FALLBACK_MESSAGE
  }

  /** What a reply leaves behind: the data to show, or the message of the error thrown. */
  function Outcome(reply: Reply): (r: Result<Object, string>)
    ensures r.Success? <==> reply.Ok?
    ensures reply.Ok? ==> r.value == reply.body
    ensures reply.NotOk? ==> r.error == RejectionMessage(reply.body)
    ensures reply.TransportFail? ==> r.error == reply.message
  {
    match reply
    case Ok(body) => Success(body)
    case NotOk(body) => Failure(RejectionMessage(body))
    case TransportFail(message) => Failure(message)
  }

  /** The guard of the result panel: `extractedData && !extractedData.error`. */
  predicate ShowsResults(data: Option<Object>)
    ensures ShowsResults(data) ==> data.Some?
    ensures data.Some? && "error" !in data.value ==> ShowsResults(data)
    ensures data.Some? && HasError(data.value) ==> !ShowsResults(data)
  {
    data.Some? && !HasError(data.value)
  }

  class App {
    var selectedFile: Option<File>
    var extractedData: Option<Object>
    var isLoading: bool
    var error: string
    var fileName: string

    /**
     * The states the handlers can reach: an error message and stored data never
     * coexist, nothing is stored without a selected file, the displayed name is
     * the selected file's, and a request in flight has a file and has cleared
     * both the error and the data.
     */
    ghost predicate Valid()
      reads this
    {
      && (error != "" ==> extractedData.None?)
      && (selectedFile.None? ==> extractedData.None? && fileName == "")
      && (selectedFile.Some? ==> fileName == selectedFile.value.name)
      && (isLoading ==> selectedFile.Some? && error == "" && extractedData.None?)
    }

    /** The initial state of the five `useState` hooks. */
    constructor ()
      ensures Valid()
      ensures selectedFile.None? && extractedData.None? && !isLoading && error == "" && fileName == ""
    {
      selectedFile := None;
      extractedData := None;
      isLoading := false;
      error := "";
      fileName := "";
    }

    /**
     * `handleFileChange`: the first file of the event, if any, becomes the
     * selection and clears the data and the error; an event without a file
     * changes nothing. A request in flight is not affected.
     */
    method HandleFileChange(files: seq<File>)
      requires Valid()
      modifies this
      ensures Valid()
      ensures isLoading == old(isLoading)
      ensures files == [] ==>
        selectedFile == old(selectedFile) && fileName == old(fileName) &&
        extractedData == old(extractedData) && error == old(error)
      ensures files != [] ==>
        selectedFile == Some(files[0]) && fileName == files[0].name &&
        extractedData.None? && error == ""
    {
      if files != [] {
        var file := files[0];
        selectedFile := Some(file);
        fileName := file.name;
        extractedData := None;
        error := "";
      }
    }

    /**
     * The part of `handleSubmit` before the request is awaited. Without a selected
     * file it only sets the error message and sends nothing; otherwise it enters
     * the loading state, clears the error and the data, and sends the selected file.
     * The button is disabled while loading, so no submission starts then.
     */
    method SubmitStart() returns (request: Option<File>)
      requires Valid() && !isLoading
      modifies this
      ensures Valid()
      ensures request == old(selectedFile)
      ensures selectedFile == old(selectedFile) && fileName == old(fileName)
      ensures request.None? ==>
        error == NO_FILE_MESSAGE && !isLoading && extractedData == old(extractedData)
      ensures request.Some? ==> isLoading && error == "" && extractedData.None?
    {
      if selectedFile.None? {
        error := NO_FILE_MESSAGE;
        return None;
      }
      isLoading := true;
      error := "";
      extractedData := None;
      request := selectedFile;
    }

    /**
     * The part of `handleSubmit` after the request settles: an ok reply stores its
     * body as it is; any other reply sets the error message and stores nothing;
     * loading ends in every case. Nothing checks that the reply belongs to the
     * file selected now.
     */
    method SubmitComplete(reply: Reply)
      requires Valid() && isLoading
      modifies this
      ensures Valid()
      ensures !isLoading
      ensures selectedFile == old(selectedFile) && fileName == old(fileName)
      ensures Outcome(reply).Success? ==> extractedData == Some(reply.body) && error == ""
      ensures Outcome(reply).Failure? ==> error == Outcome(reply).error && extractedData.None?
    {
      match Outcome(reply) {
        case Success(data) =>
          extractedData := Some(data);
        case Failure(message) =>
          error := message;
      }
      isLoading := false;
    }

    /** The "Selected:" line is rendered when the file name is not empty. */
    predicate FileNameShown()
      reads this
      requires Valid()
      ensures FileNameShown() ==> selectedFile.Some?
    {
      fileName != ""
    }

    /**
     * The submit button is disabled while a request is in flight; a file is then
     * selected and neither an error nor data is stored.
     */
    predicate SubmitDisabled()
      reads this
      requires Valid()
      ensures SubmitDisabled() ==> selectedFile.Some? && error == "" && extractedData.None?
    {
      isLoading
    }

    /** The error banner is rendered when the message is not empty; no data is stored then. */
    predicate ErrorBannerShown()
      reads this
      requires Valid()
      ensures ErrorBannerShown() ==> extractedData.None? && !SubmitDisabled()
    {
      error != ""
    }

    /** The result panel; it never appears together with the error banner or the spinner. */
    predicate ResultPanelShown()
      reads this
      requires Valid()
      ensures ResultPanelShown() ==> !ErrorBannerShown() && !SubmitDisabled() && selectedFile.Some?
    {
      ShowsResults(extractedData)
    }
  }
}
