# Credit card statement parser: a Dafny model

The repository is a small full-stack tool. A React page (`frontend/src/App.js`) lets the
user pick a PDF statement and send it to a Flask service (`backend/app.py`). The service
extracts the text of the PDF, works out the issuing bank and returns five fields:
issuer, card number, due date, total due and statement period. The page shows them,
or shows an error banner.

This project models the two pieces of that tool that contain logic:

- **The service** (`statement.dfy`, `endpoint.dfy`).
  - The ordered table of the five supported banks (`Statement.PATTERNS`).
  - Issuer detection: the first bank whose issuer name occurs in the text, ignoring case, wins.
  - `parse_statement`, as the method `Statement.ParseStatement`. It calls two looping
    methods: `DetectIssuer` (the scan with `break`), proved against the specification
    function `Detect`, and `ExtractFields` (the loop that fills the dictionary), proved
    against `Filled`. `ParseStatement` itself is proved against `StatementData`.
  - The `/parse` handler, as the pure function `Endpoint.ParsePdfEndpoint`. It runs three
    ordered upload checks, falls back from plain extraction to OCR, and maps each outcome
    to a status and a JSON body.
- **The page** (`frontend.dfy`).
  - The class `Frontend.App`, with the five state fields of the component.
  - `handleFileChange`, as `HandleFileChange`.
  - `handleSubmit`, split at its `await` into `SubmitStart` and `SubmitComplete(reply)`.
  - The render guards for the file name, the error banner and the result panel.
  - The object invariant `Valid()`: an error message and stored data never coexist, no
    data is kept without a selected file, and a request in flight has cleared both.
    Every handler preserves it.
- **Both together** (`integration.dfy`). Lemmas feed the handler's answers into the
  page's reply handling. Client methods drive a fresh `App` through whole interactions.

Supporting modules: `Wrappers` (Option, Result), `Json` (flat string-valued JSON
objects, JavaScript truthiness of `error`), and `Text` (ASCII lower-casing, suffix test,
literal search and Python's `strip()`).

The outside world is passed in as parameters:
- The two text extractors and the regular-expression engine are the function-typed
  fields of `Endpoint.Services`.
- The network round trip is the `Frontend.Reply` value given to `SubmitComplete`. It is
  `Ok(body)`, `NotOk(body)` or `TransportFail(message)`.
- Reading the uploaded part gives an `Endpoint.Content`, which is either the bytes or
  the message of the exception raised.

Behaviour the proofs make explicit:
- The handler answers an unsupported issuer with status 200 and an `error` body. The
  page therefore stores that body as data. It shows no result panel, because the guard
  at App.js:118 rejects it. It shows no banner either, because the error message was
  cleared when the request started. The user sees nothing.
  (`Integration.UnsupportedIssuerIsSilent`, `Integration.OkErrorBodyShowsNothing`)
- Every error status of the handler carries a non-empty message of its own. The page's
  fallback "Something went wrong" is therefore never shown for this service's errors.
  (`Integration.ServiceErrorsReachBanner`)
- The file input stays enabled while a request is in flight, and a reply is not matched
  against the file it was sent for. A reply that settles after a new selection is
  therefore stored and shown under the new file's name. (`Integration.StaleReplyShown`)

## Model

| member | source | states |
|---|---|---|
| `Statement.TableShape` | backend/app.py:12-48 | the table has five banks, each with the four field keys `card_number`, `due_date`, `total_due`, `statement_period` in that order |
| `Statement.DetectFrom` | backend/app.py:79-83 | the index returned is a bank whose issuer occurs in the text (ignoring case), no earlier bank's issuer occurs, and None means no issuer from the start index on occurs |
| `Statement.DetectIsFirstMatch` | backend/app.py:79-83 | detection returns index i exactly when bank i matches and no earlier bank does, and None exactly when no bank matches |
| `Statement.DetectIgnoresLaterBanks` | backend/app.py:80-83 | once a bank matches, adding banks after it cannot change the detected bank (the `break`) |
| `Statement.HdfcWins` | backend/app.py:80-83 | a text whose lower-cased form contains "hdfc bank" (so "HDFC Bank" in any mix of cases) is read with HDFC's patterns, whatever other issuers it names |
| `Statement.DetectIssuer` | backend/app.py:79-83 | the loop with `break` over the table returns the first matching bank |
| `Statement.ExtractFields` | backend/app.py:88-95 | the loop returns the dictionary that starts with the canonical issuer and adds each field pattern's value in turn |
| `Statement.ParseStatement` | backend/app.py:77-97 | `parse_statement` returns exactly the specification `StatementData` of the text |
| `Statement.FilledKeys` | backend/app.py:88-95 | after n patterns, the dictionary's keys are `issuer` and the first n field keys |
| `Statement.FilledValue` | backend/app.py:88-95 | with distinct field keys, after n patterns the key of each earlier pattern holds that pattern's own value |
| `Statement.FilledContents` | backend/app.py:88-95 | with distinct field keys, `issuer` keeps the canonical name and each key holds its own pattern's value: a later pattern never overwrites an earlier one |
| `Statement.ExtractedContents` | backend/app.py:88-95 | for any bank entry shaped like the table's, the result has exactly the five keys, and each field is its pattern's stripped capture or 'Not Found' |
| `Statement.DetectedStatement` | backend/app.py:88-97 | when bank i is detected the result has exactly the five keys, `issuer` is the table's canonical name (not the matched text), and each field is the stripped capture group of that bank's pattern or the literal 'Not Found' |
| `Statement.UnsupportedStatement` | backend/app.py:85-86 | the result has an `error` key exactly when no issuer occurs, and it is then exactly the one-entry "not supported" body |
| `Text.ExactOccurrenceFound` | backend/app.py:81 | an exact occurrence of an issuer name is found by the case-insensitive search |
| `Text.ContainsIgnoringCaseOfLowered` | backend/app.py:81 | the search gives the same answer for a text and its lower-cased form |
| `Text.Strip` | backend/app.py:95 | the stripped capture has no white space at either end and occurs in the original capture |
| `Text.StripRemovesOnlyEdgeSpace` | backend/app.py:95 | the stripped capture is a slice `s[i..j]` of the capture, with only white space before `i` and from `j` on |
| `Text.StripIdempotent` | backend/app.py:95 | stripping an already stripped value changes nothing |
| `Endpoint.ParsePdfEndpoint` | backend/app.py:100-128 | status 400 exactly when one of the three upload checks fails; the only statuses are 200, 400 and 500; every non-200 body has a non-empty `error` |
| `Endpoint.ExtractText` | backend/app.py:116-119 | the text parsed is plain extraction's when it yields text, and OCR's otherwise |
| `Endpoint.RejectionOrder` | backend/app.py:102-110 | a missing `file` part gives 400 'No file part in the request'; with the part, an empty name gives 400 'No file selected'; with a name, a non-`.pdf` name gives 400 'Invalid file type. Please upload a PDF.' |
| `Endpoint.PdfNameIgnoresCase` | backend/app.py:109 | the file-type check passes exactly when the last four characters, lower-cased, are `.pdf` |
| `Endpoint.PdfSuffixAccepted` | backend/app.py:109 | any name that ends in `.pdf` in any mix of cases passes the file-type check |
| `Endpoint.PdfNameExamples` | backend/app.py:109-110 | `report.PDF` and `Report.Pdf` pass; `report.pdf.txt` does not |
| `Endpoint.OcrOnlyAsFallback` | backend/app.py:116-119 | when plain extraction yields text, that text is parsed with status 200 and the OCR engine has no influence on the answer |
| `Endpoint.OcrTextParsed` | backend/app.py:116-125 | when plain extraction yields None or '' and OCR yields text, the OCR text is parsed with status 200 |
| `Endpoint.NoTextNeverParsed` | backend/app.py:118-122 | when neither extractor yields text, the answer is 500 with the "Could not extract text" body, and the matcher (so `parse_statement`) has no influence |
| `Endpoint.ReadFailureReported` | backend/app.py:112-128 | an exception while reading the upload gives 500 with 'An unexpected error occurred: ' followed by its message |
| `Endpoint.SuccessBodies` | backend/app.py:124-125 | a 200 body is either exactly the five extracted fields or the "not supported" error body |
| `Frontend.FromHttp` | frontend/src/App.js:69 | a response counts as ok exactly when its status is in 200..299, and the parsed body is passed on unchanged |
| `Frontend.RejectionMessage` | frontend/src/App.js:69-70 | the message for a not-ok response is never empty; it is the body's `error` whenever that is a non-empty string, and 'Something went wrong' otherwise |
| `Frontend.Outcome` | frontend/src/App.js:67-76 | a reply succeeds exactly when it is ok, and then carries its body unchanged; a not-ok reply fails with `RejectionMessage` of its body; a transport failure fails with its own message |
| `Frontend.ShowsResults` | frontend/src/App.js:118 | results are shown only for stored data; stored data without an `error` key is shown; stored data with a truthy `error` is not |
| `Frontend.App.constructor` | frontend/src/App.js:17-21 | no file, no data, not loading, empty error and empty file name; the invariant holds |
| `Frontend.App.HandleFileChange` | frontend/src/App.js:38-46 | a file makes the selection and its name current and clears the data and the error; no file changes nothing; `isLoading` is untouched either way; the invariant is kept |
| `Frontend.App.SubmitStart` | frontend/src/App.js:48-56 | with no file, the error becomes exactly "Please select a PDF file first.", no request is sent, loading stays off and the data is unchanged; with a file, loading starts, error and data are cleared and that file is sent; callers must not be loading (the disabled button at App.js:109) |
| `Frontend.App.SubmitComplete` | frontend/src/App.js:61-79 | an ok reply stores its body unchanged with the error left empty; a not-ok reply sets the body's error or 'Something went wrong'; a transport failure sets its message; no data is stored on failure; loading ends in every case |
| `Frontend.App.FileNameShown` | frontend/src/App.js:105 | the name line is shown only when a file is selected |
| `Frontend.App.ErrorBannerShown` | frontend/src/App.js:116 | the banner is shown only when no data is stored and no request is in flight |
| `Frontend.App.SubmitDisabled` | frontend/src/App.js:109 | the button is disabled only while a request for a selected file is in flight, with no error and no data stored |
| `Frontend.App.ResultPanelShown` | frontend/src/App.js:118 | the panel is shown only with a selected file, no banner and no request in flight |
| `Integration.ServiceErrorsReachBanner` | frontend/src/App.js:69-76 | every error status of the service becomes a failure whose message is the service's own `error` text, never the fallback |
| `Integration.UnsupportedIssuerIsSilent` | frontend/src/App.js:116-118 | an accepted PDF whose text names no supported issuer is answered 200 with the "not supported" body, which the page stores as data and does not show as results |
| `Integration.DetectedStatementShown` | frontend/src/App.js:118-127 | a statement of a supported bank reaches the page as five-key data that the result panel shows |
| `Integration.SubmitWithoutFile` | frontend/src/App.js:49-52 | on a fresh page, submitting sends nothing, shows "Please select a PDF file first." and does not start loading |
| `Integration.TwoCycles` | frontend/src/App.js:54-56 | after two full cycles with different files, the data and error reflect only the second reply |
| `Integration.StaleReplyShown` | frontend/src/App.js:38-79 | a reply that settles after a new file was chosen is stored and shown under the new selection |
| `Integration.OkErrorBodyShowsNothing` | frontend/src/App.js:116-118 | an ok body with a truthy `error` shows neither the banner nor the result panel |
| `Integration.CancelledDialog` | frontend/src/App.js:39-40 | a file event without a file, after a settled cycle, leaves the data, the error and the file name as they were |

## Left out

- The `fetch` call, `FormData` and `response.json()` (frontend/src/App.js:58-67) are not modelled. Their result is the `Reply` value passed to `SubmitComplete`. A JSON parse failure is a `TransportFail`, like a network failure.
- JSX markup, styling, the spinner CSS, `UploadIcon` and `ResultItem` are presentation only. Only the render guards at lines 105, 109, 116 and 118 are kept.
- React's re-rendering and the batching of state updates are not modelled. Each handler's updates are applied as one step.
- Concurrency beyond the single suspension point is not modelled. The model has no request tags and no discarding of late replies, because the code has none either.
- `extract_text_from_pdf` and `extract_text_with_ocr` (backend/app.py:50-75) are not modelled: they are calls into pdfplumber, pdf2image and pytesseract. They are the function parameters `Services.plain` and `Services.ocr`, and each reports its own failure as None. Their per-page joining, their `strip()` and their logging are left out.
- The regular-expression engine for the four field patterns is not modelled. It is the parameter `Services.search`, which gives capture group 1 or None. The pattern texts are kept in the table as data.
- Flask routing, CORS, `jsonify`, `app.run` and the `print` logging are framework plumbing. A response is a (status, object) pair, and the key order of the JSON output is not modelled.
- The generic exception path (backend/app.py:127-128) is modelled only for a failure to read the upload. No other library call is modelled as raising.
- JSON values other than strings are not modelled. Every body the service sends is a flat object of strings.
- Text.Lower: lower-cases ASCII letters only. The `re.IGNORECASE` search at backend/app.py:81 also folds some non-ASCII letters of the text onto ASCII ones: `ſ` (U+017F) matches `s`, the Kelvin sign (U+212A) matches `k`, and `İ`/`ı` match `i`. A text that spells an issuer with such a letter, such as "ſBI Card", is detected by the source but not by the model. For texts in ASCII the two agree.
- Text.IsSpace: covers only the ASCII white space that Python's `str.strip()` removes, not the non-ASCII characters it also strips.
- Text.ContainsIgnoringCase: stands for `re.search` only with a pattern that is a plain literal. That holds for the five issuer names, which contain only letters and spaces.
