# Vulnerability report upload — a Dafny model

The system is a small web application for VAPT (vulnerability assessment and
penetration testing) reports. A browser form uploads an Excel workbook to a
Flask endpoint. The endpoint checks the workbook and stores one vulnerability
record per spreadsheet row. A table component shows vulnerability records
with a coloured severity chip.

This project models the three pieces that hold behaviour:

- `report_upload.dfy` (module `ReportUpload`) is the upload form.
  The class `Uploader` holds the form's four state cells: the selected file,
  the loading flag, the error alert and the success alert. Its two handlers
  are proved to follow pure transition functions (`Selected`, `Started`,
  `Finished`, `Settle`). The submit handler is split at its `await` into
  `StartUpload` and `CompleteUpload`, so a file can be chosen while a request
  is pending. Lemmas about those functions cover the exact messages, what
  each path clears or keeps, the button guard, and an invariant kept over
  any sequence of clicks, selections and request completions.
- `vulnerabilities_table.dfy` (module `VulnerabilitiesTable`) is the
  case-insensitive severity classifier and the projection of records onto
  table rows. The classifier is checked against an independent
  case-insensitive reading. The projection is proved lossless and
  order-preserving by reading the rows back.
- `backend.dfy` (module `Backend`) is the `upload_report` endpoint and
  `Vulnerability.to_dict`. The check chain is a pure function (`Check`), and
  so is the reply (`ReplyFor`). The database session is a class with pending
  and committed records. `UploadReport` runs the row loop against that class
  and is proved to leave exactly the records the rows describe, or to roll
  back.
- `end_to_end.dfy` (module `EndToEnd`) shows a server reply as the form
  receives it. It proves that the form reports the server's row count, or
  the server's reason for a refusal.
- `strings.dfy` and `wrappers.dfy` hold shared helpers: suffix tests, ASCII
  lower-casing, decimal text with its parser, and `Option`/`Result`.

Inputs that the programs obtain from the outside world are parameters here:

- `ReportUpload.FetchOutcome` is how the request ended. It is either a
  response, with `response.ok` and the parsed JSON body (or the parse
  error's message), or a rejected `fetch` with its message.
- `Backend.Workbook` is what `pd.read_excel` produced: a frame of column
  names and rows, or the message of the exception it raised.
- The `commitFailure` argument of `Backend.UploadReport` is the message of
  the exception raised by the database commit, if any.

Some behaviours of the code are easy to misread; the model keeps them as written:

- A failed upload does not clear the selected file, so the same file can be
  submitted again (`RetryAfterFailure`).
- A failed upload does not clear an earlier success alert, so the error and
  success alerts can show together (`StaleSuccessSurvivesFailure`).
- `response.json()` runs before `response.ok` is checked. A non-ok response
  whose body is not JSON therefore shows the parse error's message, not
  "Upload failed" (`Settle`).
- A success response without `vulnerabilities_count` shows "Successfully
  processed undefined vulnerabilities" (`CountText`, `SuccessMessageMissingCount`).
- An empty server `error` string is falsy, so it shows "Upload failed"
  (`FailureReason`).
- The file input stays active while a request is pending. A valid file
  chosen then is cleared by a later success without being uploaded, and the
  error of an invalid pick is overwritten by a later failure
  (`SuccessDropsFileChosenInFlight`, `FailureHidesPickErrorInFlight`).

## Model

| member | source | states |
|---|---|---|
| `Strings.EndsWith` | frontend/src/components/ReportUpload.jsx:14 | `endsWith`; specified by `EndsWithIff` |
| `Strings.EndsWithIff` | frontend/src/components/ReportUpload.jsx:14 | the suffix test holds exactly when the name is some text followed by the suffix; the same test is used for `str.endswith` in the server |
| `Strings.ToLower` | frontend/src/components/VulnerabilitiesTable.jsx:14 | lower-casing keeps the length and lower-cases each character in place |
| `Strings.ToLowerEqIff` | frontend/src/components/VulnerabilitiesTable.jsx:14 | two labels lower-case to the same text exactly when they are equal ignoring case |
| `Strings.ToLowerIdempotent` | frontend/src/components/VulnerabilitiesTable.jsx:14 | lower-casing twice is lower-casing once |
| `Strings.NatToString` | frontend/src/components/ReportUpload.jsx:44 | the decimal text of a count is non-empty, all digits, with no leading zero |
| `Strings.ParseNatToString` | frontend/src/components/ReportUpload.jsx:44 | reading the decimal text of a number back gives the number |
| `Strings.NatToStringInjective` | frontend/src/components/VulnerabilitiesTable.jsx:44 | distinct ids render as distinct texts |
| `ReportUpload.Selected` | frontend/src/components/ReportUpload.jsx:12-21 | a file is kept and the error cleared exactly when a file is present and its name ends with ".xlsx"; otherwise the file becomes null and the error is exactly "Please select a valid Excel (.xlsx) file"; loading and success never change |
| `ReportUpload.SubmitDisabled` | frontend/src/components/ReportUpload.jsx:106 | the button guard "no file or loading"; used by `Started`, `RetryAfterFailure`, `SuccessDisablesSubmit` and `Uploader.UploadDisabled` |
| `ReportUpload.Started` | frontend/src/components/ReportUpload.jsx:29-30 | the in-flight state sets loading, disables the button, clears the error alert and keeps the file and any success alert |
| `ReportUpload.CountText` | frontend/src/components/ReportUpload.jsx:44 | the interpolated count is non-empty; for a count it is digits with no leading zero that read back as the count, so exactly its canonical decimal text; without one it is "undefined" |
| `ReportUpload.SuccessMessage` | frontend/src/components/ReportUpload.jsx:44 | the alert is the fixed prefix "Successfully processed ", the count's text, and the fixed suffix " vulnerabilities" |
| `ReportUpload.SuccessMessageSeven` | frontend/src/components/ReportUpload.jsx:44 | a count of 7 gives exactly "Successfully processed 7 vulnerabilities" |
| `ReportUpload.SuccessMessageMissingCount` | frontend/src/components/ReportUpload.jsx:44 | a missing count gives exactly "Successfully processed undefined vulnerabilities" |
| `ReportUpload.FailureReason` | frontend/src/components/ReportUpload.jsx:41 | the message is the server's `error` when it is a non-empty string, otherwise "Upload failed"; it is never empty |
| `ReportUpload.ReportedCountOfMessage` | frontend/src/components/ReportUpload.jsx:44 | the success alert "Successfully processed N vulnerabilities" gives back exactly the server's count, and no count when the server sent none |
| `ReportUpload.Settle` | frontend/src/components/ReportUpload.jsx:32-47 | the try block succeeds exactly on an ok response with a JSON body, and its alert is then exactly "Successfully processed " + the count's text + " vulnerabilities", reporting the server's count; a network failure or an unparsable body yields that error's message; a non-ok JSON response yields the server's non-empty `error` or "Upload failed" |
| `ReportUpload.Finished` | frontend/src/components/ReportUpload.jsx:38-50 | the continuation after the `await` always ends with loading false; success sets the alert and clears the file; failure sets the error and keeps the file and the success alert; cells it does not set keep their current values |
| `ReportUpload.Uploaded` | frontend/src/components/ReportUpload.jsx:24-51 | with no file nothing changes; otherwise loading ends false, the file is cleared exactly on success, success sets the alert and leaves no error, and failure sets the error and keeps the file and any earlier success alert |
| `ReportUpload.InFlight` | frontend/src/components/ReportUpload.jsx:29-30 | while a request is pending the button is disabled, the error alert is cleared and an earlier success alert is kept |
| `ReportUpload.RetryAfterFailure` | frontend/src/components/ReportUpload.jsx:40-50 | after a failed upload the same file is still selected and the button is enabled |
| `ReportUpload.SuccessDisablesSubmit` | frontend/src/components/ReportUpload.jsx:44-50 | after a successful upload the button is disabled, and stays disabled over any sequence of clicks and request completions until a file is chosen again |
| `ReportUpload.NoFileUntilSelect` | frontend/src/components/ReportUpload.jsx:25 | with no file held, no sequence of events without a selection brings one back, so the button stays disabled |
| `ReportUpload.SuccessDropsFileChosenInFlight` | frontend/src/components/ReportUpload.jsx:45 | a valid file chosen while a request is pending is cleared when that request succeeds |
| `ReportUpload.FailureHidesPickErrorInFlight` | frontend/src/components/ReportUpload.jsx:47 | an invalid pick made while a request is pending has its message replaced by the request's failure message |
| `ReportUpload.StaleSuccessSurvivesFailure` | frontend/src/components/ReportUpload.jsx:44-47 | a failure after an earlier success leaves both alerts set |
| `ReportUpload.RunConsistent` | frontend/src/components/ReportUpload.jsx:6-51 | over any sequence of selections, clicks and request completions, at most one request is pending, loading is set exactly while one is, a held file has an ".xlsx" name and a success alert has the template's shape |
| `ReportUpload.ReachableConsistent` | frontend/src/components/ReportUpload.jsx:6-9 | every screen reached from mount satisfies that invariant, so the disabled button keeps requests from overlapping |
| `ReportUpload.Uploader.constructor` | frontend/src/components/ReportUpload.jsx:6-9 | the component starts with no file, not loading, and no alerts |
| `ReportUpload.Uploader.UploadDisabled` | frontend/src/components/ReportUpload.jsx:106 | the button is disabled exactly when no file is held or a request is in flight |
| `ReportUpload.Uploader.HandleFileSelect` | frontend/src/components/ReportUpload.jsx:12-21 | the handler leaves the state `Selected` describes |
| `ReportUpload.Uploader.StartUpload` | frontend/src/components/ReportUpload.jsx:24-33 | a request is issued exactly when a file is held, leaving the state `Started` describes; otherwise nothing changes |
| `ReportUpload.Uploader.CompleteUpload` | frontend/src/components/ReportUpload.jsx:38-50 | the continuation leaves the state `Finished` describes |
| `ReportUpload.Uploader.HandleUpload` | frontend/src/components/ReportUpload.jsx:24-51 | run without interruption, a request is issued exactly when a file is held and the final state is `Uploaded` |
| `VulnerabilitiesTable.SeverityColor` | frontend/src/components/VulnerabilitiesTable.jsx:13-26 | `getSeverityColor`; specified by `SeverityColorSpec` and `SeverityIgnoresCase` |
| `VulnerabilitiesTable.SeverityIgnoresCase` | frontend/src/components/VulnerabilitiesTable.jsx:14 | a label and its lower-cased form get the same colour |
| `VulnerabilitiesTable.SameColorIgnoringCase` | frontend/src/components/VulnerabilitiesTable.jsx:14 | labels that are equal ignoring case get the same colour |
| `VulnerabilitiesTable.SeverityColorSpec` | frontend/src/components/VulnerabilitiesTable.jsx:13-26 | error exactly for "critical" or "high" in any case, warning exactly for "medium", success exactly for "low", and default for every other string, so the result is always one of the four |
| `VulnerabilitiesTable.ErrorExamples` | frontend/src/components/VulnerabilitiesTable.jsx:15-18 | "HIGH", "high" and "Critical" are errors |
| `VulnerabilitiesTable.WarningAndSuccessExamples` | frontend/src/components/VulnerabilitiesTable.jsx:19-22 | "Medium" is a warning and "LOW" a success |
| `VulnerabilitiesTable.DefaultExamples` | frontend/src/components/VulnerabilitiesTable.jsx:23-24 | the empty label and "unknown" are default |
| `VulnerabilitiesTable.RenderRow` | frontend/src/components/VulnerabilitiesTable.jsx:43-55 | one record's row; specified by `RowFollowsHeader` and `ReadRenderRow` |
| `VulnerabilitiesTable.RowFollowsHeader` | frontend/src/components/VulnerabilitiesTable.jsx:33-55 | a row has one cell per heading, each showing the field its heading names; the severity cell is a chip with the raw label and its colour |
| `VulnerabilitiesTable.RenderBody` | frontend/src/components/VulnerabilitiesTable.jsx:42-56 | the body has one row per record, the i-th row rendering the i-th record |
| `VulnerabilitiesTable.ReadRenderRow` | frontend/src/components/VulnerabilitiesTable.jsx:43-55 | every field of a record can be read back from its row |
| `VulnerabilitiesTable.ReadRenderBody` | frontend/src/components/VulnerabilitiesTable.jsx:42-56 | reading the rows back gives the input records in order, none dropped, added or reordered |
| `VulnerabilitiesTable.RowKeys` | frontend/src/components/VulnerabilitiesTable.jsx:43 | each row is keyed by its record's id |
| `Backend.ToDict` | backend/main.py:56-67 | the dictionary has exactly the keys id, name, risk_description, severity and affected_urls |
| `Backend.DictRoundTrip` | backend/main.py:61-67 | each key carries its own field: the record can be read back from its dictionary |
| `Backend.AllPresent` | backend/main.py:102 | the column check holds exactly when every required column is among the sheet's columns |
| `Backend.FromRow` | backend/main.py:107-112 | the record built for one row; specified by `RowToDict` |
| `Backend.RowToDict` | backend/main.py:107-112 | a record built from a row shows the "Vulnerability Name", "Risk Description", "Severity" and "Affected URLs" cells under name, risk_description, severity and affected_urls, with a null id |
| `Backend.RecordsFrom` | backend/main.py:106-113 | one record per row, in row order, each built from its row |
| `Backend.Check` | backend/main.py:81-103 | no file part gives "No file uploaded"; then a name without ".xlsx" gives "Only Excel (.xlsx) files are supported"; then an unreadable sheet raises its message; then a readable sheet missing any required column gives exactly "Missing required columns"; otherwise the sheet is accepted |
| `Backend.SuffixBeforeParsing` | backend/main.py:88-93 | a wrong suffix is refused whatever the file's content, because the name is checked before the sheet is read |
| `Backend.ReplyFor` | backend/main.py:81-129 | status 400 exactly for a refusal, 200 with the row count exactly for an accepted sheet whose commit succeeds, 500 with the exception's message otherwise |
| `Backend.Session.Add` | backend/main.py:113 | a record is appended to the pending records |
| `Backend.Session.Commit` | backend/main.py:116 | a successful commit moves all pending records to the stored ones; a failing one changes nothing and raises |
| `Backend.Session.Rollback` | backend/main.py:128 | all pending records are discarded and stored ones are kept |
| `Backend.UploadReport` | backend/main.py:71-129 | the reply is `ReplyFor`; a refusal leaves the session unchanged; an exception leaves no pending records and stores nothing; success stores exactly one record per row in row order and leaves nothing pending |
| `EndToEnd.CommittedCountShown` | backend/main.py:119-124 | when the server commits a sheet, the form's success alert reports the number of its rows |
| `EndToEnd.RejectionReasonShown` | backend/main.py:83-103 | a refused request shows the server's reason verbatim in the form |
| `EndToEnd.ServerErrorShown` | backend/main.py:126-129 | a server exception shows its message in the form, or "Upload failed" when the message is empty |

## Left out

- Rendering, the MUI components, styling and the hidden file input opened by a click are not modelled. Only the button's `disabled` guard is kept.
- `fetch`, `FormData`, the hard-coded URL and `response.json()` are not modelled. Their combined result is the `FetchOutcome` input.
- A JSON body that is not an object (such as `null`), a non-string `error` field and a non-integer `vulnerabilities_count` are not modelled. The body is an object whose `error` is an optional string and whose count is an optional natural number.
- `frontend/src/App.js` only composes the two components around a list that is never updated. It is not part of this model.
- `ReportUpload.Step` resolves a pending request only when one is pending, and a click on the disabled button does nothing. Other components re-rendering, and the component unmounting while a request is pending, are not modelled.
- `ReportUpload.CountText`: the count is a JavaScript number. It is exact only below 2^53 and is written in exponent form from 10^21 on; the model takes it as an unbounded natural number. In practice it is a spreadsheet row count, which a workbook caps at 1,048,576.
- `Strings.ToLower` lower-cases ASCII letters only. Full Unicode `toLowerCase` is not modelled.
- Parsing of the binary .xlsx format by `pd.read_excel` is not modelled. Its outcome is the `Workbook` input, with cells taken as text.
- Schema creation, `create_all`, the Flask app, CORS and dotenv configuration are not modelled.
- Column length limits, non-null constraints and database-assigned ids are not modelled. A failing commit is the `commitFailure` input, and stored records keep the `None` id they were built with.
