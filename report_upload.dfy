/**
 * The upload form of the client (frontend/src/components/ReportUpload.jsx).
 *
 * Four state cells — the selected file, the loading flag, the error alert and
 * the success alert — are changed by two handlers: selecting a file and
 * submitting it. The network exchange (`fetch` followed by `response.json()`)
 * is not performed here: its outcome is an input of the submit handler.
 *
 * The pure functions below specify every transition; the class `Uploader`
 * holds the four cells and its methods are proved to follow them.
 */
module ReportUpload {
  import opened Wrappers
  import opened Strings

  /** A file handle chosen in the browser; only its name is inspected. */
  datatype File = File(name: string)

  /** What `response.json()` yields: an object with the two fields the form reads, or a parse error. */
  datatype Body =
    | Json(error: Option<string>, vulnerabilitiesCount: Option<nat>)
    | Unparsable(parseMessage: string)

  /** How the request ended: a response (with `response.ok`) or a rejected `fetch`. */
  datatype FetchOutcome =
    | Received(ok: bool, body: Body)
    | NetworkFailure(message: string)

  /** The four `useState` cells; `None` is JavaScript's `null`. */
  datatype UploadState = UploadState(
    file: Option<File>,
    loading: bool,
    error: Option<string>,
    success: Option<string>)

  const ExcelSuffix := ".xlsx"
  const InvalidFileMessage := "Please select a valid Excel (.xlsx) file"
  const UploadFailedMessage := "Upload failed"
  const SuccessPrefix := "Successfully processed "
  const SuccessSuffix := " vulnerabilities"

  /** The state at mount: nothing selected, idle, no alerts. */
  function InitialState(): UploadState {
    UploadState(None, false, None, None)
  }

  /** The selection test: a file is present and its name ends with ".xlsx" (case-sensitive). */
  predicate Acceptable(selected: Option<File>) {
    selected.Some? && EndsWith(selected.value.name, ExcelSuffix)
  }

  // ------------------------------------------------------------ selecting

  /** The state after `handleFileSelect` with the first chosen file (or none). */
  function Selected(s: UploadState, selected: Option<File>): (r: UploadState)
    ensures r.loading == s.loading && r.success == s.success
    ensures r.file.Some? <==> Acceptable(selected)
    ensures r.file.Some? ==> r.file == selected
    ensures r.error.None? <==> Acceptable(selected)
    ensures r.error.Some? ==> r.error.value == InvalidFileMessage
  {
    if Acceptable(selected) then s.(file := selected, error := None)
    else s.(error := Some(InvalidFileMessage), file := None)
  }

  // ------------------------------------------------------------ submitting

  /** The upload button's `disabled` property. */
  predicate SubmitDisabled(s: UploadState) {
    s.file.None? || s.loading
  }

  /** The state while the request is in flight: what `handleUpload` sets before its `await`. */
  function Started(s: UploadState): (r: UploadState)
    ensures r.loading && SubmitDisabled(r)
    ensures r.error.None? && r.file == s.file && r.success == s.success
  {
    s.(loading := true, error := None)
  }

  /** The text `${data.vulnerabilities_count}` produces: the number, or "undefined" when absent. */
  function CountText(count: Option<nat>): (t: string)
    ensures t != []
    ensures count.Some? ==> AllDigits(t) && ParseDigits(t) == count.value
    ensures count.Some? && |t| > 1 ==> t[0] != '0'
    ensures count.None? ==> t == "undefined"
  {
    match count
    case Some(n) =>
      ParseNatToString(n);
      NatToString(n)
    case None => "undefined"
  }

  /** The success alert for a reported count. */
  function SuccessMessage(count: Option<nat>): (m: string)
    ensures |m| == |SuccessPrefix| + |CountText(count)| + |SuccessSuffix|
    ensures StartsWith(m, SuccessPrefix) && EndsWith(m, SuccessSuffix)
    ensures m[|SuccessPrefix|..|m| - |SuccessSuffix|] == CountText(count)
  {
    var m := SuccessPrefix + CountText(count) + SuccessSuffix;
    assert m[..|SuccessPrefix|] == SuccessPrefix;
    assert m[|m| - |SuccessSuffix|..] == SuccessSuffix;
    assert m[|SuccessPrefix|..|m| - |SuccessSuffix|] == CountText(count);
    m
  }

  /** The alert for a count of seven. */
  lemma SuccessMessageSeven()
    ensures SuccessMessage(Some(7)) == "Successfully processed 7 vulnerabilities"
  {
    assert CountText(Some(7)) == [DigitChar(7)];
  }

  /** The alert when the response carries no count. */
  lemma SuccessMessageMissingCount()
    ensures SuccessMessage(None) == "Successfully processed undefined vulnerabilities"
  {
  }

  /** Reads the count back out of a success alert; the inverse of `SuccessMessage`. */
  function ReportedCount(message: string): Option<nat> {
    if |SuccessPrefix| + |SuccessSuffix| <= |message|
       && StartsWith(message, SuccessPrefix) && EndsWith(message, SuccessSuffix)
    then
      var middle := message[|SuccessPrefix|..|message| - |SuccessSuffix|];
      if middle != [] && AllDigits(middle) then Some(ParseDigits(middle)) else None
    else None
  }

  /** The alert reports exactly the count the server sent, and says so when it sent none. */
  lemma ReportedCountOfMessage(count: Option<nat>)
    ensures ReportedCount(SuccessMessage(count)) == count
  {
    var t := CountText(count);
    if count.None? {
      assert !IsDigit(t[0]);
    }
  }

  /** `data.error || 'Upload failed'`: the server's reason when it is a non-empty string. */
  function FailureReason(serverError: Option<string>): (m: string)
    ensures m != ""
    ensures serverError.Some? && serverError.value != "" ==> m == serverError.value
    ensures serverError.None? || serverError.value == "" ==> m == UploadFailedMessage
  {
    if serverError.Some? && serverError.value != "" then serverError.value else UploadFailedMessage
  }

  /**
   * The try block of `handleUpload` after its `await`: `Ok` with the success
   * alert when the response is ok and its body parses, otherwise `Err` with
   * the message of the error that reaches the catch clause.
   */
  function Settle(outcome: FetchOutcome): (r: Result<string, string>)
    ensures r.Ok? <==> outcome.Received? && outcome.ok && outcome.body.Json?
    ensures r.Ok? ==> r.value == SuccessPrefix + CountText(outcome.body.vulnerabilitiesCount) + SuccessSuffix
    ensures r.Ok? ==> ReportedCount(r.value) == outcome.body.vulnerabilitiesCount
    ensures outcome.NetworkFailure? ==> r == Err(outcome.message)
    ensures outcome.Received? && outcome.body.Unparsable? ==> r == Err(outcome.body.parseMessage)
    ensures outcome.Received? && !outcome.ok && outcome.body.Json? ==>
              r == Err(FailureReason(outcome.body.error))
  {
    match outcome
    case NetworkFailure(message) => Err(message)
    case Received(ok, body) =>
      match body
      case Unparsable(parseMessage) => Err(parseMessage)
      case Json(serverError, count) =>
        if !ok then Err(FailureReason(serverError))
        else
          ReportedCountOfMessage(count);
          Ok(SuccessMessage(count))
  }

  /**
   * The state after the continuation of `handleUpload` (from the `await` to
   * the end of `finally`) runs on state `s`. It writes the cells it sets and
   * leaves the others as they are now, whatever happened meanwhile.
   */
  function Finished(s: UploadState, outcome: FetchOutcome): (r: UploadState)
    ensures !r.loading
    ensures r.file.None? <==> Settle(outcome).Ok? || s.file.None?
    ensures r.file.Some? ==> r.file == s.file
    ensures Settle(outcome).Ok? ==> r.success == Some(Settle(outcome).value) && r.error == s.error
    ensures Settle(outcome).Err? ==> r.error == Some(Settle(outcome).error) && r.success == s.success
  {
    match Settle(outcome)
    case Ok(message) => s.(success := Some(message), file := None, loading := false)
    case Err(message) => s.(error := Some(message), loading := false)
  }

  /** The state after `handleUpload` has run to its end with nothing happening during the request. */
  function Uploaded(s: UploadState, outcome: FetchOutcome): (r: UploadState)
    ensures s.file.None? ==> r == s
    ensures s.file.Some? ==> !r.loading
    ensures s.file.Some? ==> (r.file.None? <==> Settle(outcome).Ok?)
    ensures s.file.Some? && Settle(outcome).Ok? ==>
              r.success == Some(Settle(outcome).value) && r.error.None?
    ensures s.file.Some? && Settle(outcome).Err? ==>
              r.error == Some(Settle(outcome).error) && r.file == s.file && r.success == s.success
  {
    if s.file.None? then s else Finished(Started(s), outcome)
  }

  /** While a request is in flight the button is disabled, the error alert is gone and an earlier success alert stays. */
  lemma InFlight(s: UploadState)
    requires !SubmitDisabled(s)
    ensures SubmitDisabled(Started(s))
    ensures Started(s).error.None? && Started(s).success == s.success && Started(s).file == s.file
  {
  }

  /** After a failed upload the same file can be submitted again at once. */
  lemma RetryAfterFailure(s: UploadState, outcome: FetchOutcome)
    requires s.file.Some? && Settle(outcome).Err?
    ensures !SubmitDisabled(Uploaded(s, outcome)) && Uploaded(s, outcome).file == s.file
  {
  }

  /** A failed upload does not clear an earlier success alert, so both alerts can show at once. */
  lemma StaleSuccessSurvivesFailure(s: UploadState, outcome: FetchOutcome)
    requires s.file.Some? && s.success.Some? && Settle(outcome).Err?
    ensures Uploaded(s, outcome).error.Some? && Uploaded(s, outcome).success == s.success
  {
  }

  /**
   * The file input stays active while a request is pending. A valid file
   * chosen then is dropped by a later success, though it was never uploaded.
   */
  lemma SuccessDropsFileChosenInFlight(s: UploadState, f: File, outcome: FetchOutcome)
    requires EndsWith(f.name, ExcelSuffix) && Settle(outcome).Ok?
    ensures Selected(s, Some(f)).file == Some(f)
    ensures Finished(Selected(s, Some(f)), outcome).file.None?
  {
  }

  /** An invalid pick made while a request is pending loses its message to a later failure. */
  lemma FailureHidesPickErrorInFlight(s: UploadState, selected: Option<File>, outcome: FetchOutcome)
    requires !Acceptable(selected) && Settle(outcome).Err?
    ensures Finished(Selected(s, selected), outcome).error == Some(Settle(outcome).error)
  {
  }

  // ------------------------------------------------------------ runs

  /**
   * A user or network event: choosing a file, clicking the upload button,
   * or a pending request coming back with its outcome.
   */
  datatype Event = Select(selected: Option<File>) | Click | Resolve(outcome: FetchOutcome)

  /** The form's cells together with the number of requests still pending. */
  datatype Screen = Screen(form: UploadState, pending: nat)

  /**
   * One event. A click on the disabled button does nothing; an enabled click
   * starts a request. A resolution runs the continuation of the oldest
   * pending request; without one there is nothing to resolve.
   */
  function Step(sc: Screen, e: Event): Screen {
    match e
    case Select(selected) => sc.(form := Selected(sc.form, selected))
    case Click =>
      if SubmitDisabled(sc.form) then sc else Screen(Started(sc.form), sc.pending + 1)
    case Resolve(outcome) =>
      if sc.pending == 0 then sc else Screen(Finished(sc.form, outcome), sc.pending - 1)
  }

  function Run(sc: Screen, events: seq<Event>): Screen
    decreases |events|
  {
    if events == [] then sc else Run(Step(sc, events[0]), events[1..])
  }

  function Mounted(): Screen {
    Screen(InitialState(), 0)
  }

  /**
   * What holds at every point of a run: at most one request is pending,
   * the loading flag is set exactly while one is, a held file has an
   * ".xlsx" name, and a success alert has the fixed template's shape.
   */
  predicate Consistent(sc: Screen) {
    && sc.pending <= 1
    && (sc.form.loading <==> sc.pending == 1)
    && (sc.form.file.Some? ==> EndsWith(sc.form.file.value.name, ExcelSuffix))
    && (sc.form.success.Some? ==>
          StartsWith(sc.form.success.value, SuccessPrefix) && EndsWith(sc.form.success.value, SuccessSuffix))
  }

  lemma StepConsistent(sc: Screen, e: Event)
    requires Consistent(sc)
    ensures Consistent(Step(sc, e))
  {
  }

  /** Every event keeps the invariant, over any sequence of events, selections during a request included. */
  lemma {:induction false} RunConsistent(sc: Screen, events: seq<Event>)
    requires Consistent(sc)
    ensures Consistent(Run(sc, events))
    decreases |events|
  {
    if events != [] {
      StepConsistent(sc, events[0]);
      RunConsistent(Step(sc, events[0]), events[1..]);
    }
  }

  /** Every screen reached from mount satisfies the invariant: in particular no two requests are ever pending. */
  lemma ReachableConsistent(events: seq<Event>)
    ensures Consistent(Run(Mounted(), events))
  {
    RunConsistent(Mounted(), events);
  }

  /** Without a file, clicks and resolutions never bring one back: the button stays disabled. */
  lemma {:induction false} NoFileUntilSelect(sc: Screen, events: seq<Event>)
    requires sc.form.file.None?
    requires forall i :: 0 <= i < |events| ==> !events[i].Select?
    ensures Run(sc, events).form.file.None?
    ensures SubmitDisabled(Run(sc, events).form)
    decreases |events|
  {
    if events != [] {
      assert !events[0].Select?;
      NoFileUntilSelect(Step(sc, events[0]), events[1..]);
    }
  }

  /** After a successful upload the button is disabled until a file is chosen again. */
  lemma SuccessDisablesSubmit(sc: Screen, outcome: FetchOutcome, events: seq<Event>)
    requires sc.pending > 0 && Settle(outcome).Ok?
    requires forall i :: 0 <= i < |events| ==> !events[i].Select?
    ensures SubmitDisabled(Step(sc, Resolve(outcome)).form)
    ensures SubmitDisabled(Run(Step(sc, Resolve(outcome)), events).form)
  {
    SuccessClearsFile(sc, outcome);
    NoFileUntilSelect(Step(sc, Resolve(outcome)), events);
  }

  lemma SuccessClearsFile(sc: Screen, outcome: FetchOutcome)
    requires sc.pending > 0 && Settle(outcome).Ok?
    ensures Step(sc, Resolve(outcome)).form.file.None?
  {
  }

  // ------------------------------------------------------------ the component

  /** The component's state cells and its two handlers. */
  class Uploader {
    var file: Option<File>
    var loading: bool
    var error: Option<string>
    var success: Option<string>

    function State(): UploadState
      reads this
    {
      UploadState(file, loading, error, success)
    }

    constructor ()
      ensures State() == InitialState()
    {
      file, loading, error, success := None, false, None, None;
    }

    /** `disabled={!file || loading}` on the upload button. */
    function UploadDisabled(): (disabled: bool)
      reads this
      ensures disabled <==> SubmitDisabled(State())
    {
      file.None? || loading
    }

    /** `handleFileSelect`, given the first file of the input's file list (if any). */
    method HandleFileSelect(selected: Option<File>)
      modifies this
      ensures State() == Selected(old(State()), selected)
    {
      if selected.Some? && EndsWith(selected.value.name, ExcelSuffix) {
        file := selected;
        error := None;
      } else {
        error := Some(InvalidFileMessage);
        file := None;
      }
    }

    /** `handleUpload` up to its `await`: `requested` tells whether a request was issued. */
    method StartUpload() returns (requested: bool)
      modifies this
      ensures requested <==> old(file).Some?
      ensures requested ==> State() == Started(old(State()))
      ensures !requested ==> State() == old(State())
    {
      if file.None? {
        return false;
      }
      requested := true;
      loading := true;
      error := None;
    }

    /** `handleUpload` from its `await` to the end of `finally`, given how the request ended. */
    method CompleteUpload(outcome: FetchOutcome)
      modifies this
      ensures State() == Finished(old(State()), outcome)
    {
      match outcome {
        case NetworkFailure(message) =>
          error := Some(message);
        case Received(ok, body) =>
          match body {
            case Unparsable(parseMessage) =>
              error := Some(parseMessage);
            case Json(serverError, count) =>
              if !ok {
                error := Some(if serverError.Some? && serverError.value != "" then serverError.value
                              else UploadFailedMessage);
              } else {
                success := Some("Successfully processed " + CountText(count) + " vulnerabilities");
                file := None;
              }
          }
      }
      loading := false;
    }

    /** `handleUpload` run to its end with no other event during the request. */
    method HandleUpload(outcome: FetchOutcome) returns (requested: bool)
      modifies this
      ensures requested <==> old(file).Some?
      ensures State() == Uploaded(old(State()), outcome)
    {
      requested := StartUpload();
      if requested {
        CompleteUpload(outcome);
      }
    }
  }
}
