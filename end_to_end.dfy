/**
 * The HTTP contract between the endpoint and the upload form: the server's
 * reply, as the client's `fetch` and `response.json()` see it, and what the
 * form then shows.
 */
module EndToEnd {
  import opened Wrappers
  import Backend
  import ReportUpload

  /** A reply as the client receives it: `response.ok` is a 2xx status, the body is JSON. */
  function Received(reply: Backend.Reply): ReportUpload.FetchOutcome {
    var body := match reply.body
      case ErrorBody(error) => ReportUpload.Json(Some(error), None)
      case Processed(_, count) => ReportUpload.Json(None, Some(count));
    ReportUpload.Received(200 <= reply.status < 300, body)
  }

  /** When the server commits the report, the form's success alert reports the number of spreadsheet rows. */
  lemma CommittedCountShown(req: Backend.Request)
    requires Backend.Check(req).Accept?
    ensures ReportUpload.Settle(Received(Backend.ReplyFor(req, None)))
            == Ok(ReportUpload.SuccessMessage(Some(|Backend.Check(req).frame.rows|)))
    ensures ReportUpload.ReportedCount(ReportUpload.Settle(Received(Backend.ReplyFor(req, None))).value)
            == Some(|Backend.Check(req).frame.rows|)
  {
    ReportUpload.ReportedCountOfMessage(Some(|Backend.Check(req).frame.rows|));
  }

  /** A refused request shows the server's reason verbatim in the form's error alert. */
  lemma RejectionReasonShown(req: Backend.Request, commitFailure: Option<string>)
    requires Backend.Check(req).Reject?
    ensures ReportUpload.Settle(Received(Backend.ReplyFor(req, commitFailure)))
            == Err(Backend.Check(req).reason)
  {
  }

  /** An exception on the server shows its message, or "Upload failed" when the message is empty. */
  lemma ServerErrorShown(req: Backend.Request, commitFailure: Option<string>)
    requires Backend.ReplyFor(req, commitFailure).status == 500
    ensures ReportUpload.Settle(Received(Backend.ReplyFor(req, commitFailure)))
            == Err(ReportUpload.FailureReason(Some(Backend.ReplyFor(req, commitFailure).body.error)))
  {
  }
}
