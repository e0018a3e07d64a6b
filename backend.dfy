/**
 * The report-processing endpoint of the server (backend/main.py):
 * `POST /api/upload` validates the uploaded spreadsheet, adds one
 * vulnerability record per row to the database session and commits.
 *
 * Flask, pandas and SQLAlchemy are not modelled: a request is an optional
 * uploaded file whose spreadsheet has already been read (or failed to be
 * read), and the session is a class holding the pending and the committed
 * records, whose commit outcome is an input.
 */
module Backend {
  import opened Wrappers
  import opened Strings

  // ------------------------------------------------------------ records

  /** A stored vulnerability; `id` is `None` until the database assigns one. */
  datatype Vulnerability = Vulnerability(
    id: Option<nat>,
    name: string,
    riskDescription: string,
    severity: string,
    affectedUrls: string)

  /** The JSON values `to_dict` produces. */
  datatype Json = JString(text: string) | JNumber(number: nat) | JNull

  const DictKeys: set<string> := {"id", "name", "risk_description", "severity", "affected_urls"}

  /** `Vulnerability.to_dict`. */
  function ToDict(v: Vulnerability): (d: map<string, Json>)
    ensures d.Keys == DictKeys
  {
    map[
      "id" := (match v.id case Some(n) => JNumber(n) case None => JNull),
      "name" := JString(v.name),
      "risk_description" := JString(v.riskDescription),
      "severity" := JString(v.severity),
      "affected_urls" := JString(v.affectedUrls)]
  }

  /** Reads a record back from its dictionary; `None` for a dictionary `to_dict` never produces. */
  function FromDict(d: map<string, Json>): Option<Vulnerability> {
    if DictKeys <= d.Keys && !d["id"].JString? && d["name"].JString? && d["risk_description"].JString?
       && d["severity"].JString? && d["affected_urls"].JString?
    then
      var id := if d["id"].JNumber? then Some(d["id"].number) else None;
      Some(Vulnerability(id, d["name"].text, d["risk_description"].text, d["severity"].text,
                         d["affected_urls"].text))
    else None
  }

  /** Every field is carried under its own key: the dictionary determines the record. */
  lemma DictRoundTrip(v: Vulnerability)
    ensures FromDict(ToDict(v)) == Some(v)
  {
  }

  // ------------------------------------------------------------ spreadsheets

  /** One spreadsheet row: column name to cell text. */
  type SheetRow = map<string, string>

  /** A spreadsheet as `pd.read_excel` returns it: column names and rows. */
  datatype Sheet = Sheet(columns: seq<string>, rows: seq<SheetRow>)

  /** Every row has a cell in every column. */
  predicate Rectangular(s: Sheet) {
    forall i :: 0 <= i < |s.rows| ==> forall c :: c in s.columns ==> c in s.rows[i]
  }

  type Frame = s: Sheet | Rectangular(s) witness Sheet([], [])

  /** The result of `pd.read_excel` on the uploaded bytes: a frame, or the message of the exception. */
  datatype Workbook = Readable(frame: Frame) | Unreadable(message: string)

  /** The "file" part of a multipart request. */
  datatype UploadedFile = UploadedFile(filename: string, workbook: Workbook)

  /** A request, with or without a "file" part. */
  datatype Request = Request(file: Option<UploadedFile>)

  const ExcelSuffix := ".xlsx"
  const RequiredColumns: seq<string> :=
    ["Vulnerability Name", "Risk Description", "Severity", "Affected URLs"]

  const NoFileMessage := "No file uploaded"
  const OnlyExcelMessage := "Only Excel (.xlsx) files are supported"
  const MissingColumnsMessage := "Missing required columns"
  const ProcessedMessage := "Report processed successfully"

  /** `all(col in columns for col in required)`. */
  function AllPresent(required: seq<string>, columns: seq<string>): (b: bool)
    ensures b <==> forall c :: c in required ==> c in columns
  {
    if required == [] then true else required[0] in columns && AllPresent(required[1..], columns)
  }

  predicate HasRequired(row: SheetRow) {
    forall c :: c in RequiredColumns ==> c in row
  }

  /** In a frame that has the required columns, every row has the required cells. */
  lemma RowsHaveRequired(frame: Frame)
    requires AllPresent(RequiredColumns, frame.columns)
    ensures forall i :: 0 <= i < |frame.rows| ==> HasRequired(frame.rows[i])
  {
  }

  /** The record built for one row (`Vulnerability(name=row[...], ...)`), not yet stored. */
  function FromRow(row: SheetRow): Vulnerability
    requires HasRequired(row)
  {
    Vulnerability(None, row["Vulnerability Name"], row["Risk Description"], row["Severity"],
                  row["Affected URLs"])
  }

  /** The dictionary of a record built from a row shows each required cell under its own key, and no id. */
  lemma RowToDict(row: SheetRow)
    requires HasRequired(row)
    ensures ToDict(FromRow(row))["id"] == JNull
    ensures ToDict(FromRow(row))["name"] == JString(row["Vulnerability Name"])
    ensures ToDict(FromRow(row))["risk_description"] == JString(row["Risk Description"])
    ensures ToDict(FromRow(row))["severity"] == JString(row["Severity"])
    ensures ToDict(FromRow(row))["affected_urls"] == JString(row["Affected URLs"])
  {
  }

  /** The records of a sequence of rows, in row order. */
  function RecordsFrom(rows: seq<SheetRow>): (vs: seq<Vulnerability>)
    requires forall i :: 0 <= i < |rows| ==> HasRequired(rows[i])
    ensures |vs| == |rows|
    ensures forall i :: 0 <= i < |rows| ==> vs[i] == FromRow(rows[i])
  {
    if rows == [] then [] else RecordsFrom(rows[..|rows| - 1]) + [FromRow(rows[|rows| - 1])]
  }

  // ------------------------------------------------------------ the endpoint

  /** Where the checks before the row loop lead: on to the loop, a 400 reply, or an exception. */
  datatype Verdict = Accept(frame: Frame) | Reject(reason: string) | Raise(message: string)

  /**
   * The checks of `upload_report` in their order: the "file" part, the
   * filename suffix, reading the spreadsheet, the required columns.
   */
  function Check(req: Request): (v: Verdict)
    ensures req.file.None? ==> v == Reject(NoFileMessage)
    ensures req.file.Some? && !EndsWith(req.file.value.filename, ExcelSuffix) ==> v == Reject(OnlyExcelMessage)
    ensures v.Raise? <==>
              req.file.Some? && EndsWith(req.file.value.filename, ExcelSuffix)
              && req.file.value.workbook.Unreadable?
    ensures v.Raise? ==> v.message == req.file.value.workbook.message
    ensures v.Accept? <==>
              req.file.Some? && EndsWith(req.file.value.filename, ExcelSuffix)
              && req.file.value.workbook.Readable?
              && forall c :: c in RequiredColumns ==> c in req.file.value.workbook.frame.columns
    ensures req.file.Some? && EndsWith(req.file.value.filename, ExcelSuffix)
            && req.file.value.workbook.Readable?
            && !(forall c :: c in RequiredColumns ==> c in req.file.value.workbook.frame.columns)
            ==> v == Reject(MissingColumnsMessage)
    ensures v.Accept? ==> v.frame == req.file.value.workbook.frame
    ensures v.Reject? ==> v.reason in {NoFileMessage, OnlyExcelMessage, MissingColumnsMessage}
  {
    if req.file.None? then Reject(NoFileMessage)
    else if !EndsWith(req.file.value.filename, ExcelSuffix) then Reject(OnlyExcelMessage)
    else match req.file.value.workbook
      case Unreadable(message) => Raise(message)
      case Readable(frame) =>
        if !AllPresent(RequiredColumns, frame.columns) then Reject(MissingColumnsMessage)
        else Accept(frame)
  }

  /** The suffix is checked before the spreadsheet is read: a wrong name is refused whatever the content. */
  lemma SuffixBeforeParsing(filename: string, w1: Workbook, w2: Workbook)
    requires !EndsWith(filename, ExcelSuffix)
    ensures Check(Request(Some(UploadedFile(filename, w1)))) == Check(Request(Some(UploadedFile(filename, w2))))
    ensures Check(Request(Some(UploadedFile(filename, w1)))) == Reject(OnlyExcelMessage)
  {
  }

  /** The JSON body of a reply. */
  datatype ReplyBody = ErrorBody(error: string) | Processed(message: string, vulnerabilitiesCount: nat)

  /** A reply: HTTP status and JSON body. */
  datatype Reply = Reply(status: nat, body: ReplyBody)

  /**
   * The reply of `upload_report`, given whether the commit raised.
   * 400 for a refused request, 500 with the exception's message for a
   * spreadsheet that cannot be read or a failed commit, 200 with the row
   * count otherwise.
   */
  function ReplyFor(req: Request, commitFailure: Option<string>): (r: Reply)
    ensures r.status in {200, 400, 500}
    ensures r.status == 200 <==> Check(req).Accept? && commitFailure.None?
    ensures r.status == 400 <==> Check(req).Reject?
    ensures r.body.Processed? <==> r.status == 200
    ensures r.status == 200 ==> r.body == Processed(ProcessedMessage, |Check(req).frame.rows|)
    ensures r.status == 400 ==> r.body == ErrorBody(Check(req).reason)
    ensures Check(req).Raise? ==> r.body == ErrorBody(Check(req).message)
    ensures Check(req).Accept? && commitFailure.Some? ==> r.body == ErrorBody(commitFailure.value)
  {
    match Check(req)
    case Reject(reason) => Reply(400, ErrorBody(reason))
    case Raise(message) => Reply(500, ErrorBody(message))
    case Accept(frame) =>
      match commitFailure
      case Some(message) => Reply(500, ErrorBody(message))
      case None => Reply(200, Processed(ProcessedMessage, |frame.rows|))
  }

  /** The database session: records added but not committed, and records committed. */
  class Session {
    var pending: seq<Vulnerability>
    var stored: seq<Vulnerability>

    constructor ()
      ensures pending == [] && stored == []
    {
      pending, stored := [], [];
    }

    /** `db.session.add`. */
    method Add(v: Vulnerability)
      modifies this
      ensures pending == old(pending) + [v] && stored == old(stored)
    {
      pending := pending + [v];
    }

    /** `db.session.commit`; `failure` is the message of the exception the database raises, if any. */
    method Commit(failure: Option<string>) returns (raised: Option<string>)
      modifies this
      ensures raised == failure
      ensures failure.None? ==> stored == old(stored) + old(pending) && pending == []
      ensures failure.Some? ==> stored == old(stored) && pending == old(pending)
    {
      raised := failure;
      if failure.None? {
        stored := stored + pending;
        pending := [];
      }
    }

    /** `db.session.rollback`: every pending record is discarded. */
    method Rollback()
      modifies this
      ensures pending == [] && stored == old(stored)
    {
      pending := [];
    }
  }

  /**
   * `upload_report`. A refused request leaves the session as it was; an
   * exception rolls it back; a successful run commits one record per row,
   * in row order.
   */
  method UploadReport(session: Session, req: Request, commitFailure: Option<string>) returns (reply: Reply)
    modifies session
    ensures reply == ReplyFor(req, commitFailure)
    ensures Check(req).Reject? ==>
              session.pending == old(session.pending) && session.stored == old(session.stored)
    ensures !Check(req).Reject? && reply.status != 200 ==>
              session.pending == [] && session.stored == old(session.stored)
    ensures reply.status == 200 ==>
              session.pending == [] &&
              session.stored == old(session.stored) + old(session.pending)
                                + RecordsFrom(Check(req).frame.rows)
  {
    if req.file.None? {
      return Reply(400, ErrorBody(NoFileMessage));
    }
    var file := req.file.value;
    if !EndsWith(file.filename, ExcelSuffix) {
      return Reply(400, ErrorBody(OnlyExcelMessage));
    }
    if file.workbook.Unreadable? {
      session.Rollback();
      return Reply(500, ErrorBody(file.workbook.message));
    }
    var df := file.workbook.frame;
    if !AllPresent(RequiredColumns, df.columns) {
      return Reply(400, ErrorBody(MissingColumnsMessage));
    }
    RowsHaveRequired(df);
    var i := 0;
    while i < |df.rows|
      invariant 0 <= i <= |df.rows|
      invariant session.stored == old(session.stored)
      invariant session.pending == old(session.pending) + RecordsFrom(df.rows[..i])
    {
      session.Add(FromRow(df.rows[i]));
      assert df.rows[..i + 1][..i] == df.rows[..i];
      i := i + 1;
    }
    assert df.rows[..i] == df.rows;
    var raised := session.Commit(commitFailure);
    if raised.Some? {
      session.Rollback();
      return Reply(500, ErrorBody(raised.value));
    }
    return Reply(200, Processed(ProcessedMessage, |df.rows|));
  }
}
