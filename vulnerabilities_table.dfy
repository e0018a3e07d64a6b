/**
 * The results table of the client (frontend/src/components/VulnerabilitiesTable.jsx):
 * the severity classifier and the projection of records onto table rows.
 */
module VulnerabilitiesTable {
  import opened Wrappers
  import opened Strings

  /** The palette names a severity chip can take. */
  datatype Color = Error | Warning | Success | Default

  /** One vulnerability record as the client receives it. */
  datatype Vulnerability = Vulnerability(
    id: nat,
    name: string,
    severity: string,
    riskDescription: string,
    affectedUrls: string)

  // ------------------------------------------------------------ severity

  /** `getSeverityColor`: a switch on the lower-cased label. */
  function SeverityColor(severity: string): Color {
    var lowered := ToLower(severity);
    if lowered == "critical" then Error
    else if lowered == "high" then Error
    else if lowered == "medium" then Warning
    else if lowered == "low" then Success
    else Default
  }

  /** The classifier sees only the lower-cased label: "HIGH" and "high" agree. */
  lemma SeverityIgnoresCase(severity: string)
    ensures SeverityColor(severity) == SeverityColor(ToLower(severity))
  {
    ToLowerIdempotent(severity);
  }

  /** Labels that are equal ignoring case get the same colour. */
  lemma SameColorIgnoringCase(a: string, b: string)
    requires SameIgnoringCase(a, b)
    ensures SeverityColor(a) == SeverityColor(b)
  {
    ToLowerEqIff(a, b);
  }

  /**
   * The classifier against a case-insensitive reading of the switch:
   * each colour is given exactly by the labels that spell its keywords.
   */
  lemma SeverityColorSpec(severity: string)
    ensures SeverityColor(severity) == Error <==>
              SameIgnoringCase(severity, "critical") || SameIgnoringCase(severity, "high")
    ensures SeverityColor(severity) == Warning <==> SameIgnoringCase(severity, "medium")
    ensures SeverityColor(severity) == Success <==> SameIgnoringCase(severity, "low")
    ensures SeverityColor(severity) == Default <==>
              !SameIgnoringCase(severity, "critical") && !SameIgnoringCase(severity, "high")
              && !SameIgnoringCase(severity, "medium") && !SameIgnoringCase(severity, "low")
  {
    ToLowerFixed("critical");
    ToLowerFixed("high");
    ToLowerFixed("medium");
    ToLowerFixed("low");
    ToLowerEqIff(severity, "critical");
    ToLowerEqIff(severity, "high");
    ToLowerEqIff(severity, "medium");
    ToLowerEqIff(severity, "low");
  }

  /** Both spellings of "high", and a capitalised "Critical", are errors. */
  lemma ErrorExamples()
    ensures SeverityColor("HIGH") == SeverityColor("high") == Error
    ensures SeverityColor("Critical") == Error
  {
    LowerExample("HIGH", "high");
    LowerExample("Critical", "critical");
  }

  lemma WarningAndSuccessExamples()
    ensures SeverityColor("Medium") == Warning
    ensures SeverityColor("LOW") == Success
  {
    LowerExample("Medium", "medium");
    LowerExample("LOW", "low");
  }

  /** The empty label and an unknown one fall to the default. */
  lemma DefaultExamples()
    ensures SeverityColor("") == Default
    ensures SeverityColor("unknown") == Default
  {
    LowerExample("unknown", "unknown");
  }

  lemma LowerExample(s: string, lowered: string)
    requires |s| == |lowered| && forall i :: 0 <= i < |s| ==> LowerChar(s[i]) == lowered[i]
    ensures ToLower(s) == lowered
  {
  }

  // ------------------------------------------------------------ rows

  /** The five fixed column headings. */
  const Header: seq<string> :=
    ["ID", "Vulnerability Name", "Severity", "Risk Description", "Affected URLs"]

  /** A table cell: plain text, or a chip with a caption (the `label` prop) and a colour. */
  datatype Cell = Text(text: string) | Chip(caption: string, color: Color)

  /** A table row, keyed by the record's id. */
  datatype Row = Row(key: nat, cells: seq<Cell>)

  /** The cell a record shows under a heading, read off the heading's name. */
  function CellUnder(heading: string, v: Vulnerability): Option<Cell> {
    if heading == "ID" then Some(Text(NatToString(v.id)))
    else if heading == "Vulnerability Name" then Some(Text(v.name))
    else if heading == "Severity" then Some(Chip(v.severity, SeverityColor(v.severity)))
    else if heading == "Risk Description" then Some(Text(v.riskDescription))
    else if heading == "Affected URLs" then Some(Text(v.affectedUrls))
    else None
  }

  /** The `<TableRow>` the body renders for one record. */
  function RenderRow(v: Vulnerability): Row {
    Row(v.id, [
      Text(NatToString(v.id)),
      Text(v.name),
      Chip(v.severity, SeverityColor(v.severity)),
      Text(v.riskDescription),
      Text(v.affectedUrls)])
  }

  /** Each cell of a row sits under the heading that names its field; the chip shows the raw label in its severity colour. */
  lemma RowFollowsHeader(v: Vulnerability)
    ensures |RenderRow(v).cells| == |Header|
    ensures forall i :: 0 <= i < |Header| ==> CellUnder(Header[i], v) == Some(RenderRow(v).cells[i])
    ensures RenderRow(v).cells[2] == Chip(v.severity, SeverityColor(v.severity))
  {
  }

  /** `vulnerabilities.map(...)`: one row per record. */
  function RenderBody(vs: seq<Vulnerability>): (rows: seq<Row>)
    ensures |rows| == |vs|
    ensures forall i :: 0 <= i < |vs| ==> rows[i] == RenderRow(vs[i])
  {
    if vs == [] then [] else [RenderRow(vs[0])] + RenderBody(vs[1..])
  }

  /** Reads a record back from its row; `None` for a row the body never renders. */
  function ReadRow(r: Row): Option<Vulnerability> {
    if |r.cells| == 5 && r.cells[0].Text? && r.cells[1].Text? && r.cells[2].Chip?
       && r.cells[3].Text? && r.cells[4].Text?
       && r.cells[0].text == NatToString(r.key)
    then Some(Vulnerability(r.key, r.cells[1].text, r.cells[2].caption, r.cells[3].text, r.cells[4].text))
    else None
  }

  function ReadBody(rows: seq<Row>): Option<seq<Vulnerability>> {
    if rows == [] then Some([])
    else match (ReadRow(rows[0]), ReadBody(rows[1..]))
      case (Some(v), Some(vs)) => Some([v] + vs)
      case _ => None
  }

  lemma ReadRenderRow(v: Vulnerability)
    ensures ReadRow(RenderRow(v)) == Some(v)
  {
  }

  /**
   * The body loses nothing and reorders nothing: reading the rows back gives
   * the input records, in order, with no record dropped or added.
   */
  lemma {:induction false} ReadRenderBody(vs: seq<Vulnerability>)
    ensures ReadBody(RenderBody(vs)) == Some(vs)
  {
    if vs != [] {
      var rows := RenderBody(vs);
      ReadRenderRow(vs[0]);
      assert rows[1..] == RenderBody(vs[1..]);
      ReadRenderBody(vs[1..]);
      assert [vs[0]] + vs[1..] == vs;
    }
  }

  /** Row keys are the record ids, position by position, so the rows are keyed as the records are identified. */
  lemma RowKeys(vs: seq<Vulnerability>)
    ensures forall i :: 0 <= i < |vs| ==> RenderBody(vs)[i].key == vs[i].id
  {
  }
}
