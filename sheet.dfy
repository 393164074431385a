/**
 * Spreadsheet rows as the generators see them: a row maps a column header to
 * its cell text. Holds the logical-column tables, the two `get_value`
 * variants and the second-row-header CSV normalisation.
 */
module Sheet {
  import opened Text

  type Row = map<string, string>

  /** The current generators under scripts/etl and the older copy at the repository root. */
  datatype Edition = Current | Legacy

  /** The logical columns the generators ask for by name. */
  datatype Column =
    | ValueStream | StageGate | StageGateDescription | FunctionalArea | Category | Deliverable
    | Explanation | Owner | Status | PresentedAt | PlanDate | ActualDate | CommentsReference | VpadSpecific

  /**
   * The candidate headers of a logical column, in the order they are tried.
   * A column an edition's table lacks has none, which reads as `""` exactly
   * like a name the table does not know.
   */
  function Candidates(e: Edition, c: Column): seq<string> {
    match c
    case ValueStream => ["Value Stream", "Drop Down"]
    case StageGate => ["Stage Gate", "Drop Down.1"]
    case StageGateDescription => ["Stage Gate Description", "Drop Down.2"]
    case FunctionalArea => ["Functional Area/Subteam", "Drop Down.3"]
    case Category => ["Category", "Unnamed: 4"]
    case Deliverable => ["Deliverable", "Unnamed: 5"]
    case Explanation => ["Explanation/Translation", "Explanation/\nTranslation", "Unnamed: 6"]
    case Owner => ["Owner", "Unnamed: 7"]
    case Status => ["Status", "Drop Down.4"]
    case PresentedAt => ["To be presented at", "Drop Down.5"]
    case PlanDate => if e == Current then ["Plan date", "Plan \ndate", "251031 - added column from Synthetics"] else []
    case ActualDate => if e == Current then ["Actual date", "Actual\ndate", "251031 - added column from Synthetics .1"] else []
    case CommentsReference =>
      if e == Current then ["Comments/Document reference", "Comments/\nDocument reference",
                            "251031 - added column from Synthetics .2"] else []
    case VpadSpecific => if e == Legacy then ["VPAD-specific?", "Unnamed: 10"] else []
  }

  /** The cell of the first candidate header present in the row, even when that cell is empty. */
  function FirstPresent(row: Row, cands: seq<string>): (r: string)
    ensures (forall i :: 0 <= i < |cands| ==> cands[i] !in row) ==> r == ""
    ensures forall i :: 0 <= i < |cands| && cands[i] in row && (forall j :: 0 <= j < i ==> cands[j] !in row) ==>
      r == row[cands[i]]
  {
    if cands == [] then ""
    else if cands[0] in row then row[cands[0]]
    else
      var r := FirstPresent(row, cands[1..]);
      assert forall i :: 1 <= i < |cands| ==> cands[i] == cands[1..][i - 1];
      r
  }

  /** `get_value` of the CMC generators (both editions). */
  function GetValue(e: Edition, row: Row, c: Column): string {
    FirstPresent(row, Candidates(e, c))
  }

  predicate Filled(row: Row, c: string) { c in row && row[c] != "" }

  /** The stripped cell of the first candidate header whose cell is non-empty. */
  function FirstFilled(row: Row, cands: seq<string>): (r: string)
    ensures (forall i :: 0 <= i < |cands| ==> !Filled(row, cands[i])) ==> r == ""
    ensures forall i :: 0 <= i < |cands| && Filled(row, cands[i]) && (forall j :: 0 <= j < i ==> !Filled(row, cands[j])) ==>
      r == Strip(row[cands[i]])
  {
    if cands == [] then ""
    else if Filled(row, cands[0]) then Strip(row[cands[0]])
    else
      var r := FirstFilled(row, cands[1..]);
      assert forall i :: 1 <= i < |cands| ==> cands[i] == cands[1..][i - 1];
      r
  }

  /** `get_value` of the GUPRI generator. */
  function GetValueGupri(row: Row, c: Column): string {
    FirstFilled(row, Candidates(Current, c))
  }

  /** The stage loops skip the header row echoed as data and rows without a stage. */
  predicate StageSkipped(stream: string, stage: string) {
    (stream == "Value Stream" && stage == "Stage Gate") || stage == ""
  }

  /** `f"{value_stream}:{stage_num}"`, the GUPRI generator's de-duplication key. */
  function SeenKey(stream: string, stage: string): string { stream + ":" + stage }

  /** The label of a stage: its description, or `Stage <number>` when there is none. */
  function StageTitle(desc: string, stage: string): string {
    if desc != "" then desc else "Stage " + stage
  }

  // ---------------------------------------------------------------------
  // `read_csv_second_row_headers`: the second CSV row holds the headers.
  // ---------------------------------------------------------------------

  /** `(r + [""] * n)[:n]`: padded with empty cells or truncated to `n` cells. */
  function Pad(r: seq<string>, n: nat): (p: seq<string>)
    ensures |p| == n
    ensures forall i :: 0 <= i < n ==> p[i] == if i < |r| then r[i] else ""
  {
    if |r| >= n then r[..n] else r + seq(n - |r|, _ => "")
  }

  /** `dict(zip(headers, vals))`: a later duplicate header wins. */
  function Zip(headers: seq<string>, vals: seq<string>): (row: Row)
    requires |vals| == |headers|
    ensures forall h :: h in row <==> h in headers
  {
    if headers == [] then map[]
    else
      var n := |headers| - 1;
      Zip(headers[..n], vals[..n])[headers[n] := vals[n]]
  }

  /** The value a header gets is the stripped cell under its last occurrence. */
  lemma {:induction false} ZipLastWins(headers: seq<string>, vals: seq<string>, k: nat)
    requires |vals| == |headers| && k < |headers|
    requires forall j :: k < j < |headers| ==> headers[j] != headers[k]
    ensures Zip(headers, vals)[headers[k]] == vals[k]
  {
    var n := |headers| - 1;
    if k < n {
      ZipLastWins(headers[..n], vals[..n], k);
    }
  }

  /** `{h: (v or "").strip() for h, v in zip(headers, row_vals)}` with the padded record. */
  function NormalizeRow(headers: seq<string>, r: seq<string>): Row {
    Zip(headers, StripAll(Pad(r, |headers|)))
  }

  function StripAll(cells: seq<string>): (r: seq<string>)
    ensures |r| == |cells| && forall i :: 0 <= i < |cells| ==> r[i] == Strip(cells[i])
  {
    if cells == [] then [] else [Strip(cells[0])] + StripAll(cells[1..])
  }

  /**
   * `read_csv_second_row_headers` over the parsed CSV records: fewer than two
   * records give no headers and no rows; otherwise the stripped second record
   * is the header list and every later record becomes one normalised row.
   */
  method ReadSecondRowHeaders(records: seq<seq<string>>) returns (headers: seq<string>, rows: seq<Row>)
    ensures |records| < 2 ==> headers == [] && rows == []
    ensures |records| >= 2 ==> headers == StripAll(records[1]) && |rows| == |records| - 2
    ensures forall i :: 0 <= i < |rows| ==> rows[i] == NormalizeRow(headers, records[i + 2])
  {
    if |records| < 2 {
      return [], [];
    }
    headers := StripAll(records[1]);
    rows := [];
    var i := 2;
    while i < |records|
      invariant 2 <= i <= |records|
      invariant |rows| == i - 2
      invariant forall k :: 0 <= k < |rows| ==> rows[k] == NormalizeRow(headers, records[k + 2])
    {
      rows := rows + [NormalizeRow(headers, records[i])];
      i := i + 1;
    }
  }

  /** Every normalised row has exactly the header keys; a header's cell is its stripped, padded value. */
  lemma NormalizedRowShape(headers: seq<string>, r: seq<string>, k: nat)
    requires k < |headers| && forall j :: k < j < |headers| ==> headers[j] != headers[k]
    ensures forall h :: h in NormalizeRow(headers, r) <==> h in headers
    ensures NormalizeRow(headers, r)[headers[k]] == if k < |r| then Strip(r[k]) else ""
  {
    ZipLastWins(headers, StripAll(Pad(r, |headers|)), k);
  }
}
