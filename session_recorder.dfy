/**
 * The session recorder hook: an append-only buffer of one row per accepted packet, and
 * its CSV export (a fixed header, then one comma-joined line per row, without quoting).
 */
module SessionRecorder {
  import opened Wrappers
  import opened JsText
  import opened EegTypes

  /** One recorded packet; focusLabel 0 Unfocused, 1 Focused, -1 no model. */
  datatype CsvRow = CsvRow(
    timestamp: string,
    delta: int, theta: int, lowAlpha: int, highAlpha: int,
    lowBeta: int, highBeta: int, lowGamma: int, midGamma: int,
    attention: int, meditation: int, poorSignalLevel: int,
    focusLabel: int, focusPrediction: string)

  /** The header's column names, one per field of a row. */
  const HeaderColumns: seq<string> := [
    "timestamp", "delta", "theta", "lowAlpha", "highAlpha", "lowBeta", "highBeta",
    "lowGamma", "midGamma", "attention", "meditation", "poorSignalLevel",
    "focusLabel", "focusPrediction"]

  /** The header line: the column names joined by commas. */
  const CsvHeader: string := Join(HeaderColumns, ',')

  /** The label and its name when no prediction is available. */
  const NoLabel: int := -1
  const NoLabelName: string := "N/A"

  /** The row `record` builds from a raw packet, an optional prediction and the time of recording. */
  function NewRow(timestamp: string, raw: TgcBandData, prediction: Option<FocusPrediction>): (row: CsvRow)
    ensures row.timestamp == timestamp
    ensures [row.delta, row.theta, row.lowAlpha, row.highAlpha, row.lowBeta, row.highBeta,
             row.lowGamma, row.midGamma] ==
            [raw.delta, raw.theta, raw.lowAlpha, raw.highAlpha, raw.lowBeta, raw.highBeta,
             raw.lowGamma, raw.midGamma]
    ensures row.attention == raw.attention && row.meditation == raw.meditation
    ensures row.poorSignalLevel == raw.poorSignalLevel
    ensures prediction.None? ==> row.focusLabel == -1 && row.focusPrediction == "N/A"
    ensures prediction.Some? ==>
      row.focusLabel == prediction.value.labelId && row.focusPrediction == prediction.value.labelName
  {
    CsvRow(
      timestamp,
      raw.delta, raw.theta, raw.lowAlpha, raw.highAlpha,
      raw.lowBeta, raw.highBeta, raw.lowGamma, raw.midGamma,
      raw.attention, raw.meditation, raw.poorSignalLevel,
      if prediction.Some? then prediction.value.labelId else NoLabel,
      if prediction.Some? then prediction.value.labelName else NoLabelName)
  }

  /** A row's fields as text, in header order (numbers as `String(n)` prints them). */
  function RowFields(r: CsvRow): (fields: seq<string>)
    ensures |fields| == 14
  {
    [r.timestamp,
     IntToString(r.delta), IntToString(r.theta), IntToString(r.lowAlpha), IntToString(r.highAlpha),
     IntToString(r.lowBeta), IntToString(r.highBeta), IntToString(r.lowGamma), IntToString(r.midGamma),
     IntToString(r.attention), IntToString(r.meditation), IntToString(r.poorSignalLevel),
     IntToString(r.focusLabel),
     r.focusPrediction]
  }

  /** rowToLine. */
  function RowToLine(r: CsvRow): string {
    Join(RowFields(r), ',')
  }

  /** `rows.map(rowToLine)`. */
  function RowLines(rows: seq<CsvRow>): (lines: seq<string>)
    ensures |lines| == |rows|
  {
    seq(|rows|, i requires 0 <= i < |rows| => RowToLine(rows[i]))
  }

  /** buildCsv, over the recorder's buffer. */
  function BuildCsv(rows: seq<CsvRow>): string {
    Join([CsvHeader] + RowLines(rows), '\n')
  }

  /** Neither text field holds a comma: the fields stay apart when the line is split. */
  predicate CommaFree(r: CsvRow) {
    Free(r.timestamp, {','}) && Free(r.focusPrediction, {','})
  }

  /** Neither text field holds a line break: the row stays on one line of the export. */
  predicate SingleLine(r: CsvRow) {
    Free(r.timestamp, {'\n'}) && Free(r.focusPrediction, {'\n'})
  }

  lemma NumbersArePlain(i: int, seps: set<char>)
    requires seps <= {',', '\n'}
    ensures Free(IntToString(i), seps)
  {
  }

  lemma ColumnsArePlain()
    ensures forall k :: 0 <= k < |HeaderColumns| ==> Free(HeaderColumns[k], {',', '\n'})
  {
  }

  lemma HeaderSplitsIntoColumns()
    ensures Free(CsvHeader, {'\n'})
    ensures Split(CsvHeader, {','}) == HeaderColumns
    ensures |HeaderColumns| == 14
  {
    ColumnsArePlain();
    SplitJoinFree(HeaderColumns, ',');
    JoinFree(HeaderColumns, ',', {'\n'});
  }

  /** Every field but the label name is free of the separators when the timestamp is. */
  lemma LeadingFieldsPlain(r: CsvRow, seps: set<char>)
    requires seps <= {',', '\n'} && Free(r.timestamp, seps)
    ensures forall k :: 0 <= k < 13 ==> Free(RowFields(r)[k], seps)
  {
    NumbersArePlain(r.delta, seps);
    NumbersArePlain(r.theta, seps);
    NumbersArePlain(r.lowAlpha, seps);
    NumbersArePlain(r.highAlpha, seps);
    NumbersArePlain(r.lowBeta, seps);
    NumbersArePlain(r.highBeta, seps);
    NumbersArePlain(r.lowGamma, seps);
    NumbersArePlain(r.midGamma, seps);
    NumbersArePlain(r.attention, seps);
    NumbersArePlain(r.meditation, seps);
    NumbersArePlain(r.poorSignalLevel, seps);
    NumbersArePlain(r.focusLabel, seps);
  }

  /** A comma-free row's line splits back into its 14 fields, in header order. */
  lemma {:induction false} RowLineFields(r: CsvRow)
    requires CommaFree(r)
    ensures Split(RowToLine(r), {','}) == RowFields(r)
    ensures |Split(RowToLine(r), {','})| == |Split(CsvHeader, {','})| == 14
  {
    var fields := RowFields(r);
    LeadingFieldsPlain(r, {','});
    SplitJoinFree(fields, ',');
    HeaderSplitsIntoColumns();
  }

  lemma RowLineIsSingleLine(r: CsvRow)
    requires SingleLine(r)
    ensures Free(RowToLine(r), {'\n'})
  {
    var fields := RowFields(r);
    LeadingFieldsPlain(r, {'\n'});
    JoinFree(fields, ',', {'\n'});
  }

  lemma {:induction false} JoinFree(parts: seq<string>, sep: char, seps: set<char>)
    requires sep !in seps
    requires forall k :: 0 <= k < |parts| ==> Free(parts[k], seps)
    ensures Free(Join(parts, sep), seps)
  {
    if |parts| > 1 {
      JoinFree(parts[1..], sep, seps);
    }
  }

  /** With single-line rows the export has the header, then one line per row in insertion order: N rows, N + 1 lines. */
  lemma {:induction false} CsvLines(rows: seq<CsvRow>)
    requires forall i :: 0 <= i < |rows| ==> SingleLine(rows[i])
    ensures Split(BuildCsv(rows), {'\n'}) == [CsvHeader] + RowLines(rows)
    ensures |Split(BuildCsv(rows), {'\n'})| == |rows| + 1
  {
    forall i | 0 <= i < |rows|
      ensures Free(RowLines(rows)[i], {'\n'})
    {
      RowLineIsSingleLine(rows[i]);
    }
    HeaderSplitsIntoColumns();
    LinesSplit(CsvHeader, RowLines(rows));
  }

  lemma LinesSplit(header: string, lines: seq<string>)
    requires Free(header, {'\n'})
    requires forall i :: 0 <= i < |lines| ==> Free(lines[i], {'\n'})
    ensures Split(Join([header] + lines, '\n'), {'\n'}) == [header] + lines
  {
    var all := [header] + lines;
    forall k | 0 <= k < |all|
      ensures Free(all[k], {'\n'})
    {
      if k > 0 {
        assert all[k] == lines[k - 1];
      }
    }
    SplitJoinFree(all, '\n');
  }

  /** Without quoting, a comma inside the label name adds a field: the line no longer matches the header. */
  lemma {:induction false} CommaInLabelNameShiftsColumns(r: CsvRow, before: string, after: string)
    requires Free(r.timestamp, {','})
    requires Free(before, {','}) && Free(after, {','}) && r.focusPrediction == before + [','] + after
    ensures |Split(RowToLine(r), {','})| == 15
  {
    var fields := RowFields(r);
    LeadingFieldsPlain(r, {','});
    SplitJoin(fields, ',', {','});
    SplitAfterSeparator(before, ',', after, {','});
    SplitOfFree(after, {','});
  }

  class Recorder {
    /** `rowsRef.current`. */
    var rows: seq<CsvRow>
    var rowCount: nat

    ghost predicate Valid()
      reads this
    {
      rowCount == |rows|
    }

    constructor ()
      ensures Valid() && rows == []
    {
      rows := [];
      rowCount := 0;
    }

    /** record: one row appended at the end, earlier rows untouched. */
    method Record(raw: TgcBandData, prediction: Option<FocusPrediction>, timestamp: string)
      requires Valid()
      modifies this
      ensures Valid()
      ensures rows == old(rows) + [NewRow(timestamp, raw, prediction)]
      ensures rowCount == old(rowCount) + 1
    {
      rows := rows + [NewRow(timestamp, raw, prediction)];
      rowCount := |rows|;
    }

    /** clear: an empty buffer and a zero count. */
    method Clear()
      modifies this
      ensures Valid() && rows == [] && rowCount == 0
    {
      rows := [];
      rowCount := 0;
    }
  }

  /**
   * Three packets, only the first with a prediction: three rows in arrival order, the
   * last two labelled "no model"; clearing twice leaves an empty buffer.
   */
  method RecordScenario(p0: TgcBandData, p1: TgcBandData, p2: TgcBandData,
                        prediction: FocusPrediction, t0: string, t1: string, t2: string)
    returns (count: nat, labels: seq<int>, names: seq<string>, times: seq<string>, countAfterClears: nat)
    ensures count == 3 && countAfterClears == 0
    ensures labels == [prediction.labelId, -1, -1]
    ensures names == [prediction.labelName, "N/A", "N/A"]
    ensures times == [t0, t1, t2]
  {
    var recorder := new Recorder();
    recorder.Record(p0, Some(prediction), t0);
    recorder.Record(p1, None, t1);
    recorder.Record(p2, None, t2);
    count := recorder.rowCount;
    var rows := recorder.rows;
    labels := [rows[0].focusLabel, rows[1].focusLabel, rows[2].focusLabel];
    names := [rows[0].focusPrediction, rows[1].focusPrediction, rows[2].focusPrediction];
    times := [rows[0].timestamp, rows[1].timestamp, rows[2].timestamp];
    recorder.Clear();
    recorder.Clear();
    countAfterClears := recorder.rowCount;
  }
}
