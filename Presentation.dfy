/**
  `renderTable`: what the table area shows. Either one of the fixed
  placeholder messages, or a table with one header row and body rows of
  editable cells, each holding the text of one grid value.
*/
module Presentation {
  import opened Json
  import opened Normalizer

  /** The content of the table area. Only `Table` contains a `<table>` element. */
  datatype View =
    | NoPreview        // "No preview yet"
    | ReadyToConvert   // "Ready to convert."
    | ConversionFailed // "Please add a clear image or try again."
    | NoData           // "No table data extracted."
    | Table(header: seq<string>, body: seq<seq<string>>)

  /** The synthetic header label of text mode. */
  const ExtractedTextLabel := "Extracted Text"

  /** The texts of one row of cells. */
  function TextRow(row: seq<J>): (t: seq<string>)
    ensures |t| == |row|
  {
    seq(|row|, k requires 0 <= k < |row| => CellText(row[k]))
  }

  /** The texts of a whole grid, row by row. */
  function TextGrid(g: Grid): (t: seq<seq<string>>)
    ensures |t| == |g|
  {
    seq(|g|, i requires 0 <= i < |g| => TextRow(g[i]))
  }

  /** The view `renderTable(data)` leaves behind: "no data" for an empty grid;
      otherwise in table mode row 0 is the header and the rest the body, and in
      text mode the fixed label is the header and every row is body. */
  function Present(mode: Mode, data: Grid): (v: View)
    ensures v.Table? <==> |data| > 0
    ensures !v.Table? ==> v == NoData
    ensures mode == TableDetection && v.Table? ==> |v.header| == |data[0]| && |v.body| == |data| - 1
    ensures mode == PlainText && v.Table? ==> v.header == [ExtractedTextLabel] && |v.body| == |data|
  {
    if |data| == 0 then NoData
    else if mode == TableDetection then Table(TextRow(data[0]), TextGrid(data[1..]))
    else Table([ExtractedTextLabel], TextGrid(data))
  }

  /** An empty grid never produces a table, whatever the mode. */
  lemma PresentEmpty(mode: Mode, data: Grid)
    ensures Present(mode, data).Table? <==> |data| > 0
    ensures |data| == 0 ==> Present(mode, data) == NoData
  {
  }

  /** In table mode, header followed by body gives back the whole grid, so no row is lost or added. */
  lemma PresentTableReassembles(data: Grid)
    requires |data| > 0
    ensures Present(TableDetection, data).Table?
    ensures [Present(TableDetection, data).header] + Present(TableDetection, data).body == TextGrid(data)
  {
  }

  /** In text mode the header is the fixed label and the body is the whole grid. */
  lemma PresentTextWhole(data: Grid)
    requires |data| > 0
    ensures Present(PlainText, data) == Table([ExtractedTextLabel], TextGrid(data))
  {
  }

  /** Text mode on normalised lines shows the fixed label over one column whose
      i-th cell is line i, verbatim. */
  lemma PresentLines(lines: seq<string>)
    requires |lines| > 0
    ensures Present(PlainText, Column(lines)) ==
            Table([ExtractedTextLabel], seq(|lines|, i requires 0 <= i < |lines| => [lines[i]]))
  {
    var body := Present(PlainText, Column(lines)).body;
    var want := seq(|lines|, i requires 0 <= i < |lines| => [lines[i]]);
    forall i | 0 <= i < |lines| ensures body[i] == want[i] {
      assert Column(lines)[i] == [JStr(lines[i])];
      assert CellText(JStr(lines[i])) == JsToString(JStr(lines[i])) == lines[i];
      assert TextRow([JStr(lines[i])]) == [lines[i]];
    }
  }

  /** The nested loops of `renderTable`: a header cell per header value, then
      a row per body row with one cell per value. */
  method BuildTable(mode: Mode, data: Grid) returns (v: View)
    ensures v == Present(mode, data)
  {
    if |data| == 0 {
      return NoData;
    }
    var headers := if mode == TableDetection then data[0] else [JStr(ExtractedTextLabel)];
    var headerRow: seq<string> := [];
    var k := 0;
    while k < |headers|
      invariant 0 <= k <= |headers|
      invariant headerRow == TextRow(headers[..k])
    {
      headerRow := headerRow + [CellText(headers[k])];
      k := k + 1;
    }
    assert headers[..k] == headers;
    var dataRows := if mode == TableDetection then data[1..] else data;
    var body: seq<seq<string>> := [];
    var i := 0;
    while i < |dataRows|
      invariant 0 <= i <= |dataRows|
      invariant body == TextGrid(dataRows[..i])
    {
      var rowData := dataRows[i];
      var tr: seq<string> := [];
      var j := 0;
      while j < |rowData|
        invariant 0 <= j <= |rowData|
        invariant tr == TextRow(rowData[..j])
      {
        tr := tr + [CellText(rowData[j])];
        j := j + 1;
      }
      assert rowData[..j] == rowData;
      assert dataRows[..i + 1] == dataRows[..i] + [rowData];
      body := body + [tr];
      i := i + 1;
    }
    assert dataRows[..i] == dataRows;
    v := Table(headerRow, body);
  }
}
