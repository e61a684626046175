/**
  What `downloadExcel` hands to the spreadsheet library: the file name and
  the grid of the rendered table. The workbook encoding itself is the
  library's and is not modelled.
*/
module Spreadsheet {
  import opened Wrappers
  import opened Presentation

  const FallbackFilename := "converted_data.xlsx"
  const SheetName := "Sheet1"
  const NoDataText := "No data to download."

  /** The single-sheet workbook request: output name, sheet name, rows in display order. */
  datatype Workbook = Workbook(filename: string, sheet: string, rows: seq<seq<string>>)

  /** `name.split('.')[0]`: the longest prefix of `name` that holds no dot. */
  function BaseName(name: string): (b: string)
    ensures b <= name
    ensures '.' !in b
    ensures |b| < |name| ==> name[|b|] == '.'
  {
    if |name| == 0 || name[0] == '.' then "" else [name[0]] + BaseName(name[1..])
  }

  /** A name with no dot is its own base name; otherwise the base name stops at the first dot. */
  lemma BaseNameOfStem(stem: string, rest: string)
    requires '.' !in stem
    ensures BaseName(stem) == stem
    ensures BaseName(stem + "." + rest) == stem
  {
    var name := stem + "." + rest;
    assert name[|stem|] == '.';
    assert name[..|stem|] == stem;
  }

  /** The download name: the selected file's base name with ".xlsx", or the fallback when nothing is selected. */
  function ExportFilename(fileName: Option<string>): (f: string)
    ensures fileName.None? ==> f == FallbackFilename
    ensures fileName.Some? ==> f == BaseName(fileName.value) + ".xlsx"
  {
    match fileName
    case None => FallbackFilename
    case Some(name) => BaseName(name) + ".xlsx"
  }

  /** `table_to_book` on the rendered table: refused when no `<table>` is shown;
      otherwise the header row followed by the body rows, exactly as displayed. */
  function TableToBook(view: View, fileName: Option<string>): (r: Result<Workbook, string>)
    ensures r.Err? <==> !view.Table?
    ensures r.Err? ==> r.error == NoDataText
    ensures r.Ok? ==> |r.value.rows| == 1 + |view.body| && r.value.rows[0] == view.header
    ensures r.Ok? ==> forall i :: 0 <= i < |view.body| ==> r.value.rows[i + 1] == view.body[i]
    ensures r.Ok? ==> r.value.sheet == SheetName && r.value.filename == ExportFilename(fileName)
  {
    if !view.Table? then Err(NoDataText)
    else Ok(Workbook(ExportFilename(fileName), SheetName, [view.header] + view.body))
  }
}
