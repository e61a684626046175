/**
  The page's session: the selected file, `tableData`, what the table area
  shows, whether the download button is visible, the status line and the
  last toast. `State` is its value and the functions below are its
  transitions; `Session` holds the same fields and its methods are the
  script's event handlers, each proved to perform exactly one transition.
  A conversion runs as one step: the model does not interleave other events
  with the awaited request.
*/
module Workflow {
  import opened Wrappers
  import opened Json
  import opened Normalizer
  import opened Presentation
  import opened Spreadsheet

  /** The browser `File` as far as the script looks at it. */
  datatype ImageFile = ImageFile(name: string, mediaType: string)

  /** A toast: `Notice` is the green kind, `Alert` the red (`isError`) kind. */
  datatype Toast = Notice(text: string) | Alert(text: string)

  /** The multipart form sent to the backend: the file and the checkbox state as text. */
  datatype Request = Request(file: ImageFile, detectTable: string)

  datatype State = State(
    file: Option<ImageFile>,   // currentFile
    caption: string,           // the file-name label
    tableData: Grid,           // tableData
    view: View,                // the table area
    downloadVisible: bool,     // download button not hidden
    status: string,            // the status line
    toast: Option<Toast>)      // the toast last shown

  const InvalidFileText := "Please select a valid image file (JPG, PNG)."
  const NoImageText := "Please select an image first!"
  const SuccessText := "Conversion successful!"
  const DownloadedText := "Excel file downloaded!"
  const NoFileCaption := "No file selected"
  const IdleStatus := "Idle"
  const LoadingStatus := "Converting..."
  const ReadyStatus := "Ready"

  /** The page as `clearAll` leaves it; the initial page markup is taken to be the same. */
  const Initial := State(None, NoFileCaption, [], NoPreview, false, IdleStatus, None)

  /** `file && file.type.startsWith('image/')`. */
  predicate IsImage(f: Option<ImageFile>): (b: bool)
    ensures b ==> f.Some? && |f.value.mediaType| >= 6 && f.value.mediaType == "image/" + f.value.mediaType[6..]
  {
    f.Some? && "image/" <= f.value.mediaType
  }

  /** Exactly the media types of the form "image/<subtype>" are accepted, and a
      missing file is not. */
  lemma ImageTypes(name: string, subtype: string, other: string)
    requires |other| < 6 || other[..6] != "image/"
    ensures IsImage(Some(ImageFile(name, "image/" + subtype)))
    ensures !IsImage(Some(ImageFile(name, other)))
    ensures !IsImage(None)
  {
    assert ("image/" + subtype)[..6] == "image/";
  }

  /** What holds in every reachable state: a table is only on screen together
      with a selected file and a visible download button. */
  ghost predicate Inv(s: State) {
    s.view.Table? ==> s.file.Some? && s.downloadVisible
  }

  lemma InitialInv()
    ensures Inv(Initial) && !Initial.view.Table?
  {
  }

  /** `handleFileSelect`: a missing file or a non-image type only raises a
      toast; an image becomes the current file and clears the table area. */
  function Select(s: State, f: Option<ImageFile>): (t: State)
    ensures !IsImage(f) ==> t.toast == Some(Alert(InvalidFileText)) && t.(toast := s.toast) == s
    ensures IsImage(f) ==>
              t.file == f && t.caption == f.value.name && t.view == ReadyToConvert &&
              !t.downloadVisible && t.tableData == s.tableData && Inv(t)
    ensures IsImage(f) ==> t.status == s.status && t.toast == s.toast
    ensures Inv(s) ==> Inv(t)
  {
    if !IsImage(f) then s.(toast := Some(Alert(InvalidFileText)))
    else s.(file := f, caption := f.value.name, view := ReadyToConvert, downloadVisible := false)
  }

  /** `clearAll`: back to the idle page, whatever came before. */
  function Clear(s: State): (t: State)
    ensures t.file.None? && t.tableData == [] && t.view == NoPreview
    ensures !t.downloadVisible && t.status == IdleStatus && t.caption == NoFileCaption
    ensures t.toast == s.toast
    ensures Inv(t)
  {
    State(None, NoFileCaption, [], NoPreview, false, IdleStatus, s.toast)
  }

  /** Clearing twice leaves the page as clearing once does. */
  lemma ClearIdempotent(s: State)
    ensures Clear(Clear(s)) == Clear(s)
  {
  }

  /** The `detectTable` form field: the checkbox's boolean written as text. */
  function DetectTableField(mode: Mode): (f: string)
    ensures f == "true" <==> mode == TableDetection
    ensures f == "true" || f == "false"
  {
    if mode == TableDetection then "true" else "false"
  }

  /** The request the convert button sends, if any: none without a current file. */
  function RequestFor(s: State, mode: Mode): (r: Option<Request>)
    ensures r.None? <==> s.file.None?
    ensures r.Some? ==> r.value.file == s.file.value
    ensures r.Some? && mode == TableDetection ==> r.value.detectTable == "true"
    ensures r.Some? && mode == PlainText ==> r.value.detectTable == "false"
  {
    if s.file.None? then None else Some(Request(s.file.value, DetectTableField(mode)))
  }

  /** The convert click: the guard, then `convertImageToTable` run to completion
      on `reply`, with `parse` standing for `JSON.parse`. The status text set in
      either branch is overwritten by `setLoading(false)` in `finally`. */
  function Convert(s: State, mode: Mode, reply: Reply, parse: string -> Parsed): (t: State)
    ensures s.file.None? ==> t == s.(toast := Some(Alert(NoImageText)))
    ensures s.file.Some? && Outcome(mode, reply, parse).Ok? ==>
              t.tableData == Outcome(mode, reply, parse).value &&
              t.view == Present(mode, t.tableData) && t.downloadVisible &&
              t.toast == Some(Notice(SuccessText))
    ensures s.file.Some? && Outcome(mode, reply, parse).Err? ==>
              t.view == ConversionFailed && t.tableData == s.tableData &&
              t.downloadVisible == s.downloadVisible &&
              t.toast == Some(Alert("Try Again: " + Message(Outcome(mode, reply, parse).error)))
    ensures s.file.Some? ==> t.file == s.file && t.caption == s.caption && t.status == ReadyStatus
    ensures Inv(s) ==> Inv(t)
  {
    if s.file.None? then s.(toast := Some(Alert(NoImageText)))
    else
      match Outcome(mode, reply, parse)
      case Ok(g) =>
        s.(tableData := g, view := Present(mode, g), downloadVisible := true,
           toast := Some(Notice(SuccessText)), status := ReadyStatus)
      case Err(f) =>
        s.(view := ConversionFailed, toast := Some(Alert("Try Again: " + Message(f))),
           status := ReadyStatus)
  }

  /** A rendered body cell exists at row `r`, column `c`. Header cells are not editable. */
  predicate CanEdit(s: State, r: nat, c: nat) {
    s.view.Table? && r < |s.view.body| && c < |s.view.body[r]|
  }

  /** Typing into the `contentEditable` body cell (r, c): its text becomes `text`. */
  function Edit(s: State, r: nat, c: nat, text: string): (t: State)
    requires CanEdit(s, r, c)
    ensures t.view.Table? && t.view.header == s.view.header && |t.view.body| == |s.view.body|
    ensures forall i :: 0 <= i < |s.view.body| ==> |t.view.body[i]| == |s.view.body[i]|
    ensures t.view.body[r][c] == text
    ensures forall i, j :: 0 <= i < |s.view.body| && 0 <= j < |s.view.body[i]| && (i != r || j != c) ==>
              t.view.body[i][j] == s.view.body[i][j]
    ensures t.(view := s.view) == s
    ensures Inv(s) ==> Inv(t)
  {
    s.(view := s.view.(body := s.view.body[r := s.view.body[r][c := text]]))
  }

  function FileName(s: State): Option<string> {
    if s.file.Some? then Some(s.file.value.name) else None
  }

  /** What `downloadExcel` gives the spreadsheet library, or the reason it refuses. */
  function Export(s: State): (r: Result<Workbook, string>)
    ensures r.Err? <==> !s.view.Table?
    ensures r.Err? ==> r.error == NoDataText
    ensures r.Ok? ==> r.value.rows == [s.view.header] + s.view.body && r.value.sheet == SheetName
    ensures r.Ok? && s.file.Some? ==> r.value.filename == BaseName(s.file.value.name) + ".xlsx"
    ensures r.Ok? && s.file.None? ==> r.value.filename == FallbackFilename
  {
    TableToBook(s.view, FileName(s))
  }

  /** `downloadExcel`'s effect on the page: only a toast. */
  function Download(s: State): (t: State)
    ensures t.toast == Some(if Export(s).Ok? then Notice(DownloadedText) else Alert(NoDataText))
    ensures t.(toast := s.toast) == s
  {
    s.(toast := Some(if Export(s).Ok? then Notice(DownloadedText) else Alert(NoDataText)))
  }

  /** In a reachable state an export always names the file after the current
      image: the fallback name is never used. */
  lemma ExportUsesCurrentFile(s: State)
    requires Inv(s) && Export(s).Ok?
    ensures s.file.Some?
    ensures Export(s).value.filename == BaseName(s.file.value.name) + ".xlsx"
  {
  }

  /** A failed conversion leaves nothing to export, and publishes no grid. */
  lemma FailureLeavesNoExport(s: State, mode: Mode, reply: Reply, parse: string -> Parsed)
    requires s.file.Some? && Outcome(mode, reply, parse).Err?
    ensures Export(Convert(s, mode, reply, parse)) == Err(NoDataText)
    ensures Convert(s, mode, reply, parse).tableData == s.tableData
  {
  }

  /** A successful conversion of an empty grid shows the download button, yet
      there is no table and the export refuses. */
  lemma EmptySuccessRefusesExport(s: State, mode: Mode, reply: Reply, parse: string -> Parsed)
    requires s.file.Some? && Outcome(mode, reply, parse) == Ok([])
    ensures Convert(s, mode, reply, parse).downloadVisible
    ensures Convert(s, mode, reply, parse).view == NoData
    ensures Export(Convert(s, mode, reply, parse)) == Err(NoDataText)
  {
  }

  /** Right after a successful table-mode conversion the export holds the
      whole grid, header row first, as text. */
  lemma ExportAfterTableSuccess(s: State, reply: Reply, parse: string -> Parsed)
    requires s.file.Some?
    requires Outcome(TableDetection, reply, parse).Ok? && |Outcome(TableDetection, reply, parse).value| > 0
    ensures Export(Convert(s, TableDetection, reply, parse)) ==
            Ok(Workbook(BaseName(s.file.value.name) + ".xlsx", SheetName,
                        TextGrid(Outcome(TableDetection, reply, parse).value)))
  {
    PresentTableReassembles(Outcome(TableDetection, reply, parse).value);
  }

  /** Right after a successful text-mode conversion the export is the label
      row followed by one single-cell row per line. */
  lemma ExportAfterTextSuccess(s: State, reply: Reply, parse: string -> Parsed)
    requires s.file.Some?
    requires Outcome(PlainText, reply, parse).Ok? && |Outcome(PlainText, reply, parse).value| > 0
    ensures Export(Convert(s, PlainText, reply, parse)) ==
            Ok(Workbook(BaseName(s.file.value.name) + ".xlsx", SheetName,
                        [[ExtractedTextLabel]] + TextGrid(Outcome(PlainText, reply, parse).value)))
  {
  }

  /** The export reads the live table: editing body cell (r, c) changes that
      cell of the export, which is row r + 1 after the header, and no other. */
  lemma EditReachesExport(s: State, r: nat, c: nat, text: string)
    requires CanEdit(s, r, c)
    ensures Export(s).Ok? && Export(Edit(s, r, c, text)).Ok?
    ensures Export(Edit(s, r, c, text)).value.filename == Export(s).value.filename
    ensures |Export(Edit(s, r, c, text)).value.rows| == |Export(s).value.rows|
    ensures Export(Edit(s, r, c, text)).value.rows[r + 1][c] == text
    ensures forall i, j ::
              0 <= i < |Export(s).value.rows| && 0 <= j < |Export(s).value.rows[i]| && (i != r + 1 || j != c) ==>
              j < |Export(Edit(s, r, c, text)).value.rows[i]| &&
              Export(Edit(s, r, c, text)).value.rows[i][j] == Export(s).value.rows[i][j]
  {
  }

  const ScenarioPayload := "[[\"Name\",\"Age\"],[\"Ann\",\"30\"]]"
  const ScenarioGrid: Grid := [[JStr("Name"), JStr("Age")], [JStr("Ann"), JStr("30")]]

  /** The backend's success body `{"data": <payload>}`. */
  function ScenarioReply(): Reply {
    Response(true, 200, Value(JObj([("data", JStr(ScenarioPayload))])))
  }

  /** The state the scenario's conversion reaches. */
  function ScenarioConverted(file: ImageFile): State {
    State(Some(file), file.name, ScenarioGrid, Table(["Name", "Age"], [["Ann", "30"]]), true, ReadyStatus,
          Some(Notice(SuccessText)))
  }

  /** Selecting a JPEG and converting its table in table mode shows the first
      row as header and the second as body. */
  lemma ScenarioConvert(file: ImageFile, parse: string -> Parsed)
    requires file.mediaType == "image/jpeg"
    requires parse(ScenarioPayload) == Value(Rows(ScenarioGrid))
    ensures Convert(Select(Initial, Some(file)), TableDetection, ScenarioReply(), parse) == ScenarioConverted(file)
  {
    var result := JObj([("data", JStr(ScenarioPayload))]);
    assert Get(result, "data") == Some(JStr(ScenarioPayload));
    OutcomeTableSuccess(200, result, parse, ScenarioGrid);
    var g := ScenarioGrid;
    assert CellText(JStr("Name")) == "Name" && CellText(JStr("Age")) == "Age";
    assert CellText(JStr("Ann")) == "Ann" && CellText(JStr("30")) == "30";
    assert TextRow(g[0]) == ["Name", "Age"];
    assert TextRow(g[1]) == ["Ann", "30"];
    assert g[1..] == [g[1]];
    assert TextGrid(g[1..]) == [["Ann", "30"]];
  }

  /** Exporting that state, before and after an edit of body cell (0, 1). */
  lemma ScenarioExport(stem: string, ext: string)
    requires '.' !in stem
    ensures var converted := ScenarioConverted(ImageFile(stem + "." + ext, "image/jpeg"));
            && Export(converted) == Ok(Workbook(stem + ".xlsx", SheetName, [["Name", "Age"], ["Ann", "30"]]))
            && CanEdit(converted, 0, 1)
            && Export(Edit(converted, 0, 1, "31")) ==
               Ok(Workbook(stem + ".xlsx", SheetName, [["Name", "Age"], ["Ann", "31"]]))
  {
    BaseNameOfStem(stem, ext);
    var converted := ScenarioConverted(ImageFile(stem + "." + ext, "image/jpeg"));
    assert FileName(converted) == Some(stem + "." + ext);
    assert [["Name", "Age"]] + [["Ann", "30"]] == [["Name", "Age"], ["Ann", "30"]];
    var edited := Edit(converted, 0, 1, "31");
    assert ["Ann", "30"][1 := "31"] == ["Ann", "31"];
    assert [["Ann", "30"]][0 := ["Ann", "31"]] == [["Ann", "31"]];
    assert edited.view.body == [["Ann", "31"]];
    assert FileName(edited) == FileName(converted);
    assert [["Name", "Age"]] + [["Ann", "31"]] == [["Name", "Age"], ["Ann", "31"]];
  }

  /** The whole scenario: select "<stem>.<ext>", convert, edit, export. The
      export is named "<stem>.xlsx" and carries the live grid, edit included. */
  lemma ScenarioEndToEnd(stem: string, ext: string, parse: string -> Parsed)
    requires '.' !in stem
    requires parse(ScenarioPayload) == Value(Rows(ScenarioGrid))
    ensures var converted := Convert(Select(Initial, Some(ImageFile(stem + "." + ext, "image/jpeg"))),
                                     TableDetection, ScenarioReply(), parse);
            && converted.view == Table(["Name", "Age"], [["Ann", "30"]])
            && Export(converted) == Ok(Workbook(stem + ".xlsx", SheetName, [["Name", "Age"], ["Ann", "30"]]))
            && CanEdit(converted, 0, 1)
            && Export(Edit(converted, 0, 1, "31")) ==
               Ok(Workbook(stem + ".xlsx", SheetName, [["Name", "Age"], ["Ann", "31"]]))
  {
    ScenarioConvert(ImageFile(stem + "." + ext, "image/jpeg"), parse);
    ScenarioExport(stem, ext);
  }

  /** The page state and the script's event handlers. */
  class Session {
    var file: Option<ImageFile>
    var caption: string
    var tableData: Grid
    var view: View
    var downloadVisible: bool
    var status: string
    var toast: Option<Toast>

    function Snapshot(): State
      reads this
    {
      State(file, caption, tableData, view, downloadVisible, status, toast)
    }

    ghost predicate Valid()
      reads this
    {
      Inv(Snapshot())
    }

    constructor ()
      ensures Valid() && Snapshot() == Initial
    {
      file, caption, tableData := None, NoFileCaption, [];
      view, downloadVisible, status, toast := NoPreview, false, IdleStatus, None;
    }

    method HandleFileSelect(f: Option<ImageFile>)
      requires Valid()
      modifies this
      ensures Valid() && Snapshot() == Select(old(Snapshot()), f)
    {
      if f.None? || !("image/" <= f.value.mediaType) {
        toast := Some(Alert(InvalidFileText));
        return;
      }
      file := f;
      caption := f.value.name;
      view := ReadyToConvert;
      downloadVisible := false;
    }

    method ClearAll()
      modifies this
      ensures Valid() && Snapshot() == Clear(old(Snapshot()))
    {
      file := None;
      caption := NoFileCaption;
      view := NoPreview;
      downloadVisible := false;
      status := IdleStatus;
      tableData := [];
    }

    /** The convert button's click listener. */
    method ConvertClick(mode: Mode, reply: Reply, parse: string -> Parsed) returns (request: Option<Request>)
      requires Valid()
      modifies this
      ensures Valid()
      ensures request == RequestFor(old(Snapshot()), mode)
      ensures Snapshot() == Convert(old(Snapshot()), mode, reply, parse)
    {
      if file.None? {
        toast := Some(Alert(NoImageText));
        return None;
      }
      request := Some(Request(file.value, DetectTableField(mode)));
      ConvertImageToTable(mode, reply, parse);
    }

    /** `convertImageToTable`, with the reply to the request as input. */
    method ConvertImageToTable(mode: Mode, reply: Reply, parse: string -> Parsed)
      requires Valid() && file.Some?
      modifies this
      ensures Valid() && Snapshot() == Convert(old(Snapshot()), mode, reply, parse)
    {
      status := LoadingStatus;
      var outcome := Outcome(mode, reply, parse);
      match outcome {
        case Ok(g) =>
          tableData := g;
          RenderTable(mode, tableData);
          downloadVisible := true;
          toast := Some(Notice(SuccessText));
          status := "Preview Ready";
        case Err(f) =>
          toast := Some(Alert("Try Again: " + Message(f)));
          view := ConversionFailed;
          status := "Error";
      }
      status := ReadyStatus;
    }

    /** `renderTable`: only the table area changes. */
    method RenderTable(mode: Mode, data: Grid)
      modifies this`view
      ensures view == Present(mode, data)
    {
      view := BuildTable(mode, data);
    }

    /** An in-place edit of a rendered body cell. */
    method EditCell(r: nat, c: nat, text: string)
      requires Valid() && CanEdit(Snapshot(), r, c)
      modifies this`view
      ensures Valid() && Snapshot() == Edit(old(Snapshot()), r, c, text)
    {
      var row := view.body[r];
      view := view.(body := view.body[r := row[c := text]]);
    }

    /** `downloadExcel`: the workbook request, or the refusal, and its toast. */
    method DownloadExcel() returns (r: Result<Workbook, string>)
      requires Valid()
      modifies this`toast
      ensures Valid()
      ensures r == Export(old(Snapshot()))
      ensures Snapshot() == Download(old(Snapshot()))
    {
      if !view.Table? {
        toast := Some(Alert(NoDataText));
        return Err(NoDataText);
      }
      var filename := if file.Some? then BaseName(file.value.name) + ".xlsx" else FallbackFilename;
      r := Ok(Workbook(filename, SheetName, [view.header] + view.body));
      toast := Some(Notice(DownloadedText));
    }
  }
}
