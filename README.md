# jpg-2-excel page script, modelled in Dafny

The page script `script.js` runs in the browser. It holds the selected image. It sends the image to a conversion
backend together with the "detect table" checkbox. It turns the JSON reply into a grid, shows the grid as an
editable HTML table, and hands the table to a spreadsheet library. This project models that pipeline and
proves what it does.

- `Json.dfy`: the parsed JSON value `J`. Also the two ways the script turns a value into text: JavaScript's
  ToString, and the `textContent` setter, under which null reads as `""`.
- `Normalizer.dfy`: the body of `convertImageToTable` up to the shape check. It covers the
  status test, the `error` message, the second parse of `data`, and the mode-dependent shape rule
  (`Normalize`, `Outcome`).
- `Presentation.dfy`: `renderTable`. It has the pure header/body split `Present` and the nested loops
  `BuildTable`, which are proved to produce it.
- `Spreadsheet.dfy`: `downloadExcel`'s file name (`split('.')[0]` plus `.xlsx`) and the grid it exports.
- `Workflow.dfy`: the page state as a value `State` and one transition function per handler.
  It also has the invariant they keep, lemmas relating several steps, and the class `Session`. The class
  holds the same state in fields, and each of its methods is proved to perform exactly its transition.

Assumptions the model makes explicit:
- The checkbox is read three times in the source (lines 104, 127 and 167). Here it is one `Mode` parameter
  per conversion, so all three reads are assumed to agree.
- A conversion is one step. The reply and the outcome of `JSON.parse` are inputs: `reply: Reply`, and
  `parse: string -> Parsed` standing for `JSON.parse`. `JSON.parse(undefined)` always throws, so a
  missing `data` field fails without consulting `parse`.
- The body is parsed before `response.ok` is read. So a body that is not JSON fails with the
  platform's parse message, whatever the status.
- The failure branch replaces the table but keeps `tableData`. It also leaves the download button as it was.
- After either branch, `setLoading(false)` in `finally` sets the status line to "Ready". This overwrites
  "Preview Ready" and "Error", and the model keeps it that way.
- Ragged rows are kept. Table mode keeps the parsed values themselves, and each cell's text is produced only
  when it is rendered.
- A successful conversion of an empty array shows the "no data" message and still shows the download
  button. The export then refuses (`EmptySuccessRefusesExport`).
- A JSON `null` body with an ok status fails with the TypeError of reading `result.data`. The inner
  `catch` reads `result.data` again for its log line, so that error escapes instead of the fixed parse
  message (`NullOkBodyFails`).

## Model

| member | source | states |
|---|---|---|
| `Json.Get` | script.js:114-121 | a property read finds a value only on an object holding that key, and it is the value of the last field with that key; otherwise there is none |
| `Json.JsToString` | script.js:116 | ToString: null is "null", booleans "true"/"false", a string itself, an integer its canonical decimal numeral (digits only, no leading zero, after a "-" for a negative number, reading back as the same number), an object "[object Object]", an empty array "", a one-element array the text of its element |
| `Json.CellText` | script.js:177-192 | the text a cell shows: "" for null, otherwise ToString of the value |
| `Json.Truthy` | script.js:116 | a parsed value is falsy exactly when it is null, false, 0 or the empty string |
| `Json.NatToDecimal` | script.js:116 | the numeral of a natural number is non-empty, all digits, with no leading zero |
| `Json.IntToDecimal` | script.js:116 | `String(n)` of an integer: the canonical numeral of n, or "-" then the canonical numeral of -n, reading back as the number |
| `Json.DecimalRoundTrip` | script.js:116 | the decimal numeral written for the HTTP status reads back as the same number |
| `Json.CanonicalRoundTrip` | script.js:116 | a canonical numeral is exactly the one written for its value, so no other text denotes that number |
| `Json.Join` | script.js:177-192 | array ToString: an empty array gives "", a one-element array the text of its element |
| `Json.JoinFront` | script.js:177-192 | joining gives the first cell's text, a comma, then the rest joined |
| `Json.JoinAppend` | script.js:177-192 | joining two non-empty parts gives the two joins with one comma between |
| `Normalizer.Message` | script.js:150 | the toast's message: the platform's or server's text where carried, the null-read TypeError text, or the fixed text of each shape or parse failure |
| `Normalizer.ServerMessage` | script.js:114-117 | a non-empty string `error` is the message itself; any truthy `error` gives its ToString; otherwise the message starts with "Server responded with status: " and the rest is the canonical numeral of the status |
| `Normalizer.Column` | script.js:137 | one row per line, each a single string cell holding that line |
| `Normalizer.DataText` | script.js:121 | the text `JSON.parse` receives: present exactly when the body has `data`, and then the ToString of that value |
| `Normalizer.Normalize` | script.js:127-141 | table mode succeeds only on an array of arrays and returns exactly its rows; text mode succeeds only on an array of strings and returns one single-string row per line; failures carry the mode's shape error |
| `Normalizer.NormalizeTableComplete` | script.js:129-134 | every array of arrays is accepted in table mode and yields the same rows, same order, same lengths (ragged kept) |
| `Normalizer.NormalizeTextComplete` | script.js:135-140 | every array of strings is accepted in text mode and yields row i = [line i] |
| `Normalizer.TableModeRejectsLines` | script.js:129-134 | a non-empty array of strings fails in table mode |
| `Normalizer.TextModeRejectsRows` | script.js:135-140 | a non-empty array of arrays fails in text mode |
| `Normalizer.Outcome` | script.js:106-141 | success needs an ok status, a JSON body and a `data` field that parses; in table mode the grid is exactly the parsed array of arrays, in text mode it is one row per string of the parsed array; a non-ok status always fails; a service error carries the server message |
| `Normalizer.OutcomeTableSuccess` | script.js:112-134 | an ok reply whose `data` parses to an array of arrays yields that grid |
| `Normalizer.OutcomeTextSuccess` | script.js:112-140 | an ok reply whose `data` parses to an array of strings yields one row per line |
| `Normalizer.NonOkReplyFails` | script.js:112-117 | a non-ok status fails with the server message even when `data` is valid, in either mode |
| `Normalizer.UnparseableDataFails` | script.js:119-125 | for a non-null body, a missing or unparseable `data` fails with the fixed parse message in either mode |
| `Normalizer.NullOkBodyFails` | script.js:119-124 | an ok reply whose body is `null` fails with "Cannot read properties of null (reading 'data')" |
| `Presentation.Present` | script.js:159-203 | the "no data" state exactly for an empty grid; otherwise in table mode a header as long as row 0 and one body row fewer than the grid, in text mode the "Extracted Text" header and one body row per grid row |
| `Presentation.PresentEmpty` | script.js:159-163 | a table is rendered exactly when the grid is non-empty; an empty grid gives the "no data" state |
| `Presentation.PresentTableReassembles` | script.js:172-185 | in table mode, header row followed by body rows is the whole grid |
| `Presentation.PresentTextWhole` | script.js:172-185 | in text mode the header is "Extracted Text" and the body is the whole grid |
| `Presentation.PresentLines` | script.js:172-198 | text mode on normalised lines shows the "Extracted Text" header over one column whose i-th cell is line i |
| `Presentation.BuildTable` | script.js:159-203 | the nested loops build exactly the presented view |
| `Spreadsheet.BaseName` | script.js:213 | the result is the longest dot-free prefix of the name |
| `Spreadsheet.BaseNameOfStem` | script.js:213 | a dot-free stem is its own base name, and "stem.rest" has base name "stem" |
| `Spreadsheet.ExportFilename` | script.js:213 | "<base name>.xlsx" for a selected file, "converted_data.xlsx" without one |
| `Spreadsheet.TableToBook` | script.js:206-217 | refused with "No data to download." exactly when no table is shown; otherwise sheet "Sheet1", header row then body rows as displayed |
| `Workflow.IsImage` | script.js:43 | an accepted selection is a file whose type is "image/" followed by a subtype |
| `Workflow.ImageTypes` | script.js:43 | every "image/<subtype>" type is accepted; any type not starting with "image/", and a missing file, are refused |
| `Workflow.InitialInv` | script.js:13-14 | the starting page satisfies the invariant and shows no table |
| `Workflow.Select` | script.js:42-58 | no file or a non-image type changes only the toast, leaving file, table area, download button and data; an image becomes the current file, the table is removed and download hidden, while data, status and toast stay; the invariant is kept |
| `Workflow.Clear` | script.js:60-69 | no file, empty data, no table, download hidden, status "Idle", from any state |
| `Workflow.ClearIdempotent` | script.js:60-69 | clearing twice equals clearing once |
| `Workflow.DetectTableField` | script.js:104 | the form field is "true" exactly in table mode, and "false" otherwise |
| `Workflow.RequestFor` | script.js:88-104 | no request without a current file; otherwise the current file, with `detectTable` "true" in table mode and "false" in text mode |
| `Workflow.Convert` | script.js:88-156 | without a file only a warning toast changes; a success publishes the grid, renders it and shows download; a failure removes the table, keeps `tableData` and download visibility and toasts the message; the invariant is kept |
| `Workflow.Edit` | script.js:193 | editing body cell (r, c) sets that cell's text and changes no other cell, row length, header or field |
| `Workflow.Export` | script.js:206-217 | refused with "No data to download." exactly when no table is shown; otherwise the header row then the body rows on "Sheet1", named after the current file's base name or the fallback |
| `Workflow.Download` | script.js:206-221 | downloading changes only the toast: success or "No data to download." |
| `Workflow.ExportUsesCurrentFile` | script.js:213 | in a reachable state an export always uses the current file's base name, never the fallback |
| `Workflow.FailureLeavesNoExport` | script.js:148-152 | after any failure the export reports "No data to download." and `tableData` is unchanged |
| `Workflow.EmptySuccessRefusesExport` | script.js:143-163 | an empty successful result shows download yet has no table, and the export refuses |
| `Workflow.ExportAfterTableSuccess` | script.js:143-217 | after a table-mode success the export holds the whole grid as text, named after the file |
| `Workflow.ExportAfterTextSuccess` | script.js:143-217 | after a text-mode success the export is the label row followed by the lines |
| `Workflow.EditReachesExport` | script.js:189-217 | an edit of body cell (r, c) changes export cell (r + 1, c) and nothing else, filename included |
| `Workflow.ScenarioConvert` | script.js:98-203 | selecting a JPEG and converting `[["Name","Age"],["Ann","30"]]` shows header Name, Age and body Ann, 30 |
| `Workflow.ScenarioExport` | script.js:206-217 | that table exports as "<stem>.xlsx" with both rows, and with the edited cell after an edit |
| `Workflow.ScenarioEndToEnd` | script.js:42-217 | select, convert, edit and export in sequence give the edited grid under the image's base name |
| `Workflow.Session.constructor` | script.js:13-14 | the session starts with no file, no data and no table |
| `Workflow.Session.HandleFileSelect` | script.js:42-58 | performs `Select` on the fields and keeps the invariant |
| `Workflow.Session.ClearAll` | script.js:60-69 | performs `Clear` on the fields |
| `Workflow.Session.ConvertClick` | script.js:88-94 | returns the request `RequestFor` gives, and performs `Convert` |
| `Workflow.Session.ConvertImageToTable` | script.js:98-156 | performs `Convert` for a session that has a file |
| `Workflow.Session.RenderTable` | script.js:159-203 | sets the table area to `Present(mode, data)` and nothing else |
| `Workflow.Session.EditCell` | script.js:193 | performs `Edit` on the shown table in place |
| `Workflow.Session.DownloadExcel` | script.js:206-221 | returns `Export` of the current state and performs `Download` |

## Left out

- Styling, toast timers and the spinner (script.js:17-40) are not modelled. A toast is recorded as its text and kind only.
- Drag-and-drop and the listener wiring (script.js:72-95) are not modelled, because they only forward to the handlers above.
- `fetch`, `FormData` and the network are inputs, not behaviour. The model takes a `Reply` and returns the `Request` it would send.
- Image bytes and the `FileReader` preview (script.js:50-54) are left out. The preview placeholder and the file input reset in `clearAll` are left out too: they are display only.
- `JSON.parse` and `response.json()` are foreign. Their outcomes are the `parse` parameter and the `Parsed` reply body.
- Platform error texts: for a network failure or a non-JSON body, the text is carried in from the input. For reading `error` or `data` of a null body, the model uses Chromium's TypeError wording.
- The spreadsheet library (`table_to_book`, `writeFile`) is not modelled. The model stops at the file name, the sheet name and the text grid. The library's typing of numeric-looking cells is not modelled, and neither is the file encoding.
- Concurrency is not modelled: the `await`, the disabled button, and events arriving while a request is pending. `clearAll` or a new selection during the wait would let a late reply render a table for no file, or for another file. `Inv` and `ExportUsesCurrentFile` hold only under one-step conversion.
- Numbers are integers. JavaScript's formatting of fractions and exponents is not modelled.
- JsToString: a parsed object always gives "[object Object]". In the source, an object with a `toString` key of any value makes ToString throw a TypeError ("Cannot convert object to primitive value" in V8, Chrome's JavaScript engine), because a parsed value cannot be called. This happens when such an object is a table cell, is nested in an array cell, or is the body's `error` field, where `ServerMessage` then gives "[object Object]" instead of that TypeError's message. It is not modelled.
- The initial markup of the page is not part of this model. The starting state is taken to be the one `clearAll` produces.
- The text written by `console.error` is left out. The second read of `result.data` in the inner catch is modelled, because it changes the error shown.
- Editing replaces a cell's whole text. Markup typed into an editable cell is not modelled.
- main.py, the backend, is not part of this model.
