/**
  What `convertImageToTable` does with the backend's reply before anything is
  drawn: read the HTTP status and JSON body, parse the `data` string a second
  time, and accept the value only in the shape the processing mode expects.
  The reply and the second parse are inputs: the network and `JSON.parse` are
  outside the model.
*/
module Normalizer {
  import opened Wrappers
  import opened Json

  /** The state of the "detect table" checkbox for one conversion cycle. */
  datatype Mode = TableDetection | PlainText

  /** The script's `tableData`: rows of parsed values, rows may differ in length. */
  type Grid = seq<seq<J>>

  /** Every way a conversion can end in the `catch` branch. */
  datatype Failure =
    | Platform(reason: string)   // `fetch` or `response.json()` rejected; the platform's message
    | NullBody(property: string) // the body was JSON `null`, so reading `result.<property>` threw
    | ServiceError(text: string) // the status was not ok
    | DataUnparseable            // `JSON.parse(result.data)` threw
    | NotArrayOfArrays           // table mode, wrong shape
    | NotArrayOfStrings          // text mode, wrong shape

  /** What came back from the request: no response at all, or a status and the
      outcome of parsing the body as JSON. */
  datatype Reply =
    | NetworkError(reason: string)
    | Response(ok: bool, status: int, body: Parsed)

  const ParseFailureText := "Could not parse the data from the image. The format was unexpected."
  const TableShapeText := "Expected a JSON array of arrays for the table data."
  const TextShapeText := "Expected a JSON array of strings for the text data."
  /** The TypeError text for reading a property of null, in Chromium's wording. */
  function NullBodyText(property: string): string {
    "Cannot read properties of null (reading '" + property + "')"
  }

  /** The `message` of the error that reaches the `catch` block: the platform's or
      the server's text where one is carried, a fixed text per failure otherwise. */
  function Message(f: Failure): (m: string)
    ensures f.Platform? ==> m == f.reason
    ensures f.ServiceError? ==> m == f.text
    ensures f.NullBody? ==> m == NullBodyText(f.property)
    ensures f == DataUnparseable ==> m == ParseFailureText
    ensures f == NotArrayOfArrays ==> m == TableShapeText
    ensures f == NotArrayOfStrings ==> m == TextShapeText
  {
    match f
    case Platform(reason) => reason
    case NullBody(property) => NullBodyText(property)
    case ServiceError(text) => text
    case DataUnparseable => ParseFailureText
    case NotArrayOfArrays => TableShapeText
    case NotArrayOfStrings => TextShapeText
  }

  /** `result.error || \`Server responded with status: ${status}\``, as the message of `new Error`. */
  function ServerMessage(result: J, status: int): (m: string)
    ensures Get(result, "error").Some? && Get(result, "error").value.JStr? && Get(result, "error").value.s != "" ==>
              m == Get(result, "error").value.s
    ensures Get(result, "error").Some? && Truthy(Get(result, "error").value) ==>
              m == JsToString(Get(result, "error").value)
    ensures (Get(result, "error").None? || !Truthy(Get(result, "error").value)) && status >= 0 ==>
              |m| > |StatusPrefix| && m[..|StatusPrefix|] == StatusPrefix &&
              CanonicalNumeral(m[|StatusPrefix|..]) && DecimalValue(m[|StatusPrefix|..]) == status
  {
    var e := Get(result, "error");
    assert (StatusPrefix + IntToDecimal(status))[|StatusPrefix|..] == IntToDecimal(status);
    if e.Some? && Truthy(e.value) then JsToString(e.value)
    else StatusPrefix + IntToDecimal(status)
  }

  const StatusPrefix := "Server responded with status: "

  /** The canonical JSON form of a grid: an array whose every element is an array. */
  function Rows(g: Grid): J {
    JArr(seq(|g|, i requires 0 <= i < |g| => JArr(g[i])))
  }

  /** The canonical JSON form of a list of text lines: an array of strings. */
  function Lines(lines: seq<string>): J {
    JArr(seq(|lines|, i requires 0 <= i < |lines| => JStr(lines[i])))
  }

  /** `lines.map(line => [line])`: one single-cell row per line. */
  function Column(lines: seq<string>): (g: Grid)
    ensures |g| == |lines| && Canonical(PlainText, g)
    ensures forall i :: 0 <= i < |g| ==> g[i][0].s == lines[i]
  {
    seq(|lines|, i requires 0 <= i < |lines| => [JStr(lines[i])])
  }

  /** A grid in the shape the mode publishes: text mode has one string cell per row. */
  predicate Canonical(mode: Mode, g: Grid) {
    mode == PlainText ==> forall i :: 0 <= i < |g| ==> |g[i]| == 1 && g[i][0].JStr?
  }

  /** The shape check on the parsed data. In table mode the value is kept as it
      is; in text mode each string is wrapped into a row of its own. */
  function Normalize(mode: Mode, v: J): (r: Result<Grid, Failure>)
    ensures mode == TableDetection && r.Ok? ==> Rows(r.value) == v
    ensures mode == TableDetection && r.Err? ==> r.error == NotArrayOfArrays
    ensures mode == PlainText && r.Ok? ==>
              exists lines :: Lines(lines) == v && r.value == Column(lines)
    ensures mode == PlainText && r.Err? ==> r.error == NotArrayOfStrings
    ensures r.Ok? ==> Canonical(mode, r.value)
  {
    match mode
    case TableDetection =>
      if v.JArr? && forall i :: 0 <= i < |v.items| ==> v.items[i].JArr? then
        var g := seq(|v.items|, i requires 0 <= i < |v.items| => v.items[i].items);
        assert Rows(g).items == v.items;
        Ok(g)
      else Err(NotArrayOfArrays)
    case PlainText =>
      if v.JArr? && forall i :: 0 <= i < |v.items| ==> v.items[i].JStr? then
        var lines := seq(|v.items|, i requires 0 <= i < |v.items| => v.items[i].s);
        assert Lines(lines).items == v.items;
        Ok(Column(lines))
      else Err(NotArrayOfStrings)
  }

  /** Table mode accepts every array of arrays and returns exactly its rows:
      same order, same per-row lengths, ragged rows kept. */
  lemma NormalizeTableComplete(g: Grid)
    ensures Normalize(TableDetection, Rows(g)) == Ok(g)
  {
    var r := Normalize(TableDetection, Rows(g));
    assert forall i :: 0 <= i < |Rows(g).items| ==> Rows(g).items[i] == JArr(g[i]);
    assert r.Ok?;
    RowsInjective(r.value, g);
  }

  lemma RowsInjective(g: Grid, h: Grid)
    requires Rows(g) == Rows(h)
    ensures g == h
  {
    assert |g| == |Rows(g).items| == |Rows(h).items| == |h|;
    forall i | 0 <= i < |g| ensures g[i] == h[i] {
      assert Rows(g).items[i] == JArr(g[i]);
      assert Rows(h).items[i] == JArr(h[i]);
    }
  }

  /** Text mode accepts every array of strings and returns one row `[s]` per string, in order. */
  lemma NormalizeTextComplete(lines: seq<string>)
    ensures Normalize(PlainText, Lines(lines)) == Ok(Column(lines))
  {
    var r := Normalize(PlainText, Lines(lines));
    assert forall i :: 0 <= i < |Lines(lines).items| ==> Lines(lines).items[i] == JStr(lines[i]);
    assert r.Ok?;
    var other :| Lines(other) == Lines(lines) && r.value == Column(other);
    LinesInjective(other, lines);
  }

  lemma LinesInjective(a: seq<string>, b: seq<string>)
    requires Lines(a) == Lines(b)
    ensures a == b
  {
    assert |a| == |Lines(a).items| == |Lines(b).items| == |b|;
    forall i | 0 <= i < |a| ensures a[i] == b[i] {
      assert Lines(a).items[i] == JStr(a[i]);
      assert Lines(b).items[i] == JStr(b[i]);
    }
  }

  /** An array of strings is not a table: table mode refuses any non-empty one. */
  lemma TableModeRejectsLines(lines: seq<string>)
    requires |lines| > 0
    ensures Normalize(TableDetection, Lines(lines)) == Err(NotArrayOfArrays)
  {
    assert Lines(lines).items[0] == JStr(lines[0]);
  }

  /** An array of arrays is not a list of lines: text mode refuses any non-empty one. */
  lemma TextModeRejectsRows(g: Grid)
    requires |g| > 0
    ensures Normalize(PlainText, Rows(g)) == Err(NotArrayOfStrings)
  {
    assert Rows(g).items[0] == JArr(g[0]);
  }

  /** The `data` field of an ok body, as the text `JSON.parse` receives. */
  function DataText(result: J): (t: Option<string>)
    ensures t.Some? <==> Get(result, "data").Some?
    ensures t.Some? ==> t.value == JsToString(Get(result, "data").value)
  {
    match Get(result, "data")
    case None => None
    case Some(d) => Some(JsToString(d))
  }

  /** The whole `try` block up to the shape check: status, body, second parse, shape. */
  function Outcome(mode: Mode, reply: Reply, parse: string -> Parsed): (r: Result<Grid, Failure>)
    ensures r.Ok? ==> reply.Response? && reply.ok && reply.body.Value?
    ensures r.Ok? ==> DataText(reply.body.value).Some? && parse(DataText(reply.body.value).value).Value?
    ensures mode == TableDetection && r.Ok? ==>
              parse(DataText(reply.body.value).value) == Value(Rows(r.value))
    ensures mode == PlainText && r.Ok? ==>
              exists lines :: parse(DataText(reply.body.value).value) == Value(Lines(lines)) &&
                              r.value == Column(lines)
    ensures r.Ok? ==> Canonical(mode, r.value)
    ensures reply.Response? && !reply.ok ==> r.Err?
    ensures r.Err? && r.error.ServiceError? ==>
              reply.Response? && reply.body.Value? &&
              r.error.text == ServerMessage(reply.body.value, reply.status)
  {
    match reply
    case NetworkError(reason) => Err(Platform(reason))
    case Response(ok, status, body) =>
      match body
      case Malformed(reason) => Err(Platform(reason))
      case Value(result) =>
        if result.JNull? then
          // `result.error` (not ok) or `result.data` (ok) of null throws. In the ok
          // case the inner catch reads `result.data` again for its log line, so
          // that second TypeError is the one that escapes.
          Err(NullBody(if ok then "data" else "error"))
        else if !ok then Err(ServiceError(ServerMessage(result, status)))
        else
          // JSON.parse(undefined) always throws, so a missing `data` is unparseable.
          match DataText(result)
          case None => Err(DataUnparseable)
          case Some(text) =>
            match parse(text)
            case Malformed(_) => Err(DataUnparseable)
            case Value(v) => Normalize(mode, v)
  }

  /** An ok reply whose `data` parses as an array of arrays yields exactly that grid in table mode. */
  lemma OutcomeTableSuccess(status: int, result: J, parse: string -> Parsed, g: Grid)
    requires Get(result, "data").Some?
    requires parse(JsToString(Get(result, "data").value)) == Value(Rows(g))
    ensures Outcome(TableDetection, Response(true, status, Value(result)), parse) == Ok(g)
  {
    NormalizeTableComplete(g);
  }

  /** An ok reply whose `data` parses as an array of strings yields one row per line in text mode. */
  lemma OutcomeTextSuccess(status: int, result: J, parse: string -> Parsed, lines: seq<string>)
    requires Get(result, "data").Some?
    requires parse(JsToString(Get(result, "data").value)) == Value(Lines(lines))
    ensures Outcome(PlainText, Response(true, status, Value(result)), parse) == Ok(Column(lines))
  {
    NormalizeTextComplete(lines);
  }

  /** A reply whose status is not ok fails with the server's message, even when
      its `data` would have been valid, in either mode. */
  lemma NonOkReplyFails(mode: Mode, status: int, result: J, parse: string -> Parsed)
    requires !result.JNull?
    ensures Outcome(mode, Response(false, status, Value(result)), parse) ==
            Err(ServiceError(ServerMessage(result, status)))
  {
  }

  /** A missing `data` field, or one that does not parse, fails in either mode
      with the fixed parse message. */
  lemma UnparseableDataFails(mode: Mode, status: int, result: J, parse: string -> Parsed)
    requires !result.JNull?
    requires Get(result, "data").None? || parse(JsToString(Get(result, "data").value)).Malformed?
    ensures Outcome(mode, Response(true, status, Value(result)), parse) == Err(DataUnparseable)
  {
  }

  /** An ok reply whose body is JSON `null` fails with the TypeError of reading
      its `data`, not with the fixed parse message. */
  lemma NullOkBodyFails(mode: Mode, status: int, parse: string -> Parsed)
    ensures Outcome(mode, Response(true, status, Value(JNull)), parse) == Err(NullBody("data"))
    ensures Message(NullBody("data")) == "Cannot read properties of null (reading 'data')"
  {
  }
}
