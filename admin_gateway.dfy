/**
 * The administrative HTTP gateway (server/mcp-server.js).  Every operation
 * endpoint follows one pattern: read named fields of the request body (POST)
 * or query (GET), reject with 400 when a required one is missing, and either
 * broadcast a `command` message to every open WebSocket client and echo what
 * was sent, or (for reads) answer with a placeholder result.  The endpoints
 * are data here: one `Endpoint` record per route, interpreted by `Route`.
 */
module AdminGateway {
  import opened JsValue
  import opened RelayBroker

  const PlaceholderNote := "This endpoint requires server-side spreadsheet state access"

  datatype Verb = GET | POST

  /** A required field: `x === undefined` rejects (Defined) or `!x` rejects (Truthy). */
  datatype Check = Defined(field: string) | Truthy(field: string)

  /** How a params field is computed from the request field `source`. */
  datatype Shape =
    | AsIs
      /** a destructuring default: applies only when the field is `undefined` */
    | DefaultTo(fallback: Value)
      /** `[[x]]`, a one-cell grid */
    | Grid
      /** `parseInt(x)` */
    | ParsedInt

  datatype Field = Field(key: string, source: string, shape: Shape)

  datatype Action = Broadcast | Answer(placeholder: Value)

  /**
   * One route `/mcp/spreadsheet/<name>`.  `fields` is None for a read whose
   * response has no `params`; `missing` is the text of its 400 error.
   */
  datatype Endpoint = Endpoint(
    name: string, verb: Verb, command: string,
    checks: seq<Check>, missing: string,
    fields: Option<seq<Field>>, action: Action)

  /** The outcome of a handler, before any broadcast. */
  datatype Reply =
    | BadRequest(error: string)
      /** destructuring a `null` or absent body throws; the framework answers 500 */
    | Failed
    | Relay(command: string, params: Value)
    | Answered(body: Value)

  // ---------------------------------------------------------------- parseInt

  function DigitValue(c: char, radix: nat): Option<nat> {
    if '0' <= c <= '9' && (c as int - '0' as int) < radix then Some(c as int - '0' as int)
    else if radix == 16 && 'a' <= c <= 'f' then Some(c as int - 'a' as int + 10)
    else if radix == 16 && 'A' <= c <= 'F' then Some(c as int - 'A' as int + 10)
    else None
  }

  /** The length of the run of digits of `radix` that `s` starts with. */
  function DigitRun(s: string, radix: nat): (k: nat)
    ensures k <= |s|
    ensures forall i :: 0 <= i < k ==> DigitValue(s[i], radix).Some?
    ensures k < |s| ==> DigitValue(s[k], radix).None?
  {
    if s != [] && DigitValue(s[0], radix).Some? then 1 + DigitRun(s[1..], radix) else 0
  }

  /** The number the digits `s` of `radix` denote, most significant first. */
  function Digits(s: string, radix: nat): nat
    requires forall i :: 0 <= i < |s| ==> DigitValue(s[i], radix).Some?
  {
    if s == [] then 0 else Digits(s[..|s| - 1], radix) * radix + DigitValue(s[|s| - 1], radix).value
  }

  /**
   * `parseInt(x)` with no radix, as it appears in a JSON response: the
   * string form of `x`, leading white space skipped, an optional sign, a
   * `0x` prefix selecting hexadecimal, then the longest run of digits;
   * no digit at all is NaN, which serialises as `null`.
   */
  function ParseInt(x: Value): (r: Value)
    ensures r.Num? || r.Null?
  {
    ParseIntText(TrimStart(Display(x)))
  }

  /** `parseInt` on text with no leading white space. */
  function ParseIntText(s: string): (r: Value)
    ensures r.Num? || r.Null?
  {
    var negative := s != [] && s[0] == '-';
    var t := if s != [] && (s[0] == '-' || s[0] == '+') then s[1..] else s;
    ParseUnsigned(t, negative)
  }

  function ParseUnsigned(t: string, negative: bool): (r: Value)
    ensures r.Num? || r.Null?
  {
    var hex := |t| >= 2 && t[0] == '0' && (t[1] == 'x' || t[1] == 'X');
    var radix := if hex then 16 else 10;
    var u := if hex then t[2..] else t;
    var k := DigitRun(u, radix);
    if k == 0 then Null
    else
      var n: int := Digits(u[..k], radix);
      Num(if negative then -n else n)
  }

  lemma DigitValueOfDigitChar(d: nat)
    requires d < 10
    ensures DigitValue(DigitChar(d), 10) == Some(d)
  {
    assert DigitChar(d) as int == '0' as int + d;
  }

  lemma {:induction false} DigitsOfNatText(n: nat)
    ensures forall i :: 0 <= i < |NatText(n)| ==> DigitValue(NatText(n)[i], 10).Some?
    ensures Digits(NatText(n), 10) == n
  {
    var s := NatText(n);
    if n < 10 {
      DigitValueOfDigitChar(n);
      assert s == [DigitChar(n)];
      assert s[..0] == [];
    } else {
      DigitsOfNatText(n / 10);
      DigitValueOfDigitChar(n % 10);
      var init := NatText(n / 10);
      assert s == init + [DigitChar(n % 10)];
      assert s[..|s| - 1] == init;
      assert forall i :: 0 <= i < |s| ==> DigitValue(s[i], 10).Some? by {
        forall i | 0 <= i < |s|
          ensures DigitValue(s[i], 10).Some?
        {
          if i < |init| {
            assert s[i] == init[i];
          }
        }
      }
      assert Digits(s, 10) == Digits(init, 10) * 10 + n % 10;
    }
  }

  /** A number survives `parseInt(String(n))`: the gateway's integer fields keep numeric input intact. */
  lemma ParseIntOfNumber(n: int)
    ensures ParseInt(Num(n)) == Num(n)
  {
    var m: nat := if n < 0 then -n else n;
    assert Display(Num(n)) == SignedText(NatText(m), n < 0);
    ParseSignedText(NatText(m), n < 0);
    ParseDecimalText(m, n < 0);
  }

  /** Digits, preceded by a minus sign when `negative`. */
  function SignedText(digits: string, negative: bool): string {
    if negative then "-" + digits else digits
  }

  /** `parseInt` reads the sign of signed digit text and hands the digits on unchanged. */
  lemma {:induction false} ParseSignedText(digits: string, negative: bool)
    requires digits != [] && '0' <= digits[0] <= '9'
    ensures ParseIntText(TrimStart(SignedText(digits, negative))) == ParseUnsigned(digits, negative)
  {
    var s := SignedText(digits, negative);
    if negative {
      assert s[0] == '-' && s[1..] == digits;
      StartsWithoutSpace(s);
      assert ParseIntText(s) == ParseUnsigned(digits, true);
    } else {
      assert s == digits && s[0] != '-' && s[0] != '+';
      StartsWithoutSpace(s);
      assert ParseIntText(s) == ParseUnsigned(digits, false);
    }
  }

  lemma ParseDecimalText(m: nat, negative: bool)
    ensures ParseUnsigned(NatText(m), negative) == Num(if negative then -(m as int) else m as int)
  {
    DigitsOfNatText(m);
    ParseDigitText(NatText(m), negative);
  }

  /** Text made only of decimal digits parses to the number it denotes. */
  lemma {:induction false} ParseDigitText(t: string, negative: bool)
    requires t != [] && forall i :: 0 <= i < |t| ==> DigitValue(t[i], 10).Some?
    ensures ParseUnsigned(t, negative) == Num(if negative then -(Digits(t, 10) as int) else Digits(t, 10) as int)
  {
    DigitRunOfDigits(t, 10);
    assert !(|t| >= 2 && t[0] == '0' && (t[1] == 'x' || t[1] == 'X')) by {
      if |t| >= 2 {
        assert DigitValue(t[1], 10).Some?;
      }
    }
    var k := DigitRun(t, 10);
    assert k == |t|;
    assert t[..k] == t;
  }

  lemma {:induction false} DigitRunOfDigits(s: string, radix: nat)
    requires forall i :: 0 <= i < |s| ==> DigitValue(s[i], radix).Some?
    ensures DigitRun(s, radix) == |s|
  {
    if s != [] {
      DigitRunOfDigits(s[1..], radix);
    }
  }

  /** Text that does not start with a digit parses to NaN, i.e. `null` in the response. */
  lemma {:induction false} ParseIntOfWord(w: string)
    requires w != [] && 'a' <= w[0] <= 'z'
    ensures ParseInt(Str(w)) == Null
  {
    assert Display(Str(w)) == w;
    StartsWithoutSpace(w);
    UnsignedWord(w);
  }

  lemma {:induction false} StartsWithoutSpace(s: string)
    requires s != [] && !IsSpace(s[0])
    ensures TrimStart(s) == s
  {
  }

  /** A word is neither signed nor hexadecimal, and has no leading digit. */
  lemma {:induction false} UnsignedWord(w: string)
    requires w != [] && 'a' <= w[0] <= 'z'
    ensures ParseIntText(w) == Null
  {
    assert ParseIntText(w) == ParseUnsigned(w, false);
    assert DigitValue(w[0], 10).None?;
    assert DigitRun(w, 10) == 0;
  }

  // ---------------------------------------------------------------- handlers

  /** A params field; it is `undefined`, and so dropped from the JSON, only when the request lacks it. */
  function FieldValue(f: Field, input: Value): (r: Value)
    ensures r == Undefined ==> Get(input, f.source) == Undefined
    ensures Get(input, f.source) == Undefined && f.shape.DefaultTo? ==> r == f.shape.fallback
  {
    var v := Get(input, f.source);
    match f.shape
    case AsIs => v
    case DefaultTo(d) => if v == Undefined then d else v
    case Grid => Arr([Arr([v])])
    case ParsedInt => ParseInt(v)
  }

  function Assemble(fields: seq<Field>, input: Value): (m: map<string, Value>)
    ensures forall k :: k in m <==> exists f :: f in fields && f.key == k
  {
    if fields == [] then map[]
    else
      var f := fields[|fields| - 1];
      Assemble(fields[..|fields| - 1], input)[f.key := FieldValue(f, input)]
  }

  /**
   * The `params` object a handler builds (fields left `undefined` vanish in
   * JSON): an object holding only keys the route names, none of them
   * `undefined`, so nothing else in the request is forwarded.
   */
  function Params(fields: seq<Field>, input: Value): (r: Value)
    ensures r.Obj?
    ensures forall k :: k in r.fields ==> r.fields[k] != Undefined && exists f :: f in fields && f.key == k
  {
    Record(Assemble(fields, input))
  }

  /** The value of a key is that of the last field carrying it. */
  lemma {:induction false} AssembleAt(fields: seq<Field>, input: Value, j: nat)
    requires j < |fields|
    requires forall i :: j < i < |fields| ==> fields[i].key != fields[j].key
    ensures fields[j].key in Assemble(fields, input)
    ensures Assemble(fields, input)[fields[j].key] == FieldValue(fields[j], input)
  {
    if j < |fields| - 1 {
      AssembleAt(fields[..|fields| - 1], input, j);
    }
  }

  /** Guard `c` rejects `input`; an empty body fails every guard. */
  predicate Fails(c: Check, input: Value)
    ensures input == Obj(map[]) ==> Fails(c, input)
    ensures c.Defined? && Fails(c, input) ==> !JsValue.Truthy(Get(input, c.field))
  {
    match c
    case Defined(f) => Get(input, f) == Undefined
    case Truthy(f) => !JsValue.Truthy(Get(input, f))
  }

  /** The handler starts with `const { ... } = request.body` (or `request.query`). */
  predicate Destructures(e: Endpoint) {
    e.fields.Some? && e.fields.value != []
  }

  /** A read's answer: it reports no broadcast, and echoes `params` exactly when the route reads fields. */
  function ReadBody(e: Endpoint, input: Value, placeholder: Value): (r: Value)
    ensures r.Obj? && Get(r, "broadcastCount") == Undefined
    ensures Get(r, "params") != Undefined <==> e.fields.Some?
  {
    var base := map["success" := Bool(true), "command" := Str(e.command), "result" := placeholder,
                    "note" := Str(PlaceholderNote)];
    Record(if e.fields.Some? then base["params" := Params(e.fields.value, input)] else base)
  }

  /**
   * The handler of `e` on the request body or query `input`.  Only a
   * mutating route relays, and only its own command with a params object; a
   * read only answers; a 400 carries the route's text and happens exactly
   * when a check fails on a body that could be destructured; a 500 happens
   * only on a missing body.
   */
  function Route(e: Endpoint, input: Value): (r: Reply)
    ensures r.Relay? ==> e.action.Broadcast? && r.command == e.command && r.params.Obj?
    ensures r.Answered? ==> e.action.Answer?
    ensures r.Failed? ==> Destructures(e) && (input.Undefined? || input.Null?)
    ensures r.BadRequest? ==> r.error == e.missing
    ensures !r.Failed? ==> (r.BadRequest? <==> exists i :: 0 <= i < |e.checks| && Fails(e.checks[i], input))
  {
    if Destructures(e) && (input.Undefined? || input.Null?) then Failed
    else if exists i :: 0 <= i < |e.checks| && Fails(e.checks[i], input) then BadRequest(e.missing)
    else
      match e.action
      case Broadcast => Relay(e.command, Params(if e.fields.Some? then e.fields.value else [], input))
      case Answer(placeholder) => Answered(ReadBody(e, input, placeholder))
  }

  /** The success response of a mutating endpoint: success, the command and params sent, and the count reached. */
  function Acknowledge(command: string, params: Value, broadcastCount: nat): (r: Value)
    ensures Get(r, "success") == Bool(true) && Get(r, "broadcastCount") == Num(broadcastCount)
    ensures Get(r, "command") == Str(command) && Get(r, "params") == params
  {
    Record(map["success" := Bool(true), "command" := Str(command), "params" := params,
               "broadcastCount" := Num(broadcastCount)])
  }

  /**
   * `broadcastToWebSocketClients(message)`: one send per client whose state
   * is OPEN, no client excluded, and the number of sends.
   */
  method BroadcastToClients(b: Broker, message: ServerMsg) returns (out: seq<Effect>, broadcastCount: nat)
    ensures out == Deliveries(b.clients, b.open, None, message)
    ensures broadcastCount == |out| <= |b.clients|
    ensures forall c :: c in b.clients && c in b.open ==> Send(c, message) in out
    ensures forall e :: e in out ==> e.Send? && e.msg == message && e.to in b.open
    ensures NoDuplicates(b.clients) ==> broadcastCount == |ReachedSet(b.clients, b.open, None)|
  {
    out := [];
    broadcastCount := 0;
    var i := 0;
    while i < |b.clients|
      invariant 0 <= i <= |b.clients|
      invariant out == Deliveries(b.clients[..i], b.open, None, message)
      invariant broadcastCount == |out|
    {
      var client := b.clients[i];
      assert b.clients[..i + 1] == b.clients[..i] + [client];
      if client in b.open {
        out := out + [Send(client, message)];
        broadcastCount := broadcastCount + 1;
      }
      i := i + 1;
    }
    assert b.clients[..i] == b.clients;
    DeliveriesExactly(b.clients, b.open, None, message);
    if NoDuplicates(b.clients) {
      DeliveriesCount(b.clients, b.open, None, message);
    }
  }

  /**
   * A request to `e`: the status code, the response body, and the frames
   * written to WebSocket clients.  A mutating endpoint broadcasts the
   * command it built and answers with that same command and params and the
   * number of clients reached; a rejected request and a read send nothing.
   */
  method Serve(b: Broker, e: Endpoint, input: Value) returns (status: nat, body: Value, out: seq<Effect>)
    ensures Route(e, input).Relay? ==>
      var msg := McpCommand(e.command, Route(e, input).params);
      && status == 200
      && out == Deliveries(b.clients, b.open, None, msg)
      && body == Acknowledge(e.command, Route(e, input).params, |out|)
      && Get(body, "command") == Get(Encode(msg), "command")
      && Get(body, "params") == Get(Encode(msg), "params")
    ensures Route(e, input).BadRequest? ==>
      status == 400 && out == [] && body == Record(map["error" := Str(Route(e, input).error)])
    ensures Route(e, input).Failed? ==> status == 500 && out == []
    ensures Route(e, input).Answered? ==> status == 200 && out == [] && body == Route(e, input).body
  {
    var reply := Route(e, input);
    match reply
    case BadRequest(error) =>
      status, body, out := 400, Record(map["error" := Str(error)]), [];
    case Failed =>
      status, body, out := 500, Null, [];
    case Answered(answer) =>
      status, body, out := 200, answer, [];
    case Relay(command, params) =>
      var broadcastCount;
      out, broadcastCount := BroadcastToClients(b, McpCommand(command, params));
      status := 200;
      body := Acknowledge(command, params, broadcastCount);
      GatewayMessageShape(command, params);
  }

  /** `GET /mcp/spreadsheet/status`: the size of the client set. */
  function Status(b: Broker): (r: Value)
    reads b
    ensures Get(r, "connectedClients") == Num(|b.clients|) && Get(r, "status") == Str("active")
  {
    Record(map["status" := Str("active"), "connectedClients" := Num(|b.clients|)])
  }

  /** `GET /health`: the size of the client set and whether a WebSocket server was attached. */
  function Health(b: Broker, attached: bool): (r: Value)
    reads b
    ensures Get(Get(r, "websocket"), "connectedClients") == Num(|b.clients|)
    ensures Get(Get(r, "websocket"), "serverRunning") == Bool(attached)
  {
    Record(map["status" := Str("healthy"),
               "websocket" := Record(map["connectedClients" := Num(|b.clients|), "serverRunning" := Bool(attached)])])
  }

  // ---------------------------------------------------------------- the routes

  /** The field `k`, copied as it is. */
  function Plain(k: string): Field {
    Field(k, k, AsIs)
  }

  /** The field `k`, through `parseInt`. */
  function Numeric(k: string): Field {
    Field(k, k, ParsedInt)
  }

  function Mutation(name: string, command: string, checks: seq<Check>, missing: string, fields: seq<Field>): Endpoint {
    Endpoint(name, POST, command, checks, missing, Some(fields), Broadcast)
  }

  function Read(name: string, command: string, checks: seq<Check>, missing: string, fields: Option<seq<Field>>,
                placeholder: Value): Endpoint {
    Endpoint(name, GET, command, checks, missing, fields, Answer(placeholder))
  }

  const SheetIndexOrZero := Field("sheetIndex", "sheetIndex", DefaultTo(Num(0)))
  const NewLineOrCR := Field("newLine", "newLine", DefaultTo(Str("\r")))
  const DelimiterOrComma := Field("delimiter", "delimiter", DefaultTo(Str(",")))
  /** The fields of the three range reads: four `parseInt`ed coordinates and the sheet name. */
  const RangeFields := [Numeric("startRow"), Numeric("startCol"), Numeric("rowCount"), Numeric("colCount"), Plain("sheetName")]
  const RangeMissing := "Missing required parameters: startRow, startCol, rowCount, colCount"

  const SetCell := Mutation("set-cell", "setProcessedData", [Defined("row"), Defined("col"), Defined("value")],
    "Missing required parameters: row, col, value",
    [Plain("row"), Plain("col"), Field("values", "value", Grid), SheetIndexOrZero])
  const SetFormula := Mutation("set-formula", "setRawData", [Defined("row"), Defined("col"), Defined("formula")],
    "Missing required parameters: row, col, formula",
    [Plain("row"), Plain("col"), Field("formulas", "formula", Grid), SheetIndexOrZero])
  const AddSheet := Mutation("add-sheet", "addSheet", [], "", [Plain("sheetName")])
  const SetActiveSheet := Mutation("set-active-sheet", "setActiveSheetIndex", [Defined("sheetIndex")],
    "Missing required parameter: sheetIndex", [Plain("sheetIndex")])
  const ClearSheet := Mutation("clear-sheet", "clearSheets", [], "", [SheetIndexOrZero])
  const SetSheetJson := Mutation("set-sheet-json", "setSheetJSON", [Truthy("json")],
    "Missing required parameter: json", [Field("template", "json", AsIs), SheetIndexOrZero])
  const RemoveSheet := Mutation("remove-sheet", "removeSheet", [Defined("sheet")],
    "Missing required parameter: sheet", [Plain("sheet")])
  const SetActiveSheetIndex := Mutation("set-active-sheet-index", "setActiveSheetIndex", [Defined("index")],
    "Missing required parameter: index", [Plain("index")])
  const ClearSheets := Mutation("clear-sheets", "clearSheets", [], "", [])
  const SetSheetCsv := Mutation("set-sheet-csv", "setSheetCSV", [Truthy("csv")],
    "Missing required parameter: csv", [Plain("csv"), Plain("sheetName")])
  const GetSheetCsvOfRange := Read("get-sheet-csv-of-range", "getSheetCSVOfRange", [Defined("startRow"), Defined("startCol"), Defined("rowCount"), Defined("colCount")], RangeMissing,
    Some([Numeric("startRow"), Numeric("startCol"), Numeric("rowCount"), Numeric("colCount"), NewLineOrCR, DelimiterOrComma, Plain("sheetName")]), Str(""))
  const SetSheetCsvOfRange := Mutation("set-sheet-csv-of-range", "setSheetCSVOfRange",
    [Defined("startRow"), Defined("startCol"), Truthy("csv")], "Missing required parameters: startRow, startCol, csv",
    [Plain("startRow"), Plain("startCol"), Plain("csv"), NewLineOrCR, DelimiterOrComma, Plain("sheetName")])
  const SetProcessedData := Mutation("set-processed-data", "setProcessedData",
    [Defined("startRow"), Defined("startCol"), Truthy("values")], "Missing required parameters: startRow, startCol, values",
    [Plain("startRow"), Plain("startCol"), Plain("values"), Plain("sheetName")])
  const SetRawData := Mutation("set-raw-data", "setRawData",
    [Defined("startRow"), Defined("startCol"), Truthy("formulas")], "Missing required parameters: startRow, startCol, formulas",
    [Plain("startRow"), Plain("startCol"), Plain("formulas"), Plain("sheetName")])
  const SetStylesMerges := Mutation("set-styles-merges", "setStylesAndMerges", [Defined("startRow"), Defined("startCol"), Defined("rowCount"), Defined("colCount")], RangeMissing,
    [Plain("startRow"), Plain("startCol"), Plain("rowCount"), Plain("colCount"), Plain("styles"), Plain("merges"), Plain("sheetName")])
  const SetCharts := Mutation("set-charts", "setCharts", [], "", [Plain("chartsData"), Plain("sheetName")])
  const AddRows := Mutation("add-rows", "addRows", [Defined("row"), Defined("count")],
    "Missing required parameters: row, count", [Plain("row"), Plain("count"), Plain("sheetName")])
  const AddColumns := Mutation("add-columns", "addColumns", [Defined("col"), Defined("count")],
    "Missing required parameters: col, count", [Plain("col"), Plain("count"), Plain("sheetName")])
  const DeleteRows := Mutation("delete-rows", "deleteRows", [Defined("row"), Defined("count")],
    "Missing required parameters: row, count", [Plain("row"), Plain("count"), Plain("sheetName")])
  const DeleteColumns := Mutation("delete-columns", "deleteColumns", [Defined("col"), Defined("count")],
    "Missing required parameters: col, count", [Plain("col"), Plain("count"), Plain("sheetName")])
  const AutoFitRow := Mutation("auto-fit-row", "autoFitRow", [Defined("row")],
    "Missing required parameter: row", [Plain("row"), Plain("sheetName")])
  const AutoFitColumn := Mutation("auto-fit-column", "autoFitColumn", [Defined("col")],
    "Missing required parameter: col", [Plain("col"), Plain("sheetName")])
  const SetRowHeight := Mutation("set-row-height", "setRowHeight", [Defined("row"), Defined("height")],
    "Missing required parameters: row, height", [Plain("row"), Plain("height"), Plain("sheetName")])
  const SetColumnWidth := Mutation("set-column-width", "setColumnWidth", [Defined("col"), Defined("width")],
    "Missing required parameters: col, width", [Plain("col"), Plain("width"), Plain("sheetName")])
  const SetFormatter := Mutation("set-formatter", "setFormatter", [Defined("row"), Defined("col"), Defined("format")],
    "Missing required parameters: row, col, format", [Plain("row"), Plain("col"), Plain("format"), Plain("sheetName")])
  const CopyTo := Mutation("copy-to", "copyTo", [Defined("fromRow"), Defined("fromColumn"), Defined("toRow"), Defined("toColumn")],
    "Missing required parameters: fromRow, fromColumn, toRow, toColumn",
    [Plain("fromRow"), Plain("fromColumn"), Plain("toRow"), Plain("toColumn"), Plain("rowCount"), Plain("columnCount"), Plain("option"), Plain("sheetName")])
  const ResetMergingStatus := Mutation("reset-merging-status", "resetMergingStatus", [Defined("startRow"), Defined("startCol"), Defined("rowCount"), Defined("colCount")], RangeMissing,
    [Plain("startRow"), Plain("startCol"), Plain("rowCount"), Plain("colCount"), Plain("sheetName")])
  const GetSheetNames := Read("get-sheet-names", "getSheetNames", [], "", None, Arr([]))
  const GetSheetCount := Read("get-sheet-count", "getSheetCount", [], "", None, Num(0))
  const GetActiveSheet := Read("get-active-sheet", "getActiveSheet", [], "", None, Null)
  const GetActiveSheetIndex := Read("get-active-sheet-index", "getActiveSheetIndex", [], "", None, Num(0))
  const GetSheetJson := Read("get-sheet-json", "getSheetJSON", [], "", Some([Plain("sheetName")]), Null)
  const GetSheetCsv := Read("get-sheet-csv", "getSheetCSV", [], "", Some([Plain("sheetName")]), Str(""))
  const GetProcessedDataWholeSheet := Read("get-processed-data-whole-sheet", "getProcessedDataOfWholeSheet", [], "",
    Some([Plain("sheetName")]), Arr([]))
  const GetRawDataWholeSheet := Read("get-raw-data-whole-sheet", "getRawDataOfWholeSheet", [], "",
    Some([Plain("sheetName")]), Arr([]))
  const GetProcessedData := Read("get-processed-data", "getProcessedData", [Defined("startRow"), Defined("startCol"), Defined("rowCount"), Defined("colCount")], RangeMissing,
    Some(RangeFields), Arr([]))
  const GetRawData := Read("get-raw-data", "getRawData", [Defined("startRow"), Defined("startCol"), Defined("rowCount"), Defined("colCount")], RangeMissing,
    Some(RangeFields), Arr([]))
  const GetStylesMerges := Read("get-styles-merges", "getStylesAndMerges", [Defined("startRow"), Defined("startCol"), Defined("rowCount"), Defined("colCount")], RangeMissing,
    Some(RangeFields), Obj(map["styles" := Arr([]), "merges" := Arr([])]))
  const GetCharts := Read("get-charts", "getCharts", [], "", Some([Plain("sheetName")]), Arr([]))
  const GetFormatter := Read("get-formatter", "getFormatter", [Defined("row"), Defined("col")],
    "Missing required parameters: row, col", Some([Numeric("row"), Numeric("col"), Plain("sheetName")]), Null)

  // ---------------------------------------------------------------- the catalog

  /** A catalog parameter; the catalog writes an optional one with a trailing `?`. */
  datatype Param = Req(name: string) | Opt(name: string)

  /** An entry of `GET /mcp/spreadsheet/operations`. */
  datatype Operation = Operation(name: string, description: string, verb: Verb, params: seq<Param>)

  const GetSheetNamesEntry := Operation("get-sheet-names", "Get all sheet names",
    GET, [])
  const GetSheetCountEntry := Operation("get-sheet-count", "Get total number of sheets",
    GET, [])
  const GetActiveSheetEntry := Operation("get-active-sheet", "Get active sheet object",
    GET, [])
  const GetActiveSheetIndexEntry := Operation("get-active-sheet-index", "Get active sheet index",
    GET, [])
  const SetActiveSheetIndexEntry := Operation("set-active-sheet-index", "Set active sheet by index",
    POST, [Req("index")])
  const AddSheetEntry := Operation("add-sheet", "Add new sheet",
    POST, [Opt("sheetName")])
  const RemoveSheetEntry := Operation("remove-sheet", "Remove sheet",
    POST, [Req("sheet")])
  const ClearSheetsEntry := Operation("clear-sheets", "Clear all sheets",
    POST, [])
  const GetSheetJsonEntry := Operation("get-sheet-json", "Get sheet as JSON",
    GET, [Opt("sheetName")])
  const SetSheetJsonEntry := Operation("set-sheet-json", "Set sheet from JSON",
    POST, [Req("json"), Opt("sheetIndex")])
  const GetSheetCsvEntry := Operation("get-sheet-csv", "Get sheet as CSV",
    GET, [Opt("sheetName")])
  const SetSheetCsvEntry := Operation("set-sheet-csv", "Set sheet from CSV",
    POST, [Req("csv"), Opt("sheetName")])
  const GetSheetCsvOfRangeEntry := Operation("get-sheet-csv-of-range", "Get CSV data from a specific range",
    GET, [Req("startRow"), Req("startCol"), Req("rowCount"), Req("colCount"), Opt("newLine"), Opt("delimiter"), Opt("sheetName")])
  const SetSheetCsvOfRangeEntry := Operation("set-sheet-csv-of-range", "Set CSV data in a specific range",
    POST, [Req("startRow"), Req("startCol"), Req("csv"), Opt("newLine"), Opt("delimiter"), Opt("sheetName")])
  const GetProcessedDataWholeSheetEntry := Operation("get-processed-data-whole-sheet", "Get all processed data from sheet",
    GET, [Opt("sheetName")])
  const GetRawDataWholeSheetEntry := Operation("get-raw-data-whole-sheet", "Get all raw data (formulas) from sheet",
    GET, [Opt("sheetName")])
  const GetProcessedDataEntry := Operation("get-processed-data", "Get processed data from range",
    GET, [Req("startRow"), Req("startCol"), Req("rowCount"), Req("colCount"), Opt("sheetName")])
  const GetRawDataEntry := Operation("get-raw-data", "Get raw data (formulas) from range",
    GET, [Req("startRow"), Req("startCol"), Req("rowCount"), Req("colCount"), Opt("sheetName")])
  const SetProcessedDataEntry := Operation("set-processed-data", "Set processed data in range",
    POST, [Req("startRow"), Req("startCol"), Req("values"), Opt("sheetName")])
  const SetRawDataEntry := Operation("set-raw-data", "Set raw data (formulas) in range",
    POST, [Req("startRow"), Req("startCol"), Req("formulas"), Opt("sheetName")])
  const GetStylesMergesEntry := Operation("get-styles-merges", "Get styles and merges from range",
    GET, [Req("startRow"), Req("startCol"), Req("rowCount"), Req("colCount"), Opt("sheetName")])
  const SetStylesMergesEntry := Operation("set-styles-merges", "Set styles and merges in range",
    POST, [Req("startRow"), Req("startCol"), Req("rowCount"), Req("colCount"), Opt("styles"), Opt("merges"), Opt("sheetName")])
  const GetChartsEntry := Operation("get-charts", "Get charts from sheet",
    GET, [Opt("sheetName")])
  const SetChartsEntry := Operation("set-charts", "Set charts in sheet",
    POST, [Req("chartsData"), Opt("sheetName")])
  const AddRowsEntry := Operation("add-rows", "Add rows at position",
    POST, [Req("row"), Req("count"), Opt("sheetName")])
  const AddColumnsEntry := Operation("add-columns", "Add columns at position",
    POST, [Req("col"), Req("count"), Opt("sheetName")])
  const DeleteRowsEntry := Operation("delete-rows", "Delete rows from position",
    POST, [Req("row"), Req("count"), Opt("sheetName")])
  const DeleteColumnsEntry := Operation("delete-columns", "Delete columns from position",
    POST, [Req("col"), Req("count"), Opt("sheetName")])
  const AutoFitRowEntry := Operation("auto-fit-row", "Auto-fit row height",
    POST, [Req("row"), Opt("sheetName")])
  const AutoFitColumnEntry := Operation("auto-fit-column", "Auto-fit column width",
    POST, [Req("col"), Opt("sheetName")])
  const SetRowHeightEntry := Operation("set-row-height", "Set row height",
    POST, [Req("row"), Req("height"), Opt("sheetName")])
  const SetColumnWidthEntry := Operation("set-column-width", "Set column width",
    POST, [Req("col"), Req("width"), Opt("sheetName")])
  const GetFormatterEntry := Operation("get-formatter", "Get cell formatter",
    GET, [Req("row"), Req("col"), Opt("sheetName")])
  const SetFormatterEntry := Operation("set-formatter", "Set cell formatter",
    POST, [Req("row"), Req("col"), Req("format"), Opt("sheetName")])
  const CopyToEntry := Operation("copy-to", "Copy data from one range to another",
    POST, [Req("fromRow"), Req("fromColumn"), Req("toRow"), Req("toColumn"), Opt("rowCount"), Opt("columnCount"), Opt("option"), Opt("sheetName")])
  const ResetMergingStatusEntry := Operation("reset-merging-status", "Reset merging status in range",
    POST, [Req("startRow"), Req("startCol"), Req("rowCount"), Req("colCount"), Opt("sheetName")])
  const SetCellEntry := Operation("set-cell", "Set cell value (legacy)",
    POST, [Req("row"), Req("col"), Req("value"), Opt("sheetIndex")])
  const SetFormulaEntry := Operation("set-formula", "Set cell formula (legacy)",
    POST, [Req("row"), Req("col"), Req("formula"), Opt("sheetIndex")])
  const SetActiveSheetEntry := Operation("set-active-sheet", "Set active sheet (legacy)",
    POST, [Req("sheetIndex")])
  const ClearSheetEntry := Operation("clear-sheet", "Clear sheet data (legacy)",
    POST, [Opt("sheetIndex")])

  /** The body of `GET /mcp/spreadsheet/operations`. */
  const Catalog: seq<Operation> := [
    GetSheetNamesEntry, GetSheetCountEntry, GetActiveSheetEntry, GetActiveSheetIndexEntry,
    SetActiveSheetIndexEntry, AddSheetEntry, RemoveSheetEntry, ClearSheetsEntry, GetSheetJsonEntry,
    SetSheetJsonEntry, GetSheetCsvEntry, SetSheetCsvEntry, GetSheetCsvOfRangeEntry, SetSheetCsvOfRangeEntry,
    GetProcessedDataWholeSheetEntry, GetRawDataWholeSheetEntry, GetProcessedDataEntry, GetRawDataEntry,
    SetProcessedDataEntry, SetRawDataEntry, GetStylesMergesEntry, SetStylesMergesEntry, GetChartsEntry,
    SetChartsEntry, AddRowsEntry, AddColumnsEntry, DeleteRowsEntry, DeleteColumnsEntry, AutoFitRowEntry,
    AutoFitColumnEntry, SetRowHeightEntry, SetColumnWidthEntry, GetFormatterEntry, SetFormatterEntry,
    CopyToEntry, ResetMergingStatusEntry, SetCellEntry, SetFormulaEntry, SetActiveSheetEntry, ClearSheetEntry]

  /** The parameter as the catalog spells it. */
  function Spelling(p: Param): (r: string)
    ensures p.name != [] && p.name[|p.name| - 1] != '?' ==> |r| > 0 && (r[|r| - 1] == '?' <==> p.Opt?)
  {
    if p.Opt? then p.name + "?" else p.name
  }

  /** The names of the required parameters, in catalog order. */
  function Required(params: seq<Param>): (r: seq<string>)
    ensures |r| <= |params|
    ensures forall n :: n in r <==> Req(n) in params
  {
    if params == [] then [] else (if params[0].Opt? then [] else [params[0].name]) + Required(params[1..])
  }

  /**
   * The catalog marks `chartsData` as a required parameter of set-charts,
   * but the route validates nothing and broadcasts a request without it.
   */
  lemma SetChartsCatalogDisagrees()
    ensures SetChartsEntry.name == SetCharts.name && Required(SetChartsEntry.params) == ["chartsData"]
    ensures SetCharts.checks == []
    ensures Route(SetCharts, Obj(map[])) == Relay("setCharts", Obj(map[]))
  {
    assert Assemble(SetCharts.fields.value, Obj(map[])) == map["chartsData" := Undefined, "sheetName" := Undefined];
  }

  // ---------------------------------------------------------------- properties

  /** A route with a required field rejects an empty request with its 400 text, and so broadcasts nothing. */
  lemma EmptyRequestRejected(e: Endpoint)
    requires e.checks != []
    ensures Route(e, Obj(map[])) == BadRequest(e.missing)
  {
    assert Fails(e.checks[0], Obj(map[]));
  }

  /** A broadcasting route whose checks all pass relays its command with the params it builds. */
  lemma PassesChecks(e: Endpoint, input: Value)
    requires e.action.Broadcast? && e.fields.Some? && input.Obj?
    requires forall c :: c in e.checks ==> !Fails(c, input)
    ensures Route(e, input) == Relay(e.command, Params(e.fields.value, input))
  {
  }

  /** set-cell without row, col or value is rejected, naming all three. */
  lemma SetCellRequiresRowColValue(input: Value)
    requires input.Obj?
    requires Get(input, "row") == Undefined || Get(input, "col") == Undefined || Get(input, "value") == Undefined
    ensures Route(SetCell, input) == BadRequest("Missing required parameters: row, col, value")
  {
    if Get(input, "row") == Undefined {
      assert Fails(SetCell.checks[0], input);
    } else if Get(input, "col") == Undefined {
      assert Fails(SetCell.checks[1], input);
    } else {
      assert Fails(SetCell.checks[2], input);
    }
  }

  /** add-rows without row or count is rejected, naming both. */
  lemma AddRowsRequiresRowCount(input: Value)
    requires input.Obj?
    requires Get(input, "row") == Undefined || Get(input, "count") == Undefined
    ensures Route(AddRows, input) == BadRequest("Missing required parameters: row, count")
  {
    if Get(input, "row") == Undefined {
      assert Fails(AddRows.checks[0], input);
    } else {
      assert Fails(AddRows.checks[1], input);
    }
  }

  /**
   * A set-cell with row, col and value broadcasts `setProcessedData` with
   * the value as a one-cell grid at (row, col) and `sheetIndex` 0 unless
   * given; a falsy value such as 0 is accepted.
   */
  lemma SetCellBroadcastsOneCell(input: Value)
    requires input.Obj?
    requires Get(input, "row") != Undefined && Get(input, "col") != Undefined && Get(input, "value") != Undefined
    ensures Route(SetCell, input).Relay? && Route(SetCell, input).command == "setProcessedData"
    ensures var params := Route(SetCell, input).params;
      && Get(params, "row") == Get(input, "row")
      && Get(params, "col") == Get(input, "col")
      && Get(params, "values") == Arr([Arr([Get(input, "value")])])
      && Get(params, "sheetIndex") == (if Get(input, "sheetIndex") == Undefined then Num(0) else Get(input, "sheetIndex"))
  {
    PassesChecks(SetCell, input);
    SetCellParams(input);
  }

  lemma SetCellParams(input: Value)
    ensures var m := Assemble(SetCell.fields.value, input);
      && "row" in m && m["row"] == Get(input, "row")
      && "col" in m && m["col"] == Get(input, "col")
      && "values" in m && m["values"] == Arr([Arr([Get(input, "value")])])
      && "sheetIndex" in m && m["sheetIndex"] == (if Get(input, "sheetIndex") == Undefined then Num(0) else Get(input, "sheetIndex"))
  {
    var fields := SetCell.fields.value;
    AssembleAt(fields, input, 0);
    AssembleAt(fields, input, 1);
    AssembleAt(fields, input, 2);
    AssembleAt(fields, input, 3);
  }

  /**
   * The JSON, CSV and data-writing routes treat any falsy payload (0, "",
   * false, null) as missing, not only an absent one.
   */
  lemma FalsyPayloadRejected(input: Value)
    requires input.Obj?
    ensures !JsValue.Truthy(Get(input, "json")) ==> Route(SetSheetJson, input).BadRequest?
    ensures !JsValue.Truthy(Get(input, "csv")) ==>
      Route(SetSheetCsv, input).BadRequest? && Route(SetSheetCsvOfRange, input).BadRequest?
    ensures !JsValue.Truthy(Get(input, "values")) ==> Route(SetProcessedData, input).BadRequest?
    ensures !JsValue.Truthy(Get(input, "formulas")) ==> Route(SetRawData, input).BadRequest?
  {
    assert Fails(SetSheetJson.checks[0], input) <==> !JsValue.Truthy(Get(input, "json"));
    assert Fails(SetSheetCsv.checks[0], input) <==> !JsValue.Truthy(Get(input, "csv"));
    assert Fails(SetSheetCsvOfRange.checks[2], input) <==> !JsValue.Truthy(Get(input, "csv"));
    assert Fails(SetProcessedData.checks[2], input) <==> !JsValue.Truthy(Get(input, "values"));
    assert Fails(SetRawData.checks[2], input) <==> !JsValue.Truthy(Get(input, "formulas"));
  }

  /**
   * add-sheet, clear-sheet and set-charts validate nothing and broadcast
   * whatever object they receive; clear-sheets does not even read its body.
   */
  lemma UnvalidatedRoutesAlwaysBroadcast(input: Value)
    ensures !(input.Undefined? || input.Null?) ==>
      Route(AddSheet, input).Relay? && Route(ClearSheet, input).Relay? && Route(SetCharts, input).Relay?
    ensures Route(ClearSheets, input) == Relay("clearSheets", Obj(map[]))
  {
  }

  /** set-sheet-csv-of-range defaults `newLine` to "\r" and `delimiter` to ",", only when they are absent. */
  lemma CsvOfRangeDefaults(input: Value)
    requires Route(SetSheetCsvOfRange, input).Relay?
    ensures var params := Route(SetSheetCsvOfRange, input).params;
      && Get(params, "newLine") == (if Get(input, "newLine") == Undefined then Str("\r") else Get(input, "newLine"))
      && Get(params, "delimiter") == (if Get(input, "delimiter") == Undefined then Str(",") else Get(input, "delimiter"))
  {
    var fields := SetSheetCsvOfRange.fields.value;
    AssembleAt(fields, input, 3);
    AssembleAt(fields, input, 4);
  }

  /**
   * A read route never broadcasts; when it answers, the body reports
   * success with the route's command, its placeholder result and the note.
   */
  lemma ReadsNeverBroadcast(e: Endpoint, input: Value)
    requires e.action.Answer?
    ensures !Route(e, input).Relay?
    ensures Route(e, input).Answered? ==>
      var body := Route(e, input).body;
      && Get(body, "success") == Bool(true)
      && Get(body, "command") == Str(e.command)
      && Get(body, "result") == e.action.placeholder
      && Get(body, "note") == Str(PlaceholderNote)
  {
    if Route(e, input).Answered? {
      assert Route(e, input) == Answered(ReadBody(e, input, e.action.placeholder));
      ReadBodyReports(e, input, e.action.placeholder);
    }
  }

  lemma ReadBodyReports(e: Endpoint, input: Value, placeholder: Value)
    ensures var body := ReadBody(e, input, placeholder);
      && Get(body, "success") == Bool(true)
      && Get(body, "command") == Str(e.command)
      && Get(body, "result") == placeholder
      && Get(body, "note") == Str(PlaceholderNote)
  {
    var base := map["success" := Bool(true), "command" := Str(e.command), "result" := placeholder,
                    "note" := Str(PlaceholderNote)];
    var m := if e.fields.Some? then base["params" := Params(e.fields.value, input)] else base;
    assert ReadBody(e, input, placeholder) == Record(m);
    assert m["success"] == Bool(true) && m["command"] == Str(e.command);
    assert m["result"] == placeholder && m["note"] == Str(PlaceholderNote);
  }

  /** The range reads reject a query lacking startRow, startCol, rowCount or colCount. */
  lemma RangeReadsRejectMissing(input: Value)
    requires input.Obj?
    requires Get(input, "startRow") == Undefined || Get(input, "startCol") == Undefined ||
             Get(input, "rowCount") == Undefined || Get(input, "colCount") == Undefined
    ensures Route(GetProcessedData, input) == BadRequest(RangeMissing)
    ensures Route(GetRawData, input) == BadRequest(RangeMissing)
    ensures Route(GetStylesMerges, input) == BadRequest(RangeMissing)
    ensures Route(GetSheetCsvOfRange, input) == BadRequest(RangeMissing)
  {
    var k := if Get(input, "startRow") == Undefined then 0
             else if Get(input, "startCol") == Undefined then 1
             else if Get(input, "rowCount") == Undefined then 2 else 3;
    assert Fails(GetProcessedData.checks[k], input);
    assert Fails(GetRawData.checks[k], input);
    assert Fails(GetStylesMerges.checks[k], input);
    assert Fails(GetSheetCsvOfRange.checks[k], input);
  }

  /** A complete range query is answered, with `rowCount` and `colCount` passed through `parseInt`. */
  lemma RangeReadParsesCounts(input: Value)
    requires input.Obj?
    requires forall c :: c in GetProcessedData.checks ==> !Fails(c, input)
    ensures Route(GetProcessedData, input) == Answered(ReadBody(GetProcessedData, input, Arr([])))
    ensures var params := Get(Route(GetProcessedData, input).body, "params");
      Get(params, "rowCount") == ParseInt(Get(input, "rowCount")) &&
      Get(params, "colCount") == ParseInt(Get(input, "colCount"))
  {
    RangeReadAnswered(input);
    RangeReadEchoesParams(input);
    CountsParsed(input);
  }

  lemma RangeReadAnswered(input: Value)
    requires input.Obj?
    requires forall c :: c in GetProcessedData.checks ==> !Fails(c, input)
    ensures Route(GetProcessedData, input) == Answered(ReadBody(GetProcessedData, input, Arr([])))
  {
    assert !exists i :: 0 <= i < |GetProcessedData.checks| && Fails(GetProcessedData.checks[i], input);
  }

  lemma RangeReadEchoesParams(input: Value)
    ensures Get(ReadBody(GetProcessedData, input, Arr([])), "params") == Params(RangeFields, input)
  {
    ReadBodyParams(GetProcessedData, input, Arr([]));
  }

  /** A read that destructures its request echoes the params it built. */
  lemma ReadBodyParams(e: Endpoint, input: Value, placeholder: Value)
    requires e.fields.Some?
    ensures Get(ReadBody(e, input, placeholder), "params") == Params(e.fields.value, input)
  {
    var base := map["success" := Bool(true), "command" := Str(e.command), "result" := placeholder,
                    "note" := Str(PlaceholderNote)];
    var m := base["params" := Params(e.fields.value, input)];
    assert ReadBody(e, input, placeholder) == Record(m);
    assert Get(Record(m), "params") == m["params"];
  }

  lemma CountsParsed(input: Value)
    ensures Get(Params(RangeFields, input), "rowCount") == ParseInt(Get(input, "rowCount"))
    ensures Get(Params(RangeFields, input), "colCount") == ParseInt(Get(input, "colCount"))
  {
    RowCountParsed(input);
    ColCountParsed(input);
  }

  lemma RowCountParsed(input: Value)
    ensures Get(Params(RangeFields, input), "rowCount") == ParseInt(Get(input, "rowCount"))
  {
    var fs := RangeFields;
    assert fs[2] == Numeric("rowCount");
    assert fs[3].key == "colCount" && fs[4].key == "sheetName";
    assert "colCount"[0] != "rowCount"[0] && "sheetName"[0] != "rowCount"[0];
    ParamAt(fs, input, 2);
    NumericValue("rowCount", input);
  }

  lemma ColCountParsed(input: Value)
    ensures Get(Params(RangeFields, input), "colCount") == ParseInt(Get(input, "colCount"))
  {
    var fs := RangeFields;
    assert fs[3] == Numeric("colCount");
    assert fs[4].key == "sheetName";
    assert "sheetName"[0] != "colCount"[0];
    ParamAt(fs, input, 3);
    NumericValue("colCount", input);
  }

  lemma NumericValue(k: string, input: Value)
    ensures FieldValue(Numeric(k), input) == ParseInt(Get(input, k))
  {
  }

  /** A params field that no later field overrides holds the value its shape computes from the request. */
  lemma ParamAt(fields: seq<Field>, input: Value, j: nat)
    requires j < |fields|
    requires forall i :: j < i < |fields| ==> fields[i].key != fields[j].key
    ensures Get(Params(fields, input), fields[j].key) == FieldValue(fields[j], input)
  {
    AssembleAt(fields, input, j);
    var m := Assemble(fields, input);
    assert Get(Record(m), fields[j].key) == m[fields[j].key];
  }

  /** What the gateway broadcasts is a `command` tagged with `source: 'mcp'`, never a `requestId`. */
  lemma GatewayMessageShape(command: string, params: Value)
    ensures var m := Encode(McpCommand(command, params));
      Get(m, "type") == Str("command") && Get(m, "command") == Str(command) && Get(m, "params") == params &&
      Get(m, "source") == Str("mcp") && Get(m, "requestId") == Undefined
  {
  }
}
