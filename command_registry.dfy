/**
 * The browser's command registry (the `useSpreadsheetCommands` hook): a
 * fixed table from command name to a handler that forwards chosen fields of
 * `params`, by position, to the spreadsheet function of the same name, and
 * `executeCommand`, which turns every outcome, thrown or returned, into a
 * result record.
 *
 * The spreadsheet functions the page supplies are a parameter: a map from
 * name to a function of the forwarded arguments, whose outcome is a value or
 * a thrown error.  A name missing from that map is a function the page did
 * not supply.
 */
module CommandRegistry {
  import opened JsValue

  /** A command: its name (also the name of the spreadsheet function it calls) and the fields it forwards. */
  datatype Handler = Handler(name: string, forwards: seq<string>)

  datatype Outcome = Ok(value: Value) | Throw(message: string)

  type Backing = map<string, seq<Value> -> Outcome>

  const GetSheetNamesCommand := Handler("getSheetNames", [])
  const GetSheetCountCommand := Handler("getSheetCount", [])
  const GetActiveSheetCommand := Handler("getActiveSheet", [])
  const GetActiveSheetIndexCommand := Handler("getActiveSheetIndex", [])
  const SetActiveSheetIndexCommand := Handler("setActiveSheetIndex", ["index"])
  const AddSheetCommand := Handler("addSheet", ["sheetName", "atIndex"])
  const RemoveSheetCommand := Handler("removeSheet", ["sheet"])
  const ClearSheetsCommand := Handler("clearSheets", [])
  const GetSheetJsonCommand := Handler("getSheetJSON", ["sheetName"])
  const SetSheetJsonCommand := Handler("setSheetJSON", ["json", "sheetName"])
  const GetSheetCsvCommand := Handler("getSheetCSV", ["sheetName"])
  const SetSheetCsvCommand := Handler("setSheetCSV", ["csv", "sheetName"])
  const GetSheetCsvOfRangeCommand :=
    Handler("getSheetCSVOfRange", ["startRow", "startCol", "rowCount", "colCount", "newLine", "delimiter", "sheetName"])
  const SetSheetCsvOfRangeCommand :=
    Handler("setSheetCSVOfRange", ["startRow", "startCol", "csv", "newLine", "delimiter", "sheetName"])
  const GetProcessedDataOfWholeSheetCommand := Handler("getProcessedDataOfWholeSheet", ["sheetName"])
  const GetRawDataOfWholeSheetCommand := Handler("getRawDataOfWholeSheet", ["sheetName"])
  const GetProcessedDataCommand :=
    Handler("getProcessedData", ["startRow", "startCol", "rowCount", "colCount", "sheetName"])
  const GetRawDataCommand :=
    Handler("getRawData", ["startRow", "startCol", "rowCount", "colCount", "sheetName"])
  const SetProcessedDataCommand :=
    Handler("setProcessedData", ["startRow", "startCol", "values", "sheetName"])
  const SetRawDataCommand := Handler("setRawData", ["startRow", "startCol", "formulas", "sheetName"])
  const GetStylesAndMergesCommand :=
    Handler("getStylesAndMerges", ["startRow", "startCol", "rowCount", "colCount", "sheetName"])
  const SetStylesAndMergesCommand :=
    Handler("setStylesAndMerges", ["startRow", "startCol", "rowCount", "colCount", "styles", "merges", "sheetName"])
  const GetChartsCommand := Handler("getCharts", ["sheetName"])
  const SetChartsCommand := Handler("setCharts", ["chartsData", "sheetName"])
  const AddRowsCommand := Handler("addRows", ["row", "count", "sheetName"])
  const AddColumnsCommand := Handler("addColumns", ["col", "count", "sheetName"])
  const DeleteRowsCommand := Handler("deleteRows", ["row", "count", "sheetName"])
  const DeleteColumnsCommand := Handler("deleteColumns", ["col", "count", "sheetName"])
  const AutoFitRowCommand := Handler("autoFitRow", ["row", "sheetName"])
  const AutoFitColumnCommand := Handler("autoFitColumn", ["col", "sheetName"])
  const SetRowHeightCommand := Handler("setRowHeight", ["row", "height", "sheetName"])
  const SetColumnWidthCommand := Handler("setColumnWidth", ["col", "width", "sheetName"])
  const GetFormatterCommand := Handler("getFormatter", ["row", "col", "sheetName"])
  const SetFormatterCommand := Handler("setFormatter", ["row", "col", "format", "sheetName"])
  const CopyToCommand :=
    Handler("copyTo", ["fromRow", "fromColumn", "toRow", "toColumn", "rowCount", "columnCount", "option", "sheetName"])
  const ResetMergingStatusCommand :=
    Handler("resetMergingStatus", ["startRow", "startCol", "rowCount", "colCount", "sheetName"])

  /** The command table, in the order the object literal declares its keys. */
  const Table: seq<Handler> := [
    GetSheetNamesCommand, GetSheetCountCommand, GetActiveSheetCommand, GetActiveSheetIndexCommand,
    SetActiveSheetIndexCommand, AddSheetCommand, RemoveSheetCommand, ClearSheetsCommand, GetSheetJsonCommand,
    SetSheetJsonCommand, GetSheetCsvCommand, SetSheetCsvCommand, GetSheetCsvOfRangeCommand,
    SetSheetCsvOfRangeCommand, GetProcessedDataOfWholeSheetCommand, GetRawDataOfWholeSheetCommand,
    GetProcessedDataCommand, GetRawDataCommand, SetProcessedDataCommand, SetRawDataCommand,
    GetStylesAndMergesCommand, SetStylesAndMergesCommand, GetChartsCommand, SetChartsCommand, AddRowsCommand,
    AddColumnsCommand, DeleteRowsCommand, DeleteColumnsCommand, AutoFitRowCommand, AutoFitColumnCommand,
    SetRowHeightCommand, SetColumnWidthCommand, GetFormatterCommand, SetFormatterCommand, CopyToCommand,
    ResetMergingStatusCommand
  ]

  /** The own key lookup `commandMap[name]`: the handler declared under `name`. */
  function Find(table: seq<Handler>, name: string): (r: Option<Handler>)
    ensures r.Some? ==> r.value in table && r.value.name == name
  {
    if table == [] then None
    else if table[0].name == name then Some(table[0])
    else Find(table[1..], name)
  }

  /** `Object.keys(commandMap)`. */
  function Names(table: seq<Handler>): (r: seq<string>)
    ensures |r| == |table|
    ensures forall i :: 0 <= i < |r| ==> r[i] == table[i].name
  {
    seq(|table|, i requires 0 <= i < |table| => table[i].name)
  }

  /** `getAvailableCommands()`: the 36 names of the hook's table, in declaration order. */
  function AvailableCommands(): (r: seq<string>)
    ensures |r| == |Table| == 36
    ensures forall i :: 0 <= i < |r| ==> r[i] == Table[i].name
  {
    Names(Table)
  }

  /** The arguments a handler passes, in order: `params.f` for each forwarded field `f`. */
  function Arguments(h: Handler, params: Value): (r: seq<Value>)
    ensures |r| == |h.forwards|
    ensures forall i :: 0 <= i < |h.forwards| ==> r[i] == Get(params, h.forwards[i])
  {
    seq(|h.forwards|, i requires 0 <= i < |h.forwards| => Get(params, h.forwards[i]))
  }

  /** The TypeError of reading `params.key` when `params` is `null`. */
  function NullRead(key: string): string {
    "Cannot read properties of null (reading '" + key + "')"
  }

  function NotAFunction(name: string): string {
    "spreadsheetFunctions." + name + " is not a function"
  }

  /** Looking up `name` in `table` and running its handler on `params`. */
  function Invoke(table: seq<Handler>, backing: Backing, name: string, params: Value): (r: Outcome)
    ensures Find(table, name).None? ==> r == Throw("Unknown command: " + name)
  {
    match Find(table, name)
    case None => Throw("Unknown command: " + name)
    case Some(h) =>
      // the arguments are read before the call is attempted
      if h.forwards != [] && Prop(params, h.forwards[0]).None? then Throw(NullRead(h.forwards[0]))
      else if h.name !in backing then Throw(NotAFunction(h.name))
      else backing[h.name](Arguments(h, params))
  }

  /**
   * The record `executeCommand` returns once the handler has run, without its
   * timestamp: it always names the command; a returned value is its
   * `result`, a thrown error its `error`.
   */
  function Respond(commandName: Value, outcome: Outcome): (r: Value)
    ensures Get(r, "command") == commandName
    ensures Get(r, "success") == Bool(outcome.Ok?)
    ensures outcome.Ok? ==> Get(r, "result") == outcome.value
    ensures outcome.Throw? ==> Get(r, "error") == Str(outcome.message)
  {
    match outcome
    case Ok(v) => Record(map["success" := Bool(true), "command" := commandName, "result" := v])
    case Throw(m) => Record(map["success" := Bool(false), "command" := commandName, "error" := Str(m)])
  }

  /**
   * `executeCommand(commandName, params)` over the command table `table`
   * (the hook's is `Table`): `params` defaults to `{}` and the name is used
   * as a property key.  It never throws: the record always names the
   * command and says whether it succeeded, and an unknown name fails.
   */
  function Execute(table: seq<Handler>, backing: Backing, commandName: Value, params: Value): (r: Value)
    ensures Get(r, "command") == commandName && Get(r, "success").Bool?
    ensures Find(table, Display(commandName)).None? ==> Get(r, "success") == Bool(false)
  {
    Respond(commandName,
            Invoke(table, backing, Display(commandName), if params.Undefined? then Obj(map[]) else params))
  }

  // ---------------------------------------------------------------- properties

  /** A name is listed by `getAvailableCommands` exactly when the lookup finds it. */
  lemma {:induction false} ListedIffFound(table: seq<Handler>, name: string)
    ensures name in Names(table) <==> Find(table, name).Some?
  {
    if table != [] {
      ListedIffFound(table[1..], name);
      assert Names(table) == [table[0].name] + Names(table[1..]);
    }
  }

  /** `getAvailableCommands` returns the 36 declared names and nothing else. */
  lemma AvailableCommandsExact()
    ensures |AvailableCommands()| == 36
    ensures forall name :: name in AvailableCommands() <==> Find(Table, name).Some?
  {
    forall name ensures name in AvailableCommands() <==> Find(Table, name).Some? {
      ListedIffFound(Table, name);
    }
  }

  /** The first handler declared under a name is the one the lookup finds. */
  lemma {:induction false} FindAt(table: seq<Handler>, i: nat)
    requires i < |table|
    requires forall j :: 0 <= j < i ==> table[j].name != table[i].name
    ensures Find(table, table[i].name) == Some(table[i])
  {
    if i > 0 {
      FindAt(table[1..], i - 1);
    }
  }

  /** An unknown name is reported, not thrown, and the result still names it. */
  lemma UnknownCommandReported(table: seq<Handler>, backing: Backing, commandName: Value, params: Value)
    requires Find(table, Display(commandName)).None?
    ensures var r := Execute(table, backing, commandName, params);
      && Get(r, "success") == Bool(false)
      && Get(r, "command") == commandName
      && Get(r, "error") == Str("Unknown command: " + Display(commandName))
  {
  }

  /** Omitted `params` behave as `{}`. */
  lemma ParamsDefaultToEmpty(table: seq<Handler>, backing: Backing, commandName: Value)
    ensures Execute(table, backing, commandName, Undefined) == Execute(table, backing, commandName, Obj(map[]))
  {
  }

  /** A command whose spreadsheet function was not supplied fails with the TypeError of the call. */
  lemma MissingFunctionFails(table: seq<Handler>, backing: Backing, commandName: Value, params: Value)
    requires params.Obj? && Find(table, Display(commandName)).Some?
    requires Display(commandName) !in backing
    ensures Execute(table, backing, commandName, params) ==
      Record(map["success" := Bool(false), "command" := commandName,
                 "error" := Str(NotAFunction(Display(commandName)))])
  {
  }

  /**
   * A command that forwards fields throws on `null` params before calling
   * anything; one that forwards none ignores them.
   */
  lemma NullParams(table: seq<Handler>, backing: Backing, name: string)
    requires Find(table, name).Some?
    ensures var h := Find(table, name).value;
      && (h.forwards != [] ==> Invoke(table, backing, name, Null) == Throw(NullRead(h.forwards[0])))
      && (h.forwards == [] ==> Invoke(table, backing, name, Null) == Invoke(table, backing, name, Obj(map[])))
  {
  }

  /** A command found in the table, on object params, calls its spreadsheet function with the forwarded fields. */
  lemma Dispatches(table: seq<Handler>, backing: Backing, h: Handler, params: Value)
    requires Find(table, h.name) == Some(h) && params.Obj? && h.name in backing
    ensures Invoke(table, backing, h.name, params) == backing[h.name](Arguments(h, params))
  {
  }

  lemma FindsSetProcessedData()
    ensures Find(Table, "setProcessedData") == Some(SetProcessedDataCommand)
  {
    FindAt(Table, 18);
  }

  lemma FindsSetActiveSheetIndex()
    ensures Find(Table, "setActiveSheetIndex") == Some(SetActiveSheetIndexCommand)
  {
    assert forall j :: 0 <= j < 4 ==> Table[j].name[0] == 'g';
    assert Table[4].name[0] == 's';
    FindAt(Table, 4);
  }

  lemma FindsSetSheetJson()
    ensures Find(Table, "setSheetJSON") == Some(SetSheetJsonCommand)
  {
    FindAt(Table, 9);
  }

  /**
   * `setProcessedData` forwards (startRow, startCol, values, sheetName); the
   * hook's table finds it (`FindsSetProcessedData`).
   */
  lemma SetProcessedDataForwards(table: seq<Handler>, backing: Backing, params: Value)
    requires Find(table, "setProcessedData") == Some(SetProcessedDataCommand)
    requires params.Obj? && "setProcessedData" in backing
    ensures Invoke(table, backing, "setProcessedData", params) ==
      backing["setProcessedData"]([Get(params, "startRow"), Get(params, "startCol"),
                                   Get(params, "values"), Get(params, "sheetName")])
  {
    Dispatches(table, backing, SetProcessedDataCommand, params);
    assert Arguments(SetProcessedDataCommand, params) == [Get(params, "startRow"), Get(params, "startCol"),
                                                          Get(params, "values"), Get(params, "sheetName")];
  }

  /** `setActiveSheetIndex` forwards `params.index` alone. */
  lemma SetActiveSheetIndexForwards(table: seq<Handler>, backing: Backing, params: Value)
    requires Find(table, "setActiveSheetIndex") == Some(SetActiveSheetIndexCommand)
    requires params.Obj? && "setActiveSheetIndex" in backing
    ensures Invoke(table, backing, "setActiveSheetIndex", params) ==
      backing["setActiveSheetIndex"]([Get(params, "index")])
  {
    Dispatches(table, backing, SetActiveSheetIndexCommand, params);
    assert Arguments(SetActiveSheetIndexCommand, params) == [Get(params, "index")];
  }

  /** `setSheetJSON` forwards (json, sheetName). */
  lemma SetSheetJsonForwards(table: seq<Handler>, backing: Backing, params: Value)
    requires Find(table, "setSheetJSON") == Some(SetSheetJsonCommand)
    requires params.Obj? && "setSheetJSON" in backing
    ensures Invoke(table, backing, "setSheetJSON", params) ==
      backing["setSheetJSON"]([Get(params, "json"), Get(params, "sheetName")])
  {
    Dispatches(table, backing, SetSheetJsonCommand, params);
    assert Arguments(SetSheetJsonCommand, params) == [Get(params, "json"), Get(params, "sheetName")];
  }
}
