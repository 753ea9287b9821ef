/**
 * The receiving side of a relayed command: the editor page that executes
 * each inbound `command` message through the command registry and answers
 * with a `command_ack`, and that opens its connection on mount and closes
 * it on unmount.  Also the places where what the gateway and the broker
 * send does not match what this page reads.
 */
module CommandPage {
  import opened JsValue
  import opened CommandRegistry
  import opened Transport
  import RelayBroker
  import AdminGateway

  /** The inbound messages the page executes: type 'command' with a truthy `command`. */
  predicate Executes(message: Value)
    ensures Executes(message) ==> message.Obj? && "type" in message.fields && "command" in message.fields
  {
    Get(message, "type") == Str("command") && Truthy(Get(message, "command"))
  }

  /** The own fields an object spread copies. */
  function Fields(v: Value): map<string, Value> {
    if v.Obj? then v.fields else map[]
  }

  /** `{...result, type: 'command_ack', requestId: message.requestId}`. */
  function Ack(message: Value, result: Value): (r: Value)
    ensures r.Obj?
    ensures Get(r, "type") == Str("command_ack")
    ensures Get(r, "requestId") == Get(message, "requestId")
    ensures forall k :: k != "type" && k != "requestId" ==> Get(r, k) == Get(result, k)
  {
    Obj(Fields(result)["type" := Str("command_ack")]["requestId" := Get(message, "requestId")])
  }

  /** The reply the page sends for `message`, if any. */
  function Reply(table: seq<Handler>, backing: Backing, message: Value): (r: Option<Value>)
    ensures r.Some? <==> Executes(message)
  {
    if Executes(message) then
      Some(Ack(message, Execute(table, backing, Get(message, "command"), Get(message, "params"))))
    else None
  }

  /**
   * Each executed command gets exactly one ack naming it, whose `success`
   * and `result` or `error` are those of the registry's outcome.
   */
  lemma EveryCommandAcked(table: seq<Handler>, backing: Backing, message: Value)
    requires Executes(message)
    ensures var command := Get(message, "command");
      var params := Get(message, "params");
      var outcome := Invoke(table, backing, Display(command), if params.Undefined? then Obj(map[]) else params);
      var r := Reply(table, backing, message);
      && r.Some?
      && Get(r.value, "type") == Str("command_ack")
      && Get(r.value, "requestId") == Get(message, "requestId")
      && Get(r.value, "command") == command
      && Get(r.value, "success") == Bool(outcome.Ok?)
      && (outcome.Ok? ==> Get(r.value, "result") == outcome.value)
      && (outcome.Throw? ==> Get(r.value, "error") == Str(outcome.message))
  {
    var command := Get(message, "command");
    var params := Get(message, "params");
    var outcome := Invoke(table, backing, Display(command), if params.Undefined? then Obj(map[]) else params);
    var result := Respond(command, outcome);
    assert Execute(table, backing, command, params) == result;
  }

  /** An unknown command is still acked, as a failure naming it. */
  lemma UnknownCommandAcked(table: seq<Handler>, backing: Backing, message: Value)
    requires Executes(message)
    requires Find(table, Display(Get(message, "command"))).None?
    ensures var r := Reply(table, backing, message);
      && r.Some?
      && Get(r.value, "success") == Bool(false)
      && Get(r.value, "error") == Str("Unknown command: " + Display(Get(message, "command")))
  {
    EveryCommandAcked(table, backing, message);
  }

  /** Welcome, pong, ack and error notices from the broker are never executed and never answered. */
  lemma ServerNoticesIgnored(table: seq<Handler>, backing: Backing, m: RelayBroker.ServerMsg)
    requires !m.Command? && !m.McpCommand?
    ensures Reply(table, backing, RelayBroker.Encode(m)) == None
  {
    var e := RelayBroker.Encode(m);
    if m.Welcome? {
      assert Get(e, "type") == Str("welcome");
    } else if m.Pong? {
      assert Get(e, "type") == Str("pong");
    } else if m.CommandAck? {
      assert Get(e, "type") == Str("command_ack");
    } else {
      assert Get(e, "type") == Str("error");
    }
  }

  /** An ack is not a command, so two pages never answer each other's acks. */
  lemma AcksNeverAnswered(table: seq<Handler>, backing: Backing, message: Value, result: Value)
    ensures Reply(table, backing, Ack(message, result)) == None
  {
  }

  /**
   * A command relayed by the broker reaches the page without the sender's
   * `requestId`, so its ack carries none: the field is undefined and
   * disappears from the JSON frame.
   */
  lemma RelayedAckLosesRequestId(table: seq<Handler>, backing: Backing, command: Value, params: Value)
    requires Truthy(command)
    ensures var message := RelayBroker.Encode(RelayBroker.Command(command, params));
      var r := Reply(table, backing, message);
      r.Some? && Get(r.value, "requestId") == Undefined && "requestId" !in Record(r.value.fields).fields
  {
    RelayBroker.RelayDropsCorrelation(command, params);
  }

  // ---------------------------------------------------------------- parameter names that do not meet

  /** set-cell's params carry `row` and `col`; the registry's `setProcessedData` reads `startRow` and `startCol`. */
  lemma SetCellParamsMissOrigin(input: Value)
    ensures var params := AdminGateway.Params(AdminGateway.SetCell.fields.value, input);
      Get(params, "startRow") == Undefined && Get(params, "startCol") == Undefined && Get(params, "sheetName") == Undefined
  {
  }

  /**
   * A set-cell from the gateway, executed by the page, calls
   * `setProcessedData` with an undefined origin and sheet name.
   */
  lemma SetCellLandsWithoutOrigin(table: seq<Handler>, backing: Backing, input: Value)
    requires Find(table, "setProcessedData") == Some(SetProcessedDataCommand) && "setProcessedData" in backing
    requires AdminGateway.Route(AdminGateway.SetCell, input).Relay?
    ensures var params := AdminGateway.Route(AdminGateway.SetCell, input).params;
      Invoke(table, backing, "setProcessedData", params) ==
        backing["setProcessedData"]([Undefined, Undefined, Get(params, "values"), Undefined])
  {
    var params := AdminGateway.Route(AdminGateway.SetCell, input).params;
    assert params == AdminGateway.Params(AdminGateway.SetCell.fields.value, input);
    SetCellParamsMissOrigin(input);
    SetProcessedDataForwards(table, backing, params);
  }

  /** set-active-sheet sends `sheetIndex`; `setActiveSheetIndex` reads `index`, so it is called with undefined. */
  lemma SetActiveSheetLandsWithoutIndex(table: seq<Handler>, backing: Backing, input: Value)
    requires Find(table, "setActiveSheetIndex") == Some(SetActiveSheetIndexCommand) && "setActiveSheetIndex" in backing
    requires AdminGateway.Route(AdminGateway.SetActiveSheet, input).Relay?
    ensures var params := AdminGateway.Route(AdminGateway.SetActiveSheet, input).params;
      Invoke(table, backing, "setActiveSheetIndex", params) == backing["setActiveSheetIndex"]([Undefined])
  {
    var params := AdminGateway.Route(AdminGateway.SetActiveSheet, input).params;
    assert params == AdminGateway.Params(AdminGateway.SetActiveSheet.fields.value, input);
    SetActiveSheetIndexForwards(table, backing, params);
  }

  /** set-sheet-json sends the document as `template`; `setSheetJSON` reads `json`, so it is called with undefined. */
  lemma SetSheetJsonLandsWithoutJson(table: seq<Handler>, backing: Backing, input: Value)
    requires Find(table, "setSheetJSON") == Some(SetSheetJsonCommand) && "setSheetJSON" in backing
    requires AdminGateway.Route(AdminGateway.SetSheetJson, input).Relay?
    ensures var params := AdminGateway.Route(AdminGateway.SetSheetJson, input).params;
      Invoke(table, backing, "setSheetJSON", params) == backing["setSheetJSON"]([Undefined, Undefined])
  {
    var params := AdminGateway.Route(AdminGateway.SetSheetJson, input).params;
    assert params == AdminGateway.Params(AdminGateway.SetSheetJson.fields.value, input);
    SetSheetJsonForwards(table, backing, params);
  }

  /** The spreadsheet functions the sheet hook actually returns; the page passes the other names as undefined. */
  const Exported: set<string> := {
    "getSheetNames", "getSheetJSON", "setSheetJSON", "getSheetCSV", "setSheetCSV",
    "getProcessedDataOfWholeSheet", "getRawDataOfWholeSheet", "getProcessedData", "getRawData",
    "setProcessedData", "setRawData", "getStylesAndMerges", "setStylesAndMerges", "getCharts", "setCharts",
    "resetMergingStatus"
  }

  /**
   * On this page a command whose function the hook does not export (such
   * as `addRows`) fails with the TypeError of calling undefined, and the
   * ack reports it.
   */
  lemma UnexportedCommandFails(table: seq<Handler>, backing: Backing, name: string, params: Value)
    requires backing.Keys <= Exported && name !in Exported
    requires Find(table, name).Some? && params.Obj?
    ensures var r := Execute(table, backing, Str(name), params);
      Get(r, "success") == Bool(false) && Get(r, "error") == Str(NotAFunction(name))
  {
    assert Display(Str(name)) == name;
  }

  lemma FindsAddRows()
    ensures Find(Table, "addRows") == Some(AddRowsCommand)
  {
    FindAt(Table, 24);
  }

  lemma AddRowsNotExported()
    ensures "addRows" !in Exported
  {
  }

  /** `addRows` is in the hook's table but not exported, so on this page it always fails. */
  lemma AddRowsFailsOnPage(backing: Backing, params: Value)
    requires backing.Keys <= Exported && params.Obj?
    ensures var r := Execute(Table, backing, Str("addRows"), params);
      Get(r, "success") == Bool(false) && Get(r, "error") == Str(NotAFunction("addRows"))
  {
    FindsAddRows();
    AddRowsNotExported();
    UnexportedCommandFails(Table, backing, "addRows", params);
  }

  /** The page: its connection, the command table and the spreadsheet functions it supplies. */
  class Page {
    const session: Session
    const table: seq<Handler>
    const backing: Backing

    constructor(session: Session, table: seq<Handler>, backing: Backing)
      ensures this.session == session && this.table == table && this.backing == backing
    {
      this.session := session;
      this.table := table;
      this.backing := backing;
    }

    /** Mount: connect once. */
    method Mount(throws: bool)
      modifies session
      ensures session.Snapshot() == Step(old(session.Snapshot()), Event.Connect(throws))
    {
      session.Connect(throws);
    }

    /** Unmount: disconnect. */
    method Unmount()
      modifies session
      ensures session.Snapshot() == Step(old(session.Snapshot()), Event.Disconnect)
    {
      session.Disconnect();
    }

    /** The `onMessage` callback: execute a command and send its ack; ignore anything else. */
    method OnMessage(message: Value, throws: bool) returns (reply: Option<Value>)
      modifies session
      ensures reply == Reply(table, backing, message)
      ensures session.Snapshot() == if reply.Some? then AfterSend(old(session.Snapshot()), reply.value, throws)
                                    else old(session.Snapshot())
    {
      reply := None;
      if Get(message, "type") == Str("command") && Truthy(Get(message, "command")) {
        var result := Execute(table, backing, Get(message, "command"), Get(message, "params"));
        var resp := Ack(message, result);
        var _ := session.SendMessage(resp, throws);
        reply := Some(resp);
      }
    }
  }
}
