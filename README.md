# Spreadsheet command relay, modelled in Dafny

The system keeps spreadsheet editors in step and lets outside scripts drive
them. It has five moving parts, each modelled in its own module:

- **Relay broker** (`server/server.js`): a WebSocket server. It keeps the set of
  live client sockets and caps its size. It answers `ping` and `command_echo`.
  It fans each `command` out to every other open client, then acknowledges the
  sender with the number of clients reached.
- **Administrative gateway** (`server/mcp-server.js`): an HTTP façade. For each
  mutating operation it validates the request, builds a `command` message
  tagged `source: 'mcp'`, broadcasts it to every open client and reports how
  many it reached. Read operations only answer a placeholder. It also serves
  status, health and an operations catalog.
- **Transport session** (`useWebSocket.js`): the browser's connection. It has a
  reconnect state machine (at most five attempts, 3000 ms apart, none after a
  normal close; a timer cancelled by `disconnect` does nothing) and message
  framing.
- **Command registry** (`useSpreadsheetCommands.js`): a table from command name to
  the spreadsheet function it calls. `executeCommand` turns every outcome into
  a result record.
- **Browser pages**:
  - the sheet helpers (`useSpreadSheet.js`);
  - the page that executes relayed commands and acknowledges them
    (`SpreadSheetEditorPageJSONTemplateCreation.jsx`);
  - the two-editor sync page that turns editor events into range copies
    (`SpreadSheetEditorPageSyncTest.jsx`);
  - the connection debug overlay (`WebSocketDebugOverlay.jsx`).

Modules:

| file | module | models |
|---|---|---|
| js_value.dfy | `JsValue` | JavaScript values, truthiness, property reads, `trim`, `String(v)` |
| relay_broker.dfy | `RelayBroker` | the broker: `class Broker` and the message switch |
| admin_gateway.dfy | `AdminGateway` | the gateway: `parseInt`, the 40 routes as data, `Serve`, broadcast, catalog |
| transport.dfy | `Transport` | the connection state machine (`Step`) and `class Session` |
| command_registry.dfy | `CommandRegistry` | the command table, lookup and `executeCommand` |
| sheet_model.dfy | `SheetModel` | the sheet helpers over an abstract sheet: `class Editor`, `class EventFeed` |
| sync_engine.dfy | `SyncEngine` | event classification and `syncCellRange` |
| command_page.dfy | `CommandPage` | command execution and ack, mount and unmount (`class Page`), and where the parts do not meet |
| debug_overlay.dfy | `DebugOverlay` | the 50-entry log and the command form (`class Overlay`) |

Where the parts disagree with one another, the model follows the code. Lemmas
record each disagreement; see the `CommandPage` rows and
`AdminGateway.SetChartsCatalogDisagrees`. Five behaviours of the code are worth
knowing, because a reader might expect otherwise. The model follows the code in
each:

- The broker keeps a socket in its set until the socket's `close` or `error`
  event. A broadcast only skips sockets that are not OPEN; it removes none.
- Every `send` to an OPEN socket counts as a delivery.
- The broker does not forward `requestId`, so a relayed command's ack cannot be
  correlated.
- A socket is identified by the socket object, not by an id the broker assigns.
- An explicit `disconnect` does not stop reconnection for good. On a socket
  that is still CONNECTING, `close(1000)` fails the connection with code 1006.
  The counter has just been reset, so the close handler schedules a reconnect
  and a new socket opens 3000 ms later
  (`Transport.DisconnectWhileConnectingReconnects`).

## Model

Helper functions without a contract of their own have no row. Their meaning is stated by the rows of the members that use them:
- `AdminGateway.DigitValue`, `AdminGateway.Digits` and `AdminGateway.SignedText` under `ParseInt` and its lemmas.
- `AdminGateway.Destructures` under `Route`.

| member | source | states |
|---|---|---|
| JsValue.Truthy | client/src/pages/SpreadSheetEditorPageJSONTemplateCreation.jsx:118 | a value is falsy exactly when it is `undefined`, `null`, `false`, `0` or `""` |
| JsValue.Prop | client/src/hooks/useWebSocket.js:40 | a property read throws exactly on `null`/`undefined`; a missing field or a field of a primitive reads as `undefined` |
| JsValue.Get | server/server.js:73-74 | a read the code knows cannot throw agrees with the JavaScript property read; on `null` or `undefined` it gives `undefined` |
| JsValue.Record | server/server.js:47-51 | a JSON round trip of a record keeps every defined field with its value and drops `undefined` ones |
| JsValue.NatText | server/mcp-server.js:324 | the decimal text of a number is non-empty and all digits |
| JsValue.Display | client/src/hooks/useSpreadsheetCommands.js:86 | `String(v)` of a string is the string itself; of a number it is non-empty and starts with a minus sign exactly when the number is negative |
| JsValue.IsSpace | client/src/components/WebSocketDebugOverlay.jsx:33 | the white space `trim` strips (tab, vertical tab, form feed, BOM, every space separator, the four line terminators) contains no digit, letter or sign |
| JsValue.TrimStart | client/src/components/WebSocketDebugOverlay.jsx:33 | the result is a suffix of the input that does not start with white space, and everything removed is white space |
| JsValue.TrimEnd | client/src/components/WebSocketDebugOverlay.jsx:33 | the result is a prefix of the input that does not end with white space, and everything removed is white space |
| JsValue.Trim | client/src/components/WebSocketDebugOverlay.jsx:33 | a trimmed text is empty or starts and ends with a non-space |
| JsValue.TrimEmptyIffBlank | client/src/components/WebSocketDebugOverlay.jsx:33 | trimming gives the empty text exactly when every character is white space |
| JsValue.TrimEndKeepsNonBlank | client/src/components/WebSocketDebugOverlay.jsx:45 | trimming the end never removes a position at or before a non-space character |
| RelayBroker.MaxConnections | server/server.js:10 | the cap is the parsed setting unless that is NaN or 0, in which case it is 100; it is never 0 |
| RelayBroker.Encode | server/server.js:47-129 | every frame the broker writes is an object with a string `type`; the type is "command" exactly for relayed and gateway commands; no frame carries a `requestId` |
| RelayBroker.Without | server/server.js:135 | removing a socket leaves exactly the other members, in order and without duplicates, one fewer when it was a member |
| RelayBroker.Deliveries | server/server.js:82-92 | the fan-out sends only `m`, only to reached members of the list, and at most one send per member |
| RelayBroker.DeliveriesExactly | server/server.js:82-92 | a fan-out sends the message only to reached (open, not excluded) members, sends it to every one of them, and sends at most one per member |
| RelayBroker.ReachedSetLast | server/server.js:82-92 | the members reached from a list extended by one are those reached before plus the new one if it is reached |
| RelayBroker.DeliveriesCount | server/server.js:82-92 | with no duplicate members, the number of sends equals the number of reached members |
| RelayBroker.TypeOf | server/server.js:62 | reading `type` throws exactly on a `null` message; otherwise it is the message's `type` field |
| RelayBroker.Dispatch | server/server.js:54-131 | only a `command_ack` goes unanswered; the last frame always goes to the sender; every frame is a send, and one to anyone else is the relayed command to an open member; at most one frame per member plus one |
| RelayBroker.RepliesOnlyToSender | server/server.js:54-131 | non-JSON or a `null` message gets one "Invalid JSON format" error; `ping` gets one `pong`; `command_echo` gets its command back; `command_ack` gets nothing; any other type gets one "Unknown message type" error naming it; all to the sender only |
| RelayBroker.CommandFansOut | server/server.js:79-106 | a `command` goes, with only its command and params, to every open member other than the sender and to no one else; the last send is the sender's `command_ack` whose `broadcastCount` equals the number of members reached |
| RelayBroker.RelayDropsCorrelation | server/server.js:84-89 | the relayed frame is a `command` with no `requestId` and no `source` |
| RelayBroker.Broker.constructor | server/server.js:10-13 | the broker starts empty with the cap `MaxConnections` and its invariant established |
| RelayBroker.Broker.Accept | server/server.js:27-51 | when full, the socket is closed with 1008 "Server full" and the set is unchanged; otherwise it is appended, is open, and gets the welcome; the invariant (no duplicates, size within the cap, open members are members) is kept |
| RelayBroker.Broker.StopBeingOpen | server/server.js:83 | a socket leaving OPEN drops out of the open set only; the invariant is kept |
| RelayBroker.Broker.Remove | server/server.js:134-147 | `close` and `error` delete the socket: exactly the other members remain, one fewer if it was a member; the invariant is kept |
| RelayBroker.Broker.Handle | server/server.js:54-131 | the message handler, including its fan-out loop, produces exactly the sends of `Dispatch` |
| AdminGateway.ParseInt | server/mcp-server.js:324 | `parseInt` yields a number or NaN (`null` once serialised) |
| AdminGateway.ParseIntText | server/mcp-server.js:905 | `parseInt` after leading white space yields a number or NaN |
| AdminGateway.ParseUnsigned | server/mcp-server.js:905 | the digits after the sign, with an optional `0x` prefix, give a number or NaN |
| AdminGateway.DigitRun | server/mcp-server.js:905 | the length of the leading run of digits is at most the text's length |
| AdminGateway.DigitValueOfDigitChar | server/mcp-server.js:905 | every decimal digit character is a digit of radix 10 with its own value |
| AdminGateway.DigitsOfNatText | server/mcp-server.js:905 | the digits of a number's decimal text denote that number |
| AdminGateway.ParseIntOfNumber | server/mcp-server.js:905 | `parseInt` of any integer gives the same integer back, so numeric query fields survive |
| AdminGateway.ParseDecimalText | server/mcp-server.js:925 | the unsigned part of a decimal text parses to its number with the sign applied |
| AdminGateway.ParseSignedText | server/mcp-server.js:905 | `parseInt` of a sign followed by digits reads the sign and hands the digits on unchanged |
| AdminGateway.ParseDigitText | server/mcp-server.js:905 | an all-digit text parses to the number its digits spell, with the sign applied |
| AdminGateway.StartsWithoutSpace | server/mcp-server.js:905 | a text that does not start with white space is not changed by skipping it |
| AdminGateway.UnsignedWord | server/mcp-server.js:905 | a text starting with a lower-case letter parses to NaN |
| AdminGateway.DigitRunOfDigits | server/mcp-server.js:945 | text made only of digits is consumed entirely |
| AdminGateway.ParseIntOfWord | server/mcp-server.js:979 | text starting with a letter parses to NaN (`null`) |
| AdminGateway.FieldValue | server/mcp-server.js:43 | a params field is `undefined` (dropped from the JSON) only when the request lacks it; a destructuring default applies when it is missing |
| AdminGateway.Assemble | server/mcp-server.js:54 | the built `params` object has exactly the keys of the route's fields |
| AdminGateway.AssembleAt | server/mcp-server.js:54 | a key's value is computed from the last field carrying it |
| AdminGateway.Params | server/mcp-server.js:54 | the params are an object holding only keys the route names, none `undefined`, so nothing else in the request is forwarded |
| AdminGateway.Fails | server/mcp-server.js:45-49 | every check rejects an empty body; a failed `=== undefined` check means the field is falsy |
| AdminGateway.ReadBody | server/mcp-server.js:792-801 | a read's answer reports no broadcast and carries `params` exactly when the route reads fields |
| AdminGateway.Route | server/mcp-server.js:42-68 | only a mutating route relays, and only its own command with a params object; a read only answers; a 400 carries the route's text and happens exactly when a check fails on a body that could be destructured; a 500 only on a missing body |
| AdminGateway.Acknowledge | server/mcp-server.js:60-66 | the response reports success, the command and params sent and the number of clients reached |
| AdminGateway.BroadcastToClients | server/mcp-server.js:16-27 | one send per client whose state is OPEN, none excluded, in set order; the count returned is the number of sends, at most the set size, and equals the number of open members |
| AdminGateway.Serve | server/mcp-server.js:42-68 | a valid mutating request broadcasts the route's `command` and answers 200 with that command, the same params and the count reached; a failed check answers 400 with the route's text and sends nothing; a missing body answers 500 and sends nothing; a read answers 200 and sends nothing |
| AdminGateway.Status | server/mcp-server.js:32-39 | status is "active" and `connectedClients` is the size of the client set |
| AdminGateway.Health | server/mcp-server.js:1295-1304 | health reports the client set size and whether a WebSocket server was attached |
| AdminGateway.Spelling | server/mcp-server.js:987-1292 | an optional catalog parameter is spelled with a trailing `?`, a required one as its name |
| AdminGateway.Required | server/mcp-server.js:987-1292 | the required parameters of a catalog entry are exactly the names it lists without `?`, no more than it lists |
| AdminGateway.SetChartsCatalogDisagrees | server/mcp-server.js:448-468 | the catalog lists `chartsData` as set-charts' one required parameter (lines 1160-1165), but the route checks nothing and broadcasts an empty request |
| AdminGateway.EmptyRequestRejected | server/mcp-server.js:45-49 | every route with a required field answers an empty body with its 400 text |
| AdminGateway.PassesChecks | server/mcp-server.js:51-59 | a broadcasting route whose checks all pass relays its command with the params it builds |
| AdminGateway.SetCellRequiresRowColValue | server/mcp-server.js:45-49 | set-cell lacking row, col or value is rejected with "Missing required parameters: row, col, value" |
| AdminGateway.AddRowsRequiresRowCount | server/mcp-server.js:471-499 | add-rows lacking row or count is rejected with "Missing required parameters: row, count" |
| AdminGateway.SetCellBroadcastsOneCell | server/mcp-server.js:42-59 | a complete set-cell relays `setProcessedData` with row and col as given, the value as a one-cell grid, and `sheetIndex` 0 unless given; a falsy value is accepted |
| AdminGateway.SetCellParams | server/mcp-server.js:43-54 | set-cell's params hold row, col, `values` and `sheetIndex` with those values |
| AdminGateway.FalsyPayloadRejected | server/mcp-server.js:175-203 | set-sheet-json, set-sheet-csv, set-sheet-csv-of-range, set-processed-data and set-raw-data reject any falsy payload (0, "", false, null), not only a missing one |
| AdminGateway.UnvalidatedRoutesAlwaysBroadcast | server/mcp-server.js:100-122 | add-sheet, clear-sheet and set-charts relay any body that is present; clear-sheets relays `{}` whatever it receives |
| AdminGateway.CsvOfRangeDefaults | server/mcp-server.js:332-360 | set-sheet-csv-of-range defaults `newLine` to "\r" and `delimiter` to ",", only when they are absent |
| AdminGateway.ReadsNeverBroadcast | server/mcp-server.js:792-985 | no read route broadcasts; an answered read reports success, its command, its placeholder result and the note |
| AdminGateway.ReadBodyReports | server/mcp-server.js:792-801 | a read's body holds success true, its command, the placeholder result and the note |
| AdminGateway.RangeReadsRejectMissing | server/mcp-server.js:893-900 | get-processed-data, get-raw-data, get-styles-merges and get-sheet-csv-of-range reject a query lacking startRow, startCol, rowCount or colCount |
| AdminGateway.RangeReadParsesCounts | server/mcp-server.js:893-910 | a complete range query is answered, with rowCount and colCount passed through `parseInt` |
| AdminGateway.RangeReadAnswered | server/mcp-server.js:893-910 | a complete get-processed-data query is answered with the placeholder `[]` |
| AdminGateway.ReadBodyParams | server/mcp-server.js:902-909 | a read that destructures its request echoes the params it built |
| AdminGateway.RangeReadEchoesParams | server/mcp-server.js:905 | the answer echoes the params built from the range fields |
| AdminGateway.CountsParsed | server/mcp-server.js:905 | the echoed rowCount and colCount are the `parseInt` of the query's |
| AdminGateway.RowCountParsed | server/mcp-server.js:905 | the echoed rowCount is the `parseInt` of the query's |
| AdminGateway.ColCountParsed | server/mcp-server.js:905 | the echoed colCount is the `parseInt` of the query's |
| AdminGateway.NumericValue | server/mcp-server.js:905 | a numeric params field holds the `parseInt` of the request's field |
| AdminGateway.ParamAt | server/mcp-server.js:54 | a params field that no later field overrides holds the value its shape computes from the request |
| AdminGateway.GatewayMessageShape | server/mcp-server.js:51-57 | what the gateway broadcasts is a `command` with the given command and params, tagged `source: 'mcp'`, never with a `requestId` |
| Transport.Step | client/src/hooks/useWebSocket.js:24-95 | no event sends; the delivered messages, the closes and the scheduled delays only grow, by at most one each; only an open sets the connected flag; only a close raises the counter, by one and never past five |
| Transport.AfterSend | client/src/hooks/useWebSocket.js:97-116 | `sendMessage` sends at most the one frame and changes nothing but the sent frames and the error |
| Transport.SendResult | client/src/hooks/useWebSocket.js:97-116 | `sendMessage` returns true only when the frame went out and nothing else changed |
| Transport.OpenResets | client/src/hooks/useWebSocket.js:28-34 | an open marks the session connected, clears the error, resets the counter and schedules nothing |
| Transport.CloseRule | client/src/hooks/useWebSocket.js:51-67 | a close always drops the socket and the connected flag; it schedules one reconnect 3000 ms later, counter first incremented, exactly when the code is not 1000 and fewer than five attempts were made; otherwise nothing changes in the counter |
| Transport.ScheduledMatchesCounter | client/src/hooks/useWebSocket.js:58-65 | with no open or disconnect in between, each scheduled reconnect raises the counter by one, always with the 3000 ms delay, and the counter never passes five |
| Transport.AtMostFiveReconnects | client/src/hooks/useWebSocket.js:10-11 | between an open and the next open or disconnect, at most five reconnects are scheduled, each after 3000 ms |
| Transport.SixthCloseGivesUp | client/src/hooks/useWebSocket.js:58 | six abnormal closes from a fresh counter schedule exactly five reconnects |
| Transport.DisconnectResets | client/src/hooks/useWebSocket.js:82-95 | `disconnect` cancels the timer, closes an existing socket with 1000, and resets the flag and counter |
| Transport.NoReconnectAfterDisconnect | client/src/hooks/useWebSocket.js:83-86 | a timer cancelled by `disconnect` does nothing when it would have fired |
| Transport.DisconnectWhileConnectingReconnects | client/src/hooks/useWebSocket.js:51-95 | `disconnect` on a CONNECTING socket, followed by its close event with 1006, schedules a reconnect with the counter at 1, and the timer opens a new socket |
| Transport.SendNeedsOpenSocket | client/src/hooks/useWebSocket.js:110-115 | `sendMessage` without an OPEN socket returns false and sends nothing |
| Transport.SendOnOpenSocket | client/src/hooks/useWebSocket.js:97-109 | on an OPEN socket, a string goes out verbatim and anything else as JSON; a throwing send sends nothing and records the error; the call returns true exactly when the send succeeded and the message is neither `null` nor `undefined` |
| Transport.ReceiveRule | client/src/hooks/useWebSocket.js:36-49 | a frame that is not JSON records the error and changes nothing else; any parsed value becomes the last message; every one but `null` reaches the handler exactly once, while `null` fails the `type` read and records the error instead; without a handler nothing is delivered |
| Transport.Session.constructor | client/src/hooks/useWebSocket.js:3-12 | a session starts disconnected, with no socket, no error, a zero counter and nothing sent |
| Transport.Session.Connect | client/src/hooks/useWebSocket.js:24-26 | `connect` installs a CONNECTING socket, or records the constructor's error (lines 75-79) |
| Transport.Session.OnOpen | client/src/hooks/useWebSocket.js:28-34 | the open handler performs the `Opened` step |
| Transport.Session.OnMessage | client/src/hooks/useWebSocket.js:36-49 | the message handler performs the `Received` step |
| Transport.Session.OnClose | client/src/hooks/useWebSocket.js:51-67 | the close handler performs the `ClosedWith` step |
| Transport.Session.OnClosing | client/src/hooks/useWebSocket.js:98 | a socket leaving OPEN before its close event performs the `StartedClosing` step, after which `sendMessage` sends nothing |
| Transport.Session.OnError | client/src/hooks/useWebSocket.js:69-73 | the error handler records the error |
| Transport.Session.FireTimer | client/src/hooks/useWebSocket.js:63-65 | a pending reconnect timer runs `connect` once |
| Transport.Session.Disconnect | client/src/hooks/useWebSocket.js:82-95 | `disconnect` performs the `Disconnect` step |
| Transport.Session.SendMessage | client/src/hooks/useWebSocket.js:97-116 | `sendMessage` returns `SendResult` and moves the session to `AfterSend` |
| CommandRegistry.Find | client/src/hooks/useSpreadsheetCommands.js:84 | a handler found under a name is in the table and carries that name |
| CommandRegistry.Names | client/src/hooks/useSpreadsheetCommands.js:107-109 | one listed name per table entry, in declaration order |
| CommandRegistry.AvailableCommands | client/src/hooks/useSpreadsheetCommands.js:107-109 | `getAvailableCommands` lists the hook's 36 names in declaration order |
| CommandRegistry.Arguments | client/src/hooks/useSpreadsheetCommands.js:6-79 | a handler passes, in order, `params.f` for each field it forwards |
| CommandRegistry.Invoke | client/src/hooks/useSpreadsheetCommands.js:84-89 | a name not in the table throws "Unknown command: name" |
| CommandRegistry.Respond | client/src/hooks/useSpreadsheetCommands.js:89-103 | the result record always names the command; `success` says whether the handler returned; a returned value is its `result`, a thrown error's message its `error` |
| CommandRegistry.Execute | client/src/hooks/useSpreadsheetCommands.js:82-104 | `executeCommand` never throws: the record always names the command and carries a boolean `success`, false for an unknown name |
| CommandRegistry.ListedIffFound | client/src/hooks/useSpreadsheetCommands.js:107-109 | a name is listed by `getAvailableCommands` exactly when the lookup finds it |
| CommandRegistry.AvailableCommandsExact | client/src/hooks/useSpreadsheetCommands.js:4-80 | the table lists 36 commands, and a name is listed exactly when it is found |
| CommandRegistry.FindAt | client/src/hooks/useSpreadsheetCommands.js:84 | the lookup finds the first handler declared under a name |
| CommandRegistry.UnknownCommandReported | client/src/hooks/useSpreadsheetCommands.js:85-87 | an unknown name is reported as a failure naming it, not thrown to the caller |
| CommandRegistry.ParamsDefaultToEmpty | client/src/hooks/useSpreadsheetCommands.js:82 | omitted `params` behave as `{}` |
| CommandRegistry.MissingFunctionFails | client/src/hooks/useSpreadsheetCommands.js:89 | a listed command whose spreadsheet function was not supplied fails with "spreadsheetFunctions.name is not a function" |
| CommandRegistry.NullParams | client/src/hooks/useSpreadsheetCommands.js:10-79 | `null` params make a forwarding handler throw on its first field before any call; a handler that forwards nothing ignores them |
| CommandRegistry.Dispatches | client/src/hooks/useSpreadsheetCommands.js:89 | a found command, on object params, returns what its spreadsheet function returns on the forwarded fields |
| CommandRegistry.FindsSetProcessedData | client/src/hooks/useSpreadsheetCommands.js:36-38 | the table finds `setProcessedData` |
| CommandRegistry.FindsSetActiveSheetIndex | client/src/hooks/useSpreadsheetCommands.js:10 | the table finds `setActiveSheetIndex` |
| CommandRegistry.FindsSetSheetJson | client/src/hooks/useSpreadsheetCommands.js:17 | the table finds `setSheetJSON` |
| CommandRegistry.SetProcessedDataForwards | client/src/hooks/useSpreadsheetCommands.js:36-38 | `setProcessedData` calls its function with startRow, startCol, values and sheetName |
| CommandRegistry.SetActiveSheetIndexForwards | client/src/hooks/useSpreadsheetCommands.js:10 | `setActiveSheetIndex` calls its function with `params.index` alone |
| CommandRegistry.SetSheetJsonForwards | client/src/hooks/useSpreadsheetCommands.js:17 | `setSheetJSON` calls its function with json and sheetName |
| SheetModel.Meeting | client/src/hooks/useSpreadSheet.js:464-473 | `getSpans(range)` yields exactly the spans meeting the area, no more than there are |
| SheetModel.Apart | client/src/hooks/useSpreadSheet.js:510-514 | removing the spans meeting the area leaves exactly the others |
| SheetModel.Grid | client/src/hooks/useSpreadSheet.js:390-396 | a read of an area yields its cells row by row in the chosen layer, nothing for negative counts |
| SheetModel.ReadOfIsGrid | client/src/hooks/useSpreadSheet.js:393 | only one grid reads an area |
| SheetModel.RowCells | client/src/hooks/useSpreadSheet.js:410 | the cells of one written row are exactly its span of columns |
| SheetModel.GridCells | client/src/hooks/useSpreadSheet.js:410 | the cells a write covers are exactly the grid's positions offset by the origin |
| SheetModel.Written | client/src/hooks/useSpreadSheet.js:410 | a write drops no cell and leaves every cell outside the grid with its value |
| SheetModel.WrittenAt | client/src/hooks/useSpreadSheet.js:410 | after a write, a covered cell holds the grid's entry and every other cell is unchanged |
| SheetModel.SetArray | client/src/hooks/useSpreadSheet.js:407-419 | `setArray` changes only the layer it writes: name, size, styles, spans and the other layer are kept |
| SheetModel.SetArrayAt | client/src/hooks/useSpreadSheet.js:410 | each entry of a written grid reads back at its cell in the written layer |
| SheetModel.GridOfSetArray | client/src/hooks/useSpreadSheet.js:407-419 | writing a rectangular grid and reading the same area gives the grid back |
| SheetModel.SetArrayElsewhere | client/src/hooks/useSpreadSheet.js:407-419 | a write leaves every cell outside the grid unchanged in both layers |
| SheetModel.WrittenNewRow | client/src/hooks/useSpreadSheet.js:482 | starting a new, empty row writes nothing |
| SheetModel.WrittenOneMore | client/src/hooks/useSpreadSheet.js:505 | one more cell at the end of the last row is one more map update |
| SheetModel.WrittenOneMoreCells | client/src/hooks/useSpreadSheet.js:505 | the two maps agree cell by cell |
| SheetModel.WrittenOneMoreAt | client/src/hooks/useSpreadSheet.js:505 | that update agrees with the longer grid cell by cell |
| SheetModel.LongerGrid | client/src/hooks/useSpreadSheet.js:483 | the grid with one more cell covers the old cells with their values and the new one |
| SheetModel.Restyled | client/src/hooks/useSpreadSheet.js:478-520 | `setStylesAndMerges` keeps values and formulas; every given merge is added, and every other span left is an old one apart from the area |
| SheetModel.StylesAndMergesReadBack | client/src/hooks/useSpreadSheet.js:478-520 | after `setStylesAndMerges`, reading the area gives the styles back, and the spans meeting it are exactly the given merges that meet it |
| SheetModel.RowPositions | client/src/hooks/useSpreadSheet.js:573 | the inner loop visits the row's cells left to right |
| SheetModel.RowCell | client/src/hooks/useSpreadSheet.js:573 | a cell is visited in a row exactly when it lies in the row's span |
| SheetModel.BlockCell | client/src/hooks/useSpreadSheet.js:572-576 | a cell is visited by the two loops exactly when it lies in the rectangle |
| SheetModel.BlockCells | client/src/hooks/useSpreadSheet.js:572-576 | the visited cells are exactly those of the rectangle |
| SheetModel.InOrderConcat | client/src/hooks/useSpreadSheet.js:572 | two increasing runs, the first wholly before the second, join into an increasing run |
| SheetModel.BlockInOrder | client/src/hooks/useSpreadSheet.js:572-576 | the loops visit cells in strictly increasing row-major order, so each cell once |
| SheetModel.UncoveredNothing | client/src/hooks/useSpreadSheet.js:574 | unmerging no cell keeps every span |
| SheetModel.UncoverOneMore | client/src/hooks/useSpreadSheet.js:574 | unmerging one more cell removes the spans covering it |
| SheetModel.CoversBlockIffMeets | client/src/hooks/useSpreadSheet.js:574 | a span covers a cell of the area exactly when it meets the area |
| SheetModel.UncoveredBlock | client/src/hooks/useSpreadSheet.js:569-578 | unmerging every cell of an area leaves exactly the spans apart from it, in order |
| SheetModel.MeetingAfterReplace | client/src/hooks/useSpreadSheet.js:509-518 | after the spans meeting an area are removed and the merges added, the spans meeting it are exactly the merges that meet it |
| SheetModel.EventData | client/src/hooks/useSpreadSheet.js:242-272 | the record always carries the event type, and a sender of "spread" exactly when the sender is truthy |
| SheetModel.BaseApart | client/src/hooks/useSpreadSheet.js:242-246 | no key copied from `args` is `type` or `sender` |
| SheetModel.ArgsLayer | client/src/hooks/useSpreadSheet.js:249-271 | the fields copied from `args` keep their values and come only from the listed names |
| SheetModel.RangeLayer | client/src/hooks/useSpreadSheet.js:263-270 | only the defined coordinates of a truthy `args.range` are taken, with their values; nothing without one |
| SheetModel.RangeCoordinate | client/src/hooks/useSpreadSheet.js:265-268 | a coordinate is taken from `args.range` exactly when the range is truthy and defines it |
| SheetModel.Pick | client/src/hooks/useSpreadSheet.js:249-262 | a field of `args` is copied exactly when its test passes, with its value |
| SheetModel.ArgsCoordinate | client/src/hooks/useSpreadSheet.js:250-253 | row, col, rowCount and colCount are copied from `args` exactly when they are numbers |
| SheetModel.ArgsContent | client/src/hooks/useSpreadSheet.js:254-256 | newValue, oldValue and formula are copied exactly when defined |
| SheetModel.ArgsName | client/src/hooks/useSpreadSheet.js:257-271 | names and objects are copied exactly when truthy |
| SheetModel.EventCoordinate | client/src/hooks/useSpreadSheet.js:250-270 | a coordinate comes from a truthy `args.range` when defined there, else from `args` when numeric |
| SheetModel.EventValue | client/src/hooks/useSpreadSheet.js:254-256 | newValue, oldValue and formula are kept whenever defined, falsy or not |
| SheetModel.EventName | client/src/hooks/useSpreadSheet.js:257-262 | names are kept only when truthy, so an `action` of 0 is dropped |
| SheetModel.EventWithoutArgs | client/src/hooks/useSpreadSheet.js:242-249 | without `args` the record holds only the type and the sender |
| SheetModel.Detail | client/src/hooks/useSpreadSheet.js:276-287 | the event detail carries the type, the count, the record and the sheet info |
| SheetModel.SheetInfo | client/src/hooks/useSpreadSheet.js:279-283 | the sheet info holds the active sheet's name, row count and column count |
| SheetModel.EventFeed.constructor | client/src/hooks/useSpreadSheet.js:237 | the counter starts at 0 |
| SheetModel.EventFeed.Deliver | client/src/hooks/useSpreadSheet.js:239-287 | each event raises the one shared counter by one first; with an active sheet it reports the new count, its record and the sheet info; with none the handler throws and nothing is delivered |
| SheetModel.FirstNamed | client/src/hooks/useSpreadSheet.js:319 | the sheet found by name is the first carrying it; none exactly when no sheet carries it |
| SheetModel.NamesOf | client/src/hooks/useSpreadSheet.js:332 | the names of the sheets, in order |
| SheetModel.Editor.constructor | client/src/hooks/useSpreadSheet.js:91-96 | an editor holds its sheets and active index, with or without a designer yet |
| SheetModel.Editor.SheetIndex | client/src/hooks/useSpreadSheet.js:316-325 | none before the designer exists; a truthy name finds the sheet of that name, if any; otherwise the active sheet, if in range |
| SheetModel.Editor.SheetNames | client/src/hooks/useSpreadSheet.js:329-335 | the sheet names, or `[]` before the designer exists |
| SheetModel.Editor.SheetJson | client/src/hooks/useSpreadSheet.js:337-343 | the sheet's JSON, or `null` without a sheet |
| SheetModel.Editor.SheetCsv | client/src/hooks/useSpreadSheet.js:352-358 | the sheet's CSV, or "" without a sheet |
| SheetModel.Editor.Data | client/src/hooks/useSpreadSheet.js:390-405 | the area's grid in the value or formula layer, or `[]` without a sheet |
| SheetModel.Editor.WholeSheetData | client/src/hooks/useSpreadSheet.js:369-388 | the grid from (0, 0) over the sheet's size, or `[]` without a sheet |
| SheetModel.Editor.SetSheetJson | client/src/hooks/useSpreadSheet.js:345-350 | loads JSON into the sheet only when there is a sheet and the JSON is truthy; nothing else changes |
| SheetModel.Editor.SetSheetCsv | client/src/hooks/useSpreadSheet.js:360-365 | loads CSV likewise |
| SheetModel.Editor.SetData | client/src/hooks/useSpreadSheet.js:407-419 | writes the grid into that sheet only, when there is one |
| SheetModel.Editor.GetStylesAndMerges | client/src/hooks/useSpreadSheet.js:421-476 | the style grid and the spans meeting the area, counts defaulting to 1; both empty without a sheet |
| SheetModel.Editor.SetStylesAndMerges | client/src/hooks/useSpreadSheet.js:478-520 | paints each given style at its offset, then replaces the spans meeting the area by the given merges |
| SheetModel.Editor.ResetMergingStatus | client/src/hooks/useSpreadSheet.js:569-578 | unmerges the area cell by cell; the spans left are exactly those apart from the area |
| SheetModel.PaintStyles | client/src/hooks/useSpreadSheet.js:482-507 | the nested `setStyle` loop leaves exactly the map with the styles written at their offsets |
| SheetModel.PaintRowStart | client/src/hooks/useSpreadSheet.js:482-483 | the outer loop's step starts an empty row |
| SheetModel.PaintStep | client/src/hooks/useSpreadSheet.js:505 | one `setStyle` extends the written grid by one cell |
| SheetModel.UnmergeCells | client/src/hooks/useSpreadSheet.js:572-576 | the nested `unmerge` loop visits the area row by row and leaves the spans apart from it |
| SheetModel.UnmergeRow | client/src/hooks/useSpreadSheet.js:573-575 | the inner loop visits one row's cells left to right and leaves the spans that cover none of the cells visited so far |
| SyncEngine.OrOne | client/src/pages/SpreadSheetEditorPageSyncTest.jsx:104 | `count \|\| 1` is truthy and keeps a truthy count |
| SyncEngine.Classify | client/src/pages/SpreadSheetEditorPageSyncTest.jsx:63-144 | every sync copies a range onto itself; only a paste can throw; only span changes and pastes copy styles |
| SyncEngine.ValueChangedSyncsCell | client/src/pages/SpreadSheetEditorPageSyncTest.jsx:66-85 | a cell edit syncs its one cell's values and formulas, formula text or not, exactly when newValue, row and col are defined |
| SyncEngine.FormulaEnteredSyncsCell | client/src/pages/SpreadSheetEditorPageSyncTest.jsx:86-95 | a formula entry syncs its one cell's values and formulas exactly when formula, row and col are defined |
| SyncEngine.SpanChangeSyncsStyles | client/src/pages/SpreadSheetEditorPageSyncTest.jsx:100-115 | a merge or unmerge copies styles and merges only, over counts defaulted to 1 |
| SyncEngine.ClearSyncsValues | client/src/pages/SpreadSheetEditorPageSyncTest.jsx:116-124 | a clear (action "clear" or 2) copies values and formulas; any other range change copies nothing |
| SyncEngine.PasteSyncsEverything | client/src/pages/SpreadSheetEditorPageSyncTest.jsx:126-137 | a paste copies all three layers over its cellRange; without a cellRange the handler throws |
| SyncEngine.OtherEventsIgnored | client/src/pages/SpreadSheetEditorPageSyncTest.jsx:96-98 | selection changes, cell changes and all other events copy nothing |
| SyncEngine.AreaOf | client/src/pages/SpreadSheetEditorPageSyncTest.jsx:42 | a range is usable exactly when its four fields are numbers |
| SyncEngine.MeetingTwice | client/src/pages/SpreadSheetEditorPageSyncTest.jsx:52-53 | the spans meeting an area, filtered again, are unchanged |
| SyncEngine.Synced | client/src/pages/SpreadSheetEditorPageSyncTest.jsx:35-55 | each flag guards its own layer: an unset flag leaves that layer of editor 2 unchanged; the sheet's name and size never change |
| SyncEngine.SyncedMirrors | client/src/pages/SpreadSheetEditorPageSyncTest.jsx:35-55 | after a sync of a range onto itself, each copied layer of editor 2 reads there as editor 1's, and so do its merges |
| SyncEngine.MirrorsValues | client/src/pages/SpreadSheetEditorPageSyncTest.jsx:41-44 | copied values read back as the source's |
| SyncEngine.MirrorsFormulas | client/src/pages/SpreadSheetEditorPageSyncTest.jsx:46-49 | copied formulas read back as the source's, even after the values write |
| SyncEngine.WriteThenRead | client/src/pages/SpreadSheetEditorPageSyncTest.jsx:42-43 | a grid of the area's size, written and read back, is unchanged |
| SyncEngine.MirrorsStyles | client/src/pages/SpreadSheetEditorPageSyncTest.jsx:51-54 | copied styles and merges read back as the source's |
| SyncEngine.GridAgrees | client/src/pages/SpreadSheetEditorPageSyncTest.jsx:42 | a read depends only on the cells of its layer |
| SyncEngine.GridClamped | client/src/pages/SpreadSheetEditorPageSyncTest.jsx:42 | a read over negative counts equals a read over zero |
| SyncEngine.SyncCellRange | client/src/pages/SpreadSheetEditorPageSyncTest.jsx:35-55 | editor 2's active sheet becomes `Synced` of editor 1's, layer by flag; no other sheet changes |
| SyncEngine.OnEditorEvent | client/src/pages/SpreadSheetEditorPageSyncTest.jsx:58-146 | the callback classifies the event and performs exactly that sync when its range is numeric, otherwise leaves editor 2 unchanged |
| CommandPage.Executes | client/src/pages/SpreadSheetEditorPageJSONTemplateCreation.jsx:118 | a message that is executed is an object carrying `type` and `command` |
| CommandPage.Ack | client/src/pages/SpreadSheetEditorPageJSONTemplateCreation.jsx:120 | the ack is the result with type `command_ack` and the message's `requestId`; every other field is the result's |
| CommandPage.Reply | client/src/pages/SpreadSheetEditorPageJSONTemplateCreation.jsx:117-124 | the page replies exactly to messages of type `command` with a truthy command |
| CommandPage.EveryCommandAcked | client/src/pages/SpreadSheetEditorPageJSONTemplateCreation.jsx:117-124 | each executed command gets one ack naming it, with the `requestId` and the registry's success, result or error |
| CommandPage.UnknownCommandAcked | client/src/pages/SpreadSheetEditorPageJSONTemplateCreation.jsx:119-122 | an unknown command is still acked, as a failure naming it |
| CommandPage.ServerNoticesIgnored | client/src/pages/SpreadSheetEditorPageJSONTemplateCreation.jsx:118 | welcome, pong, ack and error notices from the broker are never answered |
| CommandPage.AcksNeverAnswered | client/src/pages/SpreadSheetEditorPageJSONTemplateCreation.jsx:118-120 | an ack is never executed, so pages never answer each other's acks |
| CommandPage.RelayedAckLosesRequestId | client/src/pages/SpreadSheetEditorPageJSONTemplateCreation.jsx:120 | a command relayed by the broker is acked with no `requestId` in the frame |
| CommandPage.SetCellParamsMissOrigin | server/mcp-server.js:54 | set-cell's params carry no startRow, startCol or sheetName, which `setProcessedData` reads |
| CommandPage.SetCellLandsWithoutOrigin | client/src/hooks/useSpreadsheetCommands.js:36-38 | a gateway set-cell executed by the page calls `setProcessedData` with undefined origin and sheet name |
| CommandPage.SetActiveSheetLandsWithoutIndex | client/src/hooks/useSpreadsheetCommands.js:10 | a gateway set-active-sheet calls `setActiveSheetIndex` with undefined |
| CommandPage.SetSheetJsonLandsWithoutJson | client/src/hooks/useSpreadsheetCommands.js:17 | a gateway set-sheet-json (sent as `template`) calls `setSheetJSON` with undefined json |
| CommandPage.UnexportedCommandFails | client/src/pages/SpreadSheetEditorPageJSONTemplateCreation.jsx:60-108 | a listed command whose function the sheet hook does not export fails with the TypeError of calling undefined |
| CommandPage.FindsAddRows | client/src/hooks/useSpreadsheetCommands.js:57 | the table finds `addRows` |
| CommandPage.AddRowsFailsOnPage | client/src/hooks/useSpreadSheet.js:590-612 | `addRows` is listed but not exported, so on this page it always fails |
| CommandPage.Page.constructor | client/src/pages/SpreadSheetEditorPageJSONTemplateCreation.jsx:60-117 | the page holds its session, table and spreadsheet functions |
| CommandPage.Page.Mount | client/src/pages/SpreadSheetEditorPageJSONTemplateCreation.jsx:130-132 | mounting connects once |
| CommandPage.Page.Unmount | client/src/pages/SpreadSheetEditorPageJSONTemplateCreation.jsx:138-141 | unmounting disconnects |
| CommandPage.Page.OnMessage | client/src/pages/SpreadSheetEditorPageJSONTemplateCreation.jsx:117-124 | the reply is `Reply`, and the session changes only by sending it |
| DebugOverlay.Kept | client/src/components/WebSocketDebugOverlay.jsx:22 | `slice(-49)` keeps the last 49 entries, or all when fewer |
| DebugOverlay.Appended | client/src/components/WebSocketDebugOverlay.jsx:20-29 | the log after adding holds 1 to 50 entries, ends with the new one, is preceded by a suffix of the old log, and is the old log plus the entry while under 50 |
| DebugOverlay.Window | client/src/components/WebSocketDebugOverlay.jsx:22 | the last fifty entries of a history |
| DebugOverlay.AppendedIsWindow | client/src/components/WebSocketDebugOverlay.jsx:22 | adding one entry to the window of a history gives the window of the longer history |
| DebugOverlay.AppendAll | client/src/components/WebSocketDebugOverlay.jsx:20-29 | after one or more messages the log holds one to fifty entries and ends with the latest |
| DebugOverlay.LogIsLastFifty | client/src/components/WebSocketDebugOverlay.jsx:20-29 | however many entries arrive, the log is exactly the last fifty added since it was cleared, in arrival order |
| DebugOverlay.Defaulted | client/src/components/WebSocketDebugOverlay.jsx:20-32 | a default parameter (direction "out", type "command") applies exactly when no argument is passed; a passed value, `null` included, is kept |
| DebugOverlay.ParamsOf | client/src/components/WebSocketDebugOverlay.jsx:37 | blank parameter text gives `{}`; other text is parsed as typed, untrimmed |
| DebugOverlay.Frame | client/src/components/WebSocketDebugOverlay.jsx:43-47 | the command sent carries the type, the command and the params |
| DebugOverlay.SendCommand | client/src/components/WebSocketDebugOverlay.jsx:32-57 | a send is ignored exactly when the trimmed command is empty; a rejection logs an outgoing "error" entry |
| DebugOverlay.BlankCommandIgnored | client/src/components/WebSocketDebugOverlay.jsx:33 | a send logs and sends nothing exactly when the command text is all white space |
| DebugOverlay.BadParamsRejected | client/src/components/WebSocketDebugOverlay.jsx:36-41 | parameter text that does not parse logs one "Invalid params JSON: message" error and sends nothing |
| DebugOverlay.FramedCommand | client/src/components/WebSocketDebugOverlay.jsx:43-49 | a sent command has the defaulted type, the trimmed command and the params; its log entry has the same type and its JSON text |
| DebugOverlay.BlankParamsAreEmpty | client/src/components/WebSocketDebugOverlay.jsx:37 | blank parameter text is never parsed: the command goes out with `{}` |
| DebugOverlay.Overlay.constructor | client/src/components/WebSocketDebugOverlay.jsx:6-8 | the log and both inputs start empty |
| DebugOverlay.Overlay.Edit | client/src/components/WebSocketDebugOverlay.jsx:202-215 | the two inputs take the typed text; the log is unchanged |
| DebugOverlay.Overlay.AddMessage | client/src/components/WebSocketDebugOverlay.jsx:20-29 | the log becomes `Appended` of the old log and the entry, direction defaulted |
| DebugOverlay.Overlay.HandleSendCommand | client/src/components/WebSocketDebugOverlay.jsx:32-57 | the log gains the step's entry, if any; the command is handed on exactly when it was framed and a handler exists; the inputs are kept |
| DebugOverlay.Overlay.HandlePing | client/src/components/WebSocketDebugOverlay.jsx:60-67 | logs the ping and hands `{type: 'ping'}` on when a handler exists |
| DebugOverlay.Overlay.ClearMessages | client/src/components/WebSocketDebugOverlay.jsx:70-72 | empties the log and keeps the inputs |

## Left out

- Timestamps, message ids and entry ids come from the clock and `Math.random`. They are omitted from every record.
- Console and debug logging is not modelled. The page's debug line for each ack is not modelled either.
- The overlay's `onRecvCommand` hook is not modelled: it exposes `addMessage` to the page and does nothing more. The auto-scroll, visibility toggle and keyboard handling are not modelled either.
- `JSON.parse` and `JSON.stringify` are parameters (`parse`, `stringify`, `Frame`). A frame that fails to parse is `None`.
- JavaScript numbers are modelled as unbounded integers. Fractions, NaN arithmetic and the 53-bit limit are not modelled.
- AdminGateway.ParseInt: handles ASCII digits, signs and the `0x` prefix, after skipping the same white space as `trim`. It does not model precision loss on very long digit runs.
- The gateway's catalog is a constant without the entries' `endpoint` strings. Only set-charts' entry is compared with its route.
- A missing request body makes the gateway answer 500 with an empty body. Fastify's own error body is not modelled.
- The start-up banner in server/server.js lists a `load-template` endpoint that no route serves; it only logs it.
- RelayBroker.Broker.Accept: requires the new socket not to be a member already. The ws library gives each connection a fresh socket object.
- RelayBroker.Broker.Remove: one call models both the `close` and the `error` handler. Their order and any repetition do not matter, because removing a non-member changes nothing.
- Concurrency between sockets is left out. Each handler runs to completion, in the order events are given.
- CommandRegistry.Find: looks up own keys only. A name such as `toString` or `constructor`, inherited by the object literal, is not modelled, nor what it does.
- The 36 table names are not proved pairwise distinct. The lookup lemmas for individual names establish only the first match.
- V8's TypeError texts are modelled by two fixed templates (`NullRead`, `NotAFunction`).
- SyncEngine.OrOne: `|| 1` keeps a negative count. The reads then treat it as zero rows (`Clamp`); the library's behaviour on negative counts is not modelled.
- The spreadsheet library is abstract: a sheet is a map per layer plus a list of spans. The following are parameters or simple map updates, not models of the library:
  - `getArray` and `setArray`;
  - style conversion in `getStylesAndMerges` and `setStylesAndMerges`;
  - `unmerge` as "remove the spans covering the cell";
  - `addSpan` as an append;
  - `toJSON`, `toCSV`, `fromJSON` and `fromCSV`;
  - the chart functions.
- `getCharts`, `setCharts`, `getSheetCSVOfRange` and the row, column and formatter commands have no model beyond their registry entries. `getCharts` and `setCharts` only copy fields to and from the library.
- SheetModel.Editor.SheetIndex: a truthy name that is not a string finds no sheet. The library's `getSheetFromName` on such a value is not modelled.
- The sheet hook subscribes to 135 event types, and every one shares the single counter of `EventFeed`. The list itself is not modelled.
- Events from a superseded socket after a reconnect are not modelled.
- An exception thrown by the page's `onMessage` callback is caught by the parse handler. That path is not modelled.
- The defaults of `syncCellRange` in SyncTest.jsx cannot take effect, because every caller passes all three flags. The model takes the flags as given.
- SyncEngine.OnEditorEvent: skips a sync whose range fields are not all numbers. The library's reads on such arguments are not modelled.
- `lastEvent` is always an object: the hook always builds one.
- SheetModel.PaintStyles and SheetModel.UnmergeCells compute on local values. `Editor.SetStylesAndMerges` and `Editor.ResetMergingStatus` then store the results. The in-place order of the library calls is not otherwise modelled.
- The overlay's Send button passes its click event as `type` (line 224). The model takes `kind` as a parameter and does not model that event object. Enter (line 209) uses the default.
- The overlay's parameter field asks for a JSON array, but an array is sent as it is and a plain object works the same way. Nothing is checked.
