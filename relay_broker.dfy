/**
 * The relay's WebSocket server (server/server.js): the live client set with
 * its capacity check, the switch on the type of each inbound message, and the
 * fan-out of a `command` to every other open client followed by an
 * acknowledgment to the sender.  Each handled event yields the list of
 * socket operations it performs, in order.
 */
module RelayBroker {
  import opened JsValue

  /** A socket, by identity (the ws library's socket object). */
  type SocketId = nat

  /** Close code 1008, "policy violation" (section 7.4.1 of RFC 6455). */
  const PolicyViolation := 1008
  const ServerFullReason := "Server full"
  const DefaultMaxConnections := 100
  const WelcomeText := "Connected to Spreadsheet WebSocket Server"

  /**
   * `parseInt(process.env.WEBSOCKET_MAX_CONNECTIONS) || 100`, where None is
   * NaN (unset or unparsable): NaN and 0 both fall back to 100.
   */
  function MaxConnections(parsed: Option<int>): (r: int)
    ensures r != 0
    ensures parsed.None? || parsed == Some(0) ==> r == DefaultMaxConnections
    ensures parsed.Some? && parsed.value != 0 ==> r == parsed.value
  {
    if parsed.Some? && parsed.value != 0 then parsed.value else DefaultMaxConnections
  }

  /** What the server writes to a socket; every frame also carries a timestamp, left out here. */
  datatype ServerMsg =
    | Welcome
    | Pong
      /** a relayed or echoed command: only type, command and params are forwarded */
    | Command(command: Value, params: Value)
    | CommandAck(command: Value, broadcastCount: nat)
    | UnknownType(receivedType: Value)
    | InvalidJson
      /** a command issued by the administrative gateway, tagged `source: 'mcp'` */
    | McpCommand(operation: string, payload: Value)

  /**
   * The object a client parses from the frame the server writes for `m`.
   * Every frame has a string `type`, which is "command" exactly for relayed
   * and gateway commands, and none carries a `requestId`.
   */
  function Encode(m: ServerMsg): (r: Value)
    ensures r.Obj? && Get(r, "type").Str?
    ensures Get(r, "type") == Str("command") <==> m.Command? || m.McpCommand?
    ensures Get(r, "requestId") == Undefined
  {
    match m
    case Welcome => Record(map["type" := Str("welcome"), "message" := Str(WelcomeText)])
    case Pong => Record(map["type" := Str("pong")])
    case Command(c, p) => Record(map["type" := Str("command"), "command" := c, "params" := p])
    case CommandAck(c, n) =>
      Record(map["type" := Str("command_ack"), "command" := c, "status" := Str("sent"), "broadcastCount" := Num(n)])
    case UnknownType(t) =>
      Record(map["type" := Str("error"), "message" := Str("Unknown message type"), "receivedType" := t])
    case InvalidJson => Record(map["type" := Str("error"), "message" := Str("Invalid JSON format")])
    case McpCommand(c, p) =>
      Record(map["type" := Str("command"), "command" := Str(c), "params" := p, "source" := Str("mcp")])
  }

  /** A socket operation: `ws.send(...)` or `ws.close(code, reason)`. */
  datatype Effect =
    | Send(to: SocketId, msg: ServerMsg)
    | Close(to: SocketId, code: int, reason: string)

  predicate NoDuplicates(cs: seq<SocketId>) {
    forall i, j :: 0 <= i < j < |cs| ==> cs[i] != cs[j]
  }

  /** `clients.delete(id)` on the Set kept in insertion order. */
  function Without(cs: seq<SocketId>, id: SocketId): (r: seq<SocketId>)
    ensures forall c :: c in r <==> c in cs && c != id
    ensures NoDuplicates(cs) ==> NoDuplicates(r)
    ensures NoDuplicates(cs) && id in cs ==> |r| == |cs| - 1
    ensures id !in cs ==> r == cs
  {
    if cs == [] then []
    else if cs[0] == id then Without(cs[1..], id)
    else
      var rest := Without(cs[1..], id);
      assert NoDuplicates(cs) ==> cs[0] !in cs[1..] && NoDuplicates(cs[1..]);
      [cs[0]] + rest
  }

  /** A client that a broadcast excluding `exclude` reaches. */
  predicate Reached(c: SocketId, open: set<SocketId>, exclude: Option<SocketId>) {
    c in open && exclude != Some(c)
  }

  /**
   * `clients.forEach(client => { if (<reached>) client.send(m) })`: one send
   * per reached client, in the order of the Set.
   */
  function Deliveries(clients: seq<SocketId>, open: set<SocketId>, exclude: Option<SocketId>, m: ServerMsg)
    : (r: seq<Effect>)
    ensures |r| <= |clients|
    ensures forall e :: e in r ==> e == Send(e.to, m) && e.to in clients && Reached(e.to, open, exclude)
  {
    if clients == [] then []
    else
      var c := clients[|clients| - 1];
      Deliveries(clients[..|clients| - 1], open, exclude, m) + (if Reached(c, open, exclude) then [Send(c, m)] else [])
  }

  /** Every delivery is a send of `m` to a reached member, and every reached member gets one. */
  lemma {:induction false} DeliveriesExactly(clients: seq<SocketId>, open: set<SocketId>, exclude: Option<SocketId>, m: ServerMsg)
    ensures forall e :: e in Deliveries(clients, open, exclude, m) ==>
      e.Send? && e.msg == m && e.to in clients && Reached(e.to, open, exclude)
    ensures forall c :: c in clients && Reached(c, open, exclude) ==> Send(c, m) in Deliveries(clients, open, exclude, m)
    ensures |Deliveries(clients, open, exclude, m)| <= |clients|
  {
    if clients != [] {
      var init := clients[..|clients| - 1];
      DeliveriesExactly(init, open, exclude, m);
      assert clients == init + [clients[|clients| - 1]];
    }
  }

  /** The members a broadcast reaches. */
  function ReachedSet(clients: seq<SocketId>, open: set<SocketId>, exclude: Option<SocketId>): set<SocketId> {
    set c | c in clients && Reached(c, open, exclude)
  }

  /** The reached members of a list extended by one member. */
  lemma ReachedSetLast(init: seq<SocketId>, c: SocketId, open: set<SocketId>, exclude: Option<SocketId>)
    ensures ReachedSet(init + [c], open, exclude) ==
      ReachedSet(init, open, exclude) + (if Reached(c, open, exclude) then {c} else {})
    ensures c !in init ==> c !in ReachedSet(init, open, exclude)
  {
  }

  /** With no duplicate members, the number of deliveries is the number of reached members. */
  lemma {:induction false} DeliveriesCount(clients: seq<SocketId>, open: set<SocketId>, exclude: Option<SocketId>, m: ServerMsg)
    requires NoDuplicates(clients)
    ensures |Deliveries(clients, open, exclude, m)| == |ReachedSet(clients, open, exclude)|
  {
    if clients == [] {
      assert ReachedSet(clients, open, exclude) == {};
    } else {
      var init := clients[..|clients| - 1];
      var c := clients[|clients| - 1];
      assert clients == init + [c];
      assert NoDuplicates(init) by {
        assert forall i, j :: 0 <= i < j < |init| ==> init[i] == clients[i] && init[j] == clients[j];
      }
      DeliveriesCount(init, open, exclude, m);
      assert c !in init by {
        assert forall k :: 0 <= k < |init| ==> init[k] == clients[k] != clients[|clients| - 1];
      }
      ReachedSetLast(init, c, open, exclude);
      var before := ReachedSet(init, open, exclude);
      assert ReachedSet(clients, open, exclude) == before + (if Reached(c, open, exclude) then {c} else {});
      assert Deliveries(clients, open, exclude, m)
        == Deliveries(init, open, exclude, m) + (if Reached(c, open, exclude) then [Send(c, m)] else []);
      if Reached(c, open, exclude) {
        assert |before + {c}| == |before| + 1;
      }
    }
  }

  /** The `type` of a parsed message; None when reading it throws (the message is `null`). */
  function TypeOf(data: Value): (r: Option<Value>)
    ensures r.None? <==> data.Null? || data.Undefined?
    ensures r.Some? ==> r.value == Get(data, "type")
  {
    Prop(data, "type")
  }

  /**
   * The 'message' handler of a connection from `sender`.  `frame` is the
   * outcome of `JSON.parse` (None when it throws); reading `type` of a
   * `null` message throws inside the same `try` and is reported the same way.
   * Only an ack goes unanswered, the sender always gets the last frame, and
   * no one else gets anything but the relayed command.
   */
  function Dispatch(clients: seq<SocketId>, open: set<SocketId>, sender: SocketId, frame: Option<Value>)
    : (r: seq<Effect>)
    ensures r == [] <==> frame.Some? && TypeOf(frame.value) == Some(Str("command_ack"))
    ensures r != [] ==> r[|r| - 1].Send? && r[|r| - 1].to == sender
    ensures |r| <= |clients| + 1
    ensures forall e :: e in r ==> e.Send? && (e.to == sender || (e.to in open && e.msg.Command?))
  {
    if frame.None? || TypeOf(frame.value).None? then [Send(sender, InvalidJson)]
    else
      var data := frame.value;
      var t := TypeOf(data).value;
      if t == Str("ping") then [Send(sender, Pong)]
      else if t == Str("command_echo") then [Send(sender, Command(Get(data, "command"), Get(data, "params")))]
      else if t == Str("command") then
        var fan := Deliveries(clients, open, Some(sender), Command(Get(data, "command"), Get(data, "params")));
        fan + [Send(sender, CommandAck(Get(data, "command"), |fan|))]
      else if t == Str("command_ack") then []
      else [Send(sender, UnknownType(t))]
  }

  /**
   * Every message type other than `command` is answered to the sender alone:
   * one `pong` for `ping`; the same command and params, as a `command`, for
   * `command_echo`; nothing for `command_ack`; an `error` naming the received
   * type for any other type; an `error` for input that does not parse.
   */
  lemma RepliesOnlyToSender(clients: seq<SocketId>, open: set<SocketId>, sender: SocketId, frame: Option<Value>)
    ensures var out := Dispatch(clients, open, sender, frame);
      && (frame.None? || TypeOf(frame.value).None? ==> out == [Send(sender, InvalidJson)])
      && (frame.Some? && TypeOf(frame.value) == Some(Str("ping")) ==> out == [Send(sender, Pong)])
      && (frame.Some? && TypeOf(frame.value) == Some(Str("command_echo")) ==>
            out == [Send(sender, Command(Get(frame.value, "command"), Get(frame.value, "params")))])
      && (frame.Some? && TypeOf(frame.value) == Some(Str("command_ack")) ==> out == [])
      && (frame.Some? && TypeOf(frame.value).Some? &&
          TypeOf(frame.value).value !in {Str("ping"), Str("command_echo"), Str("command"), Str("command_ack")} ==>
            out == [Send(sender, UnknownType(TypeOf(frame.value).value))])
  {
  }

  /**
   * A `command` goes, with only its command and params, to every member other
   * than the sender whose state is OPEN and to no one else, and the sender
   * then gets one `command_ack` whose `broadcastCount` is the number of
   * those members.
   */
  lemma CommandFansOut(clients: seq<SocketId>, open: set<SocketId>, sender: SocketId, data: Value)
    requires NoDuplicates(clients)
    requires TypeOf(data) == Some(Str("command"))
    ensures var out := Dispatch(clients, open, sender, Some(data));
      var relayed := Command(Get(data, "command"), Get(data, "params"));
      var peers := ReachedSet(clients, open, Some(sender));
      && |out| == |peers| + 1
      && out[|out| - 1] == Send(sender, CommandAck(Get(data, "command"), |peers|))
      && (forall e :: e in out[..|out| - 1] ==> e.Send? && e.msg == relayed && e.to in peers)
      && (forall c :: c in peers ==> Send(c, relayed) in out)
      && sender !in peers
  {
    var relayed := Command(Get(data, "command"), Get(data, "params"));
    var fan := Deliveries(clients, open, Some(sender), relayed);
    DeliveriesExactly(clients, open, Some(sender), relayed);
    DeliveriesCount(clients, open, Some(sender), relayed);
    var out := Dispatch(clients, open, sender, Some(data));
    assert out == fan + [Send(sender, CommandAck(Get(data, "command"), |fan|))];
    assert out[..|out| - 1] == fan;
  }

  /** The relayed command carries neither the sender's `requestId` nor its `source`. */
  lemma RelayDropsCorrelation(command: Value, params: Value)
    ensures Get(Encode(Command(command, params)), "requestId") == Undefined
    ensures Get(Encode(Command(command, params)), "source") == Undefined
    ensures Get(Encode(Command(command, params)), "type") == Str("command")
  {
  }

  /**
   * The live client set of the server.  `clients` is the Set of accepted
   * sockets in insertion order; `open` holds the members whose readyState is
   * OPEN (the ws library moves a socket out of OPEN when it starts closing,
   * before its 'close' event).
   */
  class Broker {
    const maxConnections: int
    var clients: seq<SocketId>
    var open: set<SocketId>

    ghost predicate Valid()
      reads this
    {
      && NoDuplicates(clients)
      && (|clients| <= maxConnections || clients == [])
      && (forall c :: c in open ==> c in clients)
    }

    constructor (parsedMax: Option<int>)
      ensures Valid()
      ensures maxConnections == MaxConnections(parsedMax)
      ensures clients == [] && open == {}
    {
      maxConnections := MaxConnections(parsedMax);
      clients := [];
      open := {};
    }

    /** The 'connection' handler for a new socket `id`. */
    method Accept(id: SocketId) returns (out: seq<Effect>)
      requires Valid()
      requires id !in clients
      modifies this
      ensures Valid()
      ensures old(|clients|) >= maxConnections ==>
        out == [Close(id, PolicyViolation, ServerFullReason)] && clients == old(clients) && open == old(open)
      ensures old(|clients|) < maxConnections ==>
        out == [Send(id, Welcome)] && clients == old(clients) + [id] && open == old(open) + {id}
    {
      if |clients| >= maxConnections {
        out := [Close(id, PolicyViolation, ServerFullReason)];
        return;
      }
      clients := clients + [id];
      open := open + {id};
      out := [Send(id, Welcome)];
    }

    /** The socket `id` starts closing: its readyState is no longer OPEN. */
    method StopBeingOpen(id: SocketId)
      requires Valid()
      modifies this`open
      ensures Valid()
      ensures open == old(open) - {id}
    {
      open := open - {id};
    }

    /** The 'close' and 'error' handlers: `clients.delete(ws)`. */
    method Remove(id: SocketId)
      requires Valid()
      modifies this
      ensures Valid()
      ensures clients == Without(old(clients), id) && open == old(open) - {id}
      ensures id in old(clients) ==> |clients| == old(|clients|) - 1
    {
      clients := Without(clients, id);
      open := open - {id};
    }

    /** The 'message' handler; the client set is left as it is. */
    method Handle(sender: SocketId, frame: Option<Value>) returns (out: seq<Effect>)
      ensures out == Dispatch(clients, open, sender, frame)
    {
      if frame.None? || TypeOf(frame.value).None? {
        out := [Send(sender, InvalidJson)];
        return;
      }
      var data := frame.value;
      var t := TypeOf(data).value;
      if t == Str("ping") {
        out := [Send(sender, Pong)];
      } else if t == Str("command_echo") {
        out := [Send(sender, Command(Get(data, "command"), Get(data, "params")))];
      } else if t == Str("command") {
        var relayed := Command(Get(data, "command"), Get(data, "params"));
        var broadcastCount := 0;
        out := [];
        var i := 0;
        while i < |clients|
          invariant 0 <= i <= |clients|
          invariant out == Deliveries(clients[..i], open, Some(sender), relayed)
          invariant broadcastCount == |out|
        {
          var client := clients[i];
          assert clients[..i + 1] == clients[..i] + [client];
          if client != sender && client in open {
            out := out + [Send(client, relayed)];
            broadcastCount := broadcastCount + 1;
          }
          i := i + 1;
        }
        assert clients[..i] == clients;
        out := out + [Send(sender, CommandAck(Get(data, "command"), broadcastCount))];
      } else if t == Str("command_ack") {
        out := [];
      } else {
        out := [Send(sender, UnknownType(t))];
      }
    }
  }
}
