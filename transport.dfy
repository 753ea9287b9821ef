/**
 * The browser side of the relay connection (the `useWebSocket` hook): a
 * session holding the current socket, the connected flag, the last error,
 * the reconnect attempt counter and the pending reconnect timer.  The
 * browser's events (open, message, close, error, the timer firing) and the
 * page's calls (connect, disconnect, send) are the steps of a state machine.
 *
 * `Step` is that machine on values; the class `Session` holds the same state
 * in fields and each of its methods is proved to perform exactly one step.
 */
module Transport {
  import opened JsValue

  const MaxReconnectAttempts := 5
  /** The fixed delay, in milliseconds, before each reconnect. */
  const ReconnectDelay := 3000
  /** "Normal closure", section 7.4.1 of RFC 6455. */
  const NormalClosure := 1000

  /**
   * The `readyState` of the socket `wsRef.current` holds.  CLOSED is never
   * observed through it: the close handler clears the reference.
   */
  datatype ReadyState = Connecting | Open | Closing

  /** Where the error recorded in the session came from. */
  datatype Fault = CreateFailed | ParseFailed | SocketError | SendFailed

  /**
   * A frame handed to `WebSocket.send`: a string goes out verbatim, any other
   * value as its JSON text (the serialisation itself is not modelled).
   */
  datatype Wire = Verbatim(text: string) | Json(value: Value)

  datatype State = State(
    hasHandler: bool,            // an `onMessage` callback was given
    connected: bool,             // `isConnected`
    socket: Option<ReadyState>,  // `wsRef.current` and its `readyState`
    timerPending: bool,          // a reconnect scheduled and not yet fired or cleared
    attempts: nat,               // `reconnectAttempts.current`
    error: Option<Fault>,
    lastMessage: Value,
    delivered: seq<Value>,       // messages passed to `onMessage`, in order
    sent: seq<Wire>,             // frames passed to `send`, in order
    closes: seq<int>,            // codes this side closed a socket with
    delays: seq<nat>)            // the delay of every reconnect scheduled, in order

  function Initial(hasHandler: bool): State {
    State(hasHandler, false, None, false, 0, None, Null, [], [], [], [])
  }

  datatype Event =
    | Connect(throws: bool)        // the page calls `connect`; the constructor may throw
    | Opened                       // the socket's `open` event
    | Received(parsed: Option<Value>)  // a `message` event; None when its data is not JSON
    | StartedClosing               // the socket leaves OPEN: a close frame arrived, or the handshake began
    | ClosedWith(code: int)        // the socket's `close` event
    | Errored                      // the socket's `error` event
    | TimerFired(throws: bool)     // the reconnect timer runs `connect`
    | Disconnect                   // the page calls `disconnect`

  function AfterConnect(s: State, throws: bool): State {
    if throws then s.(error := Some(CreateFailed))
    else s.(socket := Some(Connecting))
  }

  /** Whether a close with `code` schedules a reconnect. */
  predicate Reconnects(s: State, code: int) {
    code != NormalClosure && s.attempts < MaxReconnectAttempts
  }

  /**
   * One event.  The histories (`delivered`, `sent`, `closes`, `delays`) only
   * grow, by at most one entry; only an open sets the connected flag; only a
   * close raises the counter, by one and never past five.
   */
  function Step(s: State, e: Event): (r: State)
    ensures r.hasHandler == s.hasHandler
    ensures s.delivered <= r.delivered && |r.delivered| <= |s.delivered| + 1
    ensures s.sent == r.sent
    ensures s.closes <= r.closes && |r.closes| <= |s.closes| + 1
    ensures s.delays <= r.delays && |r.delays| <= |s.delays| + 1
    ensures r.connected ==> e.Opened? || s.connected
    ensures r.attempts > s.attempts ==> e.ClosedWith? && r.attempts == s.attempts + 1 <= MaxReconnectAttempts
  {
    match e
    case Connect(throws) => AfterConnect(s, throws)
    case Opened =>
      s.(connected := true, error := None, attempts := 0,
         socket := if s.socket.Some? then Some(Open) else None)
    case Received(parsed) =>
      if parsed.None? then s.(error := Some(ParseFailed))
      else
        var m := parsed.value;
        // `message.type` is read before `onMessage` runs: a TypeError on `null`
        if Prop(m, "type").None? then s.(lastMessage := m, error := Some(ParseFailed))
        else if s.hasHandler then s.(lastMessage := m, delivered := s.delivered + [m])
        else s.(lastMessage := m)
    case StartedClosing => s.(socket := if s.socket.Some? then Some(Closing) else None)
    case ClosedWith(code) =>
      var t := s.(connected := false, socket := None);
      if Reconnects(s, code) then
        t.(attempts := s.attempts + 1, timerPending := true, delays := s.delays + [ReconnectDelay])
      else t
    case Errored => s.(error := Some(SocketError))
    case TimerFired(throws) =>
      if s.timerPending then AfterConnect(s.(timerPending := false), throws) else s
    case Disconnect =>
      s.(timerPending := false, socket := None, connected := false, attempts := 0,
         closes := if s.socket.Some? then s.closes + [NormalClosure] else s.closes)
  }

  function Run(s: State, es: seq<Event>): State
    decreases |es|
  {
    if es == [] then s else Run(Step(s, es[0]), es[1..])
  }

  /** The frame `sendMessage` hands to `send` for `message`. */
  function Frame(message: Value): Wire {
    if message.Str? then Verbatim(message.s) else Json(message)
  }

  /**
   * The state after `sendMessage(message)`; `throws` says whether `send`
   * throws.  At most the one frame goes out, and only the sent frames and the
   * error can change.
   */
  function AfterSend(s: State, message: Value, throws: bool): (r: State)
    ensures r.sent == s.sent || r.sent == s.sent + [Frame(message)]
    ensures r == s.(sent := r.sent, error := r.error)
  {
    if s.socket != Some(Open) then s
    else if throws then s.(error := Some(SendFailed))
    else
      var t := s.(sent := s.sent + [Frame(message)]);
      // the debug line reads `message.type` after the frame is out
      if Prop(message, "type").None? then t.(error := Some(SendFailed)) else t
  }

  /** What `sendMessage(message)` returns: true only when the frame went out and nothing failed. */
  predicate SendResult(s: State, message: Value, throws: bool)
    ensures SendResult(s, message, throws) ==>
      AfterSend(s, message, throws) == s.(sent := s.sent + [Frame(message)])
  {
    s.socket == Some(Open) && !throws && Prop(message, "type").Some?
  }

  // ---------------------------------------------------------------- properties

  /** A successful open marks the session connected, clears the error and resets the counter. */
  lemma OpenResets(s: State)
    ensures var t := Step(s, Opened);
      t.connected && t.error.None? && t.attempts == 0 && t.delays == s.delays
  {
  }

  /**
   * A close always drops the socket and the connected flag; it schedules one
   * reconnect, after the fixed delay and with the counter incremented first,
   * exactly when the code is not 1000 and fewer than five attempts were made.
   */
  lemma CloseRule(s: State, code: int)
    ensures var t := Step(s, ClosedWith(code));
      && !t.connected && t.socket.None?
      && (|t.delays| == |s.delays| + 1 <==> code != NormalClosure && s.attempts < MaxReconnectAttempts)
      && (|t.delays| == |s.delays| + 1 ==>
            t.timerPending && t.attempts == s.attempts + 1 && t.delays[|s.delays|] == ReconnectDelay)
      && (|t.delays| != |s.delays| + 1 ==> t.delays == s.delays && t.attempts == s.attempts)
  {
  }

  /** Neither an open nor a disconnect: the events that never reset the counter. */
  predicate Unreset(es: seq<Event>) {
    forall i :: 0 <= i < |es| ==> !es[i].Opened? && !es[i].Disconnect?
  }

  /**
   * While no open or disconnect intervenes, every reconnect scheduled raises
   * the counter by one, and the counter never passes five.
   */
  lemma {:induction false} ScheduledMatchesCounter(s: State, es: seq<Event>)
    requires s.attempts <= MaxReconnectAttempts && Unreset(es)
    ensures var t := Run(s, es);
      && s.delays <= t.delays
      && |t.delays| - |s.delays| == t.attempts - s.attempts
      && t.attempts <= MaxReconnectAttempts
      && forall i :: |s.delays| <= i < |t.delays| ==> t.delays[i] == ReconnectDelay
    decreases |es|
  {
    if es != [] {
      var s' := Step(s, es[0]);
      assert |s'.delays| - |s.delays| == s'.attempts - s.attempts;
      assert s.delays <= s'.delays;
      assert Unreset(es[1..]) by {
        forall i | 0 <= i < |es[1..]| ensures !es[1..][i].Opened? && !es[1..][i].Disconnect? {
          assert es[1..][i] == es[i + 1];
        }
      }
      ScheduledMatchesCounter(s', es[1..]);
    }
  }

  /**
   * Between two successful opens (or a disconnect), at most five reconnects
   * are scheduled, each after 3000 ms.
   */
  lemma AtMostFiveReconnects(s: State, es: seq<Event>)
    requires Unreset(es)
    ensures var t := Run(Step(s, Opened), es);
      |t.delays| - |s.delays| <= MaxReconnectAttempts &&
      forall i :: |s.delays| <= i < |t.delays| ==> t.delays[i] == ReconnectDelay
  {
    ScheduledMatchesCounter(Step(s, Opened), es);
  }

  /** Six abnormal closes in a row schedule exactly five reconnects. */
  lemma SixthCloseGivesUp(s: State)
    requires s.attempts == 0
    ensures var t := Run(s, [ClosedWith(1006), ClosedWith(1006), ClosedWith(1006),
                             ClosedWith(1006), ClosedWith(1006), ClosedWith(1006)]);
      t.attempts == MaxReconnectAttempts && |t.delays| == |s.delays| + 5
  {
    var es := [ClosedWith(1006), ClosedWith(1006), ClosedWith(1006),
               ClosedWith(1006), ClosedWith(1006), ClosedWith(1006)];
    var t1 := Step(s, es[0]);
    var t2 := Step(t1, es[1]);
    var t3 := Step(t2, es[2]);
    var t4 := Step(t3, es[3]);
    var t5 := Step(t4, es[4]);
    var t6 := Step(t5, es[5]);
    assert Run(s, es) == Run(t1, es[1..]);
    assert Run(t1, es[1..]) == Run(t2, es[2..]);
    assert Run(t2, es[2..]) == Run(t3, es[3..]);
    assert Run(t3, es[3..]) == Run(t4, es[4..]);
    assert Run(t4, es[4..]) == Run(t5, es[5..]);
    assert Run(t5, es[5..]) == Run(t6, []);
  }

  /** `disconnect` cancels the timer, closes the socket with 1000 if there is one, and resets. */
  lemma DisconnectResets(s: State)
    ensures var t := Step(s, Disconnect);
      && !t.timerPending && !t.connected && t.attempts == 0 && t.socket.None?
      && t.closes == (if s.socket.Some? then s.closes + [NormalClosure] else s.closes)
      && t.delays == s.delays
  {
  }

  /**
   * The timer that `disconnect` cancels does nothing when it would have
   * fired.  A close event that arrives after the disconnect can still
   * schedule a new one (see `DisconnectWhileConnectingReconnects`).
   */
  lemma NoReconnectAfterDisconnect(s: State, throws: bool)
    ensures var t := Step(s, Disconnect); Step(t, TimerFired(throws)) == t
  {
  }

  /**
   * `disconnect` while the socket is still CONNECTING: `close(1000)` fails
   * the connection, so its close event carries 1006, not 1000.  The counter
   * was just reset to 0, so the close handler schedules a reconnect, and the
   * timer opens a new socket after the explicit disconnect.
   */
  lemma DisconnectWhileConnectingReconnects(s: State)
    requires s.socket == Some(Connecting)
    ensures var t := Run(s, [Disconnect, ClosedWith(1006)]);
      t.timerPending && t.attempts == 1 && t.closes == s.closes + [NormalClosure]
    ensures Run(s, [Disconnect, ClosedWith(1006), TimerFired(false)]).socket == Some(Connecting)
  {
    var es := [Disconnect, ClosedWith(1006), TimerFired(false)];
    var t1 := Step(s, Disconnect);
    var t2 := Step(t1, ClosedWith(1006));
    assert Run(s, es[..2]) == Run(t1, es[1..2]) == Run(t2, []);
    assert Run(s, es) == Run(t1, es[1..]) == Run(t2, es[2..]);
    assert es[..2] == [Disconnect, ClosedWith(1006)];
  }

  /** `sendMessage` reports false and sends nothing unless the socket exists and is OPEN. */
  lemma SendNeedsOpenSocket(s: State, message: Value, throws: bool)
    requires s.socket != Some(Open)
    ensures !SendResult(s, message, throws) && AfterSend(s, message, throws) == s
  {
  }

  /**
   * On an OPEN socket a non-throwing `send` carries strings verbatim and
   * other values as JSON.  The call reports true exactly when the send
   * succeeded and the message has a `type` to log; a `null` or `undefined`
   * message is sent and still reported false.  A throwing `send` sends
   * nothing and records the error.
   */
  lemma SendOnOpenSocket(s: State, message: Value, throws: bool)
    requires s.socket == Some(Open)
    ensures var t := AfterSend(s, message, throws);
      && (throws ==> t.sent == s.sent && t.error == Some(SendFailed))
      && (!throws ==> t.sent == s.sent + [Frame(message)])
      && (SendResult(s, message, throws) <==> !throws && !message.Null? && !message.Undefined?)
      && (SendResult(s, message, throws) ==> t == s.(sent := s.sent + [Frame(message)]))
      && (!SendResult(s, message, throws) ==> t.error == Some(SendFailed))
  {
  }

  /**
   * An unparseable frame records the error and reaches no handler. Any parsed
   * value becomes the last message; every one but `null` (whose `type` read
   * throws) reaches the handler exactly once, and `null` records the error
   * instead. Without a handler nothing is delivered.
   */
  lemma ReceiveRule(s: State, parsed: Option<Value>)
    ensures parsed.None? ==>
      Step(s, Received(parsed)) == s.(error := Some(ParseFailed))
    ensures parsed.Some? ==> Step(s, Received(parsed)).lastMessage == parsed.value
    ensures parsed.Some? && parsed.value != Null && parsed.value != Undefined && s.hasHandler ==>
      Step(s, Received(parsed)) == s.(lastMessage := parsed.value, delivered := s.delivered + [parsed.value])
    ensures parsed.Some? && (parsed.value == Null || parsed.value == Undefined) ==>
      Step(s, Received(parsed)) == s.(lastMessage := parsed.value, error := Some(ParseFailed))
    ensures !s.hasHandler ==> Step(s, Received(parsed)).delivered == s.delivered
  {
  }

  // ---------------------------------------------------------------- the hook's state

  class Session {
    const hasHandler: bool
    var connected: bool
    var socket: Option<ReadyState>
    var timerPending: bool
    var attempts: nat
    var error: Option<Fault>
    var lastMessage: Value
    var delivered: seq<Value>
    var sent: seq<Wire>
    var closes: seq<int>
    var delays: seq<nat>

    function Snapshot(): State
      reads this
    {
      State(hasHandler, connected, socket, timerPending, attempts, error, lastMessage, delivered, sent,
            closes, delays)
    }

    constructor(hasHandler: bool)
      ensures Snapshot() == Initial(hasHandler)
    {
      this.hasHandler := hasHandler;
      connected := false;
      socket := None;
      timerPending := false;
      attempts := 0;
      error := None;
      lastMessage := Null;
      delivered := [];
      sent := [];
      closes := [];
      delays := [];
    }

    /** `connect`: a new socket in CONNECTING state, or the constructor's error. */
    method Connect(throws: bool)
      modifies this
      ensures Snapshot() == Step(old(Snapshot()), Event.Connect(throws))
    {
      if throws {
        error := Some(CreateFailed);
      } else {
        socket := Some(Connecting);
      }
    }

    method OnOpen()
      modifies this
      ensures Snapshot() == Step(old(Snapshot()), Opened)
    {
      if socket.Some? {
        socket := Some(Open);
      }
      connected := true;
      error := None;
      attempts := 0;
    }

    method OnMessage(parsed: Option<Value>)
      modifies this
      ensures Snapshot() == Step(old(Snapshot()), Received(parsed))
    {
      if parsed.None? {
        error := Some(ParseFailed);
        return;
      }
      var message := parsed.value;
      lastMessage := message;
      if Prop(message, "type").None? {
        error := Some(ParseFailed);
        return;
      }
      if hasHandler {
        delivered := delivered + [message];
      }
    }

    method OnClose(code: int)
      modifies this
      ensures Snapshot() == Step(old(Snapshot()), ClosedWith(code))
    {
      connected := false;
      socket := None;
      if code != NormalClosure && attempts < MaxReconnectAttempts {
        attempts := attempts + 1;
        timerPending := true;
        delays := delays + [ReconnectDelay];
      }
    }

    /** The socket's `readyState` leaves OPEN before its close event. */
    method OnClosing()
      modifies this
      ensures Snapshot() == Step(old(Snapshot()), StartedClosing)
    {
      if socket.Some? {
        socket := Some(Closing);
      }
    }

    method OnError()
      modifies this
      ensures Snapshot() == Step(old(Snapshot()), Errored)
    {
      error := Some(SocketError);
    }

    method FireTimer(throws: bool)
      modifies this
      ensures Snapshot() == Step(old(Snapshot()), TimerFired(throws))
    {
      if timerPending {
        timerPending := false;
        Connect(throws);
      }
    }

    method Disconnect()
      modifies this
      ensures Snapshot() == Step(old(Snapshot()), Event.Disconnect)
    {
      timerPending := false;
      if socket.Some? {
        closes := closes + [NormalClosure];
        socket := None;
      }
      connected := false;
      attempts := 0;
    }

    method SendMessage(message: Value, throws: bool) returns (ok: bool)
      modifies this
      ensures ok == SendResult(old(Snapshot()), message, throws)
      ensures Snapshot() == AfterSend(old(Snapshot()), message, throws)
    {
      if socket != Some(Open) {
        return false;
      }
      if throws {
        error := Some(SendFailed);
        return false;
      }
      sent := sent + [Frame(message)];
      if Prop(message, "type").None? {
        error := Some(SendFailed);
        return false;
      }
      return true;
    }
  }
}
