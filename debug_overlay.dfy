/**
 * The connection debug overlay: a log of the last fifty messages, newest
 * last, and a small form that frames a command (or a ping) and hands it to
 * the page's send function.  Timestamps and entry ids come from the clock
 * and a random number and are not part of an entry here.
 */
module DebugOverlay {
  import opened JsValue

  /** One log line: its type, its text and its direction. */
  datatype Entry = Entry(kind: Value, content: Value, direction: Value)

  /** What `JSON.parse` does with the parameter text: a value, or a SyntaxError with its message. */
  datatype Parsed = Json(value: Value) | SyntaxError(message: string)

  const Capacity := 50

  /** `prev.slice(-49)`: the last 49 entries, or all of them when there are fewer. */
  function Kept(log: seq<Entry>): (r: seq<Entry>)
    ensures |r| <= Capacity - 1
    ensures |r| == if |log| < Capacity - 1 then |log| else Capacity - 1
    ensures r == log[|log| - |r|..]
  {
    if |log| > Capacity - 1 then log[|log| - (Capacity - 1)..] else log
  }

  /** The log after `addMessage`: what was kept, then the new entry. */
  function Appended(log: seq<Entry>, e: Entry): (r: seq<Entry>)
    ensures 1 <= |r| <= Capacity && |r| <= |log| + 1
    ensures r[|r| - 1] == e
    ensures r[..|r| - 1] == log[|log| - (|r| - 1)..]
    ensures |log| < Capacity ==> r == log + [e]
  {
    Kept(log) + [e]
  }

  /** The last fifty entries of a history. */
  function Window(history: seq<Entry>): (r: seq<Entry>)
    ensures |r| <= Capacity
  {
    if |history| > Capacity then history[|history| - Capacity..] else history
  }

  /** A log that is the window of its history stays the window of the history extended by one entry. */
  lemma AppendedIsWindow(history: seq<Entry>, e: Entry)
    ensures Appended(Window(history), e) == Window(history + [e])
  {
    var h := history + [e];
    if |history| >= Capacity {
      assert Kept(Window(history)) == history[|history| - (Capacity - 1)..];
      assert Window(h) == history[|history| - (Capacity - 1)..] + [e];
    } else {
      assert Window(h) == h;
    }
  }

  /**
   * `addMessage` applied to each entry of `es` in turn: after at least one
   * entry the log holds one to fifty entries and ends with the latest.
   */
  function AppendAll(log: seq<Entry>, es: seq<Entry>): (r: seq<Entry>)
    ensures es == [] ==> r == log
    ensures es != [] ==> 1 <= |r| <= Capacity && r[|r| - 1] == es[|es| - 1]
    decreases |es|
  {
    if es == [] then log else AppendAll(Appended(log, es[0]), es[1..])
  }

  /**
   * However many messages arrive, the log holds exactly the last fifty of
   * everything ever added since it was last cleared, in arrival order.
   */
  lemma {:induction false} LogIsLastFifty(history: seq<Entry>, es: seq<Entry>)
    ensures AppendAll(Window(history), es) == Window(history + es)
    decreases |es|
  {
    if es != [] {
      var next := history + [es[0]];
      calc {
        AppendAll(Window(history), es);
        AppendAll(Appended(Window(history), es[0]), es[1..]);
        { AppendedIsWindow(history, es[0]); }
        AppendAll(Window(next), es[1..]);
        { LogIsLastFifty(next, es[1..]); }
        Window(next + es[1..]);
        { assert next + es[1..] == history + es; }
        Window(history + es);
      }
    }
  }

  /**
   * A default parameter (`direction = 'out'`, `type = 'command'`): the
   * fallback applies only when no argument is passed, never to `null`.
   */
  function Defaulted(v: Value, fallback: Value): (r: Value)
    ensures v.Undefined? ==> r == fallback
    ensures !v.Undefined? ==> r == v
  {
    if v.Undefined? then fallback else v
  }

  const PingCommand := Obj(map["type" := Str("ping")])

  /** What pressing send does with the two inputs. */
  datatype SendStep =
    | Ignored
    | Rejected(error: Entry)
    | Framed(command: Value, logged: Entry)

  /** The `params` of a send: `{}` for blank text, otherwise the parse of the text as typed. */
  function ParamsOf(paramsInput: string, parse: string -> Parsed): (r: Parsed)
    ensures Trim(paramsInput) == [] ==> r == Json(Obj(map[]))
    ensures Trim(paramsInput) != [] ==> r == parse(paramsInput)
  {
    if Trim(paramsInput) == [] then Json(Obj(map[])) else parse(paramsInput)
  }

  /** The object `handleSendCommand` sends. */
  function Frame(kind: Value, command: string, params: Value): (r: Value)
    ensures Get(r, "type") == kind && Get(r, "command") == Str(command) && Get(r, "params") == params
  {
    Obj(map["type" := kind, "command" := Str(command), "params" := params])
  }

  /** `handleSendCommand(type)` on the current inputs. */
  function SendCommand(commandInput: string, paramsInput: string, kind: Value,
                       parse: string -> Parsed, stringify: Value -> string): (r: SendStep)
    ensures r.Ignored? <==> Trim(commandInput) == []
    ensures r.Rejected? ==> r.error.kind == Str("error") && r.error.direction == Str("out")
  {
    if Trim(commandInput) == [] then Ignored
    else
      match ParamsOf(paramsInput, parse)
      case SyntaxError(message) => Rejected(Entry(Str("error"), Str("Invalid params JSON: " + message), Str("out")))
      case Json(params) =>
        var command := Frame(Defaulted(kind, Str("command")), Trim(commandInput), params);
        Framed(command, Entry(Defaulted(kind, Str("command")), Str(stringify(command)), Str("out")))
  }

  /** A send logs nothing and sends nothing exactly when the command text is all white space. */
  lemma BlankCommandIgnored(commandInput: string, paramsInput: string, kind: Value,
                            parse: string -> Parsed, stringify: Value -> string)
    ensures SendCommand(commandInput, paramsInput, kind, parse, stringify) == Ignored <==>
      forall i :: 0 <= i < |commandInput| ==> IsSpace(commandInput[i])
  {
    TrimEmptyIffBlank(commandInput);
  }

  /** Parameter text that does not parse logs one error naming the parser's message, and sends nothing. */
  lemma BadParamsRejected(commandInput: string, paramsInput: string, kind: Value,
                          parse: string -> Parsed, stringify: Value -> string)
    requires Trim(commandInput) != [] && Trim(paramsInput) != [] && parse(paramsInput).SyntaxError?
    ensures SendCommand(commandInput, paramsInput, kind, parse, stringify) ==
      Rejected(Entry(Str("error"), Str("Invalid params JSON: " + parse(paramsInput).message), Str("out")))
  {
  }

  /**
   * A command that is sent is `{type, command, params}`: the type defaults
   * to 'command', the command is the trimmed input, blank parameters are
   * `{}`; its log entry carries the same type and its JSON text.
   */
  lemma FramedCommand(commandInput: string, paramsInput: string, kind: Value,
                      parse: string -> Parsed, stringify: Value -> string)
    requires Trim(commandInput) != []
    requires ParamsOf(paramsInput, parse).Json?
    ensures var r := SendCommand(commandInput, paramsInput, kind, parse, stringify);
      && r.Framed?
      && Get(r.command, "type") == Defaulted(kind, Str("command"))
      && Get(r.command, "command") == Str(Trim(commandInput))
      && Get(r.command, "params") == ParamsOf(paramsInput, parse).value
      && r.logged == Entry(Defaulted(kind, Str("command")), Str(stringify(r.command)), Str("out"))
  {
  }

  /** Blank parameter text is never parsed: the command goes out with `{}`. */
  lemma BlankParamsAreEmpty(commandInput: string, paramsInput: string, kind: Value,
                            parse: string -> Parsed, stringify: Value -> string)
    requires Trim(commandInput) != [] && Trim(paramsInput) == []
    ensures var r := SendCommand(commandInput, paramsInput, kind, parse, stringify);
      r.Framed? && Get(r.command, "params") == Obj(map[])
  {
  }

  /** The overlay's state: the log and the two inputs of the command form. */
  class Overlay {
    var messages: seq<Entry>
    var commandInput: string
    var paramsInput: string

    constructor()
      ensures messages == [] && commandInput == [] && paramsInput == []
    {
      messages := [];
      commandInput := [];
      paramsInput := [];
    }

    /** The form's two `onChange` handlers. */
    method Edit(command: string, params: string)
      modifies this
      ensures commandInput == command && paramsInput == params && messages == old(messages)
    {
      commandInput := command;
      paramsInput := params;
    }

    /** `addMessage(type, content, direction)`. */
    method AddMessage(kind: Value, content: Value, direction: Value)
      modifies this
      ensures messages == Appended(old(messages), Entry(kind, content, Defaulted(direction, Str("out"))))
      ensures commandInput == old(commandInput) && paramsInput == old(paramsInput)
    {
      messages := Appended(messages, Entry(kind, content, Defaulted(direction, Str("out"))));
    }

    /**
     * `handleSendCommand(type)`: `sent` is what is handed to `onSendCommand`,
     * which happens only when the page supplied one.
     */
    method HandleSendCommand(kind: Value, hasHandler: bool, parse: string -> Parsed, stringify: Value -> string)
      returns (sent: Option<Value>)
      modifies this
      ensures var step := SendCommand(old(commandInput), old(paramsInput), kind, parse, stringify);
        && messages == (match step
                        case Ignored => old(messages)
                        case Rejected(error) => Appended(old(messages), error)
                        case Framed(_, logged) => Appended(old(messages), logged))
        && sent == (if step.Framed? && hasHandler then Some(step.command) else None)
      ensures commandInput == old(commandInput) && paramsInput == old(paramsInput)
    {
      sent := None;
      if Trim(commandInput) == [] {
        return;
      }
      var params := ParamsOf(paramsInput, parse);
      if params.SyntaxError? {
        AddMessage(Str("error"), Str("Invalid params JSON: " + params.message), Str("out"));
        return;
      }
      var command := Frame(Defaulted(kind, Str("command")), Trim(commandInput), params.value);
      AddMessage(Defaulted(kind, Str("command")), Str(stringify(command)), Str("out"));
      if hasHandler {
        sent := Some(command);
      }
    }

    /** `handlePing`: log the ping and hand `{type: 'ping'}` to `onSendCommand`. */
    method HandlePing(hasHandler: bool, stringify: Value -> string) returns (sent: Option<Value>)
      modifies this
      ensures messages == Appended(old(messages), Entry(Str("ping"), Str(stringify(PingCommand)), Str("out")))
      ensures sent == if hasHandler then Some(PingCommand) else None
      ensures commandInput == old(commandInput) && paramsInput == old(paramsInput)
    {
      assert Defaulted(Str("out"), Str("out")) == Str("out");
      AddMessage(Str("ping"), Str(stringify(PingCommand)), Str("out"));
      sent := if hasHandler then Some(PingCommand) else None;
    }

    /** `clearMessages`. */
    method ClearMessages()
      modifies this
      ensures messages == [] && commandInput == old(commandInput) && paramsInput == old(paramsInput)
    {
      messages := [];
    }
  }
}
