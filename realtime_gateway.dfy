/** The voice interface's tool gateway (frontend/app/api/realtime/gateway/route.js):
    turn an action and its parameters into one instruction for the agent,
    send it upstream, and map the upstream answer to the response. The
    upstream call is a collaborator given as a function of the instruction. */
module RealtimeGateway {
  import opened Strings

  /** A JSON value as the route uses it: a string, or another value carried
      with its template-literal rendering and its truthiness. */
  datatype Value = StrValue(s: string) | OtherValue(rendered: string, truthy: bool)

  predicate Truthy(v: Value) {
    match v
    case StrValue(s) => s != []
    case OtherValue(_, truthy) => truthy
  }

  /** `${v}`; a missing parameter renders as "undefined". */
  function Render(v: Option<Value>): string {
    match v
    case None => "undefined"
    case Some(StrValue(s)) => s
    case Some(OtherValue(rendered, _)) => rendered
  }

  function Param(params: map<string, Value>, name: string): Option<Value> {
    if name in params then Some(params[name]) else None
  }

  const MissingAction: string := "Missing action parameter"
  const ConnectFailed: string := "Failed to connect to gateway"
  const UpstreamDefault: string := "Gateway request failed"
  const CompletedDefault: string := "Request completed"

  const SendPrefix: string := "Send a message to "
  const CommandPrefix: string := "Run this shell command and tell me the result: "
  const SearchPrefix: string := "Search the web for: "
  const WritePrefix: string := "Write this content to the file "
  const ReadPrefix: string := "Read and show me the contents of the file: "

  const KnownActions: seq<string> := ["message.send", "command.run", "search.web", "file.write", "file.read"]

  /** The switch: the instruction for a known action, None otherwise. */
  function Instruction(action: Value, params: map<string, Value>): (message: Option<string>)
    ensures message.Some? <==> action.StrValue? && action.s in KnownActions
  {
    if !action.StrValue? then None
    else
      match action.s
      case "message.send" =>
        var channel := Param(params, "channel");
        var via := if channel.Some? && Truthy(channel.value) then " via " + Render(channel) else "";
        Some(SendPrefix + Render(Param(params, "to")) + ": \"" + Render(Param(params, "message")) + "\"" + via)
      case "command.run" => Some(CommandPrefix + Render(Param(params, "command")))
      case "search.web" => Some(SearchPrefix + Render(Param(params, "query")))
      case "file.write" => Some(WritePrefix + Render(Param(params, "path")) + ":\n\n" + Render(Param(params, "content")))
      case "file.read" => Some(ReadPrefix + Render(Param(params, "path")))
      case _ => None
  }

  /** The request body: not JSON (or not an object), or its fields; the
      `action` field is split off and the rest are the parameters. */
  datatype Body = Malformed | Fields(fields: map<string, Value>)

  /** The upstream answer: `error` is data.error?.message || data.error and
      `content` is choices[0].message.content, "" when absent or when the
      body is not JSON. */
  datatype Upstream = Unreachable | Answered(status: nat, error: string, content: string)

  predicate IsOk(status: nat) {
    200 <= status <= 299
  }

  datatype Outcome =
    | Rejected(error: string)
    | ConnectError
    | UpstreamFailed(error: string, status: nat)
    | Completed(result: string)

  /** The HTTP status of the response. */
  function HttpStatus(o: Outcome): nat {
    match o
    case Rejected(_) => 400
    case ConnectError => 500
    case UpstreamFailed(_, status) => status
    case Completed(_) => 200
  }

  /** The `success` field, where the response has one. */
  function Success(o: Outcome): Option<bool> {
    match o
    case Rejected(_) => None
    case ConnectError => Some(false)
    case UpstreamFailed(_, _) => Some(false)
    case Completed(_) => Some(true)
  }

  /** POST; also the instruction sent upstream, None when no call is made. */
  function Handle(body: Body, upstream: string -> Upstream): (r: (Outcome, Option<string>))
    ensures Success(r.0) == Some(true) ==> r.1.Some? && HttpStatus(r.0) == 200
  {
    if body.Malformed? then (ConnectError, None)
    else
      var params := body.fields - {"action"};
      var action := Param(body.fields, "action");
      if action.None? || !Truthy(action.value) then (Rejected(MissingAction), None)
      else
        match Instruction(action.value, params)
        case None => (Rejected("Unknown action: " + Render(action)), None)
        case Some(message) =>
          match upstream(message)
          case Unreachable => (ConnectError, Some(message))
          case Answered(status, error, content) =>
            if !IsOk(status) then
              (UpstreamFailed(if error != [] then error else UpstreamDefault, status), Some(message))
            else (Completed(if content != [] then content else CompletedDefault), Some(message))
  }

  /** A missing or falsy action is rejected with 400 and nothing is sent. */
  lemma MissingActionRejected(fields: map<string, Value>, upstream: string -> Upstream)
    requires "action" !in fields || !Truthy(fields["action"])
    ensures Handle(Fields(fields), upstream) == (Rejected(MissingAction), None)
    ensures HttpStatus(Handle(Fields(fields), upstream).0) == 400
  {
  }

  /** An action outside the five is rejected with 400 naming it, and nothing is sent. */
  lemma UnknownActionRejected(fields: map<string, Value>, upstream: string -> Upstream)
    requires "action" in fields && Truthy(fields["action"])
    requires !(fields["action"].StrValue? && fields["action"].s in KnownActions)
    ensures Handle(Fields(fields), upstream) == (Rejected("Unknown action: " + Render(Some(fields["action"]))), None)
  {
  }

  /** message.send names the recipient and the quoted message, and ends with
      " via <channel>" when a channel is given and with the closing quote otherwise. */
  lemma SendMessageFormat(params: map<string, Value>)
    ensures var m := Instruction(StrValue("message.send"), params).value;
            var base := SendPrefix + Render(Param(params, "to")) + ": \"" + Render(Param(params, "message")) + "\"";
            && StartsWith(m, base)
            && ("channel" in params && Truthy(params["channel"]) ==> m == base + " via " + Render(Param(params, "channel")))
            && (!("channel" in params && Truthy(params["channel"])) ==> m == base && EndsWith(m, "\""))
  {
    var base := SendPrefix + Render(Param(params, "to")) + ": \"" + Render(Param(params, "message")) + "\"";
    var m := Instruction(StrValue("message.send"), params).value;
    if "channel" in params && Truthy(params["channel"]) {
      assert m == base + (" via " + Render(Param(params, "channel")));
    } else {
      assert m == base;
    }
  }

  /** Each of the other actions is its fixed prefix followed by the rendered parameter(s). */
  lemma OtherActionsFormat(params: map<string, Value>)
    ensures var m := Instruction(StrValue("command.run"), params).value;
            StartsWith(m, CommandPrefix) && m[|CommandPrefix|..] == Render(Param(params, "command"))
    ensures var m := Instruction(StrValue("search.web"), params).value;
            StartsWith(m, SearchPrefix) && m[|SearchPrefix|..] == Render(Param(params, "query"))
    ensures var m := Instruction(StrValue("file.read"), params).value;
            StartsWith(m, ReadPrefix) && m[|ReadPrefix|..] == Render(Param(params, "path"))
    ensures var m := Instruction(StrValue("file.write"), params).value;
            StartsWith(m, WritePrefix) && m[|WritePrefix|..] == Render(Param(params, "path")) + ":\n\n" + Render(Param(params, "content"))
  {
    var c := Instruction(StrValue("command.run"), params).value;
    assert c == CommandPrefix + Render(Param(params, "command"));
    var q := Instruction(StrValue("search.web"), params).value;
    assert q == SearchPrefix + Render(Param(params, "query"));
    var r := Instruction(StrValue("file.read"), params).value;
    assert r == ReadPrefix + Render(Param(params, "path"));
    var w := Instruction(StrValue("file.write"), params).value;
    assert w == WritePrefix + (Render(Param(params, "path")) + ":\n\n" + Render(Param(params, "content")));
  }

  /** For a known action the instruction is sent, and the upstream answer
      decides the response: a non-ok status is passed through with
      success false, an ok status gives success true with the content. */
  lemma UpstreamMapping(fields: map<string, Value>, upstream: string -> Upstream)
    requires "action" in fields && fields["action"].StrValue? && fields["action"].s in KnownActions
    ensures var message := Instruction(fields["action"], fields - {"action"}).value;
            var r := Handle(Fields(fields), upstream);
            && r.1 == Some(message)
            && (upstream(message).Unreachable? ==> r.0 == ConnectError && HttpStatus(r.0) == 500)
            && (upstream(message).Answered? && !IsOk(upstream(message).status) ==>
                  Success(r.0) == Some(false) && HttpStatus(r.0) == upstream(message).status
                  && r.0.error == (if upstream(message).error != [] then upstream(message).error else UpstreamDefault))
            && (upstream(message).Answered? && IsOk(upstream(message).status) ==>
                  Success(r.0) == Some(true) && HttpStatus(r.0) == 200
                  && r.0.result == (if upstream(message).content != [] then upstream(message).content else CompletedDefault))
  {
    assert Truthy(fields["action"]) by {
      assert fields["action"].s != [];
    }
  }

  /** The instruction reads only the parameters its template names: two
      parameter maps that agree on those give the same instruction, so any
      other field of the body is ignored. */
  lemma InstructionUsesNamedParams(action: Value, p1: map<string, Value>, p2: map<string, Value>)
    requires Param(p1, "to") == Param(p2, "to") && Param(p1, "message") == Param(p2, "message")
    requires Param(p1, "channel") == Param(p2, "channel") && Param(p1, "command") == Param(p2, "command")
    requires Param(p1, "query") == Param(p2, "query") && Param(p1, "path") == Param(p2, "path")
    requires Param(p1, "content") == Param(p2, "content")
    ensures Instruction(action, p1) == Instruction(action, p2)
  {
  }
}
