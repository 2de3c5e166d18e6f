/** The state logic of the realtime voice view (frontend/components/RealtimeView.jsx):
    the connection status, the error text and the transcript as server events
    arrive; the mapping of the model's tool calls to gateway actions; the
    connect and disconnect guards; and the derived view values. */
module RealtimeView {
  import opened Strings
  import RealtimeGateway

  datatype Status = Idle | Connecting | Connected | Speaking | Listening | Error

  datatype Entry = Entry(role: string, text: string)

  /** A parsed server event; `transcript` and `errorMessage` (event.error?.message)
      are "" when absent. */
  datatype ServerEvent = ServerEvent(kind: string, transcript: string, errorMessage: string,
                                     name: string, callId: string, arguments: string)

  datatype ToolCall = ToolCall(name: string, callId: string, arguments: string)

  datatype ViewState = ViewState(status: Status, error: Option<string>, transcript: seq<Entry>)

  const UnknownErrorText: string := "Unknown error"

  /** The event types that change the status. */
  const StatusEvents: seq<string> := [
    "input_audio_buffer.speech_started", "input_audio_buffer.speech_stopped",
    "response.audio.delta", "response.audio.done",
    "response.audio_transcript.delta", "response.done"]

  const UserTranscriptDone: string := "conversation.item.input_audio_transcription.completed"
  const AssistantTranscriptDone: string := "response.audio_transcript.done"
  const ToolCallDone: string := "response.function_call_arguments.done"
  const ErrorEvent: string := "error"

  /** Every event type handleServerEvent acts on. */
  predicate IsHandled(kind: string) {
    kind in StatusEvents || kind == UserTranscriptDone || kind == AssistantTranscriptDone
    || kind == ToolCallDone || kind == ErrorEvent
  }

  function Append(transcript: seq<Entry>, role: string, text: string): seq<Entry> {
    if text != [] then transcript + [Entry(role, text)] else transcript
  }

  /** handleServerEvent: the new state, and the tool call to run, if any. */
  function ReduceEvent(v: ViewState, e: ServerEvent): (ViewState, Option<ToolCall>)
  {
    match e.kind
    case "input_audio_buffer.speech_started" => (v.(status := Listening), None)
    case "input_audio_buffer.speech_stopped" => (v.(status := Connected), None)
    case "response.audio.delta" => (v.(status := Speaking), None)
    case "response.audio.done" => (v.(status := Connected), None)
    case "response.audio_transcript.delta" => (v.(status := Speaking), None)
    case "response.done" => (v.(status := Connected), None)
    case "conversation.item.input_audio_transcription.completed" =>
      (v.(transcript := Append(v.transcript, "user", e.transcript)), None)
    case "response.audio_transcript.done" =>
      (v.(transcript := Append(v.transcript, "assistant", e.transcript)), None)
    case "response.function_call_arguments.done" => (v, Some(ToolCall(e.name, e.callId, e.arguments)))
    case "error" => (v.(error := Some(if e.errorMessage != [] then e.errorMessage else UnknownErrorText)), None)
    case _ => (v, None)
  }

  /** The status after a status event. */
  function StatusAfter(kind: string): Status
    requires kind in StatusEvents
  {
    if kind == "input_audio_buffer.speech_started" then Listening
    else if kind == "response.audio.delta" || kind == "response.audio_transcript.delta" then Speaking
    else Connected
  }

  /** Speech start listens, speech stop and the end of a response return to
      connected, and audio or transcript deltas mean speaking; nothing else changes. */
  lemma StatusEventsSetStatus(v: ViewState, e: ServerEvent)
    requires e.kind in StatusEvents
    ensures ReduceEvent(v, e) == (v.(status := StatusAfter(e.kind)), None)
  {
  }

  /** A finished transcript with text appends exactly one entry with the
      speaker's role; an empty one changes nothing. Status and error are kept. */
  lemma TranscriptEventsAppend(v: ViewState, e: ServerEvent)
    requires e.kind == UserTranscriptDone || e.kind == AssistantTranscriptDone
    ensures var (w, call) := ReduceEvent(v, e);
            && call.None? && w.status == v.status && w.error == v.error
            && (e.transcript == [] ==> w.transcript == v.transcript)
            && (e.transcript != [] ==>
                  w.transcript == v.transcript + [Entry(if e.kind == UserTranscriptDone then "user" else "assistant", e.transcript)])
  {
  }

  /** An error event records its message, or "Unknown error", and leaves the
      status and the transcript alone. */
  lemma ErrorEventKeepsStatus(v: ViewState, e: ServerEvent)
    requires e.kind == ErrorEvent
    ensures var (w, call) := ReduceEvent(v, e);
            && call.None? && w.status == v.status && w.transcript == v.transcript
            && w.error.Some? && w.error.value != []
            && (e.errorMessage != [] ==> w.error == Some(e.errorMessage))
  {
  }

  /** Events the reducer does not handle change nothing. */
  lemma UnhandledEventsIgnored(v: ViewState, e: ServerEvent)
    requires !IsHandled(e.kind)
    ensures ReduceEvent(v, e) == (v, None)
  {
  }

  /** A tool call comes only from a finished function-call event, and carries its fields. */
  lemma ToolCallOnlyOnArgumentsDone(v: ViewState, e: ServerEvent)
    ensures ReduceEvent(v, e).1.Some? <==> e.kind == ToolCallDone
    ensures e.kind == ToolCallDone ==> ReduceEvent(v, e) == (v, Some(ToolCall(e.name, e.callId, e.arguments)))
  {
  }

  /** The transcript only grows, by at most one entry per event. */
  lemma TranscriptOnlyGrows(v: ViewState, e: ServerEvent)
    ensures var w := ReduceEvent(v, e).0;
            && |v.transcript| <= |w.transcript| <= |v.transcript| + 1
            && w.transcript[..|v.transcript|] == v.transcript
  {
  }

  // ---------------------------------------------------------------------
  // Tool calls

  const ToolNames: seq<string> := ["send_message", "run_command", "search_web", "write_file", "read_file"]

  /** The switch in handleToolCall. */
  function ToolAction(name: string): (action: Option<string>)
    ensures action.Some? <==> name in ToolNames
  {
    match name
    case "send_message" => Some("message.send")
    case "run_command" => Some("command.run")
    case "search_web" => Some("search.web")
    case "write_file" => Some("file.write")
    case "read_file" => Some("file.read")
    case _ => None
  }

  /** Each tool maps to the action at the same position of the gateway's
      list, so every tool action is one the gateway knows. */
  lemma ToolActionsMatchGateway(k: nat)
    requires k < |ToolNames|
    ensures |RealtimeGateway.KnownActions| == |ToolNames|
    ensures ToolAction(ToolNames[k]) == Some(RealtimeGateway.KnownActions[k])
  {
  }

  /** The gateway request body { action, ...args }: the parsed arguments
      come second, so an `action` argument replaces the mapped action. */
  function GatewayRequest(action: string, args: map<string, RealtimeGateway.Value>): (body: map<string, RealtimeGateway.Value>)
    ensures body.Keys == args.Keys + {"action"}
    ensures body["action"] == if "action" in args then args["action"] else RealtimeGateway.StrValue(action)
    ensures forall key :: key in args ==> body[key] == args[key]
  {
    map["action" := RealtimeGateway.StrValue(action)] + args
  }

  /** What the fetch to the gateway route gives: its JSON, or the thrown message. */
  datatype GatewayAnswer = Json(text: string) | Threw(message: string)

  datatype ToolResult = UnknownTool(error: string) | GatewayJson(json: string) | CallFailed(error: string)

  /** What goes back over the data channel. */
  datatype Outgoing = FunctionCallOutput(callId: string, result: ToolResult) | ResponseCreate

  datatype ToolOutcome = ToolOutcome(request: Option<map<string, RealtimeGateway.Value>>, result: ToolResult, sent: seq<Outgoing>)

  /** handleToolCall: `args` is the parsed argument object, None when the
      arguments are not JSON (then {} is used). */
  function HandleToolCall(call: ToolCall, args: Option<map<string, RealtimeGateway.Value>>,
                          gateway: map<string, RealtimeGateway.Value> -> GatewayAnswer, channelOpen: bool): ToolOutcome
  {
    var parsed := if args.Some? then args.value else map[];
    var (request, result) :=
      match ToolAction(call.name)
      case None => (None, UnknownTool("Unknown tool: " + call.name))
      case Some(action) =>
        var body := GatewayRequest(action, parsed);
        match gateway(body)
        case Json(text) => (Some(body), GatewayJson(text))
        case Threw(message) => (Some(body), CallFailed(message));
    ToolOutcome(request, result, if channelOpen then [FunctionCallOutput(call.callId, result), ResponseCreate] else [])
  }

  /** An unknown tool is answered with an error naming it and the gateway is not called. */
  lemma UnknownToolNotSent(call: ToolCall, args: Option<map<string, RealtimeGateway.Value>>,
                           gateway: map<string, RealtimeGateway.Value> -> GatewayAnswer, channelOpen: bool)
    requires call.name !in ToolNames
    ensures HandleToolCall(call, args, gateway, channelOpen).request.None?
    ensures HandleToolCall(call, args, gateway, channelOpen).result == UnknownTool("Unknown tool: " + call.name)
  {
  }

  /** A known tool whose arguments do not name an action reaches the gateway
      route with a known action, so the route sends an instruction upstream. */
  lemma KnownToolReachesUpstream(call: ToolCall, args: Option<map<string, RealtimeGateway.Value>>,
                                 gateway: map<string, RealtimeGateway.Value> -> GatewayAnswer, channelOpen: bool,
                                 upstream: string -> RealtimeGateway.Upstream)
    requires call.name in ToolNames
    requires args.Some? ==> "action" !in args.value
    ensures var o := HandleToolCall(call, args, gateway, channelOpen);
            && o.request.Some?
            && RealtimeGateway.Handle(RealtimeGateway.Fields(o.request.value), upstream).1.Some?
  {
    var o := HandleToolCall(call, args, gateway, channelOpen);
    var action := ToolAction(call.name).value;
    var k :| 0 <= k < |ToolNames| && ToolNames[k] == call.name;
    ToolActionsMatchGateway(k);
    var body := o.request.value;
    assert body["action"] == RealtimeGateway.StrValue(action);
    assert action in RealtimeGateway.KnownActions;
    RealtimeGateway.UpstreamMapping(body, upstream);
  }

  /** The result goes back, followed by a response request, exactly when the channel is open. */
  lemma ResultSentWhenOpen(call: ToolCall, args: Option<map<string, RealtimeGateway.Value>>,
                           gateway: map<string, RealtimeGateway.Value> -> GatewayAnswer, channelOpen: bool)
    ensures var o := HandleToolCall(call, args, gateway, channelOpen);
            (o.sent != [] <==> channelOpen)
            && (channelOpen ==> o.sent == [FunctionCallOutput(call.callId, o.result), ResponseCreate])
  {
  }

  // ---------------------------------------------------------------------
  // Derived view values

  /** isActive: a session is established. */
  predicate IsActive(status: Status) {
    status == Connected || status == Speaking || status == Listening
  }

  /** Server events never end a session: an active status stays active,
      and an event that changes the status always makes it active. So a
      status event that arrives after a disconnect shows the view as
      connected again. */
  lemma EventsOnlyActivate(v: ViewState, e: ServerEvent)
    ensures var w := ReduceEvent(v, e).0;
            && (IsActive(v.status) ==> IsActive(w.status))
            && (w.status != v.status ==> IsActive(w.status) && e.kind in StatusEvents)
  {
  }

  /** getStatusText */
  function StatusText(status: Status, error: Option<string>): (text: string)
    ensures text != []
  {
    match status
    case Idle => "Tap to connect"
    case Connecting => "Connecting..."
    case Connected => "Connected"
    case Speaking => "Speaking..."
    case Listening => "Listening..."
    case Error => if error.Some? && error.value != [] then error.value else "Error"
  }

  /** The error text shows only in the error status; other statuses ignore it. */
  lemma StatusTextUsesErrorOnlyInError(status: Status, e1: Option<string>, e2: Option<string>)
    requires status != Error
    ensures StatusText(status, e1) == StatusText(status, e2)
  {
  }

  /** transcript.slice(-5): the last five entries, or all of them. */
  function Visible(transcript: seq<Entry>): (shown: seq<Entry>)
    ensures |shown| == if |transcript| < 5 then |transcript| else 5
    ensures IsSuffixOf(transcript, shown)
  {
    if |transcript| <= 5 then transcript else transcript[|transcript| - 5..]
  }

  predicate IsSuffixOf(s: seq<Entry>, suffix: seq<Entry>) {
    |suffix| <= |s| && s[|s| - |suffix|..] == suffix
  }

  /** The latest entry is always shown, last. */
  lemma LatestEntryShown(transcript: seq<Entry>, entry: Entry)
    ensures var shown := Visible(transcript + [entry]);
            shown != [] && shown[|shown| - 1] == entry
  {
  }

  // ---------------------------------------------------------------------
  // The component's state

  class Session {
    var status: Status
    var error: Option<string>
    var transcript: seq<Entry>

    function View(): ViewState
      reads this
    {
      ViewState(status, error, transcript)
    }

    constructor ()
      ensures status == Idle && error == None && transcript == []
    {
      status := Idle;
      error := None;
      transcript := [];
    }

    /** The guard and first step of connect; true when a connection attempt starts. */
    method Connect() returns (started: bool)
      modifies this`status, this`error
      ensures started <==> old(status) != Connecting && old(status) != Connected
      ensures started ==> status == Connecting && error == None
      ensures !started ==> status == old(status) && error == old(error)
    {
      if status == Connecting || status == Connected {
        return false;
      }
      status := Connecting;
      error := None;
      return true;
    }

    /** connect's catch, and the connection-state and channel error handlers. */
    method Fail(message: string)
      modifies this`status, this`error
      ensures status == Error && error == Some(message)
    {
      status := Error;
      error := Some(message);
    }

    /** The data channel's onopen. */
    method ChannelOpened()
      modifies this`status
      ensures status == Connected
    {
      status := Connected;
    }

    /** One message on the data channel, already parsed. */
    method OnEvent(e: ServerEvent) returns (toolCall: Option<ToolCall>)
      modifies this
      ensures (View(), toolCall) == ReduceEvent(old(View()), e)
    {
      var r := ReduceEvent(View(), e);
      status := r.0.status;
      error := r.0.error;
      transcript := r.0.transcript;
      toolCall := r.1;
    }

    /** disconnect: back to idle with an empty transcript; the error text stays. */
    method Disconnect()
      modifies this`status, this`transcript
      ensures status == Idle && transcript == []
    {
      status := Idle;
      transcript := [];
    }

    /** The toggle button: disconnect when active, connect otherwise; it is
        disabled while connecting. Through it, connect always starts. */
    method Toggle()
      modifies this`status, this`error, this`transcript
      ensures IsActive(old(status)) ==> status == Idle && transcript == [] && error == old(error)
      ensures old(status) == Connecting ==> status == Connecting && error == old(error) && transcript == old(transcript)
      ensures old(status) == Idle || old(status) == Error ==>
                status == Connecting && error == None && transcript == old(transcript)
    {
      if IsActive(status) {
        Disconnect();
      } else if status != Connecting {
        var started := Connect();
        assert started;
      }
    }
  }
}
