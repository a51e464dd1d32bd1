/** The wire vocabulary shared by the producers, the mux, the hub and the cloud bridge. */
module Wire {

  datatype Option<+T> = None | Some(value: T)

  /** The closed set of event types, plus whatever else a producer may send. */
  datatype EventType =
    | SessionStart
    | UserPrompt
    | AssistantMessage
    | ToolUse
    | PermissionPrompt
    | Stop
    | SessionEnd
    | Unrecognized(name: string)

  datatype SessionState = Starting | Busy | Idle | AwaitingPermission | Dead

  datatype Producer = NoProducer | Hooks | JSONL | Proc

  /** `text` is what payload coercion yields; the JSON shapes themselves are not modelled. */
  datatype Event = Event(
    sid: string,
    agent: string,
    cwd: string,
    typ: EventType,
    text: string,
    source: Producer,
    observedAt: int)

  datatype BroadcastType = NoType | ThreadStarted | ThreadBusy | ThreadIdle | ThreadEnded | HudYank | OtherType

  datatype Awaiting = NotAwaiting | ForPermission | ForQuestion | ForDone

  datatype Broadcast = Broadcast(
    typ: BroadcastType,
    thread: string,
    sid: string,
    caption: string,
    agent: string,
    cwd: string,
    lastAssistant: string,
    lastUserInput: string,
    awaiting: Awaiting,
    permissionPrompt: string,
    inferred: bool,
    at: int)

  /** A session row as the status snapshot and the relay hello carry it. */
  datatype SessionView = SessionView(
    sid: string,
    threadID: string,
    caption: string,
    agent: string,
    cwd: string,
    state: SessionState,
    lastEventAt: int,
    lastAssistant: string,
    lastUserInput: string,
    permissionPrompt: string)

  /** The first of the two that says anything. */
  function Or(a: string, b: string): string {
    if a != "" then a else b
  }

  /** The name an event type has on the wire; the dedup key is built from it. */
  function EventName(t: EventType): string {
    match t
    case SessionStart => "session_start"
    case UserPrompt => "user_prompt"
    case AssistantMessage => "assistant_message"
    case ToolUse => "tool_use"
    case PermissionPrompt => "permission_prompt"
    case Stop => "stop"
    case SessionEnd => "session_end"
    case Unrecognized(name) => name
  }

  /** The session state a receiver reads off a frame, if the frame tells one. */
  function Decode(b: Broadcast): Option<SessionState> {
    match b.typ
    case ThreadBusy => Some(Busy)
    case ThreadIdle => Some(if b.awaiting.ForPermission? then AwaitingPermission else Idle)
    case HudYank => Some(if b.awaiting.ForPermission? then AwaitingPermission else Idle)
    case ThreadEnded => Some(Dead)
    case _ => None
  }
}
