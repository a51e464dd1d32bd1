/** The session state machine as functions from state to state.
    A choice Go leaves to map iteration order (which of several equally old DEAD rows
    is reaped, which of several equally fresh rows stands for a thread) is a parameter. */
module MuxSpec {
  import opened Wire
  import Text

  /** What the mux reads from its surroundings and never interprets. */
  datatype Env = Env(
    threadIDFor: (string, string) -> string,
    shortCWD: string -> string,
    asksQuestion: string -> bool)

  datatype Options = Options(
    dedupWindow: int,
    idleDebounce: int,
    maxAssistantSnippet: nat,
    maxPermissionSnippet: nat,
    maxSessions: int)

  datatype Config = Config(env: Env, opt: Options)

  /** Zero stands for the default. */
  function WithDefaults(o: Options): Options {
    Options(
      if o.dedupWindow == 0 then 2500 else o.dedupWindow,
      if o.idleDebounce == 0 then 2000 else o.idleDebounce,
      if o.maxAssistantSnippet == 0 then 4096 else o.maxAssistantSnippet,
      if o.maxPermissionSnippet == 0 then 1024 else o.maxPermissionSnippet,
      if o.maxSessions == 0 then 256 else o.maxSessions)
  }

  datatype Row = Row(
    id: string,
    agent: string,
    cwd: string,
    threadID: string,
    caption: string,
    state: SessionState,
    lastEventAt: int,
    lastSource: Producer,
    lastAssistant: string,
    lastUserInput: string,
    lastPermissionPrompt: string,
    timer: Option<nat>)

  /** `timers` is the runtime's set of timers that have neither fired nor been stopped;
      `log` is everything the sink has been handed. */
  datatype State = State(
    sessions: map<string, Row>,
    threads: map<string, set<string>>,
    recent: map<string, int>,
    timers: map<nat, string>,
    nextTimer: nat,
    log: seq<Broadcast>)

  const INIT := State(map[], map[], map[], map[], 0, [])

  datatype IngestResult = Accepted | Rejected | DuplicateEvent

  // ── rows ──────────────────────────────────────────────────────────────

  function AgentOr(agent: string): string {
    if agent == "" then "unknown" else agent
  }

  function NewRow(cfg: Config, id: string, agent: string, cwd: string, now: int): Row {
    var a := AgentOr(agent);
    Row(id, a, cwd, cfg.env.threadIDFor(a, cwd), a + ": " + cfg.env.shortCWD(cwd),
        Starting, now, NoProducer, "", "", "", None)
  }

  function Absorb(cfg: Config, r: Row, ev: Event, at: int): Row {
    var r1 := r.(lastEventAt := at, lastSource := ev.source);
    match ev.typ
    case SessionStart =>
      if r.state.Starting? || r.state.Dead? then r1.(state := Idle) else r1
    case AssistantMessage =>
      var txt := Text.StripRedacted(ev.text);
      (if txt != "" then r1.(lastAssistant := Text.Clip(txt, cfg.opt.maxAssistantSnippet), lastUserInput := "")
       else r1).(state := Busy)
    case UserPrompt => AbsorbInput(cfg, r1, ev)
    case ToolUse => AbsorbInput(cfg, r1, ev)
    case PermissionPrompt =>
      (if ev.text != "" then r1.(lastPermissionPrompt := Text.Clip(ev.text, cfg.opt.maxPermissionSnippet))
       else r1).(state := AwaitingPermission)
    case Stop => r1.(state := Idle)
    case SessionEnd => r1.(state := Dead)
    case Unrecognized(_) => r1
  }

  function AbsorbInput(cfg: Config, r: Row, ev: Event): Row {
    var txt := Text.StripRedacted(ev.text);
    (if txt != "" then r.(lastUserInput := Text.Clip(txt, cfg.opt.maxAssistantSnippet)) else r).(state := Busy)
  }

  function AwaitingFor(cfg: Config, r: Row): Awaiting {
    if r.state.AwaitingPermission? then ForPermission
    else if cfg.env.asksQuestion(r.lastAssistant) then ForQuestion
    else ForDone
  }

  // ── the two maps ──────────────────────────────────────────────────────

  function Link(threads: map<string, set<string>>, tid: string, id: string): map<string, set<string>> {
    threads[tid := (if tid in threads then threads[tid] else {}) + {id}]
  }

  function Unlink(threads: map<string, set<string>>, tid: string, id: string): map<string, set<string>> {
    if tid !in threads then threads
    else if threads[tid] - {id} == {} then threads - {tid}
    else threads[tid := threads[tid] - {id}]
  }

  ghost predicate IsOldestDead(table: map<string, Row>, id: string) {
    && id in table && table[id].state.Dead?
    && forall other | other in table && table[other].state.Dead? ::
         table[id].lastEventAt <= table[other].lastEventAt
  }

  /** The row a reap may remove: a DEAD one with minimal lastEventAt, or none when none is DEAD. */
  ghost predicate ReapChoice(table: map<string, Row>, choice: Option<string>) {
    match choice
    case Some(id) => IsOldestDead(table, id)
    case None => forall id | id in table :: !table[id].state.Dead?
  }

  function Reap(s: State, choice: Option<string>): State {
    match choice
    case None => s
    case Some(id) =>
      if id !in s.sessions then s
      else s.(sessions := s.sessions - {id}, threads := Unlink(s.threads, s.sessions[id].threadID, id))
  }

  /** True when looking `id` up will create a row in a full table. */
  predicate MustReap(cfg: Config, s: State, id: string) {
    id !in s.sessions && |s.sessions| >= cfg.opt.maxSessions
  }

  ghost predicate CreateChoice(cfg: Config, s: State, id: string, choice: Option<string>) {
    MustReap(cfg, s, id) ==> ReapChoice(s.sessions, choice)
  }

  function AddRow(s: State, id: string, row: Row): State {
    s.(sessions := s.sessions[id := row], threads := Link(s.threads, row.threadID, id))
  }

  function GetOrCreate(cfg: Config, s: State, id: string, agent: string, cwd: string, now: int,
      choice: Option<string>): (r: State)
    ensures id in r.sessions
  {
    if id in s.sessions then s
    else
      AddRow(if MustReap(cfg, s, id) then Reap(s, choice) else s, id, NewRow(cfg, id, agent, cwd, now))
  }

  // ── timers and frames ─────────────────────────────────────────────────

  function ClearTimer(s: State, id: string): State
    requires id in s.sessions
  {
    match s.sessions[id].timer
    case None => s
    case Some(t) => s.(timers := s.timers - {t}, sessions := s.sessions[id := s.sessions[id].(timer := None)])
  }

  function Arm(s: State, id: string): State
    requires id in s.sessions
  {
    var s1 := ClearTimer(s, id);
    s1.(timers := s1.timers[s1.nextTimer := id],
        nextTimer := s1.nextTimer + 1,
        sessions := s1.sessions[id := s1.sessions[id].(timer := Some(s1.nextTimer))])
  }

  function Emit(s: State, b: Broadcast): State {
    s.(log := s.log + [b])
  }

  const BLANK := Broadcast(NoType, "", "", "", "", "", "", "", NotAwaiting, "", false, 0)

  function StartedFrame(r: Row, at: int): Broadcast {
    BLANK.(typ := ThreadStarted, thread := r.threadID, caption := r.caption, agent := r.agent, cwd := r.cwd, at := at)
  }

  function BusyFrame(r: Row, at: int): Broadcast {
    BLANK.(typ := ThreadBusy, thread := r.threadID, sid := r.id, caption := r.caption, agent := r.agent, at := at)
  }

  function IdleFrame(cfg: Config, r: Row, inferred: bool, at: int): Broadcast {
    BLANK.(typ := ThreadIdle, thread := r.threadID, sid := r.id, caption := r.caption, agent := r.agent,
           awaiting := AwaitingFor(cfg, r), lastAssistant := r.lastAssistant, lastUserInput := r.lastUserInput,
           inferred := inferred, at := at)
  }

  function PermissionFrame(r: Row, at: int): Broadcast {
    BLANK.(typ := ThreadIdle, thread := r.threadID, sid := r.id, caption := r.caption, agent := r.agent,
           awaiting := ForPermission, permissionPrompt := r.lastPermissionPrompt,
           lastAssistant := r.lastAssistant, lastUserInput := r.lastUserInput, at := at)
  }

  function EndedFrame(r: Row, at: int): Broadcast {
    BLANK.(typ := ThreadEnded, thread := r.threadID, sid := r.id, at := at)
  }

  function TransitionFrames(cfg: Config, r: Row, state: SessionState, at: int): seq<Broadcast> {
    match state
    case Starting => []
    case Busy => [BusyFrame(r, at)]
    case AwaitingPermission => [PermissionFrame(r, at)]
    case Idle => [IdleFrame(cfg, r, false, at)]
    case Dead => [EndedFrame(r, at)]
  }

  /** Reporting any state but BUSY also stops the idle timer; BUSY leaves that to the re-arm. */
  function EmitTransition(cfg: Config, s: State, id: string, state: SessionState, at: int): State
    requires id in s.sessions
  {
    var s1 := if state.Starting? || state.Busy? then s else ClearTimer(s, id);
    s1.(log := s1.log + TransitionFrames(cfg, s.sessions[id], state, at))
  }

  // ── local operations ──────────────────────────────────────────────────

  predicate Wellformed(ev: Event) {
    ev.sid != "" && !ev.typ.Unrecognized?
  }

  predicate Exempt(t: EventType) {
    t.AssistantMessage? || t.UserPrompt?
  }

  function DedupKey(sid: string, t: EventType): string {
    sid + "|" + EventName(t)
  }

  predicate Duplicate(cfg: Config, recent: map<string, int>, ev: Event, now: int) {
    var key := DedupKey(ev.sid, ev.typ);
    !Exempt(ev.typ) && key in recent && now - recent[key] < cfg.opt.dedupWindow
  }

  function Stamp(recent: map<string, int>, ev: Event, now: int): map<string, int> {
    if Exempt(ev.typ) then recent else recent[DedupKey(ev.sid, ev.typ) := now]
  }

  function ObservedAt(ev: Event, now: int): int {
    if ev.observedAt == 0 then now else ev.observedAt
  }

  function Absorbed(cfg: Config, s: State, ev: Event, now: int, choice: Option<string>): (r: State)
    ensures ev.sid in r.sessions
  {
    var s1 := GetOrCreate(cfg, s, ev.sid, ev.agent, ev.cwd, now, choice);
    s1.(sessions := s1.sessions[ev.sid := Absorb(cfg, s1.sessions[ev.sid], ev, ObservedAt(ev, now))])
  }

  /** The first locked segment of Ingest: dedup stamp, lookup or creation, absorption. */
  function Admit(cfg: Config, s: State, ev: Event, now: int, choice: Option<string>): (r: State)
    ensures ev.sid in r.sessions
  {
    Absorbed(cfg, s.(recent := Stamp(s.recent, ev, now)), ev, now, choice)
  }

  function StateBefore(s: State, id: string): SessionState {
    if id in s.sessions then s.sessions[id].state else Starting
  }

  /** The rest of Ingest: announce a new row, report a changed state, re-arm the idle timer. */
  function Publish(cfg: Config, s: State, id: string, isNew: bool, before: SessionState, at: int): State
    requires id in s.sessions
  {
    var after := s.sessions[id].state;
    var s1 := if isNew then Emit(s, StartedFrame(s.sessions[id], at)) else s;
    var s2 := if after != before then EmitTransition(cfg, s1, id, after, at) else s1;
    if after.Busy? then Arm(s2, id) else s2
  }

  function Ingest(cfg: Config, s: State, ev: Event, now: int, choice: Option<string>): (State, IngestResult) {
    if !Wellformed(ev) then (s, Rejected)
    else if Duplicate(cfg, s.recent, ev, now) then (s, DuplicateEvent)
    else
      (Publish(cfg, Admit(cfg, s, ev, now, choice), ev.sid, ev.sid !in s.sessions, StateBefore(s, ev.sid),
               ObservedAt(ev, now)),
       Accepted)
  }

  function Bury(s: State, id: string): State
    requires id in s.sessions
  {
    var s1 := ClearTimer(s, id);
    s1.(sessions := s1.sessions[id := s1.sessions[id].(state := Dead)])
  }

  function MarkDead(s: State, id: string, now: int): State {
    if id !in s.sessions || s.sessions[id].state.Dead? then s
    else Emit(Bury(s, id), EndedFrame(s.sessions[id], now))
  }

  function MarkAllDead(s: State, ids: seq<string>, now: int): State
    decreases |ids|
  {
    if ids == [] then s else MarkAllDead(MarkDead(s, ids[0], now), ids[1..], now)
  }

  function InferIdle(cfg: Config, s: State, id: string, now: int): State {
    if id !in s.sessions || !s.sessions[id].state.Busy? then s
    else
      var r := s.sessions[id].(state := Idle);
      Emit(s.(sessions := s.sessions[id := r]), IdleFrame(cfg, r, true, now))
  }

  /** A pending timer goes off: the runtime forgets it, then its callback runs. */
  function Fire(cfg: Config, s: State, t: nat, now: int): State {
    if t !in s.timers then s
    else InferIdle(cfg, s.(timers := s.timers - {t}), s.timers[t], now)
  }

  function Collect(cfg: Config, recent: map<string, int>, now: int): map<string, int> {
    map k | k in recent && recent[k] >= now - 4 * cfg.opt.dedupWindow :: recent[k]
  }

  function Gc(cfg: Config, s: State, now: int): State {
    s.(recent := Collect(cfg, s.recent, now))
  }

  /** The rows a stale sweep considers: neither DEAD nor BUSY, silent since before the cutoff. */
  function StaleIds(table: map<string, Row>, cutoff: int): set<string> {
    set id | id in table && !table[id].state.Dead? && !table[id].state.Busy? && table[id].lastEventAt < cutoff
  }

  // ── lookups by thread ─────────────────────────────────────────────────

  predicate IsLive(table: map<string, Row>, id: string) {
    id in table && !table[id].state.Dead?
  }

  /** A live row of the thread's index entry that no other live row of it is newer than. */
  ghost predicate IsBest(s: State, thread: string, choice: Option<string>) {
    var ids := if thread in s.threads then s.threads[thread] else {};
    match choice
    case Some(id) =>
      id in ids && IsLive(s.sessions, id)
      && forall other | other in ids && IsLive(s.sessions, other) ::
           s.sessions[other].lastEventAt <= s.sessions[id].lastEventAt
    case None => forall id | id in ids :: !IsLive(s.sessions, id)
  }

  // ── the mirror's side ─────────────────────────────────────────────────

  function Rekey(s: State, id: string, thread: string): State
    requires id in s.sessions
  {
    var r := s.sessions[id];
    if thread == "" || r.threadID == thread then s
    else s.(threads := Link(Unlink(s.threads, r.threadID, id), thread, id),
            sessions := s.sessions[id := r.(threadID := thread)])
  }

  /** Which row an upstream frame is applied to: the frame's own, else the best one of its
      thread, else a row created for it. None when the frame names neither. */
  function UpstreamTarget(s: State, b: Broadcast, best: Option<string>): Option<string> {
    if b.sid != "" && b.sid in s.sessions then Some(b.sid)
    else if b.thread != "" && best.Some? then best
    else if b.sid == "" then None
    else Some(b.sid)
  }

  /** The choices Go leaves open when `b` is applied: the best row of its thread and, if a row is
      created in a full table, the row reaped for it. */
  ghost predicate FrameChoices(cfg: Config, s: State, b: Broadcast, best: Option<string>, choice: Option<string>) {
    && IsBest(s, b.thread, best)
    && (UpstreamTarget(s, b, best) == Some(b.sid) ==> CreateChoice(cfg, s, b.sid, choice))
  }

  function SessionForUpstream(cfg: Config, s: State, b: Broadcast, now: int, best: Option<string>,
      choice: Option<string>): State
  {
    if (b.sid != "" && b.sid in s.sessions) || (b.thread != "" && best.Some?) || b.sid == "" then s
    else
      var s1 := Rekey(GetOrCreate(cfg, s, b.sid, b.agent, b.cwd, now, choice), b.sid, b.thread);
      if b.caption == "" then s1
      else s1.(sessions := s1.sessions[b.sid := s1.sessions[b.sid].(caption := b.caption)])
  }

  function Refresh(incoming: string, held: string, bound: nat): string {
    if incoming != "" then Text.Clip(incoming, bound) else held
  }

  function MergeTexts(cfg: Config, r: Row, lastAssistant: string, lastUserInput: string,
      permissionPrompt: string): Row
  {
    r.(lastAssistant := Refresh(lastAssistant, r.lastAssistant, cfg.opt.maxAssistantSnippet),
       lastUserInput := Refresh(lastUserInput, r.lastUserInput, cfg.opt.maxAssistantSnippet),
       lastPermissionPrompt := Refresh(permissionPrompt, r.lastPermissionPrompt, cfg.opt.maxPermissionSnippet))
  }

  function ApplyFrame(cfg: Config, r: Row, b: Broadcast, now: int): Row {
    var r1 := MergeTexts(cfg, r.(caption := Or(b.caption, r.caption), agent := Or(b.agent, r.agent),
                                 cwd := Or(b.cwd, r.cwd)),
                         b.lastAssistant, b.lastUserInput, b.permissionPrompt);
    var state := match Decode(b)
      case Some(told) => told
      case None => if b.typ.ThreadStarted? && r.state.Dead? then Starting else r.state;
    r1.(state := state, lastEventAt := if b.at == 0 then now else b.at)
  }

  function ApplyUpstream(cfg: Config, s: State, b: Broadcast, now: int, best: Option<string>,
      choice: Option<string>): State
  {
    if b.typ.NoType? then s
    else
      var s1 := SessionForUpstream(cfg, s, b, now, best, choice);
      match UpstreamTarget(s, b, best)
      case None => s1
      case Some(id) =>
        if id !in s1.sessions then s1
        else s1.(sessions := s1.sessions[id := ApplyFrame(cfg, s1.sessions[id], b, now)])
  }

  function DropAll(s: State): State {
    s.(sessions := map[], threads := map[])
  }

  function SyncRow(cfg: Config, r: Row, v: SessionView): Row {
    MergeTexts(cfg, r.(caption := Or(v.caption, r.caption), agent := Or(v.agent, r.agent), cwd := Or(v.cwd, r.cwd),
                       state := v.state),
               v.lastAssistant, v.lastUserInput, v.permissionPrompt)
      .(lastEventAt := if v.lastEventAt != 0 then v.lastEventAt else r.lastEventAt)
  }

  function SyncOne(cfg: Config, s: State, v: SessionView, now: int, choice: Option<string>): State {
    if !Counted(v) then s
    else
      var s1 := GetOrCreate(cfg, s, v.sid, v.agent, v.cwd, now, choice);
      s1.(sessions := s1.sessions[v.sid := SyncRow(cfg, s1.sessions[v.sid], v)])
  }

  function SyncSessions(cfg: Config, s: State, views: seq<SessionView>, now: int, choices: seq<Option<string>>): State
    requires |choices| == |views|
    decreases |views|
  {
    if views == [] then s
    else SyncSessions(cfg, SyncOne(cfg, s, views[0], now, choices[0]), views[1..], now, choices[1..])
  }

  /** The views a hello makes rows of. */
  predicate Counted(v: SessionView) {
    v.sid != "" && !v.state.Dead?
  }

  ghost predicate SyncChoices(cfg: Config, s: State, views: seq<SessionView>, now: int, choices: seq<Option<string>>)
    decreases |views|
  {
    |choices| == |views| &&
    (views != [] ==>
      (Counted(views[0]) ==> CreateChoice(cfg, s, views[0].sid, choices[0]))
      && SyncChoices(cfg, SyncOne(cfg, s, views[0], now, choices[0]), views[1..], now, choices[1..]))
  }

  function ViewOf(r: Row): SessionView {
    SessionView(r.id, r.threadID, r.caption, r.agent, r.cwd, r.state, r.lastEventAt,
                r.lastAssistant, r.lastUserInput, r.lastPermissionPrompt)
  }

  /** The rows of `order`, as a status snapshot or a relay hello lists them. */
  function Views(table: map<string, Row>, order: seq<string>): seq<SessionView>
    requires forall id | id in order :: id in table
  {
    seq(|order|, i requires 0 <= i < |order| => ViewOf(table[order[i]]))
  }

  /** The full-scan notion of a thread's representative: no live row of the thread is newer. */
  ghost predicate IsNewestLive(table: map<string, Row>, thread: string, id: string) {
    && IsLive(table, id) && table[id].threadID == thread
    && forall other | IsLive(table, other) && table[other].threadID == thread ::
         table[other].lastEventAt <= table[id].lastEventAt
  }
}
