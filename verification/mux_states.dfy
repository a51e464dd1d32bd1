/** Which state, which texts and which frames an event leads to, and what a session's state says of its past. */
module MuxStates {
  import opened Wire
  import opened MuxSpec
  import opened MuxInvariants
  import opened MuxRuns
  import Text

  ghost predicate Accepts(cfg: Config, s: State, ev: Event, now: int, choice: Option<string>) {
    CreateChoice(cfg, s, ev.sid, choice) && Ingest(cfg, s, ev, now, choice).1.Accepted?
  }

  /** An event is turned away exactly if it names no session or is of no known type, and dropped exactly if it is
      neither a prompt nor an assistant message and its key was stamped within the window; an accepted one stamps
      its key. */
  lemma TurnedAwayIff(cfg: Config, s: State, ev: Event, now: int, choice: Option<string>)
    ensures Ingest(cfg, s, ev, now, choice).1.Rejected? <==> ev.sid == "" || ev.typ.Unrecognized?
    ensures Ingest(cfg, s, ev, now, choice).1.DuplicateEvent? <==>
      var key := ev.sid + "|" + EventName(ev.typ);
      && ev.sid != "" && !ev.typ.Unrecognized? && !ev.typ.UserPrompt? && !ev.typ.AssistantMessage?
      && key in s.recent && now - s.recent[key] < cfg.opt.dedupWindow
    ensures !Ingest(cfg, s, ev, now, choice).1.Accepted? ==> Ingest(cfg, s, ev, now, choice).0 == s
    ensures Accepts(cfg, s, ev, now, choice) ==>
      Ingest(cfg, s, ev, now, choice).0.recent ==
        if ev.typ.UserPrompt? || ev.typ.AssistantMessage? then s.recent
        else s.recent[ev.sid + "|" + EventName(ev.typ) := now]
  {
    if Accepts(cfg, s, ev, now, choice) {
      var s1 := Admit(cfg, s, ev, now, choice);
      assert s1.recent == Stamp(s.recent, ev, now) by { hide Absorb, NewRow, Link, CreateChoice; }
      PublishTouches(cfg, s1, ev.sid, ev.sid !in s.sessions, StateBefore(s, ev.sid), ObservedAt(ev, now));
      hide Admit, Publish, CreateChoice;
    }
  }

  /** The row an accepted event was absorbed into, and the row it became. */
  lemma IngestRow(cfg: Config, s: State, ev: Event, now: int, choice: Option<string>)
    requires Accepts(cfg, s, ev, now, choice)
    ensures var s', id := Ingest(cfg, s, ev, now, choice).0, ev.sid;
      var was := if id in s.sessions then s.sessions[id] else NewRow(cfg, id, ev.agent, ev.cwd, now);
      && id in s'.sessions
      && s'.sessions[id] == Absorb(cfg, was, ev, ObservedAt(ev, now)).(timer := s'.sessions[id].timer)
  {
    hide NewRow, Absorb, Stamp, Publish, StateBefore, Duplicate, GetOrCreate;
    var s0 := s.(recent := Stamp(s.recent, ev, now));
    assert CreateChoice(cfg, s0, ev.sid, choice);
    CreateKeepsOthers(cfg, s0, ev.sid, ev.agent, ev.cwd, now, choice);
    var s1 := Admit(cfg, s, ev, now, choice);
    PublishTouches(cfg, s1, ev.sid, ev.sid !in s.sessions, StateBefore(s, ev.sid), ObservedAt(ev, now));
    hide CreateChoice;
  }

  // ── the state ─────────────────────────────────────────────────────────

  /** After an accepted event the session waits for permission exactly if the event asks for it, or is a start
      of a session already waiting; and so on for the other states. */
  lemma IngestDecides(cfg: Config, s: State, ev: Event, now: int, choice: Option<string>)
    requires Accepts(cfg, s, ev, now, choice) && NoneStarting(s)
    ensures var s', id := Ingest(cfg, s, ev, now, choice).0, ev.sid;
      && id in s'.sessions
      && (s'.sessions[id].state.AwaitingPermission? <==>
            || ev.typ.PermissionPrompt?
            || (ev.typ.SessionStart? && id in s.sessions && s.sessions[id].state.AwaitingPermission?))
      && (s'.sessions[id].state.Busy? <==>
            || ev.typ.UserPrompt? || ev.typ.ToolUse? || ev.typ.AssistantMessage?
            || (ev.typ.SessionStart? && id in s.sessions && s.sessions[id].state.Busy?))
      && (s'.sessions[id].state.Idle? <==>
            || ev.typ.Stop?
            || (ev.typ.SessionStart?
                && (id in s.sessions ==> s.sessions[id].state.Dead? || s.sessions[id].state.Idle?)))
      && (s'.sessions[id].state.Dead? <==> ev.typ.SessionEnd?)
  {
    IngestRow(cfg, s, ev, now, choice);
    hide Ingest, CreateChoice;
  }

  /** What can be said of a session in one step: a state, or only that it started. */
  datatype Word = Says(state: SessionState) | Starts

  function EventWord(t: EventType): Option<Word> {
    match t
    case SessionStart => Some(Starts)
    case UserPrompt => Some(Says(Busy))
    case AssistantMessage => Some(Says(Busy))
    case ToolUse => Some(Says(Busy))
    case PermissionPrompt => Some(Says(AwaitingPermission))
    case Stop => Some(Says(Idle))
    case SessionEnd => Some(Says(Dead))
    case Unrecognized(_) => None
  }

  /** What one operation says of `x`: an accepted event, a death, or its idle timer going off. */
  function Word1(cfg: Config, s: State, op: Op, x: string): Option<Word> {
    match op
    case DoIngest(ev, now, choice) =>
      if ev.sid == x && Ingest(cfg, s, ev, now, choice).1.Accepted? then EventWord(ev.typ) else None
    case DoMarkDead(id, _) => if id == x then Some(Says(Dead)) else None
    case DoFire(t, _) => if t in s.timers && s.timers[t] == x then Some(Says(Idle)) else None
    case DoGc(_) => None
  }

  function Words(cfg: Config, s: State, ops: seq<Op>, x: string): seq<Word>
    decreases |ops|
  {
    if ops == [] then []
    else
      var w := Word1(cfg, s, ops[0], x);
      (if w.Some? then [w.value] else []) + Words(cfg, Step(cfg, s, ops[0]), ops[1..], x)
  }

  /** The last state said, IDLE if the session started after it was said to be DEAD, DEAD if nothing was. */
  function Standing(from: SessionState, words: seq<Word>): SessionState {
    if words == [] then from
    else
      match words[|words| - 1]
      case Says(state) => state
      case Starts =>
        var before := Standing(from, words[..|words| - 1]);
        if before.Dead? then Idle else before
  }

  /** A session without a row counts as DEAD. */
  function StateOf(s: State, x: string): SessionState {
    if x in s.sessions then s.sessions[x].state else Dead
  }

  lemma IngestStands(cfg: Config, s: State, op: Op, x: string)
    requires Base(s) && op.DoIngest? && Legal(cfg, s, op)
    ensures StateOf(Step(cfg, s, op), x) == Standing(StateOf(s, x), Said(cfg, s, op, x))
  {
    var ev := op.ev;
    if Ingest(cfg, s, ev, op.now, op.choice).1.Accepted? {
      if ev.sid == x {
        IngestDecides(cfg, s, ev, op.now, op.choice);
        IngestRow(cfg, s, ev, op.now, op.choice) by { hide NoneStarting; }
        hide Ingest, Absorb, NewRow, CreateChoice, IndexAgrees, TimersCover;
      } else {
        OthersStand(cfg, s, ev, op.now, op.choice, x);
        hide Ingest, CreateChoice, IndexAgrees, TimersCover;
      }
    }
  }

  function Said(cfg: Config, s: State, op: Op, x: string): seq<Word> {
    if Word1(cfg, s, op, x).Some? then [Word1(cfg, s, op, x).value] else []
  }

  lemma OthersStand(cfg: Config, s: State, ev: Event, now: int, choice: Option<string>, x: string)
    requires Accepts(cfg, s, ev, now, choice) && RowsNamed(s) && x != ev.sid
    ensures StateOf(Ingest(cfg, s, ev, now, choice).0, x) == StateOf(s, x)
  {
    hide Publish, Admit, Duplicate, StateBefore;
    AdmitKeepsOthers(cfg, s, ev, now, choice);
    var s1 := Admit(cfg, s, ev, now, choice);
    PublishTouches(cfg, s1, ev.sid, ev.sid !in s.sessions, StateBefore(s, ev.sid), ObservedAt(ev, now));
    hide CreateChoice;
  }

  lemma StepStands(cfg: Config, s: State, op: Op, x: string)
    requires Base(s) && Legal(cfg, s, op)
    ensures StateOf(Step(cfg, s, op), x) == Standing(StateOf(s, x), Said(cfg, s, op, x))
  {
    match op
    case DoIngest(_, _, _) => hide *; IngestStands(cfg, s, op, x);
    case DoMarkDead(id, now) =>
      if IsLive(s.sessions, id) { ClearTouches(s, id); }
      hide ClearTimer, EndedFrame, IndexAgrees, TimersCover;
    case DoFire(t, now) =>
      if t in s.timers { FireIs(cfg, s, t, now); }
      hide IdleFrame, IndexAgrees, TimersCover, Fire;
    case DoGc(_) =>
  }

  lemma {:induction false} StandingConcat(from: SessionState, a: seq<Word>, b: seq<Word>)
    ensures Standing(from, a + b) == Standing(Standing(from, a), b)
    decreases |b|
  {
    if b == [] {
      assert a + b == a;
    } else {
      assert (a + b)[..|a + b| - 1] == a + b[..|b| - 1];
      StandingConcat(from, a, b[..|b| - 1]);
    }
  }

  lemma {:induction false} RunStands(cfg: Config, s: State, ops: seq<Op>, x: string)
    requires Base(s) && LegalRun(cfg, s, ops)
    ensures StateOf(Exec(cfg, s, ops), x) == Standing(StateOf(s, x), Words(cfg, s, ops, x))
    decreases |ops|
  {
    hide Base, Step, Legal, Word1, StateOf, StepTells;
    if ops != [] {
      StepKeepsBase(cfg, s, ops[0]);
      StepStands(cfg, s, ops[0], x);
      RunStands(cfg, Step(cfg, s, ops[0]), ops[1..], x);
      StandingConcat(StateOf(s, x), Said(cfg, s, ops[0], x), Words(cfg, Step(cfg, s, ops[0]), ops[1..], x));
    }
  }

  /** Over every serial run a session is in the state its last accepted event that bears one, its death or its
      idle timer going off gave it; a start after its death made it IDLE. */
  lemma {:induction false} StateIsLastSaid(cfg: Config, ops: seq<Op>, x: string)
    requires LegalRun(cfg, INIT, ops)
    ensures StateOf(Exec(cfg, INIT, ops), x) == Standing(Dead, Words(cfg, INIT, ops, x))
  {
    InitInv();
    hide Exec, LegalRun, Words, Standing;
    RunStands(cfg, INIT, ops, x);
  }

  // ── the rest of the row ───────────────────────────────────────────────

  /** The snippet of a text: without placeholders, clipped. */
  function Snippet(text: string, bound: nat): string {
    Text.Clip(Text.StripRedacted(text), bound)
  }

  lemma AbsorbWrites(cfg: Config, r: Row, ev: Event, at: int)
    ensures var r', says := Absorb(cfg, r, ev, at), Text.StripRedacted(ev.text) != "";
      && r'.lastEventAt == at && r'.lastSource == ev.source
      && r'.lastAssistant ==
           (if ev.typ.AssistantMessage? && says then Snippet(ev.text, cfg.opt.maxAssistantSnippet) else r.lastAssistant)
      && r'.lastUserInput ==
           (if (ev.typ.UserPrompt? || ev.typ.ToolUse?) && says then Snippet(ev.text, cfg.opt.maxAssistantSnippet)
            else if ev.typ.AssistantMessage? && says then "" else r.lastUserInput)
      && r'.lastPermissionPrompt ==
           (if ev.typ.PermissionPrompt? && ev.text != "" then Text.Clip(ev.text, cfg.opt.maxPermissionSnippet)
            else r.lastPermissionPrompt)
  {
    hide Text.StripRedacted, Text.Clip;
  }

  /** Which fields of the row an accepted event writes, and with what. */
  lemma IngestWrites(cfg: Config, s: State, ev: Event, now: int, choice: Option<string>)
    requires Accepts(cfg, s, ev, now, choice)
    ensures var s', id, says := Ingest(cfg, s, ev, now, choice).0, ev.sid, Text.StripRedacted(ev.text) != "";
      && id in s'.sessions
      && var r, isNew := s'.sessions[id], id !in s.sessions;
      && r.lastEventAt == (if ev.observedAt != 0 then ev.observedAt else now) && r.lastSource == ev.source
      && r.lastAssistant ==
           (if ev.typ.AssistantMessage? && says then Snippet(ev.text, cfg.opt.maxAssistantSnippet)
            else if isNew then "" else s.sessions[id].lastAssistant)
      && r.lastUserInput ==
           (if (ev.typ.UserPrompt? || ev.typ.ToolUse?) && says then Snippet(ev.text, cfg.opt.maxAssistantSnippet)
            else if isNew || (ev.typ.AssistantMessage? && says) then "" else s.sessions[id].lastUserInput)
      && r.lastPermissionPrompt ==
           (if ev.typ.PermissionPrompt? && ev.text != "" then Text.Clip(ev.text, cfg.opt.maxPermissionSnippet)
            else if isNew then "" else s.sessions[id].lastPermissionPrompt)
  {
    IngestRow(cfg, s, ev, now, choice);
    hide Ingest, CreateChoice, Absorb, Snippet, Text.StripRedacted, Text.Clip;
    var was := if ev.sid in s.sessions then s.sessions[ev.sid] else NewRow(cfg, ev.sid, ev.agent, ev.cwd, now);
    AbsorbWrites(cfg, was, ev, ObservedAt(ev, now));
  }

  lemma AbsorbNames(cfg: Config, r: Row, ev: Event, at: int)
    ensures Absorb(cfg, r, ev, at).caption == r.caption
  {
  }

  /** A session's identity is fixed by the event that made its row. */
  lemma IngestIdentifies(cfg: Config, s: State, ev: Event, now: int, choice: Option<string>)
    requires Accepts(cfg, s, ev, now, choice) && RowsNamed(s)
    ensures var s', id := Ingest(cfg, s, ev, now, choice).0, ev.sid;
      && id in s'.sessions && s'.sessions[id].id == id
      && var r := s'.sessions[id];
      if id in s.sessions then
        var was := s.sessions[id];
        r.agent == was.agent && r.cwd == was.cwd && r.threadID == was.threadID && r.caption == was.caption
      else
        && r.cwd == ev.cwd && r.agent == (if ev.agent == "" then "unknown" else ev.agent)
        && r.threadID == cfg.env.threadIDFor(r.agent, ev.cwd) && r.caption == r.agent + ": " + cfg.env.shortCWD(ev.cwd)
  {
    IngestRow(cfg, s, ev, now, choice);
    hide Ingest, CreateChoice, Absorb;
    var was := if ev.sid in s.sessions then s.sessions[ev.sid] else NewRow(cfg, ev.sid, ev.agent, ev.cwd, now);
    AbsorbKeepsIdentity(cfg, was, ev, ObservedAt(ev, now));
    AbsorbNames(cfg, was, ev, ObservedAt(ev, now));
  }

  /** A row is given up only for a new one in a full table, and then it is a DEAD one no other is older than. */
  lemma IngestSpares(cfg: Config, s: State, ev: Event, now: int, choice: Option<string>, x: string)
    requires Accepts(cfg, s, ev, now, choice) && x in s.sessions && x !in Ingest(cfg, s, ev, now, choice).0.sessions
    ensures ev.sid !in s.sessions && |s.sessions| >= cfg.opt.maxSessions && s.sessions[x].state.Dead?
    ensures forall y | y in s.sessions && s.sessions[y].state.Dead? ::
      s.sessions[x].lastEventAt <= s.sessions[y].lastEventAt
  {
    var s1 := Admit(cfg, s, ev, now, choice);
    PublishTouches(cfg, s1, ev.sid, ev.sid !in s.sessions, StateBefore(s, ev.sid), ObservedAt(ev, now));
    hide Publish, Absorb, Stamp, StateBefore, Duplicate, NewRow;
  }

  // ── the frames ────────────────────────────────────────────────────────

  /** `b` carries no text and asks for nothing. */
  predicate Bare(b: Broadcast) {
    b.lastAssistant == b.lastUserInput == b.permissionPrompt == "" && b.awaiting.NotAwaiting? && !b.inferred
  }

  /** `b` announces the row's thread. */
  predicate Announces(b: Broadcast, r: Row, at: int) {
    && b.typ.ThreadStarted? && b.thread == r.threadID && b.sid == "" && b.at == at
    && b.caption == r.caption && b.agent == r.agent && b.cwd == r.cwd && Bare(b)
  }

  /** `b` tells the row's state, with what is to be shown in it. */
  predicate Shows(cfg: Config, b: Broadcast, r: Row, inferred: bool, at: int) {
    && b.thread == r.threadID && b.sid == r.id && b.at == at
    && (b.typ.ThreadBusy? <==> r.state.Busy?) && (b.typ.ThreadEnded? <==> r.state.Dead?)
    && (b.typ.ThreadIdle? <==> r.state.Idle? || r.state.AwaitingPermission?)
    && (if r.state.Dead? then b.caption == b.agent == "" else b.caption == r.caption && b.agent == r.agent)
    && b.cwd == "" && (!b.typ.ThreadIdle? ==> Bare(b))
    && (b.typ.ThreadIdle? ==>
          && b.lastAssistant == r.lastAssistant && b.lastUserInput == r.lastUserInput && b.inferred == inferred
          && (b.awaiting.ForPermission? <==> r.state.AwaitingPermission?)
          && (b.awaiting.ForQuestion? <==> r.state.Idle? && cfg.env.asksQuestion(r.lastAssistant))
          && (b.awaiting.ForDone? <==> r.state.Idle? && !cfg.env.asksQuestion(r.lastAssistant))
          && b.permissionPrompt == if r.state.AwaitingPermission? then r.lastPermissionPrompt else "")
  }

  lemma FramesShow(cfg: Config, r: Row, timer: Option<nat>, at: int)
    requires !r.state.Starting?
    ensures var frames := TransitionFrames(cfg, r, r.state, at);
      |frames| == 1 && Shows(cfg, frames[0], r.(timer := timer), false, at)
    ensures Announces(StartedFrame(r, at), r.(timer := timer), at)
  {
  }

  /** What an accepted event puts out: the announcement of a new row, and its state if that is another than
      before. */
  lemma IngestShows(cfg: Config, s: State, ev: Event, now: int, choice: Option<string>)
    requires Accepts(cfg, s, ev, now, choice) && RowsNamed(s) && NoneStarting(s)
    ensures var s', id := Ingest(cfg, s, ev, now, choice).0, ev.sid;
      && id in s'.sessions && |s.log| <= |s'.log| && s'.log[..|s.log|] == s.log
      && var r, at, news := s'.sessions[id], (if ev.observedAt != 0 then ev.observedAt else now), s'.log[|s.log|..];
      && |news| == (if id in s.sessions then 0 else 1)
                   + (if id in s.sessions && s.sessions[id].state == r.state then 0 else 1)
      && (id !in s.sessions ==> Announces(news[0], r, at))
      && (!(id in s.sessions && s.sessions[id].state == r.state) ==> Shows(cfg, news[|news| - 1], r, false, at))
  {
    hide Admit, Publish, Duplicate, CreateChoice;
    AdmitKeepsOthers(cfg, s, ev, now, choice);
    var s1 := Admit(cfg, s, ev, now, choice);
    var at, isNew, before := ObservedAt(ev, now), ev.sid !in s.sessions, StateBefore(s, ev.sid);
    PublishTouches(cfg, s1, ev.sid, isNew, before, at);
    PublishLogs(cfg, s1, ev.sid, isNew, before, at);
    FramesShow(cfg, s1.sessions[ev.sid], Publish(cfg, s1, ev.sid, isNew, before, at).sessions[ev.sid].timer, at);
    hide Shows, Announces, TransitionFrames, StartedFrame, RowsNamed;
  }

  lemma DeathShows(cfg: Config, s: State, id: string, now: int)
    requires RowsNamed(s)
    ensures var s' := MarkDead(s, id, now);
      if IsLive(s.sessions, id)
      then
        && |s'.log| == |s.log| + 1 && s'.log[..|s.log|] == s.log && id in s'.sessions
        && Shows(cfg, s'.log[|s.log|], s'.sessions[id], false, now)
      else s'.log == s.log
  {
    if IsLive(s.sessions, id) {
      ClearTouches(s, id);
      hide ClearTimer;
    }
  }

  /** A death shows the row as it was, ended; a timer going off shows it idle, inferred so. */
  lemma OthersShow(cfg: Config, s: State, op: Op)
    requires Base(s) && (op.DoMarkDead? || op.DoFire?)
    ensures var s' := Step(cfg, s, op);
      && |s.log| <= |s'.log| && s'.log[..|s.log|] == s.log
      && var id := if op.DoMarkDead? then op.id else if op.timer in s.timers then s.timers[op.timer] else "";
      var changed := IsLive(s.sessions, id) && (op.DoFire? ==> s.sessions[id].state.Busy?);
      && s'.log[|s.log|..] == (if changed then [s'.log[|s'.log| - 1]] else [])
      && (changed ==> id in s'.sessions && Shows(cfg, s'.log[|s'.log| - 1], s'.sessions[id], op.DoFire?, op.now))
  {
    if op.DoMarkDead? {
      DeathShows(cfg, s, op.id, op.now);
      hide MarkDead, Shows;
    } else if op.timer in s.timers {
      FireIs(cfg, s, op.timer, op.now);
      hide Fire;
    }
  }
}
