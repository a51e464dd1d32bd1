/** What every serial run of the mux keeps: the two maps agree, BUSY rows and pending idle
    timers pair up, and the frames handed to the sink tell each session's state. */
module MuxInvariants {
  import opened Wire
  import opened MuxSpec

  // ── the run ───────────────────────────────────────────────────────────

  /** One serial operation; `choice` resolves which row a full table gives up. */
  datatype Op =
    | DoIngest(ev: Event, now: int, choice: Option<string>)
    | DoMarkDead(id: string, now: int)
    | DoFire(timer: nat, now: int)
    | DoGc(now: int)

  ghost predicate Legal(cfg: Config, s: State, op: Op) {
    op.DoIngest? ==> CreateChoice(cfg, s, op.ev.sid, op.choice)
  }

  function Step(cfg: Config, s: State, op: Op): State {
    match op
    case DoIngest(ev, now, choice) => Ingest(cfg, s, ev, now, choice).0
    case DoMarkDead(id, now) => MarkDead(s, id, now)
    case DoFire(t, now) => Fire(cfg, s, t, now)
    case DoGc(now) => Gc(cfg, s, now)
  }

  ghost predicate LegalRun(cfg: Config, s: State, ops: seq<Op>)
    decreases |ops|
  {
    ops == [] || (Legal(cfg, s, ops[0]) && LegalRun(cfg, Step(cfg, s, ops[0]), ops[1..]))
  }

  function Exec(cfg: Config, s: State, ops: seq<Op>): State
    decreases |ops|
  {
    if ops == [] then s else Exec(cfg, Step(cfg, s, ops[0]), ops[1..])
  }

  // ── invariants ────────────────────────────────────────────────────────

  /** threads[t] is exactly the set of ids whose row has thread t, and is never empty. */
  ghost predicate IndexAgrees(s: State) {
    && (forall id | id in s.sessions ::
          s.sessions[id].threadID in s.threads && id in s.threads[s.sessions[id].threadID])
    && (forall t, id | t in s.threads && id in s.threads[t] ::
          id in s.sessions && s.sessions[id].threadID == t)
    && (forall t | t in s.threads :: s.threads[t] != {})
  }

  ghost predicate RowsNamed(s: State) {
    forall id | id in s.sessions :: id != "" && s.sessions[id].id == id
  }

  ghost predicate NoneStarting(s: State) {
    forall id | id in s.sessions :: !s.sessions[id].state.Starting?
  }

  /** Every pending timer is the one its row holds a handle on. */
  ghost predicate TimersOwned(s: State) {
    && (forall t | t in s.timers ::
          t < s.nextTimer && s.timers[t] in s.sessions && s.sessions[s.timers[t]].timer == Some(t))
    && (forall id | id in s.sessions && s.sessions[id].timer.Some? ::
          s.sessions[id].timer.value < s.nextTimer
          && (s.sessions[id].timer.value in s.timers ==> s.timers[s.sessions[id].timer.value] == id))
  }

  /** Row `id` holds the handle of a timer that is still pending. */
  ghost predicate Armed(s: State, id: string) {
    id in s.sessions && s.sessions[id].timer.Some?
    && s.sessions[id].timer.value in s.timers && s.timers[s.sessions[id].timer.value] == id
  }

  ghost predicate TimersCover(s: State) {
    TimersOwned(s) && forall id | id in s.sessions :: s.sessions[id].state.Busy? <==> Armed(s, id)
  }

  /** The state told by the latest frame that bears `id`. */
  function LastTold(log: seq<Broadcast>, id: string): Option<SessionState> {
    if log == [] then None
    else
      var b := log[|log| - 1];
      if b.sid == id && Decode(b).Some? then Decode(b) else LastTold(log[..|log| - 1], id)
  }

  /** An absent row counts as DEAD. */
  function LiveState(s: State, id: string): Option<SessionState> {
    if IsLive(s.sessions, id) then Some(s.sessions[id].state) else None
  }

  function Alive(told: Option<SessionState>): Option<SessionState> {
    if told == Some(Dead) then None else told
  }

  ghost predicate FrameTells(s: State, id: string) {
    && (id in s.sessions ==> LastTold(s.log, id) == Some(s.sessions[id].state))
    && (id !in s.sessions ==> Alive(LastTold(s.log, id)) == None)
  }

  ghost predicate FramesTell(s: State) {
    forall id | id != "" :: FrameTells(s, id)
  }

  ghost predicate Inv(s: State) {
    IndexAgrees(s) && RowsNamed(s) && NoneStarting(s) && TimersCover(s) && FramesTell(s)
  }

  // ── the thread index ──────────────────────────────────────────────────

  lemma EmptyIndex(s: State)
    requires IndexAgrees(s) && s.sessions == map[]
    ensures s.threads == map[]
  {
    forall t, id | t in s.threads ensures id !in s.threads[t] {
      assert id !in s.sessions;
    }
    assert forall t :: t !in s.threads;
  }

  lemma ReapKeepsIndex(s: State, choice: Option<string>)
    requires IndexAgrees(s)
    ensures IndexAgrees(Reap(s, choice))
  {
  }

  lemma AddRowKeepsIndex(s: State, id: string, row: Row)
    requires IndexAgrees(s) && id !in s.sessions
    ensures IndexAgrees(s.(sessions := s.sessions[id := row], threads := Link(s.threads, row.threadID, id)))
  {
    var s' := s.(sessions := s.sessions[id := row], threads := Link(s.threads, row.threadID, id));
    forall t, x | t in s'.threads && x in s'.threads[t]
      ensures x in s'.sessions && s'.sessions[x].threadID == t
    {
      if x != id {
        assert t in s.threads && x in s.threads[t];
      }
    }
  }

  lemma CreateKeepsIndex(cfg: Config, s: State, id: string, agent: string, cwd: string, now: int,
      choice: Option<string>)
    requires IndexAgrees(s)
    ensures IndexAgrees(GetOrCreate(cfg, s, id, agent, cwd, now, choice))
  {
    if id !in s.sessions {
      ReapKeepsIndex(s, choice);
      AddRowKeepsIndex(if MustReap(cfg, s, id) then Reap(s, choice) else s, id, NewRow(cfg, id, agent, cwd, now));
    }
  }

  /** Changing rows without touching their threads leaves the index right. */
  lemma SameThreadsKeepIndex(s: State, s': State)
    requires IndexAgrees(s)
    requires s'.threads == s.threads && s'.sessions.Keys == s.sessions.Keys
    requires forall id | id in s.sessions :: s'.sessions[id].threadID == s.sessions[id].threadID
    ensures IndexAgrees(s')
  {
  }

  /** `s'` is `s` but for the timer handle of row `id`, the pending timers and the log. */
  ghost predicate OnlyTimerOf(s: State, s': State, id: string) {
    && id in s.sessions && id in s'.sessions
    && s'.threads == s.threads && s'.recent == s.recent
    && s'.sessions == s.sessions[id := s.sessions[id].(timer := s'.sessions[id].timer)]
  }

  lemma ClearTouches(s: State, id: string)
    requires id in s.sessions
    ensures OnlyTimerOf(s, ClearTimer(s, id), id)
  {
  }

  lemma TransitionTouches(cfg: Config, s: State, id: string, state: SessionState, at: int)
    requires id in s.sessions
    ensures OnlyTimerOf(s, EmitTransition(cfg, s, id, state, at), id)
  {
    ClearTouches(s, id);
  }

  lemma ArmTouches(s: State, id: string)
    requires id in s.sessions
    ensures OnlyTimerOf(s, Arm(s, id), id)
  {
    ClearTouches(s, id);
  }

  lemma PublishTouches(cfg: Config, s: State, id: string, isNew: bool, before: SessionState, at: int)
    requires id in s.sessions
    ensures OnlyTimerOf(s, Publish(cfg, s, id, isNew, before, at), id)
  {
    hide EmitTransition, Arm, StartedFrame;
    var after := s.sessions[id].state;
    var s1 := if isNew then Emit(s, StartedFrame(s.sessions[id], at)) else s;
    TransitionTouches(cfg, s1, id, after, at);
    var s2 := if after != before then EmitTransition(cfg, s1, id, after, at) else s1;
    ArmTouches(s2, id);
  }

  lemma OnlyTimerKeepsIndex(s: State, s': State, id: string)
    requires IndexAgrees(s) && OnlyTimerOf(s, s', id)
    ensures IndexAgrees(s')
  {
  }

  lemma AbsorbKeepsIdentity(cfg: Config, r: Row, ev: Event, at: int)
    ensures var r' := Absorb(cfg, r, ev, at);
      r'.id == r.id && r'.agent == r.agent && r'.cwd == r.cwd && r'.threadID == r.threadID && r'.timer == r.timer
    ensures Wellformed(ev) ==> !Absorb(cfg, r, ev, at).state.Starting?
  {
  }

  lemma AdmitKeepsIndex(cfg: Config, s: State, ev: Event, now: int, choice: Option<string>)
    requires IndexAgrees(s)
    ensures IndexAgrees(Admit(cfg, s, ev, now, choice))
  {
    hide Absorb, GetOrCreate, Stamp;
    var s0 := s.(recent := Stamp(s.recent, ev, now));
    CreateKeepsIndex(cfg, s0, ev.sid, ev.agent, ev.cwd, now, choice);
    var s1 := GetOrCreate(cfg, s0, ev.sid, ev.agent, ev.cwd, now, choice);
    AbsorbKeepsIdentity(cfg, s1.sessions[ev.sid], ev, ObservedAt(ev, now));
    var row := Absorb(cfg, s1.sessions[ev.sid], ev, ObservedAt(ev, now));
    SameThreadsKeepIndex(s1, s1.(sessions := s1.sessions[ev.sid := row]));
  }

  lemma IngestKeepsIndex(cfg: Config, s: State, ev: Event, now: int, choice: Option<string>)
    requires IndexAgrees(s)
    ensures IndexAgrees(Ingest(cfg, s, ev, now, choice).0)
  {
    hide Admit, Publish;
    AdmitKeepsIndex(cfg, s, ev, now, choice);
    var s1 := Admit(cfg, s, ev, now, choice);
    PublishTouches(cfg, s1, ev.sid, ev.sid !in s.sessions, StateBefore(s, ev.sid), ObservedAt(ev, now));
    var before, at := StateBefore(s, ev.sid), ObservedAt(ev, now);
    OnlyTimerKeepsIndex(s1, Publish(cfg, s1, ev.sid, ev.sid !in s.sessions, before, at), ev.sid);
  }

  // ── idle timers ───────────────────────────────────────────────────────

  lemma ClearDisarms(s: State, id: string)
    requires TimersOwned(s) && id in s.sessions
    ensures var s' := ClearTimer(s, id);
      TimersOwned(s') && !Armed(s', id) && forall x | x != id :: Armed(s', x) <==> Armed(s, x)
  {
  }

  lemma ArmArms(s: State, id: string)
    requires TimersOwned(s) && id in s.sessions
    ensures var s' := Arm(s, id);
      TimersOwned(s') && Armed(s', id) && forall x | x != id :: Armed(s', x) <==> Armed(s, x)
  {
    ClearDisarms(s, id);
  }

  /** Everything but row `id` is settled, and `id` is armed exactly if it was BUSY before. */
  ghost predicate Unsettled(s: State, id: string, before: SessionState) {
    && id in s.sessions && TimersOwned(s)
    && (Armed(s, id) <==> before.Busy?)
    && forall x | x in s.sessions && x != id :: s.sessions[x].state.Busy? <==> Armed(s, x)
  }

  lemma TransitionDisarms(cfg: Config, s: State, id: string, state: SessionState, at: int)
    requires TimersOwned(s) && id in s.sessions
    ensures var s' := EmitTransition(cfg, s, id, state, at);
      && TimersOwned(s') && (forall x | x != id :: Armed(s', x) <==> Armed(s, x))
      && (!state.Busy? && !state.Starting? ==> !Armed(s', id))
  {
    ClearDisarms(s, id);
  }

  lemma EmitKeepsTimers(s: State, b: Broadcast)
    ensures TimersOwned(s) ==> TimersOwned(Emit(s, b))
    ensures forall x :: Armed(Emit(s, b), x) <==> Armed(s, x)
  {
  }

  lemma SettlesOne(s: State, s': State, id: string)
    requires OnlyTimerOf(s, s', id) && TimersOwned(s')
    requires forall x | x in s.sessions && x != id :: s.sessions[x].state.Busy? <==> Armed(s, x)
    requires forall x | x != id :: Armed(s', x) <==> Armed(s, x)
    requires s.sessions[id].state.Busy? <==> Armed(s', id)
    ensures TimersCover(s')
  {
    hide Armed, TimersOwned;
  }

  lemma PublishCovers(cfg: Config, s: State, id: string, isNew: bool, before: SessionState, at: int)
    requires Unsettled(s, id, before) && !s.sessions[id].state.Starting?
    ensures TimersCover(Publish(cfg, s, id, isNew, before, at))
  {
    hide EmitTransition, Arm, StartedFrame, Armed, TimersOwned, TimersCover, Emit;
    var after := s.sessions[id].state;
    var b := StartedFrame(s.sessions[id], at);
    EmitKeepsTimers(s, b);
    EmitKeepsRows(s, b);
    var s1 := if isNew then Emit(s, b) else s;
    TransitionDisarms(cfg, s1, id, after, at);
    TransitionTouches(cfg, s1, id, after, at);
    var s2 := if after != before then EmitTransition(cfg, s1, id, after, at) else s1;
    ArmArms(s2, id);
    PublishTouches(cfg, s, id, isNew, before, at);
    SettlesOne(s, Publish(cfg, s, id, isNew, before, at), id);
  }

  lemma EmitKeepsRows(s: State, b: Broadcast)
    ensures Emit(s, b).sessions == s.sessions
  {
  }

  lemma ReapCovers(s: State, choice: Option<string>)
    requires TimersCover(s) && ReapChoice(s.sessions, choice)
    ensures TimersCover(Reap(s, choice))
  {
  }

  lemma AddRowCovers(s: State, id: string, row: Row, threads: map<string, set<string>>)
    requires TimersCover(s) && id !in s.sessions && row.timer == None && !row.state.Busy?
    ensures TimersCover(s.(sessions := s.sessions[id := row], threads := threads))
  {
  }

  lemma CreateCovers(cfg: Config, s: State, id: string, agent: string, cwd: string, now: int, choice: Option<string>)
    requires TimersCover(s) && CreateChoice(cfg, s, id, choice)
    ensures TimersCover(GetOrCreate(cfg, s, id, agent, cwd, now, choice))
  {
    if id !in s.sessions {
      if MustReap(cfg, s, id) { ReapCovers(s, choice); }
      var s1 := if MustReap(cfg, s, id) then Reap(s, choice) else s;
      var row := NewRow(cfg, id, agent, cwd, now);
      AddRowCovers(s1, id, row, Link(s1.threads, row.threadID, id));
    }
  }

  lemma CreatedState(cfg: Config, s: State, id: string, agent: string, cwd: string, now: int, choice: Option<string>)
    ensures GetOrCreate(cfg, s, id, agent, cwd, now, choice).sessions[id].state == StateBefore(s, id)
  {
  }

  lemma AdmitUnsettles(cfg: Config, s: State, ev: Event, now: int, choice: Option<string>)
    requires TimersCover(s) && CreateChoice(cfg, s, ev.sid, choice) && Wellformed(ev)
    ensures var s' := Admit(cfg, s, ev, now, choice);
      Unsettled(s', ev.sid, StateBefore(s, ev.sid)) && !s'.sessions[ev.sid].state.Starting?
  {
    hide Absorb, GetOrCreate, Stamp, StateBefore;
    var s0 := s.(recent := Stamp(s.recent, ev, now));
    CreateCovers(cfg, s0, ev.sid, ev.agent, ev.cwd, now, choice);
    CreatedState(cfg, s0, ev.sid, ev.agent, ev.cwd, now, choice);
    assert StateBefore(s0, ev.sid) == StateBefore(s, ev.sid) by { SameTable(s, s0, ev.sid); }
    var s1 := GetOrCreate(cfg, s0, ev.sid, ev.agent, ev.cwd, now, choice);
    AbsorbKeepsIdentity(cfg, s1.sessions[ev.sid], ev, ObservedAt(ev, now));
  }

  lemma SameTable(s: State, s': State, id: string)
    requires s.sessions == s'.sessions
    ensures StateBefore(s, id) == StateBefore(s', id)
  {
  }

  // ── frames ────────────────────────────────────────────────────────────

  /** The states told by a stretch of frames, with the ids they are told of. */
  function Tellings(frames: seq<Broadcast>): seq<(string, SessionState)> {
    if frames == [] then []
    else
      var b := frames[|frames| - 1];
      Tellings(frames[..|frames| - 1]) + (if Decode(b).Some? then [(b.sid, Decode(b).value)] else [])
  }

  lemma TellingsAppend(frames: seq<Broadcast>, b: Broadcast)
    ensures Tellings(frames + [b]) == Tellings(frames) + (if Decode(b).Some? then [(b.sid, Decode(b).value)] else [])
  {
    assert (frames + [b])[..|frames|] == frames;
  }

  lemma LastToldAppend(log: seq<Broadcast>, b: Broadcast, id: string)
    ensures LastTold(log + [b], id) == if b.sid == id && Decode(b).Some? then Decode(b) else LastTold(log, id)
  {
    assert (log + [b])[..|log|] == log;
  }

  /** From `s` to `s'` exactly the rows in `told` took on a new state; rows that vanished were DEAD. */
  ghost predicate Delta(s: State, s': State, told: seq<(string, SessionState)>) {
    && |told| <= 1
    && (forall x | x in s'.sessions && (told == [] || x != told[0].0) ::
          x in s.sessions && s'.sessions[x].state == s.sessions[x].state)
    && (told != [] ==>
          && told[0].0 != "" && told[0].0 in s'.sessions && s'.sessions[told[0].0].state == told[0].1
          && (told[0].0 in s.sessions ==> s.sessions[told[0].0].state != told[0].1))
    && (forall x | x in s.sessions && x !in s'.sessions :: s.sessions[x].state.Dead?)
  }

  /** Only the last of a step's frames may tell a state. */
  ghost predicate LastTells(frames: seq<Broadcast>) {
    forall i | 0 <= i < |frames| - 1 :: Decode(frames[i]).None?
  }

  ghost predicate StepTells(s: State, s': State) {
    && |s.log| <= |s'.log| && s'.log[..|s.log|] == s.log
    && LastTells(s'.log[|s.log|..])
    && Delta(s, s', Tellings(s'.log[|s.log|..]))
  }

  function PublishedFrames(cfg: Config, r: Row, isNew: bool, before: SessionState, at: int): seq<Broadcast> {
    (if isNew then [StartedFrame(r, at)] else [])
    + (if r.state != before then TransitionFrames(cfg, r, r.state, at) else [])
  }

  lemma TransitionLogs(cfg: Config, s: State, id: string, state: SessionState, at: int)
    requires id in s.sessions
    ensures EmitTransition(cfg, s, id, state, at).log == s.log + TransitionFrames(cfg, s.sessions[id], state, at)
    ensures Arm(s, id).log == s.log
  {
    hide TransitionFrames;
  }

  lemma PublishLogs(cfg: Config, s: State, id: string, isNew: bool, before: SessionState, at: int)
    requires id in s.sessions
    ensures Publish(cfg, s, id, isNew, before, at).log ==
      s.log + PublishedFrames(cfg, s.sessions[id], isNew, before, at)
  {
    hide StartedFrame, TransitionFrames, EmitTransition, Arm;
    var after := s.sessions[id].state;
    var s1 := if isNew then Emit(s, StartedFrame(s.sessions[id], at)) else s;
    TransitionLogs(cfg, s1, id, after, at);
    TransitionTouches(cfg, s1, id, after, at);
    var s2 := if after != before then EmitTransition(cfg, s1, id, after, at) else s1;
    TransitionLogs(cfg, s2, id, after, at);
  }

  lemma TransitionTold(cfg: Config, r: Row, state: SessionState, at: int)
    requires !state.Starting? && state == r.state
    ensures var frames := TransitionFrames(cfg, r, state, at);
      |frames| == 1 && Decode(frames[0]) == Some(state) && frames[0].sid == r.id
  {
    hide AwaitingFor;
    if state.Idle? { IdleTold(cfg, r, at); }
  }

  lemma IdleTold(cfg: Config, r: Row, at: int)
    ensures !r.state.AwaitingPermission? ==> Decode(IdleFrame(cfg, r, false, at)) == Some(Idle)
  {
  }

  lemma StartedTold(r: Row, at: int)
    ensures Tellings([StartedFrame(r, at)]) == [] && Tellings([]) == []
    ensures Decode(StartedFrame(r, at)).None?
  {
    assert [StartedFrame(r, at)][..0] == [];
  }

  lemma TellingsNone()
    ensures Tellings([]) == []
  {
  }

  /** At most one frame that tells nothing, then at most one that tells. */
  lemma FewTellings(started: Broadcast, b: Broadcast)
    requires Decode(started).None? && Decode(b).Some?
    ensures Tellings([]) == [] && Tellings([started]) == []
    ensures Tellings([b]) == [(b.sid, Decode(b).value)] == Tellings([started, b])
    ensures LastTells([]) && LastTells([started]) && LastTells([b]) && LastTells([started, b])
  {
    TellingsNone();
    hide Decode, Tellings;
    assert [started] == [] + [started] && [b] == [] + [b] && [started, b] == [started] + [b];
    TellingsAppend([], started);
    TellingsAppend([], b);
    TellingsAppend([started], b);
  }

  lemma PublishedTellings(cfg: Config, r: Row, isNew: bool, before: SessionState, at: int)
    requires !r.state.Starting?
    ensures Tellings(PublishedFrames(cfg, r, isNew, before, at)) == if r.state != before then [(r.id, r.state)] else []
    ensures LastTells(PublishedFrames(cfg, r, isNew, before, at))
  {
    StartedTold(r, at);
    TransitionTold(cfg, r, r.state, at);
    var started, b := StartedFrame(r, at), TransitionFrames(cfg, r, r.state, at)[0];
    FewTellings(started, b);
    hide StartedFrame, TransitionFrames, Decode, Tellings, LastTells;
    var frames := PublishedFrames(cfg, r, isNew, before, at);
    assert TransitionFrames(cfg, r, r.state, at) == [b];
    assert frames == if isNew then (if r.state != before then [started, b] else [started])
      else if r.state != before then [b] else [];
  }

  /** Looking up or creating a row leaves every other row alone, except that one DEAD row may go. */
  lemma CreateKeepsOthers(cfg: Config, s: State, id: string, agent: string, cwd: string, now: int,
      choice: Option<string>)
    requires CreateChoice(cfg, s, id, choice)
    ensures var s' := GetOrCreate(cfg, s, id, agent, cwd, now, choice);
      && s'.log == s.log
      && (forall x | x in s'.sessions && x != id :: x in s.sessions && s'.sessions[x] == s.sessions[x])
      && (forall x | x in s.sessions && x !in s'.sessions :: s.sessions[x].state.Dead?)
      && (id in s.sessions ==> s'.sessions[id] == s.sessions[id])
      && (id !in s.sessions ==> s'.sessions[id] == NewRow(cfg, id, agent, cwd, now))
  {
    hide NewRow;
  }

  lemma AdmitKeepsOthers(cfg: Config, s: State, ev: Event, now: int, choice: Option<string>)
    requires CreateChoice(cfg, s, ev.sid, choice) && RowsNamed(s) && Wellformed(ev)
    ensures var s' := Admit(cfg, s, ev, now, choice);
      && s'.log == s.log
      && (forall x | x in s'.sessions && x != ev.sid :: x in s.sessions && s'.sessions[x] == s.sessions[x])
      && (forall x | x in s.sessions && x !in s'.sessions :: s.sessions[x].state.Dead?)
      && RowsNamed(s') && !s'.sessions[ev.sid].state.Starting?
  {
    hide Absorb, GetOrCreate, Stamp;
    var s0 := s.(recent := Stamp(s.recent, ev, now));
    CreateKeepsOthers(cfg, s0, ev.sid, ev.agent, ev.cwd, now, choice);
    var s1 := GetOrCreate(cfg, s0, ev.sid, ev.agent, ev.cwd, now, choice);
    assert s1.sessions[ev.sid].id == ev.sid;
    AbsorbKeepsIdentity(cfg, s1.sessions[ev.sid], ev, ObservedAt(ev, now));
  }

  lemma IngestTells(cfg: Config, s: State, ev: Event, now: int, choice: Option<string>)
    requires CreateChoice(cfg, s, ev.sid, choice) && RowsNamed(s) && NoneStarting(s)
    ensures var s' := Ingest(cfg, s, ev, now, choice).0;
      StepTells(s, s') && RowsNamed(s') && NoneStarting(s')
  {
    hide Admit, Publish, PublishedFrames, Duplicate, StateBefore, Tellings, Decode;
    if Wellformed(ev) && !Duplicate(cfg, s.recent, ev, now) {
      AdmitKeepsOthers(cfg, s, ev, now, choice);
      var s1 := Admit(cfg, s, ev, now, choice);
      var at, isNew, before := ObservedAt(ev, now), ev.sid !in s.sessions, StateBefore(s, ev.sid);
      assert before == if isNew then Starting else s.sessions[ev.sid].state by { StateBeforeIs(s, ev.sid); }
      PublishTouches(cfg, s1, ev.sid, isNew, before, at);
      PublishLogs(cfg, s1, ev.sid, isNew, before, at);
      PublishedTellings(cfg, s1.sessions[ev.sid], isNew, before, at);
      var s' := Publish(cfg, s1, ev.sid, isNew, before, at);
      assert s'.log[|s.log|..] == PublishedFrames(cfg, s1.sessions[ev.sid], isNew, before, at);
    } else {
      NothingTold(s);
    }
  }

  lemma NothingTold(s: State)
    ensures StepTells(s, s)
  {
  }

  lemma StateBeforeIs(s: State, id: string)
    ensures StateBefore(s, id) == if id in s.sessions then s.sessions[id].state else Starting
  {
  }

  lemma IngestCovers(cfg: Config, s: State, ev: Event, now: int, choice: Option<string>)
    requires TimersCover(s) && CreateChoice(cfg, s, ev.sid, choice)
    ensures TimersCover(Ingest(cfg, s, ev, now, choice).0)
  {
    hide Admit, Publish, Duplicate, StateBefore;
    if Wellformed(ev) && !Duplicate(cfg, s.recent, ev, now) {
      AdmitUnsettles(cfg, s, ev, now, choice);
      PublishCovers(cfg, Admit(cfg, s, ev, now, choice), ev.sid, ev.sid !in s.sessions, StateBefore(s, ev.sid),
                    ObservedAt(ev, now));
    }
  }

  // ── the other operations ──────────────────────────────────────────────

  lemma BuryKeepsIndex(s: State, id: string)
    requires id in s.sessions && IndexAgrees(s)
    ensures IndexAgrees(Bury(s, id))
  {
    ClearTouches(s, id);
    hide ClearTimer, TimersOwned, Armed;
  }

  lemma RestateKeepsTimers(s: State, id: string, state: SessionState)
    requires id in s.sessions && TimersOwned(s)
    ensures var s' := s.(sessions := s.sessions[id := s.sessions[id].(state := state)]);
      TimersOwned(s') && forall x :: Armed(s', x) <==> Armed(s, x)
  {
  }

  lemma BuryKeepsTimers(s: State, id: string)
    requires id in s.sessions && TimersCover(s)
    ensures TimersCover(Bury(s, id))
  {
    ClearDisarms(s, id);
    ClearTouches(s, id);
    RestateKeepsTimers(ClearTimer(s, id), id, Dead);
    hide ClearTimer, Armed, TimersOwned;
  }

  lemma BuryKeeps(s: State, id: string)
    requires id in s.sessions && IndexAgrees(s) && TimersCover(s)
    ensures IndexAgrees(Bury(s, id)) && TimersCover(Bury(s, id))
  {
    hide *;
    BuryKeepsIndex(s, id);
    BuryKeepsTimers(s, id);
  }

  lemma OneFrame(log: seq<Broadcast>, log': seq<Broadcast>, b: Broadcast)
    requires log' == log + [b]
    ensures |log| <= |log'| && log'[..|log|] == log && LastTells(log'[|log|..])
    ensures Tellings(log'[|log|..]) == if Decode(b).Some? then [(b.sid, Decode(b).value)] else []
  {
    TellingsAppend([], b);
    assert log'[|log|..] == [] + [b];
  }

  lemma BuryTells(s: State, id: string, now: int)
    requires IsLive(s.sessions, id) && RowsNamed(s) && NoneStarting(s)
    ensures var s' := Emit(Bury(s, id), EndedFrame(s.sessions[id], now));
      RowsNamed(s') && NoneStarting(s') && StepTells(s, s')
  {
    ClearTouches(s, id);
    ClearKeepsLog(s, id);
    EndedTold(s.sessions[id], now);
    hide ClearTimer, EndedFrame, Decode, Tellings;
    var b := EndedFrame(s.sessions[id], now);
    OneFrame(s.log, Bury(s, id).log + [b], b);
  }

  lemma EndedTold(r: Row, at: int)
    ensures Decode(EndedFrame(r, at)) == Some(Dead) && EndedFrame(r, at).sid == r.id
  {
  }

  lemma ClearKeepsLog(s: State, id: string)
    requires id in s.sessions
    ensures ClearTimer(s, id).log == s.log
  {
  }

  lemma MarkDeadKeeps(s: State, id: string, now: int)
    requires IndexAgrees(s) && RowsNamed(s) && NoneStarting(s) && TimersCover(s)
    ensures var s' := MarkDead(s, id, now);
      IndexAgrees(s') && RowsNamed(s') && NoneStarting(s') && TimersCover(s') && StepTells(s, s')
  {
    hide Bury, EndedFrame, IndexAgrees, TimersCover, StepTells, Emit, RowsNamed, NoneStarting;
    if IsLive(s.sessions, id) {
      BuryKeeps(s, id);
      BuryTells(s, id, now);
      EmitKeeps(Bury(s, id), EndedFrame(s.sessions[id], now));
    } else {
      NothingTold(s);
    }
  }

  lemma EmitKeeps(s: State, b: Broadcast)
    ensures IndexAgrees(s) ==> IndexAgrees(Emit(s, b))
    ensures TimersCover(s) ==> TimersCover(Emit(s, b))
  {
    EmitKeepsTimers(s, b);
    hide Armed, TimersOwned;
  }

  /** The row of a pending timer turns IDLE and the timer is gone. */
  lemma FireIs(cfg: Config, s: State, t: nat, now: int)
    requires TimersCover(s) && t in s.timers
    ensures var id := s.timers[t]; var r := s.sessions[id].(state := Idle);
      Fire(cfg, s, t, now) ==
        s.(timers := s.timers - {t}, sessions := s.sessions[id := r], log := s.log + [IdleFrame(cfg, r, true, now)])
  {
    hide IdleFrame;
  }

  lemma ExpireKeeps(s: State, t: nat, r: Row, log: seq<Broadcast>)
    requires IndexAgrees(s) && TimersCover(s) && t in s.timers && r == s.sessions[s.timers[t]].(state := Idle)
    ensures var s' := s.(timers := s.timers - {t}, sessions := s.sessions[s.timers[t] := r], log := log);
      IndexAgrees(s') && TimersCover(s')
  {
  }

  lemma ExpireTells(s: State, t: nat, r: Row, b: Broadcast)
    requires RowsNamed(s) && NoneStarting(s) && TimersCover(s) && t in s.timers
    requires r == s.sessions[s.timers[t]].(state := Idle) && b.sid == r.id && Decode(b) == Some(Idle)
    ensures var s' := s.(timers := s.timers - {t}, sessions := s.sessions[s.timers[t] := r], log := s.log + [b]);
      RowsNamed(s') && NoneStarting(s') && StepTells(s, s')
  {
    OneFrame(s.log, s.log + [b], b);
  }

  lemma FireKeeps(cfg: Config, s: State, t: nat, now: int)
    requires IndexAgrees(s) && RowsNamed(s) && NoneStarting(s) && TimersCover(s)
    ensures var s' := Fire(cfg, s, t, now);
      IndexAgrees(s') && RowsNamed(s') && NoneStarting(s') && TimersCover(s') && StepTells(s, s')
  {
    if t in s.timers {
      FireIs(cfg, s, t, now);
      hide Fire, IdleFrame, InferIdle, IndexAgrees, TimersCover, StepTells;
      var r := s.sessions[s.timers[t]].(state := Idle);
      var b := IdleFrame(cfg, r, true, now);
      IdleFrameTells(cfg, r, true, now);
      ExpireKeeps(s, t, r, s.log + [b]);
      ExpireTells(s, t, r, b);
    }
  }

  lemma IdleFrameTells(cfg: Config, r: Row, inferred: bool, at: int)
    ensures var b := IdleFrame(cfg, r, inferred, at);
      b.sid == r.id && Decode(b) == Some(if r.state.AwaitingPermission? then AwaitingPermission else Idle)
  {
  }
}
