/** What racing goroutines can do to the sink and to the idle timers, and how a goroutine that runs alone is
    one step of the serial machine. */
module MuxRaces {
  import opened Wire
  import opened MuxSpec
  import opened MuxInvariants
  import opened MuxSplit
  import opened MuxOrderly

  // ── a race misleads the sink for good ─────────────────────────────────

  lemma TransitionDecodes(cfg: Config, r: Row, at: int)
    requires !r.state.Starting?
    ensures |TransitionFrames(cfg, r, r.state, at)| == 1
    ensures var b := TransitionFrames(cfg, r, r.state, at)[0]; b.sid == r.id && Decode(b) == Some(r.state)
  {
  }

  lemma AdmitExisting(cfg: Config, s: State, ev: Event, now: int)
    requires ev.sid in s.sessions
    ensures var s' := Admit(cfg, s, ev, now, None);
      && s'.sessions == s.sessions[ev.sid := Absorb(cfg, s.sessions[ev.sid], ev, ObservedAt(ev, now))]
      && s'.recent == Stamp(s.recent, ev, now) && s'.log == s.log
  {
    hide Absorb, Stamp;
  }

  /** What an ingest that changes the state of an existing row leaves: the row in the new state and
      the frame telling it in the goroutine's hand. */
  lemma IngestExisting(cfg: Config, m: Machine, g: nat, ev: Event, now: int)
    requires Sound(m) && g !in m.gos && ev.sid in m.mux.sessions && Wellformed(ev)
    requires !Duplicate(cfg, m.mux.recent, ev, now)
    requires Absorb(cfg, m.mux.sessions[ev.sid], ev, ObservedAt(ev, now)).state != m.mux.sessions[ev.sid].state
    ensures var op := BeginIngest(g, ev, now, None); var m' := SplitStep(cfg, m, op);
      var after := Absorb(cfg, m.mux.sessions[ev.sid], ev, ObservedAt(ev, now)).state;
      && SplitLegal(cfg, m, op) && Sound(m')
      && ev.sid in m'.mux.sessions && m'.mux.sessions[ev.sid].state == after
      && m'.births == m.births && m'.mux.log == m.mux.log && m'.mux.recent == Stamp(m.mux.recent, ev, now)
      && exists b: Broadcast :: b.sid == ev.sid && Decode(b) == Some(after)
           && m'.gos == m.gos[g := Sending(b, Rearm(ev.sid, Born(m, ev.sid), after))]
  {
    hide Absorb, Stamp, Duplicate, ReportBy, BirthsSound, IndexAgrees, NoneStarting, TransitionFrames, Disarm;
    hide TimersOnly;
    AdmitExisting(cfg, m.mux, ev, now);
    EnteredSound(cfg, m, ev, now, None);
    var m1 := Entered(cfg, m, ev, now, None);
    var row, at := m1.mux.sessions[ev.sid], ObservedAt(ev, now);
    assert row == Absorb(cfg, m.mux.sessions[ev.sid], ev, at);
    hide Admit;
    SoundRow(m1, ev.sid);
    var rest := Report(ev.sid, Born(m1, ev.sid), row.state, at);
    TransitionDecodes(cfg, row, at);
    ReportIs(cfg, m1, g, rest);
    var b := ReportSound(cfg, m1, g, rest);
  }

  lemma ReportIs(cfg: Config, m: Machine, g: nat, rest: Rest)
    requires rest.Report? && Current(m, rest.id, rest.birth)
    requires |TransitionFrames(cfg, m.mux.sessions[rest.id], rest.after, rest.at)| == 1
    ensures var m' := ReportBy(cfg, m, g, rest);
      && m'.gos == m.gos[g := Sending(TransitionFrames(cfg, m.mux.sessions[rest.id], rest.after, rest.at)[0],
                                      Rearm(rest.id, rest.birth, rest.after))]
      && m'.births == m.births && m'.mux.log == m.mux.log && m'.mux.recent == m.mux.recent
      && rest.id in m'.mux.sessions && m'.mux.sessions[rest.id].state == m.mux.sessions[rest.id].state
  {
    hide TransitionFrames, Disarm;
    DisarmIsTimersOnly(m, rest.id, rest.birth);
  }

  /** Two goroutines, one prompt and one stop, on any quiet machine with an IDLE row. */
  function Race(prompt: Event, stop: Event, now: int): seq<SplitOp> {
    [BeginIngest(1, prompt, now, None), BeginIngest(2, stop, now, None), Hand(2), Hand(1), Resume(2), Resume(1)]
  }

  /** The stop takes the lock after the prompt but reaches the sink first: all done, the row is IDLE,
      the latest frame says BUSY, and the idle timer left behind finds nothing to correct. */
  lemma RaceMisleads(cfg: Config, m: Machine, prompt: Event, stop: Event, now: int)
    requires Sound(m) && m.gos == map[] && prompt.sid == stop.sid && prompt.sid in m.mux.sessions
    requires m.mux.sessions[prompt.sid].state.Idle? && prompt.typ.UserPrompt? && stop.typ.Stop?
    requires !Duplicate(cfg, m.mux.recent, stop, now)
    ensures SplitLegalRun(cfg, m, Race(prompt, stop, now))
    ensures var m' := SplitExec(cfg, m, Race(prompt, stop, now)); var id := prompt.sid;
      && m'.gos == map[] && id in m'.mux.sessions && m'.mux.sessions[id].state.Idle?
      && LastTold(m'.mux.log, id) == Some(Busy)
      && Armed(m'.mux, id)
      && InferIdle(cfg, m'.mux, id, now) == m'.mux
  {
    hide SplitStep, SplitLegal, SplitLegalRun, SplitExec, Sound, LastTold, Armed, InferIdle, Duplicate, Born, Current;
    hide Decode, DedupKey;
    var id, birth := prompt.sid, Born(m, prompt.sid);
    var busy, idle := RaceStarts(cfg, m, prompt, stop, now);
    var begin1, begin2 := BeginIngest(1, prompt, now, None), BeginIngest(2, stop, now, None);
    var tail := [Hand(2), Hand(1), Resume(2), Resume(1)];
    assert Race(prompt, stop, now) == [begin1] + ([begin2] + tail);
    var m1 := SplitStep(cfg, m, begin1);
    var m2 := SplitStep(cfg, m1, begin2);
    RaceEnds(cfg, m2, id, birth, busy, idle, now);
    RunCons(cfg, m1, begin2, tail);
    RunCons(cfg, m, begin1, [begin2] + tail);
  }

  lemma RaceStarts(cfg: Config, m: Machine, prompt: Event, stop: Event, now: int)
    returns (busy: Broadcast, idle: Broadcast)
    requires Sound(m) && m.gos == map[] && prompt.sid == stop.sid && prompt.sid in m.mux.sessions
    requires m.mux.sessions[prompt.sid].state.Idle? && prompt.typ.UserPrompt? && stop.typ.Stop?
    requires !Duplicate(cfg, m.mux.recent, stop, now)
    ensures var begin1, begin2 := BeginIngest(1, prompt, now, None), BeginIngest(2, stop, now, None);
      var id, birth := prompt.sid, Born(m, prompt.sid);
      var m1 := SplitStep(cfg, m, begin1);
      var m2 := SplitStep(cfg, m1, begin2);
      && SplitLegal(cfg, m, begin1) && SplitLegal(cfg, m1, begin2)
      && busy.sid == id && idle.sid == id && Decode(busy) == Some(Busy) && Decode(idle) == Some(Idle)
      && m2.gos == map[1 := Sending(busy, Rearm(id, birth, Busy)), 2 := Sending(idle, Rearm(id, birth, Idle))]
      && Current(m2, id, birth) && m2.mux.sessions[id].state.Idle?
  {
    var id := prompt.sid;
    SoundRow(m, id);
    PromptAndStop(cfg, m.mux.sessions[id], m.mux.recent, prompt, stop, now);
    hide Absorb, Duplicate, Stamp, SplitStep, SplitLegal, Sound, Born;
    IngestExisting(cfg, m, 1, prompt, now);
    var m1 := SplitStep(cfg, m, BeginIngest(1, prompt, now, None));
    PromptAndStop(cfg, m1.mux.sessions[id], m.mux.recent, prompt, stop, now);
    IngestExisting(cfg, m1, 2, stop, now);
    var m2 := SplitStep(cfg, m1, BeginIngest(2, stop, now, None));
    var birth := Born(m, id);
    BirthStays(m, m1, m2, id);
    busy :| busy.sid == id && Decode(busy) == Some(Busy) && m1.gos == m.gos[1 := Sending(busy, Rearm(id, birth, Busy))];
    idle :| idle.sid == id && Decode(idle) == Some(Idle)
      && m2.gos == m1.gos[2 := Sending(idle, Rearm(id, birth, Idle))];
  }

  lemma PromptAndStop(cfg: Config, r: Row, recent: map<string, int>, prompt: Event, stop: Event, now: int)
    requires prompt.typ.UserPrompt? && stop.typ.Stop?
    ensures Absorb(cfg, r, prompt, ObservedAt(prompt, now)).state == Busy
    ensures Absorb(cfg, r, stop, ObservedAt(stop, now)).state == Idle
    ensures Stamp(recent, prompt, now) == recent && !Duplicate(cfg, recent, prompt, now)
  {
  }

  lemma BirthStays(m: Machine, m1: Machine, m2: Machine, id: string)
    requires Sound(m) && id in m.mux.sessions && id in m2.mux.sessions && m1.births == m.births && m2.births == m.births
    ensures Born(m1, id) == Born(m, id) && Current(m2, id, Born(m, id))
  {
    hide TableKept;
  }

  lemma RunCons(cfg: Config, m: Machine, op: SplitOp, rest: seq<SplitOp>)
    ensures SplitLegalRun(cfg, m, [op] + rest) <==>
      SplitLegal(cfg, m, op) && SplitLegalRun(cfg, SplitStep(cfg, m, op), rest)
    ensures SplitExec(cfg, m, [op] + rest) == SplitExec(cfg, SplitStep(cfg, m, op), rest)
  {
    hide SplitStep, SplitLegal;
    assert ([op] + rest)[1..] == rest;
  }

  lemma RunNone(cfg: Config, m: Machine)
    ensures SplitLegalRun(cfg, m, []) && SplitExec(cfg, m, []) == m
  {
  }

  lemma HandIs(cfg: Config, m: Machine, g: nat)
    requires g in m.gos && m.gos[g].Sending?
    ensures SplitLegal(cfg, m, Hand(g))
    ensures SplitStep(cfg, m, Hand(g)) ==
      m.(mux := m.mux.(log := m.mux.log + [m.gos[g].b]), gos := m.gos[g := Waiting(m.gos[g].rest)])
  {
  }

  lemma RearmIs(cfg: Config, m: Machine, g: nat)
    requires g in m.gos && m.gos[g].Waiting? && m.gos[g].rest.Rearm?
    ensures SplitLegal(cfg, m, Resume(g))
    ensures var rest, m1 := m.gos[g].rest, m.(gos := Without(m.gos, g));
      SplitStep(cfg, m, Resume(g)) == if rest.after.Busy? then ArmBy(m1, rest.id, rest.birth) else m1
  {
    hide ArmBy;
  }

  lemma RaceEnds(cfg: Config, m: Machine, id: string, birth: nat, busy: Broadcast, idle: Broadcast, now: int)
    requires m.gos == map[1 := Sending(busy, Rearm(id, birth, Busy)), 2 := Sending(idle, Rearm(id, birth, Idle))]
    requires busy.sid == id && idle.sid == id && Decode(busy) == Some(Busy) && Decode(idle) == Some(Idle)
    requires Current(m, id, birth) && m.mux.sessions[id].state.Idle?
    ensures var ops := [Hand(2), Hand(1), Resume(2), Resume(1)];
      SplitLegalRun(cfg, m, ops) && var m' := SplitExec(cfg, m, ops);
      && m'.gos == map[] && id in m'.mux.sessions && m'.mux.sessions[id].state.Idle?
      && LastTold(m'.mux.log, id) == Some(Busy)
      && Armed(m'.mux, id) && InferIdle(cfg, m'.mux, id, now) == m'.mux
  {
    hide SplitStep, SplitLegal, SplitExec, SplitLegalRun, Arm, LastTold, InferIdle, Armed, Decode;
    var m1, log1 := SplitStep(cfg, m, Hand(2)), m.mux.log + [idle];
    HandIs(cfg, m, 2);
    var m2 := SplitStep(cfg, m1, Hand(1));
    HandIs(cfg, m1, 1);
    var m3 := SplitStep(cfg, m2, Resume(2));
    RearmIs(cfg, m2, 2);
    var m4 := SplitStep(cfg, m3, Resume(1));
    RearmIs(cfg, m3, 1);
    assert Without(m3.gos, 1) == map[];
    assert m4.mux == Arm(m3.mux, id) && m4.gos == map[];
    RearmedIdle(cfg, m3.mux, id, now);
    LastToldAppend(log1, busy, id);
    RunNone(cfg, m4);
    assert [Hand(2), Hand(1), Resume(2), Resume(1)] == [Hand(2)] + ([Hand(1)] + ([Resume(2)] + ([Resume(1)] + [])));
    RunCons(cfg, m, Hand(2), [Hand(1)] + ([Resume(2)] + ([Resume(1)] + [])));
    RunCons(cfg, m1, Hand(1), [Resume(2)] + ([Resume(1)] + []));
    RunCons(cfg, m2, Resume(2), [Resume(1)] + []);
    RunCons(cfg, m3, Resume(1), []);
  }

  lemma RearmedIdle(cfg: Config, s: State, id: string, now: int)
    requires id in s.sessions && s.sessions[id].state.Idle?
    ensures var s' := Arm(s, id);
      && id in s'.sessions && s'.sessions[id].state.Idle? && Armed(s', id) && s'.log == s.log
      && InferIdle(cfg, s', id, now) == s'
  {
    hide IdleFrame;
  }

  // ── two frames in flight are two too many ─────────────────────────────

  predicate Holding(m: Machine, g: nat, x: string) {
    g in m.gos && m.gos[g].Sending? && Decode(m.gos[g].b).Some? && m.gos[g].b.sid == x
  }

  /** Wherever two goroutines hold frames of a session that tell different states, one order of handing them
      over leaves the sink told a state the session is not in. */
  lemma TwoFramesMislead(cfg: Config, m: Machine, x: string, g: nat, h: nat) returns (ops: seq<SplitOp>)
    requires g != h && Holding(m, g, x) && Holding(m, h, x) && Decode(m.gos[g].b) != Decode(m.gos[h].b)
    ensures ops == [Hand(g), Hand(h)] || ops == [Hand(h), Hand(g)]
    ensures SplitLegalRun(cfg, m, ops)
    ensures SplitExec(cfg, m, ops).mux.sessions == m.mux.sessions && !FrameTells(SplitExec(cfg, m, ops).mux, x)
  {
    var right := if x in m.mux.sessions then m.mux.sessions[x].state else Dead;
    if Decode(m.gos[h].b) != Some(right) {
      ops := [Hand(g), Hand(h)];
      HandBoth(cfg, m, x, g, h);
    } else {
      ops := [Hand(h), Hand(g)];
      HandBoth(cfg, m, x, h, g);
    }
  }

  lemma HandBoth(cfg: Config, m: Machine, x: string, g: nat, h: nat)
    requires g != h && Holding(m, g, x) && Holding(m, h, x)
    ensures var ops := [Hand(g), Hand(h)];
      SplitLegalRun(cfg, m, ops) && var m' := SplitExec(cfg, m, ops);
      m'.mux.sessions == m.mux.sessions && LastTold(m'.mux.log, x) == Decode(m.gos[h].b)
  {
    var m1 := SplitStep(cfg, m, Hand(g));
    var m2 := SplitStep(cfg, m1, Hand(h));
    LastToldAppend(m1.mux.log, m.gos[h].b, x);
    assert [Hand(g), Hand(h)] == [Hand(g)] + ([Hand(h)] + []);
    hide SplitStep, LastTold, Decode;
    RunCons(cfg, m, Hand(g), [Hand(h)] + []);
    RunCons(cfg, m1, Hand(h), []);
  }

  // ── a timer swallowed ─────────────────────────────────────────────────

  function Swallow(start: Event, prompt: Event, now: int): seq<SplitOp> {
    [BeginIngest(1, start, now, None), BeginIngest(2, prompt, now, None)]
    + [Hand(2), Resume(2), Hand(1), Resume(1), Hand(1), Resume(1)]
  }

  /** What the start of a session nobody knows leaves on a fresh machine. */
  lemma StartsFresh(cfg: Config, start: Event, now: int)
    requires Wellformed(start) && start.typ.SessionStart?
    ensures var op := BeginIngest(1, start, now, None); var m := SplitStep(cfg, FRESH, op); var id := start.sid;
      && SplitLegal(cfg, FRESH, op) && id in m.mux.sessions
      && m.mux.sessions[id].state == Idle && m.mux.sessions[id].id == id
      && m.mux.sessions[id].timer == None && m.mux.timers == map[] && m.mux.log == []
      && Born(m, id) == 0 && Current(m, id, 0)
      && (forall key | key in m.mux.recent :: key == DedupKey(id, SessionStart))
      && exists b: Broadcast ::
         Decode(b).None? && m.gos == map[1 := Sending(b, Report(id, 0, Idle, ObservedAt(start, now)))]
  {
    hide ReportBy, ArmBy, DedupKey, AgentOr;
    var op := BeginIngest(1, start, now, None);
    var m1 := Entered(cfg, FRESH, start, now, None);
    assert SplitStep(cfg, FRESH, op).gos ==
      map[1 := Sending(StartedFrame(m1.mux.sessions[start.sid], ObservedAt(start, now)),
                       Report(start.sid, 0, Idle, ObservedAt(start, now)))];
    StartedTellsNothing(m1.mux.sessions[start.sid], ObservedAt(start, now));
  }

  /** From a fresh machine, whatever the start and the prompt say: the prompt's goroutine arms the timer, the
      start's delayed report stops it. All done, the row is BUSY, no timer is pending, the last frame says
      IDLE; only another event or a death ends it. */
  lemma StartSwallowsTimer(cfg: Config, start: Event, prompt: Event, now: int)
    requires Wellformed(start) && start.typ.SessionStart? && prompt.typ.UserPrompt? && prompt.sid == start.sid
    ensures SplitLegalRun(cfg, FRESH, Swallow(start, prompt, now))
    ensures var m := SplitExec(cfg, FRESH, Swallow(start, prompt, now)); var id := start.sid;
      && m.gos == map[] && id in m.mux.sessions && m.mux.sessions[id].state == Busy
      && m.mux.timers == map[] && LastTold(m.mux.log, id) == Some(Idle)
  {
    hide SplitStep, SplitLegal, SplitLegalRun, SplitExec, Sound, Balanced, Absorb, Stamp, Duplicate, LastTold, Born;
    hide Current;
    var id, at := start.sid, ObservedAt(start, now);
    var begin1, begin2 := BeginIngest(1, start, now, None), BeginIngest(2, prompt, now, None);
    FreshSound();
    StartsFresh(cfg, start, now);
    var m1 := SplitStep(cfg, FRESH, begin1);
    StepSound(cfg, FRESH, begin1);
    var started: Broadcast :| Decode(started).None? && m1.gos == map[1 := Sending(started, Report(id, 0, Idle, at))];
    PromptAbsorbed(cfg, m1.mux.sessions[id], m1.mux.recent, prompt, now);
    IngestExisting(cfg, m1, 2, prompt, now);
    PromptTimers(cfg, m1, 2, prompt, now);
    var m2 := SplitStep(cfg, m1, begin2);
    var busy: Broadcast :| busy.sid == id && Decode(busy) == Some(Busy)
      && m2.gos == m1.gos[2 := Sending(busy, Rearm(id, Born(m1, id), Busy))];
    BirthStays(m1, m1, m2, id) by { assert Born(m1, id) == 0; }
    SoundRow(m2, id);
    SwallowEnds(cfg, m2, id, started, busy, at);
    var tail := [Hand(2), Resume(2), Hand(1), Resume(1), Hand(1), Resume(1)];
    assert Swallow(start, prompt, now) == [begin1] + ([begin2] + tail);
    RunCons(cfg, m1, begin2, tail);
    RunCons(cfg, FRESH, begin1, [begin2] + tail);
  }

  lemma PromptAbsorbed(cfg: Config, r: Row, recent: map<string, int>, prompt: Event, now: int)
    requires prompt.typ.UserPrompt?
    ensures Absorb(cfg, r, prompt, ObservedAt(prompt, now)).state == Busy && !Duplicate(cfg, recent, prompt, now)
  {
  }

  /** A prompt on an unarmed row arms nothing before its frame is handed over. */
  lemma PromptTimers(cfg: Config, m: Machine, g: nat, prompt: Event, now: int)
    requires Wellformed(prompt) && prompt.typ.UserPrompt? && prompt.sid in m.mux.sessions
    requires m.mux.sessions[prompt.sid].state == Idle
    ensures var m' := SplitStep(cfg, m, BeginIngest(g, prompt, now, None));
      && prompt.sid in m'.mux.sessions && m'.mux.sessions[prompt.sid].timer == m.mux.sessions[prompt.sid].timer
      && m'.mux.timers == m.mux.timers && m'.mux.log == m.mux.log
  {
    PromptAbsorbed(cfg, m.mux.sessions[prompt.sid], m.mux.recent, prompt, now);
    AbsorbKeepsIdentity(cfg, m.mux.sessions[prompt.sid], prompt, ObservedAt(prompt, now));
    AdmitExisting(cfg, m.mux, prompt, now);
    hide Absorb, Stamp, Duplicate, Admit, TransitionFrames;
  }

  /** The prompt's goroutine hands its frame over and arms the timer. */
  lemma PromptArms(cfg: Config, m: Machine, id: string, started: Broadcast, busy: Broadcast, at: int)
    requires m.gos == map[1 := Sending(started, Report(id, 0, Idle, at)), 2 := Sending(busy, Rearm(id, 0, Busy))]
    requires Current(m, id, 0) && m.mux.sessions[id].state == Busy && m.mux.sessions[id].id == id
    requires m.mux.sessions[id].timer == None && m.mux.timers == map[]
    ensures SplitLegal(cfg, m, Hand(2)) && SplitLegal(cfg, SplitStep(cfg, m, Hand(2)), Resume(2))
    ensures var m' := SplitStep(cfg, SplitStep(cfg, m, Hand(2)), Resume(2));
      && m'.gos == map[1 := Sending(started, Report(id, 0, Idle, at))] && Current(m', id, 0)
      && m'.mux.sessions[id].state == Busy && m'.mux.sessions[id].id == id
      && m'.mux.sessions[id].timer.Some? && m'.mux.timers.Keys == {m'.mux.sessions[id].timer.value}
  {
    var m1 := SplitStep(cfg, m, Hand(2));
    assert Current(m1, id, 0);
    assert SplitStep(cfg, m1, Resume(2)).mux == Arm(m1.mux, id);
  }

  /** The announcement, then the late report, then its frame. */
  lemma StartReports(cfg: Config, m: Machine, id: string, started: Broadcast, at: int)
    requires m.gos == map[1 := Sending(started, Report(id, 0, Idle, at))] && Current(m, id, 0)
    requires m.mux.sessions[id].state == Busy && m.mux.sessions[id].id == id
    requires m.mux.sessions[id].timer.Some? && m.mux.timers.Keys == {m.mux.sessions[id].timer.value}
    ensures var ops := [Hand(1), Resume(1), Hand(1), Resume(1)];
      SplitLegalRun(cfg, m, ops) && var m' := SplitExec(cfg, m, ops);
      && m'.gos == map[] && id in m'.mux.sessions && m'.mux.sessions[id].state == Busy
      && m'.mux.timers == map[] && LastTold(m'.mux.log, id) == Some(Idle)
  {
    hide SplitStep, SplitLegal, SplitExec, SplitLegalRun, LastTold, Decode;
    var m3 := SplitStep(cfg, m, Hand(1));
    HandIs(cfg, m, 1);
    assert Current(m3, id, 0) && m3.gos == map[1 := Waiting(Report(id, 0, Idle, at))];
    var m4 := SplitStep(cfg, m3, Resume(1));
    LateReport(cfg, m3, id, at);
    var m5 := SplitStep(cfg, m4, Hand(1));
    HandIs(cfg, m4, 1);
    LastToldAppend(m4.mux.log, m4.gos[1].b, id);
    var m6 := SplitStep(cfg, m5, Resume(1));
    RearmIs(cfg, m5, 1);
    assert m6.gos == map[] && m6.mux == m5.mux;
    RunNone(cfg, m6);
    var last := [Resume(1)] + [];
    RunCons(cfg, m5, Resume(1), []);
    RunCons(cfg, m4, Hand(1), last);
    RunCons(cfg, m3, Resume(1), [Hand(1)] + last);
    RunCons(cfg, m, Hand(1), [Resume(1)] + ([Hand(1)] + last));
    assert [Hand(1), Resume(1), Hand(1), Resume(1)] == [Hand(1)] + ([Resume(1)] + ([Hand(1)] + last));
  }

  lemma SwallowEnds(cfg: Config, m: Machine, id: string, started: Broadcast, busy: Broadcast, at: int)
    requires m.gos == map[1 := Sending(started, Report(id, 0, Idle, at)), 2 := Sending(busy, Rearm(id, 0, Busy))]
    requires Current(m, id, 0) && m.mux.sessions[id].state == Busy && m.mux.sessions[id].id == id
    requires m.mux.sessions[id].timer == None && m.mux.timers == map[]
    ensures var ops := [Hand(2), Resume(2), Hand(1), Resume(1), Hand(1), Resume(1)];
      SplitLegalRun(cfg, m, ops) && var m' := SplitExec(cfg, m, ops);
      && m'.gos == map[] && id in m'.mux.sessions && m'.mux.sessions[id].state == Busy
      && m'.mux.timers == map[] && LastTold(m'.mux.log, id) == Some(Idle)
  {
    hide SplitStep, LastTold, Current, SplitLegal, SplitExec, SplitLegalRun;
    PromptArms(cfg, m, id, started, busy, at);
    var m1 := SplitStep(cfg, m, Hand(2));
    var m2 := SplitStep(cfg, m1, Resume(2));
    StartReports(cfg, m2, id, started, at);
    var rest := [Hand(1), Resume(1), Hand(1), Resume(1)];
    RunCons(cfg, m1, Resume(2), rest);
    RunCons(cfg, m, Hand(2), [Resume(2)] + rest);
    assert [Hand(2), Resume(2), Hand(1), Resume(1), Hand(1), Resume(1)] == [Hand(2)] + ([Resume(2)] + rest);
  }

  /** The delayed report of a session's start stops the timer of the BUSY row and says it is IDLE. */
  lemma LateReport(cfg: Config, m: Machine, id: string, at: int)
    requires m.gos == map[1 := Waiting(Report(id, 0, Idle, at))] && Current(m, id, 0)
    requires m.mux.sessions[id].state == Busy && m.mux.sessions[id].id == id
    requires m.mux.sessions[id].timer.Some? && m.mux.timers.Keys == {m.mux.sessions[id].timer.value}
    ensures SplitLegal(cfg, m, Resume(1))
    ensures var m' := SplitStep(cfg, m, Resume(1));
      && m'.mux.timers == map[] && id in m'.mux.sessions && m'.mux.sessions[id].state == Busy
      && 1 in m'.gos && m'.gos == map[1 := m'.gos[1]] && m'.gos[1].Sending? && m'.gos[1].rest == Rearm(id, 0, Idle)
      && m'.gos[1].b.sid == id && Decode(m'.gos[1].b) == Some(Idle)
  {
    FrameOfReport(cfg, m.mux.sessions[id], Idle, at);
    hide TransitionFrames, Decode;
  }
}
