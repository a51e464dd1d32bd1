/** The mux over whole serial runs. */
module MuxRuns {
  import opened Wire
  import opened MuxSpec
  import opened MuxInvariants

  ghost predicate Base(s: State) {
    IndexAgrees(s) && RowsNamed(s) && NoneStarting(s) && TimersCover(s)
  }

  lemma StepKeepsBase(cfg: Config, s: State, op: Op)
    requires Base(s) && Legal(cfg, s, op)
    ensures Base(Step(cfg, s, op)) && StepTells(s, Step(cfg, s, op))
  {
    hide Ingest, MarkDead, Fire, StepTells;
    match op
    case DoIngest(ev, now, choice) =>
      IngestKeepsIndex(cfg, s, ev, now, choice);
      IngestCovers(cfg, s, ev, now, choice);
      IngestTells(cfg, s, ev, now, choice);
    case DoMarkDead(id, now) => MarkDeadKeeps(s, id, now);
    case DoFire(t, now) => FireKeeps(cfg, s, t, now);
    case DoGc(now) => GcKeeps(cfg, s, now);
  }

  lemma GcKeeps(cfg: Config, s: State, now: int)
    requires Base(s)
    ensures Base(Gc(cfg, s, now)) && StepTells(s, Gc(cfg, s, now))
  {
  }

  // ── the latest frame tells the state ──────────────────────────────────

  lemma {:induction false} LastToldConcat(a: seq<Broadcast>, b: seq<Broadcast>, id: string)
    ensures LastTold(a + b, id) == if LastTold(b, id).Some? then LastTold(b, id) else LastTold(a, id)
  {
    if b == [] {
      assert a + b == a;
    } else {
      LastToldConcat(a, b[..|b| - 1], id);
      assert a + b == (a + b[..|b| - 1]) + [b[|b| - 1]];
      LastToldAppend(a + b[..|b| - 1], b[|b| - 1], id);
    }
  }

  lemma {:induction false} LastToldOfTellings(frames: seq<Broadcast>, id: string)
    requires |Tellings(frames)| <= 1
    ensures LastTold(frames, id) ==
      if Tellings(frames) != [] && Tellings(frames)[0].0 == id then Some(Tellings(frames)[0].1) else None
  {
    if frames != [] {
      LastToldOfTellings(frames[..|frames| - 1], id);
    }
  }

  lemma StepKeepsFrames(s: State, s': State)
    requires FramesTell(s) && StepTells(s, s')
    ensures FramesTell(s')
  {
    var news := s'.log[|s.log|..];
    assert s'.log == s.log + news;
    forall id | id != "" ensures FrameTells(s', id) {
      LastToldConcat(s.log, news, id);
      LastToldOfTellings(news, id);
      assert FrameTells(s, id);
    }
  }

  lemma {:induction false} RunKeepsInv(cfg: Config, s: State, ops: seq<Op>)
    requires Inv(s) && LegalRun(cfg, s, ops)
    ensures Inv(Exec(cfg, s, ops))
    decreases |ops|
  {
    hide IndexAgrees, RowsNamed, NoneStarting, TimersCover, FramesTell, StepTells, Step, Legal;
    if ops != [] {
      StepKeepsBase(cfg, s, ops[0]);
      StepKeepsFrames(s, Step(cfg, s, ops[0]));
      RunKeepsInv(cfg, Step(cfg, s, ops[0]), ops[1..]);
    }
  }

  lemma InitInv()
    ensures Inv(INIT)
  {
  }

  /** In every serial run the two maps agree, timers and BUSY rows pair up, nothing rests in
      STARTING, and the latest frame bearing an id tells its row's state. */
  lemma {:induction false} EveryRun(cfg: Config, ops: seq<Op>)
    requires LegalRun(cfg, INIT, ops)
    ensures Inv(Exec(cfg, INIT, ops))
  {
    InitInv();
    hide Inv, LegalRun, Exec;
    RunKeepsInv(cfg, INIT, ops);
  }

  /** Absent rows counting as DEAD, the log alone tells every session's state. */
  lemma LogTellsLive(s: State, id: string)
    requires RowsNamed(s) && FramesTell(s) && id != ""
    ensures LiveState(s, id) == Alive(LastTold(s.log, id))
  {
    assert FrameTells(s, id);
  }

  /** In every serial run the frames alone, replayed, give every session's state. */
  lemma {:induction false} FramesAlone(cfg: Config, ops: seq<Op>, id: string)
    requires LegalRun(cfg, INIT, ops) && id != ""
    ensures var s := Exec(cfg, INIT, ops); LiveState(s, id) == Alive(LastTold(s.log, id))
  {
    EveryRun(cfg, ops);
    LogTellsLive(Exec(cfg, INIT, ops), id);
  }

  // ── timers, counted ───────────────────────────────────────────────────

  function PendingTimers(s: State, id: string): set<nat> {
    set t | t in s.timers && s.timers[t] == id
  }

  /** A row is BUSY exactly if one idle timer is pending for it; nothing else has any. */
  lemma OneTimerPerBusyRow(s: State, id: string)
    requires TimersCover(s)
    ensures |PendingTimers(s, id)| == if id in s.sessions && s.sessions[id].state.Busy? then 1 else 0
  {
    if id in s.sessions && s.sessions[id].state.Busy? {
      assert Armed(s, id);
      assert PendingTimers(s, id) == {s.sessions[id].timer.value};
    } else {
      assert PendingTimers(s, id) == {} by {
        forall t | t in PendingTimers(s, id) ensures false {
          assert Armed(s, id);
        }
      }
    }
  }

  // ── consecutive frames differ ─────────────────────────────────────────

  /** What a run leaves behind, in order: states told by frames, and rows given up. */
  datatype Mark = Told(id: string, state: SessionState) | Gone(ids: set<string>)

  function StepMarks(s: State, s': State): seq<Mark>
    requires |s.log| <= |s'.log|
  {
    var told := Tellings(s'.log[|s.log|..]);
    [Gone(s.sessions.Keys - s'.sessions.Keys)] + seq(|told|, i requires 0 <= i < |told| => Told(told[i].0, told[i].1))
  }

  function History(cfg: Config, s: State, ops: seq<Op>): seq<Mark>
    decreases |ops|
  {
    if ops == [] then []
    else
      var s' := Step(cfg, s, ops[0]);
      (if |s.log| <= |s'.log| then StepMarks(s, s') else []) + History(cfg, s', ops[1..])
  }

  /** The state last told of `id` since its row was last given up. */
  function LastMark(marks: seq<Mark>, id: string): Option<SessionState> {
    if marks == [] then None
    else
      match marks[|marks| - 1]
      case Told(x, state) => if x == id then Some(state) else LastMark(marks[..|marks| - 1], id)
      case Gone(ids) => if id in ids then None else LastMark(marks[..|marks| - 1], id)
  }

  /** No frame repeats the state the previous frame of the same row told. */
  ghost predicate Alternates(marks: seq<Mark>) {
    marks == [] ||
    var last, rest := marks[|marks| - 1], marks[..|marks| - 1];
    Alternates(rest) && (last.Told? ==> LastMark(rest, last.id) != Some(last.state))
  }

  ghost predicate MarksTell(s: State, marks: seq<Mark>) {
    forall id | id != "" ::
      LastMark(marks, id) == if id in s.sessions then Some(s.sessions[id].state) else None
  }

  lemma {:induction false} LastMarkAppend(marks: seq<Mark>, m: Mark, id: string)
    ensures LastMark(marks + [m], id) ==
      if m.Told? && m.id == id then Some(m.state)
      else if m.Gone? && id in m.ids then None
      else LastMark(marks, id)
  {
    assert (marks + [m])[..|marks|] == marks;
  }

  lemma AlternatesAppend(marks: seq<Mark>, m: Mark)
    requires Alternates(marks) && (m.Told? ==> LastMark(marks, m.id) != Some(m.state))
    ensures Alternates(marks + [m])
  {
    assert (marks + [m])[..|marks|] == marks;
  }

  lemma StepAlternates(s: State, s': State, marks: seq<Mark>)
    requires StepTells(s, s') && MarksTell(s, marks) && Alternates(marks)
    ensures MarksTell(s', marks + StepMarks(s, s')) && Alternates(marks + StepMarks(s, s'))
  {
    hide LastMark, Alternates;
    var told := Tellings(s'.log[|s.log|..]);
    var gone := Gone(s.sessions.Keys - s'.sessions.Keys);
    var m1 := marks + [gone];
    AlternatesAppend(marks, gone);
    forall id ensures LastMark(m1, id) == if id in gone.ids then None else LastMark(marks, id) {
      LastMarkAppend(marks, gone, id);
    }
    if told == [] {
      assert marks + StepMarks(s, s') == m1;
    } else {
      var m := Told(told[0].0, told[0].1);
      AlternatesAppend(m1, m);
      assert marks + StepMarks(s, s') == m1 + [m];
      forall id ensures LastMark(m1 + [m], id) == if id == m.id then Some(m.state) else LastMark(m1, id) {
        LastMarkAppend(m1, m, id);
      }
    }
  }

  lemma {:induction false} RunAlternates(cfg: Config, s: State, ops: seq<Op>, marks: seq<Mark>)
    requires Base(s) && LegalRun(cfg, s, ops) && MarksTell(s, marks) && Alternates(marks)
    ensures Alternates(marks + History(cfg, s, ops))
    decreases |ops|
  {
    hide Base, MarksTell, Alternates, Step, Legal, StepMarks;
    if ops == [] {
      assert marks + History(cfg, s, ops) == marks;
    } else {
      var s' := Step(cfg, s, ops[0]);
      StepKeepsBase(cfg, s, ops[0]);
      StepAlternates(s, s', marks);
      RunAlternates(cfg, s', ops[1..], marks + StepMarks(s, s'));
      assert marks + History(cfg, s, ops) == marks + StepMarks(s, s') + History(cfg, s', ops[1..]);
    }
  }

  /** Over a whole run, two consecutive frames of one row never tell the same state. */
  lemma {:induction false} NoFrameRepeats(cfg: Config, ops: seq<Op>)
    requires LegalRun(cfg, INIT, ops)
    ensures Alternates(History(cfg, INIT, ops))
  {
    InitInv();
    hide Exec, History, LegalRun;
    RunAlternates(cfg, INIT, ops, []);
    assert [] + History(cfg, INIT, ops) == History(cfg, INIT, ops);
  }

  // ── the table bound ───────────────────────────────────────────────────

  function LiveCount(s: State): nat {
    |set id | id in s.sessions && !s.sessions[id].state.Dead?|
  }

  function Max(a: int, b: int): int {
    if a < b then b else a
  }

  /** The most live rows at any instant of a step: an accepted event's row is live the moment it is created. */
  function Crest(cfg: Config, s: State, op: Op): nat {
    match op
    case DoIngest(ev, now, choice) =>
      if Ingest(cfg, s, ev, now, choice).1.Accepted?
      then LiveCount(GetOrCreate(cfg, s, ev.sid, ev.agent, ev.cwd, now, choice))
      else LiveCount(s)
    case _ => LiveCount(s)
  }

  function Peak(cfg: Config, s: State, ops: seq<Op>): nat
    decreases |ops|
  {
    if ops == [] then LiveCount(s)
    else Max(Crest(cfg, s, ops[0]), Peak(cfg, Step(cfg, s, ops[0]), ops[1..]))
  }

  lemma GrownBounded(table: map<string, Row>, id: string, row: Row)
    requires id !in table
    ensures |table[id := row]| == |table| + 1
  {
    assert table[id := row].Keys == table.Keys + {id};
  }

  lemma ReapedSize(s: State, victim: string)
    requires victim in s.sessions
    ensures |Reap(s, Some(victim)).sessions| == |s.sessions| - 1
  {
    hide Unlink;
    assert Reap(s, Some(victim)).sessions.Keys == s.sessions.Keys - {victim};
  }

  lemma AllLive(s: State)
    requires forall x | x in s.sessions :: !s.sessions[x].state.Dead?
    ensures LiveCount(s) == |s.sessions|
  {
    assert (set x | x in s.sessions && !s.sessions[x].state.Dead?) == s.sessions.Keys;
  }

  lemma CreateBounded(cfg: Config, s: State, id: string, agent: string, cwd: string, now: int, choice: Option<string>)
    requires CreateChoice(cfg, s, id, choice)
    ensures var s' := GetOrCreate(cfg, s, id, agent, cwd, now, choice);
      |s'.sessions| <= Max(|s.sessions|, Max(cfg.opt.maxSessions, LiveCount(s')))
  {
    hide NewRow, Link, Unlink, LiveCount;
    var s' := GetOrCreate(cfg, s, id, agent, cwd, now, choice);
    if id !in s.sessions {
      var row := NewRow(cfg, id, agent, cwd, now);
      NewRowStarts(cfg, id, agent, cwd, now);
      if MustReap(cfg, s, id) && choice.Some? {
        ReapedSize(s, choice.value);
        GrownBounded(Reap(s, choice).sessions, id, row);
      } else {
        GrownBounded(s.sessions, id, row);
        if MustReap(cfg, s, id) {
          AllLive(s');
        }
      }
    }
  }

  lemma NewRowStarts(cfg: Config, id: string, agent: string, cwd: string, now: int)
    ensures NewRow(cfg, id, agent, cwd, now).state == Starting
  {
  }

  lemma RecentIsIdle(cfg: Config, s: State, recent: map<string, int>, id: string, agent: string, cwd: string, now: int,
      choice: Option<string>)
    ensures GetOrCreate(cfg, s.(recent := recent), id, agent, cwd, now, choice)
      == GetOrCreate(cfg, s, id, agent, cwd, now, choice).(recent := recent)
  {
    hide NewRow, Link, Unlink;
  }

  lemma IngestBounded(cfg: Config, s: State, ev: Event, now: int, choice: Option<string>)
    requires CreateChoice(cfg, s, ev.sid, choice)
    ensures !Ingest(cfg, s, ev, now, choice).1.Accepted? ==> Ingest(cfg, s, ev, now, choice).0 == s
    ensures |Ingest(cfg, s, ev, now, choice).0.sessions|
      <= Max(|s.sessions|,
             Max(cfg.opt.maxSessions, LiveCount(GetOrCreate(cfg, s, ev.sid, ev.agent, ev.cwd, now, choice))))
  {
    hide GetOrCreate, Absorb, Publish, Stamp, Duplicate, LiveCount;
    CreateBounded(cfg, s, ev.sid, ev.agent, ev.cwd, now, choice);
    RecentIsIdle(cfg, s, Stamp(s.recent, ev, now), ev.sid, ev.agent, ev.cwd, now, choice);
    var s1 := GetOrCreate(cfg, s, ev.sid, ev.agent, ev.cwd, now, choice);
    var s2 := Admit(cfg, s, ev, now, choice);
    assert s2.sessions.Keys == s1.sessions.Keys;
    PublishTouches(cfg, s2, ev.sid, ev.sid !in s.sessions, StateBefore(s, ev.sid), ObservedAt(ev, now));
    var ingested := Ingest(cfg, s, ev, now, choice);
    assert ingested.1.Accepted? ==> ingested.0.sessions.Keys == s2.sessions.Keys;
  }

  lemma StepBounded(cfg: Config, s: State, op: Op)
    requires Base(s) && Legal(cfg, s, op)
    ensures |Step(cfg, s, op).sessions| <= Max(|s.sessions|, Max(cfg.opt.maxSessions, Crest(cfg, s, op)))
  {
    hide Ingest, GetOrCreate, Base, LiveCount;
    match op
    case DoIngest(ev, now, choice) => IngestBounded(cfg, s, ev, now, choice);
    case DoMarkDead(id, now) =>
      if IsLive(s.sessions, id) {
        ClearTouches(s, id);
        hide ClearTimer, EndedFrame;
        assert MarkDead(s, id, now).sessions.Keys == s.sessions.Keys;
      }
    case DoFire(t, now) =>
      hide IdleFrame;
      assert Fire(cfg, s, t, now).sessions.Keys == s.sessions.Keys;
    case DoGc(now) =>
  }

  lemma {:induction false} RunBounded(cfg: Config, s: State, ops: seq<Op>, bound: int)
    requires Base(s) && LegalRun(cfg, s, ops)
    requires |s.sessions| <= bound && cfg.opt.maxSessions <= bound && Peak(cfg, s, ops) <= bound
    ensures |Exec(cfg, s, ops).sessions| <= bound
    decreases |ops|
  {
    hide Base, Step, Legal, Crest, LiveCount;
    if ops != [] {
      StepKeepsBase(cfg, s, ops[0]);
      StepBounded(cfg, s, ops[0]);
      RunBounded(cfg, Step(cfg, s, ops[0]), ops[1..], bound);
    }
  }

  /** The table never outgrows both MaxSessions and the most rows ever live at one instant. */
  lemma {:induction false} TableBound(cfg: Config, ops: seq<Op>)
    requires LegalRun(cfg, INIT, ops)
    ensures |Exec(cfg, INIT, ops).sessions| <= Max(cfg.opt.maxSessions, Peak(cfg, INIT, ops))
  {
    InitInv();
    hide Exec, Peak, LegalRun;
    RunBounded(cfg, INIT, ops, Max(0, Max(cfg.opt.maxSessions, Peak(cfg, INIT, ops))));
  }
}
