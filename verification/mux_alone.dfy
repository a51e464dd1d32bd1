/** A goroutine that runs alone from its first lock to its last is one operation of the serial machine, so
    every serial run is one of the interleavings. */
module MuxAlone {
  import opened Wire
  import opened MuxSpec
  import opened MuxInvariants
  import opened MuxSplit
  import opened MuxOrderly
  import opened MuxRaces

  lemma {:induction false} RunConcat(cfg: Config, m: Machine, a: seq<SplitOp>, b: seq<SplitOp>)
    requires SplitLegalRun(cfg, m, a)
    ensures SplitExec(cfg, m, a + b) == SplitExec(cfg, SplitExec(cfg, m, a), b)
    ensures SplitLegalRun(cfg, m, a + b) <==> SplitLegalRun(cfg, SplitExec(cfg, m, a), b)
    decreases |a|
  {
    hide SplitStep, SplitLegal;
    if a == [] {
      assert a + b == b;
    } else {
      assert a == [a[0]] + a[1..] && a + b == [a[0]] + (a[1..] + b);
      RunCons(cfg, m, a[0], a[1..] + b);
      RunConcat(cfg, SplitStep(cfg, m, a[0]), a[1..], b);
    }
  }

  /** From `m`, `ops` is a run that leaves the mux as `mux` and no goroutine it did not find. */
  ghost predicate Reaches(cfg: Config, m: Machine, ops: seq<SplitOp>, mux: State) {
    SplitLegalRun(cfg, m, ops) && SplitExec(cfg, m, ops).mux == mux && SplitExec(cfg, m, ops).gos == m.gos
  }

  lemma ReachesOne(cfg: Config, m: Machine, op: SplitOp)
    requires SplitLegal(cfg, m, op) && SplitStep(cfg, m, op).gos == m.gos
    ensures Reaches(cfg, m, [op], SplitStep(cfg, m, op).mux)
  {
    hide SplitStep, SplitLegal;
    assert [op] == [op] + [];
    RunCons(cfg, m, op, []);
  }

  /** Goroutine `g` hands over the frame it holds and does what is left: arm the timer, or nothing. */
  function Handed1(m: Machine, g: nat): State
    requires g in m.gos && m.gos[g].Sending?
  {
    var pc, s := m.gos[g], Emit(m.mux, m.gos[g].b);
    if pc.rest.Rearm? && pc.rest.after.Busy? && pc.rest.id in s.sessions then Arm(s, pc.rest.id) else s
  }

  lemma HandAndResume(cfg: Config, m: Machine, g: nat)
    requires g in m.gos && m.gos[g].Sending? && !m.gos[g].rest.Report?
    requires m.gos[g].rest.Rearm? ==> Current(m, m.gos[g].rest.id, m.gos[g].rest.birth)
    ensures var ops := [Hand(g), Resume(g)];
      && SplitLegalRun(cfg, m, ops)
      && SplitExec(cfg, m, ops).mux == Handed1(m, g) && SplitExec(cfg, m, ops).gos == Without(m.gos, g)
  {
    hide Arm;
    var m1 := SplitStep(cfg, m, Hand(g));
    var rest := m.gos[g].rest;
    assert rest.Rearm? ==> Current(m1, rest.id, rest.birth);
    assert Without(m1.gos, g) == Without(m.gos, g);
    var m2 := SplitStep(cfg, m1, Resume(g));
    assert m2.gos == Without(m.gos, g) && m2.mux == Handed1(m, g);
    hide SplitStep;
    assert [Hand(g), Resume(g)] == [Hand(g)] + ([Resume(g)] + []);
    RunCons(cfg, m1, Resume(g), []);
    RunCons(cfg, m, Hand(g), [Resume(g)] + []);
  }

  /** A report made at once and seen through: the transition is emitted and the timer armed if BUSY. */
  lemma ReportThrough(cfg: Config, m: Machine, g: nat, rest: Rest)
    requires Sound(m) && rest.Report? && Current(m, rest.id, rest.birth) && !rest.after.Starting?
    requires m.mux.sessions[rest.id].state == rest.after
    ensures var m' := ReportBy(cfg, m, g, rest); var s := EmitTransition(cfg, m.mux, rest.id, rest.after, rest.at);
      && g in m'.gos && m'.gos == m.gos[g := m'.gos[g]] && m'.gos[g].Sending?
      && m'.gos[g].rest == Rearm(rest.id, rest.birth, rest.after) && Current(m', rest.id, rest.birth)
      && rest.id in s.sessions && Handed1(m', g) == if rest.after.Busy? then Arm(s, rest.id) else s
  {
    hide Arm, TableKept, BirthsSound, PcSound;
    var row := m.mux.sessions[rest.id];
    FrameOfReport(cfg, row, rest.after, rest.at);
    ClearTouches(m.mux, rest.id);
    ClearKeepsLog(m.mux, rest.id);
    hide TransitionFrames, ClearTimer;
    var b := TransitionFrames(cfg, row, rest.after, rest.at)[0];
    assert TransitionFrames(cfg, row, rest.after, rest.at) == [b];
  }

  lemma GoneAgain(gos: map<nat, Pc>, g: nat, pc: Pc)
    requires g !in gos
    ensures Without(gos[g := pc], g) == gos
  {
  }

  lemma QuietIngest(cfg: Config, m: Machine, g: nat, ev: Event, now: int, choice: Option<string>)
    requires Sound(m) && g !in m.gos && CreateChoice(cfg, m.mux, ev.sid, choice)
    requires Wellformed(ev) && !Duplicate(cfg, m.mux.recent, ev, now)
    requires ev.sid in m.mux.sessions && !Altered(m, Entered(cfg, m, ev, now, choice), ev.sid)
    ensures Reaches(cfg, m, [BeginIngest(g, ev, now, choice)], Ingest(cfg, m.mux, ev, now, choice).0)
  {
    hide Admit, Arm, Duplicate, CreateChoice, Sound;
    var m1 := Entered(cfg, m, ev, now, choice);
    EnteredSound(cfg, m, ev, now, choice);
    EnteredHas(cfg, m, ev, now, choice);
    EnteredChanges(cfg, m, ev, now, choice);
    StateBeforeIs(m.mux, ev.sid);
    IngestMoves(cfg, m, BeginIngest(g, ev, now, choice));
    ReachesOne(cfg, m, BeginIngest(g, ev, now, choice));
  }

  lemma ChangedIngest(cfg: Config, m: Machine, g: nat, ev: Event, now: int, choice: Option<string>)
    requires Sound(m) && g !in m.gos && CreateChoice(cfg, m.mux, ev.sid, choice)
    requires Wellformed(ev) && !Duplicate(cfg, m.mux.recent, ev, now)
    requires ev.sid in m.mux.sessions && Altered(m, Entered(cfg, m, ev, now, choice), ev.sid)
    ensures Reaches(cfg, m, [BeginIngest(g, ev, now, choice)] + [Hand(g), Resume(g)],
                    Ingest(cfg, m.mux, ev, now, choice).0)
  {
    hide Admit, Arm, Duplicate, CreateChoice, Sound, EmitTransition, ReportBy;
    var m1 := Entered(cfg, m, ev, now, choice);
    EnteredSound(cfg, m, ev, now, choice);
    EnteredHas(cfg, m, ev, now, choice);
    StateBeforeIs(m.mux, ev.sid);
    var begin := BeginIngest(g, ev, now, choice);
    var row := m1.mux.sessions[ev.sid];
    var report := Report(ev.sid, Born(m1, ev.sid), row.state, ObservedAt(ev, now));
    ReportThrough(cfg, m1, g, report);
    var m2 := SplitStep(cfg, m, begin);
    assert m2 == ReportBy(cfg, m1, g, report);
    HandAndResume(cfg, m2, g);
    GoneAgain(m.gos, g, m2.gos[g]);
    hide SplitStep, Handed1;
    RunCons(cfg, m, begin, [Hand(g), Resume(g)]);
  }

  lemma NewIngest(cfg: Config, m: Machine, g: nat, ev: Event, now: int, choice: Option<string>)
    requires Sound(m) && g !in m.gos && CreateChoice(cfg, m.mux, ev.sid, choice)
    requires Wellformed(ev) && !Duplicate(cfg, m.mux.recent, ev, now) && ev.sid !in m.mux.sessions
    ensures Reaches(cfg, m, [BeginIngest(g, ev, now, choice)] + ([Hand(g)] + ([Resume(g)] + [Hand(g), Resume(g)])),
                    Ingest(cfg, m.mux, ev, now, choice).0)
  {
    hide Admit, Arm, Duplicate, CreateChoice, Sound, EmitTransition, ReportBy, StartedFrame;
    var m1 := Entered(cfg, m, ev, now, choice);
    EnteredSound(cfg, m, ev, now, choice);
    EnteredHas(cfg, m, ev, now, choice);
    StateBeforeIs(m.mux, ev.sid);
    var begin := BeginIngest(g, ev, now, choice);
    var row := m1.mux.sessions[ev.sid];
    var report := Report(ev.sid, Born(m1, ev.sid), row.state, ObservedAt(ev, now));
    var m2 := SplitStep(cfg, m, begin);
    assert m2 == m1.(gos := m1.gos[g := Sending(StartedFrame(row, report.at), report)]);
    var m3 := SplitStep(cfg, m2, Hand(g));
    assert m3 == m1.(mux := Emit(m1.mux, StartedFrame(row, report.at)), gos := m1.gos[g := Waiting(report)]);
    assert Sound(m3) && Current(m3, ev.sid, Born(m3, ev.sid)) by {
      StartedTellsNothing(row, report.at);
      StartedSound(m1, m3, g, report);
    }
    ReportThrough(cfg, m3, g, report);
    var m4 := SplitStep(cfg, m3, Resume(g));
    assert m4 == ReportBy(cfg, m3, g, report);
    HandAndResume(cfg, m4, g);
    GoneAgain(m.gos, g, m4.gos[g]);
    assert m4.gos == m.gos[g := m4.gos[g]];
    hide SplitStep, Handed1;
    RunCons(cfg, m3, Resume(g), [Hand(g), Resume(g)]);
    RunCons(cfg, m2, Hand(g), [Resume(g)] + [Hand(g), Resume(g)]);
    RunCons(cfg, m, begin, [Hand(g)] + ([Resume(g)] + [Hand(g), Resume(g)]));
  }

  lemma StartedSound(m1: Machine, m3: Machine, g: nat, report: Rest)
    requires Sound(m1) && report.Report? && Current(m1, report.id, report.birth) && !report.after.Starting?
    requires m3 == m1.(mux := m1.mux.(log := m3.mux.log), gos := m1.gos[g := Waiting(report)])
    ensures Sound(m3) && Current(m3, report.id, report.birth) && m3.mux.sessions == m1.mux.sessions
    ensures Born(m3, report.id) == Born(m1, report.id)
  {
    GoSet(m1, g, Waiting(report));
    LogIsIdle(m1.(gos := m1.gos[g := Waiting(report)]), m3);
  }

  lemma IngestAlone(cfg: Config, m: Machine, g: nat, ev: Event, now: int, choice: Option<string>)
    returns (ops: seq<SplitOp>)
    requires Sound(m) && g !in m.gos && CreateChoice(cfg, m.mux, ev.sid, choice)
    ensures Reaches(cfg, m, ops, Ingest(cfg, m.mux, ev, now, choice).0)
  {
    hide Reaches, Sound, CreateChoice, Duplicate, Entered, Admit, Publish;
    var begin := BeginIngest(g, ev, now, choice);
    if !Wellformed(ev) || Duplicate(cfg, m.mux.recent, ev, now) {
      ops := [begin];
      ReachesOne(cfg, m, begin);
    } else if ev.sid !in m.mux.sessions {
      ops := [begin] + ([Hand(g)] + ([Resume(g)] + [Hand(g), Resume(g)]));
      NewIngest(cfg, m, g, ev, now, choice);
    } else if Altered(m, Entered(cfg, m, ev, now, choice), ev.sid) {
      ops := [begin] + [Hand(g), Resume(g)];
      ChangedIngest(cfg, m, g, ev, now, choice);
    } else {
      ops := [begin];
      QuietIngest(cfg, m, g, ev, now, choice);
    }
  }

  lemma MarkDeadAlone(cfg: Config, m: Machine, g: nat, id: string, now: int) returns (ops: seq<SplitOp>)
    requires g !in m.gos
    ensures Reaches(cfg, m, ops, MarkDead(m.mux, id, now))
  {
    hide Bury, EndedFrame;
    var begin := BeginMarkDead(g, id, now);
    if IsLive(m.mux.sessions, id) {
      ops := [begin] + [Hand(g), Resume(g)];
      var m1 := SplitStep(cfg, m, begin);
      HandAndResume(cfg, m1, g);
      GoneAgain(m.gos, g, m1.gos[g]);
      hide SplitStep;
      RunCons(cfg, m, begin, [Hand(g), Resume(g)]);
    } else {
      ops := [begin];
      ReachesOne(cfg, m, begin);
    }
  }

  lemma FireAlone(cfg: Config, m: Machine, g: nat, t: nat, now: int) returns (ops: seq<SplitOp>)
    requires g !in m.gos
    ensures Reaches(cfg, m, ops, Fire(cfg, m.mux, t, now))
  {
    hide IdleFrame;
    if t !in m.mux.timers {
      ops := [];
    } else {
      var m1 := SplitStep(cfg, m, Expire(g, t));
      var m2 := SplitStep(cfg, m1, RunCallback(g, now));
      var id := m.mux.timers[t];
      GoneAgain(m.gos, g, Called(id));
      if id in m.mux.sessions && m.mux.sessions[id].state.Busy? {
        HandAndResume(cfg, m2, g);
        GoneAgain(m.gos, g, m2.gos[g]);
        ops := [Expire(g, t)] + ([RunCallback(g, now)] + [Hand(g), Resume(g)]);
        hide SplitStep;
        RunCons(cfg, m1, RunCallback(g, now), [Hand(g), Resume(g)]);
        RunCons(cfg, m, Expire(g, t), [RunCallback(g, now)] + [Hand(g), Resume(g)]);
      } else {
        ops := [Expire(g, t)] + ([RunCallback(g, now)] + []);
        hide SplitStep;
        RunCons(cfg, m1, RunCallback(g, now), []);
        RunCons(cfg, m, Expire(g, t), [RunCallback(g, now)] + []);
      }
    }
  }

  /** One operation of the serial machine is one goroutine running to its end with nobody in between. */
  lemma AloneIsSerial(cfg: Config, m: Machine, op: Op) returns (ops: seq<SplitOp>)
    requires Sound(m) && m.gos == map[] && Legal(cfg, m.mux, op)
    ensures Reaches(cfg, m, ops, Step(cfg, m.mux, op))
  {
    match op
    case DoIngest(ev, now, choice) =>
      hide Reaches, Sound, Ingest;
      ops := IngestAlone(cfg, m, 0, ev, now, choice);
    case DoMarkDead(id, now) =>
      hide Reaches, Sound, MarkDead;
      ops := MarkDeadAlone(cfg, m, 0, id, now);
    case DoFire(t, now) =>
      hide Reaches, Sound, Fire;
      ops := FireAlone(cfg, m, 0, t, now);
    case DoGc(now) =>
      hide Sound, Gc;
      ops := [Collect(now)];
      ReachesOne(cfg, m, Collect(now));
  }

  /** Every serial run is one of the interleavings. */
  lemma {:induction false} SerialIsInterleaving(cfg: Config, m: Machine, ops: seq<Op>) returns (split: seq<SplitOp>)
    requires Sound(m) && Balanced(m) && m.gos == map[] && LegalRun(cfg, m.mux, ops)
    ensures Reaches(cfg, m, split, Exec(cfg, m.mux, ops))
    decreases |ops|
  {
    hide Sound, Balanced, Step, Legal, SplitStep, SplitLegal;
    if ops == [] {
      split := [];
    } else {
      var first := AloneIsSerial(cfg, m, ops[0]);
      RunSound(cfg, m, first);
      var m1 := SplitExec(cfg, m, first);
      var rest := SerialIsInterleaving(cfg, m1, ops[1..]);
      RunConcat(cfg, m, first, rest);
      split := first + rest;
    }
  }
}
