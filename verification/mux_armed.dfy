/** Exactly when a BUSY session always has a way back to IDLE although goroutines interleave. */
module MuxArmed {
  import opened Wire
  import opened MuxSpec
  import opened MuxInvariants
  import opened MuxSplit
  import opened MuxOrderly

  /** Goroutine `pc` will arm the idle timer of `x`, or is the timer's callback. */
  predicate Due(pc: Pc, x: string, birth: nat) {
    if pc.Called? then pc.id == x
    else pc.rest == Rearm(x, birth, Busy) || (pc.rest.Report? && pc.rest == Report(x, birth, Busy, pc.rest.at))
  }

  ghost predicate SomeDue(m: Machine, x: string) {
    exists g | g in m.gos :: Due(m.gos[g], x, Born(m, x))
  }

  predicate IsBusy(s: State, x: string) {
    x in s.sessions && s.sessions[x].state.Busy?
  }

  ghost predicate Covered(m: Machine, x: string) {
    IsBusy(m.mux, x) ==> Armed(m.mux, x) || SomeDue(m, x)
  }

  /** No timer handle of a row in the table is another row's too. */
  ghost predicate TimersApart(m: Machine) {
    && (forall t | t in m.mux.timers :: t < m.mux.nextTimer)
    && (forall id | id in m.mux.sessions && m.mux.sessions[id].timer.Some? ::
          m.mux.sessions[id].timer.value < m.mux.nextTimer)
    && (forall b | b in m.grave && m.grave[b].timer.Some? :: m.grave[b].timer.value < m.mux.nextTimer)
    && (forall id, x | id in m.mux.sessions && x in m.mux.sessions && id != x && m.mux.sessions[id].timer.Some? ::
          m.mux.sessions[id].timer != m.mux.sessions[x].timer)
    && (forall id, b | id in m.mux.sessions && b in m.grave && m.mux.sessions[id].timer.Some? ::
          m.mux.sessions[id].timer != m.grave[b].timer)
  }

  // ── timers ────────────────────────────────────────────────────────────

  /** Letting one row's timer go takes no other row's. */
  lemma TimerGone(m: Machine, m': Machine, id: string, r: Row)
    requires TimersApart(m) && id in m.mux.sessions && m'.mux.sessions == m.mux.sessions[id := r] && r.timer.None?
    requires m'.grave == m.grave && m'.mux.nextTimer == m.mux.nextTimer
    requires var t := m.mux.sessions[id].timer;
      m'.mux.timers == if t.Some? then m.mux.timers - {t.value} else m.mux.timers
    ensures TimersApart(m') && forall x | x != id && Armed(m.mux, x) :: Armed(m'.mux, x)
  {
  }

  lemma ClearedAre(s: State, id: string)
    requires id in s.sessions
    ensures var s', t := ClearTimer(s, id), s.sessions[id].timer;
      && s'.sessions == s.sessions[id := s.sessions[id].(timer := None)] && s'.nextTimer == s.nextTimer
      && s'.timers == if t.Some? then s.timers - {t.value} else s.timers
  {
  }

  lemma DisarmApart(m: Machine, id: string, birth: nat)
    requires TimersApart(m)
    ensures TimersApart(Disarm(m, id, birth))
    ensures forall x | !(id == x && Current(m, id, birth)) && Armed(m.mux, x) :: Armed(Disarm(m, id, birth).mux, x)
  {
    if Current(m, id, birth) {
      ClearedAre(m.mux, id);
      hide ClearTimer, TimersApart, Armed;
      TimerGone(m, Disarm(m, id, birth), id, m.mux.sessions[id].(timer := None));
    }
  }

  lemma ArmCurrent(m: Machine, id: string, birth: nat)
    requires TimersApart(m) && Current(m, id, birth)
    ensures TimersApart(ArmBy(m, id, birth)) && Armed(ArmBy(m, id, birth).mux, id)
    ensures forall x | Armed(m.mux, x) :: Armed(ArmBy(m, id, birth).mux, x)
  {
  }

  lemma ArmGrave(m: Machine, id: string, birth: nat)
    requires TimersApart(m) && !Current(m, id, birth)
    ensures TimersApart(ArmBy(m, id, birth))
    ensures forall x | Armed(m.mux, x) :: Armed(ArmBy(m, id, birth).mux, x)
  {
    if birth in m.grave {
      DisarmApart(m, id, birth);
      var m1 := Disarm(m, id, birth);
      GraveDisarm(m, id, birth);
      hide Disarm;
    }
  }

  lemma GraveDisarm(m: Machine, id: string, birth: nat)
    requires !Current(m, id, birth) && birth in m.grave
    ensures var m1 := Disarm(m, id, birth); birth in m1.grave && m1.mux.sessions == m.mux.sessions
  {
  }

  lemma ArmApart(m: Machine, id: string, birth: nat)
    requires TimersApart(m)
    ensures TimersApart(ArmBy(m, id, birth))
    ensures forall x | Armed(m.mux, x) :: Armed(ArmBy(m, id, birth).mux, x)
    ensures Current(m, id, birth) ==> Armed(ArmBy(m, id, birth).mux, id)
  {
    hide ArmBy, TimersApart, Armed;
    if Current(m, id, birth) { ArmCurrent(m, id, birth); } else { ArmGrave(m, id, birth); }
  }

  lemma AdmitTimers(cfg: Config, s: State, ev: Event, now: int, choice: Option<string>)
    requires CreateChoice(cfg, s, ev.sid, choice) && RowsNamed(s) && Wellformed(ev)
    ensures var s' := Admit(cfg, s, ev, now, choice);
      && s'.timers == s.timers && s'.nextTimer == s.nextTimer && ev.sid in s'.sessions
      && s'.sessions[ev.sid].timer == if ev.sid in s.sessions then s.sessions[ev.sid].timer else None
  {
    hide Absorb, Stamp, Link, Unlink;
    var s0 := s.(recent := Stamp(s.recent, ev, now));
    var s1 := GetOrCreate(cfg, s0, ev.sid, ev.agent, ev.cwd, now, choice);
    AbsorbKeepsIdentity(cfg, s1.sessions[ev.sid], ev, ObservedAt(ev, now));
    CreateKeepsOthers(cfg, s0, ev.sid, ev.agent, ev.cwd, now, choice);
  }

  lemma ApartAlike(m: Machine, m': Machine)
    requires TimersApart(m) && m'.mux == m.mux && m'.grave == m.grave
    ensures TimersApart(m')
  {
  }

  /** A table in which `id` may be new and some row gone has no new timers to mix up. */
  lemma RebirthApart(m: Machine, mux: State, id: string, gone: Option<string>)
    requires TimersApart(m) && mux.timers == m.mux.timers && mux.nextTimer == m.mux.nextTimer
    requires forall x | x in mux.sessions && x != id :: x in m.mux.sessions && mux.sessions[x] == m.mux.sessions[x]
    requires id in mux.sessions
    requires mux.sessions[id].timer == if id in m.mux.sessions then m.mux.sessions[id].timer else None
    ensures TimersApart(Rebirth(m, mux, id, gone))
    ensures forall x | Armed(m.mux, x) && x in mux.sessions :: Armed(mux, x)
  {
  }

  lemma EnteredApart(cfg: Config, m: Machine, ev: Event, now: int, choice: Option<string>)
    requires Sound(m) && TimersApart(m) && CreateChoice(cfg, m.mux, ev.sid, choice) && Wellformed(ev)
    ensures var m1 := Entered(cfg, m, ev, now, choice);
      TimersApart(m1) && forall x | Armed(m.mux, x) && x in m1.mux.sessions :: Armed(m1.mux, x)
  {
    hide Admit, CreateChoice, StateBefore, IndexAgrees, PcSound, BirthsSound;
    NamedRows(m.mux);
    AdmitKeepsOthers(cfg, m.mux, ev, now, choice);
    AdmitTimers(cfg, m.mux, ev, now, choice);
    hide Sound, Wellformed, RowsNamed;
    RebirthApart(m, Admit(cfg, m.mux, ev, now, choice), ev.sid, choice);
    ApartAlike(Rebirth(m, Admit(cfg, m.mux, ev, now, choice), ev.sid, choice), Entered(cfg, m, ev, now, choice));
  }

  lemma ReportTimers(cfg: Config, m: Machine, g: nat, rest: Rest)
    requires rest.Report?
    ensures var m' := ReportBy(cfg, m, g, rest);
      var m1 := if rest.after.Busy? || rest.after.Starting? then m else Disarm(m, rest.id, rest.birth);
      m'.mux == m1.mux && m'.grave == m1.grave
  {
    hide Disarm, TransitionFrames, ToldAs, RowBy;
  }

  lemma ReportApart(cfg: Config, m: Machine, g: nat, rest: Rest)
    requires TimersApart(m) && rest.Report?
    ensures TimersApart(ReportBy(cfg, m, g, rest))
    ensures forall x | (rest.id != x || rest.after.Busy? || !Current(m, rest.id, rest.birth)) && Armed(m.mux, x) ::
      Armed(ReportBy(cfg, m, g, rest).mux, x)
  {
    DisarmApart(m, rest.id, rest.birth);
    hide TransitionFrames, ToldAs, RowBy, Armed;
    var m' := ReportBy(cfg, m, g, rest);
    var m1 := if rest.after.Busy? || rest.after.Starting? then m else Disarm(m, rest.id, rest.birth);
    hide Disarm, ReportBy, TimersApart;
    assert m'.mux == m1.mux && m'.grave == m1.grave by { ReportTimers(cfg, m, g, rest); }
    ApartAlike(m1, m');
  }

  // ── step by step ──────────────────────────────────────────────────────

  /** What was due of `x` still is, unless goroutine `g` was what it was due from. */
  lemma DueStays(m: Machine, m': Machine, x: string, g: nat)
    requires SomeDue(m, x) && Born(m', x) == Born(m, x)
    requires forall h | h in m.gos && h != g :: h in m'.gos && m'.gos[h] == m.gos[h]
    requires g in m.gos && Due(m.gos[g], x, Born(m, x)) ==> g in m'.gos && Due(m'.gos[g], x, Born(m, x))
    ensures SomeDue(m', x)
  {
    hide Due, Born;
    var h :| h in m.gos && Due(m.gos[h], x, Born(m, x));
    assert h in m'.gos && Due(m'.gos[h], x, Born(m', x));
  }

  /** Absorbing another session's event leaves a BUSY row in place, busy, armed if it was. */
  lemma EnteredOther(cfg: Config, m: Machine, ev: Event, now: int, choice: Option<string>, x: string)
    requires Sound(m) && TimersApart(m) && CreateChoice(cfg, m.mux, ev.sid, choice) && Wellformed(ev) && ev.sid != x
    ensures var m1 := Entered(cfg, m, ev, now, choice);
      && (IsBusy(m1.mux, x) ==> IsBusy(m.mux, x) && Born(m1, x) == Born(m, x))
      && (IsBusy(m1.mux, x) && Armed(m.mux, x) ==> Armed(m1.mux, x))
  {
    EnteredApart(cfg, m, ev, now, choice);
    EnteredUndisturbed(cfg, m, ev, now, choice, x);
    hide Admit, StateBefore, Armed, CreateChoice, Sound, TimersApart;
  }

  lemma IngestArms(cfg: Config, m: Machine, op: SplitOp, x: string)
    requires Sound(m) && TimersApart(m) && Covered(m, x) && op.BeginIngest? && SplitLegal(cfg, m, op)
    ensures TimersApart(SplitStep(cfg, m, op)) && Covered(SplitStep(cfg, m, op), x)
  {
    hide Sound, TimersApart, Entered, Duplicate, CreateChoice, Armed, SameRows, ReportBy, ArmBy, StartedFrame, SomeDue;
    hide Born, IsBusy, Due;
    var ev, m' := op.ev, SplitStep(cfg, m, op);
    if Wellformed(ev) && !Duplicate(cfg, m.mux.recent, ev, op.now) {
      var m1 := Entered(cfg, m, ev, op.now, op.choice);
      var id := ev.sid;
      IngestMoves(cfg, m, op);
      IngestRows(cfg, m, op);
      EnteredApart(cfg, m, ev, op.now, op.choice);
      var row := m1.mux.sessions[id];
      var report := Report(id, Born(m1, id), row.state, ObservedAt(ev, op.now));
      ReportApart(cfg, m1, op.g, report);
      ArmApart(m1, id, Born(m1, id));
      GosOnlyApart(m1, m1.gos[op.g := Sending(StartedFrame(row, report.at), report)]);
      BusyRows(m1, m', x);
      if IsBusy(m'.mux, x) {
        if id == x {
          BusyIs(m1.mux, x);
          if Altered(m, m1, x) {
            CarriesDue(m', op.g, x);
          }
        } else {
          EnteredOther(cfg, m, ev, op.now, op.choice, x);
          if !Armed(m.mux, x) {
            DueStays(m, m', x, op.g);
          }
        }
      }
    }
  }

  lemma BusyIs(s: State, x: string)
    requires IsBusy(s, x)
    ensures x in s.sessions && s.sessions[x].state == Busy
  {
  }

  lemma CarriesDue(m: Machine, g: nat, x: string)
    requires g in m.gos && Carries(m.gos[g], x, Born(m, x), Busy)
    ensures SomeDue(m, x)
  {
    assert Due(m.gos[g], x, Born(m, x));
  }

  lemma GosOnlyApart(m: Machine, gos: map<nat, Pc>)
    requires TimersApart(m)
    ensures TimersApart(m.(gos := gos))
  {
  }

  lemma BusyRows(m: Machine, m': Machine, x: string)
    requires SameRows(m, m')
    ensures IsBusy(m'.mux, x) <==> IsBusy(m.mux, x)
    ensures Born(m', x) == Born(m, x)
  {
  }

  lemma MarkDeadArms(cfg: Config, m: Machine, op: SplitOp, x: string)
    requires TimersApart(m) && Covered(m, x) && op.BeginMarkDead? && SplitLegal(cfg, m, op)
    ensures TimersApart(SplitStep(cfg, m, op)) && Covered(SplitStep(cfg, m, op), x)
  {
    hide SomeDue, EndedFrame, Covered, TimersApart, Bury, Armed, IsBusy;
    var m' := SplitStep(cfg, m, op);
    if IsLive(m.mux.sessions, op.id) {
      BuryApart(m, m', op.id, x);
      CoveredOn(m, m', x, op.g);
    }
  }

  lemma BuriedAre(s: State, id: string)
    requires id in s.sessions
    ensures var s', t := Bury(s, id), s.sessions[id].timer;
      && s'.sessions == s.sessions[id := s.sessions[id].(timer := None, state := Dead)] && s'.nextTimer == s.nextTimer
      && s'.timers == if t.Some? then s.timers - {t.value} else s.timers
  {
  }

  lemma BuryApart(m: Machine, m': Machine, id: string, x: string)
    requires TimersApart(m) && id in m.mux.sessions && m'.mux == Bury(m.mux, id) && m'.grave == m.grave
    requires m'.births == m.births
    ensures TimersApart(m') && Born(m', x) == Born(m, x)
    ensures IsBusy(m'.mux, x) ==> IsBusy(m.mux, x) && (Armed(m.mux, x) ==> Armed(m'.mux, x))
  {
    var r := m'.mux.sessions[id];
    BuriedAre(m.mux, id);
    hide Bury, TimersApart, Armed;
    TimerGone(m, m', id, r);
  }

  /** What covers a row that is still BUSY covers it still. */
  lemma CoveredOn(m: Machine, m': Machine, x: string, g: nat)
    requires Covered(m, x) && Born(m', x) == Born(m, x)
    requires IsBusy(m'.mux, x) ==> IsBusy(m.mux, x) && (Armed(m.mux, x) ==> Armed(m'.mux, x) || SomeDue(m', x))
    requires forall h | h in m.gos && h != g :: h in m'.gos && m'.gos[h] == m.gos[h]
    requires IsBusy(m'.mux, x) && !Armed(m'.mux, x) && g in m.gos && Due(m.gos[g], x, Born(m, x)) ==>
      g in m'.gos && Due(m'.gos[g], x, Born(m, x))
    ensures Covered(m', x)
  {
    hide Armed, IsBusy, Born, Due, SomeDue;
    if IsBusy(m'.mux, x) && !Armed(m'.mux, x) && !Armed(m.mux, x) {
      DueStays(m, m', x, g);
    }
  }

  lemma ExpireArms(cfg: Config, m: Machine, op: SplitOp, x: string)
    requires TimersApart(m) && Covered(m, x) && (op.Expire? || op.Collect?) && SplitLegal(cfg, m, op)
    ensures TimersApart(SplitStep(cfg, m, op)) && Covered(SplitStep(cfg, m, op), x)
  {
    hide MuxSpec.Collect, Covered, SomeDue;
    var m' := SplitStep(cfg, m, op);
    if op.Expire? && IsBusy(m'.mux, x) && Armed(m.mux, x) && !Armed(m'.mux, x) {
      CalledDue(m', op.g, x);
    }
    CoveredOn(m, m', x, if op.Expire? then op.g else 0);
  }

  lemma CalledDue(m: Machine, g: nat, x: string)
    requires g in m.gos && m.gos[g] == Called(x)
    ensures SomeDue(m, x)
  {
    assert Due(m.gos[g], x, Born(m, x));
  }

  lemma CallbackArms(cfg: Config, m: Machine, op: SplitOp, x: string)
    requires TimersApart(m) && Covered(m, x) && op.RunCallback? && SplitLegal(cfg, m, op)
    ensures TimersApart(SplitStep(cfg, m, op)) && Covered(SplitStep(cfg, m, op), x)
  {
    hide IdleFrame, Covered, SomeDue;
    CoveredOn(m, SplitStep(cfg, m, op), x, op.g);
  }

  lemma HandArms(cfg: Config, m: Machine, op: SplitOp, x: string)
    requires TimersApart(m) && Covered(m, x) && op.Hand? && SplitLegal(cfg, m, op)
    ensures TimersApart(SplitStep(cfg, m, op)) && Covered(SplitStep(cfg, m, op), x)
  {
    hide Covered, SomeDue;
    CoveredOn(m, SplitStep(cfg, m, op), x, op.g);
  }

  lemma RearmArms(cfg: Config, m: Machine, op: SplitOp, x: string)
    requires Sound(m) && TimersApart(m) && Covered(m, x) && op.Resume? && SplitLegal(cfg, m, op)
    requires SameRows(m, SplitStep(cfg, m, op))
    requires op.g in m.gos && m.gos[op.g].Waiting? && m.gos[op.g].rest.Rearm?
    ensures TimersApart(SplitStep(cfg, m, op)) && Covered(SplitStep(cfg, m, op), x)
  {
    hide Sound, ArmBy, Covered, SomeDue, Armed, TimersApart, SameRows;
    var g, m' := op.g, SplitStep(cfg, m, op);
    var rest := m.gos[g].rest;
    BusyRows(m, m', x);
    var m1 := m.(gos := Without(m.gos, g));
    GosOnlyApart(m, m1.gos);
    ArmApart(m1, rest.id, rest.birth);
    ArmIsTimersOnly(m1, rest.id, rest.birth);
    TimersOnlyParts(m1, ArmBy(m1, rest.id, rest.birth));
    if IsBusy(m.mux, x) && rest == Rearm(x, Born(m, x), Busy) {
      assert Current(m1, x, Born(m, x)) by { SoundBirths(m, x); }
    }
    CoveredOn(m, m', x, g);
  }

  /** A delayed report of `x` that says other than BUSY stops the timer of the row, which is BUSY by now, and
      nobody is about to arm it again. */
  ghost predicate Swallows(m: Machine, op: SplitOp, x: string) {
    && op.Resume? && op.g in m.gos && m.gos[op.g].Waiting? && m.gos[op.g].rest.Report?
    && m.gos[op.g].rest.id == x && !m.gos[op.g].rest.after.Busy? && Current(m, x, m.gos[op.g].rest.birth)
    && IsBusy(m.mux, x) && !SomeDue(m, x)
  }

  /** Reporting another state than BUSY makes nothing due and leaves nothing armed. */
  lemma ReportDisarms(cfg: Config, m: Machine, m': Machine, op: SplitOp, x: string, b: Broadcast)
    requires op.Resume? && op.g in m.gos && m.gos[op.g].Waiting? && m.gos[op.g].rest.Report?
    requires m' == SplitStep(cfg, m, op)
    requires var rest := m.gos[op.g].rest;
      rest.id == x && !rest.after.Busy? && !rest.after.Starting? && Current(m, x, rest.birth)
      && m'.gos == m.gos[op.g := Sending(b, Rearm(x, rest.birth, rest.after))]
    ensures !Armed(m'.mux, x) && (SomeDue(m', x) ==> SomeDue(m, x))
  {
    var rest := m.gos[op.g].rest;
    ReportTimers(cfg, m, op.g, rest);
    ClearedAre(m.mux, x);
    ResumeRows(cfg, m, op);
    hide ReportBy, SplitStep, ClearTimer;
    assert Born(m', x) == Born(m, x) by { BusyRows(m, m', x); }
    if h :| h in m'.gos && Due(m'.gos[h], x, Born(m', x)) {
      assert h != op.g;
      assert h in m.gos && Due(m.gos[h], x, Born(m, x));
    }
  }

  lemma ReportArmsIff(cfg: Config, m: Machine, op: SplitOp, x: string)
    requires Sound(m) && TimersApart(m) && Covered(m, x) && op.Resume? && SplitLegal(cfg, m, op)
    requires m.gos[op.g].rest.Report? && SameRows(m, SplitStep(cfg, m, op))
    ensures TimersApart(SplitStep(cfg, m, op)) && (Covered(SplitStep(cfg, m, op), x) <==> !Swallows(m, op, x))
  {
    hide TableKept, BirthsSound, ReportBy, RowBy, SomeDue, Armed, TimersApart, SameRows;
    var g, m' := op.g, SplitStep(cfg, m, op);
    var rest := m.gos[g].rest;
    assert PcSound(m, m.gos[g]);
    BusyRows(m, m', x);
    var b := ReportSound(cfg, m, g, rest);
    ReportApart(cfg, m, g, rest);
    hide Sound;
    if rest.id == x && !rest.after.Busy? && Current(m, x, rest.birth) {
      ReportDisarms(cfg, m, m', op, x, b);
      if SomeDue(m, x) {
        DueStays(m, m', x, g);
      }
    } else {
      CoveredOn(m, m', x, g);
    }
  }

  lemma ResumeArmsIff(cfg: Config, m: Machine, op: SplitOp, x: string)
    requires Sound(m) && TimersApart(m) && Covered(m, x) && op.Resume? && SplitLegal(cfg, m, op)
    ensures TimersApart(SplitStep(cfg, m, op)) && (Covered(SplitStep(cfg, m, op), x) <==> !Swallows(m, op, x))
  {
    hide Sound, ReportBy, ArmBy, Covered, SomeDue, Armed, TimersApart, IsBusy;
    var g, m' := op.g, SplitStep(cfg, m, op);
    var rest := m.gos[g].rest;
    ResumeRows(cfg, m, op);
    if rest.Report? {
      ReportArmsIff(cfg, m, op, x);
    } else if rest.Rearm? {
      RearmArms(cfg, m, op, x);
    } else {
      BusyRows(m, m', x);
      GosOnlyApart(m, m'.gos);
      CoveredOn(m, m', x, g);
    }
  }

  lemma SoundBirths(m: Machine, x: string)
    requires Sound(m) && x in m.mux.sessions
    ensures Current(m, x, Born(m, x))
  {
  }

  lemma StepArmsIff(cfg: Config, m: Machine, op: SplitOp, x: string)
    requires Sound(m) && TimersApart(m) && Covered(m, x) && Local(op) && SplitLegal(cfg, m, op)
    ensures TimersApart(SplitStep(cfg, m, op)) && (Covered(SplitStep(cfg, m, op), x) <==> !Swallows(m, op, x))
  {
    hide Sound, TimersApart, Covered, SplitStep, SplitLegal;
    match op
    case BeginIngest(_, _, _, _) => IngestArms(cfg, m, op, x);
    case BeginMarkDead(_, _, _) => MarkDeadArms(cfg, m, op, x);
    case Expire(_, _) => ExpireArms(cfg, m, op, x);
    case RunCallback(_, _) => CallbackArms(cfg, m, op, x);
    case Hand(_) => HandArms(cfg, m, op, x);
    case Resume(_) => ResumeArmsIff(cfg, m, op, x);
    case Collect(_) => ExpireArms(cfg, m, op, x);
    case _ =>
  }

  // ── over every run ────────────────────────────────────────────────────

  ghost predicate AlwaysCovered(cfg: Config, m: Machine, ops: seq<SplitOp>, x: string)
    decreases |ops|
  {
    Covered(m, x) && (ops != [] ==> AlwaysCovered(cfg, SplitStep(cfg, m, ops[0]), ops[1..], x))
  }

  ghost predicate NeverSwallowed(cfg: Config, m: Machine, ops: seq<SplitOp>, x: string)
    decreases |ops|
  {
    ops != [] ==> !Swallows(m, ops[0], x) && NeverSwallowed(cfg, SplitStep(cfg, m, ops[0]), ops[1..], x)
  }

  lemma {:induction false} RunArmsIff(cfg: Config, m: Machine, ops: seq<SplitOp>, x: string)
    requires Sound(m) && Balanced(m) && TimersApart(m) && Covered(m, x) && LocalRun(cfg, m, ops)
    ensures AlwaysCovered(cfg, m, ops, x) <==> NeverSwallowed(cfg, m, ops, x)
    decreases |ops|
  {
    hide Sound, Balanced, TimersApart, Covered, Swallows, SplitStep, SplitLegal;
    if ops != [] {
      var m1 := SplitStep(cfg, m, ops[0]);
      StepSound(cfg, m, ops[0]);
      StepArmsIff(cfg, m, ops[0], x);
      if Covered(m1, x) {
        RunArmsIff(cfg, m1, ops[1..], x);
      }
    }
  }

  /** However goroutines interleave: at every moment of the run the session, if BUSY, has its idle timer pending,
      or a goroutine is about to arm it, or the timer's callback is about to run, exactly if no step of the run
      swallows its timer. */
  lemma {:induction false} CoveredIff(cfg: Config, ops: seq<SplitOp>, x: string)
    requires LocalRun(cfg, FRESH, ops)
    ensures AlwaysCovered(cfg, FRESH, ops, x) <==> NeverSwallowed(cfg, FRESH, ops, x)
  {
    FreshSound();
    assert TimersApart(FRESH) && Covered(FRESH, x);
    hide LocalRun, AlwaysCovered, NeverSwallowed;
    RunArmsIff(cfg, FRESH, ops, x);
  }

  // ── orderly runs never swallow a timer ────────────────────────────────

  /** A report that finds its row in the state it reports stops no BUSY row's timer. */
  lemma ToldSwallowsNot(m: Machine, op: SplitOp, x: string)
    requires Told(m, x)
    ensures !Swallows(m, op, x)
  {
    hide SomeDue;
    if op.Resume? && op.g in m.gos && m.gos[op.g].Waiting? && m.gos[op.g].rest.Report? && m.gos[op.g].rest.id == x {
      assert OwesOf(m.gos[op.g], x) && OwedRight(m, m.gos[op.g], x);
    }
  }

  lemma {:induction false} OrderlyNeverSwallowed(cfg: Config, m: Machine, ops: seq<SplitOp>, x: string)
    requires Sound(m) && Balanced(m) && Told(m, x) && Orderly(cfg, m, ops, x)
    ensures LocalRun(cfg, m, ops) && NeverSwallowed(cfg, m, ops, x)
    decreases |ops|
  {
    hide Sound, Balanced, Told, InFlight, Alters, Swallows, SplitStep, SplitLegal;
    if ops != [] {
      StepSound(cfg, m, ops[0]);
      StepTold(cfg, m, ops[0], x);
      ToldSwallowsNot(m, ops[0], x);
      OrderlyNeverSwallowed(cfg, SplitStep(cfg, m, ops[0]), ops[1..], x);
    }
  }

  lemma {:induction false} AlwaysCoveredLast(cfg: Config, m: Machine, ops: seq<SplitOp>, x: string)
    requires AlwaysCovered(cfg, m, ops, x)
    ensures Covered(SplitExec(cfg, m, ops), x)
    decreases |ops|
  {
    hide Covered, SplitStep;
    if ops != [] {
      AlwaysCoveredLast(cfg, SplitStep(cfg, m, ops[0]), ops[1..], x);
    }
  }

  /** In particular if nothing alters the session while a frame of it is in flight. */
  lemma {:induction false} OrderlyArms(cfg: Config, ops: seq<SplitOp>, x: string)
    requires Orderly(cfg, FRESH, ops, x) && IsBusy(SplitExec(cfg, FRESH, ops).mux, x)
    ensures Armed(SplitExec(cfg, FRESH, ops).mux, x) || SomeDue(SplitExec(cfg, FRESH, ops), x)
  {
    FreshSound();
    assert Told(FRESH, x);
    hide SplitExec, Orderly, Armed, SomeDue, IsBusy, LocalRun, AlwaysCovered, NeverSwallowed;
    OrderlyNeverSwallowed(cfg, FRESH, ops, x);
    CoveredIff(cfg, ops, x);
    AlwaysCoveredLast(cfg, FRESH, ops, x);
  }
}
