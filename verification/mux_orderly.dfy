/** Exactly when the last frame tells a session's state although goroutines interleave. */
module MuxOrderly {
  import opened Wire
  import opened MuxSpec
  import opened MuxInvariants
  import opened MuxSplit

  predicate OwesOf(pc: Pc, x: string) {
    Owes(pc).Some? && Owes(pc).value.0 == x
  }

  /** Some goroutine has not handed over a frame of `x` yet. */
  ghost predicate InFlight(m: Machine, x: string) {
    exists g | g in m.gos :: OwesOf(m.gos[g], x)
  }

  /** The operation gives `x` another state. */
  predicate Alters(cfg: Config, m: Machine, op: SplitOp, x: string) {
    var changes := SplitStep(cfg, m, op).changes;
    |changes| > |m.changes| && changes[|changes| - 1].0 == x
  }

  /** A local run in which no operation alters `x` while a frame of it is in flight. */
  ghost predicate Orderly(cfg: Config, m: Machine, ops: seq<SplitOp>, x: string)
    decreases |ops|
  {
    ops != [] ==>
      && Local(ops[0]) && SplitLegal(cfg, m, ops[0]) && !(InFlight(m, x) && Alters(cfg, m, ops[0], x))
      && Orderly(cfg, SplitStep(cfg, m, ops[0]), ops[1..], x)
  }

  // ── what an orderly run keeps ─────────────────────────────────────────

  /** A row that was given up was DEAD. */
  ghost predicate StateIs(m: Machine, x: string, s: SessionState) {
    if x in m.mux.sessions then m.mux.sessions[x].state == s else s.Dead?
  }

  /** The row a handle names is in that state. */
  ghost predicate HandleIs(m: Machine, x: string, birth: nat, s: SessionState) {
    RowBy(m, x, birth).Some? && RowBy(m, x, birth).value.state == s
  }

  predicate Unreported(pc: Pc) {
    (pc.Sending? && Decode(pc.b).None? && pc.rest.Report?) || (pc.Waiting? && pc.rest.Report?)
  }

  /** What goroutine `pc` owes of `x` is the state `x` is in, and still will be told so. */
  ghost predicate OwedRight(m: Machine, pc: Pc, x: string)
    requires OwesOf(pc, x)
  {
    && StateIs(m, x, Owes(pc).value.1)
    && (Unreported(pc) ==> HandleIs(m, x, pc.rest.birth, Owes(pc).value.1))
  }

  ghost predicate Told(m: Machine, x: string) {
    && (forall g, h | g in m.gos && h in m.gos && OwesOf(m.gos[g], x) && OwesOf(m.gos[h], x) :: g == h)
    && (forall g | g in m.gos && OwesOf(m.gos[g], x) :: OwedRight(m, m.gos[g], x))
    && (!InFlight(m, x) ==> FrameTells(m.mux, x))
  }

  /** Nothing about the state of `x` changes from `m` to `m'`, but that a DEAD row may be given up. */
  ghost predicate Undisturbed(m: Machine, m': Machine, x: string) {
    && (x in m'.mux.sessions ==> x in m.mux.sessions && m'.mux.sessions[x].state == m.mux.sessions[x].state)
    && (x in m.mux.sessions && x !in m'.mux.sessions ==> m.mux.sessions[x].state.Dead?)
    && (forall birth, s :: HandleIs(m, x, birth, s) ==> HandleIs(m', x, birth, s))
  }

  lemma UndisturbedKeeps(m: Machine, m': Machine, x: string)
    requires Undisturbed(m, m', x)
    ensures forall s :: StateIs(m, x, s) ==> StateIs(m', x, s)
    ensures forall pc | OwesOf(pc, x) && OwedRight(m, pc, x) :: OwedRight(m', pc, x)
    ensures LastTold(m'.mux.log, x) == LastTold(m.mux.log, x) && FrameTells(m.mux, x) ==> FrameTells(m'.mux, x)
  {
    hide Owes, LastTold, RowBy;
  }

  lemma SameRowsUndisturbed(m: Machine, m': Machine, x: string)
    requires SameRows(m, m')
    ensures Undisturbed(m, m', x)
  {
    forall birth ensures RowBy(m, x, birth).Some? ==>
      RowBy(m', x, birth).Some? && SameButTimer(RowBy(m, x, birth).value, RowBy(m', x, birth).value)
    {
    }
  }

  lemma UndisturbedTrans(m: Machine, m1: Machine, m2: Machine, x: string)
    requires Undisturbed(m, m1, x) && Undisturbed(m1, m2, x)
    ensures Undisturbed(m, m2, x)
  {
    hide HandleIs;
  }

  lemma HandleStays(m: Machine, m': Machine, id: string, gone: Option<string>, x: string, birth: nat)
    requires BirthsSound(m) && Followed(m.mux, m'.mux, id, gone)
    requires m' == Rebirth(m, m'.mux, id, gone).(changes := m'.changes)
    requires x in m'.mux.sessions ==> x in m.mux.sessions && m'.mux.sessions[x].state == m.mux.sessions[x].state
    requires RowBy(m, x, birth).Some?
    ensures RowBy(m', x, birth).Some? && RowBy(m', x, birth).value.state == RowBy(m, x, birth).value.state
  {
  }

  lemma RebirthUndisturbed(m: Machine, m': Machine, id: string, gone: Option<string>, x: string)
    requires BirthsSound(m) && Followed(m.mux, m'.mux, id, gone)
    requires m' == Rebirth(m, m'.mux, id, gone).(changes := m'.changes)
    requires forall y | y in m'.mux.sessions && y != id :: m'.mux.sessions[y] == m.mux.sessions[y]
    requires forall y | y in m.mux.sessions && y !in m'.mux.sessions :: m.mux.sessions[y].state.Dead?
    requires id == x ==>
      x in m.mux.sessions && x in m'.mux.sessions && m'.mux.sessions[x].state == m.mux.sessions[x].state
    ensures Undisturbed(m, m', x)
  {
    forall birth, s | HandleIs(m, x, birth, s) ensures HandleIs(m', x, birth, s) {
      HandleStays(m, m', id, gone, x, birth);
    }
  }

  /** Absorbing an event of another session, or one that leaves the state alone, does not disturb. */
  lemma EnteredUndisturbed(cfg: Config, m: Machine, ev: Event, now: int, choice: Option<string>, x: string)
    requires Sound(m) && CreateChoice(cfg, m.mux, ev.sid, choice) && Wellformed(ev)
    requires ev.sid == x ==>
      x in m.mux.sessions && Entered(cfg, m, ev, now, choice).mux.sessions[x].state == m.mux.sessions[x].state
    ensures Undisturbed(m, Entered(cfg, m, ev, now, choice), x)
  {
    hide Admit, CreateChoice, StateBefore, TableKept, PcSound;
    NamedRows(m.mux);
    EnteredHas(cfg, m, ev, now, choice);
    AdmitKeepsOthers(cfg, m.mux, ev, now, choice);
    AdmitFollows(cfg, m.mux, ev, now, choice);
    assert BirthsSound(m);
    hide Sound, Wellformed, IndexAgrees, RowsNamed, Undisturbed, BirthsSound, Followed;
    RebirthUndisturbed(m, Entered(cfg, m, ev, now, choice), ev.sid, choice, x);
  }

  /** The one goroutine `g` moved, owing of `x` what it owed before; no frame of `x` was handed over. */
  lemma MoveTold(m: Machine, m': Machine, x: string, g: nat)
    requires Told(m, x) && Undisturbed(m, m', x) && LastTold(m'.mux.log, x) == LastTold(m.mux.log, x)
    requires forall h | h != g :: (h in m'.gos <==> h in m.gos) && (h in m.gos ==> m'.gos[h] == m.gos[h])
    requires g in m'.gos && OwesOf(m'.gos[g], x) ==> g in m.gos && Owes(m'.gos[g]) == Owes(m.gos[g])
    requires g in m.gos && OwesOf(m.gos[g], x) ==> g in m'.gos && Owes(m'.gos[g]) == Owes(m.gos[g])
    requires g in m.gos && g in m'.gos && OwesOf(m'.gos[g], x) && Unreported(m'.gos[g]) ==>
      Unreported(m.gos[g]) && m'.gos[g].rest == m.gos[g].rest
    ensures Told(m', x)
  {
    hide Owes, StateIs, HandleIs, LastTold, Undisturbed, Unreported;
    UndisturbedKeeps(m, m', x);
    hide FrameTells;
    if !InFlight(m', x) {
      forall h | h in m.gos ensures !OwesOf(m.gos[h], x) {
        assert h in m'.gos ==> !OwesOf(m'.gos[h], x);
      }
    }
  }

  // ── step by step ──────────────────────────────────────────────────────

  /** What the goroutine of an ingest that altered its session holds next. */
  predicate Carries(pc: Pc, id: string, birth: nat, after: SessionState) {
    && pc.Sending? && Owes(pc) == Some((id, after))
    && (pc.rest == Rearm(id, birth, after)
        || (Decode(pc.b).None? && pc.rest.Report? && pc.rest == Report(id, birth, after, pc.rest.at)))
  }

  predicate Altered(m: Machine, m1: Machine, id: string) {
    id in m1.mux.sessions && (id in m.mux.sessions ==> m1.mux.sessions[id].state != m.mux.sessions[id].state)
  }

  lemma IngestMoves(cfg: Config, m: Machine, op: SplitOp)
    requires Sound(m) && op.BeginIngest? && SplitLegal(cfg, m, op)
    requires Wellformed(op.ev) && !Duplicate(cfg, m.mux.recent, op.ev, op.now)
    ensures var m1, m' := Entered(cfg, m, op.ev, op.now, op.choice), SplitStep(cfg, m, op); var id := op.ev.sid;
      && Sound(m1) && Current(m1, id, Born(m1, id)) && m'.mux.log == m.mux.log
      && (if Altered(m, m1, id) then
            op.g in m'.gos && m'.gos == m.gos[op.g := m'.gos[op.g]]
            && Carries(m'.gos[op.g], id, Born(m1, id), m1.mux.sessions[id].state)
            && m'.changes == m.changes + [(id, m1.mux.sessions[id].state)]
          else m'.gos == m.gos && m'.changes == m.changes)
  {
    hide Sound, Entered, ReportBy, ArmBy, Duplicate, CreateChoice, StartedFrame, TimersOnly, RowBy;
    var g, ev := op.g, op.ev;
    var m1 := Entered(cfg, m, ev, op.now, op.choice);
    EnteredSound(cfg, m, ev, op.now, op.choice);
    EnteredChanges(cfg, m, ev, op.now, op.choice);
    var row, at := m1.mux.sessions[ev.sid], ObservedAt(ev, op.now);
    var report := Report(ev.sid, Born(m1, ev.sid), row.state, at);
    SoundRow(m1, ev.sid);
    if ev.sid !in m.mux.sessions {
      StartedTellsNothing(row, at);
    } else if row.state != m.mux.sessions[ev.sid].state {
      var b := ReportSound(cfg, m1, g, report);
      OwnRow(m1, ev.sid);
    } else if row.state.Busy? {
      ArmSound(m1, ev.sid, Born(m1, ev.sid));
      TimersOnlyParts(m1, ArmBy(m1, ev.sid, Born(m1, ev.sid)));
    }
  }

  lemma TimersOnlyParts(m: Machine, m': Machine)
    requires TimersOnly(m, m')
    ensures m'.gos == m.gos && m'.changes == m.changes && m'.mux.log == m.mux.log && SameRows(m, m')
  {
  }

  lemma HandleOfRow(m: Machine, m': Machine, x: string)
    requires Current(m, x, Born(m, x)) && SameRows(m, m')
    ensures StateIs(m', x, m.mux.sessions[x].state) && HandleIs(m', x, Born(m, x), m.mux.sessions[x].state)
  {
  }

  /** A session nobody owed a frame of was altered, and goroutine `g` now owes the frame that tells it. */
  lemma AlterTold(m: Machine, m': Machine, x: string, g: nat, s: SessionState)
    requires !InFlight(m, x) && g in m'.gos && m'.gos == m.gos[g := m'.gos[g]]
    requires Owes(m'.gos[g]) == Some((x, s)) && StateIs(m', x, s)
    requires Unreported(m'.gos[g]) ==> HandleIs(m', x, m'.gos[g].rest.birth, s)
    ensures Told(m', x)
  {
    hide Owes, StateIs, HandleIs;
    assert forall h | h in m.gos :: !OwesOf(m.gos[h], x);
    assert InFlight(m', x);
  }

  lemma IngestTold(cfg: Config, m: Machine, op: SplitOp, x: string)
    requires Sound(m) && Told(m, x) && op.BeginIngest? && SplitLegal(cfg, m, op)
    requires !(InFlight(m, x) && Alters(cfg, m, op, x))
    ensures Told(SplitStep(cfg, m, op), x)
  {
    hide Sound, Told, Entered, Duplicate, CreateChoice, Owes, InFlight, SameRows, Undisturbed;
    var ev, m' := op.ev, SplitStep(cfg, m, op);
    if !Wellformed(ev) || Duplicate(cfg, m.mux.recent, ev, op.now) {
      assert m' == m;
    } else {
      var m1 := Entered(cfg, m, ev, op.now, op.choice);
      IngestMoves(cfg, m, op);
      IngestRows(cfg, m, op);
      hide SplitStep;
      if ev.sid == x && Altered(m, m1, x) {
        HandleOfRow(m1, m', x);
        AlterTold(m, m', x, op.g, m1.mux.sessions[x].state);
      } else {
        EnteredUndisturbed(cfg, m, ev, op.now, op.choice, x);
        SameRowsUndisturbed(m1, m', x);
        UndisturbedTrans(m, m1, m', x);
        MoveTold(m, m', x, op.g);
      }
    }
  }

  lemma BuryUndisturbed(m: Machine, m': Machine, id: string, x: string)
    requires id in m.mux.sessions && id != x && m'.mux == Bury(m.mux, id) && m'.births == m.births
    requires m'.grave == m.grave
    ensures Undisturbed(m, m', x)
  {
    ClearTouches(m.mux, id);
    hide ClearTimer;
  }

  lemma MarkDeadTold(cfg: Config, m: Machine, op: SplitOp, x: string)
    requires Sound(m) && Told(m, x) && op.BeginMarkDead? && SplitLegal(cfg, m, op)
    requires !(InFlight(m, x) && Alters(cfg, m, op, x))
    ensures Told(SplitStep(cfg, m, op), x)
  {
    hide Told, InFlight, Undisturbed, Bury, EndedFrame, TableKept;
    var m' := SplitStep(cfg, m, op);
    if IsLive(m.mux.sessions, op.id) {
      SoundRow(m, op.id);
      ClearKeepsLog(m.mux, op.id);
      EndedTold(m.mux.sessions[op.id], op.now);
      BuryParts(m.mux, op.id);
      if op.id == x {
        AlterTold(m, m', x, op.g, Dead);
      } else {
        BuryUndisturbed(m, m', op.id, x);
        MoveTold(m, m', x, op.g);
      }
    }
  }

  lemma BuryParts(s: State, id: string)
    requires id in s.sessions
    ensures id in Bury(s, id).sessions && Bury(s, id).sessions[id].state.Dead? && Bury(s, id).log == s.log
  {
    ClearKeepsLog(s, id);
    hide ClearTimer;
  }

  lemma ExpireTold(cfg: Config, m: Machine, op: SplitOp, x: string)
    requires Told(m, x) && (op.Expire? || op.Collect?) && SplitLegal(cfg, m, op)
    ensures Told(SplitStep(cfg, m, op), x)
  {
    hide Told, InFlight, MuxSpec.Collect;
    var m' := SplitStep(cfg, m, op);
    SameRowsUndisturbed(m, m', x);
    hide Undisturbed;
    MoveTold(m, m', x, if op.Expire? then op.g else 0);
  }

  lemma CallbackTold(cfg: Config, m: Machine, op: SplitOp, x: string)
    requires Sound(m) && Told(m, x) && op.RunCallback? && SplitLegal(cfg, m, op)
    requires !(InFlight(m, x) && Alters(cfg, m, op, x))
    ensures Told(SplitStep(cfg, m, op), x)
  {
    hide Told, InFlight, IdleFrame, TableKept;
    var m' := SplitStep(cfg, m, op);
    var id := m.gos[op.g].id;
    if id in m.mux.sessions && m.mux.sessions[id].state.Busy? {
      SoundRow(m, id);
      IdleFrameTells(cfg, m.mux.sessions[id].(state := Idle), true, op.now);
      if id == x {
        AlterTold(m, m', x, op.g, Idle);
      } else {
        assert Undisturbed(m, m', x);
        hide Undisturbed;
        MoveTold(m, m', x, op.g);
      }
    } else {
      SameRowsUndisturbed(m, m', x);
      hide Undisturbed;
      MoveTold(m, m', x, op.g);
    }
  }

  /** Handing over the one frame owed of `x` settles what the sink was told of it. */
  lemma HandTold(cfg: Config, m: Machine, op: SplitOp, x: string)
    requires Sound(m) && Told(m, x) && op.Hand? && SplitLegal(cfg, m, op)
    ensures Told(SplitStep(cfg, m, op), x)
  {
    hide TableKept, BirthsSound, LastTold;
    var g, m' := op.g, SplitStep(cfg, m, op);
    var b := m.gos[g].b;
    assert PcSound(m, m.gos[g]);
    LastToldAppend(m.mux.log, b, x);
    SameRowsUndisturbed(m, m', x);
    if Decode(b).Some? && b.sid == x {
      HandedTells(m, m', x, g);
    } else {
      hide Told, InFlight, Undisturbed;
      MoveTold(m, m', x, g);
    }
  }

  lemma HandedTells(m: Machine, m': Machine, x: string, g: nat)
    requires Told(m, x) && g in m.gos && OwesOf(m.gos[g], x) && StateIs(m, x, Owes(m.gos[g]).value.1)
    requires g in m'.gos && m'.gos == m.gos[g := m'.gos[g]] && Owes(m'.gos[g]).None?
    requires m'.mux.sessions == m.mux.sessions && LastTold(m'.mux.log, x) == Some(Owes(m.gos[g]).value.1)
    ensures Told(m', x)
  {
    hide Owes, LastTold, OwedRight;
    forall h | h in m'.gos ensures !OwesOf(m'.gos[h], x) {
      assert h != g ==> h in m.gos && m.gos[h] == m'.gos[h];
    }
  }

  lemma RearmGoes(cfg: Config, m: Machine, op: SplitOp)
    requires op.Resume? && op.g in m.gos && m.gos[op.g].Waiting? && m.gos[op.g].rest.Rearm?
    ensures var m' := SplitStep(cfg, m, op); m'.gos == Without(m.gos, op.g) && m'.mux.log == m.mux.log
  {
    hide ArmBy;
    var rest, m1 := m.gos[op.g].rest, m.(gos := Without(m.gos, op.g));
    ArmIsTimersOnly(m1, rest.id, rest.birth);
    TimersOnlyParts(m1, ArmBy(m1, rest.id, rest.birth));
  }

  lemma ResumeTold(cfg: Config, m: Machine, op: SplitOp, x: string)
    requires Sound(m) && Told(m, x) && op.Resume? && SplitLegal(cfg, m, op)
    ensures Told(SplitStep(cfg, m, op), x)
  {
    hide TableKept, BirthsSound, ReportBy, ArmBy, RowBy, InFlight, HandleIs, StateIs;
    var g, m' := op.g, SplitStep(cfg, m, op);
    var rest := m.gos[g].rest;
    assert PcSound(m, m.gos[g]);
    ResumeRows(cfg, m, op);
    SameRowsUndisturbed(m, m', x);
    hide SameRows, Undisturbed;
    if rest.Report? {
      var b := ReportSound(cfg, m, g, rest);
      if rest.id == x {
        ReportedRight(m, m.gos[g], x);
      }
    } else if rest.Rearm? {
      RearmGoes(cfg, m, op);
    }
    hide Told, SplitStep, Sound;
    MoveTold(m, m', x, g);
  }

  /** The delayed report of `x` finds its row in the state it reports. */
  lemma ReportedRight(m: Machine, pc: Pc, x: string)
    requires OwesOf(pc, x) && OwedRight(m, pc, x) && pc.Waiting? && pc.rest.Report? && pc.rest.id == x
    ensures RowBy(m, x, pc.rest.birth).Some? && RowBy(m, x, pc.rest.birth).value.state == pc.rest.after
    ensures ToldAs(RowBy(m, x, pc.rest.birth).value.state, pc.rest.after) == pc.rest.after
  {
  }

  lemma StepTold(cfg: Config, m: Machine, op: SplitOp, x: string)
    requires Sound(m) && Told(m, x) && Local(op) && SplitLegal(cfg, m, op)
    requires !(InFlight(m, x) && Alters(cfg, m, op, x))
    ensures Told(SplitStep(cfg, m, op), x)
  {
    match op
    case BeginIngest(_, _, _, _) => hide *; IngestTold(cfg, m, op, x);
    case BeginMarkDead(_, _, _) => hide *; MarkDeadTold(cfg, m, op, x);
    case Expire(_, _) => hide *; ExpireTold(cfg, m, op, x);
    case RunCallback(_, _) => hide *; CallbackTold(cfg, m, op, x);
    case Hand(_) => hide *; HandTold(cfg, m, op, x);
    case Resume(_) => hide *; ResumeTold(cfg, m, op, x);
    case Collect(_) => hide *; ExpireTold(cfg, m, op, x);
    case _ =>
  }

  // ── exactly when the sink is told the truth ───────────────────────────

  /** Whenever no frame of `x` is in flight, the latest frame bearing its id tells its state. */
  ghost predicate RightAtRest(m: Machine, x: string) {
    !InFlight(m, x) ==> FrameTells(m.mux, x)
  }

  /** The step hands over a frame that tells a state of `x`. */
  predicate PaysOff(m: Machine, op: SplitOp, x: string) {
    && op.Hand? && op.g in m.gos && m.gos[op.g].Sending?
    && Decode(m.gos[op.g].b).Some? && m.gos[op.g].b.sid == x
  }

  /** The step hands over the last frame owed of `x`, and that frame tells a state `x` is not in. */
  ghost predicate Misleads(m: Machine, op: SplitOp, x: string) {
    && PaysOff(m, op, x)
    && (forall h | h in m.gos && h != op.g :: !OwesOf(m.gos[h], x))
    && !StateIs(m, x, Decode(m.gos[op.g].b).value)
  }

  /** Goroutine `g` moved on without paying off a frame of `x`. */
  lemma RestKept(m: Machine, m': Machine, x: string, g: nat)
    requires RightAtRest(m, x) && Undisturbed(m, m', x) && LastTold(m'.mux.log, x) == LastTold(m.mux.log, x)
    requires forall h | h in m.gos && h != g :: h in m'.gos && m'.gos[h] == m.gos[h]
    requires g in m.gos && OwesOf(m.gos[g], x) ==> g in m'.gos && OwesOf(m'.gos[g], x)
    ensures RightAtRest(m', x) && (InFlight(m, x) ==> InFlight(m', x))
  {
    hide OwesOf, StateIs, HandleIs, LastTold, Undisturbed;
    UndisturbedKeeps(m, m', x);
    hide FrameTells;
    if InFlight(m, x) {
      var h :| h in m.gos && OwesOf(m.gos[h], x);
      assert OwesOf(m'.gos[h], x);
    }
  }

  lemma IngestRight(cfg: Config, m: Machine, op: SplitOp, x: string)
    requires Sound(m) && RightAtRest(m, x) && op.BeginIngest? && SplitLegal(cfg, m, op)
    ensures RightAtRest(SplitStep(cfg, m, op), x) && (InFlight(m, x) ==> InFlight(SplitStep(cfg, m, op), x))
  {
    hide Sound, RightAtRest, InFlight, Entered, Duplicate, CreateChoice, Owes, SameRows, Undisturbed;
    var ev, m' := op.ev, SplitStep(cfg, m, op);
    if !Wellformed(ev) || Duplicate(cfg, m.mux.recent, ev, op.now) {
      assert m' == m;
    } else {
      var m1 := Entered(cfg, m, ev, op.now, op.choice);
      IngestMoves(cfg, m, op);
      IngestRows(cfg, m, op);
      hide SplitStep;
      if ev.sid == x && Altered(m, m1, x) {
        OwingIsRight(m', x, op.g);
      } else {
        EnteredUndisturbed(cfg, m, ev, op.now, op.choice, x);
        SameRowsUndisturbed(m1, m', x);
        UndisturbedTrans(m, m1, m', x);
        RestKept(m, m', x, op.g);
      }
    }
  }

  lemma OwingIsRight(m: Machine, x: string, g: nat)
    requires g in m.gos && OwesOf(m.gos[g], x)
    ensures RightAtRest(m, x) && InFlight(m, x)
  {
    hide OwesOf, FrameTells;
  }

  lemma MarkDeadRight(cfg: Config, m: Machine, op: SplitOp, x: string)
    requires Sound(m) && RightAtRest(m, x) && op.BeginMarkDead? && SplitLegal(cfg, m, op)
    ensures RightAtRest(SplitStep(cfg, m, op), x) && (InFlight(m, x) ==> InFlight(SplitStep(cfg, m, op), x))
  {
    hide RightAtRest, InFlight, Undisturbed, Bury, EndedFrame, TableKept;
    var m' := SplitStep(cfg, m, op);
    if IsLive(m.mux.sessions, op.id) {
      SoundRow(m, op.id);
      EndedTold(m.mux.sessions[op.id], op.now);
      BuryParts(m.mux, op.id);
      if op.id == x {
        OwingIsRight(m', x, op.g);
      } else {
        BuryUndisturbed(m, m', op.id, x);
        RestKept(m, m', x, op.g);
      }
    }
  }

  lemma ExpireRight(cfg: Config, m: Machine, op: SplitOp, x: string)
    requires RightAtRest(m, x) && (op.Expire? || op.Collect?) && SplitLegal(cfg, m, op)
    ensures RightAtRest(SplitStep(cfg, m, op), x) && (InFlight(m, x) ==> InFlight(SplitStep(cfg, m, op), x))
  {
    hide RightAtRest, InFlight, MuxSpec.Collect;
    var m' := SplitStep(cfg, m, op);
    SameRowsUndisturbed(m, m', x);
    hide Undisturbed;
    RestKept(m, m', x, if op.Expire? then op.g else 0);
  }

  lemma CallbackRight(cfg: Config, m: Machine, op: SplitOp, x: string)
    requires Sound(m) && RightAtRest(m, x) && op.RunCallback? && SplitLegal(cfg, m, op)
    ensures RightAtRest(SplitStep(cfg, m, op), x) && (InFlight(m, x) ==> InFlight(SplitStep(cfg, m, op), x))
  {
    hide RightAtRest, InFlight, IdleFrame, TableKept;
    var m' := SplitStep(cfg, m, op);
    var id := m.gos[op.g].id;
    if id in m.mux.sessions && m.mux.sessions[id].state.Busy? {
      SoundRow(m, id);
      IdleFrameTells(cfg, m.mux.sessions[id].(state := Idle), true, op.now);
      if id == x {
        OwingIsRight(m', x, op.g);
      } else {
        assert Undisturbed(m, m', x);
        hide Undisturbed;
        RestKept(m, m', x, op.g);
      }
    } else {
      SameRowsUndisturbed(m, m', x);
      hide Undisturbed;
      RestKept(m, m', x, op.g);
    }
  }

  lemma ResumeRight(cfg: Config, m: Machine, op: SplitOp, x: string)
    requires Sound(m) && RightAtRest(m, x) && op.Resume? && SplitLegal(cfg, m, op)
    ensures RightAtRest(SplitStep(cfg, m, op), x) && (InFlight(m, x) ==> InFlight(SplitStep(cfg, m, op), x))
  {
    hide TableKept, BirthsSound, ReportBy, ArmBy, RowBy, RightAtRest, InFlight, HandleIs, StateIs;
    var g, m' := op.g, SplitStep(cfg, m, op);
    var rest := m.gos[g].rest;
    assert PcSound(m, m.gos[g]);
    ResumeRows(cfg, m, op);
    SameRowsUndisturbed(m, m', x);
    hide SameRows, Undisturbed;
    if rest.Report? {
      var b := ReportSound(cfg, m, g, rest);
    } else if rest.Rearm? {
      RearmGoes(cfg, m, op);
    }
    hide SplitStep, Sound;
    RestKept(m, m', x, g);
  }

  /** Only handing over can mislead, and only by the last frame owed. */
  lemma HandRightIff(cfg: Config, m: Machine, op: SplitOp, x: string)
    requires Sound(m) && RightAtRest(m, x) && op.Hand? && SplitLegal(cfg, m, op)
    ensures RightAtRest(SplitStep(cfg, m, op), x) <==> !Misleads(m, op, x)
    ensures InFlight(m, x) && !PaysOff(m, op, x) ==> InFlight(SplitStep(cfg, m, op), x)
  {
    hide TableKept, BirthsSound, LastTold;
    var g, m' := op.g, SplitStep(cfg, m, op);
    var b := m.gos[g].b;
    assert PcSound(m, m.gos[g]);
    LastToldAppend(m.mux.log, b, x);
    SameRowsUndisturbed(m, m', x);
    if Decode(b).Some? && b.sid == x {
      hide Undisturbed, SameRows;
      assert m'.gos == m.gos[g := Waiting(m.gos[g].rest)] && !OwesOf(m'.gos[g], x);
      if h :| h in m.gos && h != g && OwesOf(m.gos[h], x) {
        assert OwesOf(m'.gos[h], x);
      } else {
        assert forall h | h in m'.gos :: !OwesOf(m'.gos[h], x);
      }
      assert FrameTells(m'.mux, x) <==> StateIs(m, x, Decode(b).value);
    } else {
      hide RightAtRest, InFlight, Undisturbed;
      RestKept(m, m', x, g);
    }
  }

  lemma StepRightIff(cfg: Config, m: Machine, op: SplitOp, x: string)
    requires Sound(m) && RightAtRest(m, x) && Local(op) && SplitLegal(cfg, m, op)
    ensures RightAtRest(SplitStep(cfg, m, op), x) <==> !Misleads(m, op, x)
    ensures InFlight(m, x) && !PaysOff(m, op, x) ==> InFlight(SplitStep(cfg, m, op), x)
  {
    hide Sound, RightAtRest, InFlight, SplitStep, SplitLegal;
    match op
    case BeginIngest(_, _, _, _) => IngestRight(cfg, m, op, x);
    case BeginMarkDead(_, _, _) => MarkDeadRight(cfg, m, op, x);
    case Expire(_, _) => ExpireRight(cfg, m, op, x);
    case RunCallback(_, _) => CallbackRight(cfg, m, op, x);
    case Hand(_) => HandRightIff(cfg, m, op, x);
    case Resume(_) => ResumeRight(cfg, m, op, x);
    case Collect(_) => ExpireRight(cfg, m, op, x);
    case _ =>
  }

  ghost predicate LocalRun(cfg: Config, m: Machine, ops: seq<SplitOp>)
    decreases |ops|
  {
    ops != [] ==> Local(ops[0]) && SplitLegal(cfg, m, ops[0]) && LocalRun(cfg, SplitStep(cfg, m, ops[0]), ops[1..])
  }

  ghost predicate AlwaysRight(cfg: Config, m: Machine, ops: seq<SplitOp>, x: string)
    decreases |ops|
  {
    RightAtRest(m, x) && (ops != [] ==> AlwaysRight(cfg, SplitStep(cfg, m, ops[0]), ops[1..], x))
  }

  ghost predicate NeverMisled(cfg: Config, m: Machine, ops: seq<SplitOp>, x: string)
    decreases |ops|
  {
    ops != [] ==> !Misleads(m, ops[0], x) && NeverMisled(cfg, SplitStep(cfg, m, ops[0]), ops[1..], x)
  }

  lemma {:induction false} RunRightIff(cfg: Config, m: Machine, ops: seq<SplitOp>, x: string)
    requires Sound(m) && Balanced(m) && RightAtRest(m, x) && LocalRun(cfg, m, ops)
    ensures AlwaysRight(cfg, m, ops, x) <==> NeverMisled(cfg, m, ops, x)
    decreases |ops|
  {
    hide Sound, Balanced, RightAtRest, Misleads, SplitStep, SplitLegal;
    if ops != [] {
      var m1 := SplitStep(cfg, m, ops[0]);
      StepSound(cfg, m, ops[0]);
      StepRightIff(cfg, m, ops[0], x);
      if RightAtRest(m1, x) {
        RunRightIff(cfg, m1, ops[1..], x);
      }
    }
  }

  /** However goroutines interleave: what the sink was last told of a session is right whenever no frame of it
      is in flight, at every moment of the run, exactly if no step hands over a last frame that is wrong. */
  lemma {:induction false} TellsIff(cfg: Config, ops: seq<SplitOp>, x: string)
    requires LocalRun(cfg, FRESH, ops)
    ensures AlwaysRight(cfg, FRESH, ops, x) <==> NeverMisled(cfg, FRESH, ops, x)
  {
    FreshSound();
    hide LocalRun, AlwaysRight, NeverMisled;
    RunRightIff(cfg, FRESH, ops, x);
  }

  // ── orderly runs never mislead ────────────────────────────────────────

  /** The one frame owed of `x` tells the state `x` is in. */
  lemma ToldMisleadsNot(m: Machine, op: SplitOp, x: string)
    requires Told(m, x)
    ensures !Misleads(m, op, x)
  {
    if op.Hand? && op.g in m.gos && m.gos[op.g].Sending? && Decode(m.gos[op.g].b).Some? && m.gos[op.g].b.sid == x {
      assert OwesOf(m.gos[op.g], x) && OwedRight(m, m.gos[op.g], x);
    }
  }

  lemma {:induction false} OrderlyNeverMisled(cfg: Config, m: Machine, ops: seq<SplitOp>, x: string)
    requires Sound(m) && Balanced(m) && Told(m, x) && Orderly(cfg, m, ops, x)
    ensures LocalRun(cfg, m, ops) && NeverMisled(cfg, m, ops, x)
    decreases |ops|
  {
    hide Sound, Balanced, Told, InFlight, Alters, Misleads, SplitStep, SplitLegal;
    if ops != [] {
      StepSound(cfg, m, ops[0]);
      StepTold(cfg, m, ops[0], x);
      ToldMisleadsNot(m, ops[0], x);
      OrderlyNeverMisled(cfg, SplitStep(cfg, m, ops[0]), ops[1..], x);
    }
  }

  lemma {:induction false} AlwaysMeansLast(cfg: Config, m: Machine, ops: seq<SplitOp>, x: string)
    requires AlwaysRight(cfg, m, ops, x)
    ensures RightAtRest(SplitExec(cfg, m, ops), x)
    decreases |ops|
  {
    hide RightAtRest, SplitStep;
    if ops != [] {
      AlwaysMeansLast(cfg, SplitStep(cfg, m, ops[0]), ops[1..], x);
    }
  }

  /** In particular if nothing alters a session while a frame of it is in flight. */
  lemma {:induction false} OrderlyTells(cfg: Config, ops: seq<SplitOp>, x: string)
    requires Orderly(cfg, FRESH, ops, x) && !InFlight(SplitExec(cfg, FRESH, ops), x)
    ensures FrameTells(SplitExec(cfg, FRESH, ops).mux, x)
  {
    FreshSound();
    assert Told(FRESH, x);
    hide SplitExec, Orderly, InFlight, FrameTells, LocalRun, NeverMisled, AlwaysRight;
    OrderlyNeverMisled(cfg, FRESH, ops, x);
    TellsIff(cfg, ops, x);
    AlwaysMeansLast(cfg, FRESH, ops, x);
  }
}
