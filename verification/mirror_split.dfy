/** The whole way at once: goroutines interleaving on the laptop, the bounded queue, the wire and the cloud. */
module MirrorSplit {
  import opened Wire
  import opened MuxSpec
  import opened MuxInvariants
  import opened MuxSplit
  import opened MuxOrderly
  import opened Mirror
  import MuxRuns
  import Peers = Upstream

  /** The laptop's machine and the system its table and log are the laptop's side of. */
  datatype Whole = Whole(m: Machine, y: System)

  datatype Move = Turn(op: SplitOp) | Link(link: SysOp)

  // ── the laptop's machine is such a laptop ─────────────────────────────

  /** Goroutines hold, and owe, only frames as a sink is handed them. */
  ghost predicate Worded(m: Machine) {
    forall g | g in m.gos ::
      && (m.gos[g].Sending? ==> Said(m.gos[g].b))
      && (Owes(m.gos[g]).Some? ==> Owes(m.gos[g]).value.0 != "")
  }

  /** Goroutine `g` may hold something new; the others hold what they held. */
  lemma WordedOn(m: Machine, m': Machine, g: nat)
    requires Worded(m) && forall h | h in m'.gos && h != g :: h in m.gos && m'.gos[h] == m.gos[h]
    requires g in m'.gos && !(g in m.gos && m'.gos[g] == m.gos[g]) ==>
      (m'.gos[g].Sending? ==> Said(m'.gos[g].b)) && (Owes(m'.gos[g]).Some? ==> Owes(m'.gos[g]).value.0 != "")
    ensures Worded(m')
  {
    hide Said, Owes;
  }

  lemma IngestWorded(cfg: Config, m: Machine, op: SplitOp)
    requires Sound(m) && Worded(m) && op.BeginIngest? && SplitLegal(cfg, m, op)
    ensures Worded(SplitStep(cfg, m, op)) && SplitStep(cfg, m, op).mux.log == m.mux.log
  {
    hide Sound, Entered, Duplicate, CreateChoice, ReportBy, ArmBy, Worded, Decode;
    var ev, m' := op.ev, SplitStep(cfg, m, op);
    if Wellformed(ev) && !Duplicate(cfg, m.mux.recent, ev, op.now) {
      var m1 := Entered(cfg, m, ev, op.now, op.choice);
      IngestMoves(cfg, m, op);
      if ev.sid !in m.mux.sessions {
        StartedSaid(m1.mux.sessions[ev.sid], ObservedAt(ev, op.now));
        hide StartedFrame;
        WordedOn(m, m', op.g);
      } else if Altered(m, m1, ev.sid) {
        var row := m1.mux.sessions[ev.sid];
        var rest := Report(ev.sid, Born(m1, ev.sid), row.state, ObservedAt(ev, op.now));
        assert RestSound(m1, rest) by { SoundRow(m1, ev.sid); EnteredSound(cfg, m, ev, op.now, op.choice); }
        var b := ReportSound(cfg, m1, op.g, rest);
        hide SplitStep;
        WordedOn(m, m', op.g);
      } else {
        hide SplitStep;
        WordedOn(m, m', op.g);
      }
    }
  }

  lemma StartedSaid(r: Row, at: int)
    ensures Said(StartedFrame(r, at))
  {
  }

  lemma ResumeWorded(cfg: Config, m: Machine, op: SplitOp)
    requires Sound(m) && Worded(m) && op.Resume? && SplitLegal(cfg, m, op)
    ensures Worded(SplitStep(cfg, m, op)) && SplitStep(cfg, m, op).mux.log == m.mux.log
  {
    hide TableKept, BirthsSound, ReportBy, ArmBy, RowBy, Worded, Decode;
    var g, m' := op.g, SplitStep(cfg, m, op);
    var rest := m.gos[g].rest;
    assert PcSound(m, m.gos[g]);
    if rest.Report? {
      var b := ReportSound(cfg, m, g, rest);
      WordedAt(m, g);
    } else if rest.Rearm? {
      RearmGoes(cfg, m, op);
    }
    hide SplitStep, Sound;
    WordedOn(m, m', g);
  }

  lemma WordedAt(m: Machine, g: nat)
    requires Worded(m) && g in m.gos && Owes(m.gos[g]).Some?
    ensures Owes(m.gos[g]).value.0 != ""
  {
  }

  lemma MarkDeadWorded(cfg: Config, m: Machine, op: SplitOp)
    requires Sound(m) && Worded(m) && op.BeginMarkDead? && SplitLegal(cfg, m, op)
    ensures Worded(SplitStep(cfg, m, op)) && SplitStep(cfg, m, op).mux.log == m.mux.log
  {
    hide Bury, EndedFrame, Sound, Worded;
    if IsLive(m.mux.sessions, op.id) {
      SoundRow(m, op.id);
      EndedTold(m.mux.sessions[op.id], op.now);
      BuryParts(m.mux, op.id);
      WordedOn(m, SplitStep(cfg, m, op), op.g);
    }
  }

  lemma CallbackWorded(cfg: Config, m: Machine, op: SplitOp)
    requires Sound(m) && Worded(m) && op.RunCallback? && SplitLegal(cfg, m, op)
    ensures Worded(SplitStep(cfg, m, op)) && SplitStep(cfg, m, op).mux.log == m.mux.log
  {
    hide IdleFrame, Sound, Worded;
    var id := m.gos[op.g].id;
    if id in m.mux.sessions && m.mux.sessions[id].state.Busy? {
      SoundRow(m, id);
      IdleFrameTells(cfg, m.mux.sessions[id].(state := Idle), true, op.now);
    }
    WordedOn(m, SplitStep(cfg, m, op), op.g);
  }

  lemma PeerWorded(cfg: Config, m: Machine, op: SplitOp)
    requires Sound(m) && Worded(m) && !MuxSplit.Local(op) && SplitLegal(cfg, m, op)
    ensures Worded(SplitStep(cfg, m, op)) && SplitStep(cfg, m, op).mux.log == m.mux.log
  {
    hide ApplyUpstream, SyncOne, Sound, Worded, FrameChoices, CreateChoice;
    NamedRows(m.mux) by { SoundKept(m); }
    match op
    case Upstream(b, now, best, choice) =>
      Peers.FrameFollows(cfg, m.mux, b, now, best, choice);
      WordedOn(m, SplitStep(cfg, m, op), 0);
    case SyncView(v, now, choice) =>
      Peers.SyncOneFollows(cfg, m.mux, v, now, choice);
      WordedOn(m, SplitStep(cfg, m, op), 0);
    case DropRow(id) => WordedOn(m, SplitStep(cfg, m, op), 0);
  }

  lemma SoundKept(m: Machine)
    requires Sound(m)
    ensures TableKept(m.mux)
  {
  }

  /** Whatever goroutines and peers do next to the laptop's machine, its log grows by frames as a sink is handed
      them, one at a time, and its rows bear their ids. */
  lemma SplitProceeds(cfg: Config, m: Machine, op: SplitOp)
    requires Sound(m) && Balanced(m) && Worded(m) && SplitLegal(cfg, m, op)
    ensures Worded(SplitStep(cfg, m, op)) && Proceeds(m.mux, SplitStep(cfg, m, op).mux)
    ensures SplitStep(cfg, m, op).mux.log == m.mux.log + (if op.Hand? then [m.gos[op.g].b] else [])
  {
    var m' := SplitStep(cfg, m, op);
    StepSound(cfg, m, op);
    assert RowsNamed(m'.mux) by { SoundKept(m'); NamedRows(m'.mux); }
    assert m.mux.log + [] == m.mux.log;
    match op
    case BeginIngest(_, _, _, _) => IngestWorded(cfg, m, op);
    case BeginMarkDead(_, _, _) => MarkDeadWorded(cfg, m, op);
    case RunCallback(_, _) => CallbackWorded(cfg, m, op);
    case Resume(_) => ResumeWorded(cfg, m, op);
    case Hand(g) => HandWorded(cfg, m, op);
    case Expire(g, _) => hide Worded, Sound, Balanced; WordedOn(m, m', g);
    case Collect(_) => hide Worded, Sound, Balanced, MuxSpec.Collect; WordedOn(m, m', 0);
    case _ => PeerWorded(cfg, m, op);
  }

  lemma HandWorded(cfg: Config, m: Machine, op: SplitOp)
    requires Sound(m) && Worded(m) && op.Hand? && SplitLegal(cfg, m, op)
    ensures Worded(SplitStep(cfg, m, op)) && Said(m.gos[op.g].b)
    ensures SplitStep(cfg, m, op).mux.log == m.mux.log + [m.gos[op.g].b]
  {
    assert PcSound(m, m.gos[op.g]);
    hide Decode, Sound;
    WordedOn(m, SplitStep(cfg, m, op), op.g);
  }

  // ── the whole way ─────────────────────────────────────────────────────

  ghost predicate WholeLegal(cfg: Config, p: Setup, w: Whole, move: Move) {
    match move
    case Turn(op) => SplitLegal(cfg, w.m, op) && SysLegal(p, w.y, SysOp.Local(SplitStep(cfg, w.m, op).mux))
    case Link(op) => !op.Local? && SysLegal(p, w.y, op)
  }

  ghost function WholeStep(cfg: Config, p: Setup, w: Whole, move: Move): Whole
    requires WholeLegal(cfg, p, w, move)
  {
    match move
    case Turn(op) =>
      var m := SplitStep(cfg, w.m, op);
      Whole(m, SysStep(p, w.y, SysOp.Local(m.mux)))
    case Link(op) => w.(y := SysStep(p, w.y, op))
  }

  /** A local turn that does not mislead the sink about `x`, or a step of the link that does not miss it. */
  ghost predicate Straight(w: Whole, move: Move, x: string) {
    match move
    case Turn(op) => MuxSplit.Local(op) && !Misleads(w.m, op, x)
    case Link(op) => !Misses(w.y, op, x)
  }

  ghost predicate StraightRun(cfg: Config, p: Setup, w: Whole, moves: seq<Move>, x: string)
    decreases |moves|
  {
    moves != [] ==>
      && WholeLegal(cfg, p, w, moves[0]) && Straight(w, moves[0], x)
      && StraightRun(cfg, p, WholeStep(cfg, p, w, moves[0]), moves[1..], x)
  }

  ghost function WholeExec(cfg: Config, p: Setup, w: Whole, moves: seq<Move>, x: string): Whole
    requires StraightRun(cfg, p, w, moves, x)
    decreases |moves|
  {
    if moves == [] then w else WholeExec(cfg, p, WholeStep(cfg, p, w, moves[0]), moves[1..], x)
  }

  /** What the log has told of `x` if no frame carried since the hello does, but for a frame still in flight. */
  ghost predicate BasedOrDue(w: Whole, x: string) {
    w.y.up && w.y.out.clean && LastTold(w.y.carried, x).None? ==>
      Peers.Viewed(w.y.hello, x) == Alive(LastTold(w.y.laptop.log, x)) || InFlight(w.m, x)
  }

  ghost predicate LaptopSound(w: Whole, x: string) {
    w.y.laptop == w.m.mux && Sound(w.m) && Balanced(w.m) && Worded(w.m) && RightAtRest(w.m, x)
  }

  ghost predicate WholeInv(w: Whole, x: string) {
    LaptopSound(w, x) && Connected(w.y) && TailCarried(w.y) && InTouch(w.y, x) && BasedOrDue(w, x)
  }

  lemma LiveIsTold(s: State, x: string)
    requires FrameTells(s, x)
    ensures LiveState(s, x) == Alive(LastTold(s.log, x))
  {
  }

  /** A frame of `x` newly logged was handed over by this turn. */
  lemma TurnBased(cfg: Config, p: Setup, w: Whole, op: SplitOp, x: string)
    requires LaptopSound(w, x) && BasedOrDue(w, x) && MuxSplit.Local(op) && WholeLegal(cfg, p, w, Turn(op))
    ensures BasedOrDue(WholeStep(cfg, p, w, Turn(op)), x)
  {
    var m' := SplitStep(cfg, w.m, op);
    var local := SysOp.Local(m'.mux);
    LocalIs(p, w.y, local);
    StepRightIff(cfg, w.m, op, x);
    SplitProceeds(cfg, w.m, op);
    hide SplitStep, SplitLegal, SysStep, Sound, Balanced, Worded, RightAtRest, Misleads, InFlight, Peers.Viewed;
    hide LastTold, Taken, Proceeds;
    var log := w.y.laptop.log;
    var news := m'.mux.log[|log|..];
    assert m'.mux.log == log + news;
    MuxRuns.LastToldConcat(log, news, x);
    MuxRuns.LastToldConcat(w.y.carried, news, x);
    if op.Hand? && PaysOff(w.m, op, x) {
      assert news == [w.m.gos[op.g].b];
      assert [] + news == news;
      LastToldAppend([], w.m.gos[op.g].b, x);
    }
  }

  lemma LinkBased(p: Setup, w: Whole, op: SysOp, x: string)
    requires LaptopSound(w, x) && BasedOrDue(w, x) && !op.Local? && SysLegal(p, w.y, op) && x != ""
    ensures BasedOrDue(w.(y := SysStep(p, w.y, op)), x)
  {
    if op.Connect? {
      assert RowsNamed(w.y.laptop) by { SoundKept(w.m); NamedRows(w.m.mux); }
      ConnectShows(p, w.y, op, x);
      if !InFlight(w.m, x) { LiveIsTold(w.m.mux, x); }
      hide Sound, Balanced, Worded, InFlight, Peers.Viewed, LastTold, LiveState;
    } else {
      hide Sound, Balanced, Worded, InFlight, Peers.Viewed, LastTold, Receive, ArrivalChoices, Pulled, RightAtRest;
    }
  }

  lemma StepWhole(cfg: Config, p: Setup, w: Whole, move: Move, x: string)
    requires WholeInv(w, x) && WholeLegal(cfg, p, w, move) && Straight(w, move, x) && x != ""
    ensures WholeInv(WholeStep(cfg, p, w, move), x)
  {
    hide Sound, Balanced, Worded, RightAtRest, Connected, TailCarried, InTouch, BasedOrDue, Misleads, Misses, SplitStep;
    hide SplitLegal, SysLegal;
    match move
    case Turn(op) =>
      var local := SysOp.Local(SplitStep(cfg, w.m, op).mux);
      StepSound(cfg, w.m, op);
      SplitProceeds(cfg, w.m, op);
      StepRightIff(cfg, w.m, op, x);
      StepConnected(p, w.y, local);
      StepTail(p, w.y, local);
      StepTouchIff(p, w.y, local, x);
      LocalMissesNone(w.y, local, x);
      TurnBased(cfg, p, w, op, x);
      LocalIs(p, w.y, local);
      hide SysStep, Proceeds, Taken;
    case Link(op) =>
      StepConnected(p, w.y, op);
      StepTail(p, w.y, op);
      StepTouchIff(p, w.y, op, x);
      LinkBased(p, w, op, x);
      LinkKeepsLaptop(p, w.y, op);
      hide SysStep;
  }

  lemma LocalMissesNone(y: System, op: SysOp, x: string)
    requires !op.Arrive?
    ensures !Misses(y, op, x)
  {
  }

  lemma LinkKeepsLaptop(p: Setup, y: System, op: SysOp)
    requires !op.Local? && SysLegal(p, y, op)
    ensures SysStep(p, y, op).laptop == y.laptop
  {
    hide Receive, ArrivalChoices, Pulled;
  }

  lemma {:induction false} RunWhole(cfg: Config, p: Setup, w: Whole, moves: seq<Move>, x: string)
    requires WholeInv(w, x) && StraightRun(cfg, p, w, moves, x) && x != ""
    ensures WholeInv(WholeExec(cfg, p, w, moves, x), x)
    decreases |moves|
  {
    hide WholeInv, WholeLegal, WholeStep, Straight;
    if moves != [] {
      StepWhole(cfg, p, w, moves[0], x);
      RunWhole(cfg, p, WholeStep(cfg, p, w, moves[0]), moves[1..], x);
    }
  }

  lemma FreshWhole(x: string)
    ensures WholeInv(Whole(FRESH, QUIET), x)
  {
    FreshSound();
    QuietConnected();
    hide Sound, Balanced, Connected;
  }

  lemma WholeArrives(w: Whole, x: string)
    requires WholeInv(w, x) && AllDelivered(w.y) && w.y.out.clean && !InFlight(w.m, x)
    ensures LiveState(w.y.cloud, x) == LiveState(w.y.laptop, x)
  {
    DeliveredIs(w.y, x);
    LiveIsTold(w.m.mux, x);
    hide Connected, InTouch, Sound, Balanced, Worded, LiveState, Peers.Viewed, LastTold, TailQueued, InFlight;
    var log, n := w.y.laptop.log, |w.y.laptop.log| - |w.y.carried|;
    assert log == log[..n] + w.y.carried;
    MuxRuns.LastToldConcat(log[..n], w.y.carried, x);
  }

  /** However the laptop's goroutines interleave and whenever connections come and go: a bridge that is up, has
      lost nothing since its hello and has delivered all it holds has left the session in the cloud in the state
      it is in on the laptop, once no goroutine owes a frame of it, unless some step misled the sink about it or
      some frame missed it. */
  lemma {:induction false} WholeConverges(cfg: Config, p: Setup, moves: seq<Move>, x: string)
    requires StraightRun(cfg, p, Whole(FRESH, QUIET), moves, x) && x != ""
    requires var w := WholeExec(cfg, p, Whole(FRESH, QUIET), moves, x);
      AllDelivered(w.y) && w.y.out.clean && !InFlight(w.m, x)
    ensures var w := WholeExec(cfg, p, Whole(FRESH, QUIET), moves, x);
      LiveState(w.y.cloud, x) == LiveState(w.y.laptop, x)
  {
    hide *;
    FreshWhole(x);
    RunWhole(cfg, p, Whole(FRESH, QUIET), moves, x);
    WholeArrives(WholeExec(cfg, p, Whole(FRESH, QUIET), moves, x), x);
  }
}
