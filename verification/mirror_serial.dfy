/** A laptop whose operations run one after the other behind the mirrored queue: when the cloud ends up with its
    states, and when a full queue costs it some. */
module MirrorSerial {
  import opened Wire
  import opened MuxSpec
  import opened MuxInvariants
  import opened MuxRuns
  import opened Upstream
  import opened Mirror

  // ── what the laptop's frames and rows look like ───────────────────────

  /** `b` either announces a thread, or tells the state of a row under that row's thread. */
  ghost predicate Spoken(s: State, b: Broadcast) {
    || (b.typ.ThreadStarted? && b.sid == "")
    || (Decode(b).Some? && b.sid in s.sessions && b.thread == s.sessions[b.sid].threadID)
  }

  ghost predicate RowsDerived(cfg: Config, s: State) {
    forall id | id in s.sessions ::
      && s.sessions[id].agent != ""
      && s.sessions[id].threadID == cfg.env.threadIDFor(s.sessions[id].agent, s.sessions[id].cwd)
  }

  lemma PublishedSpoken(cfg: Config, r: Row, isNew: bool, before: SessionState, at: int, b: Broadcast)
    requires b in PublishedFrames(cfg, r, isNew, before, at) && !r.state.Starting?
    ensures (b.typ.ThreadStarted? && b.sid == "") || (Decode(b).Some? && b.sid == r.id && b.thread == r.threadID)
  {
  }

  lemma IngestSpeaks(cfg: Config, s: State, ev: Event, now: int, choice: Option<string>)
    requires Base(s) && CreateChoice(cfg, s, ev.sid, choice)
    ensures var s' := Ingest(cfg, s, ev, now, choice).0;
      |s.log| <= |s'.log| && forall b | b in s'.log[|s.log|..] :: Spoken(s', b)
  {
    hide Admit, Publish, PublishedFrames, Duplicate, StateBefore, CreateChoice, IndexAgrees, TimersCover;
    if Wellformed(ev) && !Duplicate(cfg, s.recent, ev, now) {
      AdmitKeepsOthers(cfg, s, ev, now, choice);
      var s1 := Admit(cfg, s, ev, now, choice);
      var at, isNew, before := ObservedAt(ev, now), ev.sid !in s.sessions, StateBefore(s, ev.sid);
      PublishTouches(cfg, s1, ev.sid, isNew, before, at);
      PublishLogs(cfg, s1, ev.sid, isNew, before, at);
      var s' := Publish(cfg, s1, ev.sid, isNew, before, at);
      var frames := PublishedFrames(cfg, s1.sessions[ev.sid], isNew, before, at);
      assert s'.log[|s.log|..] == frames;
      forall b | b in frames ensures Spoken(s', b) {
        PublishedSpoken(cfg, s1.sessions[ev.sid], isNew, before, at, b);
      }
    }
  }

  lemma StepSpeaks(cfg: Config, s: State, op: Op)
    requires Base(s) && Legal(cfg, s, op)
    ensures var s' := Step(cfg, s, op);
      |s.log| <= |s'.log| && forall b | b in s'.log[|s.log|..] :: Spoken(s', b)
  {
    hide Ingest, IndexAgrees;
    match op
    case DoIngest(ev, now, choice) => IngestSpeaks(cfg, s, ev, now, choice);
    case DoMarkDead(id, now) =>
      if IsLive(s.sessions, id) {
        ClearTouches(s, id);
        ClearKeepsLog(s, id);
        hide ClearTimer;
        assert MarkDead(s, id, now).log == s.log + [EndedFrame(s.sessions[id], now)];
      }
    case DoFire(t, now) =>
      if t in s.timers {
        FireIs(cfg, s, t, now);
        var r := s.sessions[s.timers[t]].(state := Idle);
        IdleFrameTells(cfg, r, true, now);
        assert IdleFrame(cfg, r, true, now).thread == r.threadID;
        hide Fire, InferIdle, IdleFrame;
      }
    case DoGc(now) =>
  }

  lemma NewRowDerived(cfg: Config, id: string, agent: string, cwd: string, now: int)
    ensures var r := NewRow(cfg, id, agent, cwd, now);
      r.agent != "" && r.threadID == cfg.env.threadIDFor(r.agent, r.cwd)
  {
  }

  lemma IngestDerives(cfg: Config, s: State, ev: Event, now: int, choice: Option<string>)
    requires CreateChoice(cfg, s, ev.sid, choice) && RowsDerived(cfg, s)
    ensures RowsDerived(cfg, Ingest(cfg, s, ev, now, choice).0)
  {
    hide Publish, Admit, Absorb, GetOrCreate, NewRow, Stamp, Duplicate, CreateChoice;
    var s0 := s.(recent := Stamp(s.recent, ev, now));
    assert CreateChoice(cfg, s0, ev.sid, choice) by { ChoiceIgnoresRecent(cfg, s, s0, ev.sid, choice); }
    CreateKeepsOthers(cfg, s0, ev.sid, ev.agent, ev.cwd, now, choice);
    NewRowDerived(cfg, ev.sid, ev.agent, ev.cwd, now);
    var s1 := GetOrCreate(cfg, s0, ev.sid, ev.agent, ev.cwd, now, choice);
    AbsorbKeepsIdentity(cfg, s1.sessions[ev.sid], ev, ObservedAt(ev, now));
    var s2 := Admit(cfg, s, ev, now, choice);
    AdmitIs(cfg, s, ev, now, choice);
    PublishTouches(cfg, s2, ev.sid, ev.sid !in s.sessions, StateBefore(s, ev.sid), ObservedAt(ev, now));
  }

  lemma ChoiceIgnoresRecent(cfg: Config, s: State, s': State, id: string, choice: Option<string>)
    requires CreateChoice(cfg, s, id, choice) && s'.sessions == s.sessions
    ensures CreateChoice(cfg, s', id, choice)
  {
  }

  lemma StepDerives(cfg: Config, s: State, op: Op)
    requires Base(s) && Legal(cfg, s, op) && RowsDerived(cfg, s)
    ensures RowsDerived(cfg, Step(cfg, s, op))
  {
    hide Ingest, IndexAgrees, CreateChoice;
    match op
    case DoIngest(ev, now, choice) => IngestDerives(cfg, s, ev, now, choice);
    case DoMarkDead(id, now) =>
      if IsLive(s.sessions, id) {
        ClearTouches(s, id);
        hide ClearTimer;
      }
    case DoFire(t, now) =>
      if t in s.timers {
        FireIs(cfg, s, t, now);
        hide Fire, InferIdle, IdleFrame;
      }
    case DoGc(now) =>
  }

  lemma AdmitIs(cfg: Config, s: State, ev: Event, now: int, choice: Option<string>)
    ensures var s1 := GetOrCreate(cfg, s.(recent := Stamp(s.recent, ev, now)), ev.sid, ev.agent, ev.cwd, now, choice);
      Admit(cfg, s, ev, now, choice).sessions ==
        s1.sessions[ev.sid := Absorb(cfg, s1.sessions[ev.sid], ev, ObservedAt(ev, now))]
  {
    hide GetOrCreate, Absorb, Stamp;
  }

  // ── serial runs ───────────────────────────────────────────────────────

  ghost predicate SerialStep(cfg: Config, s: State, s': State) {
    exists op :: Legal(cfg, s, op) && s' == Step(cfg, s, op)
  }

  /** One operation of a laptop whose log tells the truth. */
  lemma SerialKeeps(cfg: Config, s: State, s': State)
    requires Inv(s) && SerialStep(cfg, s, s')
    ensures Inv(s') && StepTells(s, s') && Proceeds(s, s')
    ensures forall b | b in s'.log[|s.log|..] :: Spoken(s', b)
    ensures RowsDerived(cfg, s) ==> RowsDerived(cfg, s')
  {
    hide IndexAgrees, NoneStarting, TimersCover, FramesTell, StepTells, Step, Legal, RowsDerived;
    var op :| Legal(cfg, s, op) && s' == Step(cfg, s, op);
    StepKeepsBase(cfg, s, op);
    StepKeepsFrames(s, s');
    StepSpeaks(cfg, s, op);
    TellsGrows(s, s');
    if RowsDerived(cfg, s) { StepDerives(cfg, s, op); }
    hide SerialStep, Spoken, Base;
    forall b | b in s'.log[|s.log|..] ensures Said(b) {
      SpokenIsSaid(s', b);
    }
  }

  lemma TellsGrows(s: State, s': State)
    requires StepTells(s, s')
    ensures |s.log| <= |s'.log| && s'.log[..|s.log|] == s.log
  {
  }

  lemma SpokenIsSaid(s: State, b: Broadcast)
    requires RowsNamed(s) && Spoken(s, b)
    ensures Said(b)
  {
  }

  ghost predicate SerialRun(cfg: Config, p: Setup, y: System, ops: seq<SysOp>)
    requires SysLegalRun(p, y, ops)
    decreases |ops|
  {
    ops != [] ==>
      && (ops[0].Local? ==> SerialStep(cfg, y.laptop, ops[0].next))
      && SerialRun(cfg, p, SysStep(p, y, ops[0]), ops[1..])
  }

  /** What the log has told of `x` if no frame carried since the hello does. */
  ghost predicate Based(y: System, x: string) {
    y.up && y.out.clean && LastTold(y.carried, x).None? ==> Viewed(y.hello, x) == Alive(LastTold(y.laptop.log, x))
  }

  ghost predicate SerialInv(y: System) {
    Inv(y.laptop) && TailCarried(y) && forall x | x != "" :: Based(y, x)
  }

  lemma LocalBased(p: Setup, y: System, op: SysOp, x: string)
    requires Based(y, x) && op.Local? && SysLegal(p, y, op)
    ensures Based(SysStep(p, y, op), x)
  {
    LocalIs(p, y, op);
    hide SysStep, Viewed, Taken, LastTold, Proceeds;
    var news := op.next.log[|y.laptop.log|..];
    LastToldConcat(y.laptop.log, news, x);
    LastToldConcat(y.carried, news, x);
  }

  lemma ConnectBased(p: Setup, y: System, op: SysOp, x: string)
    requires Inv(y.laptop) && op.Connect? && SysLegal(p, y, op) && x != ""
    ensures Based(SysStep(p, y, op), x)
  {
    InvParts(y.laptop);
    ConnectShows(p, y, op, x);
    LogTellsLive(y.laptop, x);
    hide Inv, Viewed, LiveState, LastTold;
  }

  lemma InvParts(s: State)
    requires Inv(s)
    ensures RowsNamed(s) && FramesTell(s) && IndexAgrees(s)
  {
  }

  lemma StepSerial(cfg: Config, p: Setup, y: System, op: SysOp)
    requires SerialInv(y) && SysLegal(p, y, op) && (op.Local? ==> SerialStep(cfg, y.laptop, op.next))
    ensures SerialInv(SysStep(p, y, op))
  {
    StepTail(p, y, op);
    hide TailCarried, Inv, SerialStep;
    match op
    case Local(next) =>
      SerialKeeps(cfg, y.laptop, next);
      forall x | x != "" ensures Based(SysStep(p, y, op), x) { LocalBased(p, y, op, x); }
      hide Based;
    case Connect(_) =>
      forall x | x != "" ensures Based(SysStep(p, y, op), x) { ConnectBased(p, y, op, x); }
      hide Based;
    case _ =>
      hide Viewed, LastTold, Receive, ArrivalChoices, Pulled;
      assert forall x | x != "" :: Based(y, x) ==> Based(SysStep(p, y, op), x);
      hide Based;
  }

  lemma {:induction false} RunSerial(cfg: Config, p: Setup, y: System, ops: seq<SysOp>)
    requires SerialInv(y) && SysLegalRun(p, y, ops) && SerialRun(cfg, p, y, ops)
    ensures SerialInv(SysExec(p, y, ops))
    decreases |ops|
  {
    hide SerialInv, SerialStep, SysStep, SysLegal;
    if ops != [] {
      StepSerial(cfg, p, y, ops[0]);
      RunSerial(cfg, p, SysStep(p, y, ops[0]), ops[1..]);
    }
  }

  lemma QuietSerial()
    ensures SerialInv(QUIET)
  {
    InitInv();
  }

  /** A clean connection carried all that its hello did not know. */
  lemma CleanArrives(y: System, x: string)
    requires SerialInv(y) && y.up && y.out.clean && x != ""
    ensures Arrived(y.hello, y.carried, x) == LiveState(y.laptop, x)
  {
    hide Viewed, LastTold, TailQueued, LiveState;
    assert Based(y, x);
    InvParts(y.laptop);
    LogTellsLive(y.laptop, x);
    var log, n := y.laptop.log, |y.laptop.log| - |y.carried|;
    assert log == log[..n] + y.carried;
    LastToldConcat(log[..n], y.carried, x);
  }

  /** In every serial run: a bridge that is up, has lost nothing since its hello and has delivered all it holds
      has left a session in the laptop's state in the cloud, a DEAD row counting as no row, unless a frame missed
      it on the way. */
  lemma {:induction false} CleanConverges(cfg: Config, p: Setup, ops: seq<SysOp>, x: string)
    requires SysLegalRun(p, QUIET, ops) && SerialRun(cfg, p, QUIET, ops) && NeverMissed(p, QUIET, ops, x) && x != ""
    requires var y := SysExec(p, QUIET, ops); AllDelivered(y) && y.out.clean
    ensures var y := SysExec(p, QUIET, ops); LiveState(y.cloud, x) == LiveState(y.laptop, x)
  {
    hide SysLegalRun, SysExec, SerialRun, NeverMissed, LiveState, Connected, SerialInv, Arrived;
    QuietConnected();
    QuietSerial();
    var y := SysExec(p, QUIET, ops);
    RunInTouch(p, QUIET, ops, x);
    RunSerial(cfg, p, QUIET, ops);
    DeliveredIs(y, x);
    CleanArrives(y, x);
  }

  // ── no thread serves two sessions ─────────────────────────────────────

  ghost predicate OwnsThreads(owner: string -> string, s: State) {
    forall id | id in s.sessions :: owner(s.sessions[id].threadID) == id
  }

  /** Both sides derive thread ids alike, and never an empty one. */
  ghost predicate SameDerivation(cfg: Config, p: Setup) {
    forall a, c :: cfg.env.threadIDFor(a, c) != "" && p.cloud.env.threadIDFor(a, c) == cfg.env.threadIDFor(a, c)
  }

  ghost predicate OwnedRun(owner: string -> string, p: Setup, y: System, ops: seq<SysOp>)
    requires SysLegalRun(p, y, ops)
    decreases |ops|
  {
    ops != [] ==>
      && (ops[0].Local? ==> OwnsThreads(owner, ops[0].next))
      && OwnedRun(owner, p, SysStep(p, y, ops[0]), ops[1..])
  }

  ghost predicate Sent(owner: string -> string, b: Broadcast) {
    Decode(b).Some? ==> b.sid != "" && b.thread != "" && owner(b.thread) == b.sid
  }

  ghost predicate Presented(cfg: Config, owner: string -> string, v: SessionView) {
    Counted(v) ==> owner(cfg.env.threadIDFor(AgentOr(v.agent), v.cwd)) == v.sid
  }

  ghost predicate Shipped(cfg: Config, owner: string -> string, packet: Packet) {
    match packet
    case Hello(views) => forall v | v in views :: Presented(cfg, owner, v)
    case Frame(b) => Sent(owner, b) && Said(b)
  }

  ghost predicate CloudOwned(owner: string -> string, s: State) {
    IndexAgrees(s) && OwnsThreads(owner, s)
  }

  ghost predicate OwnedInv(cfg: Config, owner: string -> string, y: System) {
    && Inv(y.laptop) && RowsDerived(cfg, y.laptop) && OwnsThreads(owner, y.laptop)
    && (forall b | b in y.out.queue :: Sent(owner, b) && Said(b))
    && (forall i | 0 <= i < |y.wire| :: Shipped(cfg, owner, y.wire[i]) && (y.wire[i].Hello? ==> i == 0))
    && (y.up && (y.wire == [] || y.wire[0].Frame?) ==> CloudOwned(owner, y.cloud))
  }

  lemma LocalOwned(cfg: Config, owner: string -> string, p: Setup, y: System, op: SysOp)
    requires SameDerivation(cfg, p) && OwnedInv(cfg, owner, y) && op.Local? && SysLegal(p, y, op)
    requires SerialStep(cfg, y.laptop, op.next) && OwnsThreads(owner, op.next)
    ensures OwnedInv(cfg, owner, SysStep(p, y, op))
  {
    LocalIs(p, y, op);
    SerialKeeps(cfg, y.laptop, op.next);
    hide SysStep, Inv, SerialStep, CloudOwned, Shipped, StepTells, IndexAgrees;
    var s, s' := y.laptop, op.next;
    var news := s'.log[|s.log|..];
    forall b | b in news ensures Sent(owner, b) && Said(b) {
      assert Spoken(s', b);
    }
    TakenIsNews(y.out, news, p.depth);
  }

  lemma ViewsPresented(cfg: Config, owner: string -> string, s: State, order: seq<string>)
    requires RowsNamed(s) && RowsDerived(cfg, s) && OwnsThreads(owner, s)
    requires forall id | id in order :: id in s.sessions
    ensures forall v | v in Views(s.sessions, order) :: Presented(cfg, owner, v)
  {
    forall v | v in Views(s.sessions, order) ensures Presented(cfg, owner, v) {
      var i :| 0 <= i < |order| && v == ViewOf(s.sessions[order[i]]);
      assert order[i] in order;
    }
  }

  lemma SyncOneOwned(cfg: Config, owner: string -> string, p: Setup, s: State, v: SessionView, now: int,
      choice: Option<string>)
    requires SameDerivation(cfg, p) && (Counted(v) ==> CreateChoice(p.cloud, s, v.sid, choice))
    requires CloudOwned(owner, s) && Presented(cfg, owner, v)
    ensures CloudOwned(owner, SyncOne(p.cloud, s, v, now, choice))
  {
    hide CreateChoice, IndexAgrees, GetOrCreate, SyncRow;
    if Counted(v) {
      SyncOneKeeps(p.cloud, s, v, now, choice);
      hide SyncOne;
    }
  }

  lemma {:induction false} SyncOwned(cfg: Config, owner: string -> string, p: Setup, s: State, views: seq<SessionView>,
      now: int, choices: seq<Option<string>>)
    requires SameDerivation(cfg, p) && SyncChoices(p.cloud, s, views, now, choices) && CloudOwned(owner, s)
    requires forall v | v in views :: Presented(cfg, owner, v)
    ensures CloudOwned(owner, SyncSessions(p.cloud, s, views, now, choices))
    decreases |views|
  {
    hide SyncOne, CreateChoice, CloudOwned, Presented, SameDerivation;
    if views != [] {
      assert views[0] in views;
      SyncOneOwned(cfg, owner, p, s, views[0], now, choices[0]);
      SyncOwned(cfg, owner, p, SyncOne(p.cloud, s, views[0], now, choices[0]), views[1..], now, choices[1..]);
    }
  }

  lemma FrameOwned(owner: string -> string, p: Setup, s: State, b: Broadcast, op: SysOp)
    requires op.Arrive? && FrameChoices(p.cloud, s, b, op.best, op.choice) && Sent(owner, b) && Said(b)
    requires CloudOwned(owner, s)
    ensures CloudOwned(owner, ApplyUpstream(p.cloud, s, b, op.now, op.best, op.choice))
    ensures Decode(b).Some? && op.best.Some? ==> b.sid in s.sessions
  {
    hide ApplyUpstream, CreateChoice;
    if op.best.Some? {
      assert s.sessions[op.best.value].threadID == b.thread;
    }
    if UpstreamTarget(s, b, op.best).Some? {
      FrameHits(p.cloud, s, b, op.now, op.best, op.choice);
    } else {
      UntargetedIsIdle(p.cloud, s, b, op.now, op.best, op.choice);
    }
  }

  /** Where no thread serves two sessions every frame lands. */
  lemma ArriveOwned(cfg: Config, owner: string -> string, p: Setup, y: System, op: SysOp)
    requires SameDerivation(cfg, p) && OwnedInv(cfg, owner, y) && op.Arrive? && SysLegal(p, y, op)
    ensures OwnedInv(cfg, owner, SysStep(p, y, op)) && Lands(y, op)
  {
    hide Inv, RowsDerived, OwnsThreads, SyncSessions, SyncChoices, ApplyUpstream, FrameChoices, SameDerivation;
    hide Presented, Sent, Said, IndexAgrees;
    assert Shipped(cfg, owner, y.wire[0]);
    match y.wire[0] {
      case Hello(views) =>
        HelloDoes(p, y.cloud, views, op.now, op.choices, "any");
        DropKeepsIndex(y.cloud);
        assert CloudOwned(owner, DropAll(y.cloud)) by { NothingOwned(owner, y.cloud); }
        SyncOwned(cfg, owner, p, DropAll(y.cloud), views, op.now, op.choices);
      case Frame(b) =>
        FrameOwned(owner, p, y.cloud, b, op);
    }
    hide CloudOwned;
  }

  lemma NothingOwned(owner: string -> string, s: State)
    ensures CloudOwned(owner, DropAll(s))
  {
    DropKeepsIndex(s);
  }

  lemma StepOwned(cfg: Config, owner: string -> string, p: Setup, y: System, op: SysOp)
    requires SameDerivation(cfg, p) && OwnedInv(cfg, owner, y) && SysLegal(p, y, op)
    requires op.Local? ==> SerialStep(cfg, y.laptop, op.next) && OwnsThreads(owner, op.next)
    ensures OwnedInv(cfg, owner, SysStep(p, y, op)) && Lands(y, op)
  {
    match op
    case Local(_) => hide *; LocalOwned(cfg, owner, p, y, op); LandsElse(y, op);
    case Connect(_) =>
      InvParts(y.laptop);
      ViewsPresented(cfg, owner, y.laptop, op.order);
      hide Inv, RowsDerived, OwnsThreads, Sent, Said, CloudOwned, Presented;
    case Pump => hide Inv, RowsDerived, OwnsThreads, Sent, Said, CloudOwned;
    case Arrive(_, _, _, _) => hide *; ArriveOwned(cfg, owner, p, y, op);
    case Cut(_, _) => hide Inv, RowsDerived, OwnsThreads, Sent, Said, CloudOwned, Shipped;
  }

  lemma LandsElse(y: System, op: SysOp)
    requires !op.Arrive?
    ensures Lands(y, op)
  {
  }

  lemma {:induction false} OwnedIsNeverMissed(cfg: Config, owner: string -> string, p: Setup, y: System,
      ops: seq<SysOp>, x: string)
    requires SameDerivation(cfg, p) && OwnedInv(cfg, owner, y) && Connected(y)
    requires SysLegalRun(p, y, ops) && SerialRun(cfg, p, y, ops) && OwnedRun(owner, p, y, ops)
    ensures NeverMissed(p, y, ops, x)
    decreases |ops|
  {
    hide OwnedInv, Connected, SameDerivation, SerialStep, OwnsThreads, Lands, Misses, SysStep, SysLegal;
    if ops != [] {
      StepConnected(p, y, ops[0]);
      StepOwned(cfg, owner, p, y, ops[0]);
      LandsMissesNone(p, y, ops[0], x);
      OwnedIsNeverMissed(cfg, owner, p, SysStep(p, y, ops[0]), ops[1..], x);
    }
  }

  lemma QuietOwned(cfg: Config, owner: string -> string)
    ensures OwnedInv(cfg, owner, QUIET)
  {
    InitInv();
  }

  /** In every serial run with both sides deriving thread ids alike and no thread serving two sessions: a bridge
      that is up, has lost nothing since its hello and has delivered all it holds has left every session of the
      cloud in the laptop's state, a DEAD row counting as no row. */
  lemma {:induction false} MirrorConverges(cfg: Config, owner: string -> string, p: Setup, ops: seq<SysOp>, x: string)
    requires SameDerivation(cfg, p) && x != ""
    requires SysLegalRun(p, QUIET, ops) && SerialRun(cfg, p, QUIET, ops) && OwnedRun(owner, p, QUIET, ops)
    requires var y := SysExec(p, QUIET, ops); AllDelivered(y) && y.out.clean
    ensures var y := SysExec(p, QUIET, ops); LiveState(y.cloud, x) == LiveState(y.laptop, x)
  {
    hide *;
    QuietConnected();
    QuietOwned(cfg, owner);
    OwnedIsNeverMissed(cfg, owner, p, QUIET, ops, x);
    CleanConverges(cfg, p, ops, x);
  }

  // ── what a full buffer costs ──────────────────────────────────────────

  lemma {:induction false} UntoldFrames(q: seq<Broadcast>, x: string)
    requires forall b | b in q :: Decode(b).None?
    ensures LastTold(q, x) == None
    decreases |q|
  {
    if q != [] {
      assert q[|q| - 1] in q;
      UntoldFrames(q[..|q| - 1], x);
    }
  }

  /** Frames of one operation that did not all fit tell nothing: the telling one comes last. */
  lemma TakenTells(o: Outbound, s: State, s': State, depth: nat, x: string)
    requires StepTells(s, s') && Taken(o, s'.log[|s.log|..], depth) != s'.log[|s.log|..]
    ensures LastTold(Taken(o, s'.log[|s.log|..], depth), x) == None
  {
    hide Delta;
    var news := s'.log[|s.log|..];
    var more := Taken(o, news, depth);
    forall b | b in more ensures Decode(b).None? {
      var i :| 0 <= i < |more| && b == more[i];
      assert b == news[i];
    }
    UntoldFrames(more, x);
  }

  lemma InvOf(y: System)
    requires SerialInv(y)
    ensures Inv(y.laptop)
  {
  }

  lemma LocalInTouch(p: Setup, y: System, op: SysOp, x: string)
    requires InTouch(y, x) && op.Local? && SysLegal(p, y, op)
    ensures InTouch(SysStep(p, y, op), x)
  {
    LocalIs(p, y, op);
    hide SysStep, Proceeds, LiveState, Arrived, Taken;
  }

  lemma AfterLocal(cfg: Config, p: Setup, y: System, op: SysOp, x: string)
    requires SerialInv(y) && Connected(y) && InTouch(y, x) && op.Local? && SysLegal(p, y, op)
    requires SerialStep(cfg, y.laptop, op.next)
    ensures |y.laptop.log| <= |op.next.log|
    ensures var y' := SysStep(p, y, op); var more := Taken(y.out, op.next.log[|y.laptop.log|..], p.depth);
      && Connected(y') && SerialInv(y') && InTouch(y', x) && StepTells(y.laptop, op.next)
      && y'.laptop == op.next && y'.carried == y.carried + more && y'.hello == y.hello && y'.up == y.up
      && (more == op.next.log[|y.laptop.log|..] ==> y'.out.clean == y.out.clean)
  {
    LocalIs(p, y, op);
    StepConnected(p, y, op);
    StepSerial(cfg, p, y, op);
    InvOf(y);
    SerialKeeps(cfg, y.laptop, op.next);
    LocalInTouch(p, y, op, x);
    hide SysStep, SerialInv, Connected, InTouch, StepTells, SerialStep, Taken, Inv, RowsNamed, Said, Spoken;
  }

  /** One operation against a clean connection in touch: when all is delivered the two sides agree on a session
      exactly if the operation's frames all fitted in the buffer, or left the session's live state alone. */
  lemma DropDecides(cfg: Config, p: Setup, y: System, op: SysOp, ops: seq<SysOp>, x: string)
    requires SerialInv(y) && Connected(y) && InTouch(y, x) && y.up && y.out.clean && x != ""
    requires op.Local? && SysLegal(p, y, op) && SerialStep(cfg, y.laptop, op.next)
    requires SysLegalRun(p, SysStep(p, y, op), ops) && Delivers(ops) && NeverMissed(p, SysStep(p, y, op), ops, x)
    requires AllDelivered(SysExec(p, SysStep(p, y, op), ops))
    ensures var z := SysExec(p, SysStep(p, y, op), ops); var s, s' := y.laptop, z.laptop;
      && |s.log| <= |s'.log|
      && (LiveState(z.cloud, x) == LiveState(z.laptop, x)
          <==> Taken(y.out, s'.log[|s.log|..], p.depth) == s'.log[|s.log|..] || LiveState(s', x) == LiveState(s, x))
  {
    var y' := SysStep(p, y, op);
    AfterLocal(cfg, p, y, op, x);
    hide SysStep, SysLegal, SysLegalRun, SysExec, NeverMissed, SerialInv, Connected, InTouch, LiveState, Viewed;
    hide LastTold, StepTells, SerialStep, Taken, AllDelivered;
    DeliveryKeeps(p, y', ops);
    RunInTouch(p, y', ops, x);
    DeliveredIs(SysExec(p, y', ops), x);
    var news := op.next.log[|y.laptop.log|..];
    var more := Taken(y.out, news, p.depth);
    CleanArrives(y, x);
    if more == news {
      CleanArrives(y', x);
    } else {
      TakenTells(y.out, y.laptop, op.next, p.depth, x);
      LastToldConcat(y.carried, more, x);
    }
  }
}
