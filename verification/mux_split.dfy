/** The mux with its lock given up around every sink call: any number of goroutines, cut at each
    broadcast. What still holds in every interleaving, and what a race can break. */
module MuxSplit {
  import opened Wire
  import opened MuxSpec
  import opened MuxInvariants
  import opened Upstream

  /** What a goroutine still has to do once it holds the lock again. A row is named by its id and
      its birth number, as the handle the goroutine kept across the unlocked call. */
  datatype Rest =
    | Nothing
    | Report(id: string, birth: nat, after: SessionState, at: int)
    | Rearm(id: string, birth: nat, after: SessionState)

  datatype Pc =
    | Sending(b: Broadcast, rest: Rest)
    | Waiting(rest: Rest)
    | Called(id: string)

  /** `grave` keeps the rows that left the table, which a goroutine may still point at; `changes` records
      every change a local operation made to a row's state, in the order the lock was held; `mistold` the
      ids of rows reported IDLE while awaiting permission. */
  datatype Machine = Machine(
    mux: State,
    births: map<string, nat>,
    nextBirth: nat,
    grave: map<nat, Row>,
    gos: map<nat, Pc>,
    changes: seq<(string, SessionState)>,
    mistold: seq<string>)

  const FRESH := Machine(INIT, map[], 0, map[], map[], [], [])

  datatype SplitOp =
    | BeginIngest(g: nat, ev: Event, now: int, choice: Option<string>)
    | BeginMarkDead(g: nat, id: string, now: int)
    | Expire(g: nat, timer: nat)
    | RunCallback(g: nat, now: int)
    | Hand(g: nat)
    | Resume(g: nat)
    | Collect(now: int)
    | Upstream(b: Broadcast, now: int, best: Option<string>, choice: Option<string>)
    | SyncView(v: SessionView, now: int, choice: Option<string>)
    | DropRow(id: string)

  /** Anything but what a peer's frames, its hello and its disconnect do. A hello's loop is one SyncView
      after another, a drop one DropRow after another: letting others in between only adds runs. */
  predicate Local(op: SplitOp) {
    !op.Upstream? && !op.SyncView? && !op.DropRow?
  }

  ghost predicate SplitLegal(cfg: Config, m: Machine, op: SplitOp) {
    match op
    case BeginIngest(g, ev, now, choice) => g !in m.gos && CreateChoice(cfg, m.mux, ev.sid, choice)
    case BeginMarkDead(g, id, now) => g !in m.gos
    case Expire(g, t) => g !in m.gos && t in m.mux.timers
    case RunCallback(g, now) => g in m.gos && m.gos[g].Called?
    case Hand(g) => g in m.gos && m.gos[g].Sending?
    case Resume(g) => g in m.gos && m.gos[g].Waiting?
    case Collect(now) => true
    case Upstream(b, now, best, choice) => !b.typ.NoType? ==> FrameChoices(cfg, m.mux, b, best, choice)
    case SyncView(v, now, choice) => Counted(v) ==> CreateChoice(cfg, m.mux, v.sid, choice)
    case DropRow(id) => true
  }

  // ── rows by handle ───────────────────────────────────────────────────

  predicate Current(m: Machine, id: string, birth: nat) {
    id in m.mux.sessions && id in m.births && m.births[id] == birth
  }

  function Born(m: Machine, id: string): nat {
    if id in m.births then m.births[id] else 0
  }

  /** Stops the row's timer through the handle. */
  function Disarm(m: Machine, id: string, birth: nat): Machine {
    if Current(m, id, birth) then m.(mux := ClearTimer(m.mux, id))
    else if birth in m.grave && m.grave[birth].timer.Some? then
      m.(mux := m.mux.(timers := m.mux.timers - {m.grave[birth].timer.value}),
         grave := m.grave[birth := m.grave[birth].(timer := None)])
    else m
  }

  /** Re-arms the row's timer through the handle; the callback will look the row up by id. */
  function ArmBy(m: Machine, id: string, birth: nat): Machine {
    if Current(m, id, birth) then m.(mux := Arm(m.mux, id))
    else if birth in m.grave then
      var m1 := Disarm(m, id, birth);
      var t := m1.mux.nextTimer;
      m1.(mux := m1.mux.(timers := m1.mux.timers[t := id], nextTimer := t + 1),
          grave := m1.grave[birth := m1.grave[birth].(timer := Some(t))])
    else m
  }

  function RowBy(m: Machine, id: string, birth: nat): Option<Row> {
    if Current(m, id, birth) then Some(m.mux.sessions[id])
    else if birth in m.grave then Some(m.grave[birth])
    else None
  }

  function Without(gos: map<nat, Pc>, g: nat): map<nat, Pc> {
    gos - {g}
  }

  /** Reports a state through the handle: stop the timer unless BUSY, take the frame in hand. */
  function ReportBy(cfg: Config, m: Machine, g: nat, rest: Rest): Machine
    requires rest.Report?
  {
    var m1 := if rest.after.Busy? || rest.after.Starting? then m else Disarm(m, rest.id, rest.birth);
    var row := RowBy(m, rest.id, rest.birth);
    if row.None? || TransitionFrames(cfg, row.value, rest.after, rest.at) == [] then m1.(gos := Without(m1.gos, g))
    else
      m1.(gos := m1.gos[g := Sending(TransitionFrames(cfg, row.value, rest.after, rest.at)[0],
                                     Rearm(rest.id, rest.birth, rest.after))],
          mistold := if ToldAs(row.value.state, rest.after) != rest.after then m1.mistold + [rest.id] else m1.mistold)
  }

  /** The state the frame for a change to `after` tells, made when the row is in state `now`: an IDLE frame
      says what the row is waiting for at that time. */
  function ToldAs(now: SessionState, after: SessionState): SessionState {
    if after.Idle? && now.AwaitingPermission? then AwaitingPermission else after
  }

  /** The table turned into `mux`, in which at most `id` is new and at most `gone` is missing. */
  function Rebirth(m: Machine, mux: State, id: string, gone: Option<string>): Machine {
    var isNew := id !in m.mux.sessions && id in mux.sessions;
    m.(mux := mux,
       births := if isNew then m.births[id := m.nextBirth] else m.births,
       nextBirth := if isNew then m.nextBirth + 1 else m.nextBirth,
       grave := if gone.Some? && gone.value in m.mux.sessions && gone.value !in mux.sessions
                then m.grave[Born(m, gone.value) := m.mux.sessions[gone.value]] else m.grave)
  }

  // ── the locked segments ───────────────────────────────────────────────

  /** Ingest up to its first unlock: stamp, look up or create, absorb. */
  function Entered(cfg: Config, m: Machine, ev: Event, now: int, choice: Option<string>): Machine {
    var mux := Admit(cfg, m.mux, ev, now, choice);
    var after := mux.sessions[ev.sid].state;
    Rebirth(m, mux, ev.sid, choice)
      .(changes := if after != StateBefore(m.mux, ev.sid) then m.changes + [(ev.sid, after)] else m.changes)
  }

  function SplitStep(cfg: Config, m: Machine, op: SplitOp): Machine {
    match op
    case BeginIngest(g, ev, now, choice) =>
      if !Wellformed(ev) || Duplicate(cfg, m.mux.recent, ev, now) then m
      else
        var m1 := Entered(cfg, m, ev, now, choice);
        var row, at := m1.mux.sessions[ev.sid], ObservedAt(ev, now);
        var report := Report(ev.sid, Born(m1, ev.sid), row.state, at);
        if ev.sid !in m.mux.sessions then m1.(gos := m1.gos[g := Sending(StartedFrame(row, at), report)])
        else if row.state != m.mux.sessions[ev.sid].state then ReportBy(cfg, m1, g, report)
        else if row.state.Busy? then ArmBy(m1, ev.sid, Born(m1, ev.sid))
        else m1
    case BeginMarkDead(g, id, now) =>
      if !IsLive(m.mux.sessions, id) then m
      else
        m.(mux := Bury(m.mux, id), changes := m.changes + [(id, Dead)],
           gos := m.gos[g := Sending(EndedFrame(m.mux.sessions[id], now), Nothing)])
    case Expire(g, t) =>
      if t !in m.mux.timers then m
      else m.(mux := m.mux.(timers := m.mux.timers - {t}), gos := m.gos[g := Called(m.mux.timers[t])])
    case RunCallback(g, now) =>
      if g !in m.gos || !m.gos[g].Called? then m
      else
        var id := m.gos[g].id;
        if id !in m.mux.sessions || !m.mux.sessions[id].state.Busy? then m.(gos := Without(m.gos, g))
        else
          var row := m.mux.sessions[id].(state := Idle);
          m.(mux := m.mux.(sessions := m.mux.sessions[id := row]), changes := m.changes + [(id, Idle)],
             gos := m.gos[g := Sending(IdleFrame(cfg, row, true, now), Nothing)])
    case Hand(g) =>
      if g !in m.gos || !m.gos[g].Sending? then m
      else m.(mux := Emit(m.mux, m.gos[g].b), gos := m.gos[g := Waiting(m.gos[g].rest)])
    case Resume(g) =>
      if g !in m.gos || !m.gos[g].Waiting? then m
      else
        (match m.gos[g].rest
         case Nothing => m.(gos := Without(m.gos, g))
         case Report(_, _, _, _) => ReportBy(cfg, m, g, m.gos[g].rest)
         case Rearm(id, birth, after) =>
           var m1 := m.(gos := Without(m.gos, g));
           if after.Busy? then ArmBy(m1, id, birth) else m1)
    case Collect(now) => m.(mux := Gc(cfg, m.mux, now))
    case Upstream(b, now, best, choice) => Rebirth(m, ApplyUpstream(cfg, m.mux, b, now, best, choice), b.sid, choice)
    case SyncView(v, now, choice) => Rebirth(m, SyncOne(cfg, m.mux, v, now, choice), v.sid, choice)
    case DropRow(id) => Rebirth(m, Reap(m.mux, Some(id)), id, Some(id))
  }

  ghost predicate SplitLegalRun(cfg: Config, m: Machine, ops: seq<SplitOp>)
    decreases |ops|
  {
    ops != [] ==> SplitLegal(cfg, m, ops[0]) && SplitLegalRun(cfg, SplitStep(cfg, m, ops[0]), ops[1..])
  }

  function SplitExec(cfg: Config, m: Machine, ops: seq<SplitOp>): Machine
    decreases |ops|
  {
    if ops == [] then m else SplitExec(cfg, SplitStep(cfg, m, ops[0]), ops[1..])
  }

  // ── every interleaving: the maps agree ────────────────────────────────

  ghost predicate TableKept(s: State) {
    IndexAgrees(s) && RowsNamed(s)
  }

  /** Birth numbers tell the rows of the table and the grave apart. */
  ghost predicate BirthsSound(m: Machine) {
    && (forall id | id in m.mux.sessions :: id in m.births && m.births[id] < m.nextBirth && m.births[id] !in m.grave)
    && (forall b | b in m.grave :: b < m.nextBirth)
    && (forall id, x | id in m.mux.sessions && x in m.mux.sessions && id != x :: m.births[id] != m.births[x])
  }

  ghost predicate Sound(m: Machine) {
    TableKept(m.mux) && BirthsSound(m) && forall g | g in m.gos :: PcSound(m, m.gos[g])
  }

  /** A handle names a row that exists, in the table or in the grave, under its own id. */
  ghost predicate Points(m: Machine, id: string, birth: nat) {
    Current(m, id, birth) || (birth in m.grave && m.grave[birth].id == id)
  }

  ghost predicate PcSound(m: Machine, pc: Pc) {
    match pc
    case Sending(b, rest) => RestSound(m, rest) && (rest.Report? ==> Decode(b).None?)
    case Waiting(rest) => RestSound(m, rest)
    case Called(_) => true
  }

  ghost predicate RestSound(m: Machine, rest: Rest) {
    match rest
    case Nothing => true
    case Report(id, birth, after, _) => Points(m, id, birth) && !after.Starting?
    case Rearm(id, birth, _) => Points(m, id, birth)
  }

  ghost predicate SameButTimer(r: Row, r': Row) {
    r' == r.(timer := r'.timer)
  }

  /** Only timer handles and pending timers differ. */
  ghost predicate TimersOnly(m: Machine, m': Machine) {
    && m'.mux.threads == m.mux.threads && m'.mux.recent == m.mux.recent && m'.mux.log == m.mux.log
    && m'.mux.sessions.Keys == m.mux.sessions.Keys
    && (forall id | id in m.mux.sessions :: SameButTimer(m.mux.sessions[id], m'.mux.sessions[id]))
    && m'.births == m.births && m'.nextBirth == m.nextBirth && m'.gos == m.gos && m'.changes == m.changes
    && m'.mistold == m.mistold && m'.grave.Keys == m.grave.Keys
    && (forall b | b in m.grave :: SameButTimer(m.grave[b], m'.grave[b]))
  }

  lemma DisarmIsTimersOnly(m: Machine, id: string, birth: nat)
    ensures TimersOnly(m, Disarm(m, id, birth))
  {
    if Current(m, id, birth) {
      ClearTouches(m.mux, id);
      ClearKeepsLog(m.mux, id);
      hide ClearTimer;
    }
  }

  lemma ArmIsTimersOnly(m: Machine, id: string, birth: nat)
    ensures TimersOnly(m, ArmBy(m, id, birth))
  {
    if Current(m, id, birth) {
      ArmTouches(m.mux, id);
      assert Arm(m.mux, id).log == m.mux.log;
      hide Arm;
    } else {
      DisarmIsTimersOnly(m, id, birth);
      hide Disarm;
    }
  }

  lemma TimersOnlySound(m: Machine, m': Machine)
    requires TimersOnly(m, m') && Sound(m)
    ensures Sound(m')
  {
    assert IndexAgrees(m'.mux) by { SameThreadsKeepIndex(m.mux, m'.mux); }
    hide IndexAgrees;
    forall g | g in m'.gos ensures PcSound(m', m'.gos[g]) {
      assert PcSound(m, m.gos[g]);
    }
  }

  /** No handle is lost from `m` to `m'`. */
  ghost predicate HandlesKept(m: Machine, m': Machine) {
    forall id, birth :: Points(m, id, birth) ==> Points(m', id, birth)
  }

  lemma PcsKept(m: Machine, m': Machine, g: nat)
    requires HandlesKept(m, m') && g in m.gos && PcSound(m, m.gos[g])
    ensures PcSound(m', m.gos[g])
  {
  }

  /** No row but `id` is new and none but `gone` is missing. */
  ghost predicate Followed(s: State, s': State, id: string, gone: Option<string>) {
    && (forall x | x in s'.sessions && x != id :: x in s.sessions)
    && (forall x | x in s.sessions && x !in s'.sessions :: gone == Some(x))
  }

  lemma RebirthBirths(m: Machine, mux: State, id: string, gone: Option<string>)
    requires BirthsSound(m) && Followed(m.mux, mux, id, gone)
    ensures BirthsSound(Rebirth(m, mux, id, gone))
  {
  }

  lemma RebirthHandles(m: Machine, mux: State, id: string, gone: Option<string>)
    requires BirthsSound(m) && RowsNamed(m.mux) && Followed(m.mux, mux, id, gone)
    ensures var m' := Rebirth(m, mux, id, gone);
      HandlesKept(m, m') && (id in mux.sessions ==> Current(m', id, Born(m', id)))
  {
  }

  /** A table that follows on from a sound machine's gives a sound machine. */
  lemma RebirthSound(m: Machine, mux: State, id: string, gone: Option<string>)
    requires Sound(m) && TableKept(mux) && Followed(m.mux, mux, id, gone)
    ensures Sound(Rebirth(m, mux, id, gone))
  {
    hide BirthsSound, PcSound, HandlesKept, Followed, TableKept, IndexAgrees;
    var m' := Rebirth(m, mux, id, gone);
    NamedRows(m.mux);
    RebirthBirths(m, mux, id, gone);
    RebirthHandles(m, mux, id, gone);
    forall g | g in m'.gos ensures PcSound(m', m'.gos[g]) {
      PcsKept(m, m', g);
    }
  }

  lemma NamedRows(s: State)
    requires TableKept(s)
    ensures RowsNamed(s) && IndexAgrees(s)
  {
  }

  lemma AdmitFollows(cfg: Config, s: State, ev: Event, now: int, choice: Option<string>)
    requires TableKept(s) && CreateChoice(cfg, s, ev.sid, choice) && Wellformed(ev)
    ensures var s' := Admit(cfg, s, ev, now, choice);
      Followed(s, s', ev.sid, choice) && TableKept(s') && s'.log == s.log && !s'.sessions[ev.sid].state.Starting?
  {
    hide Admit, IndexAgrees, CreateChoice;
    AdmitKeepsOthers(cfg, s, ev, now, choice);
    AdmitKeepsIndex(cfg, s, ev, now, choice);
    OnlyChoiceGoes(cfg, s, ev, now, choice);
  }

  lemma EnteredSound(cfg: Config, m: Machine, ev: Event, now: int, choice: Option<string>)
    requires Sound(m) && CreateChoice(cfg, m.mux, ev.sid, choice) && Wellformed(ev)
    ensures var m' := Entered(cfg, m, ev, now, choice);
      Sound(m') && Current(m', ev.sid, Born(m', ev.sid)) && m'.gos == m.gos && m'.mux.log == m.mux.log
      && m'.mistold == m.mistold && !m'.mux.sessions[ev.sid].state.Starting?
  {
    hide Admit, TableKept, CreateChoice, BirthsSound, PcSound, HandlesKept, Followed, StateBefore;
    var mux := Admit(cfg, m.mux, ev, now, choice);
    AdmitFollows(cfg, m.mux, ev, now, choice);
    NamedRows(m.mux);
    RebirthSound(m, mux, ev.sid, choice);
    RebirthHandles(m, mux, ev.sid, choice);
    ChangesOnly(Rebirth(m, mux, ev.sid, choice), Entered(cfg, m, ev, now, choice));
  }

  lemma ChangesOnly(m: Machine, m': Machine)
    requires Sound(m) && m' == m.(changes := m'.changes)
    ensures Sound(m')
  {
    hide TableKept;
    forall g | g in m'.gos ensures PcSound(m', m'.gos[g]) {
      assert PcSound(m, m.gos[g]);
    }
  }

  /** Only the row chosen for reaping can leave the table. */
  lemma OnlyChoiceGoes(cfg: Config, s: State, ev: Event, now: int, choice: Option<string>)
    ensures forall x | x in s.sessions && x !in Admit(cfg, s, ev, now, choice).sessions :: choice == Some(x)
  {
    hide NewRow, Absorb, Link, Unlink;
  }

  lemma GoSet(m: Machine, g: nat, pc: Pc)
    requires Sound(m) && PcSound(m, pc)
    ensures Sound(m.(gos := m.gos[g := pc]))
  {
    var m' := m.(gos := m.gos[g := pc]);
    hide TableKept;
    forall x | x in m'.gos ensures PcSound(m', m'.gos[x]) {
      assert PcSound(m, m'.gos[x]);
    }
  }

  lemma GoGone(m: Machine, g: nat)
    requires Sound(m)
    ensures Sound(m.(gos := Without(m.gos, g)))
  {
    var m' := m.(gos := Without(m.gos, g));
    hide TableKept;
    forall x | x in m'.gos ensures PcSound(m', m'.gos[x]) {
      assert PcSound(m, m.gos[x]);
    }
  }

  lemma FrameOfReport(cfg: Config, r: Row, after: SessionState, at: int)
    requires !after.Starting?
    ensures |TransitionFrames(cfg, r, after, at)| == 1
    ensures var b := TransitionFrames(cfg, r, after, at)[0]; b.sid == r.id && Decode(b) == Some(ToldAs(r.state, after))
  {
  }

  /** A report through a sound handle leaves in the goroutine's hand a frame that tells the reported state,
      unless it reports IDLE of a row that is awaiting permission by then. */
  lemma ReportSound(cfg: Config, m: Machine, g: nat, rest: Rest) returns (b: Broadcast)
    requires Sound(m) && rest.Report? && RestSound(m, rest)
    ensures RowBy(m, rest.id, rest.birth).Some?
    ensures var m' := ReportBy(cfg, m, g, rest);
      var told := ToldAs(RowBy(m, rest.id, rest.birth).value.state, rest.after);
      && Sound(m') && m'.mux.log == m.mux.log && m'.changes == m.changes
      && m'.gos == m.gos[g := Sending(b, Rearm(rest.id, rest.birth, rest.after))]
      && Decode(b) == Some(told) && b.sid == rest.id
      && m'.mistold == if told != rest.after then m.mistold + [rest.id] else m.mistold
  {
    hide TransitionFrames, BirthsSound, IndexAgrees, Disarm;
    var m1 := if rest.after.Busy? || rest.after.Starting? then m else Disarm(m, rest.id, rest.birth);
    DisarmIsTimersOnly(m, rest.id, rest.birth);
    TimersOnlyIsReflexive(m);
    TimersOnlySound(m, m1);
    var row := RowBy(m, rest.id, rest.birth);
    assert row.Some? && row.value.id == rest.id;
    FrameOfReport(cfg, row.value, rest.after, rest.at);
    b := TransitionFrames(cfg, row.value, rest.after, rest.at)[0];
    assert Points(m1, rest.id, rest.birth);
    GoSet(m1, g, Sending(b, Rearm(rest.id, rest.birth, rest.after)));
    MistoldOnly(m1.(gos := m1.gos[g := Sending(b, Rearm(rest.id, rest.birth, rest.after))]), ReportBy(cfg, m, g, rest));
  }

  lemma MistoldOnly(m: Machine, m': Machine)
    requires Sound(m) && m' == m.(mistold := m'.mistold)
    ensures Sound(m')
  {
    hide TableKept;
    forall g | g in m'.gos ensures PcSound(m', m'.gos[g]) {
      assert PcSound(m, m.gos[g]);
    }
  }

  lemma TimersOnlyIsReflexive(m: Machine)
    ensures TimersOnly(m, m)
  {
  }

  lemma ArmSound(m: Machine, id: string, birth: nat)
    requires Sound(m)
    ensures Sound(ArmBy(m, id, birth)) && TimersOnly(m, ArmBy(m, id, birth))
  {
    hide ArmBy;
    ArmIsTimersOnly(m, id, birth);
    TimersOnlySound(m, ArmBy(m, id, birth));
  }

  // ── a peer's frames, hello and disconnect in between ──────────────────

  lemma UpstreamFollows(cfg: Config, s: State, b: Broadcast, now: int, best: Option<string>, choice: Option<string>)
    requires TableKept(s) && (!b.typ.NoType? ==> FrameChoices(cfg, s, b, best, choice))
    ensures var s' := ApplyUpstream(cfg, s, b, now, best, choice);
      TableKept(s') && Followed(s, s', b.sid, choice) && s'.log == s.log
  {
    hide IndexAgrees, ApplyUpstream;
    FrameKeepsIndex(cfg, s, b, now, best, choice);
    FrameFollows(cfg, s, b, now, best, choice);
  }

  lemma SyncFollows(cfg: Config, s: State, v: SessionView, now: int, choice: Option<string>)
    requires TableKept(s) && (Counted(v) ==> CreateChoice(cfg, s, v.sid, choice))
    ensures var s' := SyncOne(cfg, s, v, now, choice);
      TableKept(s') && Followed(s, s', v.sid, choice) && s'.log == s.log
  {
    hide IndexAgrees, SyncOne, CreateChoice;
    SyncOneTells(cfg, s, v, now, choice);
    SyncOneFollows(cfg, s, v, now, choice);
  }

  lemma DropFollows(s: State, id: string)
    requires TableKept(s)
    ensures var s' := Reap(s, Some(id));
      TableKept(s') && Followed(s, s', id, Some(id)) && s'.log == s.log
  {
    ReapKeepsIndex(s, Some(id));
    hide IndexAgrees, Unlink;
  }

  lemma PeerSound(cfg: Config, m: Machine, op: SplitOp)
    requires Sound(m) && Balanced(m) && !Local(op) && SplitLegal(cfg, m, op)
    ensures Sound(SplitStep(cfg, m, op)) && Balanced(SplitStep(cfg, m, op))
  {
    hide Balanced, TableKept, BirthsSound, PcSound, Followed, ApplyUpstream, SyncOne, Reap, FrameChoices, CreateChoice;
    match op
    case Upstream(b, now, best, choice) =>
      UpstreamFollows(cfg, m.mux, b, now, best, choice);
      RebirthSound(m, ApplyUpstream(cfg, m.mux, b, now, best, choice), b.sid, choice);
      SameChangesBalance(m, SplitStep(cfg, m, op));
    case SyncView(v, now, choice) =>
      SyncFollows(cfg, m.mux, v, now, choice);
      RebirthSound(m, SyncOne(cfg, m.mux, v, now, choice), v.sid, choice);
      SameChangesBalance(m, SplitStep(cfg, m, op));
    case DropRow(id) =>
      DropFollows(m.mux, id);
      RebirthSound(m, Reap(m.mux, Some(id)), id, Some(id));
      SameChangesBalance(m, SplitStep(cfg, m, op));
  }

  // ── every change of state is told exactly once ────────────────────────

  /** The frame a goroutine still has to hand over: of whom, and which state it is due to tell. */
  function Owes(pc: Pc): Option<(string, SessionState)> {
    match pc
    case Sending(b, rest) => if Decode(b).Some? then Some((b.sid, Decode(b).value)) else OwesLater(rest)
    case Waiting(rest) => OwesLater(rest)
    case Called(_) => None
  }

  function OwesLater(rest: Rest): Option<(string, SessionState)> {
    if rest.Report? then Some((rest.id, rest.after)) else None
  }

  function Owing(gos: map<nat, Pc>, k: (string, SessionState)): set<nat> {
    set g | g in gos && Owes(gos[g]) == Some(k)
  }

  /** How many frames of a session telling a state the sink was handed. */
  function Handed(log: seq<Broadcast>, k: (string, SessionState)): nat {
    if log == [] then 0
    else
      var b := log[|log| - 1];
      Handed(log[..|log| - 1], k) + (if Decode(b).Some? && (b.sid, Decode(b).value) == k then 1 else 0)
  }

  /** How often a local operation put a session in a state. */
  function Changed(changes: seq<(string, SessionState)>, k: (string, SessionState)): nat {
    if changes == [] then 0
    else
      Changed(changes[..|changes| - 1], k) + (if changes[|changes| - 1] == k then 1 else 0)
  }

  function Times(ids: seq<string>, id: string): nat {
    if ids == [] then 0 else Times(ids[..|ids| - 1], id) + (if ids[|ids| - 1] == id then 1 else 0)
  }

  /** What misreports move: a frame telling IDLE became one telling of a permission. */
  function Shift(mistold: seq<string>, k: (string, SessionState)): int {
    var times: int := Times(mistold, k.0);
    if k.1.Idle? then times else if k.1.AwaitingPermission? then -times else 0
  }

  ghost predicate Balanced(m: Machine) {
    forall k :: Handed(m.mux.log, k) + |Owing(m.gos, k)| + Shift(m.mistold, k) == Changed(m.changes, k)
  }

  function One(o: Option<(string, SessionState)>, k: (string, SessionState)): nat {
    if o == Some(k) then 1 else 0
  }

  lemma OwingSwap(gos: map<nat, Pc>, g: nat, pc: Pc, k: (string, SessionState))
    ensures Owing(gos[g := pc], k) == Owing(gos, k) - {g} + (if Owes(pc) == Some(k) then {g} else {})
    ensures g in Owing(gos, k) <==> g in gos && Owes(gos[g]) == Some(k)
  {
    hide Owes;
  }

  lemma OwingSet(gos: map<nat, Pc>, g: nat, pc: Pc, k: (string, SessionState))
    ensures |Owing(gos[g := pc], k)| ==
      |Owing(gos, k)| + One(Owes(pc), k) - (if g in gos then One(Owes(gos[g]), k) else 0)
  {
    hide Owes, Owing;
    OwingSwap(gos, g, pc, k);
    SwapSize(Owing(gos, k), g, Owes(pc) == Some(k));
  }

  lemma SwapSize(was: set<nat>, g: nat, add: bool)
    ensures |was - {g} + (if add then {g} else {})| == |was| - (if g in was then 1 else 0) + (if add then 1 else 0)
  {
    if add {
      assert (was - {g} + {g}) - {g} == was - {g};
    } else {
      assert was - {g} + {} == was - {g};
    }
  }

  lemma OwingGone(gos: map<nat, Pc>, g: nat, k: (string, SessionState))
    requires g in gos
    ensures |Owing(Without(gos, g), k)| == |Owing(gos, k)| - One(Owes(gos[g]), k)
  {
    hide Owes;
    assert Owing(Without(gos, g), k) == Owing(gos, k) - {g};
  }

  lemma HandedOne(log: seq<Broadcast>, b: Broadcast, k: (string, SessionState))
    ensures Handed(log + [b], k) == Handed(log, k) + (if Decode(b).Some? && (b.sid, Decode(b).value) == k then 1 else 0)
  {
    assert (log + [b])[..|log|] == log;
  }

  lemma ChangedOne(changes: seq<(string, SessionState)>, c: (string, SessionState), k: (string, SessionState))
    ensures Changed(changes + [c], k) == Changed(changes, k) + (if c == k then 1 else 0)
  {
    assert (changes + [c])[..|changes|] == changes;
  }

  lemma ShiftOne(mistold: seq<string>, id: string, k: (string, SessionState))
    ensures Shift(mistold + [id], k) ==
      Shift(mistold, k) + One(Some((id, Idle)), k) - One(Some((id, AwaitingPermission)), k)
  {
    assert (mistold + [id])[..|mistold|] == mistold;
  }

  /** What goroutine `g` owed becomes what it owes: the same, or a change just made, or a misreport. */
  predicate OwesAs(was: Option<(string, SessionState)>, now: Option<(string, SessionState)>,
                   change: Option<(string, SessionState)>, miss: Option<string>)
  {
    if change.Some? then was == None && now == change && miss == None
    else if miss.Some? then was == Some((miss.value, Idle)) && now == Some((miss.value, AwaitingPermission))
    else now == was
  }

  /** The balance survives when goroutine `g` moves to `pc` and the histories grow in step. */
  lemma MoveBalances(m: Machine, m': Machine, g: nat, pc: Option<Pc>, change: Option<(string, SessionState)>,
      miss: Option<string>)
    requires Balanced(m) && m'.mux.log == m.mux.log
    requires m'.gos == (match pc case Some(p) => m.gos[g := p] case None => Without(m.gos, g))
    requires pc.None? ==> g in m.gos
    requires m'.changes == if change.Some? then m.changes + [change.value] else m.changes
    requires m'.mistold == if miss.Some? then m.mistold + [miss.value] else m.mistold
    requires OwesAs(if g in m.gos then Owes(m.gos[g]) else None, if pc.Some? then Owes(pc.value) else None,
                    change, miss)
    ensures Balanced(m')
  {
    hide Owes, Handed, Changed, Owing, Shift;
    forall k ensures Handed(m'.mux.log, k) + |Owing(m'.gos, k)| + Shift(m'.mistold, k) == Changed(m'.changes, k) {
      if pc.Some? { OwingSet(m.gos, g, pc.value, k); } else { OwingGone(m.gos, g, k); }
      if change.Some? { ChangedOne(m.changes, change.value, k); }
      if miss.Some? { ShiftOne(m.mistold, miss.value, k); }
    }
  }

  lemma IngestSteps(cfg: Config, m: Machine, op: SplitOp)
    requires Sound(m) && Balanced(m) && op.BeginIngest? && SplitLegal(cfg, m, op)
    ensures Sound(SplitStep(cfg, m, op)) && Balanced(SplitStep(cfg, m, op))
    ensures SplitStep(cfg, m, op).mistold == m.mistold
  {
    hide Sound, Balanced, Entered, ReportBy, ArmBy, Duplicate, CreateChoice, StartedFrame, TimersOnly, RowBy;
    var g, ev := op.g, op.ev;
    if Wellformed(ev) && !Duplicate(cfg, m.mux.recent, ev, op.now) {
      var m1 := Entered(cfg, m, ev, op.now, op.choice);
      EnteredSound(cfg, m, ev, op.now, op.choice);
      EnteredChanges(cfg, m, ev, op.now, op.choice);
      var row, at := m1.mux.sessions[ev.sid], ObservedAt(ev, op.now);
      var report := Report(ev.sid, Born(m1, ev.sid), row.state, at);
      SoundRow(m1, ev.sid);
      var m' := SplitStep(cfg, m, op);
      var isNew := ev.sid !in m.mux.sessions;
      if isNew {
        var pc := Sending(StartedFrame(row, at), report);
        assert Decode(StartedFrame(row, at)).None? by { StartedTellsNothing(row, at); }
        GoSet(m1, g, pc);
        MoveBalances(m, m', g, Some(pc), Some((ev.sid, row.state)), None);
      } else if row.state != m.mux.sessions[ev.sid].state {
        var b := ReportSound(cfg, m1, g, report);
        OwnRow(m1, ev.sid);
        MoveBalances(m, m', g, Some(m'.gos[g]), Some((ev.sid, row.state)), None);
      } else {
        SameChangesBalance(m, m1);
        if row.state.Busy? {
          ArmSound(m1, ev.sid, Born(m1, ev.sid));
          assert TimersOnly(m1, m');
          TimersOnlyBalance(m1, m');
          ArmKeepsMistold(m1, m');
        }
      }
    }
  }

  lemma OwnRow(m: Machine, id: string)
    requires Current(m, id, Born(m, id))
    ensures RowBy(m, id, Born(m, id)) == Some(m.mux.sessions[id])
  {
  }

  lemma StartedTellsNothing(r: Row, at: int)
    ensures Decode(StartedFrame(r, at)).None?
  {
  }

  lemma SoundRow(m: Machine, id: string)
    requires Sound(m) && id in m.mux.sessions
    ensures m.mux.sessions[id].id == id && id != ""
  {
  }

  lemma EnteredChanges(cfg: Config, m: Machine, ev: Event, now: int, choice: Option<string>)
    requires ev.sid in Entered(cfg, m, ev, now, choice).mux.sessions
    requires !Entered(cfg, m, ev, now, choice).mux.sessions[ev.sid].state.Starting?
    ensures var m' := Entered(cfg, m, ev, now, choice); var after := m'.mux.sessions[ev.sid].state;
      m'.changes ==
        if ev.sid !in m.mux.sessions || after != m.mux.sessions[ev.sid].state then m.changes + [(ev.sid, after)]
        else m.changes
  {
    hide Admit, IndexAgrees, BirthsSound;
  }

  lemma SameChangesBalance(m: Machine, m': Machine)
    requires Balanced(m) && m'.mux.log == m.mux.log && m'.gos == m.gos && m'.changes == m.changes
    requires m'.mistold == m.mistold
    ensures Balanced(m')
  {
  }

  lemma TimersOnlyBalance(m: Machine, m': Machine)
    requires Balanced(m) && TimersOnly(m, m')
    ensures Balanced(m')
  {
  }

  lemma MarkDeadSteps(cfg: Config, m: Machine, op: SplitOp)
    requires Sound(m) && Balanced(m) && op.BeginMarkDead? && SplitLegal(cfg, m, op)
    ensures Sound(SplitStep(cfg, m, op)) && Balanced(SplitStep(cfg, m, op))
  {
    hide Balanced, IndexAgrees;
    if IsLive(m.mux.sessions, op.id) {
      var m' := SplitStep(cfg, m, op);
      var m1 := m.(mux := Bury(m.mux, op.id), changes := m.changes + [(op.id, Dead)]);
      var pc := Sending(EndedFrame(m.mux.sessions[op.id], op.now), Nothing);
      assert Owes(pc) == Some((op.id, Dead));
      RewriteSound(m, m1, op.id) by { ClearTouches(m.mux, op.id); }
      ClearKeepsLog(m.mux, op.id);
      hide Bury, EndedFrame, Sound, Owes;
      GoSet(m1, op.g, pc);
      MoveBalances(m, m', op.g, Some(pc), Some((op.id, Dead)), None);
    }
  }

  /** Giving one row another state, and nothing else but timers, keeps the machine sound. */
  lemma RewriteSound(m: Machine, m': Machine, id: string)
    requires Sound(m) && id in m.mux.sessions
    requires m'.mux.threads == m.mux.threads && m'.mux.sessions.Keys == m.mux.sessions.Keys
    requires forall x | x in m.mux.sessions && x != id :: m'.mux.sessions[x] == m.mux.sessions[x]
    requires var r, r' := m.mux.sessions[id], m'.mux.sessions[id]; r' == r.(state := r'.state, timer := r'.timer)
    requires m'.births == m.births && m'.nextBirth == m.nextBirth && m'.grave == m.grave && m'.gos == m.gos
    ensures Sound(m')
  {
    assert IndexAgrees(m'.mux) by { SameThreadsKeepIndex(m.mux, m'.mux); }
    hide IndexAgrees;
    forall g | g in m'.gos ensures PcSound(m', m'.gos[g]) {
      assert PcSound(m, m.gos[g]);
    }
  }

  lemma ExpireSteps(cfg: Config, m: Machine, op: SplitOp)
    requires Sound(m) && Balanced(m) && op.Expire? && SplitLegal(cfg, m, op)
    ensures Sound(SplitStep(cfg, m, op)) && Balanced(SplitStep(cfg, m, op))
  {
    hide Balanced, IdleFrame;
    var m' := SplitStep(cfg, m, op);
    var m1 := m.(mux := m.mux.(timers := m.mux.timers - {op.timer}));
    TimersOnlySound(m, m1);
    GoSet(m1, op.g, Called(m.mux.timers[op.timer]));
    MoveBalances(m, m', op.g, Some(m'.gos[op.g]), None, None);
  }

  lemma CallbackFires(cfg: Config, m: Machine, op: SplitOp)
    requires Sound(m) && Balanced(m) && op.RunCallback? && SplitLegal(cfg, m, op)
    requires var id := m.gos[op.g].id; id in m.mux.sessions && m.mux.sessions[id].state.Busy?
    ensures Sound(SplitStep(cfg, m, op)) && Balanced(SplitStep(cfg, m, op))
  {
    hide Balanced, IdleFrame, IndexAgrees;
    var m' := SplitStep(cfg, m, op);
    var id := m.gos[op.g].id;
    var row := m.mux.sessions[id].(state := Idle);
    var m1 := m.(mux := m.mux.(sessions := m.mux.sessions[id := row]), changes := m.changes + [(id, Idle)]);
    RewriteSound(m, m1, id);
    SoundRow(m, id);
    IdleFrameTells(cfg, row, true, op.now);
    hide Sound;
    GoSet(m1, op.g, m'.gos[op.g]);
    MoveBalances(m, m', op.g, Some(m'.gos[op.g]), Some((id, Idle)), None);
  }

  lemma CallbackSteps(cfg: Config, m: Machine, op: SplitOp)
    requires Sound(m) && Balanced(m) && op.RunCallback? && SplitLegal(cfg, m, op)
    ensures Sound(SplitStep(cfg, m, op)) && Balanced(SplitStep(cfg, m, op))
  {
    hide Balanced, Sound, IdleFrame;
    var id := m.gos[op.g].id;
    if id in m.mux.sessions && m.mux.sessions[id].state.Busy? {
      CallbackFires(cfg, m, op);
    } else {
      GoGone(m, op.g);
      MoveBalances(m, SplitStep(cfg, m, op), op.g, None, None, None);
    }
  }

  lemma TimerSteps(cfg: Config, m: Machine, op: SplitOp)
    requires Sound(m) && Balanced(m) && (op.Expire? || op.RunCallback?) && SplitLegal(cfg, m, op)
    ensures Sound(SplitStep(cfg, m, op)) && Balanced(SplitStep(cfg, m, op))
  {
    hide *;
    if op.Expire? {
      ExpireSteps(cfg, m, op);
    } else {
      CallbackSteps(cfg, m, op);
    }
  }

  lemma HandSteps(cfg: Config, m: Machine, op: SplitOp)
    requires Sound(m) && Balanced(m) && op.Hand? && SplitLegal(cfg, m, op)
    ensures Sound(SplitStep(cfg, m, op)) && Balanced(SplitStep(cfg, m, op))
  {
    var g, m' := op.g, SplitStep(cfg, m, op);
    var b, rest := m.gos[g].b, m.gos[g].rest;
    var m1 := m.(mux := Emit(m.mux, b));
    assert PcSound(m, m.gos[g]);
    assert Sound(m1) by { LogIsIdle(m, m1); }
    assert PcSound(m1, Waiting(rest));
    hide Sound, PcSound;
    GoSet(m1, g, Waiting(rest));
    hide Handed, Owing, Changed, Shift;
    forall k ensures Handed(m'.mux.log, k) + |Owing(m'.gos, k)| + Shift(m'.mistold, k) == Changed(m'.changes, k) {
      HandedOne(m.mux.log, b, k);
      OwingSet(m.gos, g, Waiting(rest), k);
      assert Handed(m.mux.log, k) + |Owing(m.gos, k)| + Shift(m.mistold, k) == Changed(m.changes, k);
    }
  }

  lemma LogIsIdle(m: Machine, m': Machine)
    requires Sound(m) && m' == m.(mux := m.mux.(log := m'.mux.log))
    ensures Sound(m')
  {
    forall g | g in m'.gos ensures PcSound(m', m'.gos[g]) {
      assert PcSound(m, m.gos[g]);
    }
  }

  lemma ResumeSteps(cfg: Config, m: Machine, op: SplitOp)
    requires Sound(m) && Balanced(m) && op.Resume? && SplitLegal(cfg, m, op)
    ensures Sound(SplitStep(cfg, m, op)) && Balanced(SplitStep(cfg, m, op))
    ensures SplitStep(cfg, m, op).mistold != m.mistold ==> m.gos[op.g].rest.Report?
  {
    hide Balanced, ReportBy, ArmBy, TableKept, BirthsSound, TimersOnly, RowBy;
    var g, m' := op.g, SplitStep(cfg, m, op);
    var rest := m.gos[g].rest;
    assert PcSound(m, m.gos[g]);
    match rest
    case Nothing =>
      GoGone(m, g);
      MoveBalances(m, m', g, None, None, None);
    case Report(id, birth, after, _) =>
      var b := ReportSound(cfg, m, g, rest);
      var told := ToldAs(RowBy(m, id, birth).value.state, after);
      MoveBalances(m, m', g, Some(m'.gos[g]), None, if told != after then Some(id) else None);
    case Rearm(id, birth, after) =>
      var m1 := m.(gos := Without(m.gos, g));
      GoGone(m, g);
      MoveBalances(m, m1, g, None, None, None);
      if after.Busy? {
        ArmSound(m1, id, birth);
        TimersOnlyBalance(m1, m');
        ArmKeepsMistold(m1, m');
      }
  }

  lemma ArmKeepsMistold(m: Machine, m': Machine)
    requires TimersOnly(m, m')
    ensures m'.mistold == m.mistold
  {
  }

  lemma StepSound(cfg: Config, m: Machine, op: SplitOp)
    requires Sound(m) && Balanced(m) && SplitLegal(cfg, m, op)
    ensures Sound(SplitStep(cfg, m, op)) && Balanced(SplitStep(cfg, m, op))
  {
    match op
    case BeginIngest(_, _, _, _) => hide *; IngestSteps(cfg, m, op);
    case BeginMarkDead(_, _, _) => hide *; MarkDeadSteps(cfg, m, op);
    case Expire(_, _) => hide *; TimerSteps(cfg, m, op);
    case RunCallback(_, _) => hide *; TimerSteps(cfg, m, op);
    case Hand(_) => hide *; HandSteps(cfg, m, op);
    case Resume(_) => hide *; ResumeSteps(cfg, m, op);
    case Collect(now) => GcSound(cfg, m, now);
    case Upstream(_, _, _, _) => PeerSound(cfg, m, op);
    case SyncView(_, _, _) => PeerSound(cfg, m, op);
    case DropRow(_) => PeerSound(cfg, m, op);
  }

  lemma GcSound(cfg: Config, m: Machine, now: int)
    requires Sound(m) && Balanced(m)
    ensures var m' := m.(mux := Gc(cfg, m.mux, now)); Sound(m') && Balanced(m')
  {
    hide MuxSpec.Collect;
    var m' := m.(mux := Gc(cfg, m.mux, now));
    forall g | g in m'.gos ensures PcSound(m', m'.gos[g]) {
      assert PcSound(m, m.gos[g]);
    }
  }

  lemma {:induction false} RunSound(cfg: Config, m: Machine, ops: seq<SplitOp>)
    requires Sound(m) && Balanced(m) && SplitLegalRun(cfg, m, ops)
    ensures Sound(SplitExec(cfg, m, ops)) && Balanced(SplitExec(cfg, m, ops))
    decreases |ops|
  {
    hide Sound, Balanced, SplitStep, SplitLegal;
    if ops != [] {
      StepSound(cfg, m, ops[0]);
      RunSound(cfg, SplitStep(cfg, m, ops[0]), ops[1..]);
    }
  }

  lemma FreshSound()
    ensures Sound(FRESH) && Balanced(FRESH)
  {
    assert forall k :: Owing(FRESH.gos, k) == {};
  }

  // ── no row rests in STARTING ──────────────────────────────────────────

  /** The same rows, in the table and out of it, but for their timers. */
  ghost predicate SameRows(m: Machine, m': Machine) {
    && m'.mux.sessions.Keys == m.mux.sessions.Keys && m'.births == m.births && m'.grave.Keys == m.grave.Keys
    && (forall id | id in m.mux.sessions :: SameButTimer(m.mux.sessions[id], m'.mux.sessions[id]))
    && (forall b | b in m.grave :: SameButTimer(m.grave[b], m'.grave[b]))
  }

  lemma ReportRows(cfg: Config, m: Machine, g: nat, rest: Rest)
    requires rest.Report?
    ensures SameRows(m, ReportBy(cfg, m, g, rest))
  {
    hide TransitionFrames, Disarm;
    TimersOnlyIsReflexive(m);
    DisarmIsTimersOnly(m, rest.id, rest.birth);
  }

  lemma ArmRows(m: Machine, id: string, birth: nat)
    ensures SameRows(m, ArmBy(m, id, birth))
  {
    hide ArmBy;
    ArmIsTimersOnly(m, id, birth);
  }

  lemma SameRowsIsReflexive(m: Machine)
    ensures SameRows(m, m)
  {
  }

  lemma ResumeRows(cfg: Config, m: Machine, op: SplitOp)
    requires op.Resume?
    ensures SameRows(m, SplitStep(cfg, m, op))
  {
    hide ReportBy, ArmBy;
    SameRowsIsReflexive(m);
    if op.g in m.gos && m.gos[op.g].Waiting? {
      var rest := m.gos[op.g].rest;
      if rest.Report? { ReportRows(cfg, m, op.g, rest); }
      if rest.Rearm? { ArmRows(m.(gos := Without(m.gos, op.g)), rest.id, rest.birth); }
    }
  }

  /** After its first locked stretch an ingest has absorbed the event; the rest of the stretch moves timers only. */
  lemma IngestRows(cfg: Config, m: Machine, op: SplitOp)
    requires op.BeginIngest?
    ensures SameRows(if !Wellformed(op.ev) || Duplicate(cfg, m.mux.recent, op.ev, op.now) then m
                     else Entered(cfg, m, op.ev, op.now, op.choice), SplitStep(cfg, m, op))
  {
    hide Entered, Duplicate, ReportBy, ArmBy, StartedFrame;
    var ev := op.ev;
    SameRowsIsReflexive(m);
    EnteredHas(cfg, m, ev, op.now, op.choice);
    if Wellformed(ev) && !Duplicate(cfg, m.mux.recent, ev, op.now) {
      var m1 := Entered(cfg, m, ev, op.now, op.choice);
      var row := m1.mux.sessions[ev.sid];
      SameRowsIsReflexive(m1);
      ReportRows(cfg, m1, op.g, Report(ev.sid, Born(m1, ev.sid), row.state, ObservedAt(ev, op.now)));
      ArmRows(m1, ev.sid, Born(m1, ev.sid));
    }
  }

  lemma EnteredHas(cfg: Config, m: Machine, ev: Event, now: int, choice: Option<string>)
    ensures ev.sid in Entered(cfg, m, ev, now, choice).mux.sessions
    ensures Entered(cfg, m, ev, now, choice).mux == Admit(cfg, m.mux, ev, now, choice)
  {
    hide Absorbed, StateBefore;
  }

  lemma IngestSettles(cfg: Config, m: Machine, op: SplitOp)
    requires Sound(m) && NoneStarting(m.mux) && op.BeginIngest? && SplitLegal(cfg, m, op)
    ensures NoneStarting(SplitStep(cfg, m, op).mux)
  {
    hide SplitStep, Admit, Duplicate, IndexAgrees, Entered, CreateChoice, BirthsSound, PcSound;
    NamedRows(m.mux);
    IngestRows(cfg, m, op);
    EnteredHas(cfg, m, op.ev, op.now, op.choice);
    if Wellformed(op.ev) { AdmitKeepsOthers(cfg, m.mux, op.ev, op.now, op.choice); }
    hide Wellformed, Sound;
  }

  lemma StepSettles(cfg: Config, m: Machine, op: SplitOp)
    requires Sound(m) && NoneStarting(m.mux) && Local(op) && SplitLegal(cfg, m, op)
    ensures NoneStarting(SplitStep(cfg, m, op).mux)
  {
    match op
    case BeginIngest(_, _, _, _) => hide *; IngestSettles(cfg, m, op);
    case Resume(_) =>
      hide SplitStep, Sound;
      ResumeRows(cfg, m, op);
    case BeginMarkDead(_, id, _) =>
      hide ClearTimer, EndedFrame, Sound;
      if IsLive(m.mux.sessions, id) { ClearTouches(m.mux, id); }
    case _ => hide IdleFrame, Sound;
  }

  lemma {:induction false} RunSettles(cfg: Config, m: Machine, ops: seq<SplitOp>)
    requires Sound(m) && Balanced(m) && NoneStarting(m.mux) && SplitLegalRun(cfg, m, ops)
    requires forall i | 0 <= i < |ops| :: Local(ops[i])
    ensures NoneStarting(SplitExec(cfg, m, ops).mux)
    decreases |ops|
  {
    hide Sound, Balanced, SplitStep, SplitLegal, NoneStarting;
    if ops != [] {
      StepSound(cfg, m, ops[0]);
      StepSettles(cfg, m, ops[0]);
      RunSettles(cfg, SplitStep(cfg, m, ops[0]), ops[1..]);
    }
  }

  // ── the theorems ──────────────────────────────────────────────────────

  /** However ingests, deaths, timers and sink calls interleave with a peer's frames, hellos and drops, the
      thread index agrees with the table; without a peer no row rests in STARTING either. */
  lemma {:induction false} EveryInterleaving(cfg: Config, ops: seq<SplitOp>)
    requires SplitLegalRun(cfg, FRESH, ops)
    ensures IndexAgrees(SplitExec(cfg, FRESH, ops).mux)
    ensures (forall i | 0 <= i < |ops| :: Local(ops[i])) ==> NoneStarting(SplitExec(cfg, FRESH, ops).mux)
  {
    FreshSound();
    hide SplitExec, SplitLegalRun, IndexAgrees, NoneStarting;
    RunSound(cfg, FRESH, ops);
    NamedRows(SplitExec(cfg, FRESH, ops).mux);
    if forall i | 0 <= i < |ops| :: Local(ops[i]) {
      assert NoneStarting(FRESH.mux) by { NothingStarting(); }
      RunSettles(cfg, FRESH, ops);
    }
  }

  lemma NothingStarting()
    ensures NoneStarting(INIT)
  {
  }

  /** Once no goroutine is in flight, the sink has been handed for every session exactly one frame for every
      change a local operation made, telling that change's state, exactly if no IDLE of that session was
      reported while it was awaiting permission. */
  lemma {:induction false} EveryChangeToldOnce(cfg: Config, ops: seq<SplitOp>, id: string)
    requires SplitLegalRun(cfg, FRESH, ops) && SplitExec(cfg, FRESH, ops).gos == map[]
    ensures var m := SplitExec(cfg, FRESH, ops);
      && ((forall s :: Handed(m.mux.log, (id, s)) == Changed(m.changes, (id, s))) <==> id !in m.mistold)
      && (forall s: SessionState | !s.Idle? && !s.AwaitingPermission? ::
            Handed(m.mux.log, (id, s)) == Changed(m.changes, (id, s)))
      && Handed(m.mux.log, (id, Idle)) + Handed(m.mux.log, (id, AwaitingPermission))
         == Changed(m.changes, (id, Idle)) + Changed(m.changes, (id, AwaitingPermission))
  {
    FreshSound();
    hide SplitExec, SplitLegalRun, Handed, Changed, Sound;
    RunSound(cfg, FRESH, ops);
    var m := SplitExec(cfg, FRESH, ops);
    TimesMeans(m.mistold, id);
    forall s ensures Handed(m.mux.log, (id, s)) + Shift(m.mistold, (id, s)) == Changed(m.changes, (id, s)) {
      assert Owing(map[], (id, s)) == {};
      assert Handed(m.mux.log, (id, s)) + |Owing(m.gos, (id, s))| + Shift(m.mistold, (id, s))
          == Changed(m.changes, (id, s));
    }
    if id in m.mistold {
      assert Handed(m.mux.log, (id, Idle)) != Changed(m.changes, (id, Idle));
    }
  }

  lemma {:induction false} TimesMeans(ids: seq<string>, id: string)
    ensures Times(ids, id) > 0 <==> id in ids
  {
    if ids != [] {
      TimesMeans(ids[..|ids| - 1], id);
      assert ids == ids[..|ids| - 1] + [ids[|ids| - 1]];
    }
  }

  lemma ResumedReport(cfg: Config, m: Machine, g: nat)
    requires g in m.gos && m.gos[g].Waiting? && m.gos[g].rest.Report?
    ensures SplitStep(cfg, m, Resume(g)) == ReportBy(cfg, m, g, m.gos[g].rest)
  {
    hide ReportBy;
  }

  /** Only the first report of a new session, delayed by the announcement handed before it, can be mistold. */
  lemma OnlyFirstReportsMistell(cfg: Config, m: Machine, op: SplitOp)
    requires Sound(m) && Balanced(m) && SplitLegal(cfg, m, op) && SplitStep(cfg, m, op).mistold != m.mistold
    ensures op.Resume? && m.gos[op.g].Waiting? && m.gos[op.g].rest.Report? && m.gos[op.g].rest.after.Idle?
    ensures SplitStep(cfg, m, op).mistold == m.mistold + [m.gos[op.g].rest.id]
  {
    if op.BeginIngest? {
      hide SplitStep;
      IngestSteps(cfg, m, op);
    } else if op.Resume? && m.gos[op.g].rest.Report? {
      hide SplitStep, Balanced, ReportBy, TransitionFrames, RowBy, TableKept, BirthsSound;
      assert PcSound(m, m.gos[op.g]);
      assert SplitStep(cfg, m, op) == ReportBy(cfg, m, op.g, m.gos[op.g].rest) by { ResumedReport(cfg, m, op.g); }
      var b := ReportSound(cfg, m, op.g, m.gos[op.g].rest);
    } else if op.Resume? {
      hide SplitStep, SplitLegal;
      ResumeSteps(cfg, m, op);
    }
  }

  // ── a hello and a drop as such steps ──────────────────────────────────

  function Syncing(views: seq<SessionView>, now: int, choices: seq<Option<string>>): seq<SplitOp>
    requires |views| == |choices|
  {
    seq(|views|, i requires 0 <= i < |views| => SyncView(views[i], now, choices[i]))
  }

  /** A snapshot applied under the lock is the run that syncs its views one after the other. */
  lemma {:induction false} SyncIsViews(cfg: Config, m: Machine, views: seq<SessionView>, now: int,
      choices: seq<Option<string>>)
    requires SyncChoices(cfg, m.mux, views, now, choices)
    ensures SplitLegalRun(cfg, m, Syncing(views, now, choices))
    ensures SplitExec(cfg, m, Syncing(views, now, choices)).mux == SyncSessions(cfg, m.mux, views, now, choices)
    decreases |views|
  {
    hide SyncOne, CreateChoice;
    if views != [] {
      var ops := Syncing(views, now, choices);
      assert ops[1..] == Syncing(views[1..], now, choices[1..]);
      SyncIsViews(cfg, SplitStep(cfg, m, ops[0]), views[1..], now, choices[1..]);
    }
  }

  function Dropping(order: seq<string>): seq<SplitOp> {
    seq(|order|, i requires 0 <= i < |order| => DropRow(order[i]))
  }

  /** A drop under the lock is the run that drops the rows one after the other. */
  lemma {:induction false} DropIsRows(cfg: Config, m: Machine, order: seq<string>)
    requires IndexAgrees(m.mux) && forall id | id in m.mux.sessions :: id in order
    ensures SplitLegalRun(cfg, m, Dropping(order))
    ensures SplitExec(cfg, m, Dropping(order)).mux == DropAll(m.mux)
    decreases |order|
  {
    hide IndexAgrees;
    if order == [] {
      assert m.mux.sessions == map[];
      EmptyIndex(m.mux);
    } else {
      var ops := Dropping(order);
      assert ops[1..] == Dropping(order[1..]);
      var m1 := SplitStep(cfg, m, ops[0]);
      ReapKeepsIndex(m.mux, Some(order[0]));
      assert forall id | id in m1.mux.sessions :: id in m.mux.sessions && id != order[0];
      assert forall id | id in order && id != order[0] :: id in order[1..];
      DropIsRows(cfg, m1, order[1..]);
    }
  }
}
