/** The bounded queue of mirrored frames, the wire and the cloud's mux behind whatever the laptop does: what the
    cloud makes of a session, over every run, and exactly when that is what the connection said. */
module Mirror {
  import opened Wire
  import opened MuxSpec
  import opened MuxInvariants
  import opened Upstream

  /** How many frames the bridge buffers in the shipped host. */
  const BRIDGE_DEPTH := 256

  // ── the system ────────────────────────────────────────────────────────

  datatype Setup = Setup(cloud: Config, depth: nat)

  datatype Packet = Hello(views: seq<SessionView>) | Frame(b: Broadcast)

  /** The bridge's buffer. The first `stale` frames precede one that was dropped; `clean` says that
      no frame was dropped since the oldest frame that the last hello was followed by. */
  datatype Outbound = Outbound(queue: seq<Broadcast>, stale: nat, clean: bool)

  /** `hello` is the snapshot the connection began with, `carried` the frames it has taken on: those already
      queued when it began and those queued since. `heard` are the ones the cloud has applied. */
  datatype System = System(
    laptop: State,
    out: Outbound,
    wire: seq<Packet>,
    cloud: State,
    up: bool,
    hello: seq<SessionView>,
    carried: seq<Broadcast>,
    heard: seq<Broadcast>)

  datatype SysOp =
    | Local(next: State)
    | Connect(order: seq<string>)
    | Pump
    | Arrive(now: int, best: Option<string>, choice: Option<string>, choices: seq<Option<string>>)
    | Cut(lost: bool, dropped: bool)

  /** Non-blocking send: a full buffer drops the frame. */
  function MirrorOne(o: Outbound, b: Broadcast, depth: nat): Outbound {
    if |o.queue| < depth then o.(queue := o.queue + [b]) else o.(stale := |o.queue|, clean := false)
  }

  function MirrorAll(o: Outbound, frames: seq<Broadcast>, depth: nat): Outbound
    decreases |frames|
  {
    if frames == [] then o else MirrorAll(MirrorOne(o, frames[0], depth), frames[1..], depth)
  }

  function Pulled(o: Outbound): Outbound
    requires o.queue != []
  {
    o.(queue := o.queue[1..], stale := if o.stale == 0 then 0 else o.stale - 1)
  }

  ghost predicate ArrivalChoices(p: Setup, s: State, packet: Packet, op: SysOp)
    requires op.Arrive?
  {
    match packet
    case Hello(views) => SyncChoices(p.cloud, DropAll(s), views, op.now, op.choices)
    case Frame(b) => FrameChoices(p.cloud, s, b, op.best, op.choice)
  }

  function Receive(p: Setup, s: State, packet: Packet, op: SysOp): State
    requires op.Arrive? && (packet.Hello? ==> |op.choices| == |packet.views|)
  {
    match packet
    case Hello(views) => SyncSessions(p.cloud, DropAll(s), views, op.now, op.choices)
    case Frame(b) => ApplyUpstream(p.cloud, s, b, op.now, op.best, op.choice)
  }

  /** A frame as a sink is handed them: it announces a thread, or tells a state of a named session. */
  predicate Said(b: Broadcast) {
    (b.typ.ThreadStarted? && b.sid == "") || (Decode(b).Some? && b.sid != "")
  }

  /** All that is asked of the laptop: its rows bear their ids, and its log of frames only grows. */
  ghost predicate Proceeds(s: State, s': State) {
    && RowsNamed(s')
    && |s.log| <= |s'.log| && s'.log[..|s.log|] == s.log
    && forall b | b in s'.log[|s.log|..] :: Said(b)
  }

  ghost predicate SysLegal(p: Setup, y: System, op: SysOp) {
    match op
    case Local(next) => Proceeds(y.laptop, next)
    case Connect(order) => !y.up && forall id :: id in order <==> id in y.laptop.sessions
    case Pump => y.up && y.out.queue != []
    case Arrive(_, _, _, _) => y.up && y.wire != [] && ArrivalChoices(p, y.cloud, y.wire[0], op)
    case Cut(_, _) => y.up
  }

  ghost function SysStep(p: Setup, y: System, op: SysOp): System
    requires SysLegal(p, y, op)
  {
    match op
    case Local(next) =>
      var out := MirrorAll(y.out, next.log[|y.laptop.log|..], p.depth);
      y.(laptop := next, out := out,
         carried := if |y.out.queue| <= |out.queue| then y.carried + out.queue[|y.out.queue|..] else y.carried)
    case Connect(order) =>
      y.(up := true, wire := [Hello(Views(y.laptop.sessions, order))], out := y.out.(clean := y.out.stale == 0),
         hello := Views(y.laptop.sessions, order), carried := y.out.queue, heard := [])
    case Pump => y.(wire := y.wire + [Frame(y.out.queue[0])], out := Pulled(y.out))
    case Arrive(_, _, _, _) =>
      y.(wire := y.wire[1..], cloud := Receive(p, y.cloud, y.wire[0], op),
         heard := if y.wire[0].Frame? then y.heard + [y.wire[0].b] else y.heard)
    case Cut(lost, dropped) =>
      y.(up := false, wire := [],
         out := if lost && y.out.queue != [] then Pulled(y.out) else y.out,
         cloud := if dropped then DropAll(y.cloud) else y.cloud)
  }

  const QUIET := System(INIT, Outbound([], 0, true), [], INIT, false, [], [], [])

  ghost predicate SysLegalRun(p: Setup, y: System, ops: seq<SysOp>)
    decreases |ops|
  {
    ops != [] ==> SysLegal(p, y, ops[0]) && SysLegalRun(p, SysStep(p, y, ops[0]), ops[1..])
  }

  ghost function SysExec(p: Setup, y: System, ops: seq<SysOp>): System
    requires SysLegalRun(p, y, ops)
    decreases |ops|
  {
    if ops == [] then y else SysExec(p, SysStep(p, y, ops[0]), ops[1..])
  }

  // ── what is on its way ────────────────────────────────────────────────

  /** The frames of `wire`, in order. */
  function Pending(wire: seq<Packet>): seq<Broadcast> {
    if wire == [] then []
    else (if wire[0].Frame? then [wire[0].b] else []) + Pending(wire[1..])
  }

  lemma {:induction false} PendingAppend(wire: seq<Packet>, b: Broadcast)
    ensures Pending(wire + [Frame(b)]) == Pending(wire) + [b]
  {
    if wire == [] {
      assert ([] + [Frame(b)])[1..] == [];
    } else {
      PendingAppend(wire[1..], b);
      assert (wire + [Frame(b)])[1..] == wire[1..] + [Frame(b)];
    }
  }

  lemma NoFrames(views: seq<SessionView>)
    ensures Pending([Hello(views)]) == []
  {
    assert [Hello(views)][1..] == [];
  }

  /** The frames the cloud has yet to apply. */
  function Rest(y: System): seq<Broadcast> {
    Pending(y.wire) + y.out.queue
  }

  /** What fits is queued in order; the rest is dropped and everything queued is behind the gap. */
  lemma {:induction false} MirrorAllIs(o: Outbound, frames: seq<Broadcast>, depth: nat)
    ensures var o' := MirrorAll(o, frames, depth); var room := if |o.queue| < depth then depth - |o.queue| else 0;
      if |frames| <= room then o' == o.(queue := o.queue + frames)
      else o'.queue == o.queue + frames[..room] && o'.stale == |o'.queue| && !o'.clean
    decreases |frames|
  {
    if frames == [] {
      assert o.queue + frames == o.queue;
    } else {
      var o1, rest := MirrorOne(o, frames[0], depth), frames[1..];
      MirrorAllIs(o1, rest, depth);
      if |o.queue| < depth {
        var room := depth - |o.queue|;
        assert o1.queue + rest == o.queue + frames;
        assert |rest| > room - 1 ==> o1.queue + rest[..room - 1] == o.queue + frames[..room];
      } else {
        assert o1.queue == o.queue && o.queue + rest[..0] == o.queue == o.queue + frames[..0];
      }
    }
  }

  /** The frames of `news` that find room. */
  function Taken(o: Outbound, news: seq<Broadcast>, depth: nat): seq<Broadcast> {
    if |o.queue| + |news| <= depth then news else if |o.queue| < depth then news[..depth - |o.queue|] else []
  }

  lemma TakenIsNews(o: Outbound, news: seq<Broadcast>, depth: nat)
    ensures forall b | b in Taken(o, news, depth) :: b in news
  {
  }

  lemma LocalIs(p: Setup, y: System, op: SysOp)
    requires op.Local? && SysLegal(p, y, op)
    ensures var y', news := SysStep(p, y, op), op.next.log[|y.laptop.log|..];
      var more := Taken(y.out, news, p.depth);
      && op.next.log == y.laptop.log + news
      && y' == y.(laptop := op.next, out := y'.out, carried := y.carried + more)
      && y'.out.queue == y.out.queue + more
      && (more == news ==> y'.out.stale == y.out.stale && y'.out.clean == y.out.clean)
      && (more != news ==> y'.out.stale == |y'.out.queue| && !y'.out.clean)
  {
    hide MirrorAll, RowsNamed, Said;
    var news := op.next.log[|y.laptop.log|..];
    assert op.next.log == y.laptop.log + news;
    MirrorAllIs(y.out, news, p.depth);
    assert (y.out.queue + Taken(y.out, news, p.depth))[|y.out.queue|..] == Taken(y.out, news, p.depth);
    assert news[..0] == [] && y.out.queue + [] == y.out.queue;
  }

  // ── what every run keeps ──────────────────────────────────────────────

  ghost predicate PacketSaid(packet: Packet) {
    packet.Frame? ==> Said(packet.b)
  }

  /** What the connection has taken on is what the cloud has heard and what is on its way; the snapshot comes
      first. */
  ghost predicate Connected(y: System) {
    && RowsNamed(y.laptop)
    && (forall b | b in y.out.queue :: Said(b))
    && (forall i | 0 <= i < |y.wire| :: PacketSaid(y.wire[i]) && (y.wire[i].Hello? ==> i == 0))
    && (y.up ==> y.carried == y.heard + Rest(y))
    && (y.up && y.wire != [] && y.wire[0].Hello? ==> y.wire[0].views == y.hello && y.heard == [])
  }

  lemma LocalConnected(p: Setup, y: System, op: SysOp)
    requires Connected(y) && op.Local? && SysLegal(p, y, op)
    ensures Connected(SysStep(p, y, op))
  {
    LocalIs(p, y, op);
    hide SysStep, RowsNamed, Said, Pending;
    var news := op.next.log[|y.laptop.log|..];
    var more := Taken(y.out, news, p.depth);
    TakenIsNews(y.out, news, p.depth);
    assert y.heard + Rest(y) + more == y.heard + (Pending(y.wire) + (y.out.queue + more));
  }

  lemma ConnectConnected(p: Setup, y: System, op: SysOp)
    requires Connected(y) && op.Connect? && SysLegal(p, y, op)
    ensures Connected(SysStep(p, y, op))
  {
    hide RowsNamed, Said, Pending;
    NoFrames(Views(y.laptop.sessions, op.order));
    assert [] + ([] + y.out.queue) == y.out.queue;
  }

  lemma PumpConnected(p: Setup, y: System, op: SysOp)
    requires Connected(y) && op.Pump? && SysLegal(p, y, op)
    ensures Connected(SysStep(p, y, op)) && Rest(SysStep(p, y, op)) == Rest(y)
  {
    hide RowsNamed, Said, Pending;
    var b := y.out.queue[0];
    PendingAppend(y.wire, b);
    assert y.out.queue == [b] + y.out.queue[1..] && b in y.out.queue;
    assert Pending(y.wire) + [b] + y.out.queue[1..] == Pending(y.wire) + y.out.queue;
    assert forall c | c in y.out.queue[1..] :: c in y.out.queue;
  }

  lemma ArriveConnected(p: Setup, y: System, op: SysOp)
    requires Connected(y) && op.Arrive? && SysLegal(p, y, op)
    ensures Connected(SysStep(p, y, op))
    ensures Rest(y) == (if y.wire[0].Frame? then [y.wire[0].b] else []) + Rest(SysStep(p, y, op))
  {
    hide RowsNamed, Said, Receive, ArrivalChoices;
    var y' := SysStep(p, y, op);
    if y.wire[0].Frame? {
      assert Pending(y.wire) == [y.wire[0].b] + Pending(y'.wire);
      assert y.heard + ([y.wire[0].b] + Rest(y')) == (y.heard + [y.wire[0].b]) + Rest(y');
    } else {
      assert Pending(y.wire) == Pending(y'.wire);
      assert [] + Rest(y') == Rest(y');
    }
  }

  lemma CutConnected(p: Setup, y: System, op: SysOp)
    requires Connected(y) && op.Cut? && SysLegal(p, y, op)
    ensures Connected(SysStep(p, y, op))
  {
    hide RowsNamed, Said, Pending;
    assert y.out.queue != [] ==> forall c | c in y.out.queue[1..] :: c in y.out.queue;
  }

  lemma StepConnected(p: Setup, y: System, op: SysOp)
    requires Connected(y) && SysLegal(p, y, op)
    ensures Connected(SysStep(p, y, op))
  {
    hide Connected, SysStep, SysLegal;
    match op
    case Local(_) => LocalConnected(p, y, op);
    case Connect(_) => ConnectConnected(p, y, op);
    case Pump => PumpConnected(p, y, op);
    case Arrive(_, _, _, _) => ArriveConnected(p, y, op);
    case Cut(_, _) => CutConnected(p, y, op);
  }

  lemma QuietConnected()
    ensures Connected(QUIET)
  {
  }

  // ── exactly when the cloud is in touch ────────────────────────────────

  /** What a snapshot and the frames after it say of `x`. */
  function Arrived(hello: seq<SessionView>, frames: seq<Broadcast>, x: string): Option<SessionState> {
    if LastTold(frames, x).Some? then Alive(LastTold(frames, x)) else Viewed(hello, x)
  }

  /** Since the hello was applied the cloud has `x` as what it has heard says. */
  ghost predicate InTouch(y: System, x: string) {
    y.up && (y.wire == [] || y.wire[0].Frame?) ==> LiveState(y.cloud, x) == Arrived(y.hello, y.heard, x)
  }

  /** The frame that arrives tells a state of `x` and goes to another row, or goes to the row of `x` and is of
      another session; and it tells another state than `x` is in. */
  ghost predicate Misses(y: System, op: SysOp, x: string) {
    && op.Arrive? && y.wire != [] && y.wire[0].Frame? && Decode(y.wire[0].b).Some?
    && (y.wire[0].b.sid == x) != (UpstreamTarget(y.cloud, y.wire[0].b, op.best) == Some(x))
    && Alive(Decode(y.wire[0].b)) != LiveState(y.cloud, x)
  }

  lemma UntargetedIsIdle(cfg: Config, s: State, b: Broadcast, now: int, best: Option<string>, choice: Option<string>)
    requires UpstreamTarget(s, b, best) == None
    ensures ApplyUpstream(cfg, s, b, now, best, choice) == s
  {
    hide GetOrCreate, Rekey, ApplyFrame;
  }

  /** What one frame does to the live state of `x`. */
  lemma FrameDoes(p: Setup, s: State, b: Broadcast, now: int, best: Option<string>, choice: Option<string>, x: string)
    requires FrameChoices(p.cloud, s, b, best, choice) && Said(b)
    ensures LiveState(ApplyUpstream(p.cloud, s, b, now, best, choice), x) ==
      if Decode(b).Some? && UpstreamTarget(s, b, best) == Some(x) then Alive(Decode(b)) else LiveState(s, x)
  {
    hide ApplyUpstream, CreateChoice, IsBest;
    if UpstreamTarget(s, b, best).Some? {
      FrameHits(p.cloud, s, b, now, best, choice);
      if Decode(b).None? { BestIsLive(s, b.thread, best); }
    } else {
      UntargetedIsIdle(p.cloud, s, b, now, best, choice);
    }
  }

  lemma BestIsLive(s: State, thread: string, best: Option<string>)
    requires IsBest(s, thread, best)
    ensures best.Some? ==> IsLive(s.sessions, best.value)
  {
  }

  lemma HelloDoes(p: Setup, s: State, views: seq<SessionView>, now: int, choices: seq<Option<string>>, x: string)
    requires SyncChoices(p.cloud, DropAll(s), views, now, choices)
    ensures |choices| == |views|
    ensures LiveState(SyncSessions(p.cloud, DropAll(s), views, now, choices), x) == Viewed(views, x)
  {
    assert |choices| == |views|;
    hide SyncSessions, SyncChoices, Viewed;
    DropKeepsIndex(s);
    SyncTells(p.cloud, DropAll(s), views, now, choices, x);
  }

  lemma ArriveTouchIff(p: Setup, y: System, op: SysOp, x: string)
    requires Connected(y) && InTouch(y, x) && op.Arrive? && SysLegal(p, y, op)
    ensures InTouch(SysStep(p, y, op), x) <==> !Misses(y, op, x)
  {
    ArriveConnected(p, y, op);
    var y' := SysStep(p, y, op);
    assert y'.wire != [] ==> y'.wire[0] == y.wire[1];
    assert PacketSaid(y.wire[0]);
    match y.wire[0] {
      case Hello(views) =>
        HelloDoes(p, y.cloud, views, op.now, op.choices, x);
      case Frame(b) =>
        FrameDoes(p, y.cloud, b, op.now, op.best, op.choice, x);
        LastToldAppend(y.heard, b, x);
        hide LiveState, ApplyUpstream, LastTold, Viewed, Connected, UpstreamTarget, FrameChoices, Decode;
    }
  }

  lemma StepTouchIff(p: Setup, y: System, op: SysOp, x: string)
    requires Connected(y) && InTouch(y, x) && SysLegal(p, y, op)
    ensures InTouch(SysStep(p, y, op), x) <==> !Misses(y, op, x)
  {
    if op.Arrive? {
      hide *;
      ArriveTouchIff(p, y, op, x);
    } else {
      hide LiveState, Arrived, Connected, MirrorAll, Proceeds, RowsNamed;
    }
  }

  ghost predicate AlwaysInTouch(p: Setup, y: System, ops: seq<SysOp>, x: string)
    requires SysLegalRun(p, y, ops)
    decreases |ops|
  {
    InTouch(y, x) && (ops != [] ==> AlwaysInTouch(p, SysStep(p, y, ops[0]), ops[1..], x))
  }

  ghost predicate NeverMissed(p: Setup, y: System, ops: seq<SysOp>, x: string)
    requires SysLegalRun(p, y, ops)
    decreases |ops|
  {
    ops != [] ==> !Misses(y, ops[0], x) && NeverMissed(p, SysStep(p, y, ops[0]), ops[1..], x)
  }

  lemma {:induction false} RunTouchIff(p: Setup, y: System, ops: seq<SysOp>, x: string)
    requires Connected(y) && InTouch(y, x) && SysLegalRun(p, y, ops)
    ensures AlwaysInTouch(p, y, ops, x) <==> NeverMissed(p, y, ops, x)
    decreases |ops|
  {
    hide Connected, InTouch, Misses, SysStep, SysLegal;
    if ops != [] {
      var y' := SysStep(p, y, ops[0]);
      StepConnected(p, y, ops[0]);
      StepTouchIff(p, y, ops[0], x);
      if InTouch(y', x) {
        RunTouchIff(p, y', ops[1..], x);
      }
    }
  }

  /** Over every run, whatever the laptop does and whatever is lost: the cloud has the session, at every moment
      after a hello was applied, as the last frame of it that it heard told it or else as the hello listed it,
      exactly if no arriving frame misses the session. */
  lemma {:induction false} TouchIff(p: Setup, ops: seq<SysOp>, x: string)
    requires SysLegalRun(p, QUIET, ops)
    ensures AlwaysInTouch(p, QUIET, ops, x) <==> NeverMissed(p, QUIET, ops, x)
  {
    QuietConnected();
    hide SysLegalRun, AlwaysInTouch, NeverMissed, Connected;
    RunTouchIff(p, QUIET, ops, x);
  }

  lemma {:induction false} RunInTouch(p: Setup, y: System, ops: seq<SysOp>, x: string)
    requires Connected(y) && InTouch(y, x) && SysLegalRun(p, y, ops) && NeverMissed(p, y, ops, x)
    ensures Connected(SysExec(p, y, ops)) && InTouch(SysExec(p, y, ops), x)
    decreases |ops|
  {
    hide Connected, InTouch, Misses, SysStep, SysLegal;
    if ops != [] {
      StepConnected(p, y, ops[0]);
      StepTouchIff(p, y, ops[0], x);
      RunInTouch(p, SysStep(p, y, ops[0]), ops[1..], x);
    }
  }

  ghost predicate AllDelivered(y: System) {
    y.up && y.wire == [] && y.out.queue == []
  }

  lemma DeliveredIs(y: System, x: string)
    requires Connected(y) && InTouch(y, x) && AllDelivered(y)
    ensures LiveState(y.cloud, x) == Arrived(y.hello, y.carried, x)
  {
    hide LiveState, Arrived, RowsNamed;
    assert Rest(y) == [] && y.heard + [] == y.heard;
  }

  /** In particular, once all the connection took on is delivered the cloud has the session as the last frame
      carried told it, or else as the hello listed it, unless a frame missed it. */
  lemma {:induction false} DeliveryDecides(p: Setup, ops: seq<SysOp>, x: string)
    requires SysLegalRun(p, QUIET, ops) && NeverMissed(p, QUIET, ops, x) && AllDelivered(SysExec(p, QUIET, ops))
    ensures var y := SysExec(p, QUIET, ops);
      LiveState(y.cloud, x) ==
        if LastTold(y.carried, x).Some? then Alive(LastTold(y.carried, x)) else Viewed(y.hello, x)
  {
    QuietConnected();
    hide SysExec, SysLegalRun, NeverMissed, LiveState, Connected, AllDelivered;
    RunInTouch(p, QUIET, ops, x);
    DeliveredIs(SysExec(p, QUIET, ops), x);
  }

  // ── a frame that lands misses nobody ──────────────────────────────────

  /** The session the frame tells of has a row, or its thread has no live one. */
  ghost predicate Lands(y: System, op: SysOp) {
    op.Arrive? && y.wire != [] && y.wire[0].Frame? && Decode(y.wire[0].b).Some? ==>
      var b := y.wire[0].b; b.sid in y.cloud.sessions || b.thread == "" || op.best.None?
  }

  lemma LandsMissesNone(p: Setup, y: System, op: SysOp, x: string)
    requires Connected(y) && SysLegal(p, y, op) && Lands(y, op)
    ensures !Misses(y, op, x)
  {
    if op.Arrive? {
      assert PacketSaid(y.wire[0]);
    }
  }

  // ── a reconnect ───────────────────────────────────────────────────────

  ghost predicate Delivers(ops: seq<SysOp>) {
    forall i | 0 <= i < |ops| :: ops[i].Pump? || ops[i].Arrive?
  }

  lemma {:induction false} DeliveryKeeps(p: Setup, y: System, ops: seq<SysOp>)
    requires SysLegalRun(p, y, ops) && Delivers(ops)
    ensures var z := SysExec(p, y, ops);
      z.laptop == y.laptop && z.hello == y.hello && z.carried == y.carried && z.up == y.up
    decreases |ops|
  {
    hide SysLegal, Receive, Pulled;
    if ops != [] {
      var y' := SysStep(p, y, ops[0]);
      assert y'.laptop == y.laptop && y'.hello == y.hello && y'.carried == y.carried && y'.up == y.up;
      hide SysStep;
      DeliveryKeeps(p, y', ops[1..]);
    }
  }

  lemma {:induction false} ViewedIs(s: State, order: seq<string>, x: string)
    requires RowsNamed(s) && x != "" && forall id | id in order :: id in s.sessions
    ensures Viewed(Views(s.sessions, order), x) == if x in order then LiveState(s, x) else None
    decreases |order|
  {
    if order != [] {
      ViewedIs(s, order[1..], x);
      assert Views(s.sessions, order)[1..] == Views(s.sessions, order[1..]);
    }
  }

  lemma AbsentIsNotLive(s: State, x: string)
    requires x !in s.sessions
    ensures LiveState(s, x) == None
  {
  }

  lemma ConnectShows(p: Setup, y: System, op: SysOp, x: string)
    requires op.Connect? && SysLegal(p, y, op) && RowsNamed(y.laptop) && x != ""
    ensures var y' := SysStep(p, y, op);
      && y'.laptop == y.laptop && y'.carried == y.out.queue && y'.up && Viewed(y'.hello, x) == LiveState(y.laptop, x)
  {
    ViewedIs(y.laptop, op.order, x);
    if x !in y.laptop.sessions { AbsentIsNotLive(y.laptop, x); }
    hide Viewed;
  }

  /** After a reconnect that takes on whatever is queued, losses or none, the two sides agree on a session once
      all is delivered exactly if no queued frame takes it back: the newest one of it, if any, tells the state it
      is in. */
  lemma ReconnectDecides(p: Setup, y: System, op: SysOp, ops: seq<SysOp>, x: string)
    requires Connected(y) && op.Connect? && SysLegal(p, y, op) && x != ""
    requires SysLegalRun(p, SysStep(p, y, op), ops) && Delivers(ops) && NeverMissed(p, SysStep(p, y, op), ops, x)
    requires AllDelivered(SysExec(p, SysStep(p, y, op), ops))
    ensures var z := SysExec(p, SysStep(p, y, op), ops);
      LiveState(z.cloud, x) == LiveState(z.laptop, x) <==>
        (LastTold(y.out.queue, x).Some? ==> Alive(LastTold(y.out.queue, x)) == LiveState(y.laptop, x))
  {
    var y' := SysStep(p, y, op);
    StepConnected(p, y, op);
    assert InTouch(y', x);
    assert RowsNamed(y.laptop);
    hide Connected, InTouch, SysLegal, SysLegalRun, SysExec, NeverMissed, LiveState, Viewed, LastTold, SysStep;
    hide AllDelivered;
    ConnectShows(p, y, op, x);
    DeliveryKeeps(p, y', ops);
    RunInTouch(p, y', ops, x);
    DeliveredIs(SysExec(p, y', ops), x);
  }

  // ── a clean connection ────────────────────────────────────────────────

  /** Past the stale frames, the buffer holds the newest stretch of the laptop's log. */
  ghost predicate TailQueued(log: seq<Broadcast>, o: Outbound) {
    && o.stale <= |o.queue|
    && |o.queue| - o.stale <= |log|
    && o.queue[o.stale..] == log[|log| - (|o.queue| - o.stale)..]
  }

  /** A connection that lost nothing has carried the newest stretch of the log. */
  ghost predicate TailCarried(y: System) {
    && TailQueued(y.laptop.log, y.out)
    && (y.up && y.out.clean ==>
          |y.carried| <= |y.laptop.log| && y.carried == y.laptop.log[|y.laptop.log| - |y.carried|..])
  }

  lemma PulledKeepsTail(log: seq<Broadcast>, o: Outbound)
    requires TailQueued(log, o) && o.queue != []
    ensures TailQueued(log, Pulled(o))
  {
    var n := |o.queue| - o.stale;
    if o.stale == 0 {
      assert Pulled(o).queue == log[|log| - n..][1..];
    } else {
      assert Pulled(o).queue[o.stale - 1..] == o.queue[o.stale..];
    }
  }

  /** The log grew by `news`, of which the buffer took `more`. */
  lemma TailGrows(log: seq<Broadcast>, news: seq<Broadcast>, more: seq<Broadcast>, o: Outbound, o': Outbound)
    requires TailQueued(log, o) && o'.queue == o.queue + more
    requires o'.stale == if more == news then o.stale else |o'.queue|
    ensures TailQueued(log + news, o')
  {
    if more == news {
      assert o'.queue[o'.stale..] == o.queue[o.stale..] + news;
    }
  }

  lemma LocalTail(p: Setup, y: System, op: SysOp)
    requires TailQueued(y.laptop.log, y.out) && op.Local? && SysLegal(p, y, op)
    ensures TailQueued(op.next.log, SysStep(p, y, op).out)
  {
    LocalIs(p, y, op);
    hide SysStep, SysLegal, Taken, Proceeds, TailQueued;
    var news := op.next.log[|y.laptop.log|..];
    TailGrows(y.laptop.log, news, Taken(y.out, news, p.depth), y.out, SysStep(p, y, op).out);
  }

  lemma LocalCarried(p: Setup, y: System, op: SysOp)
    requires TailCarried(y) && op.Local? && SysLegal(p, y, op)
    ensures TailCarried(SysStep(p, y, op))
  {
    LocalTail(p, y, op);
    LocalIs(p, y, op);
    hide SysStep, SysLegal, Taken, Proceeds, TailQueued;
    var log, news := y.laptop.log, op.next.log[|y.laptop.log|..];
    if y.up && y.out.clean {
      assert y.carried + news == (log + news)[|log| - |y.carried|..];
    }
  }

  lemma StepTail(p: Setup, y: System, op: SysOp)
    requires TailCarried(y) && SysLegal(p, y, op)
    ensures TailCarried(SysStep(p, y, op))
  {
    match op
    case Local(_) => hide *; LocalCarried(p, y, op);
    case Connect(_) =>
    case Pump =>
      PulledKeepsTail(y.laptop.log, y.out);
      hide TailQueued, Pulled;
    case Arrive(_, _, _, _) => hide TailQueued, Receive, ArrivalChoices;
    case Cut(_, _) =>
      if y.out.queue != [] { PulledKeepsTail(y.laptop.log, y.out); }
      hide TailQueued, Pulled;
  }
}
