/** Threads handed on from session to session: an agent ends, another starts in the same directory. On the way
    through a backlog the cloud may write one session's frame over another's row; what it ends up with is still
    the laptop's states. */
module MirrorTurns {
  import opened Wire
  import opened MuxSpec
  import opened MuxInvariants
  import opened MuxRuns
  import opened Upstream
  import opened Mirror
  import opened MirrorSerial

  // ── the discipline ────────────────────────────────────────────────────

  /** Every row is on the thread its session belongs to. */
  ghost predicate AtHome(home: string -> string, s: State) {
    forall id | id in s.sessions :: s.sessions[id].threadID == home(id)
  }

  /** While a session of a thread is live, no other session of it is created or changes state. */
  ghost predicate TakesTurn(home: string -> string, s: State, s': State) {
    forall id, mate | id in s'.sessions && IsLive(s.sessions, mate) && mate != id && home(mate) == home(id) ::
      id in s.sessions && s'.sessions[id].state == s.sessions[id].state
  }

  ghost predicate Tame(cfg: Config, home: string -> string, y: System, op: SysOp) {
    op.Local? ==> SerialStep(cfg, y.laptop, op.next) && AtHome(home, op.next) && TakesTurn(home, y.laptop, op.next)
  }

  ghost predicate TurnRun(cfg: Config, home: string -> string, p: Setup, y: System, ops: seq<SysOp>)
    requires SysLegalRun(p, y, ops)
    decreases |ops|
  {
    ops != [] ==> Tame(cfg, home, y, ops[0]) && TurnRun(cfg, home, p, SysStep(p, y, ops[0]), ops[1..])
  }

  // ── what the log tells ────────────────────────────────────────────────

  function Told(log: seq<Broadcast>, x: string): Option<SessionState> {
    Alive(LastTold(log, x))
  }

  predicate TellsOf(home: string -> string, b: Broadcast, t: string) {
    Decode(b).Some? && home(b.sid) == t
  }

  /** When `b` is told after `done`, no other session of its thread is live. */
  ghost predicate InTurn(home: string -> string, done: seq<Broadcast>, b: Broadcast) {
    Decode(b).Some? ==> forall x | x != "" && x != b.sid && home(x) == home(b.sid) :: Told(done, x) == None
  }

  ghost predicate TurnLog(home: string -> string, log: seq<Broadcast>) {
    forall k | 0 <= k < |log| :: InTurn(home, log[..k], log[k])
  }

  lemma {:induction false} UntoldOf(log: seq<Broadcast>, more: seq<Broadcast>, x: string)
    requires forall b | b in more :: Decode(b).None? || b.sid != x
    ensures LastTold(log + more, x) == LastTold(log, x)
    decreases |more|
  {
    if more == [] {
      assert log + more == log;
    } else {
      var front, b := more[..|more| - 1], more[|more| - 1];
      assert b in more && log + more == (log + front) + [b];
      UntoldOf(log, front, x);
      LastToldAppend(log + front, b, x);
    }
  }

  /** The frames of one step that takes turns keep the log in turns. */
  lemma NewsInTurn(home: string -> string, s: State, s': State)
    requires TurnLog(home, s.log) && StepTells(s, s') && RowsNamed(s) && FramesTell(s) && TakesTurn(home, s, s')
    ensures TurnLog(home, s'.log)
  {
    hide LastTold, InTurn, RowsNamed;
    var news := s'.log[|s.log|..];
    assert s'.log == s.log + news;
    forall k | 0 <= k < |s'.log| ensures InTurn(home, s'.log[..k], s'.log[k]) {
      if k < |s.log| {
        assert s'.log[..k] == s.log[..k] && s'.log[k] == s.log[k];
      } else {
        var front := news[..k - |s.log|];
        assert s'.log[..k] == s.log + front && s'.log[k] == news[k - |s.log|];
        OneNewsInTurn(home, s, s', news, front, s'.log[k]);
      }
    }
  }

  lemma OneNewsInTurn(home: string -> string, s: State, s': State, news: seq<Broadcast>, front: seq<Broadcast>,
      b: Broadcast)
    requires StepTells(s, s') && RowsNamed(s) && FramesTell(s) && TakesTurn(home, s, s')
    requires news == s'.log[|s.log|..] && |front| < |news| && front == news[..|front|] && b == news[|front|]
    ensures InTurn(home, s.log + front, b)
  {
    if Decode(b).Some? {
      assert |front| == |news| - 1;
      assert Tellings(news) == Tellings(front) + [(b.sid, Decode(b).value)];
      assert Delta(s, s', Tellings(news));
      forall x | x != "" && x != b.sid && home(x) == home(b.sid) ensures Told(s.log + front, x) == None {
        assert forall f | f in front :: Decode(f).None?;
        UntoldOf(s.log, front, x);
        LogTellsLive(s, x);
        hide LastTold;
        assert !IsLive(s.sessions, x);
      }
    }
  }

  // ── how the cloud may stand to the log ────────────────────────────────

  /** On thread `t` the cloud has what `done` told, or nothing but perhaps a row of a session that `rest` has
      yet to tell of. */
  ghost predicate Fits(home: string -> string, s: State, done: seq<Broadcast>, rest: seq<Broadcast>, t: string) {
    || (forall x | x != "" && home(x) == t :: LiveState(s, x) == Told(done, x))
    || exists b :: b in rest && TellsOf(home, b, t) && forall x | x in s.sessions && home(x) == t :: x == b.sid
  }

  /** The same of a snapshot not yet applied. */
  ghost predicate ViewsFit(home: string -> string, views: seq<SessionView>, done: seq<Broadcast>, rest: seq<Broadcast>,
      t: string)
  {
    || (forall x | x != "" && home(x) == t :: Viewed(views, x) == Told(done, x))
    || exists b :: b in rest && TellsOf(home, b, t)
                   && forall x | x != "" && home(x) == t && x != b.sid :: Viewed(views, x) == None
  }

  lemma FitsOn(home: string -> string, s: State, done: seq<Broadcast>, rest: seq<Broadcast>, more: seq<Broadcast>,
      t: string)
    requires Fits(home, s, done, rest, t)
    ensures Fits(home, s, done, rest + more, t)
  {
    hide LiveState, Told, TellsOf;
    assert forall b | b in rest :: b in rest + more;
  }

  lemma ViewsFitOn(home: string -> string, views: seq<SessionView>, done: seq<Broadcast>, rest: seq<Broadcast>,
      more: seq<Broadcast>, t: string)
    requires ViewsFit(home, views, done, rest, t)
    ensures ViewsFit(home, views, done, rest + more, t)
  {
    hide Viewed, Told, TellsOf;
    assert forall b | b in rest :: b in rest + more;
  }

  /** A snapshot of what `done + rest` told fits. */
  lemma {:induction false} HelloFits(home: string -> string, views: seq<SessionView>, done: seq<Broadcast>,
      q: seq<Broadcast>, more: seq<Broadcast>, t: string)
    requires TurnLog(home, done + q)
    requires forall x | x != "" && home(x) == t :: Viewed(views, x) == Told(done + q, x)
    ensures ViewsFit(home, views, done, q + more, t)
    decreases |q|
  {
    hide LastTold, Viewed;
    if q == [] {
      assert done + q == done;
    } else {
      var front, b := q[..|q| - 1], q[|q| - 1];
      var log := done + q;
      assert log == (done + front) + [b] && log[..|log| - 1] == done + front && log[|log| - 1] == b;
      assert InTurn(home, done + front, b);
      forall x
        ensures LastTold(log, x) == if b.sid == x && Decode(b).Some? then Decode(b) else LastTold(done + front, x)
      {
        LastToldAppend(done + front, b, x);
      }
      assert b in q + more && q + more == front + ([b] + more);
      if TellsOf(home, b, t) {
        assert forall x | x != "" && home(x) == t && x != b.sid :: Viewed(views, x) == None;
      } else {
        TurnsBefore(home, done + front, b);
        HelloFits(home, views, done, front, [b] + more, t);
      }
    }
  }

  lemma TurnsBefore(home: string -> string, log: seq<Broadcast>, b: Broadcast)
    requires TurnLog(home, log + [b])
    ensures TurnLog(home, log)
  {
    hide InTurn;
    forall k | 0 <= k < |log| ensures InTurn(home, log[..k], log[k]) {
      assert (log + [b])[..k] == log[..k] && (log + [b])[k] == log[k];
    }
  }

  // ── one frame ─────────────────────────────────────────────────────────

  /** `b` either announces a thread, or tells a state under its session's own thread. */
  ghost predicate SaidAtHome(home: string -> string, b: Broadcast) {
    || (b.typ.ThreadStarted? && b.sid == "")
    || (Decode(b).Some? && b.sid != "" && b.thread != "" && home(b.sid) == b.thread)
  }

  ghost predicate CloudAtHome(home: string -> string, s: State) {
    IndexAgrees(s) && AtHome(home, s) && "" !in s.sessions
  }

  lemma BestMeans(home: string -> string, s: State, thread: string, best: Option<string>)
    requires CloudAtHome(home, s) && IsBest(s, thread, best)
    ensures best.Some? ==> best.value != "" && IsLive(s.sessions, best.value) && home(best.value) == thread
    ensures best.None? ==> forall x | home(x) == thread :: LiveState(s, x) == None
  {
  }

  lemma FrameAtHome(home: string -> string, cfg: Config, s: State, b: Broadcast, now: int, best: Option<string>,
      choice: Option<string>)
    requires CloudAtHome(home, s) && SaidAtHome(home, b) && FrameChoices(cfg, s, b, best, choice)
    ensures CloudAtHome(home, ApplyUpstream(cfg, s, b, now, best, choice))
  {
    hide ApplyUpstream, IndexAgrees, CreateChoice, IsBest;
    if UpstreamTarget(s, b, best).Some? {
      BestMeans(home, s, b.thread, best);
      FrameHits(cfg, s, b, now, best, choice);
    } else {
      UntargetedIsIdle(cfg, s, b, now, best, choice);
    }
  }

  /** An announcement leaves every thread as it was. */
  lemma AnnouncedFits(home: string -> string, cfg: Config, s: State, done: seq<Broadcast>, b: Broadcast,
      rest: seq<Broadcast>, now: int, best: Option<string>, choice: Option<string>, t: string)
    requires CloudAtHome(home, s) && FrameChoices(cfg, s, b, best, choice) && b.typ.ThreadStarted? && b.sid == ""
    requires Fits(home, s, done, [b] + rest, t)
    ensures Fits(home, ApplyUpstream(cfg, s, b, now, best, choice), done + [b], rest, t)
  {
    hide ApplyUpstream, IndexAgrees, AtHome, CreateChoice, IsBest, LastTold;
    var s' := ApplyUpstream(cfg, s, b, now, best, choice);
    if UpstreamTarget(s, b, best).Some? {
      BestMeans(home, s, b.thread, best);
      FrameHits(cfg, s, b, now, best, choice);
    } else {
      UntargetedIsIdle(cfg, s, b, now, best, choice);
    }
    assert forall x :: LiveState(s', x) == LiveState(s, x);
    assert forall x | x in s'.sessions :: x in s.sessions;
    forall x ensures Told(done + [b], x) == Told(done, x) { LastToldAppend(done, b, x); }
    StillFits(home, s, s', done, done + [b], b, rest, t);
  }

  /** Nothing of thread `t` changed, and `b` tells nothing of it. */
  lemma StillFits(home: string -> string, s: State, s': State, done: seq<Broadcast>, done': seq<Broadcast>,
      b: Broadcast, rest: seq<Broadcast>, t: string)
    requires Fits(home, s, done, [b] + rest, t) && !TellsOf(home, b, t)
    requires forall x | home(x) == t :: LiveState(s', x) == LiveState(s, x) && Told(done', x) == Told(done, x)
    requires forall x | home(x) == t && x in s'.sessions :: x in s.sessions
    ensures Fits(home, s', done', rest, t)
  {
    hide LiveState, Told, TellsOf;
    if !(forall x | x != "" && home(x) == t :: LiveState(s, x) == Told(done, x)) {
      var c :| c in [b] + rest && TellsOf(home, c, t) && forall x | x in s.sessions && home(x) == t :: x == c.sid;
      assert c in rest;
    }
  }

  /** A telling frame, on threads that are not its own. */
  lemma ElsewhereFits(home: string -> string, cfg: Config, s: State, done: seq<Broadcast>, b: Broadcast,
      rest: seq<Broadcast>, now: int, best: Option<string>, choice: Option<string>, t: string)
    requires CloudAtHome(home, s) && FrameChoices(cfg, s, b, best, choice) && SaidAtHome(home, b) && Decode(b).Some?
    requires home(b.sid) != t && Fits(home, s, done, [b] + rest, t)
    ensures Fits(home, ApplyUpstream(cfg, s, b, now, best, choice), done + [b], rest, t)
  {
    hide ApplyUpstream, IndexAgrees, AtHome, CreateChoice, IsBest, LastTold;
    var s' := ApplyUpstream(cfg, s, b, now, best, choice);
    BestMeans(home, s, b.thread, best);
    FrameHits(cfg, s, b, now, best, choice);
    forall x ensures home(x) == t ==> Told(done + [b], x) == Told(done, x) { LastToldAppend(done, b, x); }
    StillFits(home, s, s', done, done + [b], b, rest, t);
  }

  /** A telling frame, on its own thread: it lands, or it is written over the row of a session that is yet to
      be told of. */
  lemma OwnFits(home: string -> string, cfg: Config, s: State, done: seq<Broadcast>, b: Broadcast, rest: seq<Broadcast>,
                now: int, best: Option<string>, choice: Option<string>)
    requires CloudAtHome(home, s) && FrameChoices(cfg, s, b, best, choice) && SaidAtHome(home, b) && Decode(b).Some?
    requires InTurn(home, done, b) && Fits(home, s, done, [b] + rest, home(b.sid))
    ensures Fits(home, ApplyUpstream(cfg, s, b, now, best, choice), done + [b], rest, home(b.sid))
  {
    hide ApplyUpstream, IndexAgrees, AtHome, CreateChoice, IsBest, LastTold;
    var s', t := ApplyUpstream(cfg, s, b, now, best, choice), home(b.sid);
    BestMeans(home, s, b.thread, best);
    FrameHits(cfg, s, b, now, best, choice);
    forall x ensures LastTold(done + [b], x) == if x == b.sid then Decode(b) else LastTold(done, x) {
      LastToldAppend(done, b, x);
    }
    if UpstreamTarget(s, b, best) == Some(b.sid) {
      assert forall x | x != "" && x != b.sid && home(x) == t :: LiveState(s, x) == None by {
        MatesQuiet(home, s, done, b, rest, best);
      }
      assert forall x | x != "" && home(x) == t :: LiveState(s', x) == Told(done + [b], x);
    } else {
      var c := StillToTell(home, s, done, b, rest, best);
      assert forall x | x in s'.sessions && home(x) == t :: x == c.sid;
    }
  }

  lemma MatesQuiet(home: string -> string, s: State, done: seq<Broadcast>, b: Broadcast, rest: seq<Broadcast>,
      best: Option<string>)
    requires Fits(home, s, done, [b] + rest, home(b.sid)) && InTurn(home, done, b) && Decode(b).Some?
    requires best.Some? ==> IsLive(s.sessions, best.value) && home(best.value) == home(b.sid)
    requires best.None? ==> forall x | home(x) == home(b.sid) :: LiveState(s, x) == None
    requires b.sid in s.sessions || best.None?
    ensures forall x | x != "" && x != b.sid && home(x) == home(b.sid) :: LiveState(s, x) == None
  {
    hide LastTold;
  }

  lemma StillToTell(home: string -> string, s: State, done: seq<Broadcast>, b: Broadcast, rest: seq<Broadcast>,
      best: Option<string>)
    returns (c: Broadcast)
    requires Fits(home, s, done, [b] + rest, home(b.sid)) && InTurn(home, done, b) && Decode(b).Some?
    requires b.sid !in s.sessions && best.Some? && best.value != "" && IsLive(s.sessions, best.value)
    requires home(best.value) == home(b.sid)
    ensures c in rest && TellsOf(home, c, home(b.sid)) && c.sid == best.value
    ensures forall x | x in s.sessions && home(x) == home(b.sid) :: x == c.sid
  {
    hide LastTold;
    assert LiveState(s, best.value).Some? && best.value != b.sid && Told(done, best.value) == None;
    c :| c in [b] + rest && TellsOf(home, c, home(b.sid))
      && forall x | x in s.sessions && home(x) == home(b.sid) :: x == c.sid;
    assert c.sid == best.value && c != b;
  }

  lemma FrameFits(home: string -> string, cfg: Config, s: State, done: seq<Broadcast>, b: Broadcast,
      rest: seq<Broadcast>, now: int, best: Option<string>, choice: Option<string>, t: string)
    requires CloudAtHome(home, s) && FrameChoices(cfg, s, b, best, choice) && SaidAtHome(home, b)
    requires InTurn(home, done, b)
    requires Fits(home, s, done, [b] + rest, t)
    ensures Fits(home, ApplyUpstream(cfg, s, b, now, best, choice), done + [b], rest, t)
  {
    hide Fits, ApplyUpstream, CloudAtHome, FrameChoices, InTurn;
    if Decode(b).None? {
      AnnouncedFits(home, cfg, s, done, b, rest, now, best, choice, t);
    } else if home(b.sid) == t {
      OwnFits(home, cfg, s, done, b, rest, now, best, choice);
    } else {
      ElsewhereFits(home, cfg, s, done, b, rest, now, best, choice, t);
    }
  }

  // ── the hello ─────────────────────────────────────────────────────────

  /** A view names the thread its session belongs to, as either side derives it. */
  ghost predicate ViewAtHome(cfg: Config, home: string -> string, v: SessionView) {
    Counted(v) ==> cfg.env.threadIDFor(AgentOr(v.agent), v.cwd) == home(v.sid)
  }

  ghost predicate AllLive(s: State) {
    forall x | x in s.sessions :: LiveState(s, x).Some?
  }

  lemma SyncOneAtHome(cfg: Config, p: Setup, home: string -> string, s: State, v: SessionView, now: int,
      choice: Option<string>)
    requires SameDerivation(cfg, p) && CloudAtHome(home, s) && AllLive(s) && ViewAtHome(cfg, home, v)
    requires Counted(v) ==> CreateChoice(p.cloud, s, v.sid, choice)
    ensures var s' := SyncOne(p.cloud, s, v, now, choice); CloudAtHome(home, s') && AllLive(s')
  {
    hide IndexAgrees, CreateChoice, GetOrCreate, SyncRow;
    if Counted(v) {
      SyncOneKeeps(p.cloud, s, v, now, choice);
      hide SyncOne;
    }
  }

  lemma {:induction false} SyncAtHome(cfg: Config, p: Setup, home: string -> string, s: State, views: seq<SessionView>,
      now: int, choices: seq<Option<string>>)
    requires SameDerivation(cfg, p) && CloudAtHome(home, s) && AllLive(s)
    requires SyncChoices(p.cloud, s, views, now, choices)
    requires forall v | v in views :: ViewAtHome(cfg, home, v)
    ensures var s' := SyncSessions(p.cloud, s, views, now, choices); CloudAtHome(home, s') && AllLive(s')
    decreases |views|
  {
    hide SyncOne, CreateChoice, CloudAtHome, ViewAtHome, SameDerivation, AllLive;
    if views != [] {
      assert views[0] in views;
      SyncOneAtHome(cfg, p, home, s, views[0], now, choices[0]);
      SyncAtHome(cfg, p, home, SyncOne(p.cloud, s, views[0], now, choices[0]), views[1..], now, choices[1..]);
    }
  }

  /** A snapshot that fits leaves a cloud that does. */
  lemma HelloLandsFit(cfg: Config, p: Setup, home: string -> string, s: State, views: seq<SessionView>,
      done: seq<Broadcast>, rest: seq<Broadcast>, now: int, choices: seq<Option<string>>)
    requires SameDerivation(cfg, p) && SyncChoices(p.cloud, DropAll(s), views, now, choices)
    requires forall v | v in views :: ViewAtHome(cfg, home, v)
    ensures |choices| == |views|
    ensures var s' := SyncSessions(p.cloud, DropAll(s), views, now, choices);
      CloudAtHome(home, s') && forall t | ViewsFit(home, views, done, rest, t) :: Fits(home, s', done, rest, t)
  {
    assert |choices| == |views|;
    hide SyncSessions, SyncChoices, ViewAtHome, SameDerivation, IndexAgrees, LastTold, Viewed;
    var s0 := DropAll(s);
    DropKeepsIndex(s);
    SyncAtHome(cfg, p, home, s0, views, now, choices);
    var s' := SyncSessions(p.cloud, s0, views, now, choices);
    forall x ensures LiveState(s', x) == Viewed(views, x) {
      SyncTells(p.cloud, s0, views, now, choices, x);
    }
    forall t | ViewsFit(home, views, done, rest, t) ensures Fits(home, s', done, rest, t) {
      ViewsFitted(home, s', views, done, rest, t);
    }
  }

  lemma ViewsFitted(home: string -> string, s: State, views: seq<SessionView>, done: seq<Broadcast>,
      rest: seq<Broadcast>, t: string)
    requires ViewsFit(home, views, done, rest, t) && AllLive(s) && "" !in s.sessions
    requires forall x :: LiveState(s, x) == Viewed(views, x)
    ensures Fits(home, s, done, rest, t)
  {
    hide Viewed, Told, TellsOf;
    if !(forall x | x != "" && home(x) == t :: Viewed(views, x) == Told(done, x)) {
      var b :| b in rest && TellsOf(home, b, t)
        && forall x | x != "" && home(x) == t && x != b.sid :: Viewed(views, x) == None;
      assert forall x | x in s.sessions && home(x) == t :: x == b.sid;
    }
  }

  // ── the system ────────────────────────────────────────────────────────

  ghost predicate PacketAtHome(cfg: Config, home: string -> string, packet: Packet) {
    match packet
    case Hello(views) => forall v | v in views :: ViewAtHome(cfg, home, v)
    case Frame(b) => SaidAtHome(home, b)
  }

  ghost predicate AllAtHome(cfg: Config, home: string -> string, y: System) {
    && (forall b | b in y.out.queue :: SaidAtHome(home, b))
    && (forall i | 0 <= i < |y.wire| :: PacketAtHome(cfg, home, y.wire[i]) && (y.wire[i].Hello? ==> i == 0))
    && (y.up && (y.wire == [] || y.wire[0].Frame?) ==> CloudAtHome(home, y.cloud))
  }

  ghost predicate ThreadFits(home: string -> string, y: System, done: seq<Broadcast>, t: string) {
    if y.wire != [] && y.wire[0].Hello? then ViewsFit(home, y.wire[0].views, done, Rest(y), t)
    else Fits(home, y.cloud, done, Rest(y), t)
  }

  /** The log is what has been applied and what is yet to be, and every thread fits. */
  ghost predicate InStep(home: string -> string, y: System, done: seq<Broadcast>) {
    y.laptop.log == done + Rest(y) && forall t :: ThreadFits(home, y, done, t)
  }

  ghost predicate LaptopTurns(cfg: Config, home: string -> string, s: State) {
    Inv(s) && RowsDerived(cfg, s) && AtHome(home, s) && TurnLog(home, s.log)
  }

  ghost predicate TurnInv(cfg: Config, home: string -> string, y: System) {
    && LaptopTurns(cfg, home, y.laptop)
    && TailQueued(y.laptop.log, y.out)
    && AllAtHome(cfg, home, y)
    && (y.up && y.out.clean ==> exists done :: InStep(home, y, done))
  }

  lemma SpokenAtHome(cfg: Config, home: string -> string, s: State, b: Broadcast)
    requires RowsNamed(s) && RowsDerived(cfg, s) && AtHome(home, s) && Spoken(s, b)
    requires forall a, c :: cfg.env.threadIDFor(a, c) != ""
    ensures SaidAtHome(home, b)
  {
  }

  lemma LaptopStays(cfg: Config, home: string -> string, s: State, s': State)
    requires LaptopTurns(cfg, home, s) && SerialStep(cfg, s, s') && AtHome(home, s') && TakesTurn(home, s, s')
    requires forall a, c :: cfg.env.threadIDFor(a, c) != ""
    requires |s.log| <= |s'.log|
    ensures LaptopTurns(cfg, home, s') && forall b | b in s'.log[|s.log|..] :: SaidAtHome(home, b)
  {
    SerialKeeps(cfg, s, s');
    InvParts(s);
    InvParts(s');
    hide Inv, TakesTurn, TurnLog, SerialStep, StepTells, RowsNamed, FramesTell, RowsDerived, AtHome, Spoken, SaidAtHome;
    hide Said;
    NewsInTurn(home, s, s');
    forall b | b in s'.log[|s.log|..] ensures SaidAtHome(home, b) {
      SpokenAtHome(cfg, home, s', b);
    }
  }

  lemma LocalTurns(cfg: Config, home: string -> string, p: Setup, y: System, op: SysOp)
    requires SameDerivation(cfg, p) && TurnInv(cfg, home, y) && op.Local? && SysLegal(p, y, op)
    requires Tame(cfg, home, y, op)
    ensures TurnInv(cfg, home, SysStep(p, y, op))
  {
    var s, s', y' := y.laptop, op.next, SysStep(p, y, op);
    LocalIs(p, y, op);
    LocalTail(p, y, op);
    LaptopStays(cfg, home, s, s');
    var news := s'.log[|s.log|..];
    TakenIsNews(y.out, news, p.depth);
    hide SysStep, LaptopTurns, TailQueued, SaidAtHome, PacketAtHome, CloudAtHome, AtHome, TakesTurn, InStep, SerialStep;
    hide Proceeds, Taken, SameDerivation;
    if y'.up && y'.out.clean {
      var done :| InStep(home, y, done);
      StepOn(home, y, y', done, news);
    }
  }

  lemma StepOn(home: string -> string, y: System, y': System, done: seq<Broadcast>, news: seq<Broadcast>)
    requires InStep(home, y, done) && y'.laptop.log == y.laptop.log + news && y'.out.queue == y.out.queue + news
    requires y'.wire == y.wire && y'.cloud == y.cloud
    ensures InStep(home, y', done)
  {
    hide Fits, ViewsFit, Pending;
    assert Rest(y') == Rest(y) + news;
    assert y'.laptop.log == done + Rest(y');
    forall t ensures ThreadFits(home, y', done, t) {
      assert ThreadFits(home, y, done, t);
      if y.wire != [] && y.wire[0].Hello? {
        ViewsFitOn(home, y.wire[0].views, done, Rest(y), news, t);
      } else {
        FitsOn(home, y.cloud, done, Rest(y), news, t);
      }
    }
  }

  lemma ViewsAtHome(cfg: Config, home: string -> string, s: State, order: seq<string>)
    requires RowsNamed(s) && RowsDerived(cfg, s) && AtHome(home, s) && forall id | id in order :: id in s.sessions
    ensures forall v | v in Views(s.sessions, order) :: ViewAtHome(cfg, home, v)
  {
    forall v | v in Views(s.sessions, order) ensures ViewAtHome(cfg, home, v) {
      var i :| 0 <= i < |order| && v == ViewOf(s.sessions[order[i]]);
      assert order[i] in order;
    }
  }

  lemma ConnectTurns(cfg: Config, home: string -> string, p: Setup, y: System, op: SysOp)
    requires TurnInv(cfg, home, y) && op.Connect? && SysLegal(p, y, op)
    ensures TurnInv(cfg, home, SysStep(p, y, op))
  {
    hide SaidAtHome, CloudAtHome, RowsDerived, AtHome, IndexAgrees, TimersCover, NoneStarting, TurnLog, ViewAtHome;
    hide FramesTell;
    var y' := SysStep(p, y, op);
    var views, q, log := Views(y.laptop.sessions, op.order), y.out.queue, y.laptop.log;
    ViewsAtHome(cfg, home, y.laptop, op.order);
    if y'.out.clean {
      var done := log[..|log| - |q|];
      assert log == done + q;
      assert Pending(y'.wire) == [] by { NoFrames(views); }
      assert Rest(y') == q + [];
      hide Viewed, LastTold, ViewsFit, Rest, Pending;
      forall t ensures ThreadFits(home, y', done, t) {
        forall x | x != "" && home(x) == t ensures Viewed(views, x) == Told(done + q, x) {
          LogTellsLive(y.laptop, x);
          ViewedIs(y.laptop, op.order, x);
          if x !in y.laptop.sessions { AbsentIsNotLive(y.laptop, x); }
        }
        HelloFits(home, views, done, q, [], t);
      }
      assert InStep(home, y', done);
    }
  }

  lemma PumpTurns(cfg: Config, home: string -> string, p: Setup, y: System, op: SysOp)
    requires TurnInv(cfg, home, y) && op.Pump? && SysLegal(p, y, op)
    ensures TurnInv(cfg, home, SysStep(p, y, op))
  {
    hide LaptopTurns, SaidAtHome, TailQueued, CloudAtHome, Pending, Fits, ViewsFit;
    var y' := SysStep(p, y, op);
    PulledKeepsTail(y.laptop.log, y.out);
    assert y.out.queue[0] in y.out.queue;
    assert forall b | b in y'.out.queue :: b in y.out.queue;
    PendingAppend(y.wire, y.out.queue[0]);
    assert Rest(y') == Rest(y);
    if y.out.clean {
      var done :| InStep(home, y, done);
      forall t ensures ThreadFits(home, y', done, t) { assert ThreadFits(home, y, done, t); }
      assert InStep(home, y', done);
    }
  }

  lemma CutTurns(cfg: Config, home: string -> string, p: Setup, y: System, op: SysOp)
    requires TurnInv(cfg, home, y) && op.Cut? && SysLegal(p, y, op)
    ensures TurnInv(cfg, home, SysStep(p, y, op))
  {
    hide LaptopTurns, SaidAtHome, TailQueued, CloudAtHome, InStep, PacketAtHome;
    if y.out.queue != [] {
      PulledKeepsTail(y.laptop.log, y.out);
    }
  }

  lemma HelloTurns(cfg: Config, home: string -> string, p: Setup, y: System, op: SysOp)
    requires SameDerivation(cfg, p) && TurnInv(cfg, home, y) && op.Arrive? && SysLegal(p, y, op) && y.wire[0].Hello?
    ensures TurnInv(cfg, home, SysStep(p, y, op))
  {
    hide LaptopTurns, SaidAtHome, TailQueued, CloudAtHome, ViewAtHome, SyncSessions, SyncChoices, Fits, ViewsFit;
    hide SameDerivation;
    var y' := SysStep(p, y, op);
    assert PacketAtHome(cfg, home, y.wire[0]);
    HelloLandsFit(cfg, p, home, y.cloud, y.wire[0].views, [], [], op.now, op.choices);
    assert Rest(y') == Rest(y);
    if y.out.clean {
      var done :| InStep(home, y, done);
      HelloLandsFit(cfg, p, home, y.cloud, y.wire[0].views, done, Rest(y), op.now, op.choices);
      forall t ensures ThreadFits(home, y', done, t) { assert ThreadFits(home, y, done, t); }
      assert InStep(home, y', done);
    }
  }

  lemma FrameTurns(cfg: Config, home: string -> string, p: Setup, y: System, op: SysOp)
    requires TurnInv(cfg, home, y) && op.Arrive? && SysLegal(p, y, op) && y.wire[0].Frame?
    ensures TurnInv(cfg, home, SysStep(p, y, op))
  {
    hide SaidAtHome, TailQueued, CloudAtHome, ApplyUpstream, FrameChoices, Fits, ViewsFit, Inv, RowsDerived, AtHome;
    hide InTurn;
    var y', b := SysStep(p, y, op), y.wire[0].b;
    assert PacketAtHome(cfg, home, y.wire[0]);
    FrameAtHome(home, p.cloud, y.cloud, b, op.now, op.best, op.choice);
    assert Rest(y) == [b] + Rest(y');
    if y.out.clean {
      var done :| InStep(home, y, done);
      var log := y.laptop.log;
      assert log == (done + [b]) + Rest(y') && log[..|done|] == done && log[|done|] == b;
      assert InTurn(home, done, b);
      forall t ensures ThreadFits(home, y', done + [b], t) {
        assert ThreadFits(home, y, done, t);
        FrameFits(home, p.cloud, y.cloud, done, b, Rest(y'), op.now, op.best, op.choice, t);
      }
      assert InStep(home, y', done + [b]);
    }
  }

  lemma StepTurns(cfg: Config, home: string -> string, p: Setup, y: System, op: SysOp)
    requires SameDerivation(cfg, p) && TurnInv(cfg, home, y) && SysLegal(p, y, op) && Tame(cfg, home, y, op)
    ensures TurnInv(cfg, home, SysStep(p, y, op))
  {
    hide TurnInv, SysStep, Tame, SameDerivation;
    match op
    case Local(_) => LocalTurns(cfg, home, p, y, op);
    case Connect(_) => ConnectTurns(cfg, home, p, y, op);
    case Pump => PumpTurns(cfg, home, p, y, op);
    case Cut(_, _) => CutTurns(cfg, home, p, y, op);
    case Arrive(_, _, _, _) =>
      if y.wire[0].Hello? { HelloTurns(cfg, home, p, y, op); } else { FrameTurns(cfg, home, p, y, op); }
  }

  lemma {:induction false} RunTurns(cfg: Config, home: string -> string, p: Setup, y: System, ops: seq<SysOp>)
    requires SameDerivation(cfg, p) && TurnInv(cfg, home, y) && SysLegalRun(p, y, ops) && TurnRun(cfg, home, p, y, ops)
    ensures TurnInv(cfg, home, SysExec(p, y, ops))
    decreases |ops|
  {
    hide TurnInv, SysStep, SysLegal, Tame, SameDerivation;
    if ops != [] {
      StepTurns(cfg, home, p, y, ops[0]);
      RunTurns(cfg, home, p, SysStep(p, y, ops[0]), ops[1..]);
    }
  }

  lemma QuietTurns(cfg: Config, home: string -> string)
    ensures TurnInv(cfg, home, QUIET)
  {
    InitInv();
  }

  lemma AllApplied(cfg: Config, home: string -> string, y: System, x: string)
    requires TurnInv(cfg, home, y) && AllDelivered(y) && y.out.clean && x != ""
    ensures LiveState(y.cloud, x) == LiveState(y.laptop, x)
  {
    hide AllAtHome, TailQueued, RowsDerived, AtHome, TurnLog, LiveState, LastTold;
    var done :| InStep(home, y, done);
    assert Rest(y) == [] && done == y.laptop.log;
    assert ThreadFits(home, y, done, home(x));
    InvParts(y.laptop);
    LogTellsLive(y.laptop, x);
  }

  /** In every run in which sessions of a thread take turns, one ending before the next starts, whatever the
      cloud did on the way: a bridge that is up, has lost nothing since its hello and has delivered all it
      holds has left every session of the cloud in the laptop's state, a DEAD row counting as no row. */
  lemma {:induction false} TurnsConverge(cfg: Config, home: string -> string, p: Setup, ops: seq<SysOp>, x: string)
    requires SameDerivation(cfg, p) && SysLegalRun(p, QUIET, ops) && TurnRun(cfg, home, p, QUIET, ops) && x != ""
    requires var y := SysExec(p, QUIET, ops); AllDelivered(y) && y.out.clean
    ensures var y := SysExec(p, QUIET, ops); LiveState(y.cloud, x) == LiveState(y.laptop, x)
  {
    hide *;
    QuietTurns(cfg, home);
    RunTurns(cfg, home, p, QUIET, ops);
    AllApplied(cfg, home, SysExec(p, QUIET, ops), x);
  }
}
