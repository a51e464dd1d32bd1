/** The cloud's relay endpoint: one laptop at a time, replaced connections, and the callback that empties
    the table when the last one goes. */
module Proxy {
  import opened Wire
  import opened MuxSpec
  import opened MuxInvariants
  import opened Upstream

  // ── the machine ───────────────────────────────────────────────────────

  /** A connection's handler reads until its connection ends; one that cleared `conn` then still owes the
      disconnect callback. */
  datatype Phase = Reading | Leaving

  datatype Relay = Relay(conn: Option<nat>, handlers: map<nat, Phase>, table: State)

  datatype Move =
    | Attach(c: nat)
    | ReadHello(c: nat, views: seq<SessionView>, now: int, choices: seq<Option<string>>)
    | ReadFrame(c: nat, b: Broadcast, now: int, best: Option<string>, choice: Option<string>)
    | Detach(c: nat)
    | Callback(c: nat)

  predicate IsReading(y: Relay, c: nat) {
    c in y.handlers && y.handlers[c].Reading?
  }

  ghost predicate Legal(cfg: Config, y: Relay, m: Move) {
    match m
    case Attach(c) => c !in y.handlers
    case ReadHello(c, views, now, choices) => IsReading(y, c) && SyncChoices(cfg, DropAll(y.table), views, now, choices)
    case ReadFrame(c, b, now, best, choice) =>
      IsReading(y, c) && (!b.typ.NoType? ==> FrameChoices(cfg, y.table, b, best, choice))
    case Detach(c) => IsReading(y, c)
    case Callback(c) => c in y.handlers && y.handlers[c].Leaving?
  }

  function Next(cfg: Config, y: Relay, m: Move): Relay
    requires m.ReadHello? ==> |m.choices| == |m.views|
  {
    match m
    case Attach(c) => y.(conn := Some(c), handlers := y.handlers[c := Reading])
    case ReadHello(c, views, now, choices) => y.(table := SyncSessions(cfg, DropAll(y.table), views, now, choices))
    case ReadFrame(c, b, now, best, choice) => y.(table := ApplyUpstream(cfg, y.table, b, now, best, choice))
    case Detach(c) =>
      if y.conn == Some(c) then y.(conn := None, handlers := y.handlers[c := Leaving])
      else y.(handlers := y.handlers - {c})
    case Callback(c) => y.(table := DropAll(y.table), handlers := y.handlers - {c})
  }

  ghost predicate Runs(cfg: Config, y: Relay, moves: seq<Move>, end: Relay)
    decreases |moves|
  {
    if moves == [] then end == y
    else Legal(cfg, y, moves[0]) && Runs(cfg, Next(cfg, y, moves[0]), moves[1..], end)
  }

  const IDLE := Relay(None, map[], INIT)

  // ── state dies with its peer ──────────────────────────────────────────

  predicate Owing(y: Relay) {
    exists c | c in y.handlers :: y.handlers[c].Leaving?
  }

  ghost predicate RelayInv(y: Relay) {
    && IndexAgrees(y.table)
    && (y.conn.Some? ==> IsReading(y, y.conn.value))
    && (y.conn.None? && !Owing(y) ==> y.table.sessions == map[])
  }

  lemma HelloKeepsIndex(cfg: Config, s: State, views: seq<SessionView>, now: int, choices: seq<Option<string>>)
    requires SyncChoices(cfg, DropAll(s), views, now, choices)
    ensures IndexAgrees(SyncSessions(cfg, DropAll(s), views, now, choices))
  {
    DropKeepsIndex(s);
    hide SyncSessions, SyncChoices, IndexAgrees;
    SyncKeepsIndex(cfg, DropAll(s), views, now, choices);
  }

  /** A packet applied with nobody attached and no callback owed: one that a replaced connection had read
      before its replacement came and went. */
  predicate Orphan(y: Relay, m: Move) {
    (m.ReadHello? || m.ReadFrame?) && y.conn.None? && !Owing(y)
  }

  /** The packet makes a row in an empty table. */
  predicate MakesRow(m: Move) {
    if m.ReadHello? then exists v | v in m.views :: Counted(v)
    else m.ReadFrame? && !m.b.typ.NoType? && m.b.sid != ""
  }

  predicate Strands(y: Relay, m: Move) {
    Orphan(y, m) && MakesRow(m)
  }

  lemma {:induction false} ViewedMeans(views: seq<SessionView>, x: string)
    ensures Viewed(views, x).Some? <==> exists v | v in views :: Counted(v) && v.sid == x
  {
    if views != [] {
      ViewedMeans(views[1..], x);
      assert views == [views[0]] + views[1..];
      if Viewed(views, x).Some? && Viewed(views[1..], x).None? {
        assert views[0] in views;
      }
    }
  }

  /** A hello fills the table exactly if it counts anybody. */
  lemma HelloFills(cfg: Config, s: State, views: seq<SessionView>, now: int, choices: seq<Option<string>>)
    requires SyncChoices(cfg, DropAll(s), views, now, choices)
    ensures SyncSessions(cfg, DropAll(s), views, now, choices).sessions != map[] <==>
      exists v | v in views :: Counted(v)
  {
    var s' := SyncSessions(cfg, DropAll(s), views, now, choices);
    hide SyncSessions, SyncChoices;
    SyncNoneDead(cfg, DropAll(s), views, now, choices);
    forall x ensures x in s'.sessions <==> exists v | v in views :: Counted(v) && v.sid == x {
      SyncTells(cfg, DropAll(s), views, now, choices, x);
      ViewedMeans(views, x);
    }
    if v :| v in views && Counted(v) {
      assert v.sid in s'.sessions;
    }
    if s'.sessions != map[] {
      var x :| x in s'.sessions;
    }
  }

  /** A frame fills an empty table exactly if it says something of a session it names. */
  lemma FrameFills(cfg: Config, s: State, b: Broadcast, now: int, best: Option<string>, choice: Option<string>)
    requires IndexAgrees(s) && s.sessions == map[] && (!b.typ.NoType? ==> FrameChoices(cfg, s, b, best, choice))
    ensures ApplyUpstream(cfg, s, b, now, best, choice).sessions != map[] <==> !b.typ.NoType? && b.sid != ""
  {
    EmptyIndex(s);
    if !b.typ.NoType? {
      assert best.None?;
      if b.sid != "" {
        FrameHits(cfg, s, b, now, best, choice);
      }
    }
    hide GetOrCreate, Rekey, ApplyFrame;
  }

  /** What a run keeps is broken by stranding packets and by nothing else. */
  lemma MoveKeepsIff(cfg: Config, y: Relay, m: Move)
    requires RelayInv(y) && Legal(cfg, y, m)
    ensures RelayInv(Next(cfg, y, m)) <==> !Strands(y, m)
  {
    hide IndexAgrees, SyncSessions, ApplyUpstream, FrameChoices;
    var z := Next(cfg, y, m);
    match m
    case Attach(c) =>
    case ReadHello(c, views, now, choices) =>
      HelloKeepsIndex(cfg, y.table, views, now, choices);
      HelloFills(cfg, y.table, views, now, choices);
    case ReadFrame(c, b, now, best, choice) =>
      FrameKeepsIndex(cfg, y.table, b, now, best, choice);
      if Orphan(y, m) { FrameFills(cfg, y.table, b, now, best, choice); }
    case Detach(c) =>
      if y.conn == Some(c) {
        assert z.handlers[c].Leaving?;
      } else if Owing(y) {
        var d :| d in y.handlers && y.handlers[d].Leaving?;
        assert d in z.handlers && z.handlers[d].Leaving?;
      }
    case Callback(c) => DropKeepsIndex(y.table);
  }

  /** A run in which no packet is stranded. */
  ghost predicate RunsKept(cfg: Config, y: Relay, moves: seq<Move>, end: Relay)
    decreases |moves|
  {
    if moves == [] then end == y
    else
      Legal(cfg, y, moves[0]) && !Strands(y, moves[0]) && RunsKept(cfg, Next(cfg, y, moves[0]), moves[1..], end)
  }

  lemma {:induction false} RunKeeps(cfg: Config, y: Relay, moves: seq<Move>, end: Relay)
    requires RelayInv(y) && RunsKept(cfg, y, moves, end)
    ensures RelayInv(end)
    decreases |moves|
  {
    hide RelayInv, FrameChoices, SyncSessions, ApplyUpstream, Strands;
    if moves != [] {
      MoveKeepsIff(cfg, y, moves[0]);
      RunKeeps(cfg, Next(cfg, y, moves[0]), moves[1..], end);
    }
  }

  /** However connections come, replace each other and go, callbacks and packets of replaced connections
      running whenever they get to: unless a packet is stranded, with no peer attached and no callback
      still owed the table is empty. */
  lemma StateDiesWithPeer(cfg: Config, moves: seq<Move>, end: Relay)
    requires RunsKept(cfg, IDLE, moves, end) && end.conn.None? && !Owing(end)
    ensures end.table.sessions == map[] && end.table.threads == map[]
  {
    assert RelayInv(IDLE);
    RunKeeps(cfg, IDLE, moves, end);
    EmptyIndex(end.table);
  }

  /** And a stranded packet always leaves rows behind, with nobody attached and nothing owed. */
  lemma StrandedShows(cfg: Config, moves: seq<Move>, y: Relay, m: Move)
    requires RunsKept(cfg, IDLE, moves, y) && Legal(cfg, y, m) && Strands(y, m)
    ensures var z := Next(cfg, y, m); z.conn.None? && !Owing(z) && z.table.sessions != map[]
  {
    assert RelayInv(IDLE);
    RunKeeps(cfg, IDLE, moves, y);
    MoveKeepsIff(cfg, y, m);
    hide RunsKept, SyncSessions, ApplyUpstream, FrameChoices, IndexAgrees;
    match m
    case ReadHello(c, views, now, choices) => HelloFills(cfg, y.table, views, now, choices);
    case ReadFrame(c, b, now, best, choice) => FrameFills(cfg, y.table, b, now, best, choice);
    case _ =>
  }

  lemma RunsFirst(cfg: Config, y: Relay, m: Move, rest: seq<Move>, end: Relay)
    requires Legal(cfg, y, m) && Runs(cfg, Next(cfg, y, m), rest, end)
    ensures Runs(cfg, y, [m] + rest, end)
  {
    assert ([m] + rest)[1..] == rest;
  }

  lemma LateFrameMakesRow(cfg: Config, s: State, b: Broadcast, now: int)
    requires s.sessions == map[] && s.threads == map[] && b.sid != "" && !b.typ.NoType?
    ensures FrameChoices(cfg, s, b, None, None) && b.sid in ApplyUpstream(cfg, s, b, now, None, None).sessions
  {
    assert FrameChoices(cfg, s, b, None, None);
    FrameHits(cfg, s, b, now, None, None);
  }

  /** A replaced connection's packet, read before the replacement and applied after it, escapes that: once
      the new peer has come and gone the row it made stays, with nobody attached and nothing owed. */
  lemma LatePacketStays(cfg: Config, y: Relay, older: nat, newer: nat, b: Broadcast, now: int)
    returns (moves: seq<Move>, end: Relay)
    requires older != newer && y.conn == Some(newer) && y.handlers == map[older := Reading, newer := Reading]
    requires b.sid != "" && !b.typ.NoType?
    ensures Runs(cfg, y, moves, end) && end.conn.None? && end.handlers == map[]
    ensures b.sid in end.table.sessions
  {
    hide ApplyUpstream, FrameChoices;
    var y1 := Next(cfg, y, Detach(newer));
    var y2 := Next(cfg, y1, Callback(newer));
    var frame := ReadFrame(older, b, now, None, None);
    assert y2.handlers == map[older := Reading];
    LateFrameMakesRow(cfg, y2.table, b, now);
    var y3 := Next(cfg, y2, frame);
    end := Next(cfg, y3, Detach(older));
    assert end.handlers == map[];
    moves := [Detach(older)] + [];
    RunsFirst(cfg, y3, Detach(older), [], end);
    RunsFirst(cfg, y2, frame, moves, end);
    moves := [frame] + moves;
    RunsFirst(cfg, y1, Callback(newer), moves, end);
    moves := [Callback(newer)] + moves;
    RunsFirst(cfg, y, Detach(newer), moves, end);
    moves := [Detach(newer)] + moves;
  }

  // ── a hello is the table ──────────────────────────────────────────────

  ghost predicate NoneDead(s: State) {
    forall x | x in s.sessions :: !s.sessions[x].state.Dead?
  }

  lemma {:induction false} SyncNoneDead(cfg: Config, s: State, views: seq<SessionView>, now: int,
      choices: seq<Option<string>>)
    requires SyncChoices(cfg, s, views, now, choices) && NoneDead(s)
    ensures NoneDead(SyncSessions(cfg, s, views, now, choices))
    decreases |views|
  {
    if views != [] {
      if Counted(views[0]) {
        SyncOneKeeps(cfg, s, views[0], now, choices[0]);
      }
      hide SyncOne, CreateChoice;
      SyncNoneDead(cfg, SyncOne(cfg, s, views[0], now, choices[0]), views[1..], now, choices[1..]);
    }
  }

  /** Right after a hello the table has a row for exactly the sessions the hello counts, each in the state
      it gives, whatever was there before and however small the table. */
  lemma HelloIsTheTable(cfg: Config, y: Relay, m: Move, x: string)
    requires m.ReadHello? && Legal(cfg, y, m)
    ensures x in Next(cfg, y, m).table.sessions <==> Viewed(m.views, x).Some?
    ensures Viewed(m.views, x).Some? ==> Next(cfg, y, m).table.sessions[x].state == Viewed(m.views, x).value
  {
    var s := DropAll(y.table);
    hide SyncSessions, SyncChoices, Viewed;
    SyncTells(cfg, s, m.views, m.now, m.choices, x);
    SyncNoneDead(cfg, s, m.views, m.now, m.choices);
  }

  // ── what goes on behind the attached peer ─────────────────────────────

  /** Moves the attached peer does not make: callbacks owed, and whatever other handlers still read or do. */
  predicate Background(y: Relay, m: Move) {
    !m.Attach? && y.conn != Some(m.c)
  }

  ghost predicate RunsBehind(cfg: Config, y: Relay, moves: seq<Move>, end: Relay)
    decreases |moves|
  {
    if moves == [] then end == y
    else
      Legal(cfg, y, moves[0]) && Background(y, moves[0]) && RunsBehind(cfg, Next(cfg, y, moves[0]), moves[1..], end)
  }

  /** Nothing that goes on behind the attached peer changes the table. */
  ghost predicate Stands(cfg: Config, y: Relay) {
    forall moves, end | RunsBehind(cfg, y, moves, end) :: end.table == y.table
  }

  /** No handler but the attached peer's is left. */
  predicate Alone(y: Relay) {
    forall c | c in y.handlers :: y.conn == Some(c)
  }

  /** Any other handler can empty the table: by its callback, or by an empty hello it had read. */
  lemma OtherWipes(cfg: Config, y: Relay, d: nat) returns (moves: seq<Move>, end: Relay)
    requires d in y.handlers && y.conn != Some(d)
    ensures RunsBehind(cfg, y, moves, end) && end.conn == y.conn && end.table.sessions == map[]
  {
    var m := if y.handlers[d].Leaving? then Callback(d) else ReadHello(d, [], 0, []);
    end := Next(cfg, y, m);
    moves := [m];
    assert moves[1..] == [] && RunsBehind(cfg, end, moves[1..], end);
  }

  /** What the attached peer has said stands against everything going on behind it exactly if no handler but
      its own is left: neither a callback owed nor a replaced connection still reading. */
  lemma FreshStateStands(cfg: Config, y: Relay)
    requires y.table.sessions != map[]
    ensures Stands(cfg, y) <==> Alone(y)
  {
    if !Alone(y) {
      var d :| d in y.handlers && y.conn != Some(d);
      var moves, end := OtherWipes(cfg, y, d);
      assert RunsBehind(cfg, y, moves, end);
    } else {
      assert forall m :: !(Legal(cfg, y, m) && Background(y, m));
      assert forall moves, end | RunsBehind(cfg, y, moves, end) :: end == y;
    }
  }
}
