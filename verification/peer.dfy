/** The relay endpoint over a real mux: each step of a handler is a move of the Proxy machine. */
module Peer {
  import opened Wire
  import opened MuxSpec
  import opened MuxInvariants
  import opened Proxy
  import opened Upstream
  import SessionMux

  /** What the web clients hear when a dropped session goes. */
  function Farewell(v: SessionView, now: int): Broadcast {
    Broadcast(ThreadEnded, v.threadID, v.sid, v.caption, v.agent, "", "", "", NotAwaiting, "", false, now)
  }

  class PeerServer {
    const hub: SessionMux.Mux
    const ephemeral: bool
    var conn: Option<nat>
    ghost var handlers: map<nat, Phase>

    ghost predicate Valid()
      reads this, hub, hub.sessions.Values
    {
      hub.Valid() && IndexAgrees(hub.View())
    }

    ghost function View(): Relay
      reads this, hub, hub.sessions.Values
    {
      Relay(conn, handlers, hub.View())
    }

    constructor (hub: SessionMux.Mux, ephemeral: bool)
      requires hub.Valid() && IndexAgrees(hub.View())
      ensures Valid() && this.hub == hub && this.ephemeral == ephemeral && View() == Relay(None, map[], hub.View())
    {
      this.hub, this.ephemeral := hub, ephemeral;
      conn := None;
      handlers := map[];
    }

    /** A laptop connects; a connection still held is closed and forgotten. */
    method Attach(c: nat)
      requires Valid() && c !in handlers
      modifies this
      ensures Valid() && View() == Next(hub.cfg, old(View()), Proxy.Attach(c))
      ensures conn == Some(c) && hub.View() == old(hub.View())
    {
      hide IndexAgrees, SessionMux.Mux.View, SessionMux.Mux.Valid;
      conn := Some(c);
      handlers := handlers[c := Reading];
    }

    /** The connecting laptop's snapshot replaces whatever an ephemeral table held, and joins any other. */
    method ReadHello(c: nat, views: seq<SessionView>, now: int) returns (ghost choices: seq<Option<string>>)
      requires Valid() && IsReading(View(), c)
      modifies hub`sessions, hub`threads, hub.sessions.Values
      ensures Valid() && |choices| == |views|
      ensures var move := Proxy.ReadHello(c, views, now, choices);
        ephemeral ==> Proxy.Legal(hub.cfg, old(View()), move) && View() == Next(hub.cfg, old(View()), move)
      ensures !ephemeral ==>
        && SyncChoices(hub.cfg, old(hub.View()), views, now, choices)
        && View() == old(View()).(table := SyncSessions(hub.cfg, old(hub.View()), views, now, choices))
    {
      hide IndexAgrees, SyncSessions, SyncChoices;
      ghost var was := hub.View();
      if ephemeral {
        var dropped, order := hub.DropAll();
        assert hub.sessions.Keys == hub.Table().Keys == {};
      }
      ghost var from := hub.View();
      choices := hub.SyncSessions(views, now);
      ChoicesFit(hub.cfg, from, views, now, choices);
      if ephemeral {
        HelloKeepsIndex(hub.cfg, was, views, now, choices);
      } else {
        SyncKeepsIndex(hub.cfg, was, views, now, choices);
      }
    }

    method ReadFrame(c: nat, b: Broadcast, now: int) returns (ghost move: Move)
      requires Valid() && IsReading(View(), c)
      modifies hub`sessions, hub`threads, hub.sessions.Values
      ensures Valid() && move.ReadFrame? && move.c == c && move.b == b
      ensures Proxy.Legal(hub.cfg, old(View()), move) && View() == Next(hub.cfg, old(View()), move)
    {
      hide ApplyUpstream, FrameChoices;
      ghost var was := hub.View();
      IndexedRows(was, b.thread);
      var best, choice := hub.ApplyUpstream(b, now);
      move := Proxy.ReadFrame(c, b, now, best, choice);
      FrameKeepsIndex(hub.cfg, was, b, now, best, choice);
    }

    /** The read loop ended; the answer says whether the disconnect callback is now owed. */
    method Detach(c: nat) returns (last: bool)
      requires Valid() && IsReading(View(), c)
      modifies this
      ensures Valid() && View() == Next(hub.cfg, old(View()), Proxy.Detach(c))
      ensures last <==> c in handlers
      ensures last <==> old(conn) == Some(c)
      ensures conn == (if last then None else old(conn)) && hub.View() == old(hub.View())
    {
      hide IndexAgrees, SessionMux.Mux.View, SessionMux.Mux.Valid;
      last := conn == Some(c);
      if last {
        conn := None;
        handlers := handlers[c := Leaving];
      } else {
        handlers := handlers - {c};
      }
    }

    /** The callback: every row goes, and the web clients are told each session ended. */
    method OnDisconnect(c: nat, now: int) returns (told: seq<Broadcast>)
      requires Valid() && c in handlers && handlers[c].Leaving?
      modifies this`handlers, hub`sessions, hub`threads
      ensures Valid() && View() == Next(hub.cfg, old(View()), Callback(c))
      ensures hub.sessions == map[] && hub.threads == map[] && conn == old(conn) && c !in handlers
      ensures |told| == |old(hub.sessions)|
      ensures forall id :: id in old(hub.sessions) <==> exists b | b in told :: b.sid == id
      ensures forall b | b in told :: Decode(b) == Some(Dead)
      ensures forall b | b in told ::
        && b.sid in old(hub.Table())
        && var r := old(hub.Table())[b.sid];
        b.typ.ThreadEnded? && b.thread == r.threadID && b.caption == r.caption && b.agent == r.agent && b.at == now
    {
      hide IndexAgrees;
      ghost var was := hub.Table();
      DropKeepsIndex(hub.View());
      var dropped, order := hub.DropAll();
      handlers := handlers - {c};
      told := TellEnded(dropped, now);
      ToldAll(was, order, dropped, told, now);
    }
  }

  method TellEnded(dropped: seq<SessionView>, now: int) returns (told: seq<Broadcast>)
    ensures |told| == |dropped| && forall j | 0 <= j < |told| :: told[j] == Farewell(dropped[j], now)
  {
    told := [];
    var i := 0;
    while i < |dropped|
      invariant 0 <= i <= |dropped| && |told| == i
      invariant forall j | 0 <= j < i :: told[j] == Farewell(dropped[j], now)
    {
      told := told + [Farewell(dropped[i], now)];
      i := i + 1;
    }
  }

  lemma ToldAll(table: map<string, Row>, order: seq<string>, dropped: seq<SessionView>, told: seq<Broadcast>, now: int)
    requires forall id :: id in order <==> id in table
    requires forall id | id in table :: table[id].id == id
    requires dropped == Views(table, order)
    requires |told| == |dropped| && forall j | 0 <= j < |told| :: told[j] == Farewell(dropped[j], now)
    ensures forall id :: id in table <==> exists b | b in told :: b.sid == id
    ensures forall b | b in told :: Decode(b) == Some(Dead)
    ensures forall b | b in told ::
      && b.sid in table
      && var r := table[b.sid];
      b.typ.ThreadEnded? && b.thread == r.threadID && b.caption == r.caption && b.agent == r.agent && b.at == now
  {
    forall id | id in table ensures exists b | b in told :: b.sid == id {
      var j :| 0 <= j < |order| && order[j] == id;
      assert told[j] in told && told[j].sid == id;
    }
    forall b | b in told
      ensures b.sid in table && b.thread == table[b.sid].threadID && b.caption == table[b.sid].caption
      ensures b.agent == table[b.sid].agent && b.at == now && b.typ.ThreadEnded?
    {
      var j :| 0 <= j < |told| && told[j] == b;
      assert b.sid == order[j];
    }
  }

  lemma ChoicesFit(cfg: Config, s: State, views: seq<SessionView>, now: int, choices: seq<Option<string>>)
    requires SyncChoices(cfg, s, views, now, choices)
    ensures |choices| == |views|
  {
  }

  lemma IndexedRows(s: State, thread: string)
    requires IndexAgrees(s)
    ensures thread in s.threads ==> s.threads[thread] <= s.sessions.Keys
  {
  }
}
