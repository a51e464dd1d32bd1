/** The history store: the broadcast journal, and the sessions table projected from it. */
module HistoryStore {
  import opened Wire
  import Journal

  /** A row of the sessions table; absent values are empty. */
  datatype Record = Record(
    thread: string,
    agent: string,
    cwd: string,
    caption: string,
    state: string,
    firstSeen: int,
    lastSeen: int)

  datatype Interaction = Interaction(
    at: int,
    sid: string,
    thread: string,
    agent: string,
    role: string,
    text: string,
    status: string)

  function Dated(b: Broadcast, now: int): Broadcast {
    if b.at == 0 then b.(at := now) else b
  }

  function ProjectedState(t: BroadcastType): string {
    match t
    case ThreadBusy => "BUSY"
    case ThreadIdle => "IDLE"
    case ThreadEnded => "DEAD"
    case ThreadStarted => "STARTING"
    case _ => ""
  }

  predicate Projects(b: Broadcast) {
    b.thread != "" || b.sid != ""
  }

  function KeyOf(b: Broadcast): string {
    Or(b.sid, b.thread)
  }

  /** Insert, or on conflict keep the old value of every column the new one leaves empty. */
  function Upsert(table: map<string, Record>, b: Broadcast): map<string, Record> {
    var k := KeyOf(b);
    if !Projects(b) then table
    else if k !in table then
      table[k := Record(b.thread, b.agent, b.cwd, b.caption, ProjectedState(b.typ), b.at, b.at)]
    else
      var r := table[k];
      table[k := Record(Or(b.thread, r.thread), Or(b.agent, r.agent), Or(b.cwd, r.cwd), Or(b.caption, r.caption),
                        Or(ProjectedState(b.typ), r.state), r.firstSeen, b.at)]
  }

  /** The sessions table a journal projects to. */
  function Projected(log: seq<Broadcast>): map<string, Record> {
    if log == [] then map[] else Upsert(Projected(log[..|log| - 1]), log[|log| - 1])
  }

  /** The assistant turns a journal records. */
  function Turns(log: seq<Broadcast>): seq<Interaction> {
    if log == [] then []
    else
      var b := log[|log| - 1];
      Turns(log[..|log| - 1])
        + (if b.lastAssistant != ""
           then [Interaction(b.at, b.sid, b.thread, b.agent, "assistant", b.lastAssistant, "")] else [])
  }

  class Store {
    var log: seq<Broadcast>
    var sessions: map<string, Record>
    var interactions: seq<Interaction>

    /** The table is the journal's projection, and the assistant turns are those it tells. */
    ghost predicate Valid()
      reads this
    {
      sessions == Projected(log) && Spoken(interactions) == Turns(log)
    }

    constructor ()
      ensures Valid() && log == [] && interactions == []
    {
      log, sessions, interactions := [], map[], [];
    }

    method Append(b: Broadcast, now: int, stored: bool) returns (num: nat)
      requires Valid()
      modifies this
      ensures Valid()
      ensures log == if stored then old(log) + [b.(at := if b.at == 0 then now else b.at)] else old(log)
      ensures interactions ==
        if stored && b.lastAssistant != ""
        then old(interactions) + [Interaction(if b.at == 0 then now else b.at, b.sid, b.thread, b.agent, "assistant",
                                              b.lastAssistant, "")]
        else old(interactions)
      ensures num == if stored then |log| else 0
    {
      if !stored {
        return 0;
      }
      var d := if b.at == 0 then b.(at := now) else b;
      log := log + [d];
      assert log[..|log| - 1] == old(log);
      ProjectSession(d);
      if d.lastAssistant != "" {
        var turn := Interaction(d.at, d.sid, d.thread, d.agent, "assistant", d.lastAssistant, "");
        assert (interactions + [turn])[..|interactions|] == interactions;
        interactions := interactions + [turn];
      }
      num := |log|;
    }

    method ProjectSession(b: Broadcast)
      modifies this`sessions
      ensures sessions == Upsert(old(sessions), b)
    {
      if b.thread == "" && b.sid == "" {
        return;
      }
      var state := "";
      match b.typ {
        case ThreadBusy => state := "BUSY";
        case ThreadIdle => state := "IDLE";
        case ThreadEnded => state := "DEAD";
        case ThreadStarted => state := "STARTING";
        case NoType =>
        case HudYank =>
        case OtherType =>
      }
      var key := if b.sid != "" then b.sid else b.thread;
      if key in sessions {
        var r := sessions[key];
        sessions := sessions[key := Record(
          if b.thread != "" then b.thread else r.thread,
          if b.agent != "" then b.agent else r.agent,
          if b.cwd != "" then b.cwd else r.cwd,
          if b.caption != "" then b.caption else r.caption,
          if state != "" then state else r.state,
          r.firstSeen, b.at)];
      } else {
        sessions := sessions[key := Record(b.thread, b.agent, b.cwd, b.caption, state, b.at, b.at)];
      }
    }

    method Head() returns (num: nat)
      ensures num == Journal.Head(log)
    {
      num := |log|;
    }

    /** The rows numbered above `after`, in order. */
    method ReplayAfter(after: int) returns (rows: seq<Journal.Item>)
      ensures rows == Journal.ReplayAfter(log, after)
    {
      rows := [];
      var i := 0;
      while i < |log|
        invariant 0 <= i <= |log| && rows == Journal.ReplayAfter(log[..i], after)
      {
        ReplayGrows(log, i, after);
        if i + 1 > after {
          rows := rows + [Journal.Row(i + 1, log[i])];
        }
        i := i + 1;
      }
      assert log[..i] == log;
    }

    method RecordHuman(sid: string, thread: string, agent: string, text: string, status: string, now: int)
      requires Valid()
      modifies this`interactions
      ensures Valid()
      ensures interactions == old(interactions) + [Interaction(now, sid, thread, agent, "human", text, status)]
    {
      var turn := Interaction(now, sid, thread, agent, "human", text, status);
      assert (interactions + [turn])[..|interactions|] == interactions;
      interactions := interactions + [turn];
    }
  }

  /** The assistant's part of the history. */
  function Spoken(all: seq<Interaction>): seq<Interaction> {
    if all == [] then []
    else
      var last := all[|all| - 1];
      Spoken(all[..|all| - 1]) + (if last.role == "assistant" then [last] else [])
  }

  lemma ReplayGrows(log: seq<Broadcast>, i: nat, after: int)
    requires i < |log|
    ensures Journal.ReplayAfter(log[..i + 1], after) ==
      Journal.ReplayAfter(log[..i], after) + (if i + 1 > after then [Journal.Row(i + 1, log[i])] else [])
  {
  }

  // ── what the table says about the journal ─────────────────────────────

  /** The broadcasts filed under one key. */
  function About(log: seq<Broadcast>, key: string): seq<Broadcast> {
    if log == [] then []
    else
      var b := log[|log| - 1];
      About(log[..|log| - 1], key) + (if Projects(b) && KeyOf(b) == key then [b] else [])
  }

  datatype Column = Thread | Agent | Cwd | Caption | State

  function ValueIn(b: Broadcast, column: Column): string {
    match column
    case Thread => b.thread
    case Agent => b.agent
    case Cwd => b.cwd
    case Caption => b.caption
    case State => ProjectedState(b.typ)
  }

  /** The last value of a column that was not empty. */
  function Latest(rows: seq<Broadcast>, column: Column): string {
    if rows == [] then "" else Or(ValueIn(rows[|rows| - 1], column), Latest(rows[..|rows| - 1], column))
  }

  lemma LatestPlus(rows: seq<Broadcast>, b: Broadcast)
    ensures forall c :: Latest(rows + [b], c) == Or(ValueIn(b, c), Latest(rows, c))
  {
    assert (rows + [b])[..|rows|] == rows;
  }

  /** A key has a row exactly if some broadcast was filed under it; the row remembers when the first and
      the last came, and each column's last value that was not empty. */
  lemma {:induction false} TableTellsLatest(log: seq<Broadcast>, key: string)
    ensures var rows := About(log, key);
      && (key in Projected(log) <==> rows != [])
      && (rows != [] ==>
            Projected(log)[key] == Record(
              Latest(rows, Thread), Latest(rows, Agent), Latest(rows, Cwd), Latest(rows, Caption), Latest(rows, State),
              rows[0].at, rows[|rows| - 1].at))
  {
    if log != [] {
      TableTellsLatest(log[..|log| - 1], key);
      var b, was := log[|log| - 1], About(log[..|log| - 1], key);
      if Projects(b) && KeyOf(b) == key {
        LatestPlus(was, b);
        assert About(log, key) == was + [b];
      } else {
        assert About(log, key) == was;
      }
    }
  }

  /** A broadcast that says what state its session is in. */
  predicate Stateful(b: Broadcast) {
    b.typ.ThreadBusy? || b.typ.ThreadIdle? || b.typ.ThreadEnded? || b.typ.ThreadStarted?
  }

  /** What is filed under a key: every broadcast with that session id, or with none and that thread. */
  lemma {:induction false} AboutIs(log: seq<Broadcast>, key: string)
    ensures forall b :: b in About(log, key) <==>
      b in log && (if b.sid != "" then b.sid == key else b.thread != "" && b.thread == key)
  {
    if log != [] {
      AboutIs(log[..|log| - 1], key);
      assert log == log[..|log| - 1] + [log[|log| - 1]];
    }
  }

  lemma {:induction false} LatestFound(rows: seq<Broadcast>, column: Column, i: nat)
    requires i < |rows| && ValueIn(rows[i], column) != ""
    requires forall j | i < j < |rows| :: ValueIn(rows[j], column) == ""
    ensures Latest(rows, column) == ValueIn(rows[i], column)
  {
    if i < |rows| - 1 {
      LatestFound(rows[..|rows| - 1], column, i);
    }
  }

  /** A row tells, column by column, what the last broadcast filed under its key with anything to say said. */
  lemma RowTells(log: seq<Broadcast>, key: string, i: nat)
    requires i < |About(log, key)|
    ensures var rows := About(log, key);
      && key in Projected(log)
      && var row, b := Projected(log)[key], rows[i];
      && (b.thread != "" && (forall j | i < j < |rows| :: rows[j].thread == "") ==> row.thread == b.thread)
      && (b.agent != "" && (forall j | i < j < |rows| :: rows[j].agent == "") ==> row.agent == b.agent)
      && (b.cwd != "" && (forall j | i < j < |rows| :: rows[j].cwd == "") ==> row.cwd == b.cwd)
      && (b.caption != "" && (forall j | i < j < |rows| :: rows[j].caption == "") ==> row.caption == b.caption)
      && (Stateful(b) && (forall j | i < j < |rows| :: !Stateful(rows[j])) ==>
            row.state == if b.typ.ThreadBusy? then "BUSY" else if b.typ.ThreadIdle? then "IDLE"
                         else if b.typ.ThreadEnded? then "DEAD" else "STARTING")
      && row.firstSeen == rows[0].at && row.lastSeen == rows[|rows| - 1].at
  {
    hide About, Projected, Latest;
    var rows := About(log, key);
    TableTellsLatest(log, key);
    forall c | ValueIn(rows[i], c) != "" && forall j | i < j < |rows| :: ValueIn(rows[j], c) == ""
      ensures Latest(rows, c) == ValueIn(rows[i], c)
    {
      LatestFound(rows, c, i);
    }
    assert ValueIn(rows[i], State) != "" <==> Stateful(rows[i]);
    assert forall j | i < j < |rows| :: ValueIn(rows[j], State) != "" <==> Stateful(rows[j]);
  }
}
