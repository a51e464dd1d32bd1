/** What a frame and a snapshot write into the rows they reach, and which session of a thread is found after
    frames have been heard of several. */
module UpstreamRows {
  import opened Wire
  import opened MuxSpec
  import opened MuxInvariants
  import opened MuxLookup
  import opened Upstream
  import Text

  // ── one frame ─────────────────────────────────────────────────────────

  /** The row a frame or a view that names `id` finds, or is given. */
  function FoundRow(cfg: Config, s: State, id: string, agent: string, cwd: string, now: int): Row {
    if id in s.sessions then s.sessions[id] else NewRow(cfg, id, agent, cwd, now)
  }

  lemma NewRowIs(cfg: Config, id: string, agent: string, cwd: string, now: int)
    ensures var r := NewRow(cfg, id, agent, cwd, now);
      && r.id == id && r.agent == (if agent == "" then "unknown" else agent) && r.cwd == cwd
      && r.threadID == cfg.env.threadIDFor(r.agent, cwd) && r.caption == r.agent + ": " + cfg.env.shortCWD(cwd)
      && r.state == Starting && r.lastEventAt == now
      && r.lastAssistant == r.lastUserInput == r.lastPermissionPrompt == ""
  {
  }

  lemma CreatedFor(cfg: Config, s: State, b: Broadcast, now: int, best: Option<string>, choice: Option<string>)
    requires b.sid != "" && UpstreamTarget(s, b, best) == Some(b.sid) && CreateChoice(cfg, s, b.sid, choice)
    requires IsBest(s, b.thread, best)
    ensures var s1, r := SessionForUpstream(cfg, s, b, now, best, choice), FoundRow(cfg, s, b.sid, b.agent, b.cwd, now);
      && b.sid in s1.sessions
      && s1.sessions[b.sid] ==
           if b.sid in s.sessions then r
           else r.(threadID := if b.thread == "" then r.threadID else b.thread,
                   caption := if b.caption == "" then r.caption else b.caption)
  {
    if b.sid !in s.sessions {
      assert !(b.thread != "" && best.Some?) by { hide CreateChoice; }
      CreateKeepsOthers(cfg, s, b.sid, b.agent, b.cwd, now, choice);
      RekeyIs(GetOrCreate(cfg, s, b.sid, b.agent, b.cwd, now, choice), b.sid, b.thread);
      hide GetOrCreate, Rekey, NewRow, CreateChoice;
    }
  }

  /** Every field of the row a frame hits: what the frame says where it says anything, else what was there. */
  lemma FrameWrites(cfg: Config, s: State, b: Broadcast, now: int, best: Option<string>, choice: Option<string>,
      id: string)
    requires !b.typ.NoType? && FrameChoices(cfg, s, b, best, choice) && UpstreamTarget(s, b, best) == Some(id)
    requires RowsNamed(s)
    ensures var s', was := ApplyUpstream(cfg, s, b, now, best, choice), FoundRow(cfg, s, id, b.agent, b.cwd, now);
      && id in s'.sessions
      && var r := s'.sessions[id];
      && r.lastEventAt == (if b.at != 0 then b.at else now)
      && r.caption == (if b.caption != "" then b.caption else was.caption)
      && r.agent == (if b.agent != "" then b.agent else was.agent)
      && r.cwd == (if b.cwd != "" then b.cwd else was.cwd)
      && r.lastAssistant ==
           (if b.lastAssistant != "" then Text.Clip(b.lastAssistant, cfg.opt.maxAssistantSnippet)
            else was.lastAssistant)
      && r.lastUserInput ==
           (if b.lastUserInput != "" then Text.Clip(b.lastUserInput, cfg.opt.maxAssistantSnippet)
            else was.lastUserInput)
      && r.lastPermissionPrompt ==
           (if b.permissionPrompt != "" then Text.Clip(b.permissionPrompt, cfg.opt.maxPermissionSnippet)
            else was.lastPermissionPrompt)
      && r.threadID == (if id !in s.sessions && b.thread != "" then b.thread else was.threadID)
      && r.id == was.id && r.lastSource == was.lastSource && r.timer == was.timer
  {
    TargetIs(s, b, best, id);
    var s1 := SessionForUpstream(cfg, s, b, now, best, choice);
    if id == b.sid {
      CreatedFor(cfg, s, b, now, best, choice);
    } else {
      assert s1 == s;
    }
    hide SessionForUpstream, NewRow, Text.Clip, CreateChoice, IsBest, Decode;
  }

  lemma TargetIs(s: State, b: Broadcast, best: Option<string>, id: string)
    requires IsBest(s, b.thread, best) && UpstreamTarget(s, b, best) == Some(id) && RowsNamed(s)
    ensures id != ""
    ensures id == b.sid || (b.sid !in s.sessions && b.thread != "" && best == Some(id) && id in s.sessions)
  {
  }

  lemma AppliedState(cfg: Config, r: Row, b: Broadcast, now: int)
    ensures ApplyFrame(cfg, r, b, now).state ==
      if b.typ.ThreadBusy? then Busy
      else if b.typ.ThreadIdle? || b.typ.HudYank?
      then (if b.awaiting == ForPermission then AwaitingPermission else Idle)
      else if b.typ.ThreadEnded? then Dead
      else if b.typ.ThreadStarted? && r.state.Dead? then Starting
      else r.state
  {
    hide Text.Clip;
  }

  /** The state a frame gives the row it hits. */
  lemma FrameSets(cfg: Config, s: State, b: Broadcast, now: int, best: Option<string>, choice: Option<string>,
      id: string)
    requires !b.typ.NoType? && FrameChoices(cfg, s, b, best, choice) && UpstreamTarget(s, b, best) == Some(id)
    requires RowsNamed(s)
    ensures var s' := ApplyUpstream(cfg, s, b, now, best, choice);
      && id in s'.sessions
      && var was := if id in s.sessions then s.sessions[id].state else Starting;
      s'.sessions[id].state ==
        if b.typ.ThreadBusy? then Busy
        else if b.typ.ThreadIdle? || b.typ.HudYank?
        then (if b.awaiting == ForPermission then AwaitingPermission else Idle)
        else if b.typ.ThreadEnded? then Dead
        else if b.typ.ThreadStarted? && was.Dead? then Starting
        else was
  {
    TargetIs(s, b, best, id);
    var s1 := SessionForUpstream(cfg, s, b, now, best, choice);
    if id == b.sid {
      CreatedFor(cfg, s, b, now, best, choice);
    } else {
      assert s1 == s;
    }
    AppliedState(cfg, s1.sessions[id], b, now);
    hide SessionForUpstream, CreateChoice, IsBest, ApplyFrame;
  }

  // ── which session of a thread is found ────────────────────────────────

  /** A frame as it is applied, with the choices left open. */
  datatype Hearing = Hearing(b: Broadcast, now: int, best: Option<string>, choice: Option<string>)

  function Date(h: Hearing): int {
    if h.b.at != 0 then h.b.at else h.now
  }

  function Hear(cfg: Config, s: State, h: Hearing): State {
    ApplyUpstream(cfg, s, h.b, h.now, h.best, h.choice)
  }

  /** Frames each dated later than the one before. */
  ghost predicate InOrder(cfg: Config, s: State, hs: seq<Hearing>, from: int)
    decreases |hs|
  {
    hs != [] ==>
      && !hs[0].b.typ.NoType? && FrameChoices(cfg, s, hs[0].b, hs[0].best, hs[0].choice) && from < Date(hs[0])
      && InOrder(cfg, Hear(cfg, s, hs[0]), hs[1..], Date(hs[0]))
  }

  function HearAll(cfg: Config, s: State, hs: seq<Hearing>): State
    decreases |hs|
  {
    if hs == [] then s else HearAll(cfg, Hear(cfg, s, hs[0]), hs[1..])
  }

  /** The date of the last frame that hit the row of `x`. */
  function LastHeard(cfg: Config, s: State, hs: seq<Hearing>, x: string): Option<int>
    decreases |hs|
  {
    if hs == [] then None
    else
      var later := LastHeard(cfg, Hear(cfg, s, hs[0]), hs[1..], x);
      if later.Some? then later
      else if UpstreamTarget(s, hs[0].b, hs[0].best) == Some(x) then Some(Date(hs[0]))
      else None
  }

  lemma HearNames(cfg: Config, s: State, h: Hearing)
    requires RowsNamed(s)
    ensures RowsNamed(Hear(cfg, s, h))
  {
    FrameFollows(cfg, s, h.b, h.now, h.best, h.choice);
  }

  /** One frame dates the row it hits and leaves every other date alone. */
  lemma HearDates(cfg: Config, s: State, h: Hearing, x: string)
    requires RowsNamed(s) && !h.b.typ.NoType? && FrameChoices(cfg, s, h.b, h.best, h.choice)
    requires x in Hear(cfg, s, h).sessions
    ensures if UpstreamTarget(s, h.b, h.best) == Some(x) then Hear(cfg, s, h).sessions[x].lastEventAt == Date(h)
            else x in s.sessions && Hear(cfg, s, h).sessions[x].lastEventAt == s.sessions[x].lastEventAt
  {
    var target := UpstreamTarget(s, h.b, h.best);
    if target.Some? {
      FrameHits(cfg, s, h.b, h.now, h.best, h.choice);
      FrameWrites(cfg, s, h.b, h.now, h.best, h.choice, target.value);
    }
    hide SessionForUpstream, ApplyFrame, CreateChoice, IsBest;
  }

  lemma {:induction false} RunDates(cfg: Config, s: State, hs: seq<Hearing>, from: int, x: string)
    requires RowsNamed(s) && InOrder(cfg, s, hs, from) && x in HearAll(cfg, s, hs).sessions
    requires forall y | y in s.sessions :: s.sessions[y].lastEventAt <= from
    ensures var date, heard := HearAll(cfg, s, hs).sessions[x].lastEventAt, LastHeard(cfg, s, hs, x);
      if heard.Some? then date == heard.value > from else date <= from
    decreases |hs|
  {
    hide Hear, UpstreamTarget, FrameChoices;
    if hs != [] {
      var s1 := Hear(cfg, s, hs[0]);
      forall y | y in s1.sessions ensures s1.sessions[y].lastEventAt <= Date(hs[0]) { HearDates(cfg, s, hs[0], y); }
      HearNames(cfg, s, hs[0]);
      RunDates(cfg, s1, hs[1..], Date(hs[0]), x);
      if LastHeard(cfg, s1, hs[1..], x).None? {
        UnheardStays(cfg, s1, hs[1..], Date(hs[0]), x);
        HearDates(cfg, s, hs[0], x);
      }
    }
  }

  lemma {:induction false} UnheardStays(cfg: Config, s: State, hs: seq<Hearing>, from: int, x: string)
    requires RowsNamed(s) && InOrder(cfg, s, hs, from) && x in HearAll(cfg, s, hs).sessions
    requires LastHeard(cfg, s, hs, x).None?
    ensures x in s.sessions && HearAll(cfg, s, hs).sessions[x].lastEventAt == s.sessions[x].lastEventAt
    decreases |hs|
  {
    hide Hear, UpstreamTarget, FrameChoices;
    if hs != [] {
      var s1 := Hear(cfg, s, hs[0]);
      HearNames(cfg, s, hs[0]);
      UnheardStays(cfg, s1, hs[1..], Date(hs[0]), x);
      HearDates(cfg, s, hs[0], x);
    }
  }

  /** No two sessions were last heard of by the same frame. */
  lemma {:induction false} HeardApart(cfg: Config, s: State, hs: seq<Hearing>, from: int, x: string, y: string)
    requires InOrder(cfg, s, hs, from) && x != y && LastHeard(cfg, s, hs, x).Some?
    ensures LastHeard(cfg, s, hs, x) != LastHeard(cfg, s, hs, y) && LastHeard(cfg, s, hs, x).value > from
    decreases |hs|
  {
    hide Hear, UpstreamTarget, FrameChoices;
    var s1 := Hear(cfg, s, hs[0]);
    if LastHeard(cfg, s1, hs[1..], x).Some? { HeardApart(cfg, s1, hs[1..], Date(hs[0]), x, y); }
    if LastHeard(cfg, s1, hs[1..], y).Some? { HeardApart(cfg, s1, hs[1..], Date(hs[0]), y, x); }
  }

  lemma {:induction false} RunIndexed(cfg: Config, s: State, hs: seq<Hearing>, from: int)
    requires IndexAgrees(s) && InOrder(cfg, s, hs, from)
    ensures IndexAgrees(HearAll(cfg, s, hs))
    decreases |hs|
  {
    hide IndexAgrees, ApplyUpstream, FrameChoices;
    if hs != [] {
      FrameKeepsIndex(cfg, s, hs[0].b, hs[0].now, hs[0].best, hs[0].choice);
      RunIndexed(cfg, Hear(cfg, s, hs[0]), hs[1..], Date(hs[0]));
    }
  }

  /** After frames each dated later than anything before it, a lookup by thread, by the index or by the scan,
      finds the live session of the thread that was last heard of. */
  lemma LastHeardIsFound(cfg: Config, s: State, hs: seq<Hearing>, from: int, thread: string, found: string, y: string)
    requires RowsNamed(s) && IndexAgrees(s) && InOrder(cfg, s, hs, from)
    requires forall x | x in s.sessions :: s.sessions[x].lastEventAt <= from
    requires var s' := HearAll(cfg, s, hs);
      && (IsBest(s', thread, Some(found)) || IsNewestLive(s'.sessions, thread, found))
      && IsLive(s'.sessions, y) && s'.sessions[y].threadID == thread && y != found && LastHeard(cfg, s, hs, y).Some?
    ensures LastHeard(cfg, s, hs, found).Some?
    ensures LastHeard(cfg, s, hs, y).value < LastHeard(cfg, s, hs, found).value
  {
    hide HearAll, InOrder, LastHeard, IndexAgrees, IsBest, RowsNamed;
    RunIndexed(cfg, s, hs, from);
    IndexLookupIsScan(HearAll(cfg, s, hs), thread, Some(found));
    RunDates(cfg, s, hs, from, found);
    RunDates(cfg, s, hs, from, y);
    HeardApart(cfg, s, hs, from, y, found);
  }

  // ── a snapshot ────────────────────────────────────────────────────────

  /** Every field of the row a counted view of a snapshot makes or refreshes. */
  lemma ViewWrites(cfg: Config, s: State, v: SessionView, now: int, choice: Option<string>)
    requires Counted(v) && CreateChoice(cfg, s, v.sid, choice)
    ensures var s', was := SyncOne(cfg, s, v, now, choice), FoundRow(cfg, s, v.sid, v.agent, v.cwd, now);
      && v.sid in s'.sessions
      && var r := s'.sessions[v.sid];
      && r.state == v.state
      && r.lastEventAt == (if v.lastEventAt != 0 then v.lastEventAt else was.lastEventAt)
      && r.caption == (if v.caption != "" then v.caption else was.caption)
      && r.agent == (if v.agent != "" then v.agent else was.agent)
      && r.cwd == (if v.cwd != "" then v.cwd else was.cwd)
      && r.lastAssistant ==
           (if v.lastAssistant != "" then Text.Clip(v.lastAssistant, cfg.opt.maxAssistantSnippet)
            else was.lastAssistant)
      && r.lastUserInput ==
           (if v.lastUserInput != "" then Text.Clip(v.lastUserInput, cfg.opt.maxAssistantSnippet)
            else was.lastUserInput)
      && r.lastPermissionPrompt ==
           (if v.permissionPrompt != "" then Text.Clip(v.permissionPrompt, cfg.opt.maxPermissionSnippet)
            else was.lastPermissionPrompt)
      && r.threadID == was.threadID && r.id == was.id
  {
    CreateKeepsOthers(cfg, s, v.sid, v.agent, v.cwd, now, choice);
    hide GetOrCreate, NewRow, Text.Clip, CreateChoice;
  }

  // ── a snapshot there and back ─────────────────────────────────────────

  /** What the cloud can hold of a row without loss: it is dated, named and captioned, its snippets fit, and its
      thread is the one its agent and directory give. */
  ghost predicate Portable(cfg: Config, r: Row) {
    && r.lastEventAt != 0 && r.agent != "" && r.caption != "" && r.threadID == cfg.env.threadIDFor(r.agent, r.cwd)
    && |r.lastAssistant| <= cfg.opt.maxAssistantSnippet && |r.lastUserInput| <= cfg.opt.maxAssistantSnippet
    && |r.lastPermissionPrompt| <= cfg.opt.maxPermissionSnippet
  }

  /** Every row is live, and shows what `table` shows under its id. */
  ghost predicate Copies(table: map<string, Row>, s: State) {
    forall x | x in s.sessions :: IsLive(table, x) && ViewOf(s.sessions[x]) == ViewOf(table[x])
  }

  lemma CopyOne(cfg: Config, table: map<string, Row>, s: State, x: string, now: int, choice: Option<string>)
    requires x in table && table[x].id == x && Copies(table, s)
    requires !table[x].state.Dead? ==> Portable(cfg, table[x])
    requires Counted(ViewOf(table[x])) ==> CreateChoice(cfg, s, x, choice)
    ensures Copies(table, SyncOne(cfg, s, ViewOf(table[x]), now, choice))
  {
    var v := ViewOf(table[x]);
    if Counted(v) {
      ViewWrites(cfg, s, v, now, choice);
      SyncOneKeeps(cfg, s, v, now, choice);
      NewRowIs(cfg, x, v.agent, v.cwd, now);
      hide SyncOne, CreateChoice, NewRow, IndexAgrees;
    }
  }

  lemma {:induction false} CopyAll(cfg: Config, table: map<string, Row>, s: State, order: seq<string>, now: int,
      choices: seq<Option<string>>)
    requires forall id | id in order ::
      id in table && table[id].id == id && (!table[id].state.Dead? ==> Portable(cfg, table[id]))
    requires Copies(table, s) && SyncChoices(cfg, s, Views(table, order), now, choices)
    ensures |choices| == |order| && Copies(table, SyncSessions(cfg, s, Views(table, order), now, choices))
    decreases |order|
  {
    hide SyncOne, CreateChoice, Copies, Portable, Counted;
    if order != [] {
      assert Views(table, order)[1..] == Views(table, order[1..]) && order[0] in order;
      CopyOne(cfg, table, s, order[0], now, choices[0]);
      CopyAll(cfg, table, SyncOne(cfg, s, ViewOf(table[order[0]]), now, choices[0]), order[1..], now, choices[1..]);
    }
  }

  lemma {:induction false} SnapshotShows(table: map<string, Row>, order: seq<string>, x: string)
    requires x != "" && forall id | id in order :: id in table && table[id].id == id
    ensures Viewed(Views(table, order), x).Some? <==> x in order && !table[x].state.Dead?
    decreases |order|
  {
    if order != [] {
      assert Views(table, order)[1..] == Views(table, order[1..]);
      SnapshotShows(table, order[1..], x);
    }
  }

  /** A snapshot of a table, synced into an emptied one, gives back every view of a live session and no other,
      whatever was there before. */
  lemma SnapshotRoundTrip(cfg: Config, table: map<string, Row>, was: State, order: seq<string>, now: int,
      choices: seq<Option<string>>)
    requires forall id | id in table ::
      id != "" && table[id].id == id && (!table[id].state.Dead? ==> Portable(cfg, table[id]))
    requires forall id :: id in order <==> id in table
    requires SyncChoices(cfg, DropAll(was), Views(table, order), now, choices)
    ensures |choices| == |order|
    ensures var s := SyncSessions(cfg, DropAll(was), Views(table, order), now, choices);
      forall x ::
        if IsLive(table, x) then x in s.sessions && ViewOf(s.sessions[x]) == ViewOf(table[x]) else x !in s.sessions
  {
    CopyAll(cfg, table, DropAll(was), order, now, choices);
    hide SyncSessions, Portable;
    var s := SyncSessions(cfg, DropAll(was), Views(table, order), now, choices);
    DropKeepsIndex(was);
    forall x | IsLive(table, x) ensures x in s.sessions {
      SyncTells(cfg, DropAll(was), Views(table, order), now, choices, x);
      SnapshotShows(table, order, x);
    }
  }
}
