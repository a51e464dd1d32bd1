/** What one upstream frame, one hello and one drop do to the cloud's mux. */
module Upstream {
  import opened Wire
  import opened MuxSpec
  import opened MuxInvariants

  // ── one frame ─────────────────────────────────────────────────────────

  lemma RekeyKeepsIndex(s: State, id: string, thread: string)
    requires IndexAgrees(s) && id in s.sessions
    ensures IndexAgrees(Rekey(s, id, thread))
  {
    var r := s.sessions[id];
    if thread != "" && r.threadID != thread {
      var out := s.(threads := Unlink(s.threads, r.threadID, id), sessions := s.sessions - {id});
      assert IndexAgrees(out);
      AddRowKeepsIndex(out, id, r.(threadID := thread));
      assert out.sessions[id := r.(threadID := thread)] == s.sessions[id := r.(threadID := thread)];
    }
  }

  lemma RekeyIs(s: State, id: string, thread: string)
    requires id in s.sessions
    ensures Rekey(s, id, thread).sessions ==
      s.sessions[id := s.sessions[id].(threadID := if thread == "" then s.sessions[id].threadID else thread)]
    ensures Rekey(s, id, thread).log == s.log
  {
  }

  /** Rows other than `id` are as they were, except that DEAD ones may have gone. */
  ghost predicate OthersKept(s: State, s': State, id: string) {
    && (forall x | x in s'.sessions && x != id :: x in s.sessions && s'.sessions[x] == s.sessions[x])
    && (forall x | x in s.sessions && x !in s'.sessions :: s.sessions[x].state.Dead?)
  }

  lemma OthersKeptOn(s: State, s1: State, s2: State, id: string)
    requires OthersKept(s, s1, id) && OthersKept(s1, s2, id) && id !in s.sessions
    requires s2.sessions.Keys == s1.sessions.Keys
    ensures OthersKept(s, s2, id)
  {
  }

  function Captioned(s: State, id: string, caption: string): State
    requires id in s.sessions
  {
    if caption == "" then s else s.(sessions := s.sessions[id := s.sessions[id].(caption := caption)])
  }

  lemma CaptionedKeeps(s: State, id: string, caption: string)
    requires id in s.sessions
    ensures IndexAgrees(s) ==> IndexAgrees(Captioned(s, id, caption))
    ensures OthersKept(s, Captioned(s, id, caption), id)
    ensures Captioned(s, id, caption).sessions.Keys == s.sessions.Keys
    ensures Captioned(s, id, caption).sessions[id].threadID == s.sessions[id].threadID
  {
    if IndexAgrees(s) { SameThreadsKeepIndex(s, Captioned(s, id, caption)); }
  }

  lemma CreateThenRekey(cfg: Config, s: State, id: string, agent: string, cwd: string, thread: string, now: int,
      choice: Option<string>)
    requires CreateChoice(cfg, s, id, choice) && id !in s.sessions
    ensures var s' := Rekey(GetOrCreate(cfg, s, id, agent, cwd, now, choice), id, thread);
      && id in s'.sessions && OthersKept(s, s', id)
      && (thread != "" ==> s'.sessions[id].threadID == thread)
      && (IndexAgrees(s) ==> IndexAgrees(s'))
  {
    hide GetOrCreate, NewRow, IndexAgrees, CreateChoice, Rekey;
    CreateKeepsOthers(cfg, s, id, agent, cwd, now, choice);
    if IndexAgrees(s) { CreateKeepsIndex(cfg, s, id, agent, cwd, now, choice); }
    var s1 := GetOrCreate(cfg, s, id, agent, cwd, now, choice);
    RekeyIs(s1, id, thread);
    if IndexAgrees(s) { RekeyKeepsIndex(s1, id, thread); }
  }

  lemma UpstreamCreates(cfg: Config, s: State, b: Broadcast, now: int, best: Option<string>, choice: Option<string>)
    requires CreateChoice(cfg, s, b.sid, choice) && b.sid != "" && b.sid !in s.sessions
    requires b.thread == "" || best.None?
    ensures var s' := SessionForUpstream(cfg, s, b, now, best, choice);
      && b.sid in s'.sessions && OthersKept(s, s', b.sid)
      && (b.thread != "" ==> s'.sessions[b.sid].threadID == b.thread)
      && (IndexAgrees(s) ==> IndexAgrees(s'))
  {
    CreateThenRekey(cfg, s, b.sid, b.agent, b.cwd, b.thread, now, choice);
    hide GetOrCreate, Rekey, IndexAgrees, CreateChoice, OthersKept;
    var s2 := Rekey(GetOrCreate(cfg, s, b.sid, b.agent, b.cwd, now, choice), b.sid, b.thread);
    assert SessionForUpstream(cfg, s, b, now, best, choice) == Captioned(s2, b.sid, b.caption);
    hide SessionForUpstream;
    CaptionedKeeps(s2, b.sid, b.caption);
    OthersKeptOn(s, s2, Captioned(s2, b.sid, b.caption), b.sid);
    hide Captioned;
  }

  /** Row `id` of `s'` is what a frame makes of the row of `s`, or of a fresh one. */
  ghost predicate RowTold(s: State, s': State, id: string, b: Broadcast) {
    && id in s'.sessions
    && (Decode(b).Some? ==> s'.sessions[id].state == Decode(b).value)
    && (Decode(b).None? && IsLive(s.sessions, id) ==> s'.sessions[id].state == s.sessions[id].state)
    && (id in s.sessions ==> s'.sessions[id].threadID == s.sessions[id].threadID)
    && (id !in s.sessions && b.thread != "" ==> s'.sessions[id].threadID == b.thread)
  }

  lemma ApplyToRow(cfg: Config, s: State, id: string, b: Broadcast, now: int)
    requires id in s.sessions
    ensures var s' := s.(sessions := s.sessions[id := ApplyFrame(cfg, s.sessions[id], b, now)]);
      RowTold(s, s', id, b) && OthersKept(s, s', id) && (IndexAgrees(s) ==> IndexAgrees(s'))
  {
    ApplyFrameIs(cfg, s.sessions[id], b, now);
    hide ApplyFrame;
    if IndexAgrees(s) {
      SameThreadsKeepIndex(s, s.(sessions := s.sessions[id := ApplyFrame(cfg, s.sessions[id], b, now)]));
    }
  }

  /** Applying a frame changes the target row only; the row keeps its thread and takes the told state. */
  lemma FrameHits(cfg: Config, s: State, b: Broadcast, now: int, best: Option<string>, choice: Option<string>)
    requires FrameChoices(cfg, s, b, best, choice) && !b.typ.NoType? && UpstreamTarget(s, b, best).Some?
    ensures var s' := ApplyUpstream(cfg, s, b, now, best, choice); var id := UpstreamTarget(s, b, best).value;
      RowTold(s, s', id, b) && OthersKept(s, s', id) && (IndexAgrees(s) ==> IndexAgrees(s'))
  {
    hide GetOrCreate, Rekey, ApplyFrame, IndexAgrees, CreateChoice;
    var id := UpstreamTarget(s, b, best).value;
    var s1 := SessionForUpstream(cfg, s, b, now, best, choice);
    if id !in s.sessions {
      UpstreamCreates(cfg, s, b, now, best, choice);
    } else {
      assert s1 == s;
    }
    hide SessionForUpstream, UpstreamTarget;
    ApplyToRow(cfg, s1, id, b, now);
  }

  lemma FrameKeepsIndex(cfg: Config, s: State, b: Broadcast, now: int, best: Option<string>, choice: Option<string>)
    requires IndexAgrees(s) && (!b.typ.NoType? ==> FrameChoices(cfg, s, b, best, choice))
    ensures IndexAgrees(ApplyUpstream(cfg, s, b, now, best, choice))
  {
    if !b.typ.NoType? {
      if UpstreamTarget(s, b, best).Some? {
        FrameHits(cfg, s, b, now, best, choice);
      } else {
        hide IndexAgrees, GetOrCreate, Rekey;
      }
    }
  }

  lemma CreateFollows(cfg: Config, s: State, id: string, agent: string, cwd: string, now: int, choice: Option<string>)
    requires RowsNamed(s) && id != ""
    ensures var s' := GetOrCreate(cfg, s, id, agent, cwd, now, choice);
      && RowsNamed(s') && s'.log == s.log
      && (forall x | x in s'.sessions && x != id :: x in s.sessions)
      && (forall x | x in s.sessions && x !in s'.sessions :: choice == Some(x))
  {
    hide Link, Unlink;
  }

  lemma TargetFollows(cfg: Config, s: State, b: Broadcast, now: int, best: Option<string>, choice: Option<string>)
    requires RowsNamed(s)
    ensures var s' := SessionForUpstream(cfg, s, b, now, best, choice);
      && RowsNamed(s') && s'.log == s.log
      && (forall x | x in s'.sessions && x != b.sid :: x in s.sessions)
      && (forall x | x in s.sessions && x !in s'.sessions :: choice == Some(x))
  {
    hide GetOrCreate, Link, Unlink;
    if b.sid != "" {
      CreateFollows(cfg, s, b.sid, b.agent, b.cwd, now, choice);
      RekeyIs(GetOrCreate(cfg, s, b.sid, b.agent, b.cwd, now, choice), b.sid, b.thread);
    }
    hide Rekey;
  }

  /** A frame adds at most a row for its own session, reaps at most the chosen one, and emits nothing. */
  lemma FrameFollows(cfg: Config, s: State, b: Broadcast, now: int, best: Option<string>, choice: Option<string>)
    requires RowsNamed(s)
    ensures var s' := ApplyUpstream(cfg, s, b, now, best, choice);
      && RowsNamed(s') && s'.log == s.log
      && (forall x | x in s'.sessions && x != b.sid :: x in s.sessions)
      && (forall x | x in s.sessions && x !in s'.sessions :: choice == Some(x))
  {
    hide SessionForUpstream, ApplyFrame, UpstreamTarget;
    TargetFollows(cfg, s, b, now, best, choice);
    var s1 := SessionForUpstream(cfg, s, b, now, best, choice);
    var target := UpstreamTarget(s, b, best);
    if target.Some? && target.value in s1.sessions {
      ApplyFrameIs(cfg, s1.sessions[target.value], b, now);
    }
  }

  lemma SyncOneFollows(cfg: Config, s: State, v: SessionView, now: int, choice: Option<string>)
    requires RowsNamed(s)
    ensures var s' := SyncOne(cfg, s, v, now, choice);
      && RowsNamed(s') && s'.log == s.log
      && (forall x | x in s'.sessions && x != v.sid :: x in s.sessions)
      && (forall x | x in s.sessions && x !in s'.sessions :: choice == Some(x))
  {
    hide GetOrCreate, Refresh, Or;
    if Counted(v) { CreateFollows(cfg, s, v.sid, v.agent, v.cwd, now, choice); }
  }

  lemma ApplyFrameIs(cfg: Config, r: Row, b: Broadcast, now: int)
    ensures var r' := ApplyFrame(cfg, r, b, now);
      && r'.threadID == r.threadID && r'.id == r.id
      && (Decode(b).Some? ==> r'.state == Decode(b).value)
      && (Decode(b).None? && !r.state.Dead? ==> r'.state == r.state)
  {
    hide Refresh, Or;
  }

  /** Frame `b` does to the live states exactly what it says: its own session's, nobody else's. */
  ghost predicate LandsRight(s: State, s': State, b: Broadcast) {
    forall x | x != "" :: LiveState(s', x) == if x == b.sid then Alive(Decode(b)) else LiveState(s, x)
  }

  lemma FrameStrays(cfg: Config, s: State, b: Broadcast, now: int, best: Option<string>, choice: Option<string>)
    requires FrameChoices(cfg, s, b, best, choice) && RowsNamed(s)
    requires b.sid != "" && Decode(b).Some? && b.sid !in s.sessions && b.thread != "" && best.Some?
    ensures !LandsRight(s, ApplyUpstream(cfg, s, b, now, best, choice), b)
  {
    FrameHits(cfg, s, b, now, best, choice);
    var s' := ApplyUpstream(cfg, s, b, now, best, choice);
    hide ApplyUpstream, CreateChoice, IndexAgrees;
    var mate := best.value;
    assert UpstreamTarget(s, b, best) == best && mate != b.sid && mate != "";
    assert LiveState(s, mate).Some?;
    if Decode(b) == Some(Dead) {
      assert LiveState(s', mate) == None;
    } else {
      assert LiveState(s', b.sid) == None;
    }
  }

  /** A frame that tells a state lands on its own session exactly if that session already has a
      row or its thread has no live one; otherwise it is written over a thread-mate. */
  lemma FrameLandsIff(cfg: Config, s: State, b: Broadcast, now: int, best: Option<string>, choice: Option<string>)
    requires FrameChoices(cfg, s, b, best, choice) && RowsNamed(s)
    requires b.sid != "" && Decode(b).Some?
    ensures LandsRight(s, ApplyUpstream(cfg, s, b, now, best, choice), b)
      <==> b.sid in s.sessions || b.thread == "" || best.None?
  {
    hide ApplyUpstream, CreateChoice, IndexAgrees;
    if b.sid in s.sessions || b.thread == "" || best.None? {
      FrameHits(cfg, s, b, now, best, choice);
      assert UpstreamTarget(s, b, best) == Some(b.sid);
    } else {
      FrameStrays(cfg, s, b, now, best, choice);
    }
  }

  // ── the hello ─────────────────────────────────────────────────────────

  /** The state the last counted view of `id` gives it. */
  function Viewed(views: seq<SessionView>, id: string): Option<SessionState> {
    if views == [] then None
    else if Viewed(views[1..], id).Some? then Viewed(views[1..], id)
    else if Counted(views[0]) && views[0].sid == id then Some(views[0].state)
    else None
  }

  lemma SyncToRow(cfg: Config, s: State, v: SessionView)
    requires v.sid in s.sessions
    ensures var s' := s.(sessions := s.sessions[v.sid := SyncRow(cfg, s.sessions[v.sid], v)]);
      && s'.sessions[v.sid].state == v.state && s'.sessions[v.sid].threadID == s.sessions[v.sid].threadID
      && OthersKept(s, s', v.sid) && (IndexAgrees(s) ==> IndexAgrees(s'))
  {
    SyncRowIs(cfg, s.sessions[v.sid], v);
    hide SyncRow;
    if IndexAgrees(s) {
      SameThreadsKeepIndex(s, s.(sessions := s.sessions[v.sid := SyncRow(cfg, s.sessions[v.sid], v)]));
    }
  }

  lemma NewRowThread(cfg: Config, id: string, agent: string, cwd: string, now: int)
    ensures NewRow(cfg, id, agent, cwd, now).threadID == cfg.env.threadIDFor(AgentOr(agent), cwd)
  {
  }

  lemma SyncOneKeeps(cfg: Config, s: State, v: SessionView, now: int, choice: Option<string>)
    requires CreateChoice(cfg, s, v.sid, choice) && Counted(v)
    ensures var s' := SyncOne(cfg, s, v, now, choice);
      && v.sid in s'.sessions && s'.sessions[v.sid].state == v.state
      && OthersKept(s, s', v.sid) && (IndexAgrees(s) ==> IndexAgrees(s'))
      && (v.sid in s.sessions ==> s'.sessions[v.sid].threadID == s.sessions[v.sid].threadID)
      && (v.sid !in s.sessions ==> s'.sessions[v.sid].threadID == cfg.env.threadIDFor(AgentOr(v.agent), v.cwd))
  {
    hide GetOrCreate, NewRow, IndexAgrees, CreateChoice, SyncRow;
    CreateKeepsOthers(cfg, s, v.sid, v.agent, v.cwd, now, choice);
    if IndexAgrees(s) { CreateKeepsIndex(cfg, s, v.sid, v.agent, v.cwd, now, choice); }
    NewRowThread(cfg, v.sid, v.agent, v.cwd, now);
    SyncToRow(cfg, GetOrCreate(cfg, s, v.sid, v.agent, v.cwd, now, choice), v);
  }

  lemma SyncOneTells(cfg: Config, s: State, v: SessionView, now: int, choice: Option<string>)
    requires Counted(v) ==> CreateChoice(cfg, s, v.sid, choice)
    ensures var s' := SyncOne(cfg, s, v, now, choice);
      && (IndexAgrees(s) ==> IndexAgrees(s'))
      && (forall x :: LiveState(s', x) == if Counted(v) && x == v.sid then Some(v.state) else LiveState(s, x))
  {
    if Counted(v) {
      SyncOneKeeps(cfg, s, v, now, choice);
      hide SyncOne, IndexAgrees, CreateChoice;
    }
  }

  lemma SyncRowIs(cfg: Config, r: Row, v: SessionView)
    ensures SyncRow(cfg, r, v).state == v.state && SyncRow(cfg, r, v).threadID == r.threadID
  {
    hide Refresh, Or;
  }

  /** A hello sets the live state of every session it counts and leaves the others alone. */
  lemma {:induction false} SyncTells(cfg: Config, s: State, views: seq<SessionView>, now: int,
      choices: seq<Option<string>>, x: string)
    requires SyncChoices(cfg, s, views, now, choices)
    ensures var s' := SyncSessions(cfg, s, views, now, choices);
      LiveState(s', x) == if Viewed(views, x).Some? then Viewed(views, x) else LiveState(s, x)
    decreases |views|
  {
    if views != [] {
      SyncOneTells(cfg, s, views[0], now, choices[0]);
      hide SyncOne, LiveState, CreateChoice;
      SyncTells(cfg, SyncOne(cfg, s, views[0], now, choices[0]), views[1..], now, choices[1..], x);
    }
  }

  lemma {:induction false} SyncKeepsIndex(cfg: Config, s: State, views: seq<SessionView>, now: int,
      choices: seq<Option<string>>)
    requires SyncChoices(cfg, s, views, now, choices) && IndexAgrees(s)
    ensures IndexAgrees(SyncSessions(cfg, s, views, now, choices))
    decreases |views|
  {
    if views != [] {
      SyncOneTells(cfg, s, views[0], now, choices[0]);
      hide SyncOne, IndexAgrees, CreateChoice;
      SyncKeepsIndex(cfg, SyncOne(cfg, s, views[0], now, choices[0]), views[1..], now, choices[1..]);
    }
  }

  lemma DropKeepsIndex(s: State)
    ensures IndexAgrees(DropAll(s)) && forall x :: LiveState(DropAll(s), x) == None
  {
  }
}
