/** The mux itself: rows and maps updated in place, each method tied to its step of MuxSpec. */
module SessionMux {
  import opened Wire
  import opened MuxSpec
  import Text

  class Session {
    const id: string
    var agent: string
    var cwd: string
    var threadID: string
    var caption: string
    var state: SessionState
    var lastEventAt: int
    var lastSource: Producer
    var lastAssistant: string
    var lastUserInput: string
    var lastPermissionPrompt: string
    var idleTimer: Option<nat>

    ghost function Row(): Row
      reads this
    {
      MuxSpec.Row(id, agent, cwd, threadID, caption, state, lastEventAt, lastSource,
          lastAssistant, lastUserInput, lastPermissionPrompt, idleTimer)
    }

    constructor (cfg: Config, id: string, agent: string, cwd: string, now: int)
      ensures this.id == id && Row() == NewRow(cfg, id, agent, cwd, now)
    {
      var a := if agent == "" then "unknown" else agent;
      this.id := id;
      this.agent := a;
      this.cwd := cwd;
      threadID := cfg.env.threadIDFor(a, cwd);
      caption := a + ": " + cfg.env.shortCWD(cwd);
      state := Starting;
      lastEventAt := now;
      lastSource := NoProducer;
      lastAssistant, lastUserInput, lastPermissionPrompt := "", "", "";
      idleTimer := None;
    }

    method Absorb(cfg: Config, ev: Event, at: int)
      modifies this
      ensures Row() == MuxSpec.Absorb(cfg, old(Row()), ev, at)
    {
      hide Text.StripRedacted, Text.Clip;
      lastEventAt := at;
      lastSource := ev.source;
      match ev.typ {
        case SessionStart =>
          if state == Starting || state == Dead {
            state := Idle;
          }
        case AssistantMessage =>
          var txt := Text.StripRedacted(ev.text);
          if txt != "" {
            lastAssistant := Text.Clip(txt, cfg.opt.maxAssistantSnippet);
            lastUserInput := "";
          }
          state := Busy;
        case UserPrompt =>
          AbsorbText(cfg, ev.text);
          state := Busy;
        case ToolUse =>
          AbsorbText(cfg, ev.text);
          state := Busy;
        case PermissionPrompt =>
          if ev.text != "" {
            lastPermissionPrompt := Text.Clip(ev.text, cfg.opt.maxPermissionSnippet);
          }
          state := AwaitingPermission;
        case Stop => state := Idle;
        case SessionEnd => state := Dead;
        case Unrecognized(_) =>
      }
    }

    /** Snippets a peer sent replace the held ones, unless empty. */
    method MergeTexts(cfg: Config, lastAssistant: string, lastUserInput: string, permissionPrompt: string)
      modifies this`lastAssistant, this`lastUserInput, this`lastPermissionPrompt
      ensures Row() == MuxSpec.MergeTexts(cfg, old(Row()), lastAssistant, lastUserInput, permissionPrompt)
    {
      if lastAssistant != "" {
        this.lastAssistant := Text.Clip(lastAssistant, cfg.opt.maxAssistantSnippet);
      }
      if lastUserInput != "" {
        this.lastUserInput := Text.Clip(lastUserInput, cfg.opt.maxAssistantSnippet);
      }
      if permissionPrompt != "" {
        lastPermissionPrompt := Text.Clip(permissionPrompt, cfg.opt.maxPermissionSnippet);
      }
    }

    method Relabel(caption: string, agent: string, cwd: string)
      modifies this`caption, this`agent, this`cwd
      ensures Row() == old(Row()).(caption := Or(caption, old(this.caption)), agent := Or(agent, old(this.agent)),
                                   cwd := Or(cwd, old(this.cwd)))
    {
      if caption != "" {
        this.caption := caption;
      }
      if agent != "" {
        this.agent := agent;
      }
      if cwd != "" {
        this.cwd := cwd;
      }
    }

    method ApplyFrame(cfg: Config, b: Broadcast, now: int)
      modifies this
      ensures Row() == MuxSpec.ApplyFrame(cfg, old(Row()), b, now)
    {
      var at := if b.at == 0 then now else b.at;
      Relabel(b.caption, b.agent, b.cwd);
      MergeTexts(cfg, b.lastAssistant, b.lastUserInput, b.permissionPrompt);
      match b.typ {
        case ThreadStarted =>
          if state == Dead || state == Starting {
            state := Starting;
          }
        case ThreadBusy => state := Busy;
        case ThreadIdle => state := if b.awaiting == ForPermission then AwaitingPermission else Idle;
        case HudYank => state := if b.awaiting == ForPermission then AwaitingPermission else Idle;
        case ThreadEnded => state := Dead;
        case NoType =>
        case OtherType =>
      }
      lastEventAt := at;
    }

    method SyncRow(cfg: Config, v: SessionView)
      modifies this
      ensures Row() == MuxSpec.SyncRow(cfg, old(Row()), v)
    {
      Relabel(v.caption, v.agent, v.cwd);
      state := v.state;
      MergeTexts(cfg, v.lastAssistant, v.lastUserInput, v.permissionPrompt);
      if v.lastEventAt != 0 {
        lastEventAt := v.lastEventAt;
      }
    }

    method AbsorbText(cfg: Config, text: string)
      modifies this`lastUserInput
      ensures lastUserInput == Refresh(Text.StripRedacted(text), old(lastUserInput), cfg.opt.maxAssistantSnippet)
    {
      var txt := Text.StripRedacted(text);
      if txt != "" {
        lastUserInput := Text.Clip(txt, cfg.opt.maxAssistantSnippet);
      }
    }
  }

  /** A user turn a transcript confirmed. */
  datatype Landing = Landing(sid: string, thread: string, text: string)

  class Mux {
    const cfg: Config
    var sessions: map<string, Session>
    var threads: map<string, set<string>>
    var recent: map<string, int>
    var timers: map<nat, string>
    var nextTimer: nat
    var log: seq<Broadcast>

    ghost predicate Valid()
      reads this`sessions, sessions.Values
    {
      forall id | id in sessions :: sessions[id].id == id
    }

    ghost function Table(): map<string, Row>
      reads this`sessions, sessions.Values
    {
      map id | id in sessions :: sessions[id].Row()
    }

    ghost function View(): State
      reads this, sessions.Values
    {
      State(Table(), threads, recent, timers, nextTimer, log)
    }

    ghost predicate Holds(s: Session)
      reads this`sessions
    {
      s.id in sessions && sessions[s.id] == s
    }

    constructor (env: Env, opt: Options)
      ensures Valid() && View() == INIT && cfg == Config(env, WithDefaults(opt))
      ensures opt == Options(0, 0, 0, 0, 0) ==> cfg.opt == Options(2500, 2000, 4096, 1024, 256)
      ensures
        opt.dedupWindow != 0 && opt.idleDebounce != 0 && opt.maxAssistantSnippet != 0 && opt.maxPermissionSnippet != 0
        && opt.maxSessions != 0 ==>
          cfg.opt == opt
    {
      cfg := Config(env, WithDefaults(opt));
      sessions, threads, recent, timers, nextTimer, log := map[], map[], map[], map[], 0, [];
    }

    /** Only row `s` was written to. */
    twostate lemma OneRowWritten(s: Session)
      requires old(Valid()) && old(Holds(s)) && sessions == old(sessions)
      requires forall id | id in sessions && id != s.id :: unchanged(sessions[id])
      ensures Valid() && Table() == old(Table())[s.id := s.Row()]
    {
    }

    method ClearIdleTimer(s: Session)
      requires Valid() && Holds(s)
      modifies this`timers, s`idleTimer
      ensures Valid() && View() == ClearTimer(old(View()), s.id)
    {
      if s.idleTimer.Some? {
        timers := timers - {s.idleTimer.value};
        s.idleTimer := None;
        OneRowWritten(s);
      }
    }

    method SetIdleTimer(s: Session)
      requires Valid() && Holds(s)
      modifies this`timers, this`nextTimer, s`idleTimer
      ensures Valid()
      ensures View() == old(View().(timers := timers[nextTimer := s.id], nextTimer := nextTimer + 1,
                                    sessions := Table()[s.id := s.Row().(timer := Some(nextTimer))]))
    {
      timers := timers[nextTimer := s.id];
      s.idleTimer := Some(nextTimer);
      nextTimer := nextTimer + 1;
      OneRowWritten(s);
    }

    method ArmIdle(s: Session)
      requires Valid() && Holds(s)
      modifies this`timers, this`nextTimer, s`idleTimer
      ensures Valid() && View() == Arm(old(View()), s.id)
    {
      ClearIdleTimer(s);
      SetIdleTimer(s);
    }

    // ── dedup ───────────────────────────────────────────────────────────

    method DuplicateEvent(ev: Event, now: int) returns (dup: bool)
      requires Valid()
      modifies this`recent
      ensures dup == Duplicate(cfg, old(recent), ev, now)
      ensures recent == if dup then old(recent) else Stamp(old(recent), ev, now)
    {
      if ev.typ == AssistantMessage || ev.typ == UserPrompt {
        return false;
      }
      var key := ev.sid + "|" + EventName(ev.typ);
      if key in recent && now - recent[key] < cfg.opt.dedupWindow {
        return true;
      }
      recent := recent[key := now];
      return false;
    }

    method GcRecent(now: int)
      requires Valid()
      modifies this`recent
      ensures View() == Gc(cfg, old(View()), now)
      ensures forall k :: k in recent <==> k in old(recent) && now - old(recent)[k] <= 4 * cfg.opt.dedupWindow
      ensures forall k | k in recent :: recent[k] == old(recent)[k]
    {
      var cutoff := now - 4 * cfg.opt.dedupWindow;
      var todo := recent.Keys;
      while todo != {}
        invariant todo <= old(recent).Keys
        invariant recent == map k | k in old(recent) && (k in todo || old(recent)[k] >= cutoff) :: old(recent)[k]
        decreases |todo|
      {
        var k :| k in todo;
        todo := todo - {k};
        if recent[k] < cutoff {
          recent := recent - {k};
        }
      }
    }

    // ── the table ───────────────────────────────────────────────────────

    method UnlinkThread(tid: string, id: string)
      modifies this`threads
      ensures threads == Unlink(old(threads), tid, id)
    {
      if tid in threads {
        var tset := threads[tid] - {id};
        threads := threads[tid := tset];
        if tset == {} {
          threads := threads - {tid};
        }
      }
    }

    method LinkThread(tid: string, id: string)
      modifies this`threads
      ensures threads == Link(old(threads), tid, id)
    {
      if tid !in threads {
        threads := threads[tid := {}];
      }
      threads := threads[tid := threads[tid] + {id}];
    }

    /** Scans the whole table for the oldest DEAD row and gives it up. */
    method FindOldestDead() returns (victim: Option<string>)
      requires Valid()
      ensures ReapChoice(Table(), victim)
    {
      victim := None;
      var todo := sessions.Keys;
      while todo != {}
        invariant todo <= sessions.Keys
        invariant victim.None? ==> forall id | id in sessions && id !in todo :: sessions[id].state != Dead
        invariant victim.Some? ==>
          && victim.value in sessions && sessions[victim.value].state == Dead
          && forall id | id in sessions && id !in todo && sessions[id].state == Dead ::
               sessions[victim.value].lastEventAt <= sessions[id].lastEventAt
        decreases |todo|
      {
        var id :| id in todo;
        todo := todo - {id};
        if sessions[id].state == Dead
          && (victim.None? || sessions[id].lastEventAt < sessions[victim.value].lastEventAt)
        {
          victim := Some(id);
        }
      }
    }

    method ReapOldestDead() returns (victim: Option<string>)
      requires Valid()
      modifies this`sessions, this`threads
      ensures Valid() && sessions.Values <= old(sessions).Values && sessions.Keys <= old(sessions).Keys
      ensures ReapChoice(old(View()).sessions, victim) && View() == Reap(old(View()), victim)
    {
      victim := FindOldestDead();
      if victim.Some? {
        var oldest := sessions[victim.value];
        sessions := sessions - {oldest.id};
        UnlinkThread(oldest.threadID, oldest.id);
        assert Table() == old(Table()) - {oldest.id};
      }
    }

    method AddSession(id: string, agent: string, cwd: string, now: int) returns (s: Session)
      requires Valid() && id !in sessions
      modifies this`sessions, this`threads
      ensures Valid() && Holds(s) && s.id == id && fresh(s) && sessions == old(sessions)[id := s]
      ensures View() == AddRow(old(View()), id, NewRow(cfg, id, agent, cwd, now))
    {
      hide Link, NewRow;
      s := new Session(cfg, id, agent, cwd, now);
      sessions := sessions[id := s];
      LinkThread(s.threadID, id);
      assert Table() == old(Table())[id := s.Row()];
    }

    method GetOrCreate(id: string, agent: string, cwd: string, now: int)
      returns (s: Session, isNew: bool, ghost choice: Option<string>)
      requires Valid()
      modifies this`sessions, this`threads
      ensures Valid() && Holds(s) && s.id == id && isNew == (id !in old(sessions))
      ensures sessions.Values <= old(sessions).Values + {s} && (fresh(s) || s in old(sessions).Values)
      ensures CreateChoice(cfg, old(View()), id, choice)
      ensures View() == MuxSpec.GetOrCreate(cfg, old(View()), id, agent, cwd, now, choice)
    {
      hide AddRow, NewRow, Reap, ReapChoice;
      choice := None;
      isNew := id !in sessions;
      if !isNew {
        s := sessions[id];
      } else {
        assert |Table()| == |sessions| by { assert Table().Keys == sessions.Keys; }
        if |sessions| >= cfg.opt.maxSessions {
          choice := ReapOldestDead();
          assert id !in sessions;
        }
        s := AddSession(id, agent, cwd, now);
      }
    }

    // ── frames ──────────────────────────────────────────────────────────

    method Broadcast(b: Broadcast)
      modifies this`log
      ensures log == old(log) + [b]
    {
      log := log + [b];
    }

    method BroadcastState(s: Session, state: SessionState, at: int)
      modifies this`log
      ensures log == old(log) + TransitionFrames(cfg, s.Row(), state, at)
    {
      match state {
        case Starting =>
        case Busy =>
          Broadcast(BLANK.(typ := ThreadBusy, thread := s.threadID, sid := s.id, caption := s.caption, agent := s.agent,
                           at := at));
        case AwaitingPermission =>
          Broadcast(BLANK.(typ := ThreadIdle, thread := s.threadID, sid := s.id, caption := s.caption, agent := s.agent,
                           awaiting := ForPermission, permissionPrompt := s.lastPermissionPrompt,
                           lastAssistant := s.lastAssistant, lastUserInput := s.lastUserInput, at := at));
        case Idle => BroadcastIdle(s, false, at);
        case Dead => Broadcast(BLANK.(typ := ThreadEnded, thread := s.threadID, sid := s.id, at := at));
      }
    }

    method EmitTransition(s: Session, state: SessionState, at: int)
      requires Valid() && Holds(s)
      modifies this`timers, this`log, s`idleTimer
      ensures Valid() && View() == MuxSpec.EmitTransition(cfg, old(View()), s.id, state, at)
    {
      ghost var was := View();
      if state != Starting && state != Busy {
        ClearIdleTimer(s);
      }
      ghost var mid := View();
      assert mid.sessions[s.id] == s.Row();
      assert mid.log == was.log;
      assert TransitionFrames(cfg, s.Row(), state, at) == TransitionFrames(cfg, was.sessions[s.id], state, at) by {
        FramesIgnoreTimer(was.sessions[s.id], s.Row().timer, state, at);
      }
      hide ClearTimer, TransitionFrames;
      BroadcastState(s, state, at);
      assert Table() == mid.sessions;
    }

    lemma FramesIgnoreTimer(r: Row, timer: Option<nat>, state: SessionState, at: int)
      ensures TransitionFrames(cfg, r.(timer := timer), state, at) == TransitionFrames(cfg, r, state, at)
    {
    }

    method BroadcastIdle(s: Session, inferred: bool, at: int)
      modifies this`log
      ensures log == old(log) + [IdleFrame(cfg, s.Row(), inferred, at)]
    {
      var awaiting := if s.state == AwaitingPermission then ForPermission
        else if cfg.env.asksQuestion(s.lastAssistant) then ForQuestion
        else ForDone;
      Broadcast(BLANK.(typ := ThreadIdle, thread := s.threadID, sid := s.id, caption := s.caption, agent := s.agent,
                       awaiting := awaiting, lastAssistant := s.lastAssistant, lastUserInput := s.lastUserInput,
                       inferred := inferred, at := at));
    }

    // ── local operations ────────────────────────────────────────────────

    /** The first locked segment of Ingest, once the event is known to be no duplicate. */
    method Absorb(ev: Event, now: int, at: int)
      returns (s: Session, isNew: bool, before: SessionState, ghost choice: Option<string>)
      requires Valid() && at == ObservedAt(ev, now)
      modifies this`sessions, this`threads, sessions.Values
      ensures Valid() && Holds(s) && s.id == ev.sid
      ensures sessions.Values <= old(sessions).Values + {s} && (fresh(s) || s in old(sessions).Values)
      ensures isNew == (ev.sid !in old(sessions)) && before == StateBefore(old(View()), ev.sid)
      ensures CreateChoice(cfg, old(View()), ev.sid, choice)
      ensures View() == Absorbed(cfg, old(View()), ev, now, choice)
    {
      hide MuxSpec.GetOrCreate, MuxSpec.Absorb, CreateChoice;
      ghost var was := View();
      s, isNew, choice := GetOrCreate(ev.sid, ev.agent, ev.cwd, now);
      label created:
      ghost var mid := View();
      before := s.state;
      assert before == StateBefore(was, ev.sid) by {
        assert mid.sessions[ev.sid] == s.Row();
        CreatedRow(was, ev, now, choice);
      }
      s.Absorb(cfg, ev, at);
      OneRowWritten@created(s);
    }

    lemma CreatedRow(s: State, ev: Event, now: int, choice: Option<string>)
      ensures var s' := MuxSpec.GetOrCreate(cfg, s, ev.sid, ev.agent, ev.cwd, now, choice);
        s'.sessions[ev.sid].state == StateBefore(s, ev.sid)
    {
    }

    method Publish(s: Session, isNew: bool, before: SessionState, at: int)
      requires Valid() && Holds(s)
      modifies this`timers, this`nextTimer, this`log, s`idleTimer
      ensures Valid() && sessions == old(sessions)
      ensures View() == MuxSpec.Publish(cfg, old(View()), s.id, isNew, before, at)
    {
      hide MuxSpec.EmitTransition, Arm;
      var after := s.state;
      if isNew {
        Broadcast(BLANK.(typ := ThreadStarted, thread := s.threadID, caption := s.caption, agent := s.agent,
                         cwd := s.cwd, at := at));
      }
      if after != before {
        EmitTransition(s, after, at);
      }
      if after == Busy {
        ArmIdle(s);
      }
    }

    /** An event that is no duplicate: absorb it, then publish what changed. */
    method Process(ev: Event, now: int, at: int) returns (s: Session, ghost choice: Option<string>)
      requires Valid() && at == ObservedAt(ev, now)
      modifies this`sessions, this`threads, this`timers, this`nextTimer, this`log, sessions.Values
      ensures Valid() && fresh(sessions.Values - old(sessions).Values) && Holds(s) && s.id == ev.sid
      ensures CreateChoice(cfg, old(View()), ev.sid, choice)
      ensures View() == MuxSpec.Publish(cfg, Absorbed(cfg, old(View()), ev, now, choice), ev.sid,
                                        ev.sid !in old(sessions), StateBefore(old(View()), ev.sid), at)
    {
      hide MuxSpec.Publish, Absorbed, StateBefore, CreateChoice;
      var isNew, before;
      s, isNew, before, choice := Absorb(ev, now, at);
      Publish(s, isNew, before, at);
    }

    lemma AcceptedIs(s: State, ev: Event, now: int, choice: Option<string>)
      requires Wellformed(ev) && !Duplicate(cfg, s.recent, ev, now)
      ensures var s0 := s.(recent := Stamp(s.recent, ev, now));
        && (CreateChoice(cfg, s0, ev.sid, choice) <==> CreateChoice(cfg, s, ev.sid, choice))
        && MuxSpec.Ingest(cfg, s, ev, now, choice)
           == (MuxSpec.Publish(cfg, Absorbed(cfg, s0, ev, now, choice), ev.sid, ev.sid !in s0.sessions,
                               StateBefore(s0, ev.sid), ObservedAt(ev, now)), Accepted)
    {
      hide MuxSpec.Publish, Absorbed, Duplicate, Stamp;
    }

    /** Drops what is malformed or a duplicate, and processes the rest; `s` is the session an accepted event is for. */
    method Accept(ev: Event, now: int) returns (r: IngestResult, s: Session?, ghost choice: Option<string>)
      requires Valid()
      modifies this, sessions.Values
      ensures Valid() && fresh(sessions.Values - old(sessions).Values)
      ensures CreateChoice(cfg, old(View()), ev.sid, choice) || r != Accepted
      ensures (View(), r) == MuxSpec.Ingest(cfg, old(View()), ev, now, choice)
      ensures if r.Accepted? then s != null && Holds(s) && s.id == ev.sid else s == null
    {
      hide MuxSpec.Publish, Absorbed, Duplicate, Stamp, StateBefore, CreateChoice;
      ghost var was := View();
      choice := None;
      if ev.sid == "" || ev.typ.Unrecognized? {
        return Rejected, null, choice;
      }
      var at := if ev.observedAt == 0 then now else ev.observedAt;
      var dup := DuplicateEvent(ev, now);
      if dup {
        return MuxSpec.DuplicateEvent, null, choice;
      }
      assert View() == was.(recent := Stamp(was.recent, ev, now));
      hide MuxSpec.Ingest, View, Table, Valid;
      s, choice := Process(ev, now, at);
      AcceptedIs(was, ev, now, choice);
      r := Accepted;
    }

    /** `landed` is what the prompt-landing hook is given: a prompt the transcript confirms, if it says anything. */
    method Ingest(ev: Event, now: int) returns (r: IngestResult, landed: Option<Landing>, ghost choice: Option<string>)
      requires Valid()
      modifies this, sessions.Values
      ensures Valid() && fresh(sessions.Values - old(sessions).Values)
      ensures CreateChoice(cfg, old(View()), ev.sid, choice) || r != Accepted
      ensures (View(), r) == MuxSpec.Ingest(cfg, old(View()), ev, now, choice)
      ensures landed.Some? <==>
        r.Accepted? && ev.typ.UserPrompt? && ev.source.JSONL? && Text.StripRedacted(ev.text) != ""
      ensures landed.Some? ==> ev.sid in sessions
      ensures landed.Some? ==> landed.value == Landing(ev.sid, sessions[ev.sid].threadID, Text.StripRedacted(ev.text))
    {
      hide MuxSpec.Ingest, CreateChoice, Text.StripRedacted;
      var s;
      r, s, choice := Accept(ev, now);
      landed := None;
      if s != null && ev.typ == UserPrompt && ev.source == JSONL {
        var txt := Text.StripRedacted(ev.text);
        if txt != "" {
          landed := Some(Landing(s.id, s.threadID, txt));
        }
      }
    }

    method BurySession(s: Session)
      requires Valid() && Holds(s)
      modifies this`timers, s
      ensures Valid() && View() == Bury(old(View()), s.id)
      ensures s.threadID == old(s.threadID)
    {
      hide ClearTimer;
      ClearIdleTimer(s);
      label cleared:
      ghost var mid := View();
      assert mid.sessions[s.id] == s.Row();
      s.state := Dead;
      OneRowWritten@cleared(s);
    }

    method MarkDead(id: string, now: int)
      requires Valid()
      modifies this`timers, this`log, sessions.Values
      ensures Valid() && sessions == old(sessions) && View() == MuxSpec.MarkDead(old(View()), id, now)
    {
      hide Bury;
      if id !in sessions || sessions[id].state == Dead {
        return;
      }
      var s := sessions[id];
      assert Table()[id] == s.Row();
      BurySession(s);
      hide View, Table, Valid;
      Broadcast(BLANK.(typ := ThreadEnded, thread := s.threadID, sid := s.id, at := now));
    }

    /** The runtime lets timer `t` go off: it is pending no more, and its callback runs. */
    method FireTimer(t: nat, now: int)
      requires Valid()
      modifies this`timers, this`log, sessions.Values
      ensures Valid() && sessions == old(sessions) && View() == Fire(cfg, old(View()), t, now)
    {
      if t in timers {
        var id := timers[t];
        timers := timers - {t};
        InferIdle(id, now);
      }
    }

    method InferIdle(id: string, now: int)
      requires Valid()
      modifies this`log, sessions.Values
      ensures Valid() && sessions == old(sessions) && View() == MuxSpec.InferIdle(cfg, old(View()), id, now)
    {
      if id !in sessions || sessions[id].state != Busy {
        return;
      }
      hide IdleFrame;
      var s := sessions[id];
      s.state := Idle;
      OneRowWritten(s);
      BroadcastIdle(s, true, now);
    }

    method FindStale(cutoff: int) returns (victims: set<string>)
      requires Valid()
      ensures victims == StaleIds(Table(), cutoff)
      ensures forall id :: id in victims <==>
        id in sessions && sessions[id].state !in {Dead, Busy} && sessions[id].lastEventAt < cutoff
    {
      victims := {};
      var todo := sessions.Keys;
      while todo != {}
        invariant todo <= sessions.Keys
        invariant forall id :: id in victims <==>
          id in sessions && id !in todo && sessions[id].state !in {Dead, Busy} && sessions[id].lastEventAt < cutoff
        decreases |todo|
      {
        var id :| id in todo;
        todo := todo - {id};
        if sessions[id].state != Dead && sessions[id].state != Busy && sessions[id].lastEventAt < cutoff {
          victims := victims + {id};
        }
      }
    }

    /** Retires silent rows whose process is not seen alive. `isLive` is asked once per candidate,
        after the scan; a row it vouches for is left alone whatever its age. */
    method SweepStale(cutoff: int, isLive: string -> bool, now: int) returns (reaped: nat, ghost order: seq<string>)
      requires Valid()
      modifies this`timers, this`log, sessions.Values
      ensures Valid() && sessions == old(sessions)
      ensures View() == MarkAllDead(old(View()), order, now)
      ensures forall id :: id in order <==> id in StaleIds(old(View()).sessions, cutoff) && !isLive(id)
      ensures forall id :: id in order <==>
        id in old(sessions) && !isLive(id)
        && old(sessions[id].state) !in {Dead, Busy} && old(sessions[id].lastEventAt) < cutoff
      ensures reaped == |order|
    {
      hide StaleIds;
      var victims := FindStale(cutoff);
      reaped, order := Retire(victims, isLive, now);
    }

    method Retire(victims: set<string>, isLive: string -> bool, now: int)
      returns (reaped: nat, ghost order: seq<string>)
      requires Valid()
      modifies this`timers, this`log, sessions.Values
      ensures Valid() && sessions == old(sessions)
      ensures View() == MarkAllDead(old(View()), order, now)
      ensures forall id :: id in order <==> id in victims && !isLive(id)
      ensures reaped == |order|
    {
      var todo := victims;
      reaped, order := 0, [];
      ghost var was := View();
      hide MuxSpec.MarkDead, MarkAllDead;
      assert View() == MarkAllDead(was, order, now) by { MarkNone(was, now); }
      while todo != {}
        invariant Valid() && sessions == old(sessions) && todo <= victims
        invariant View() == MarkAllDead(was, order, now)
        invariant forall id :: id in order <==> id in victims && id !in todo && !isLive(id)
        invariant reaped == |order|
        decreases |todo|
      {
        var id :| id in todo;
        todo := todo - {id};
        if !isLive(id) {
          MarkDead(id, now);
          MarkAllAppend(was, order, id, now);
          order := order + [id];
          reaped := reaped + 1;
        }
      }
    }

    lemma MarkNone(s: State, now: int)
      ensures MarkAllDead(s, [], now) == s
    {
    }

    lemma MarkAllAppend(s: State, ids: seq<string>, id: string, now: int)
      ensures MarkAllDead(s, ids + [id], now) == MuxSpec.MarkDead(MarkAllDead(s, ids, now), id, now)
      decreases |ids|
    {
      hide MuxSpec.MarkDead;
      if ids == [] {
        assert ids + [id] == [id];
        assert [id][1..] == [];
      } else {
        assert (ids + [id])[1..] == ids[1..] + [id];
        MarkAllAppend(MuxSpec.MarkDead(s, ids[0], now), ids[1..], id, now);
      }
    }

    method Snapshot() returns (out: seq<SessionView>, ghost order: seq<string>)
      requires Valid()
      ensures forall id :: id in order <==> id in sessions
      ensures |order| == |sessions| && out == Views(Table(), order)
      ensures |out| == |sessions| && forall id | id in sessions :: ViewOf(sessions[id].Row()) in out
    {
      out, order := [], [];
      var todo := sessions.Keys;
      while todo != {}
        invariant todo <= sessions.Keys && |order| + |todo| == |sessions|
        invariant forall id :: id in order <==> id in sessions && id !in todo
        invariant out == Views(Table(), order)
        decreases |todo|
      {
        var id :| id in todo;
        todo := todo - {id};
        var s := sessions[id];
        assert Views(Table(), order + [id]) == Views(Table(), order) + [ViewOf(s.Row())];
        out := out + [SessionView(s.id, s.threadID, s.caption, s.agent, s.cwd, s.state, s.lastEventAt,
                                  s.lastAssistant, s.lastUserInput, s.lastPermissionPrompt)];
        order := order + [id];
      }
      assert |sessions| == |order|;
      forall id | id in sessions ensures ViewOf(sessions[id].Row()) in out {
        var i :| 0 <= i < |order| && order[i] == id;
        assert out[i] == ViewOf(Table()[id]);
      }
    }

    // ── lookups by thread ───────────────────────────────────────────────

    method BestSession(thread: string) returns (best: Option<Session>)
      requires Valid() && (thread in threads ==> threads[thread] <= sessions.Keys)
      ensures best.Some? ==> Holds(best.value)
      ensures IsBest(View(), thread, if best.Some? then Some(best.value.id) else None)
    {
      best := None;
      if thread !in threads || threads[thread] == {} {
        return;
      }
      var todo := threads[thread];
      while todo != {}
        invariant todo <= threads[thread]
        invariant best.None? ==> forall id | id in threads[thread] && id !in todo :: sessions[id].state == Dead
        invariant best.Some? ==>
          && Holds(best.value) && best.value.id in threads[thread] && best.value.state != Dead
          && forall id | id in threads[thread] && id !in todo && sessions[id].state != Dead ::
               sessions[id].lastEventAt <= best.value.lastEventAt
        decreases |todo|
      {
        var id :| id in todo;
        todo := todo - {id};
        var s := sessions[id];
        if s.state != Dead && (best.None? || s.lastEventAt > best.value.lastEventAt) {
          best := Some(s);
        }
      }
      assert best.Some? ==> Table()[best.value.id] == best.value.Row();
    }

    method SessionForThread(thread: string) returns (id: string, agent: string, ok: bool)
      requires Valid() && (thread in threads ==> threads[thread] <= sessions.Keys)
      ensures IsBest(View(), thread, if ok then Some(id) else None)
      ensures ok ==> id in sessions && agent == Table()[id].agent
    {
      var best := BestSession(thread);
      if best.None? {
        return "", "", false;
      }
      return best.value.id, best.value.agent, true;
    }

    /** One entry per thread with a live row, for the newest such row, found by a scan of the table. */
    method ThreadsHello() returns (best: map<string, Session>)
      requires Valid()
      ensures forall t :: t in best <==> exists id :: IsLive(Table(), id) && Table()[id].threadID == t
      ensures forall t | t in best :: Holds(best[t]) && IsNewestLive(Table(), t, best[t].id)
    {
      best := map[];
      var todo := sessions.Keys;
      while todo != {}
        invariant todo <= sessions.Keys
        invariant forall t | t in best :: Holds(best[t]) && best[t].state != Dead && best[t].threadID == t
        invariant forall id | id in sessions && id !in todo && sessions[id].state != Dead ::
          sessions[id].threadID in best && sessions[id].lastEventAt <= best[sessions[id].threadID].lastEventAt
        decreases |todo|
      {
        var id :| id in todo;
        todo := todo - {id};
        var s := sessions[id];
        if s.state != Dead {
          if s.threadID !in best || s.lastEventAt > best[s.threadID].lastEventAt {
            best := best[s.threadID := s];
          }
        }
      }
      forall t | t in best ensures IsNewestLive(Table(), t, best[t].id) {
        assert Table()[best[t].id] == best[t].Row();
      }
    }

    // ── the mirror's side ───────────────────────────────────────────────

    method Rekey(s: Session, thread: string)
      requires Valid() && Holds(s)
      modifies this`threads, s`threadID
      ensures Valid() && View() == MuxSpec.Rekey(old(View()), s.id, thread)
    {
      hide Link, Unlink;
      if thread != "" && s.threadID != thread {
        UnlinkThread(s.threadID, s.id);
        s.threadID := thread;
        LinkThread(thread, s.id);
        OneRowWritten(s);
      }
    }

    method CreateForUpstream(b: Broadcast, now: int) returns (s: Session, ghost choice: Option<string>)
      requires Valid() && b.sid != "" && b.sid !in sessions
      modifies this`sessions, this`threads
      ensures Valid() && Holds(s) && s.id == b.sid && fresh(s) && sessions.Values <= old(sessions).Values + {s}
      ensures CreateChoice(cfg, old(View()), b.sid, choice)
      ensures forall best | b.thread == "" || best == None ::
        View() == MuxSpec.SessionForUpstream(cfg, old(View()), b, now, best, choice)
    {
      hide MuxSpec.GetOrCreate, MuxSpec.Rekey, CreateChoice;
      var isNew;
      s, isNew, choice := GetOrCreate(b.sid, b.agent, b.cwd, now);
      Rekey(s, b.thread);
      label keyed:
      if b.caption != "" {
        s.caption := b.caption;
        OneRowWritten@keyed(s);
      }
    }

    method SessionForUpstream(b: Broadcast, now: int)
      returns (s: Option<Session>, ghost best: Option<string>, ghost choice: Option<string>)
      requires Valid() && (b.thread in threads ==> threads[b.thread] <= sessions.Keys)
      modifies this`sessions, this`threads
      ensures Valid() && FrameChoices(cfg, old(View()), b, best, choice)
      ensures sessions.Values <= old(sessions).Values + (if s.Some? then {s.value} else {})
      ensures s.Some? ==> Holds(s.value) && (fresh(s.value) || s.value in old(sessions).Values)
      ensures UpstreamTarget(old(View()), b, best) == if s.Some? then Some(s.value.id) else None
      ensures View() == MuxSpec.SessionForUpstream(cfg, old(View()), b, now, best, choice)
    {
      hide MuxSpec.GetOrCreate, MuxSpec.Rekey, IsBest, ReapChoice;
      choice := None;
      var found := BestSession(b.thread);
      best := if found.Some? then Some(found.value.id) else None;
      if b.sid != "" && b.sid in sessions {
        s := Some(sessions[b.sid]);
      } else if b.thread != "" && found.Some? {
        s := found;
      } else if b.sid == "" {
        s := None;
      } else {
        var created;
        created, choice := CreateForUpstream(b, now);
        s := Some(created);
      }
    }

    /** Merges a mirrored frame into the local rows; nothing is re-emitted. */
    method ApplyUpstream(b: Broadcast, now: int) returns (ghost best: Option<string>, ghost choice: Option<string>)
      requires Valid() && (b.thread in threads ==> threads[b.thread] <= sessions.Keys)
      modifies this`sessions, this`threads, sessions.Values
      ensures Valid() && fresh(sessions.Values - old(sessions).Values)
      ensures !b.typ.NoType? ==> FrameChoices(cfg, old(View()), b, best, choice)
      ensures View() == MuxSpec.ApplyUpstream(cfg, old(View()), b, now, best, choice)
    {
      hide MuxSpec.ApplyFrame, MuxSpec.SessionForUpstream, FrameChoices, UpstreamTarget;
      if b.typ == NoType {
        best, choice := None, None;
        return;
      }
      var s;
      s, best, choice := SessionForUpstream(b, now);
      label found:
      if s.Some? {
        ghost var mid := View();
        assert mid.sessions[s.value.id] == s.value.Row();
        s.value.ApplyFrame(cfg, b, now);
        OneRowWritten@found(s.value);
      }
    }

    method DropAll() returns (dropped: seq<SessionView>, ghost order: seq<string>)
      requires Valid()
      modifies this`sessions, this`threads
      ensures Valid() && View() == MuxSpec.DropAll(old(View()))
      ensures forall id :: id in order <==> id in old(sessions)
      ensures |order| == |old(sessions)| && dropped == Views(old(Table()), order)
    {
      dropped, order := Snapshot();
      sessions, threads := map[], map[];
    }

    method SyncOne(v: SessionView, now: int) returns (ghost choice: Option<string>)
      requires Valid()
      modifies this`sessions, this`threads, sessions.Values
      ensures Valid() && fresh(sessions.Values - old(sessions).Values)
      ensures Counted(v) ==> CreateChoice(cfg, old(View()), v.sid, choice)
      ensures View() == MuxSpec.SyncOne(cfg, old(View()), v, now, choice)
    {
      hide MuxSpec.GetOrCreate, MuxSpec.SyncRow, CreateChoice;
      choice := None;
      if v.sid == "" || v.state == Dead {
        return;
      }
      var s, isNew;
      s, isNew, choice := GetOrCreate(v.sid, v.agent, v.cwd, now);
      label found:
      ghost var mid := View();
      assert mid.sessions[v.sid] == s.Row();
      s.SyncRow(cfg, v);
      OneRowWritten@found(s);
    }

    method SyncSessions(views: seq<SessionView>, now: int) returns (ghost choices: seq<Option<string>>)
      requires Valid()
      modifies this`sessions, this`threads, sessions.Values
      ensures Valid() && fresh(sessions.Values - old(sessions).Values)
      ensures SyncChoices(cfg, old(View()), views, now, choices)
      ensures View() == MuxSpec.SyncSessions(cfg, old(View()), views, now, choices)
    {
      hide MuxSpec.SyncOne, CreateChoice, SyncChoices, MuxSpec.SyncSessions;
      ghost var was := View();
      choices := [];
      var i := 0;
      assert SyncChoices(cfg, was, [], now, []) && MuxSpec.SyncSessions(cfg, was, [], now, []) == was by {
        SyncNone(was, now);
      }
      while i < |views|
        invariant 0 <= i <= |views| && |choices| == i
        invariant Valid() && fresh(sessions.Values - old(sessions).Values)
        invariant SyncChoices(cfg, was, views[..i], now, choices)
        invariant View() == MuxSpec.SyncSessions(cfg, was, views[..i], now, choices)
      {
        var choice := SyncOne(views[i], now);
        SyncAppend(was, views[..i], views[i], now, choices, choice);
        assert views[..i + 1] == views[..i] + [views[i]];
        choices := choices + [choice];
        i := i + 1;
      }
      assert views[..i] == views;
    }

    lemma SyncNone(s: State, now: int)
      ensures SyncChoices(cfg, s, [], now, []) && MuxSpec.SyncSessions(cfg, s, [], now, []) == s
    {
    }

    lemma SyncAppend(s: State, views: seq<SessionView>, v: SessionView, now: int, choices: seq<Option<string>>,
        choice: Option<string>)
      requires SyncChoices(cfg, s, views, now, choices)
      requires Counted(v) ==> CreateChoice(cfg, MuxSpec.SyncSessions(cfg, s, views, now, choices), v.sid, choice)
      ensures SyncChoices(cfg, s, views + [v], now, choices + [choice])
      ensures MuxSpec.SyncSessions(cfg, s, views + [v], now, choices + [choice])
        == MuxSpec.SyncOne(cfg, MuxSpec.SyncSessions(cfg, s, views, now, choices), v, now, choice)
      decreases |views|
    {
      hide MuxSpec.SyncOne, CreateChoice;
      if views == [] {
        assert views + [v] == [v] && choices + [choice] == [choice];
        assert [v][1..] == [] && [choice][1..] == [];
      } else {
        SyncAppend(MuxSpec.SyncOne(cfg, s, views[0], now, choices[0]), views[1..], v, now, choices[1..], choice);
        assert (views + [v])[1..] == views[1..] + [v];
        assert (choices + [choice])[1..] == choices[1..] + [choice];
      }
    }
  }
}
