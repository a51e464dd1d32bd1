/** Which process speaks for which session: the watcher's sweep, the endpoints it registers, the deaths it
    reports. What a process is correlated with is an input. */
module Processes {
  import opened Wire
  import opened Delivery

  /** An agent process that was found running, with the sessions correlated to it, possibly none. */
  datatype Proc = Proc(agent: string, tty: string, sessions: set<string>)

  type Report = map<int, Proc>

  // ── what a sweep does ─────────────────────────────────────────────────

  function Sessions(live: map<int, set<string>>): set<string> {
    set p, s | p in live && s in live[p] && s != "" :: s
  }

  function Reported(found: Report): set<string> {
    set p, s | p in found && s in found[p].sessions && s != "" :: s
  }

  /** The sessions of every process that is gone. */
  function Vanished(live: map<int, set<string>>, found: Report): set<string> {
    set p, s | p in live && p !in found && s in live[p] :: s
  }

  function Correlated(found: Report): map<int, set<string>> {
    map p | p in found && found[p].sessions != {} :: found[p].sessions
  }

  /** A process found keeps its last non-empty set; one that is gone has none. */
  function Refreshed(live: map<int, set<string>>, found: Report): map<int, set<string>> {
    (live - (live.Keys - found.Keys)) + Correlated(found)
  }

  /** The endpoints are those of the live sessions, each under a process that has it. */
  ghost predicate Agree(live: map<int, set<string>>, byID: map<string, Endpoint>) {
    && byID.Keys == Sessions(live)
    && forall s | s in byID :: byID[s].pid in live && s in live[byID[s].pid]
  }

  /** No endpoint's process has let go of a session that nobody else reports or loses. */
  predicate NoneLetGo(byID: map<string, Endpoint>, live: map<int, set<string>>, found: Report) {
    forall s | s in byID && byID[s].pid in found && found[byID[s].pid].sessions != {} ::
      s in Reported(found) || s in Vanished(live, found)
  }

  /** No process found silent holds a session that just vanished with another. */
  predicate NoneShared(live: map<int, set<string>>, found: Report) {
    forall p, s | p in live && p in found && found[p].sessions == {} && s in live[p] && s in Vanished(live, found) ::
      s == "" || s in Reported(found)
  }

  function EndpointOf(s: string, pid: int, proc: Proc, now: int): Endpoint {
    Endpoint(s, pid, proc.tty, proc.agent, now)
  }

  /** How registering the sessions of what was found leaves the endpoints. */
  ghost predicate Registered(before: map<string, Endpoint>, found: Report, now: int, after: map<string, Endpoint>) {
    && after.Keys == before.Keys + Reported(found)
    && (forall s | s in Reported(found) ::
          && s in after && after[s].pid in found && s in found[after[s].pid].sessions
          && after[s] == EndpointOf(s, after[s].pid, found[after[s].pid], now))
    && (forall s | s in after && s !in Reported(found) :: s in before && after[s] == before[s])
  }

  /** An endpoint just registered: its session, a process found to have it, how that is reached, and when. */
  ghost predicate SpeaksFor(s: string, ep: Endpoint, found: Report, now: int) {
    && ep.sid == s && ep.updatedAt == now
    && ep.pid in found && s in found[ep.pid].sessions
    && ep.tty == found[ep.pid].tty && ep.agent == found[ep.pid].agent
  }

  lemma SweepMeans(before: map<string, Endpoint>, live: map<int, set<string>>, found: Report, now: int,
                   after: map<string, Endpoint>)
    requires Registered(before - Vanished(live, found), found, now, after)
    ensures forall s :: s in Vanished(live, found) <==> exists p | p in live :: p !in found && s in live[p]
    ensures forall p :: p in Refreshed(live, found) <==> p in found && (p in live || found[p].sessions != {})
    ensures forall p | p in Refreshed(live, found) ::
      Refreshed(live, found)[p] == if found[p].sessions != {} then found[p].sessions else live[p]
    ensures forall s :: s in after <==>
      (s in before && s !in Vanished(live, found)) || (s != "" && exists p | p in found :: s in found[p].sessions)
    ensures forall s | s in after ::
      SpeaksFor(s, after[s], found, now)
      || (s in before && after[s] == before[s] && forall p | p in found :: s == "" || s !in found[p].sessions)
  {
    forall s ensures s in Reported(found) <==> s != "" && exists p | p in found :: s in found[p].sessions {
    }
  }

  /** A sweep keeps endpoints and processes in agreement exactly when no session was let go or shared. */
  lemma SweepAgrees(before: map<string, Endpoint>, live: map<int, set<string>>, found: Report, now: int,
      after: map<string, Endpoint>)
    requires Agree(live, before) && Registered(before - Vanished(live, found), found, now, after)
    ensures Agree(Refreshed(live, found), after) <==> NoneLetGo(before, live, found) && NoneShared(live, found)
  {
    var live' := Refreshed(live, found);
    if NoneLetGo(before, live, found) && NoneShared(live, found) {
      forall s | s in after ensures after[s].pid in live' && s in live'[after[s].pid] && s != "" {
        if s !in Reported(found) {
          assert s in before && s !in Vanished(live, found);
          assert before[s].pid in found;
        }
      }
      forall s | s in Sessions(live') ensures s in after {
        var p :| p in live' && s in live'[p];
        if found[p].sessions == {} {
          assert s in Sessions(live);
        } else {
          assert s in Reported(found);
        }
      }
      assert after.Keys == Sessions(live');
    }
    if Agree(live', after) {
      forall s | s in before && before[s].pid in found && found[before[s].pid].sessions != {}
        ensures s in Reported(found) || s in Vanished(live, found)
      {
        assert s in after <==> (s in before && s !in Vanished(live, found)) || s in Reported(found);
      }
      forall p, s | p in live && p in found && found[p].sessions == {} && s in live[p] && s in Vanished(live, found)
        ensures s == "" || s in Reported(found)
      {
        if s != "" {
          assert p in live' && s in live'[p];
          assert s in Sessions(live');
        }
      }
    }
  }

  /** A session of a process that is gone is one of a process that was found, too. */
  ghost predicate Outlives(live: map<int, set<string>>, found: Report, s: string) {
    s in Vanished(live, found) && s != ""
    && exists q | q in found ::
         s in found[q].sessions || (found[q].sessions == {} && q in live && s in live[q])
  }

  /** The sessions a sweep reports dead are none of those it keeps, exactly if none outlives its process: one
      handed from a process gone to another is reported dead while that other holds it. */
  lemma DeadAreGone(live: map<int, set<string>>, found: Report)
    ensures Vanished(live, found) !! Sessions(Refreshed(live, found)) <==> forall s :: !Outlives(live, found, s)
  {
    var kept := Refreshed(live, found);
    forall s ensures Outlives(live, found, s) <==> s in Vanished(live, found) && s in Sessions(kept) {
      if s in Vanished(live, found) && s in Sessions(kept) {
        var q :| q in kept && s in kept[q];
        assert q in found;
      }
      if Outlives(live, found, s) {
        var q :| q in found && (s in found[q].sessions || (found[q].sessions == {} && q in live && s in live[q]));
        assert q in kept && s in kept[q];
      }
    }
  }

  // ── steady correlation ────────────────────────────────────────────────

  /** Every session has one process it is ever correlated with. */
  ghost predicate Homed(live: map<int, set<string>>, home: string -> int) {
    forall p, s | p in live && s in live[p] :: home(s) == p
  }

  ghost predicate ReportHomed(found: Report, home: string -> int) {
    forall p, s | p in found && s in found[p].sessions :: home(s) == p
  }

  /** A process still found is still correlated with all it had. */
  ghost predicate NeverShrinks(live: map<int, set<string>>, found: Report) {
    forall p | p in live && p in found :: live[p] <= found[p].sessions
  }

  lemma SteadyIsSafe(byID: map<string, Endpoint>, live: map<int, set<string>>, found: Report, home: string -> int)
    requires Agree(live, byID) && NeverShrinks(live, found) && Homed(live, home) && ReportHomed(found, home)
    ensures NoneLetGo(byID, live, found) && NoneShared(live, found)
    ensures Homed(Refreshed(live, found), home)
  {
    forall s | s in byID && byID[s].pid in found ensures s in Reported(found) {
      assert s in found[byID[s].pid].sessions && s in Sessions(live);
    }
  }

  predicate Grows(a: Report, b: Report) {
    forall p | p in a && p in b :: a[p].sessions <= b[p].sessions
  }

  /** The same for report after report. */
  ghost predicate Steady(live: map<int, set<string>>, reports: seq<Report>, home: string -> int) {
    && (forall i | 0 <= i < |reports| :: ReportHomed(reports[i], home))
    && (reports != [] ==> NeverShrinks(live, reports[0]))
    && (forall i, j | 0 <= i < j < |reports| && j == i + 1 :: Grows(reports[i], reports[j]))
  }

  lemma StaysSteady(live: map<int, set<string>>, reports: seq<Report>, home: string -> int)
    requires reports != [] && Steady(live, reports, home)
    ensures Steady(Refreshed(live, reports[0]), reports[1..], home)
    ensures Refreshed(live, reports[0]).Keys <= reports[0].Keys
  {
    var rest: seq<Report> := reports[1..];
    var now := Refreshed(live, reports[0]);
    forall i, j | 0 <= i < j < |rest| && j == i + 1 ensures Grows(rest[i], rest[j]) {
      assert rest[i] == reports[i + 1] && rest[j] == reports[j + 1];
    }
    if rest != [] {
      forall p | p in now && p in rest[0] ensures now[p] <= rest[0][p].sessions {
        assert now[p] <= reports[0][p].sessions;
        assert Grows(reports[0], reports[1]);
      }
    }
  }

  lemma AgreeKeys(live: map<int, set<string>>, byID: map<string, Endpoint>)
    requires Agree(live, byID)
    ensures forall s | s in byID :: byID[s].pid in live
  {
  }

  // ── the watcher ───────────────────────────────────────────────────────

  function Among(found: Report, done: set<int>): Report {
    map p | p in found && p in done :: found[p]
  }

  lemma AmongPlus(found: Report, done: set<int>, pid: int)
    requires pid in found && pid !in done
    ensures Among(found, done + {pid}) == Among(found, done)[pid := found[pid]] && pid !in Among(found, done)
  {
  }

  lemma AmongNone(found: Report)
    ensures Among(found, {}) == map[] && Among(found, found.Keys) == found
  {
  }

  lemma CorrelatedNone(was: map<int, set<string>>)
    ensures was + Correlated(map[]) == was
  {
  }

  lemma CorrelatedPlus(was: map<int, set<string>>, found: Report, pid: int, proc: Proc)
    requires pid !in found
    ensures was + Correlated(found[pid := proc]) ==
      if proc.sessions != {} then (was + Correlated(found))[pid := proc.sessions] else was + Correlated(found)
  {
    assert Correlated(found[pid := proc]) ==
      if proc.sessions != {} then Correlated(found)[pid := proc.sessions] else Correlated(found);
  }

  ghost predicate RegisteredOne(before: map<string, Endpoint>, pid: int, proc: Proc, sessions: set<string>, now: int,
                                after: map<string, Endpoint>)
  {
    && after.Keys == before.Keys + sessions
    && (forall s | s in sessions :: s in after && after[s] == EndpointOf(s, pid, proc, now))
    && (forall s | s in after && s !in sessions :: s in before && after[s] == before[s])
  }

  lemma RegisteredPlus(before: map<string, Endpoint>, found: Report, mid: map<string, Endpoint>, pid: int, proc: Proc,
                       now: int, after: map<string, Endpoint>)
    requires Registered(before, found, now, mid) && pid !in found
    requires RegisteredOne(mid, pid, proc, proc.sessions - {""}, now, after)
    ensures Registered(before, found[pid := proc], now, after)
  {
    ReportedMore(found, pid, proc);
    hide Reported, EndpointOf;
    var more, named := found[pid := proc], proc.sessions - {""};
    forall s | s in Reported(more)
      ensures s in after && after[s].pid in more && s in more[after[s].pid].sessions
      ensures after[s] == EndpointOf(s, after[s].pid, more[after[s].pid], now)
    {
      if s in named {
        PidOf(s, pid, proc, now);
      } else {
        assert s in Reported(found) && after[s] == mid[s];
      }
    }
  }

  lemma PidOf(s: string, pid: int, proc: Proc, now: int)
    ensures EndpointOf(s, pid, proc, now).pid == pid
  {
  }

  lemma ReportedMore(found: Report, pid: int, proc: Proc)
    requires pid !in found
    ensures Reported(found[pid := proc]) == Reported(found) + (proc.sessions - {""})
  {
    var more := found[pid := proc];
    forall s ensures s in Reported(more) <==> s in Reported(found) || (s in proc.sessions && s != "") {
      if s in Reported(found) {
        var p :| p in found && s in found[p].sessions;
        assert p in more && s in more[p].sessions;
      }
      assert pid in more;
    }
  }

  lemma RegisteredNothing(before: map<string, Endpoint>, pid: int)
    ensures forall proc, now :: RegisteredOne(before, pid, proc, {}, now, before)
    ensures {} - {""} == {}
  {
  }

  lemma RegisteredNone(before: map<string, Endpoint>)
    ensures forall now :: Registered(before, map[], now, before)
  {
  }

  /** What the registrations of the processes in `done` leave. */
  ghost predicate Refreshing(was: map<int, set<string>>, before: map<string, Endpoint>, found: Report, now: int,
      done: set<int>, live: map<int, set<string>>, byID: map<string, Endpoint>)
  {
    live == was + Correlated(Among(found, done)) && Registered(before, Among(found, done), now, byID)
  }

  lemma RefreshingEnds(was: map<int, set<string>>, before: map<string, Endpoint>, found: Report, now: int,
                       live: map<int, set<string>>, byID: map<string, Endpoint>)
    ensures Refreshing(was, before, found, now, {}, was, before)
    ensures Refreshing(was, before, found, now, found.Keys, live, byID) ==>
      live == was + Correlated(found) && Registered(before, found, now, byID)
  {
    hide Registered;
    AmongNone(found);
    CorrelatedNone(was);
    RegisteredNone(before);
  }

  lemma RefreshingStep(was: map<int, set<string>>, before: map<string, Endpoint>, found: Report, now: int,
      done: set<int>, live: map<int, set<string>>, byID: map<string, Endpoint>, pid: int, after: map<string, Endpoint>)
    requires Refreshing(was, before, found, now, done, live, byID) && pid in found && pid !in done
    requires RegisteredOne(byID, pid, found[pid], found[pid].sessions - {""}, now, after)
    ensures Refreshing(was, before, found, now, done + {pid},
                       if found[pid].sessions != {} then live[pid := found[pid].sessions] else live, after)
  {
    hide Registered, RegisteredOne, Among, Correlated;
    AmongPlus(found, done, pid);
    CorrelatedPlus(was, Among(found, done), pid, found[pid]);
    RegisteredPlus(before, Among(found, done), byID, pid, found[pid], now, after);
  }

  function VanishedBy(live: map<int, set<string>>, found: Report, done: set<int>): set<string> {
    set p, s | p in live && p in done && p !in found && s in live[p] :: s
  }

  lemma VanishedNone(live: map<int, set<string>>, found: Report)
    ensures VanishedBy(live, found, {}) == {} && VanishedBy(live, found, live.Keys) == Vanished(live, found)
  {
  }

  lemma VanishedPlus(live: map<int, set<string>>, found: Report, done: set<int>, pid: int)
    requires pid in live
    ensures VanishedBy(live, found, done + {pid}) ==
      VanishedBy(live, found, done) + (if pid in found then {} else live[pid])
  {
  }

  /** What is left when the processes in `done` have been looked at. */
  ghost predicate Reaped(was: map<int, set<string>>, before: map<string, Endpoint>, found: Report, done: set<int>,
                         live: map<int, set<string>>, byID: map<string, Endpoint>, dead: set<string>)
  {
    && live == was - (done - found.Keys)
    && dead == VanishedBy(was, found, done)
    && byID == before - dead
  }

  lemma ReapedEnds(was: map<int, set<string>>, before: map<string, Endpoint>, found: Report,
                   live: map<int, set<string>>, byID: map<string, Endpoint>, dead: set<string>)
    ensures Reaped(was, before, found, {}, was, before, {})
    ensures Reaped(was, before, found, was.Keys, live, byID, dead) ==>
      live == was - (was.Keys - found.Keys) && dead == Vanished(was, found) && byID == before - dead
  {
    VanishedNone(was, found);
    assert was - ({} - found.Keys) == was && before - {} == before;
  }

  lemma ReapedStep(was: map<int, set<string>>, before: map<string, Endpoint>, found: Report, done: set<int>,
                   live: map<int, set<string>>, byID: map<string, Endpoint>, dead: set<string>, pid: int)
    requires Reaped(was, before, found, done, live, byID, dead) && pid in was && pid !in done
    ensures pid in found ==> Reaped(was, before, found, done + {pid}, live, byID, dead)
    ensures pid in live && live[pid] == was[pid]
    ensures pid !in found ==>
      Reaped(was, before, found, done + {pid}, live - {pid}, byID - live[pid], dead + live[pid])
  {
    hide VanishedBy;
    VanishedPlus(was, found, done, pid);
    if pid in found {
      assert done - found.Keys == (done + {pid}) - found.Keys;
    } else {
      assert (done + {pid}) - found.Keys == (done - found.Keys) + {pid};
      assert live - {pid} == was - ((done + {pid}) - found.Keys);
      assert (before - dead) - was[pid] == before - (dead + was[pid]);
    }
  }

  /** A walk over `all` that has seen `done` and has `todo` to go. */
  ghost predicate Walked(all: set<int>, done: set<int>, todo: set<int>) {
    done + todo == all && done !! todo
  }

  lemma WalkedStep(all: set<int>, done: set<int>, todo: set<int>, x: int)
    requires Walked(all, done, todo) && x in todo
    ensures x in all && x !in done && Walked(all, done + {x}, todo - {x})
  {
  }

  lemma WalkedEnds(all: set<int>)
    ensures Walked(all, {}, all) && forall done :: Walked(all, done, {}) ==> done == all
  {
  }

  /** Any member: maps are walked in no particular order. */
  method Pick<T(==)>(from: set<T>) returns (x: T)
    requires from != {}
    ensures x in from
  {
    x :| x in from;
  }

  class ProcWatcher {
    var live: map<int, set<string>>
    const registry: Registry

    constructor (registry: Registry)
      ensures live == map[] && this.registry == registry
    {
      this.registry := registry;
      live := map[];
    }

    method RemoveAll(sessions: set<string>)
      modifies registry
      ensures registry.byID == old(registry.byID) - sessions
    {
      var todo := sessions;
      while todo != {}
        invariant todo <= sessions
        invariant registry.byID == old(registry.byID) - (sessions - todo)
        decreases |todo|
      {
        var sid :| sid in todo;
        todo := todo - {sid};
        registry.Remove(sid);
      }
    }

    method Forget(pid: int) returns (sessions: set<string>)
      requires pid in live
      modifies this, registry
      ensures sessions == old(live)[pid] && live == old(live) - {pid} && registry.byID == old(registry.byID) - sessions
    {
      sessions := live[pid];
      RemoveAll(sessions);
      live := live - {pid};
    }

    /** Drops the processes that are gone, reporting their sessions dead and removing their endpoints. */
    method Reap(found: Report) returns (dead: set<string>)
      modifies this, registry
      ensures live == old(live) - (old(live).Keys - found.Keys)
      ensures dead == Vanished(old(live), found)
      ensures registry.byID == old(registry.byID) - dead
    {
      hide Vanished, Reaped, Walked;
      WalkedEnds(live.Keys);
      ghost var was := live;
      ghost var done: set<int> := {};
      dead := {};
      var todo := live.Keys;
      ReapedEnds(was, registry.byID, found, was, registry.byID, dead);
      while todo != {}
        invariant Walked(was.Keys, done, todo)
        invariant Reaped(was, old(registry.byID), found, done, live, registry.byID, dead)
        decreases |todo|
      {
        var pid := Pick(todo);
        WalkedStep(was.Keys, done, todo, pid);
        ReapedStep(was, old(registry.byID), found, done, live, registry.byID, dead, pid);
        if pid !in found {
          var sessions := Forget(pid);
          dead := dead + sessions;
        }
        todo, done := todo - {pid}, done + {pid};
      }
      assert done == was.Keys;
      ReapedEnds(was, old(registry.byID), found, live, registry.byID, dead);
    }

    /** Registers an endpoint for every session of one process. */
    method Register(pid: int, proc: Proc, now: int)
      modifies registry
      ensures RegisteredOne(old(registry.byID), pid, proc, proc.sessions - {""}, now, registry.byID)
    {
      var todo := proc.sessions;
      while todo != {}
        invariant todo <= proc.sessions
        invariant RegisteredOne(old(registry.byID), pid, proc, proc.sessions - todo - {""}, now, registry.byID)
        decreases |todo|
      {
        var sid :| sid in todo;
        todo := todo - {sid};
        registry.Set(Endpoint(sid, pid, proc.tty, proc.agent, 0), now);
      }
      assert proc.sessions - todo - {""} == proc.sessions - {""};
    }

    method Refresh(found: Report, now: int)
      modifies this, registry
      ensures live == old(live) + Correlated(found)
      ensures Registered(old(registry.byID), found, now, registry.byID)
    {
      hide Registered, RegisteredOne, Refreshing, Correlated, Walked;
      WalkedEnds(found.Keys);
      ghost var was := live;
      var todo := found.Keys;
      ghost var done: set<int> := {};
      RefreshingEnds(was, registry.byID, found, now, was, registry.byID);
      while todo != {}
        invariant Walked(found.Keys, done, todo)
        invariant Refreshing(was, old(registry.byID), found, now, done, live, registry.byID)
        decreases |todo|
      {
        var pid := Pick(todo);
        WalkedStep(found.Keys, done, todo, pid);
        var proc := found[pid];
        ghost var live0, byID0 := live, registry.byID;
        RegisteredNothing(byID0, pid);
        if proc.sessions != {} {
          live := live[pid := proc.sessions];
          Register(pid, proc, now);
        }
        RefreshingStep(was, old(registry.byID), found, now, done, live0, byID0, pid, registry.byID);
        todo, done := todo - {pid}, done + {pid};
      }
      assert done == found.Keys;
      RefreshingEnds(was, old(registry.byID), found, now, live, registry.byID);
    }

    /** One sweep: the dead are exactly the sessions of processes gone, and the endpoints still agree with
        the processes exactly when no session was let go or shared. */
    method Sweep(found: Report, now: int) returns (dead: set<string>)
      modifies this, registry
      ensures live == Refreshed(old(live), found)
      ensures dead == Vanished(old(live), found)
      ensures Registered(old(registry.byID) - dead, found, now, registry.byID)
      ensures forall s :: s in dead <==> exists p | p in old(live) :: p !in found && s in old(live)[p]
      ensures forall p :: p in live <==> p in found && (p in old(live) || found[p].sessions != {})
      ensures forall p | p in live ::
        live[p] == if found[p].sessions != {} then found[p].sessions else old(live)[p]
      ensures forall s :: s in registry.byID <==>
        (s in old(registry.byID) && s !in dead) || (s != "" && exists p | p in found :: s in found[p].sessions)
      ensures forall s | s in registry.byID ::
        SpeaksFor(s, registry.byID[s], found, now)
        || (s in old(registry.byID) && registry.byID[s] == old(registry.byID)[s]
            && forall p | p in found :: s == "" || s !in found[p].sessions)
      ensures old(Agree(live, registry.byID)) ==>
        (Agree(live, registry.byID) <==>
          NoneLetGo(old(registry.byID), old(live), found) && NoneShared(old(live), found))
    {
      hide Agree, NoneLetGo, NoneShared, Correlated, Vanished, Registered;
      dead := Reap(found);
      Refresh(found, now);
      if old(Agree(live, registry.byID)) {
        SweepAgrees(old(registry.byID), old(live), found, now, registry.byID);
      }
      SweepMeans(old(registry.byID), old(live), found, now, registry.byID);
    }

    /** Sweep after sweep with every session at home in one process and no process letting go of one: the
        endpoints are always those of the live processes. */
    method Run(reports: seq<Report>, nows: seq<int>, ghost home: string -> int)
      requires Agree(live, registry.byID) && Homed(live, home) && Steady(live, reports, home) && |nows| == |reports|
      modifies this, registry
      ensures Agree(live, registry.byID) && Homed(live, home)
      ensures forall s | s in registry.byID && reports != [] :: registry.byID[s].pid in reports[|reports| - 1]
    {
      hide Agree, Homed, NoneLetGo, NoneShared, Refreshed, Vanished, Registered;
      var i := 0;
      while i < |reports|
        invariant 0 <= i <= |reports| && Agree(live, registry.byID) && Homed(live, home)
        invariant Steady(live, reports[i..], home)
        invariant i > 0 ==> live.Keys <= reports[i - 1].Keys
      {
        assert reports[i..][0] == reports[i] && reports[i..][1..] == reports[i + 1..];
        SteadyIsSafe(registry.byID, live, reports[i], home);
        StaysSteady(live, reports[i..], home);
        var dead := Sweep(reports[i], nows[i]);
        i := i + 1;
      }
      AgreeKeys(live, registry.byID);
    }
  }
}
