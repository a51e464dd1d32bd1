/** Looking a thread up by the index and by a scan of the table, and what a stale sweep spares. */
module MuxLookup {
  import opened Wire
  import opened MuxSpec
  import opened MuxInvariants

  ghost predicate HasLive(s: State, thread: string) {
    exists id :: IsLive(s.sessions, id) && s.sessions[id].threadID == thread
  }

  /** With the index in step, the index's best row is the scan's newest row, and a thread the index
      finds nothing for is one the scan does not list. */
  lemma IndexLookupIsScan(s: State, thread: string, choice: Option<string>)
    requires IndexAgrees(s)
    ensures IsBest(s, thread, choice) <==>
      match choice
      case Some(id) => IsNewestLive(s.sessions, thread, id)
      case None => !HasLive(s, thread)
  {
    forall id | IsLive(s.sessions, id) && s.sessions[id].threadID == thread
      ensures thread in s.threads && id in s.threads[thread]
    {
    }
    if choice.None? && !HasLive(s, thread) && thread in s.threads {
      forall id | id in s.threads[thread] ensures !IsLive(s.sessions, id) {
        assert s.sessions[id].threadID == thread;
      }
    }
  }

  /** When no two live rows of a thread are equally fresh, index and scan pick the same row. */
  lemma SamePick(s: State, thread: string, byIndex: string, byScan: string)
    requires IndexAgrees(s)
    requires IsBest(s, thread, Some(byIndex)) && IsNewestLive(s.sessions, thread, byScan)
    requires forall a, b | IsLive(s.sessions, a) && IsLive(s.sessions, b) && a != b
      && s.sessions[a].threadID == thread && s.sessions[b].threadID == thread ::
      s.sessions[a].lastEventAt != s.sessions[b].lastEventAt
    ensures byIndex == byScan
  {
    IndexLookupIsScan(s, thread, Some(byIndex));
  }

  lemma MarkDeadRows(s: State, id: string, now: int)
    ensures var s' := MarkDead(s, id, now);
      && s'.sessions.Keys == s.sessions.Keys
      && (forall x | x in s.sessions && x != id :: s'.sessions[x] == s.sessions[x])
      && (id in s.sessions ==> s'.sessions[id].state.Dead?)
  {
    hide EndedFrame;
    if IsLive(s.sessions, id) {
      ClearTouches(s, id);
      hide ClearTimer;
    }
  }

  /** A sweep that marks `order` dead kills exactly the rows named there and rewrites no other. */
  lemma {:induction false} SweepSpares(s: State, order: seq<string>, now: int, id: string)
    requires id in s.sessions
    ensures var s' := MarkAllDead(s, order, now);
      && id in s'.sessions
      && (id !in order ==> s'.sessions[id] == s.sessions[id])
      && (id in order ==> s'.sessions[id].state.Dead?)
    decreases |order|
  {
    hide MarkDead;
    if order != [] {
      MarkDeadRows(s, order[0], now);
      SweepSpares(MarkDead(s, order[0], now), order[1..], now, id);
      assert id in order <==> id == order[0] || id in order[1..];
    }
  }
}
