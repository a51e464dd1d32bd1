/** The bounded, expiring buffer in its three realizations, against the log of everything added to it. */
module Buffers {
  import opened Wire

  datatype Stamped<T> = Stamped(v: T, at: int)

  // ── what a buffer should hold ─────────────────────────────────────────

  function Fresh<T>(log: seq<Stamped<T>>, cutoff: int): seq<Stamped<T>> {
    if log == [] then []
    else (if log[0].at >= cutoff then [log[0]] else []) + Fresh(log[1..], cutoff)
  }

  function LastOf<T>(items: seq<T>, n: nat): seq<T> {
    if |items| <= n then items else items[|items| - n..]
  }

  /** The last `cap` of the logged items stamped at `cut` or later; either bound may be off. */
  function Recent<T>(log: seq<Stamped<T>>, cut: Option<int>, cap: Option<nat>): seq<Stamped<T>> {
    var live := if cut.Some? then Fresh(log, cut.value) else log;
    if cap.Some? then LastOf(live, cap.value) else live
  }

  function Values<T>(items: seq<Stamped<T>>): seq<T> {
    seq(|items|, i requires 0 <= i < |items| => items[i].v)
  }

  predicate Sorted<T>(log: seq<Stamped<T>>) {
    forall i, j | 0 <= i < j < |log| :: log[i].at <= log[j].at
  }

  // ── as a position in the log ──────────────────────────────────────────

  function FirstFresh<T>(items: seq<Stamped<T>>, cutoff: int): (i: nat)
    ensures i <= |items|
    ensures forall j | 0 <= j < i :: items[j].at < cutoff
    ensures i < |items| ==> items[i].at >= cutoff
  {
    if items == [] || items[0].at >= cutoff then 0 else 1 + FirstFresh(items[1..], cutoff)
  }

  function ExpireAt<T>(items: seq<Stamped<T>>, cut: Option<int>): (i: nat)
    ensures i <= |items|
  {
    if cut.Some? then FirstFresh(items, cut.value) else 0
  }

  function CapAt<T>(items: seq<T>, cap: Option<nat>): (i: nat)
    ensures i <= |items|
  {
    if cap.Some? && |items| > cap.value then |items| - cap.value else 0
  }

  function Start<T>(items: seq<Stamped<T>>, cut: Option<int>, cap: Option<nat>): (i: nat)
    ensures i <= |items|
  {
    if ExpireAt(items, cut) < CapAt(items, cap) then CapAt(items, cap) else ExpireAt(items, cut)
  }

  /** Nothing fresh comes before anything expired. */
  predicate Settled<T>(items: seq<Stamped<T>>, cutoff: int) {
    forall i, j | 0 <= i < j < |items| && items[i].at >= cutoff :: items[j].at >= cutoff
  }

  lemma {:induction false} FreshSize<T>(items: seq<Stamped<T>>, cutoff: int)
    ensures |Fresh(items, cutoff)| <= |items|
    ensures |Fresh(items, cutoff)| == |items| <==> Fresh(items, cutoff) == items
    ensures Fresh(items, cutoff) == items <==> forall i | 0 <= i < |items| :: items[i].at >= cutoff
  {
    if items != [] {
      FreshSize(items[1..], cutoff);
      assert items == [items[0]] + items[1..];
      assert forall i | 1 <= i < |items| :: items[i] == items[1..][i - 1];
      if forall i | 0 <= i < |items| :: items[i].at >= cutoff {
        assert forall i | 0 <= i < |items[1..]| :: items[1..][i].at >= cutoff;
      }
    }
  }

  /** Dropping the expired prefix drops just what is expired exactly when nothing fresh comes before
      something expired. */
  lemma {:induction false} PrefixIsAll<T>(items: seq<Stamped<T>>, cutoff: int)
    ensures items[FirstFresh(items, cutoff)..] == Fresh(items, cutoff) <==> Settled(items, cutoff)
  {
    if items != [] {
      FreshSize(items, cutoff);
      if items[0].at >= cutoff {
        assert items[0..] == items;
        if Settled(items, cutoff) {
          assert forall i | 0 < i < |items| :: items[i].at >= cutoff;
        }
      } else {
        PrefixIsAll(items[1..], cutoff);
        assert items[FirstFresh(items, cutoff)..] == items[1..][FirstFresh(items[1..], cutoff)..];
        assert forall i | 1 <= i < |items| :: items[i] == items[1..][i - 1];
        if Settled(items[1..], cutoff) {
          forall i, j | 0 <= i < j < |items| && items[i].at >= cutoff ensures items[j].at >= cutoff {
            assert items[1..][i - 1].at >= cutoff ==> items[1..][j - 1].at >= cutoff;
          }
        }
      }
    }
  }

  lemma RecentIs<T>(log: seq<Stamped<T>>, cut: Option<int>, cap: Option<nat>)
    requires Sorted(log)
    ensures Recent(log, cut, cap) == log[Start(log, cut, cap)..]
  {
    hide Fresh, FirstFresh;
    if cut.Some? {
      assert Settled(log, cut.value);
      PrefixIsAll(log, cut.value);
    }
    var i, k := ExpireAt(log, cut), CapAt(log, cap);
    assert if i < k then log[i..][k - i..] == log[k..] else true;
  }

  // ── expire and cap, in either order ───────────────────────────────────

  function Expire<T>(items: seq<Stamped<T>>, cut: Option<int>): seq<Stamped<T>> {
    items[ExpireAt(items, cut)..]
  }

  function Cap<T>(items: seq<T>, cap: Option<nat>): seq<T> {
    items[CapAt(items, cap)..]
  }

  /** Expiring then capping and capping then expiring leave the same items exactly when the oldest item the
      cap keeps is fresh, or nothing the cap drops is. */
  lemma OrdersAgree<T>(items: seq<Stamped<T>>, cutoff: int, max: nat)
    ensures Cap(Expire(items, Some(cutoff)), Some(max)) == Expire(Cap(items, Some(max)), Some(cutoff)) <==>
      max == 0 || |items| <= max || items[|items| - max].at >= cutoff
      || forall i | 0 <= i < |items| - max :: items[i].at < cutoff
  {
  }

  lemma FirstFreshIs<T>(items: seq<Stamped<T>>, cutoff: int, i: nat)
    requires i <= |items| && (i < |items| ==> items[i].at >= cutoff)
    requires forall j | 0 <= j < i :: items[j].at < cutoff
    ensures FirstFresh(items, cutoff) == i
  {
    hide FirstFresh;
  }

  lemma FirstFreshTail<T>(log: seq<Stamped<T>>, from: nat, cut: Option<int>)
    requires Sorted(log) && from <= |log|
    ensures ExpireAt(log[from..], cut) == if ExpireAt(log, cut) <= from then 0 else ExpireAt(log, cut) - from
  {
    hide FirstFresh;
    if cut.Some? {
      var i := FirstFresh(log, cut.value);
      FirstFreshIs(log[from..], cut.value, if i <= from then 0 else i - from);
    }
  }

  function Later(a: nat, b: nat): nat {
    if a <= b then b else a
  }

  lemma StartIsLatest<T>(log: seq<Stamped<T>>, cut: Option<int>, cap: Option<nat>)
    ensures Start(log, cut, cap) == Later(ExpireAt(log, cut), CapAt(log, cap))
  {
    hide ExpireAt;
  }

  lemma ExpireTail<T>(log: seq<Stamped<T>>, from: nat, cut: Option<int>)
    requires Sorted(log) && from <= |log|
    ensures Expire(log[from..], cut) == log[Later(from, ExpireAt(log, cut))..]
  {
    hide ExpireAt, Sorted;
    FirstFreshTail(log, from, cut);
  }

  lemma CapTail<T>(log: seq<T>, from: nat, cap: Option<nat>)
    requires from <= |log|
    ensures Cap(log[from..], cap) == log[Later(from, CapAt(log, cap))..]
  {
  }

  /** A buffer that holds the log from some point on evicts, in either order, to what it should hold. */
  lemma EvictsToStart<T>(log: seq<Stamped<T>>, from: nat, cut: Option<int>, cap: Option<nat>)
    requires Sorted(log) && from <= Start(log, cut, cap)
    ensures Cap(Expire(log[from..], cut), cap) == log[Start(log, cut, cap)..]
    ensures Expire(Cap(log[from..], cap), cut) == log[Start(log, cut, cap)..]
  {
    hide Sorted, Cap, Expire, Start;
    var j, c := Later(from, ExpireAt(log, cut)), Later(from, CapAt(log, cap));
    StartIsLatest(log, cut, cap);
    ExpireTail(log, from, cut);
    CapTail(log, j, cap);
    CapTail(log, from, cap);
    ExpireTail(log, c, cut);
  }

  /** Time passing and items arriving only move the point on. */
  lemma StartGrows<T>(log: seq<Stamped<T>>, more: seq<Stamped<T>>, cut: Option<int>, later: Option<int>,
      cap: Option<nat>)
    requires Sorted(log + more) && cut.Some? == later.Some? && (cut.Some? ==> cut.value <= later.value)
    ensures Start(log, cut, cap) <= Start(log + more, later, cap)
  {
    hide FirstFresh;
    assert forall i | 0 <= i < |log| :: (log + more)[i] == log[i];
  }

  lemma SortedSnoc<T>(log: seq<Stamped<T>>, x: Stamped<T>)
    requires Sorted(log) && (log != [] ==> log[|log| - 1].at <= x.at)
    ensures Sorted(log + [x])
  {
  }

  lemma SortedInit<T>(log: seq<Stamped<T>>, x: Stamped<T>)
    requires Sorted(log + [x])
    ensures Sorted(log) && (log != [] ==> log[|log| - 1].at <= x.at)
  {
    assert forall i | 0 <= i < |log| :: (log + [x])[i] == log[i];
    assert (log + [x])[|log|] == x;
  }

  /** What the buffers keep between calls: what was added since the last clear, and the last time they
      evicted at. Nothing is lost that a later look could still want. */
  ghost predicate Holds<T>(items: seq<Stamped<T>>, log: seq<Stamped<T>>, cut: Option<int>, cap: Option<nat>) {
    Sorted(log) && items == log[Start(log, cut, cap)..]
  }

  lemma AddHolds<T>(items: seq<Stamped<T>>, log: seq<Stamped<T>>, x: Stamped<T>, cut: Option<int>, later: Option<int>,
      cap: Option<nat>)
    requires Holds(items, log, cut, cap) && (log != [] ==> log[|log| - 1].at <= x.at)
    requires cut.Some? == later.Some? && (cut.Some? ==> cut.value <= later.value)
    ensures Holds(Cap(Expire(items + [x], later), cap), log + [x], later, cap)
    ensures Holds(Expire(Cap(items + [x], cap), later), log + [x], later, cap)
  {
    hide Start, Cap, Expire;
    var from := Start(log, cut, cap);
    SortedSnoc(log, x);
    StartGrows(log, [x], cut, later, cap);
    assert items + [x] == (log + [x])[from..];
    EvictsToStart(log + [x], from, later, cap);
  }

  lemma LookHolds<T>(items: seq<Stamped<T>>, log: seq<Stamped<T>>, cut: Option<int>, later: Option<int>,
      cap: Option<nat>)
    requires Holds(items, log, cut, cap)
    requires cut.Some? == later.Some? && (cut.Some? ==> cut.value <= later.value)
    ensures Holds(Cap(Expire(items, later), cap), log, later, cap)
    ensures Cap(Expire(items, later), cap) == Recent(log, later, cap)
    ensures Expire(items, later) == Recent(log, later, cap) && Holds(Expire(items, later), log, later, cap)
  {
    hide Cap, Expire, Recent, ExpireAt;
    assert log + [] == log;
    StartGrows(log, [], cut, later, cap);
    EvictsToStart(log, Start(log, cut, cap), later, cap);
    RecentIs(log, later, cap);
    assert Cap(items, cap) == items by { UnderCap(log, cut, cap); }
  }

  lemma UnderCap<T>(log: seq<Stamped<T>>, cut: Option<int>, cap: Option<nat>)
    ensures Cap(log[Start(log, cut, cap)..], cap) == log[Start(log, cut, cap)..]
  {
    hide FirstFresh;
  }

  method CopyOut<T>(items: seq<Stamped<T>>) returns (out: seq<T>)
    ensures out == Values(items)
  {
    out := [];
    var i := 0;
    while i < |items|
      invariant 0 <= i <= |items| && out == Values(items[..i])
    {
      assert Values(items[..i + 1]) == Values(items[..i]) + [items[i].v];
      out := out + [items[i].v];
      i := i + 1;
    }
    assert items[..i] == items;
  }

  // ── Go: expire, then cap; a bound that is not positive is off ─────────

  class GoBuffer<T> {
    const ttl: int
    const max: int
    var items: seq<Stamped<T>>
    ghost var log: seq<Stamped<T>>
    ghost var seen: Option<int>

    function CutAt(now: int): Option<int> {
      if ttl > 0 then Some(now - ttl) else None
    }

    function CapBy(): Option<nat> {
      if max > 0 then Some(max) else None
    }

    ghost predicate Valid()
      reads this
    {
      && (seen.None? ==> log == [] && items == [])
      && (seen.Some? ==> Holds(items, log, CutAt(seen.value), CapBy()) && forall x | x in log :: x.at <= seen.value)
    }

    /** Time has not gone backwards. */
    ghost predicate Due(now: int)
      reads this
    {
      seen.Some? ==> seen.value <= now
    }

    constructor (ttl: int, max: int)
      ensures Valid() && log == [] && seen == None && this.ttl == ttl && this.max == max
    {
      this.ttl, this.max := ttl, max;
      items, log, seen := [], [], None;
    }

    method Evict(now: int)
      modifies this`items
      ensures items == Cap(Expire(old(items), CutAt(now)), CapBy())
    {
      if ttl > 0 {
        var i := 0;
        while i < |items| && items[i].at < now - ttl
          invariant 0 <= i <= |items| && forall j | 0 <= j < i :: items[j].at < now - ttl
        {
          i := i + 1;
        }
        if i > 0 {
          items := items[i..];
        }
      }
      if max > 0 && |items| > max {
        var drop := |items| - max;
        items := items[drop..];
      }
    }

    method Add(v: T, at: int)
      requires Valid() && Due(at)
      modifies this
      ensures Valid() && log == old(log) + [Stamped(v, at)] && seen == Some(at)
    {
      hide Holds, Cap, Expire;
      ghost var before := if seen.Some? then CutAt(seen.value) else CutAt(at);
      assert Holds(items, log, before, CapBy()) by { NothingHolds<T>(before, CapBy()); }
      AddHolds(items, log, Stamped(v, at), before, CutAt(at), CapBy());
      items := items + [Stamped(v, at)];
      Evict(at);
      log, seen := log + [Stamped(v, at)], Some(at);
    }

    method Look(now: int)
      requires Valid() && Due(now)
      modifies this
      ensures Valid() && log == old(log) && seen == Some(now) && items == Recent(log, CutAt(now), CapBy())
    {
      hide Holds, Cap, Expire, Recent;
      ghost var before := if seen.Some? then CutAt(seen.value) else CutAt(now);
      assert Holds(items, log, before, CapBy()) by { NothingHolds<T>(before, CapBy()); }
      LookHolds(items, log, before, CutAt(now), CapBy());
      Evict(now);
      seen := Some(now);
    }

    /** The live items, oldest first: of all added since the last clear, the last `max` still fresh. */
    method Snapshot(now: int) returns (out: seq<T>)
      requires Valid() && Due(now)
      modifies this
      ensures Valid() && log == old(log) && seen == Some(now)
      ensures out == Values(Recent(log, CutAt(now), CapBy()))
    {
      Look(now);
      out := CopyOut(items);
    }

    method Len(now: int) returns (n: nat)
      requires Valid() && Due(now)
      modifies this
      ensures Valid() && log == old(log) && seen == Some(now) && n == |Recent(log, CutAt(now), CapBy())|
    {
      Look(now);
      n := |items|;
    }

    method Clear()
      requires Valid()
      modifies this
      ensures Valid() && log == [] && seen == old(seen)
    {
      items, log := [], [];
    }
  }

  lemma NothingHolds<T>(cut: Option<int>, cap: Option<nat>)
    ensures Holds<T>([], [], cut, cap)
  {
  }

  // ── Kotlin and Swift: cap, then expire by the clock ───────────────────

  /** While the clock never went back and the stamps are in order, nothing a later look could want is lost. */
  ghost predicate Keeps<T>(items: seq<Stamped<T>>, log: seq<Stamped<T>>, ttl: int, cap: Option<nat>, seen: Option<int>,
      steady: bool)
  {
    steady && Sorted(log) ==>
      if seen.Some? then Holds(items, log, Some(seen.value - ttl), cap) else log == [] && items == []
  }

  lemma KeepsAdd<T>(items: seq<Stamped<T>>, log: seq<Stamped<T>>, x: Stamped<T>, ttl: int, cap: Option<nat>,
      seen: Option<int>, steady: bool, now: int)
    requires Keeps(items, log, ttl, cap, seen, steady) && (steady && seen.Some? ==> seen.value <= now)
    ensures Keeps(Expire(Cap(items + [x], cap), Some(now - ttl)), log + [x], ttl, cap, Some(now), steady)
  {
    hide Cap, Expire, Holds, Sorted;
    if steady && Sorted(log + [x]) {
      SortedInit(log, x);
      var before := if seen.Some? then Some(seen.value - ttl) else Some(now - ttl);
      NothingHolds<T>(before, cap);
      AddHolds(items, log, x, before, Some(now - ttl), cap);
    }
  }

  lemma KeepsLook<T>(items: seq<Stamped<T>>, log: seq<Stamped<T>>, ttl: int, cap: Option<nat>, seen: Option<int>,
      steady: bool, now: int)
    requires Keeps(items, log, ttl, cap, seen, steady) && (steady && seen.Some? ==> seen.value <= now)
    ensures var items' := Expire(items, Some(now - ttl));
      && Keeps(items', log, ttl, cap, Some(now), steady)
      && (steady && Sorted(log) ==> items' == Recent(log, Some(now - ttl), cap))
  {
    hide Cap, Expire, Recent, Holds, Sorted;
    if steady && Sorted(log) {
      var before := if seen.Some? then Some(seen.value - ttl) else Some(now - ttl);
      NothingHolds<T>(before, cap);
      LookHolds(items, log, before, Some(now - ttl), cap);
    }
  }

  lemma KeepsDue<T>(items: seq<Stamped<T>>, log: seq<Stamped<T>>, ttl: int, cap: Option<nat>, seen: Option<int>,
      steady: bool, still: bool)
    requires Keeps(items, log, ttl, cap, seen, steady) && (still ==> steady)
    ensures Keeps(items, log, ttl, cap, seen, still)
  {
  }

  lemma KeepsNothing<T>(ttl: int, cap: Option<nat>, seen: Option<int>, steady: bool)
    ensures Keeps<T>([], [], ttl, cap, seen, steady)
  {
    if seen.Some? { NothingHolds<T>(Some(seen.value - ttl), cap); }
  }

  class KotlinBuffer<T> {
    const ttl: int
    const max: int
    var items: seq<Stamped<T>>
    ghost var log: seq<Stamped<T>>
    ghost var seen: Option<int>
    ghost var steady: bool

    function CapBy(): Option<nat> {
      if max >= 0 then Some(max) else None
    }

    ghost predicate Valid()
      reads this
    {
      max >= 0 ==> Keeps(items, log, ttl, CapBy(), seen, steady)
    }

    /** The clock has not gone backwards. */
    ghost predicate Due(now: int)
      reads this
    {
      steady && (seen.Some? ==> seen.value <= now)
    }

    constructor (ttl: int, max: int)
      ensures Valid() && log == [] && seen == None && steady && this.ttl == ttl && this.max == max
    {
      this.ttl, this.max := ttl, max;
      items, log, seen, steady := [], [], None, true;
    }

    method Evict(now: int)
      modifies this`items
      ensures items == Expire(old(items), Some(now - ttl))
    {
      ghost var i := 0;
      while items != [] && items[0].at < now - ttl
        invariant 0 <= i <= |old(items)| && items == old(items)[i..]
        invariant forall j | 0 <= j < i :: old(items)[j].at < now - ttl
        decreases |items|
      {
        items := items[1..];
        i := i + 1;
      }
      FirstFreshIs(old(items), now - ttl, i);
    }

    method DropExcess() returns (ok: bool)
      modifies this`items
      ensures ok <==> max >= 0
      ensures items == if ok then Cap(old(items), CapBy()) else []
    {
      ghost var all := items;
      while |items| > max && items != []
        invariant |items| <= |all| && items == all[|all| - |items|..]
        invariant |items| == |all| || |items| >= max
      {
        items := items[1..];
      }
      ok := |items| <= max;
    }

    /** With a negative bound the removal loop runs into an empty queue and fails. */
    method Add(item: T, ts: int, now: int) returns (ok: bool)
      requires Valid()
      modifies this
      ensures Valid() && log == old(log) + [Stamped(item, ts)] && (ok <==> max >= 0)
      ensures ok ==> items == Expire(Cap(old(items) + [Stamped(item, ts)], CapBy()), Some(now - ttl))
      ensures ok ==> seen == Some(now) && steady == old(Due(now))
      ensures !ok ==> items == [] && seen == old(seen) && steady == old(steady)
    {
      hide Keeps, Expire, Cap, Sorted;
      items := items + [Stamped(item, ts)];
      ok := DropExcess();
      log := log + [Stamped(item, ts)];
      if !ok {
        return;
      }
      steady := Due(now);
      KeepsDue(old(items), old(log), ttl, CapBy(), seen, old(steady), steady);
      KeepsAdd(old(items), old(log), Stamped(item, ts), ttl, CapBy(), seen, steady, now);
      Evict(now);
      seen := Some(now);
    }

    /** In order and by a steady clock: of all added since the last clear, the last `max` still fresh. */
    method Snapshot(now: int) returns (out: seq<T>)
      requires Valid()
      modifies this
      ensures Valid() && log == old(log) && seen == Some(now) && steady == old(Due(now))
      ensures items == Expire(old(items), Some(now - ttl)) && out == Values(items)
      ensures max >= 0 && steady && Sorted(log) ==> out == Values(Recent(log, Some(now - ttl), Some(max)))
    {
      hide Keeps, Expire, Recent, Sorted;
      steady := Due(now);
      if max >= 0 {
        KeepsDue(items, log, ttl, CapBy(), seen, old(steady), steady);
        KeepsLook(items, log, ttl, CapBy(), seen, steady, now);
      }
      Evict(now);
      seen := Some(now);
      out := CopyOut(items);
    }

    method Clear()
      requires Valid()
      modifies this
      ensures Valid() && items == [] && log == [] && seen == old(seen) && steady == old(steady)
    {
      items, log := [], [];
      KeepsNothing<T>(ttl, CapBy(), seen, steady);
    }
  }

  class SwiftBuffer<T> {
    const ttl: int
    const max: int
    var items: seq<Stamped<T>>
    ghost var log: seq<Stamped<T>>
    ghost var seen: Option<int>
    ghost var steady: bool

    function CapBy(): Option<nat> {
      if max >= 0 then Some(max) else None
    }

    ghost predicate Valid()
      reads this
    {
      max >= 0 ==> Keeps(items, log, ttl, CapBy(), seen, steady)
    }

    /** The clock has not gone backwards. */
    ghost predicate Due(now: int)
      reads this
    {
      steady && (seen.Some? ==> seen.value <= now)
    }

    constructor (ttl: int, max: int)
      ensures Valid() && log == [] && seen == None && steady && this.ttl == ttl && this.max == max
    {
      this.ttl, this.max := ttl, max;
      items, log, seen, steady := [], [], None, true;
    }

    method EvictLocked(now: int)
      modifies this`items
      ensures items == Expire(old(items), Some(now - ttl))
    {
      var found, idx := false, 0;
      while idx < |items| && !found
        invariant 0 <= idx <= |items|
        invariant forall j | 0 <= j < idx :: items[j].at < now - ttl
        invariant found ==> idx < |items| && items[idx].at >= now - ttl
        decreases |items| - idx, !found
      {
        if items[idx].at >= now - ttl {
          found := true;
        } else {
          idx := idx + 1;
        }
      }
      FirstFreshIs(items, now - ttl, idx);
      if found {
        if idx > 0 {
          items := items[idx..];
        }
      } else if items != [] {
        items := [];
      }
    }

    /** With a negative bound the removal asks for more than there is, and the program stops. */
    method Add(item: T, ts: int, now: int) returns (ok: bool)
      requires Valid()
      modifies this
      ensures Valid() && log == old(log) + [Stamped(item, ts)] && (ok <==> max >= 0)
      ensures ok ==> items == Expire(Cap(old(items) + [Stamped(item, ts)], CapBy()), Some(now - ttl))
      ensures ok ==> seen == Some(now) && steady == old(Due(now))
      ensures !ok ==> items == old(items) + [Stamped(item, ts)] && seen == old(seen) && steady == old(steady)
    {
      hide Keeps, Expire, Sorted;
      items := items + [Stamped(item, ts)];
      log := log + [Stamped(item, ts)];
      if |items| > max {
        if |items| - max > |items| {
          return false;
        }
        items := items[|items| - max..];
      }
      ok := true;
      steady := Due(now);
      KeepsDue(old(items), old(log), ttl, CapBy(), seen, old(steady), steady);
      KeepsAdd(old(items), old(log), Stamped(item, ts), ttl, CapBy(), seen, steady, now);
      EvictLocked(now);
      seen := Some(now);
    }

    /** In order and by a steady clock: of all added since the last clear, the last `max` still fresh. */
    method Snapshot(now: int) returns (out: seq<T>)
      requires Valid()
      modifies this
      ensures Valid() && log == old(log) && seen == Some(now) && steady == old(Due(now))
      ensures items == Expire(old(items), Some(now - ttl)) && out == Values(items)
      ensures max >= 0 && steady && Sorted(log) ==> out == Values(Recent(log, Some(now - ttl), Some(max)))
    {
      hide Keeps, Expire, Recent, Sorted;
      steady := Due(now);
      if max >= 0 {
        KeepsDue(items, log, ttl, CapBy(), seen, old(steady), steady);
        KeepsLook(items, log, ttl, CapBy(), seen, steady, now);
      }
      EvictLocked(now);
      seen := Some(now);
      out := CopyOut(items);
    }

    method Clear()
      requires Valid()
      modifies this
      ensures Valid() && items == [] && log == [] && seen == old(seen) && steady == old(steady)
    {
      items, log := [], [];
      KeepsNothing<T>(ttl, CapBy(), seen, steady);
    }
  }
}
