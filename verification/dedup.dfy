/** The time-windowed dedup table: collecting old stamps never changes a decision. */
module Dedup {
  import opened Wire
  import opened MuxSpec

  datatype Op = Offer(ev: Event, now: int) | Sweep(now: int)

  /** The clock never runs backwards, starting from `from`. */
  ghost predicate Clocked(ops: seq<Op>, from: int) {
    && (forall i | 0 <= i < |ops| :: from <= ops[i].now)
    && (forall i, j | 0 <= i < j < |ops| :: ops[i].now <= ops[j].now)
  }

  function After(cfg: Config, recent: map<string, int>, op: Op, collects: bool): map<string, int> {
    match op
    case Offer(ev, now) => if Duplicate(cfg, recent, ev, now) then recent else Stamp(recent, ev, now)
    case Sweep(now) => if collects then Collect(cfg, recent, now) else recent
  }

  /** One answer per operation: true where an offered event was dropped. */
  function Drops(cfg: Config, recent: map<string, int>, ops: seq<Op>, collects: bool): (r: seq<bool>)
    ensures |r| == |ops|
    decreases |ops|
  {
    if ops == [] then []
    else
      [ops[0].Offer? && Duplicate(cfg, recent, ops[0].ev, ops[0].now)]
      + Drops(cfg, After(cfg, recent, ops[0], collects), ops[1..], collects)
  }

  /** `kept` is `all` less some stamps too old to matter at or after `clock`. */
  ghost predicate Refines(cfg: Config, kept: map<string, int>, all: map<string, int>, clock: int) {
    && (forall k | k in kept :: k in all && all[k] == kept[k])
    && (forall k | k in all :: all[k] <= clock)
    && (forall k | k in all && k !in kept :: clock - all[k] >= cfg.opt.dedupWindow)
  }

  lemma StepRefines(cfg: Config, kept: map<string, int>, all: map<string, int>, clock: int, op: Op)
    requires Refines(cfg, kept, all, clock) && clock <= op.now
    ensures Refines(cfg, After(cfg, kept, op, true), After(cfg, all, op, false), op.now)
    ensures op.Offer? ==> (Duplicate(cfg, kept, op.ev, op.now) <==> Duplicate(cfg, all, op.ev, op.now))
  {
    hide DedupKey;
  }

  lemma {:induction false} RunRefines(cfg: Config, kept: map<string, int>, all: map<string, int>, ops: seq<Op>,
      clock: int)
    requires Refines(cfg, kept, all, clock) && Clocked(ops, clock)
    ensures Drops(cfg, kept, ops, true) == Drops(cfg, all, ops, false)
    decreases |ops|
  {
    hide Refines, Duplicate, After;
    if ops != [] {
      StepRefines(cfg, kept, all, clock, ops[0]);
      RunRefines(cfg, After(cfg, kept, ops[0], true), After(cfg, all, ops[0], false), ops[1..], ops[0].now);
    }
  }

  /** Wherever collections fall, the table answers as one that is never collected. */
  lemma {:induction false} CollectionIsInvisible(cfg: Config, ops: seq<Op>, clock: int)
    requires Clocked(ops, clock)
    ensures Drops(cfg, map[], ops, true) == Drops(cfg, map[], ops, false)
  {
    hide Drops;
    RunRefines(cfg, map[], map[], ops, clock);
  }

  // ── spacing ───────────────────────────────────────────────────────────

  predicate Counts(op: Op, key: string) {
    op.Offer? && !Exempt(op.ev.typ) && DedupKey(op.ev.sid, op.ev.typ) == key
  }

  /** `recent` holds, for each key, an acceptance no later than `clock`. */
  lemma {:induction false} StampStays(cfg: Config, recent: map<string, int>, ops: seq<Op>, clock: int, key: string,
      j: nat)
    requires Clocked(ops, clock) && j < |ops| && key in recent && recent[key] <= clock && Counts(ops[j], key)
    ensures !Drops(cfg, recent, ops, false)[j] ==> ops[j].now - recent[key] >= cfg.opt.dedupWindow
    decreases |ops|
  {
    hide DedupKey;
    var next := After(cfg, recent, ops[0], false);
    if j > 0 {
      assert Clocked(ops[1..], ops[0].now);
      assert key in next && recent[key] <= next[key] <= ops[0].now;
      StampStays(cfg, next, ops[1..], ops[0].now, key, j - 1);
    }
  }

  /** Two accepted events of one key are at least the window apart. */
  lemma {:induction false} AcceptedApart(cfg: Config, recent: map<string, int>, ops: seq<Op>, clock: int, key: string,
      i: nat, j: nat)
    requires Clocked(ops, clock) && i < j < |ops| && Counts(ops[i], key) && Counts(ops[j], key)
    requires !Drops(cfg, recent, ops, false)[i] && !Drops(cfg, recent, ops, false)[j]
    ensures ops[j].now - ops[i].now >= cfg.opt.dedupWindow
    decreases |ops|
  {
    hide DedupKey;
    var next := After(cfg, recent, ops[0], false);
    assert Clocked(ops[1..], ops[0].now);
    if i > 0 {
      AcceptedApart(cfg, next, ops[1..], ops[0].now, key, i - 1, j - 1);
    } else {
      StampStays(cfg, next, ops[1..], ops[0].now, key, j - 1);
    }
  }

  /** Event i was accepted, is of the same key as event j, and came less than a window before it. */
  ghost predicate HadCompany(cfg: Config, ops: seq<Op>, drops: seq<bool>, i: nat, j: nat) {
    && i < j < |ops| && |drops| == |ops| && ops[j].Offer?
    && Counts(ops[i], DedupKey(ops[j].ev.sid, ops[j].ev.typ)) && !drops[i]
    && 0 <= ops[j].now - ops[i].now < cfg.opt.dedupWindow
  }

  /** A dropped event lies within the window of an accepted one of its key. */
  lemma {:induction false} DroppedNear(cfg: Config, recent: map<string, int>, ops: seq<Op>, clock: int, j: nat)
    returns (i: int)
    requires Clocked(ops, clock) && j < |ops| && Drops(cfg, recent, ops, false)[j]
    ensures ops[j].Offer? && !Exempt(ops[j].ev.typ)
    ensures i < j
    ensures i >= 0 ==> HadCompany(cfg, ops, Drops(cfg, recent, ops, false), i, j)
    ensures i < 0 ==>
      var key := DedupKey(ops[j].ev.sid, ops[j].ev.typ);
      key in recent && ops[j].now - recent[key] < cfg.opt.dedupWindow
    decreases |ops|
  {
    hide DedupKey;
    i := -1;
    if j > 0 {
      assert Clocked(ops[1..], ops[0].now);
      var next := After(cfg, recent, ops[0], false);
      var k := DroppedNear(cfg, next, ops[1..], ops[0].now, j - 1);
      var key := DedupKey(ops[j].ev.sid, ops[j].ev.typ);
      if k >= 0 {
        i := k + 1;
      } else if !(key in recent && recent[key] == next[key]) {
        assert Counts(ops[0], key) && !Drops(cfg, recent, ops, false)[0];
        i := 0;
      }
    }
  }

  /** Over a run from an empty table: what is accepted is spaced out, what is dropped had company. */
  lemma {:induction false} WindowHolds(cfg: Config, ops: seq<Op>, clock: int)
    requires Clocked(ops, clock)
    ensures var drops := Drops(cfg, map[], ops, true);
      && (forall key, i, j |
              0 <= i < j < |ops| && Counts(ops[i], key) && Counts(ops[j], key) && !drops[i] && !drops[j] ::
            ops[j].now - ops[i].now >= cfg.opt.dedupWindow)
      && (forall j | 0 <= j < |ops| && drops[j] ::
            exists i: nat :: i < j && HadCompany(cfg, ops, drops, i, j))
  {
    hide DedupKey, Counts;
    CollectionIsInvisible(cfg, ops, clock);
    hide Drops;
    var drops := Drops(cfg, map[], ops, true);
    forall key, i, j | 0 <= i < j < |ops| && Counts(ops[i], key) && Counts(ops[j], key) && !drops[i] && !drops[j]
      ensures ops[j].now - ops[i].now >= cfg.opt.dedupWindow
    {
      AcceptedApart(cfg, map[], ops, clock, key, i, j);
    }
    forall j | 0 <= j < |ops| && drops[j]
      ensures exists i: nat :: i < j && HadCompany(cfg, ops, drops, i, j)
    {
      var i := DroppedNear(cfg, map[], ops, clock, j);
    }
  }

  // ── keys ──────────────────────────────────────────────────────────────

  lemma NamesHaveNoBar(t: EventType, i: nat)
    requires !t.Unrecognized? && i < |EventName(t)|
    ensures EventName(t)[i] != '|'
  {
  }

  lemma NamesDiffer(t: EventType, u: EventType)
    requires !t.Unrecognized? && !u.Unrecognized? && EventName(t) == EventName(u)
    ensures t == u
  {
    assert EventName(t)[0] == EventName(u)[0] && EventName(t)[3] == EventName(u)[3];
  }

  /** Whatever bars session ids contain, one key never serves two (session, type) pairs. */
  lemma KeysAreInjective(s1: string, t1: EventType, s2: string, t2: EventType)
    requires !t1.Unrecognized? && !t2.Unrecognized?
    requires DedupKey(s1, t1) == DedupKey(s2, t2)
    ensures s1 == s2 && t1 == t2
  {
    var n1, n2 := EventName(t1), EventName(t2);
    var k1, k2 := DedupKey(s1, t1), DedupKey(s2, t2);
    hide EventName, DedupKey;
    assert k1 == s1 + "|" + n1 && k2 == s2 + "|" + n2 by { KeyIs(s1, t1); KeyIs(s2, t2); }
    assert k1[|s1|] == '|' && k2[|s2|] == '|';
    if |s1| < |s2| {
      NamesHaveNoBar(t1, |s2| - |s1| - 1);
    } else if |s2| < |s1| {
      NamesHaveNoBar(t2, |s1| - |s2| - 1);
    }
    assert s1 == k1[..|s1|] && s2 == k2[..|s2|];
    assert n1 == k1[|s1| + 1..] && n2 == k2[|s2| + 1..];
    NamesDiffer(t1, t2);
  }

  lemma KeyIs(s: string, t: EventType)
    ensures DedupKey(s, t) == s + "|" + EventName(t)
  {
  }
}
