/** Exactly when what a client last heard of a session is the newest row of it. */
module JournalOrder {
  import opened Wire
  import opened Journal

  // ── what a client last heard of a session ─────────────────────────────

  predicate TellsOf(item: Item, id: string) {
    item.Row? && Decode(item.b).Some? && item.b.sid == id
  }

  function HandedTo(h: Hub, c: nat): seq<Item> {
    if c in h.clients then h.clients[c].handed else []
  }

  /** The last row handed over that tells a state of `id`. */
  function LastHeard(handed: seq<Item>, id: string): (r: Option<Item>)
    ensures r.Some? ==> r.value in handed && TellsOf(r.value, id)
  {
    if handed == [] then None
    else if TellsOf(handed[|handed| - 1], id) then Some(handed[|handed| - 1])
    else LastHeard(handed[..|handed| - 1], id)
  }

  /** No row telling a state of `id` was handed over after a newer one. */
  ghost predicate Newest(handed: seq<Item>, id: string) {
    forall item | item in handed && TellsOf(item, id) ::
      LastHeard(handed, id).Some? && item.num <= LastHeard(handed, id).value.num
  }

  /** What the step puts on the queue of `c`. */
  function Puts(h: Hub, op: Op, c: nat): Option<Item> {
    if c !in h.clients || h.clients[c].pending >= SEND_QUEUE_DEPTH then None
    else match op
      case Push(g, d) => if d == c && g in h.tasks && h.tasks[g].Pushing? then Some(h.tasks[g].item) else None
      case PushRow(g) =>
        if g in h.tasks && h.tasks[g].Replaying? && h.tasks[g].client == c && h.tasks[g].rows != []
           && !Held(h.tasks[g].rows[0], h.debug) then Some(h.tasks[g].rows[0]) else None
      case Say(d) => if d == c then Some(Other) else None
      case _ => None
  }

  lemma PutsAre(h: Hub, op: Op, c: nat)
    requires Legal(h, op)
    ensures HandedTo(Step(h, op), c) == HandedTo(h, c) + (if Puts(h, op, c).Some? then [Puts(h, op, c).value] else [])
  {
  }

  /** The step hands `c` a row telling a state of `id` after it was handed a newer one. */
  ghost predicate Late(h: Hub, op: Op, c: nat, id: string) {
    && Puts(h, op, c).Some? && TellsOf(Puts(h, op, c).value, id)
    && exists item | item in HandedTo(h, c) :: TellsOf(item, id) && item.num > Puts(h, op, c).value.num
  }

  lemma LastHeardSnoc(handed: seq<Item>, item: Item, id: string)
    ensures LastHeard(handed + [item], id) == if TellsOf(item, id) then Some(item) else LastHeard(handed, id)
  {
    assert (handed + [item])[..|handed|] == handed;
  }

  lemma StepNewestIff(h: Hub, op: Op, c: nat, id: string)
    requires Legal(h, op) && Newest(HandedTo(h, c), id)
    ensures Newest(HandedTo(Step(h, op), c), id) <==> !Late(h, op, c, id)
  {
    PutsAre(h, op, c);
    hide Step, Legal, Puts, HandedTo, LastHeard, TellsOf;
    var handed := HandedTo(h, c);
    if Puts(h, op, c).Some? {
      var item := Puts(h, op, c).value;
      LastHeardSnoc(handed, item, id);
      assert forall i :: i in handed + [item] <==> i in handed || i == item;
    } else {
      assert handed + [] == handed;
    }
  }

  ghost predicate AlwaysNewest(h: Hub, ops: seq<Op>, c: nat, id: string)
    requires LegalRun(h, ops)
    decreases |ops|
  {
    Newest(HandedTo(h, c), id) && (ops != [] ==> AlwaysNewest(Step(h, ops[0]), ops[1..], c, id))
  }

  ghost predicate NeverLate(h: Hub, ops: seq<Op>, c: nat, id: string)
    requires LegalRun(h, ops)
    decreases |ops|
  {
    ops != [] ==> !Late(h, ops[0], c, id) && NeverLate(Step(h, ops[0]), ops[1..], c, id)
  }

  lemma {:induction false} RunNewestIff(h: Hub, ops: seq<Op>, c: nat, id: string)
    requires LegalRun(h, ops) && Newest(HandedTo(h, c), id)
    ensures AlwaysNewest(h, ops, c, id) <==> NeverLate(h, ops, c, id)
    decreases |ops|
  {
    hide Newest, Late, Step, Legal;
    if ops != [] {
      StepNewestIff(h, ops[0], c, id);
      if Newest(HandedTo(Step(h, ops[0]), c), id) {
        RunNewestIff(Step(h, ops[0]), ops[1..], c, id);
      }
    }
  }

  /** Over every run: what a client last heard of a session is at every moment the newest row it was handed of
      it, exactly if no fan-out or replay ever hands it an older row after a newer one. */
  lemma {:induction false} NewestIff(debug: bool, ops: seq<Op>, c: nat, id: string)
    requires LegalRun(Opened(debug), ops)
    ensures AlwaysNewest(Opened(debug), ops, c, id) <==> NeverLate(Opened(debug), ops, c, id)
  {
    RunNewestIff(Opened(debug), ops, c, id);
  }

  /** `num` is the journal's latest row that tells a state of `id`. */
  ghost predicate IsLatest(log: seq<Broadcast>, num: nat, id: string) {
    && 1 <= num <= |log| && TellsOf(RowAt(log, num), id)
    && forall k | num < k <= |log| :: !TellsOf(RowAt(log, k), id)
  }

  /** A client that missed nothing has last heard of a session what the journal last says of it, exactly if no
      older row came after a newer one. */
  lemma {:induction false} LastHeardIsLatestIff(debug: bool, ops: seq<Op>, c: nat, n: int, num: nat, id: string)
    requires LegalRun(Opened(debug), ops)
    requires var h := Exec(Opened(debug), ops);
      && c in h.clients && h.clients[c].registered && h.clients[c].open && n in h.clients[c].replayed
      && IsLatest(h.log, num, id) && num > n && !Carried(h, num, c) && !Held(RowAt(h.log, num), h.debug)
    ensures var h := Exec(Opened(debug), ops);
      LastHeard(h.clients[c].handed, id) == Some(RowAt(h.log, num)) <==> Newest(h.clients[c].handed, id)
  {
    hide Exec, LegalRun, LastHeard, Carried, Held;
    NoGap(debug, ops, c, n, num);
    var h := Exec(Opened(debug), ops);
    var handed := h.clients[c].handed;
    assert RowAt(h.log, num) in handed;
    forall item | item in handed && TellsOf(item, id) ensures 1 <= item.num <= num && item == RowAt(h.log, item.num) {
      NoForgery(debug, ops, c, item);
      if item.num > num {
        assert false;
      }
    }
  }

  // ── a fan-out inside a replay ─────────────────────────────────────────

  ghost predicate Leads(h: Hub, ops: seq<Op>, end: Hub) {
    LegalRun(h, ops) && Exec(h, ops) == end
  }

  lemma LeadsOn(h: Hub, op: Op, h1: Hub, rest: seq<Op>, end: Hub)
    requires Legal(h, op) && Step(h, op) == h1 && Leads(h1, rest, end)
    ensures Leads(h, [op] + rest, end)
  {
    hide Step, Legal;
    assert ([op] + rest)[1..] == rest;
  }

  /** One row journaled; a client subscribes, and while its replay is on its way the next row goes out. */
  function Overtaking(b1: Broadcast, b2: Broadcast): seq<Op> {
    [Append(1, b1, true)] + ([Target(1)] + ([Finish(1)] + ([Join(1)] + ([Subscribe(2, 1, 0)] + Meanwhile(b2)))))
  }

  function Meanwhile(b2: Broadcast): seq<Op> {
    [Append(3, b2, true)] + ([Target(3)] + ([Push(3, 1)] + ([PushRow(2)] + ([Finish(2)] + ([Finish(3)] + [])))))
  }

  function Caught(b1: Broadcast, b2: Broadcast): Hub {
    Hub([b1, b2], map[1 := Client(true, true, 2, [Row(2, b2), Row(1, b1)], 1, map[0 := 1])], map[], false)
  }

  /** The hub once the newer row has reached the client and the older one has not. */
  function Overtaken(b1: Broadcast, b2: Broadcast): Hub {
    Hub([b1, b2], map[1 := Client(true, true, 1, [Row(2, b2)], 1, map[])],
        map[2 := Replaying(1, 0, 1, [Row(1, b1)]), 3 := Pushing(Row(2, b2), {})], false)
  }

  lemma ReplayEnds(b1: Broadcast, b2: Broadcast)
    ensures Leads(Overtaken(b1, b2), [PushRow(2)] + ([Finish(2)] + ([Finish(3)] + [])), Caught(b1, b2))
  {
    var r1, r2 := Row(1, b1), Row(2, b2);
    var c1 := Client(true, true, 1, [r2], 1, map[]);
    var c2 := c1.(pending := 2, handed := [r2, r1]);
    var h3, end := Overtaken(b1, b2), Caught(b1, b2);
    var h4 := Hub([b1, b2], map[1 := c2], map[2 := Replaying(1, 0, 1, []), 3 := Pushing(r2, {})], false);
    var h5 := Hub([b1, b2], map[1 := c2.(replayed := map[0 := 1])], map[3 := Pushing(r2, {})], false);
    assert Leads(end, [], end);
    hide Leads;
    assert [r1][1..] == [] && [r2] + [r1] == [r2, r1] && Enqueue(c1, r1) == c2;
    hide Enqueue;
    assert Step(h5, Finish(3)) == end;
    LeadsOn(h5, Finish(3), end, [], end);
    LeadsOn(h4, Finish(2), h5, [Finish(3)] + [], end);
    LeadsOn(h3, PushRow(2), h4, [Finish(2)] + ([Finish(3)] + []), end);
  }

  lemma ReplayMeanwhile(b1: Broadcast, b2: Broadcast)
    ensures Leads(Hub([b1], map[1 := Client(true, true, 0, [], 1, map[])],
                      map[2 := Replaying(1, 0, 1, [Row(1, b1)])], false),
                  Meanwhile(b2), Caught(b1, b2))
  {
    ReplayEnds(b1, b2);
    var r2, t2 := Row(2, b2), Replaying(1, 0, 1, [Row(1, b1)]);
    var c0 := Client(true, true, 0, [], 1, map[]);
    var h0 := Hub([b1], map[1 := c0], map[2 := t2], false);
    var h1 := Hub([b1, b2], map[1 := c0], map[2 := t2, 3 := Appended(r2)], false);
    var h2 := Hub([b1, b2], map[1 := c0], map[2 := t2, 3 := Pushing(r2, {1})], false);
    var h3, end := Overtaken(b1, b2), Caught(b1, b2);
    hide Leads, Caught;
    assert [b1] + [b2] == [b1, b2] && Joined(h1) == {1} && {1} - {1} == {};
    assert [] + [r2] == [r2] && Enqueue(c0, r2) == c0.(pending := 1, handed := [r2]);
    var rest := [PushRow(2)] + ([Finish(2)] + ([Finish(3)] + []));
    LeadsOn(h2, Push(3, 1), h3, rest, end);
    LeadsOn(h1, Target(3), h2, [Push(3, 1)] + rest, end);
    LeadsOn(h0, Append(3, b2, true), h1, [Target(3)] + ([Push(3, 1)] + rest), end);
  }

  lemma ReplayOvertaken(b1: Broadcast, b2: Broadcast)
    ensures Leads(Opened(false), Overtaking(b1, b2), Caught(b1, b2))
  {
    var c0 := Client(true, true, 0, [], 1, map[]);
    var h0 := Opened(false);
    var h1 := Hub([b1], map[], map[1 := Appended(Row(1, b1))], false);
    var h2 := Hub([b1], map[], map[1 := Pushing(Row(1, b1), {})], false);
    var h3 := Hub([b1], map[], map[], false);
    var h4 := Hub([b1], map[1 := c0], map[], false);
    var h5 := Hub([b1], map[1 := c0], map[2 := Replaying(1, 0, 1, [Row(1, b1)])], false);
    var end, rest := Caught(b1, b2), Meanwhile(b2);
    ReplayMeanwhile(b1, b2);
    hide Leads, Meanwhile, Caught;
    assert [] + [b1] == [b1] && Joined(h1) == {};
    assert ReplayAfter([b1], 0) == [Row(1, b1)];
    LeadsOn(h4, Subscribe(2, 1, 0), h5, rest, end);
    LeadsOn(h3, Join(1), h4, [Subscribe(2, 1, 0)] + rest, end);
    LeadsOn(h2, Finish(1), h3, [Join(1)] + ([Subscribe(2, 1, 0)] + rest), end);
    LeadsOn(h1, Target(1), h2, [Finish(1)] + ([Join(1)] + ([Subscribe(2, 1, 0)] + rest)), end);
    LeadsOn(h0, Append(1, b1, true), h1,
            [Target(1)] + ([Finish(1)] + ([Join(1)] + ([Subscribe(2, 1, 0)] + rest))), end);
  }

  /** A broadcast made while a client is being replayed can reach it before the row it follows: all done, the
      client is open and has every row, and has last heard what the journal no longer says. */
  lemma OlderComesLast(b1: Broadcast, b2: Broadcast, id: string)
    requires TellsOf(Row(1, b1), id) && TellsOf(Row(2, b2), id)
    ensures LegalRun(Opened(false), Overtaking(b1, b2))
    ensures var h := Exec(Opened(false), Overtaking(b1, b2));
      && h.tasks == map[] && h.clients.Keys == {1} && h.clients[1].open && h.clients[1].registered
      && (forall num | 1 <= num <= |h.log| :: RowAt(h.log, num) in h.clients[1].handed)
      && IsLatest(h.log, 2, id) && LastHeard(h.clients[1].handed, id) == Some(Row(1, b1))
  {
    ReplayOvertaken(b1, b2);
    hide Overtaking, LegalRun, Exec, LastHeard;
    var end := Caught(b1, b2);
    assert end.clients[1].handed == [Row(2, b2)] + [Row(1, b1)];
    LastHeardSnoc([Row(2, b2)], Row(1, b1), id);
    forall num | 1 <= num <= |end.log| ensures RowAt(end.log, num) in end.clients[1].handed {
      assert RowAt(end.log, num) == end.clients[1].handed[2 - num];
    }
  }
}
