/** Append-then-fan-out against register-then-replay: the hub, its journal and its clients, every
    broadcast, subscription and client step interleaving with every other. */
module Journal {
  import opened Wire

  /** Depth of a client's send queue. */
  const SEND_QUEUE_DEPTH := 64

  /** A frame on its way to clients: a journaled row with its sequence number, or anything else. */
  datatype Item = Row(num: nat, b: Broadcast) | Other

  /** `handed` is everything ever put on the client's send queue; `pending` of it is unsent.
      `born` is the journal's length when the client registered, and `replayed` maps each finished
      subscription's cursor to the journal's length when its rows were read. */
  datatype Client = Client(
    registered: bool,
    open: bool,
    pending: nat,
    handed: seq<Item>,
    born: nat,
    replayed: map<int, nat>)

  datatype Task =
    | Appended(item: Item)
    | Pushing(item: Item, targets: set<nat>)
    | Replaying(client: nat, after: int, upTo: nat, rows: seq<Item>)

  /** Under relay debug, `debug`, what the mux announces by itself is journaled but never pushed. */
  datatype Hub = Hub(log: seq<Broadcast>, clients: map<nat, Client>, tasks: map<nat, Task>, debug: bool)

  function Opened(debug: bool): Hub {
    Hub([], map[], map[], debug)
  }

  datatype Op =
    | Append(g: nat, b: Broadcast, stored: bool)
    | Target(g: nat)
    | Push(g: nat, c: nat)
    | Finish(g: nat)
    | Join(c: nat)
    | Say(c: nat)
    | Subscribe(g: nat, c: nat, after: int)
    | PushRow(g: nat)
    | Write(c: nat)
    | Close(c: nat)
    | Leave(c: nat)

  // ── the journal ───────────────────────────────────────────────────────

  function Head(log: seq<Broadcast>): nat {
    |log|
  }

  /** The rows numbered above `after`, in order; numbers start at 1. */
  function ReplayAfter(log: seq<Broadcast>, after: int): seq<Item> {
    var first := if after < 0 then 0 else if after > |log| then |log| else after;
    seq(|log| - first, i requires 0 <= i < |log| - first => Row(first + i + 1, log[first + i]))
  }

  /** Broadcasts a debugging relay journals but does not push. */
  predicate AutoRelayed(t: BroadcastType) {
    t.ThreadIdle? || t.ThreadBusy? || t.ThreadStarted? || t.ThreadEnded?
  }

  predicate Held(item: Item, relayDebug: bool) {
    relayDebug && item.Row? && AutoRelayed(item.b.typ)
  }

  // ── clients ───────────────────────────────────────────────────────────

  /** Non-blocking send: a full queue closes the client instead of skipping the frame. */
  function Enqueue(c: Client, item: Item): Client {
    if c.pending < SEND_QUEUE_DEPTH then c.(pending := c.pending + 1, handed := c.handed + [item])
    else c.(open := false)
  }

  function Joined(h: Hub): set<nat> {
    set c | c in h.clients && h.clients[c].registered
  }

  // ── steps ─────────────────────────────────────────────────────────────

  ghost predicate Legal(h: Hub, op: Op) {
    match op
    case Append(g, _, _) => g !in h.tasks
    case Target(g) => g in h.tasks && h.tasks[g].Appended?
    case Push(g, c) => g in h.tasks && h.tasks[g].Pushing? && c in h.tasks[g].targets && c in h.clients
    case Finish(g) =>
      g in h.tasks && ((h.tasks[g].Pushing? && h.tasks[g].targets == {})
                       || (h.tasks[g].Replaying? && h.tasks[g].rows == [] && h.tasks[g].client in h.clients))
    case Join(c) => c !in h.clients
    case Say(c) => c in h.clients
    case Subscribe(g, c, _) => g !in h.tasks && c in h.clients
    case PushRow(g) => g in h.tasks && h.tasks[g].Replaying? && h.tasks[g].rows != [] && h.tasks[g].client in h.clients
    case Write(c) => c in h.clients && h.clients[c].pending > 0
    case Close(c) => c in h.clients
    case Leave(c) => c in h.clients
  }

  ghost function Step(h: Hub, op: Op): Hub
    requires Legal(h, op)
  {
    match op
    case Append(g, b, stored) =>
      var h1 := if stored then h.(log := h.log + [b]) else h;
      if h.debug && AutoRelayed(b.typ) then h1
      else h1.(tasks := h.tasks[g := Appended(if stored then Row(|h1.log|, b) else Other)])
    case Target(g) => h.(tasks := h.tasks[g := Pushing(h.tasks[g].item, Joined(h))])
    case Push(g, c) =>
      h.(clients := h.clients[c := Enqueue(h.clients[c], h.tasks[g].item)],
         tasks := h.tasks[g := Pushing(h.tasks[g].item, h.tasks[g].targets - {c})])
    case Finish(g) =>
      var t := h.tasks[g];
      if t.Pushing? then h.(tasks := h.tasks - {g})
      else
        h.(tasks := h.tasks - {g},
           clients := h.clients[t.client :=
             h.clients[t.client].(replayed := h.clients[t.client].replayed[t.after := t.upTo])])
    case Join(c) => h.(clients := h.clients[c := Client(true, true, 0, [], |h.log|, map[])])
    case Say(c) => h.(clients := h.clients[c := Enqueue(h.clients[c], Other)])
    case Subscribe(g, c, after) => h.(tasks := h.tasks[g := Replaying(c, after, |h.log|, ReplayAfter(h.log, after))])
    case PushRow(g) =>
      var t := h.tasks[g];
      var cl := if Held(t.rows[0], h.debug) then h.clients[t.client] else Enqueue(h.clients[t.client], t.rows[0]);
      h.(clients := h.clients[t.client := cl], tasks := h.tasks[g := t.(rows := t.rows[1..])])
    case Write(c) => h.(clients := h.clients[c := h.clients[c].(pending := h.clients[c].pending - 1)])
    case Close(c) => h.(clients := h.clients[c := h.clients[c].(open := false)])
    case Leave(c) => h.(clients := h.clients[c := h.clients[c].(registered := false, open := false)])
  }

  ghost predicate LegalRun(h: Hub, ops: seq<Op>)
    decreases |ops|
  {
    ops != [] ==> Legal(h, ops[0]) && LegalRun(Step(h, ops[0]), ops[1..])
  }

  ghost function Exec(h: Hub, ops: seq<Op>): Hub
    requires LegalRun(h, ops)
    decreases |ops|
  {
    if ops == [] then h else Exec(Step(h, ops[0]), ops[1..])
  }

  // ── the invariant ─────────────────────────────────────────────────────

  function RowAt(log: seq<Broadcast>, num: nat): Item
    requires 1 <= num <= |log|
  {
    Row(num, log[num - 1])
  }

  /** Task `t` will still put row `num` on the queue of client `c`. */
  ghost predicate Carries(t: Task, num: nat, c: nat) {
    match t
    case Appended(item) => item.Row? && item.num == num
    case Pushing(item, targets) => item.Row? && item.num == num && c in targets
    case Replaying(_, _, _, _) => false
  }

  ghost predicate Carried(h: Hub, num: nat, c: nat) {
    exists g :: g in h.tasks && Carries(h.tasks[g], num, c)
  }

  /** Every row appended since `c` registered has been handed to it or is being fanned out to it. */
  ghost predicate LiveCovered(h: Hub, c: nat)
    requires c in h.clients
  {
    forall num | h.clients[c].born < num <= |h.log| && !Held(RowAt(h.log, num), h.debug) ::
      RowAt(h.log, num) in h.clients[c].handed || Carried(h, num, c)
  }

  ghost predicate ReplayCovers(h: Hub, cl: Client, after: int, upTo: nat, rows: seq<Item>) {
    && cl.born <= upTo <= |h.log|
    && forall num | 1 <= num <= upTo && num > after && !Held(RowAt(h.log, num), h.debug) ::
         RowAt(h.log, num) in cl.handed || RowAt(h.log, num) in rows
  }

  ghost predicate ClientCovered(h: Hub, c: nat)
    requires c in h.clients
  {
    var cl := h.clients[c];
    && LiveCovered(h, c)
    && (forall n | n in cl.replayed :: ReplayCovers(h, cl, n, cl.replayed[n], []))
    && (forall g | g in h.tasks && h.tasks[g].Replaying? && h.tasks[g].client == c ::
          ReplayCovers(h, cl, h.tasks[g].after, h.tasks[g].upTo, h.tasks[g].rows))
  }

  ghost predicate Genuine(log: seq<Broadcast>, item: Item) {
    item.Row? ==> 1 <= item.num <= |log| && item.b == log[item.num - 1]
  }

  ghost predicate TaskGenuine(h: Hub, t: Task) {
    match t
    case Appended(item) => Genuine(h.log, item)
    case Pushing(item, _) => Genuine(h.log, item)
    case Replaying(c, _, _, rows) => c in h.clients && forall item | item in rows :: Genuine(h.log, item)
  }

  ghost predicate Inv(h: Hub) {
    && (forall c | c in h.clients :: h.clients[c].born <= |h.log|)
    && (forall c | c in h.clients && h.clients[c].registered && h.clients[c].open :: ClientCovered(h, c))
    && (forall g | g in h.tasks :: TaskGenuine(h, h.tasks[g]))
    && (forall c, item | c in h.clients && item in h.clients[c].handed :: Genuine(h.log, item))
  }

  // ── steps keep it ─────────────────────────────────────────────────────

  lemma ReplayIsWhole(log: seq<Broadcast>, after: int)
    ensures forall num | 1 <= num <= |log| && num > after :: RowAt(log, num) in ReplayAfter(log, after)
    ensures forall item | item in ReplayAfter(log, after) :: item.Row? && item.num > after && Genuine(log, item)
  {
    var rows := ReplayAfter(log, after);
    forall num | 1 <= num <= |log| && num > after ensures RowAt(log, num) in rows {
      var first := if after < 0 then 0 else if after > |log| then |log| else after;
      assert rows[num - 1 - first] == RowAt(log, num);
    }
  }

  /** `c` in `h'` has all the rows it had in `h`, and whatever was being fanned out to it still is. */
  ghost predicate NothingLost(h: Hub, h': Hub, c: nat) {
    && h'.log == h.log && h'.debug == h.debug && c in h.clients && c in h'.clients
    && h'.clients[c].born == h.clients[c].born
    && (forall item | item in h.clients[c].handed :: item in h'.clients[c].handed)
    && (forall num | 1 <= num <= |h.log| && Carried(h, num, c) ::
          Carried(h', num, c) || RowAt(h.log, num) in h'.clients[c].handed)
  }

  lemma LiveStays(h: Hub, h': Hub, c: nat)
    requires NothingLost(h, h', c) && LiveCovered(h, c)
    ensures LiveCovered(h', c)
  {
    forall num | h'.clients[c].born < num <= |h'.log| && !Held(RowAt(h'.log, num), h'.debug)
      ensures RowAt(h'.log, num) in h'.clients[c].handed || Carried(h', num, c)
    {
      assert RowAt(h.log, num) in h.clients[c].handed || Carried(h, num, c);
    }
  }

  lemma ReplayStays(h: Hub, h': Hub, cl: Client, after: int, upTo: nat, rows: seq<Item>)
    requires ReplayCovers(h, cl, after, upTo, rows) && |h.log| <= |h'.log| && h'.log[..|h.log|] == h.log
    requires h'.debug == h.debug
    ensures ReplayCovers(h', cl, after, upTo, rows)
  {
    forall num | 1 <= num <= upTo && num > after && !Held(RowAt(h'.log, num), h'.debug)
      ensures RowAt(h'.log, num) in cl.handed || RowAt(h'.log, num) in rows
    {
      assert RowAt(h'.log, num) == RowAt(h.log, num);
    }
  }

  lemma GenuineStays(log: seq<Broadcast>, log': seq<Broadcast>, item: Item)
    requires Genuine(log, item) && |log| <= |log'| && log'[..|log|] == log
    ensures Genuine(log', item)
  {
  }

  lemma AppendKeeps(h: Hub, op: Op)
    requires Inv(h) && op.Append? && Legal(h, op)
    ensures Inv(Step(h, op))
  {
    var h' := Step(h, op);
    forall c | c in h'.clients && h'.clients[c].registered && h'.clients[c].open ensures ClientCovered(h', c) {
      assert ClientCovered(h, c);
      forall num | h'.clients[c].born < num <= |h'.log| && !Held(RowAt(h'.log, num), h'.debug)
        ensures RowAt(h'.log, num) in h'.clients[c].handed || Carried(h', num, c)
      {
        if num <= |h.log| {
          assert RowAt(h'.log, num) == RowAt(h.log, num);
          if Carried(h, num, c) {
            var x :| x in h.tasks && Carries(h.tasks[x], num, c);
            assert Carries(h'.tasks[x], num, c);
          }
        } else {
          assert Carries(h'.tasks[op.g], num, c);
        }
      }
      var cl := h.clients[c];
      forall n | n in cl.replayed ensures ReplayCovers(h', cl, n, cl.replayed[n], []) {
        ReplayStays(h, h', cl, n, cl.replayed[n], []);
      }
      forall g | g in h'.tasks && h'.tasks[g].Replaying? && h'.tasks[g].client == c
        ensures ReplayCovers(h', cl, h'.tasks[g].after, h'.tasks[g].upTo, h'.tasks[g].rows)
      {
        ReplayStays(h, h', cl, h.tasks[g].after, h.tasks[g].upTo, h.tasks[g].rows);
      }
    }
    forall item | Genuine(h.log, item) ensures Genuine(h'.log, item) {
      GenuineStays(h.log, h'.log, item);
    }
    forall g | g in h'.tasks ensures TaskGenuine(h', h'.tasks[g]) {
      assert g != op.g ==> TaskGenuine(h, h.tasks[g]);
    }
  }

  lemma TargetKeeps(h: Hub, op: Op)
    requires Inv(h) && op.Target? && Legal(h, op)
    ensures Inv(Step(h, op))
  {
    var h' := Step(h, op);
    forall c | c in h'.clients && h'.clients[c].registered && h'.clients[c].open ensures ClientCovered(h', c) {
      assert ClientCovered(h, c);
      forall num | 1 <= num <= |h.log| && Carried(h, num, c) ensures Carried(h', num, c) {
        var x :| x in h.tasks && Carries(h.tasks[x], num, c);
        assert Carries(h'.tasks[x], num, c);
      }
      LiveStays(h, h', c);
    }
  }

  lemma PushKeeps(h: Hub, op: Op)
    requires Inv(h) && op.Push? && Legal(h, op)
    ensures Inv(Step(h, op))
  {
    var h' := Step(h, op);
    assert TaskGenuine(h, h.tasks[op.g]);
    forall c | c in h'.clients && h'.clients[c].registered && h'.clients[c].open ensures ClientCovered(h', c) {
      assert ClientCovered(h, c);
      forall num | 1 <= num <= |h.log| && Carried(h, num, c)
        ensures Carried(h', num, c) || RowAt(h.log, num) in h'.clients[c].handed
      {
        var x :| x in h.tasks && Carries(h.tasks[x], num, c);
        if x == op.g && c == op.c {
          assert h.tasks[x].item == RowAt(h.log, num);
        } else {
          assert Carries(h'.tasks[x], num, c);
        }
      }
      LiveStays(h, h', c);
    }
  }

  lemma FinishKeeps(h: Hub, op: Op)
    requires Inv(h) && op.Finish? && Legal(h, op)
    ensures Inv(Step(h, op))
  {
    var h' := Step(h, op);
    forall c | c in h'.clients && h'.clients[c].registered && h'.clients[c].open ensures ClientCovered(h', c) {
      assert ClientCovered(h, c);
      forall num | 1 <= num <= |h.log| && Carried(h, num, c) ensures Carried(h', num, c) {
        var x :| x in h.tasks && Carries(h.tasks[x], num, c);
        assert x != op.g && Carries(h'.tasks[x], num, c);
      }
      LiveStays(h, h', c);
    }
  }

  lemma SubscribeKeeps(h: Hub, op: Op)
    requires Inv(h) && op.Subscribe? && Legal(h, op)
    ensures Inv(Step(h, op))
  {
    var h' := Step(h, op);
    ReplayIsWhole(h.log, op.after);
    hide ReplayAfter;
    forall c | c in h'.clients && h'.clients[c].registered && h'.clients[c].open ensures ClientCovered(h', c) {
      assert ClientCovered(h, c);
      forall num | 1 <= num <= |h.log| && Carried(h, num, c) ensures Carried(h', num, c) {
        var x :| x in h.tasks && Carries(h.tasks[x], num, c);
        assert Carries(h'.tasks[x], num, c);
      }
      LiveStays(h, h', c);
    }
  }

  lemma PushRowCovers(h: Hub, op: Op, c: nat)
    requires Inv(h) && op.PushRow? && Legal(h, op) && c in h.clients
    requires ClientCovered(h, c) && Step(h, op).clients[c].registered && Step(h, op).clients[c].open
    ensures ClientCovered(Step(h, op), c)
  {
    var h', t := Step(h, op), h.tasks[op.g];
    assert TaskGenuine(h, t);
    forall num | 1 <= num <= |h.log| && Carried(h, num, c) ensures Carried(h', num, c) {
      var x :| x in h.tasks && Carries(h.tasks[x], num, c);
      assert x != op.g && Carries(h'.tasks[x], num, c);
    }
    hide Carried;
    LiveStays(h, h', c);
    if c == t.client {
      assert t.rows == [t.rows[0]] + t.rows[1..];
      assert ReplayCovers(h', h'.clients[c], t.after, t.upTo, t.rows[1..]);
    }
  }

  lemma PushRowKeeps(h: Hub, op: Op)
    requires Inv(h) && op.PushRow? && Legal(h, op)
    ensures Inv(Step(h, op))
  {
    var h', t := Step(h, op), h.tasks[op.g];
    hide ClientCovered, Held;
    assert TaskGenuine(h, t);
    forall c | c in h'.clients && h'.clients[c].registered && h'.clients[c].open ensures ClientCovered(h', c) {
      PushRowCovers(h, op, c);
    }
  }

  lemma CoveredStill(h: Hub, h': Hub, c: nat)
    requires c in h.clients && c in h'.clients && ClientCovered(h, c) && h' == h.(clients := h'.clients)
    requires h'.clients[c].born == h.clients[c].born && h'.clients[c].replayed == h.clients[c].replayed
    requires forall item | item in h.clients[c].handed :: item in h'.clients[c].handed
    ensures ClientCovered(h', c)
  {
    assert forall num | Carried(h, num, c) :: Carried(h', num, c);
  }

  /** Only client `c` may have changed, and it keeps what it was handed. */
  lemma OneClientKeeps(h: Hub, h': Hub, c: nat)
    requires Inv(h) && c in h.clients && c in h'.clients && h' == h.(clients := h.clients[c := h'.clients[c]])
    requires h'.clients[c].born == h.clients[c].born && h'.clients[c].replayed == h.clients[c].replayed
    requires h'.clients[c].registered && h'.clients[c].open ==> h.clients[c].registered && h.clients[c].open
    requires forall item | item in h.clients[c].handed :: item in h'.clients[c].handed
    requires forall item | item in h'.clients[c].handed :: item in h.clients[c].handed || Genuine(h.log, item)
    ensures Inv(h')
  {
    hide Carried, Genuine;
    forall x | x in h'.clients && h'.clients[x].registered && h'.clients[x].open ensures ClientCovered(h', x) {
      CoveredStill(h, h', x);
    }
  }

  lemma JoinKeeps(h: Hub, op: Op)
    requires Inv(h) && op.Join? && Legal(h, op)
    ensures Inv(Step(h, op))
  {
    hide Carried, Genuine;
    var h' := Step(h, op);
    assert forall g | g in h.tasks :: TaskGenuine(h, h.tasks[g]);
    forall x | x in h'.clients && h'.clients[x].registered && h'.clients[x].open ensures ClientCovered(h', x) {
      if x != op.c { CoveredStill(h, h', x); }
    }
  }

  lemma ClientStepKeeps(h: Hub, op: Op)
    requires Inv(h) && (op.Join? || op.Say? || op.Write? || op.Close? || op.Leave?) && Legal(h, op)
    ensures Inv(Step(h, op))
  {
    hide Inv, Carried;
    if op.Join? {
      JoinKeeps(h, op);
    } else {
      OneClientKeeps(h, Step(h, op), op.c);
    }
  }

  lemma StepKeeps(h: Hub, op: Op)
    requires Inv(h) && Legal(h, op)
    ensures Inv(Step(h, op))
  {
    hide *;
    match op
    case Append(_, _, _) => AppendKeeps(h, op);
    case Target(_) => TargetKeeps(h, op);
    case Push(_, _) => PushKeeps(h, op);
    case Finish(_) => FinishKeeps(h, op);
    case Subscribe(_, _, _) => SubscribeKeeps(h, op);
    case PushRow(_) => PushRowKeeps(h, op);
    case _ => ClientStepKeeps(h, op);
  }

  lemma {:induction false} RunKeeps(h: Hub, ops: seq<Op>)
    requires Inv(h) && LegalRun(h, ops)
    ensures Inv(Exec(h, ops))
    decreases |ops|
  {
    hide Inv, Step, Legal;
    if ops != [] {
      StepKeeps(h, ops[0]);
      RunKeeps(Step(h, ops[0]), ops[1..]);
    }
  }

  /** In every interleaving, a client still registered and open whose subscription from cursor `n`
      has been replayed has been handed every journaled row above `n` whose fan-out is over, unless relay
      debug holds it back. */
  lemma {:induction false} NoGap(debug: bool, ops: seq<Op>, c: nat, n: int, num: nat)
    requires LegalRun(Opened(debug), ops)
    requires var h := Exec(Opened(debug), ops);
      && c in h.clients && h.clients[c].registered && h.clients[c].open && n in h.clients[c].replayed
      && 1 <= num <= |h.log| && num > n && !Carried(h, num, c) && !Held(RowAt(h.log, num), h.debug)
    ensures var h := Exec(Opened(debug), ops); RowAt(h.log, num) in h.clients[c].handed
  {
    assert Inv(Opened(debug));
    hide Exec, LegalRun;
    RunKeeps(Opened(debug), ops);
    var h := Exec(Opened(debug), ops);
    assert ClientCovered(h, c);
    var upTo := h.clients[c].replayed[n];
    assert ReplayCovers(h, h.clients[c], n, upTo, []);
  }

  /** Nothing handed to a client claims a number it does not have in the journal. */
  lemma {:induction false} NoForgery(debug: bool, ops: seq<Op>, c: nat, item: Item)
    requires LegalRun(Opened(debug), ops)
    requires var h := Exec(Opened(debug), ops); c in h.clients && item in h.clients[c].handed && item.Row?
    ensures var h := Exec(Opened(debug), ops); 1 <= item.num <= Head(h.log) && item == RowAt(h.log, item.num)
  {
    assert Inv(Opened(debug));
    hide Exec, LegalRun;
    RunKeeps(Opened(debug), ops);
    assert Genuine(Exec(Opened(debug), ops).log, item);
  }

  // ── relay debug ───────────────────────────────────────────────────────

  ghost predicate HeldBack(h: Hub) {
    && (forall c, item | c in h.clients && item in h.clients[c].handed :: !Held(item, h.debug))
    && (forall g | g in h.tasks && !h.tasks[g].Replaying? :: !Held(h.tasks[g].item, h.debug))
  }

  lemma StepHoldsBack(h: Hub, op: Op)
    requires HeldBack(h) && Legal(h, op)
    ensures HeldBack(Step(h, op)) && Step(h, op).debug == h.debug
  {
    var h' := Step(h, op);
    hide Held;
    forall c, item | c in h'.clients && item in h'.clients[c].handed ensures !Held(item, h.debug) {
      if c !in h.clients || item !in h.clients[c].handed {
        assert op.Push? || op.PushRow? || op.Say? || op.Join?;
        HoldsOther(h.debug);
      }
    }
    forall g | g in h'.tasks && !h'.tasks[g].Replaying? ensures !Held(h'.tasks[g].item, h.debug) {
      if op.Append? && g == op.g { HoldsAppended(h.debug, op.b, |h.log| + 1); }
    }
  }

  lemma HoldsOther(debug: bool)
    ensures !Held(Other, debug)
  {
  }

  lemma HoldsAppended(debug: bool, b: Broadcast, num: nat)
    ensures Held(Row(num, b), debug) <==> debug && AutoRelayed(b.typ)
    ensures !Held(Other, debug)
  {
  }

  lemma {:induction false} RunHoldsBack(h: Hub, ops: seq<Op>)
    requires HeldBack(h) && LegalRun(h, ops)
    ensures HeldBack(Exec(h, ops)) && Exec(h, ops).debug == h.debug
    decreases |ops|
  {
    hide HeldBack, Step, Legal;
    if ops != [] {
      StepHoldsBack(h, ops[0]);
      RunHoldsBack(Step(h, ops[0]), ops[1..]);
    }
  }

  /** What relay debug holds back reaches no client, by fan-out or by replay. */
  lemma {:induction false} DebugHoldsBack(ops: seq<Op>, c: nat, item: Item)
    requires LegalRun(Opened(true), ops)
    requires var h := Exec(Opened(true), ops); c in h.clients && item in h.clients[c].handed && item.Row?
    ensures item.b.typ !in {ThreadIdle, ThreadBusy, ThreadStarted, ThreadEnded}
  {
    assert HeldBack(Opened(true));
    hide Exec, LegalRun;
    RunHoldsBack(Opened(true), ops);
    assert !Held(item, Exec(Opened(true), ops).debug);
  }
}
