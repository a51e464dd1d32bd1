/** Routing HUD replies into sessions: adapters first, else the outbox; retries, flushes and hook
    responses drain it. Nothing accepted is lost, duplicated or reordered. */
module Delivery {
  import opened Wire
  import opened OutboxQueues
  import Text

  datatype Endpoint = Endpoint(sid: string, pid: int, tty: string, agent: string, updatedAt: int)

  datatype Status = NoStatus | Delivered | Queued

  datatype Result = Result(id: string, sid: string, thread: string, status: Status, pendingCount: nat, error: string)

  class Registry {
    var byID: map<string, Endpoint>

    constructor ()
      ensures byID == map[]
    {
      byID := map[];
    }

    method Set(ep: Endpoint, now: int)
      modifies this
      ensures byID == if ep.sid == "" then old(byID)
        else old(byID)[ep.sid := if ep.updatedAt == 0 then ep.(updatedAt := now) else ep]
    {
      if ep.sid == "" {
        return;
      }
      byID := byID[ep.sid := if ep.updatedAt == 0 then ep.(updatedAt := now) else ep];
    }

    method Remove(sid: string)
      modifies this
      ensures byID == old(byID) - {sid}
    {
      byID := byID - {sid};
    }
  }

  /** The texts logged under one queue, in order. */
  function Under(log: seq<(QueueKey, string)>, k: QueueKey): seq<string> {
    if log == [] then []
    else
      var last := log[|log| - 1];
      Under(log[..|log| - 1], k) + (if last.0 == k then [last.1] else [])
  }

  function Tagged(k: QueueKey, texts: seq<string>): seq<(QueueKey, string)> {
    seq(|texts|, i requires 0 <= i < |texts| => (k, texts[i]))
  }

  lemma TaggedLength(k: QueueKey, texts: seq<string>)
    ensures |Tagged(k, texts)| == |texts|
  {
  }

  lemma UnderAppend(log: seq<(QueueKey, string)>, k: QueueKey, text: string, j: QueueKey)
    ensures Under(log + [(k, text)], j) == Under(log, j) + (if k == j then [text] else [])
  {
    assert (log + [(k, text)])[..|log|] == log;
  }

  lemma {:induction false} UnderTagged(log: seq<(QueueKey, string)>, k: QueueKey, texts: seq<string>, j: QueueKey)
    ensures Under(log + Tagged(k, texts), j) == Under(log, j) + (if k == j then texts else [])
    decreases |texts|
  {
    if texts == [] {
      assert log + Tagged(k, texts) == log;
    } else {
      var rest, last := texts[..|texts| - 1], texts[|texts| - 1];
      UnderTagged(log, k, rest, j);
      assert log + Tagged(k, texts) == (log + Tagged(k, rest)) + [(k, last)];
      UnderAppend(log + Tagged(k, rest), k, last, j);
    }
  }

  /** Where a text can be typed: the terminal the relay owns, or a process by one of three ways. */
  datatype Channel = Relay(thread: string) | Process(pid: int) | Tmux(pid: int) | Tty(path: string)

  datatype Try = Try(via: Channel, key: QueueKey, text: string, took: bool)

  /** The texts that were taken, each under its queue, in order. */
  function Taken(tries: seq<Try>): seq<(QueueKey, string)> {
    if tries == [] then []
    else
      var last := tries[|tries| - 1];
      Taken(tries[..|tries| - 1]) + (if last.took then [(last.key, last.text)] else [])
  }

  lemma {:induction false} TakenJoins(a: seq<Try>, b: seq<Try>)
    ensures Taken(a + b) == Taken(a) + Taken(b)
  {
    if b == [] {
      assert a + b == a;
    } else {
      var init := b[..|b| - 1];
      TakenJoins(a, init);
      assert (a + b)[..|a + b| - 1] == a + init;
    }
  }

  /** What reaches agents. `sent` logs what an adapter wrote or a hook response carried, under the
      queue of its session; `accepted` logs what callers were told was taken on; `tries` logs every
      adapter call with its outcome. */
  class Line {
    var sent: seq<(QueueKey, string)>
    ghost var accepted: seq<(QueueKey, string)>
    ghost var tries: seq<Try>

    constructor ()
      ensures sent == [] && accepted == [] && tries == []
    {
      sent, accepted, tries := [], [], [];
    }

    /** One adapter call; whether the operating system takes the text is anyone's guess. */
    method Attempt(via: Channel, k: QueueKey, text: string) returns (ok: bool)
      modifies this`sent, this`tries
      ensures sent == if ok then old(sent) + [(k, text)] else old(sent)
      ensures tries == old(tries) + [Try(via, k, text, ok)]
    {
      ok := *;
      tries := tries + [Try(via, k, text, ok)];
      if ok {
        sent := sent + [(k, text)];
      }
    }
  }

  /** What was sent in between is what some adapter took in between. */
  ghost predicate Carried(before: seq<Try>, after: seq<Try>, sentBefore: seq<(QueueKey, string)>,
      sentAfter: seq<(QueueKey, string)>)
  {
    before <= after && sentAfter == sentBefore + Taken(after[|before|..])
  }

  /** What two stretches carried one after the other the whole stretch carried. */
  lemma CarriedTogether(a: seq<Try>, b: seq<Try>, c: seq<Try>, sentA: seq<(QueueKey, string)>,
                        sentB: seq<(QueueKey, string)>, sentC: seq<(QueueKey, string)>)
    requires Carried(a, b, sentA, sentB) && Carried(b, c, sentB, sentC)
    ensures Carried(a, c, sentA, sentC) && a <= b <= c
  {
    hide Taken;
    var first, second := b[|a|..], c[|b|..];
    assert c[|a|..] == first + second;
    TakenJoins(first, second);
  }

  lemma CarriedOne(before: seq<Try>, sent: seq<(QueueKey, string)>, last: Try)
    ensures Carried(before, before + [last], sent, sent + (if last.took then [(last.key, last.text)] else []))
  {
    assert (before + [last])[|before|..] == [last] && [last][..0] == [];
  }

  lemma CarriedNone()
    ensures forall tries, sent :: Carried(tries, tries, sent, sent)
  {
    assert Taken([]) == [];
  }

  /** Per queue: what went out, then what still waits, is what was accepted, in that order. */
  ghost predicate Conserved(box: Outbox, line: Line)
    reads box, line
  {
    forall k: QueueKey :: Under(line.sent, k) + box.Waiting(k) == Under(line.accepted, k)
  }

  /** Whether a session has an endpoint that can be typed into. */
  predicate Live(reg: Registry?, sid: string)
    reads reg
  {
    reg != null && sid in reg.byID && reg.byID[sid].pid > 0
  }

  /** The text was put to an endpoint's adapters: its process, then its tmux pane, then its terminal if
      it has one, up to the first that took it. */
  predicate Offered(ep: Endpoint, text: string, before: seq<Try>, after: seq<Try>, ok: bool) {
    && before <= after
    && var tries := after[|before|..];
    && 1 <= |tries| <= 3 && (forall t | t in tries :: t.text == text)
    && tries[0].via == Process(ep.pid)
    && (|tries| > 1 ==> tries[1].via == Tmux(ep.pid))
    && (|tries| > 2 ==> ep.tty != "" && tries[2].via == Tty(ep.tty))
    && (forall i | 0 <= i < |tries| - 1 :: !tries[i].took)
    && ok == tries[|tries| - 1].took
    && (!ok ==> |tries| == if ep.tty == "" then 2 else 3)
  }

  /** The adapters asked of an endpoint whose process took the text, or refused it and so on. */
  lemma OfferedIs(ep: Endpoint, k: QueueKey, text: string, tries: seq<Try>, ok: bool)
    requires
      var process, tmux := Try(Process(ep.pid), k, text, false), Try(Tmux(ep.pid), k, text, false);
      || (tries == [process.(took := true)] && ok)
      || (tries == [process, tmux.(took := ok)] && (ok || ep.tty == ""))
      || (tries == [process, tmux, Try(Tty(ep.tty), k, text, ok)] && ep.tty != "")
    ensures Taken(tries) == if ok then [(k, text)] else []
    ensures forall before :: Offered(ep, text, before, before + tries, ok)
  {
    assert Taken([]) == [];
    if |tries| > 1 {
      assert tries[..1] == [tries[0]] && Taken(tries[..1]) == [];
    }
    if |tries| == 3 {
      assert tries[..2] == [tries[0], tries[1]] && tries[..2][..1] == tries[..1];
    }
  }

  /** Tries the endpoint's adapters in turn; at most one of them types the text. */
  method TryImmediate(sid: string, text: string, reg: Registry?, line: Line) returns (ok: bool)
    modifies line`sent, line`tries
    ensures line.sent == if ok then old(line.sent) + [(KeyOf(sid), text)] else old(line.sent)
    ensures Carried(old(line.tries), line.tries, old(line.sent), line.sent)
    ensures reg == null || sid !in reg.byID || reg.byID[sid].pid <= 0 ==> !ok && line.tries == old(line.tries)
    ensures Live(reg, sid) ==> Offered(reg.byID[sid], text, old(line.tries), line.tries, ok)
  {
    hide Offered, KeyOf;
    if reg == null || sid !in reg.byID || reg.byID[sid].pid <= 0 {
      CarriedNone();
      return false;
    }
    hide Taken;
    ghost var was, k := line.tries, KeyOf(sid);
    var ep := reg.byID[sid];
    ok := line.Attempt(Process(ep.pid), KeyOf(sid), text);
    ghost var made := [Try(Process(ep.pid), k, text, ok)];
    if !ok {
      ok := line.Attempt(Tmux(ep.pid), KeyOf(sid), text);
      made := made + [Try(Tmux(ep.pid), k, text, ok)];
    }
    if !ok && ep.tty != "" {
      ok := line.Attempt(Tty(ep.tty), KeyOf(sid), text);
      made := made + [Try(Tty(ep.tty), k, text, ok)];
    }
    OfferedIs(ep, k, text, made, ok);
    assert line.tries == was + made && line.tries[|was|..] == made;
    assert Offered(ep, text, was, was + made, ok);
  }

  /** Whether a reply goes to the adapters at once: not if it is for a web agent or others wait before it. */
  ghost predicate Immediate(agent: string, text: string, waiting: seq<string>) {
    Text.ToLower(Text.TrimSpace(agent)) != "web" && waiting == [] && Text.TrimSpace(text) != ""
  }

  /** The message a queue ends with. */
  ghost predicate EndsWith(box: Outbox, k: QueueKey, m: Message)
    reads box
  {
    && k.File? && k.name in box.queues
    && var rows := box.queues[k.name]; rows != [] && rows[|rows| - 1] == m
  }

  lemma AppendBoth(sent: seq<(QueueKey, string)>, accepted: seq<(QueueKey, string)>, k: QueueKey, text: string)
    ensures forall j :: Under(sent + [(k, text)], j) == Under(sent, j) + (if k == j then [text] else [])
    ensures forall j :: Under(accepted + [(k, text)], j) == Under(accepted, j) + (if k == j then [text] else [])
  {
    forall j
      ensures Under(sent + [(k, text)], j) == Under(sent, j) + (if k == j then [text] else [])
      ensures Under(accepted + [(k, text)], j) == Under(accepted, j) + (if k == j then [text] else [])
    {
      UnderAppend(sent, k, text, j);
      UnderAppend(accepted, k, text, j);
    }
  }

  /** Queues a reply, which is then accepted; `n` is how many wait. */
  method Park(msg: Message, freshID: string, box: Outbox, line: Line, now: int) returns (ok: bool, n: nat)
    requires box.Valid() && Conserved(box, line) && Text.TrimSpace(msg.text) != ""
    modifies box, line`accepted
    ensures box.Valid() && Conserved(box, line) && ok == (msg.sid != "" && KeyOf(msg.sid).File?)
    ensures line.accepted == if ok then old(line.accepted) + [(KeyOf(msg.sid), msg.text)] else old(line.accepted)
    ensures forall k ::
      box.Waiting(k) == old(box.Waiting(k)) + (if ok && k == KeyOf(msg.sid) then [msg.text] else [])
    ensures old(box.queues).Keys <= box.queues.Keys
    ensures ok ==> n == |box.Waiting(KeyOf(msg.sid))| > 0
    ensures ok ==> EndsWith(box, KeyOf(msg.sid), Filled(msg, freshID, now))
  {
    hide Under, Text.TrimSpace, KeyOf, Outbox.Waiting, Outbox.Rows, Normalize, Filled;
    n := 0;
    ok := box.Enqueue(msg, freshID, now);
    if ok {
      line.accepted := line.accepted + [(KeyOf(msg.sid), msg.text)];
      assert Conserved(box, line) by { AppendBoth(line.sent, old(line.accepted), KeyOf(msg.sid), msg.text); }
      n := box.Count(msg.sid, now);
    }
  }

  method DeliverWithResult(sid: string, thread: string, agent: string, text: string, reg: Registry?,
                           box: Outbox, line: Line, messageID: string, freshID: string, now: int)
    returns (r: Result, ok: bool)
    requires box.Valid() && Conserved(box, line)
    modifies box, line
    ensures box.Valid() && Conserved(box, line)
    ensures !ok ==> line.accepted == old(line.accepted) && line.sent == old(line.sent)
    ensures ok ==> line.accepted == old(line.accepted) + [(KeyOf(sid), Text.TrimSpace(text))]
    ensures r.id == messageID && r.sid == sid && r.thread == thread && (ok <==> r.status != NoStatus)
    ensures r.status == Delivered <==> line.sent == old(line.sent) + [(KeyOf(sid), Text.TrimSpace(text))]
    ensures r.status != Delivered ==> line.sent == old(line.sent)
    ensures Carried(old(line.tries), line.tries, old(line.sent), line.sent)
    ensures
      Text.ToLower(Text.TrimSpace(agent)) == "web" || old(box.Waiting(KeyOf(sid))) != []
      || Text.TrimSpace(text) == "" || !Live(reg, sid) ==>
        r.status != Delivered && line.tries == old(line.tries) && line.sent == old(line.sent)
    ensures Immediate(agent, text, old(box.Waiting(KeyOf(sid)))) && Live(reg, sid) ==>
      Offered(reg.byID[sid], Text.TrimSpace(text), old(line.tries), line.tries, r.status == Delivered)
    ensures forall k ::
      box.Waiting(k)
        == old(box.Waiting(k)) + (if r.status == Queued && k == KeyOf(sid) then [Text.TrimSpace(text)] else [])
    ensures old(box.queues).Keys <= box.queues.Keys
    ensures ok ==>
      (r.error != "" <==> r.status == Queued && Immediate(agent, text, old(box.Waiting(KeyOf(sid)))))
    ensures r.status == Queued ==>
      EndsWith(box, KeyOf(sid), Message(if messageID == "" then freshID else messageID, sid, thread,
                                        Text.TrimSpace(text), now, 0, r.error))
    ensures r.status == Queued ==> r.pendingCount == |box.Waiting(KeyOf(sid))| > 0
    ensures Text.TrimSpace(text) == "" ==> !ok
    ensures Text.TrimSpace(text) != "" && sid != "" && KeyOf(sid).File? ==> ok
  {
    hide Under, Text.TrimSpace, Text.ToLower, KeyOf, Outbox.Waiting, Outbox.Rows, Normalize, Offered;
    CarriedNone();
    r := Result(messageID, sid, thread, NoStatus, 0, "");
    var body := Text.TrimSpace(text);
    if body == "" {
      return r, false;
    }
    Text.TrimTwice(text);
    var msg := Message(messageID, sid, thread, body, now, 0, "");
    var pending := box.Count(sid, now);
    var wrote := false;
    if Text.ToLower(Text.TrimSpace(agent)) != "web" && pending == 0 {
      wrote := TryImmediate(sid, body, reg, line);
      if !wrote {
        msg := msg.(lastError := "delivery failed");
        r := r.(error := "delivery failed");
      }
    }
    if wrote {
      line.accepted := line.accepted + [(KeyOf(sid), body)];
      assert Conserved(box, line) by { AppendBoth(old(line.sent), old(line.accepted), KeyOf(sid), body); }
      return r.(status := Delivered), true;
    }
    var n;
    ok, n := Park(msg, freshID, box, line, now);
    if !ok {
      return if r.error == "" then r else r.(error := "delivery: invalid session id"), false;
    }
    return r.(status := Queued, pendingCount := n), true;
  }

  // ── draining ──────────────────────────────────────────────────────────

  /** The first `moved` texts waiting under `k` went out, in order; nothing else changed. */
  twostate predicate Moved(box: Outbox, line: Line, k: QueueKey, moved: nat)
    reads box, line
  {
    && moved <= |old(box.Waiting(k))|
    && box.Waiting(k) == old(box.Waiting(k))[moved..]
    && line.sent == old(line.sent) + Tagged(k, old(box.Waiting(k))[..moved])
    && line.accepted == old(line.accepted)
    && forall j: QueueKey | j != k :: box.Waiting(j) == old(box.Waiting(j))
  }

  lemma SentPrefix(sent: seq<(QueueKey, string)>, k: QueueKey, texts: seq<string>, moved: nat)
    requires moved <= |texts|
    ensures texts[..moved] + texts[moved..] == texts
    ensures forall j ::
      Under(sent + Tagged(k, texts[..moved]), j) == Under(sent, j) + (if k == j then texts[..moved] else [])
  {
    forall j
      ensures Under(sent + Tagged(k, texts[..moved]), j) == Under(sent, j) + (if k == j then texts[..moved] else [])
    {
      UnderTagged(sent, k, texts[..moved], j);
    }
  }

  lemma TagNone(k: QueueKey, texts: seq<string>)
    ensures Tagged(k, texts[..0]) == [] && texts[0..] == texts
  {
  }

  lemma TagOneMore(k: QueueKey, texts: seq<string>, n: nat)
    requires n < |texts|
    ensures Tagged(k, texts[..n + 1]) == Tagged(k, texts[..n]) + [(k, texts[n])]
  {
    assert texts[..n + 1] == texts[..n] + [texts[n]];
  }

  /** One round of the retry loop: the head goes out and leaves the queue, or stays with its attempt noted. */
  method RetryOne(sid: string, reg: Registry?, box: Outbox, line: Line, now: int) returns (ok: bool)
    requires box.Valid()
    modifies box, line
    ensures box.Valid() && Moved(box, line, KeyOf(sid), if ok then 1 else 0)
    ensures Carried(old(line.tries), line.tries, old(line.sent), line.sent)
    ensures Live(reg, sid) && old(box.Waiting(KeyOf(sid))) != [] ==>
      Offered(reg.byID[sid], old(box.Waiting(KeyOf(sid)))[0], old(line.tries), line.tries, ok)
    ensures !Live(reg, sid) || old(box.Waiting(KeyOf(sid))) == [] ==> !ok && line.tries == old(line.tries)
    ensures var rows := old(box.Rows(KeyOf(sid), now));
      !ok && rows != [] && sid != "" && rows[0].id != "" ==>
        KeyOf(sid).File? && box.queues == old(box.queues)[KeyOf(sid).name :=
          [rows[0].(attempts := rows[0].attempts + 1, lastError := "delivery failed")] + rows[1..]]
  {
    hide Under, Tagged, KeyOf, Outbox.Waiting, Outbox.Rows, Normalize, Offered;
    CarriedNone();
    ghost var k := KeyOf(sid);
    ghost var queue := box.Waiting(k);
    TagNone(k, queue);
    var msg := box.Peek(sid, now);
    if msg.None? {
      return false;
    }
    ok := TryImmediate(sid, msg.value.text, reg, line);
    if !ok {
      ghost var rows := box.Rows(k, now);
      box.MarkAttempt(sid, msg.value.id, "delivery failed", now);
      assert rows[0] in rows && rows[0].id == msg.value.id;
      return false;
    }
    TagOneMore(k, queue, 0);
    var gone := box.Dequeue(sid, now);
  }

  /** Two prefixes sent one after the other are one longer prefix. */
  lemma TagTogether(k: QueueKey, texts: seq<string>, n: nat, m: nat)
    requires n + m <= |texts|
    ensures Tagged(k, texts[..n]) + Tagged(k, texts[n..][..m]) == Tagged(k, texts[..n + m])
    ensures texts[n..][m..] == texts[n + m..]
  {
  }

  predicate IsSuffix(rest: seq<string>, whole: seq<string>) {
    |rest| <= |whole| && rest == whole[|whole| - |rest|..]
  }

  lemma SuffixRefl()
    ensures forall s :: IsSuffix(s, s)
  {
  }

  lemma SuffixTrans(a: seq<string>, b: seq<string>, c: seq<string>)
    requires IsSuffix(a, b) && IsSuffix(b, c)
    ensures IsSuffix(a, c)
  {
  }

  /** The last adapter calls all refused the text. */
  ghost predicate Refused(ep: Endpoint, text: string, before: seq<Try>, after: seq<Try>) {
    exists mid :: before <= mid && Offered(ep, text, mid, after, false)
  }

  /** At most `rounds` rounds, stopping at the first message that no adapter takes. */
  method RetryRounds(sid: string, reg: Registry?, box: Outbox, line: Line, now: int, rounds: nat)
    returns (ghost moved: nat, any: bool)
    requires box.Valid()
    modifies box, line
    ensures box.Valid() && moved <= rounds && Moved(box, line, KeyOf(sid), moved) && any == (moved > 0)
    ensures Carried(old(line.tries), line.tries, old(line.sent), line.sent)
    ensures moved < rounds && moved < |old(box.Waiting(KeyOf(sid)))| && Live(reg, sid) ==>
      Refused(reg.byID[sid], old(box.Waiting(KeyOf(sid)))[moved], old(line.tries), line.tries)
    ensures !Live(reg, sid) ==> line.tries == old(line.tries)
  {
    hide Under, Tagged, KeyOf, Outbox.Waiting, Outbox.Rows, Normalize, IsSuffix, Offered, Carried;
    ghost var k := KeyOf(sid);
    ghost var queue := box.Waiting(k);
    moved := 0;
    any := false;
    TagNone(k, queue);
    CarriedNone();
    var i := 0;
    var stuck := false;
    while i < rounds && !stuck
      invariant i <= rounds && moved <= i && any == (moved > 0)
      invariant box.Valid() && Moved(box, line, k, moved)
      invariant old(line.tries) <= line.tries && Carried(old(line.tries), line.tries, old(line.sent), line.sent)
      invariant if stuck then moved < i else moved == i
      invariant stuck && moved < |queue| && Live(reg, sid) ==>
        Refused(reg.byID[sid], queue[moved], old(line.tries), line.tries)
      invariant !Live(reg, sid) ==> line.tries == old(line.tries)
      decreases rounds - i
    {
      ghost var was, sentWas := line.tries, line.sent;
      var ok := RetryOne(sid, reg, box, line, now);
      CarriedTogether(old(line.tries), was, line.tries, old(line.sent), sentWas, line.sent);
      TagTogether(k, queue, moved, if ok then 1 else 0);
      if ok {
        moved := moved + 1;
        any := true;
      } else {
        TagNone(k, queue[moved..]);
        stuck := true;
      }
      i := i + 1;
    }
  }

  /** Sends up to 32 queued messages. */
  method RetryPending(sid: string, reg: Registry?, box: Outbox, line: Line, now: int)
    returns (delivered: bool, ghost moved: nat)
    requires box.Valid() && Conserved(box, line)
    modifies box, line
    ensures box.Valid() && Conserved(box, line)
    ensures moved <= 32 && Moved(box, line, KeyOf(sid), moved) && delivered == (moved > 0)
    ensures forall k: QueueKey :: IsSuffix(box.Waiting(k), old(box.Waiting(k)))
    ensures Carried(old(line.tries), line.tries, old(line.sent), line.sent)
    ensures moved < 32 && moved < |old(box.Waiting(KeyOf(sid)))| && Live(reg, sid) ==>
      Refused(reg.byID[sid], old(box.Waiting(KeyOf(sid)))[moved], old(line.tries), line.tries)
    ensures !Live(reg, sid) ==> line.tries == old(line.tries)
  {
    hide Under, Tagged, KeyOf, Outbox.Waiting, Outbox.Rows, Normalize, Refused, Live;
    CarriedNone();
    ghost var k := KeyOf(sid);
    ghost var queue, sent := box.Waiting(k), line.sent;
    delivered := false;
    moved := 0;
    TagNone(k, queue);
    var pending := box.Count(sid, now);
    if pending == 0 {
      return;
    }
    moved, delivered := RetryRounds(sid, reg, box, line, now, 32);
    SentPrefix(sent, k, queue, moved);
  }

  /** Why a flush leaves a queue as it is: nothing waits, 32 went out, or the adapters refused one. */
  ghost predicate Drained(ep: Endpoint, queue: seq<string>, rest: seq<string>, before: seq<Try>, after: seq<Try>) {
    || rest == [] || |rest| + 32 <= |queue|
    || exists i, mid :: 0 <= i < |queue| && before <= mid <= after && Refused(ep, queue[i], before, mid)
  }

  lemma DrainedLater(ep: Endpoint, queue: seq<string>, rest: seq<string>, later: seq<string>, before: seq<Try>,
                     after: seq<Try>, end: seq<Try>)
    requires Drained(ep, queue, rest, before, after) && after <= end && IsSuffix(later, rest)
    ensures Drained(ep, queue, later, before, end)
  {
  }

  lemma DrainedEarlier(ep: Endpoint, queue: seq<string>, rest: seq<string>, start: seq<Try>, before: seq<Try>,
                       after: seq<Try>)
    requires Drained(ep, queue, rest, before, after) && start <= before
    ensures Drained(ep, queue, rest, start, after)
  {
    if i, mid :| 0 <= i < |queue| && before <= mid <= after && Refused(ep, queue[i], before, mid) {
      assert start <= mid && Refused(ep, queue[i], start, mid);
    }
  }

  /** One session's retries, seen from the start of the flush they belong to. */
  lemma DrainedNow(ep: Endpoint, queue: seq<string>, was: seq<string>, moved: nat, before: seq<Try>, mid: seq<Try>,
                   after: seq<Try>)
    requires IsSuffix(was, queue) && moved <= |was| && before <= mid <= after
    requires moved < 32 && moved < |was| ==> Refused(ep, was[moved], mid, after)
    ensures Drained(ep, queue, was[moved..], before, after)
  {
    if moved < 32 && moved < |was| {
      assert queue[|queue| - |was| + moved] == was[moved];
      assert Refused(ep, was[moved], before, after);
    }
  }

  /** Retries every listed queue: each loses a prefix, which by conservation went out in order. */
  method FlushPending(reg: Registry?, box: Outbox, line: Line, now: int) returns (n: nat)
    requires box.Valid() && Conserved(box, line)
    modifies box, line
    ensures box.Valid() && Conserved(box, line) && line.accepted == old(line.accepted)
    ensures forall k: QueueKey :: IsSuffix(box.Waiting(k), old(box.Waiting(k)))
    ensures Carried(old(line.tries), line.tries, old(line.sent), line.sent)
    ensures old(line.sent) <= line.sent && (n > 0 <==> old(line.sent) < line.sent)
    ensures forall name | name in old(box.queues) && Live(reg, ListedID(name)) ::
      var k := KeyOf(ListedID(name));
      Drained(reg.byID[ListedID(name)], old(box.Waiting(k)), box.Waiting(k), old(line.tries), line.tries)
  {
    hide Under, Tagged, KeyOf, ListedID, Outbox.Waiting, IsSuffix, Carried, Refused, Drained;
    CarriedNone();
    assert forall k: QueueKey :: IsSuffix(box.Waiting(k), box.Waiting(k)) by { SuffixRefl(); }
    n := 0;
    var ids := box.ListPendingIDs();
    ghost var listed := ids;
    while ids != {}
      invariant box.Valid() && Conserved(box, line) && line.accepted == old(line.accepted) && ids <= listed
      invariant forall k: QueueKey :: IsSuffix(box.Waiting(k), old(box.Waiting(k)))
      invariant old(line.tries) <= line.tries && Carried(old(line.tries), line.tries, old(line.sent), line.sent)
      invariant old(line.sent) <= line.sent && (n > 0 <==> old(line.sent) < line.sent)
      invariant forall id | id in listed - ids && Live(reg, id) ::
        Drained(reg.byID[id], old(box.Waiting(KeyOf(id))), box.Waiting(KeyOf(id)), old(line.tries), line.tries)
      decreases |ids|
    {
      var id :| id in ids;
      ids := ids - {id};
      label before:
      ghost var was, sentWas := line.tries, line.sent;
      var delivered, moved := RetryPending(id, reg, box, line, now);
      CarriedTogether(old(line.tries), was, line.tries, old(line.sent), sentWas, line.sent);
      forall j | j in listed - ids && Live(reg, j)
        ensures Drained(reg.byID[j], old(box.Waiting(KeyOf(j))), box.Waiting(KeyOf(j)), old(line.tries), line.tries)
      {
        var k := KeyOf(j);
        if j == id {
          DrainedNow(reg.byID[j], old(box.Waiting(k)), old@before(box.Waiting(k)), moved, old(line.tries), was,
                     line.tries);
        } else {
          DrainedLater(reg.byID[j], old(box.Waiting(k)), old@before(box.Waiting(k)), box.Waiting(k), old(line.tries),
                       was, line.tries);
        }
      }
      forall k: QueueKey ensures IsSuffix(box.Waiting(k), old(box.Waiting(k))) {
        assert IsSuffix(old@before(box.Waiting(k)), old(box.Waiting(k)));
        SuffixTrans(box.Waiting(k), old@before(box.Waiting(k)), old(box.Waiting(k)));
      }
      TaggedLength(KeyOf(id), old@before(box.Waiting(KeyOf(id)))[..moved]);
      if delivered {
        n := n + 1;
      }
    }
  }

  datatype HookEvent = StopHook | SubagentStop | PermissionRequest | UserPromptSubmit | OtherHook

  datatype Behavior = NoBehavior | Allow | Deny

  datatype HookReply = NoReply | Block(reason: string) | Decide(behavior: Behavior) | AddContext(context: string)

  /** What a queued reply answers a permission request with. */
  function PermissionBehavior(text: string): Behavior {
    var t := Text.ToLower(Text.TrimSpace(text));
    if t in {"y", "yes", "approve", "allow"} then Allow
    else if t in {"n", "no", "deny", "reject"} then Deny
    else NoBehavior
  }

  /** A hook drains the head of its session's queue exactly if it can carry it, and carries that text. */
  method HookResponse(event: HookEvent, sid: string, box: Outbox, line: Line, now: int) returns (reply: HookReply)
    requires box.Valid() && Conserved(box, line)
    modifies box, line
    ensures box.Valid() && Conserved(box, line)
    ensures Moved(box, line, KeyOf(sid), if reply.NoReply? then 0 else 1)
    ensures reply.Block? <==>
      sid != "" && (event.StopHook? || event.SubagentStop?) && old(box.Waiting(KeyOf(sid))) != []
    ensures reply.AddContext? <==> sid != "" && event.UserPromptSubmit? && old(box.Waiting(KeyOf(sid))) != []
    ensures reply == Decide(Allow) <==>
      sid != "" && event.PermissionRequest? && old(box.Waiting(KeyOf(sid))) != []
      && Text.ToLower(Text.TrimSpace(old(box.Waiting(KeyOf(sid)))[0])) in {"y", "yes", "approve", "allow"}
    ensures reply == Decide(Deny) <==>
      sid != "" && event.PermissionRequest? && old(box.Waiting(KeyOf(sid))) != []
      && Text.ToLower(Text.TrimSpace(old(box.Waiting(KeyOf(sid)))[0])) in {"n", "no", "deny", "reject"}
    ensures reply != Decide(NoBehavior)
    ensures reply.Block? ==> reply.reason == old(box.Waiting(KeyOf(sid)))[0]
    ensures reply.AddContext? ==> reply.context == "Ambient Link HUD reply: " + old(box.Waiting(KeyOf(sid)))[0]
  {
    hide KeyOf, Under, Tagged, Text.ToLower, Text.TrimSpace, Outbox.Waiting, Outbox.Rows, Normalize;
    ghost var k, queue := KeyOf(sid), box.Waiting(KeyOf(sid));
    TagNone(k, queue);
    reply := NoReply;
    if sid == "" {
      return;
    }
    var msg := box.Peek(sid, now);
    if msg.None? {
      return;
    }
    match event {
      case StopHook => reply := Block(msg.value.text);
      case SubagentStop => reply := Block(msg.value.text);
      case PermissionRequest =>
        var behavior := PermissionBehavior(msg.value.text);
        if behavior == NoBehavior {
          return;
        }
        reply := Decide(behavior);
      case UserPromptSubmit => reply := AddContext("Ambient Link HUD reply: " + msg.value.text);
      case OtherHook => return;
    }
    TagOneMore(k, queue, 0);
    line.sent := line.sent + [(KeyOf(sid), msg.value.text)];
    assert line.sent == old(line.sent) + Tagged(k, queue[..1]);
    var gone := box.Dequeue(sid, now);
    SentPrefix(old(line.sent), k, queue, 1);
    assert box.Waiting(k) == queue[1..];
  }

  // ── the way in ────────────────────────────────────────────────────────

  predicate AllEqual(texts: seq<string>, text: string) {
    forall t | t in texts :: t == text
  }

  /** Overtaking a queue goes unnoticed only if everything in it says the same. */
  lemma {:induction false} OvertakingShows(texts: seq<string>, text: string)
    ensures [text] + texts == texts + [text] <==> AllEqual(texts, text)
  {
    if texts != [] {
      var rest := texts[1..];
      OvertakingShows(rest, text);
      assert texts == [texts[0]] + rest;
      assert ([text] + texts)[0] == text && (texts + [text])[0] == texts[0];
      assert ([text] + texts)[1..] == texts && (texts + [text])[1..] == rest + [text];
      if AllEqual(texts, text) {
        assert texts[0] in texts && forall t | t in rest :: t in texts;
        assert texts + [text] == [text] + (rest + [text]);
      }
      if [text] + texts == texts + [text] {
        assert texts[0] == text && [text] + rest == rest + [text];
        forall t | t in texts ensures t == text {
          assert t == texts[0] || t in rest;
        }
      }
    }
  }

  datatype Turn = Turn(sid: string, thread: string, agent: string, text: string, status: Status)

  class Recorder {
    var turns: seq<Turn>

    constructor ()
      ensures turns == []
    {
      turns := [];
    }

    method RecordHuman(sid: string, thread: string, agent: string, text: string, status: Status)
      modifies this
      ensures turns == old(turns) + [Turn(sid, thread, agent, text, status)]
    {
      turns := turns + [Turn(sid, thread, agent, text, status)];
    }
  }

  lemma JumpedQueue(sent: seq<(QueueKey, string)>, accepted: seq<(QueueKey, string)>, k: QueueKey,
                    waiting: seq<string>, text: string)
    requires Under(sent, k) + waiting == Under(accepted, k)
    ensures Under(sent + [(k, text)], k) + waiting == Under(accepted + [(k, text)], k) <==> AllEqual(waiting, text)
  {
    UnderAppend(sent, k, text, k);
    UnderAppend(accepted, k, text, k);
    OvertakingShows(waiting, text);
    var before := Under(sent, k);
    assert (before + [text]) + waiting == before + ([text] + waiting);
    assert (before + waiting) + [text] == before + (waiting + [text]);
    assert (before + ([text] + waiting))[|before|..] == [text] + waiting;
    assert (before + (waiting + [text]))[|before|..] == waiting + [text];
  }

  /** The first adapter calls put the text to that endpoint. */
  ghost predicate BeganWith(ep: Endpoint, text: string, before: seq<Try>, after: seq<Try>, ok: bool) {
    exists mid :: mid <= after && Offered(ep, text, before, mid, ok)
  }

  lemma BeganSo(ep: Endpoint, text: string, before: seq<Try>, mid: seq<Try>, after: seq<Try>, ok: bool)
    requires Offered(ep, text, before, mid, ok) && mid <= after
    ensures BeganWith(ep, text, before, after, ok)
  {
  }

  /** Every queue listed before, with what was added to one of them, was flushed. */
  twostate predicate Flushed(reg: Registry?, box: Outbox, line: Line, k: QueueKey, added: seq<string>)
    reads reg, box, line
  {
    forall name | name in old(box.queues) && Live(reg, ListedID(name)) ::
      var j := KeyOf(ListedID(name));
      Drained(reg.byID[ListedID(name)], old(box.Waiting(j)) + (if j == k then added else []), box.Waiting(j),
              old(line.tries), line.tries)
  }

  /** Delivery, then a flush of every queue. */
  method DeliverAndFlush(sid: string, thread: string, agent: string, text: string, reg: Registry?,
                         box: Outbox, line: Line, messageID: string, freshID: string, now: int)
    returns (r: Result, ok: bool)
    requires box.Valid() && Conserved(box, line)
    modifies box, line
    ensures box.Valid() && Conserved(box, line) && (ok <==> r.status != NoStatus)
    ensures line.accepted == old(line.accepted) + (if ok then [(KeyOf(sid), Text.TrimSpace(text))] else [])
    ensures r.status == Delivered ==> old(line.sent) + [(KeyOf(sid), Text.TrimSpace(text))] <= line.sent
    ensures Carried(old(line.tries), line.tries, old(line.sent), line.sent) && old(line.tries) <= line.tries
    ensures if Immediate(agent, text, old(box.Waiting(KeyOf(sid)))) && Live(reg, sid)
      then
        BeganWith(reg.byID[sid], Text.TrimSpace(text), old(line.tries), line.tries, r.status == Delivered)
      else
        r.status != Delivered
    ensures Flushed(reg, box, line, KeyOf(sid), if r.status == Queued then [Text.TrimSpace(text)] else [])
  {
    hide Under, KeyOf, Text.TrimSpace, ListedID, Outbox.Waiting, IsSuffix, Carried, Offered, BeganWith, Drained;
    ghost var k, tries, sent := KeyOf(sid), line.tries, line.sent;
    r, ok := DeliverWithResult(sid, thread, agent, text, reg, box, line, messageID, freshID, now);
    ghost var mid, sentMid := line.tries, line.sent;
    label queued:
    var flushed := FlushPending(reg, box, line, now);
    CarriedTogether(tries, mid, line.tries, sent, sentMid, line.sent);
    if Immediate(agent, text, old(box.Waiting(k))) && Live(reg, sid) {
      BeganSo(reg.byID[sid], Text.TrimSpace(text), tries, mid, line.tries, r.status == Delivered);
    }
    ghost var added := if r.status == Queued then [Text.TrimSpace(text)] else [];
    forall name | name in old(box.queues) && Live(reg, ListedID(name))
      ensures var j := KeyOf(ListedID(name));
        Drained(reg.byID[ListedID(name)], old(box.Waiting(j)) + (if j == k then added else []), box.Waiting(j),
                tries, line.tries)
    {
      var j := KeyOf(ListedID(name));
      assert old@queued(box.Waiting(j)) == old(box.Waiting(j)) + (if j == k then added else []);
      DrainedEarlier(reg.byID[ListedID(name)], old@queued(box.Waiting(j)), box.Waiting(j), tries, mid, line.tries);
    }
  }

  /** The session's own terminal first, then delivery, a flush of every queue, and the record. `sid` and
      `agent` are what the thread resolved to, empty when it did not. */
  method SendInputResult(thread: string, sid: string, agent: string, text: string, hasWriter: bool,
                         reg: Registry?, box: Outbox, line: Line, rec: Recorder,
                         messageID: string, freshID: string, now: int)
    returns (r: Result, ok: bool, ghost direct: bool)
    requires box.Valid() && Conserved(box, line)
    modifies box, line, rec
    ensures box.Valid() && (direct ==> ok && hasWriter)
    ensures Conserved(box, line) <==> !direct || AllEqual(old(box.Waiting(KeyOf(sid))), text)
    ensures direct ==>
      line.sent == old(line.sent) + [(KeyOf(sid), text)] && forall k :: box.Waiting(k) == old(box.Waiting(k))
    ensures line.accepted ==
      if ok then old(line.accepted) + [(KeyOf(sid), if direct then text else Text.TrimSpace(text))]
      else old(line.accepted)
    ensures rec.turns == if ok then old(rec.turns) + [Turn(sid, thread, agent, text, r.status)] else old(rec.turns)
    ensures ok <==> r.status != NoStatus
    ensures r.status == Delivered ==>
      old(line.sent) + [(KeyOf(sid), if direct then text else Text.TrimSpace(text))] <= line.sent
    ensures sid == "" && !direct ==> !ok && line.sent == old(line.sent)
    ensures Carried(old(line.tries), line.tries, old(line.sent), line.sent)
    ensures hasWriter ==> old(line.tries) + [Try(Relay(thread), KeyOf(sid), text, direct)] <= line.tries
    ensures direct ==> |line.tries| == |old(line.tries)| + 1 && r.status == Delivered
    ensures !direct && !(Immediate(agent, text, old(box.Waiting(KeyOf(sid)))) && Live(reg, sid)) ==>
      r.status != Delivered
    ensures !direct && sid != "" && Immediate(agent, text, old(box.Waiting(KeyOf(sid)))) && Live(reg, sid) ==>
      BeganWith(reg.byID[sid], Text.TrimSpace(text),
                old(line.tries) + (if hasWriter then [Try(Relay(thread), KeyOf(sid), text, false)] else []),
                line.tries, r.status == Delivered)
    ensures !direct && sid != "" ==>
      Flushed(reg, box, line, KeyOf(sid), if r.status == Queued then [Text.TrimSpace(text)] else [])
  {
    hide Under, KeyOf, Text.TrimSpace, ListedID, Outbox.Waiting, IsSuffix, AllEqual;
    hide Carried, Offered, BeganWith, Drained;
    CarriedNone();
    ghost var k := KeyOf(sid);
    direct := false;
    if hasWriter {
      var wrote := line.Attempt(Relay(thread), KeyOf(sid), text);
      CarriedOne(old(line.tries), old(line.sent), Try(Relay(thread), k, text, wrote));
      assert old(line.sent) + [] == old(line.sent);
      if wrote {
        direct := true;
        JumpedQueue(old(line.sent), old(line.accepted), k, box.Waiting(k), text);
        AppendBoth(old(line.sent), old(line.accepted), k, text);
        line.accepted := line.accepted + [(k, text)];
        r := Result(messageID, sid, thread, Delivered, 0, "");
        rec.RecordHuman(sid, thread, agent, text, Delivered);
        return r, true, direct;
      }
    }
    assert line.sent == old(line.sent) && Carried(old(line.tries), line.tries, old(line.sent), line.sent);
    assert line.tries ==
      old(line.tries) + (if hasWriter then [Try(Relay(thread), KeyOf(sid), text, false)] else []);
    if sid == "" {
      return Result(messageID, "", thread, NoStatus, 0, "unknown thread"), false, direct;
    }
    ghost var tries, sent := line.tries, line.sent;
    label asked:
    r, ok := DeliverAndFlush(sid, thread, agent, text, reg, box, line, messageID, freshID, now);
    CarriedTogether(old(line.tries), tries, line.tries, old(line.sent), sent, line.sent);
    ghost var added := if r.status == Queued then [Text.TrimSpace(text)] else [];
    forall name | name in old(box.queues) && Live(reg, ListedID(name))
      ensures var j := KeyOf(ListedID(name));
        Drained(reg.byID[ListedID(name)], old(box.Waiting(j)) + (if j == k then added else []), box.Waiting(j),
                old(line.tries), line.tries)
    {
      var j := KeyOf(ListedID(name));
      DrainedEarlier(reg.byID[ListedID(name)], old@asked(box.Waiting(j)) + (if j == k then added else []),
                     box.Waiting(j), old(line.tries), tries, line.tries);
    }
    if ok {
      rec.RecordHuman(sid, thread, agent, text, r.status);
    }
  }
}
