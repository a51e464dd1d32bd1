/** Dictation turns over the hub: live partials pass a per-thread rate gate, turn boundaries always pass. */
module Dictation {

  datatype Message =
    | Begin(thread: string, source: string)
    | Partial(thread: string, text: string, source: string)
    | Commit(thread: string, text: string, source: string)
    | Abort(thread: string, source: string)
    | Unknown(thread: string)

  datatype Frame =
    | Active(thread: string, source: string)
    | PartialText(thread: string, text: string, source: string)
    | End(thread: string, text: string, source: string)

  // ── the gate ──────────────────────────────────────────────────────────

  /** Whether a gate last passed at `last[key]` passes again; a gate with no interval always does. */
  predicate Passes(interval: int, last: map<string, int>, key: string, at: int) {
    interval <= 0 || key !in last || at - last[key] >= interval
  }

  class Throttle {
    const interval: int
    var last: map<string, int>

    constructor (interval: int)
      ensures this.interval == interval && last == map[]
    {
      this.interval := interval;
      last := map[];
    }

    method Allow(key: string, at: int) returns (ok: bool)
      modifies this
      ensures ok <==> interval <= 0 || key !in old(last) || at - old(last)[key] >= interval
      ensures last == if ok && interval > 0 then old(last)[key := at] else old(last)
    {
      if interval <= 0 {
        return true;
      }
      if key in last && at - last[key] < interval {
        return false;
      }
      last := last[key := at];
      return true;
    }

    method Reset(key: string)
      modifies this
      ensures last == old(last) - {key}
    {
      last := last - {key};
    }
  }

  // ── one message ───────────────────────────────────────────────────────

  /** A turn boundary that is acted on: it reopens its thread's gate. */
  predicate Boundary(m: Message) {
    m.thread != "" && (m.Begin? || m.Abort? || (m.Commit? && m.text != ""))
  }

  /** A partial that carries text. */
  predicate Spoken(m: Message) {
    m.thread != "" && m.Partial? && m.text != ""
  }

  function GateAfter(interval: int, last: map<string, int>, m: Message, now: int): map<string, int> {
    if Boundary(m) then last - {m.thread}
    else if Spoken(m) && interval > 0 && Passes(interval, last, m.thread, now) then last[m.thread := now]
    else last
  }

  function FramesFor(interval: int, last: map<string, int>, m: Message, now: int): (r: seq<Frame>)
    ensures |r| <= 1 && forall f | f in r :: f.thread == m.thread
    ensures m.Begin? && m.thread != "" ==> r == [Active(m.thread, m.source)]
    ensures m.Abort? && m.thread != "" ==> r == [End(m.thread, "", m.source)]
    ensures m.Commit? && m.thread != "" && m.text != "" ==> r == [End(m.thread, m.text, m.source)]
    ensures Spoken(m) && r != [] ==> r == [PartialText(m.thread, m.text, m.source)]
    ensures !Boundary(m) && !Spoken(m) ==> r == []
  {
    if m.thread == "" then []
    else
      match m
      case Begin(t, source) => [Active(t, source)]
      case Partial(t, text, source) =>
        if text != "" && Passes(interval, last, t, now) then [PartialText(t, text, source)] else []
      case Commit(t, text, source) => if text != "" then [End(t, text, source)] else []
      case Abort(t, source) => [End(t, "", source)]
      case Unknown(_) => []
  }

  class Handler {
    const throttle: Throttle?
    var active: map<string, string>
    var emitted: seq<Frame>
    var committed: seq<(string, string)>

    constructor (throttle: Throttle?)
      ensures this.throttle == throttle && active == map[] && emitted == [] && committed == []
    {
      this.throttle := throttle;
      active, emitted, committed := map[], [], [];
    }

    function Interval(): int {
      if throttle == null then 0 else throttle.interval
    }

    ghost function Gate(): map<string, int>
      reads this, throttle
    {
      if throttle == null then map[] else throttle.last
    }

    method ResetGate(thread: string)
      modifies throttle
      ensures throttle != null ==> throttle.last == old(throttle.last) - {thread}
    {
      if throttle != null {
        throttle.Reset(thread);
      }
    }

    method Handle(m: Message, now: int)
      modifies this, throttle
      ensures emitted == old(emitted) + FramesFor(Interval(), old(Gate()), m, now)
      ensures throttle != null ==> Gate() == GateAfter(Interval(), old(Gate()), m, now)
      ensures committed ==
        if m.Commit? && m.thread != "" && m.text != "" then old(committed) + [(m.thread, m.text)] else old(committed)
      ensures active ==
        if m.Begin? && m.thread != "" then old(active)[m.thread := if m.source == "" then "phone" else m.source]
        else if m.thread != "" && (m.Abort? || (m.Commit? && m.text != "")) then old(active) - {m.thread}
        else old(active)
      ensures throttle != null && m.thread != "" && (m.Begin? || m.Abort? || (m.Commit? && m.text != "")) ==>
        throttle.last == old(throttle.last) - {m.thread}
    {
      if m.thread == "" {
        return;
      }
      match m {
        case Begin(t, source) =>
          active := active[t := if source == "" then "phone" else source];
          ResetGate(t);
          emitted := emitted + [Active(t, source)];
        case Partial(t, text, source) =>
          if text == "" {
            return;
          }
          var ok := true;
          if throttle != null {
            ok := throttle.Allow(t, now);
          }
          if ok {
            emitted := emitted + [PartialText(t, text, source)];
          }
        case Commit(t, text, source) =>
          if text == "" {
            return;
          }
          active := active - {t};
          ResetGate(t);
          committed := committed + [(t, text)];
          emitted := emitted + [End(t, text, source)];
        case Abort(t, source) =>
          active := active - {t};
          ResetGate(t);
          emitted := emitted + [End(t, "", source)];
        case Unknown(_) =>
      }
    }
  }

  // ── whole conversations ───────────────────────────────────────────────

  datatype Call = Call(msg: Message, at: int)

  predicate InOrder(calls: seq<Call>) {
    forall i, j | 0 <= i < j < |calls| :: calls[i].at <= calls[j].at
  }

  function GateThrough(interval: int, last: map<string, int>, calls: seq<Call>): map<string, int> {
    if calls == [] then last
    else
      var call := calls[|calls| - 1];
      GateAfter(interval, GateThrough(interval, last, calls[..|calls| - 1]), call.msg, call.at)
  }

  /** The partial frame a message puts out on `thread`, if it does. */
  predicate Emits(interval: int, gate: map<string, int>, call: Call, thread: string) {
    var frames := FramesFor(interval, gate, call.msg, call.at);
    frames != [] && frames[0].PartialText? && frames[0].thread == thread
  }

  function Partials(interval: int, last: map<string, int>, calls: seq<Call>, thread: string): nat {
    if calls == [] then 0
    else
      var init := calls[..|calls| - 1];
      Partials(interval, last, init, thread)
        + (if Emits(interval, GateThrough(interval, last, init), calls[|calls| - 1], thread) then 1 else 0)
  }

  function Resets(calls: seq<Call>, thread: string): nat {
    if calls == [] then 0
    else
      var m := calls[|calls| - 1].msg;
      Resets(calls[..|calls| - 1], thread) + (if m.thread == thread && Boundary(m) then 1 else 0)
  }

  /** `n` whole intervals fit into `span`. */
  predicate Fits(n: int, interval: int, span: int) {
    n * interval <= span
  }

  /** Each partial but the first after a turn boundary cost an interval. */
  ghost predicate Paced(interval: int, start: int, now: int, gate: map<string, int>, thread: string, sent: nat,
      resets: nat)
  {
    if thread in gate then gate[thread] <= now && (sent == 0 || Fits(sent - 1 - resets, interval, gate[thread] - start))
    else sent == 0 || Fits(sent - resets, interval, now - start)
  }

  lemma PacedStep(interval: int, start: int, before: int, gate: map<string, int>, thread: string, sent: nat,
      resets: nat, call: Call)
    requires interval > 0 && start <= before <= call.at && Paced(interval, start, before, gate, thread, sent, resets)
    ensures Paced(interval, start, call.at, GateAfter(interval, gate, call.msg, call.at), thread,
                  sent + (if Emits(interval, gate, call, thread) then 1 else 0),
                  resets + (if call.msg.thread == thread && Boundary(call.msg) then 1 else 0))
  {
    assert (sent - resets) * interval == (sent - 1 - resets) * interval + interval;
  }

  lemma {:induction false} PacedThrough(interval: int, last: map<string, int>, calls: seq<Call>, thread: string)
    requires interval > 0 && InOrder(calls) && calls != []
    requires thread in last ==> last[thread] <= calls[0].at
    ensures Paced(interval, calls[0].at, calls[|calls| - 1].at, GateThrough(interval, last, calls), thread,
                  Partials(interval, last, calls, thread), Resets(calls, thread))
    decreases |calls|
  {
    hide GateAfter, Emits, Boundary, Fits;
    var init, call := calls[..|calls| - 1], calls[|calls| - 1];
    if init == [] {
      PacedStep(interval, call.at, call.at, last, thread, 0, 0, call);
    } else {
      PacedThrough(interval, last, init, thread);
      PacedStep(interval, calls[0].at, init[|init| - 1].at, GateThrough(interval, last, init), thread,
                Partials(interval, last, init, thread), Resets(init, thread), call);
    }
  }

  lemma MulGrows(a: int, b: int, c: int)
    requires c > 0
    ensures a <= b ==> a * c <= b * c
  {
  }

  lemma FitsMeans(n: int, interval: int, span: int)
    requires interval > 0 && span >= 0 && Fits(n, interval, span)
    ensures n <= span / interval
  {
    var q := span / interval;
    assert span < (q + 1) * interval;
    MulGrows(q + 1, n, interval);
  }

  /** Over any run of messages, a thread puts out at most one partial, one more for each of its turn
      boundaries, and one for each whole interval that fits between the first message and the last. */
  lemma PartialBound(interval: int, last: map<string, int>, calls: seq<Call>, thread: string)
    requires interval > 0 && InOrder(calls) && calls != []
    requires thread in last ==> last[thread] <= calls[0].at
    ensures var span := calls[|calls| - 1].at - calls[0].at;
      Partials(interval, last, calls, thread) <= 1 + Resets(calls, thread) + span / interval
  {
    hide GateAfter, Partials, Resets, GateThrough;
    var span := calls[|calls| - 1].at - calls[0].at;
    PacedThrough(interval, last, calls, thread);
    var gate, sent := GateThrough(interval, last, calls), Partials(interval, last, calls, thread);
    var resets := Resets(calls, thread);
    if sent > 0 {
      assert Fits(sent - 1 - resets, interval, span) by {
        assert (sent - resets) * interval == (sent - 1 - resets) * interval + interval;
      }
      FitsMeans(sent - 1 - resets, interval, span);
    }
  }

  // ── which partials get through ────────────────────────────────────────

  /** What the `i`th of some messages puts out when no gate was shut before the first. */
  function Out(interval: int, calls: seq<Call>, i: nat): seq<Frame>
    requires i < |calls|
  {
    FramesFor(interval, GateThrough(interval, map[], calls[..i]), calls[i].msg, calls[i].at)
  }

  /** The `i`th message put out a partial of the thread, and no turn boundary of the thread came since. */
  ghost predicate Counts(interval: int, calls: seq<Call>, i: int, thread: string) {
    && 0 <= i < |calls| && calls[i].msg.thread == thread
    && (exists text, source :: Out(interval, calls, i) == [PartialText(thread, text, source)])
    && forall j | i < j < |calls| && calls[j].msg.thread == thread :: !Boundary(calls[j].msg)
  }

  /** Once a turn boundary reopened a thread's gate it stays open until that thread speaks. */
  lemma {:induction false} GateStaysOpen(interval: int, last: map<string, int>, calls: seq<Call>, thread: string)
    requires thread !in last
    requires forall i | 0 <= i < |calls| :: !(Spoken(calls[i].msg) && calls[i].msg.thread == thread)
    ensures thread !in GateThrough(interval, last, calls)
  {
    if calls != [] {
      GateStaysOpen(interval, last, calls[..|calls| - 1], thread);
    }
  }

  /** The first partial with text after a turn begins is always put out, whatever other threads do
      meanwhile and however soon it comes. */
  lemma FirstPartialPasses(interval: int, last: map<string, int>, thread: string, source: string, began: int,
                           between: seq<Call>, text: string, at: int)
    requires thread != "" && text != ""
    requires forall i | 0 <= i < |between| :: !(Spoken(between[i].msg) && between[i].msg.thread == thread)
    ensures var open := GateAfter(interval, last, Begin(thread, source), began);
      FramesFor(interval, GateThrough(interval, open, between), Partial(thread, text, source), at)
        == [PartialText(thread, text, source)]
  {
    GateStaysOpen(interval, GateAfter(interval, last, Begin(thread, source), began), between, thread);
  }

  lemma OutLater(interval: int, calls: seq<Call>, i: nat)
    requires i < |calls| - 1
    ensures Out(interval, calls[..|calls| - 1], i) == Out(interval, calls, i)
  {
    assert calls[..|calls| - 1][..i] == calls[..i];
  }

  /** What still counts when one more message was handled: itself, or what counted before it unless it is
      a boundary. */
  lemma CountsStep(interval: int, calls: seq<Call>, i: int, thread: string)
    requires calls != []
    ensures var last := calls[|calls| - 1].msg;
      Counts(interval, calls, i, thread) <==>
        if i == |calls| - 1
        then last.thread == thread && Spoken(last) && Out(interval, calls, i) != []
        else Counts(interval, calls[..|calls| - 1], i, thread) && !(last.thread == thread && Boundary(last))
  {
    hide GateThrough, FramesFor;
    if 0 <= i < |calls| - 1 {
      OutLater(interval, calls, i);
      var init := calls[..|calls| - 1];
      assert init[i] == calls[i] && forall j | i < j < |init| :: init[j] == calls[j];
    } else if i == |calls| - 1 {
      var last := calls[i].msg;
      if Spoken(last) && last.thread == thread && Out(interval, calls, i) != [] {
        assert Out(interval, calls, i) == [PartialText(thread, last.text, last.source)];
      }
    }
  }

  lemma NoneCounts(interval: int, thread: string)
    ensures forall i :: !Counts(interval, [], i, thread)
  {
  }

  /** What one message does to the gate of one thread. */
  lemma GateStep(interval: int, calls: seq<Call>, thread: string)
    requires interval > 0 && calls != []
    ensures var n, init := |calls| - 1, calls[..|calls| - 1];
      var call, before, after := calls[n], GateThrough(interval, map[], init), GateThrough(interval, map[], calls);
      if call.msg.thread == thread && Boundary(call.msg) then thread !in after
      else if call.msg.thread == thread && Spoken(call.msg) && Out(interval, calls, n) != []
      then thread in after && after[thread] == call.at && (thread in before ==> before[thread] <= call.at)
      else (thread in after <==> thread in before) && (thread in before ==> after[thread] == before[thread])
  {
  }

  /** The gate is shut by the partials that still count, from the latest of them on. */
  lemma {:induction false} GateTells(interval: int, calls: seq<Call>, thread: string)
    requires interval > 0
    ensures var gate := GateThrough(interval, map[], calls);
      && (thread in gate ==>
           exists i | 0 <= i < |calls| :: Counts(interval, calls, i, thread) && calls[i].at == gate[thread])
      && forall i | 0 <= i < |calls| && Counts(interval, calls, i, thread) ::
           thread in gate && calls[i].at <= gate[thread]
    decreases |calls|
  {
    if calls != [] {
      hide Counts, GateThrough, Out, Boundary, Spoken;
      var n, init := |calls| - 1, calls[..|calls| - 1];
      var before, after := GateThrough(interval, map[], init), GateThrough(interval, map[], calls);
      GateTells(interval, init, thread);
      GateStep(interval, calls, thread);
      forall i | 0 <= i < |calls| && Counts(interval, calls, i, thread)
        ensures thread in after && calls[i].at <= after[thread]
      {
        CountsStep(interval, calls, i, thread);
        assert i < n ==> init[i] == calls[i];
      }
      if thread in after {
        CountsStep(interval, calls, n, thread);
        if !Counts(interval, calls, n, thread) {
          var i :| 0 <= i < |init| && Counts(interval, init, i, thread) && init[i].at == before[thread];
          CountsStep(interval, calls, i, thread);
          assert calls[i] == init[i];
        }
      }
    }
  }

  /** In every run from an open gate a partial with text is dropped exactly if one of its thread was put out
      less than an interval before it, with no turn boundary of that thread in between; and else it is put
      out as it came. */
  lemma DroppedIff(interval: int, calls: seq<Call>, n: nat)
    requires n < |calls| && Spoken(calls[n].msg)
    ensures var call := calls[n];
      Out(interval, calls, n) ==
        if interval > 0
           && exists i | 0 <= i < n ::
                Counts(interval, calls[..n], i, call.msg.thread) && call.at - calls[i].at < interval
        then []
        else [PartialText(call.msg.thread, call.msg.text, call.msg.source)]
  {
    hide Counts, GateThrough;
    var before, thread := calls[..n], calls[n].msg.thread;
    if interval > 0 {
      GateTells(interval, before, thread);
      assert forall i | 0 <= i < n :: before[i] == calls[i];
    }
  }
}
