/** One session's queue with its drainers cut into single steps: the outbox lock covers a peek and a
    dequeue each on its own, never the send between them. */
module DrainRace {

  /** What a drainer holds between its peek and its dequeue: a message and its place among all queued. */
  datatype Hand<M> = Peeked(msg: M, place: nat) | Handed(msg: M, place: nat)

  datatype Step<M> = Enqueue(msg: M) | Peek(who: nat) | Send(who: nat) | Fail(who: nat) | Dequeue(who: nat)

  /** `queued` logs every message ever put in, `sent` every message that went out and `outs` its place. */
  datatype Queue<M> = Queue(waiting: seq<M>, queued: seq<M>, sent: seq<M>, outs: seq<nat>, hands: map<nat, Hand<M>>)

  function NewQueue<M>(): Queue<M> {
    Queue([], [], [], [], map[])
  }

  /** The place of the message at the head. */
  function Front<M>(q: Queue<M>): int {
    |q.queued| - |q.waiting|
  }

  predicate Enabled<M>(q: Queue<M>, s: Step<M>) {
    match s
    case Enqueue(_) => true
    case Peek(d) => d !in q.hands && |q.waiting| <= |q.queued|
    case Send(d) => d in q.hands && q.hands[d].Peeked?
    case Fail(d) => d in q.hands && q.hands[d].Peeked?
    case Dequeue(d) => d in q.hands && q.hands[d].Handed?
  }

  /** A dequeue takes whatever is at the head by then; it does not look at what was sent. */
  function Next<M>(q: Queue<M>, s: Step<M>): Queue<M>
    requires Enabled(q, s)
  {
    match s
    case Enqueue(m) => q.(waiting := q.waiting + [m], queued := q.queued + [m])
    case Peek(d) => if q.waiting == [] then q else q.(hands := q.hands[d := Peeked(q.waiting[0], Front(q))])
    case Send(d) =>
      var hand := q.hands[d];
      q.(sent := q.sent + [hand.msg], outs := q.outs + [hand.place],
         hands := q.hands[d := Handed(hand.msg, hand.place)])
    case Fail(d) => q.(hands := q.hands - {d})
    case Dequeue(d) => q.(waiting := if q.waiting == [] then [] else q.waiting[1..], hands := q.hands - {d})
  }

  ghost predicate Runs<M(!new)>(q: Queue<M>, steps: seq<Step<M>>, end: Queue<M>)
    decreases |steps|
  {
    if steps == [] then end == q
    else Enabled(q, steps[0]) && Runs(Next(q, steps[0]), steps[1..], end)
  }

  /** A send is timely if its message is still at the head and nobody has handed it over. */
  ghost predicate Timely<M(!new)>(q: Queue<M>, s: Step<M>)
    requires Enabled(q, s)
  {
    s.Send? ==>
      q.hands[s.who].place == Front(q) && forall e | e in q.hands && q.hands[e].Handed? :: q.hands[e].place != Front(q)
  }

  ghost predicate AllTimely<M(!new)>(q: Queue<M>, steps: seq<Step<M>>)
    decreases |steps|
  {
    steps != [] ==>
      Enabled(q, steps[0]) && Timely(q, steps[0]) && AllTimely(Next(q, steps[0]), steps[1..])
  }

  // ── what holds with any drainers ──────────────────────────────────────

  function Handing<M>(q: Queue<M>): set<nat> {
    set d | d in q.hands && q.hands[d].Handed?
  }

  /** The queue is what is left of everything queued; what is held or was sent is the message of its place. */
  ghost predicate Genuine<M(!new)>(q: Queue<M>) {
    && |q.waiting| <= |q.queued| && q.waiting == q.queued[Front(q)..]
    && (forall d | d in q.hands ::
          q.hands[d].place <= Front(q) && q.hands[d].place < |q.queued| && q.hands[d].msg == q.queued[q.hands[d].place])
    && |q.sent| == |q.outs|
    && (forall i | 0 <= i < |q.sent| :: q.outs[i] < |q.queued| && q.sent[i] == q.queued[q.outs[i]])
  }

  /** No message leaves the queue without some send having paid for it. */
  ghost predicate Paid<M(!new)>(q: Queue<M>) {
    |q.queued| + |Handing(q)| <= |q.sent| + |q.waiting|
  }

  /** What holds with no discipline at all. */
  ghost predicate Solvent<M(!new)>(q: Queue<M>) {
    Genuine(q) && Paid(q)
  }

  lemma StepKeepsGenuine<M(!new)>(q: Queue<M>, s: Step<M>)
    requires Genuine(q) && Enabled(q, s)
    ensures Genuine(Next(q, s))
  {
    var r := Next(q, s);
    if s.Enqueue? {
      assert r.queued[..|q.queued|] == q.queued;
    } else if s.Peek? && q.waiting != [] {
      assert q.waiting[0] == q.queued[Front(q)];
    }
  }

  lemma StepKeepsPaid<M(!new)>(q: Queue<M>, s: Step<M>)
    requires Paid(q) && Enabled(q, s)
    ensures Paid(Next(q, s))
  {
    var r := Next(q, s);
    if s.Send? {
      assert Handing(r) == Handing(q) + {s.who};
    } else if s.Dequeue? {
      assert Handing(r) == Handing(q) - {s.who} && s.who in Handing(q);
    } else {
      assert Handing(r) == Handing(q);
    }
  }

  lemma {:induction false} EveryRunIsSolvent<M(!new)>(q: Queue<M>, steps: seq<Step<M>>, end: Queue<M>)
    requires Solvent(q) && Runs(q, steps, end)
    ensures Solvent(end)
    decreases |steps|
  {
    if steps != [] {
      StepKeepsGenuine(q, steps[0]);
      StepKeepsPaid(q, steps[0]);
      EveryRunIsSolvent(Next(q, steps[0]), steps[1..], end);
    }
  }

  // ── timely sends, and only they, are exactly once ─────────────────────

  function UpTo(n: nat): seq<nat> {
    seq(n, i => i)
  }

  /** Every place up to the head went out once, in order; the head too if it has been handed over, by one. */
  ghost predicate Exactly<M(!new)>(q: Queue<M>) {
    && Genuine(q)
    && (forall d | d in q.hands && q.hands[d].Handed? :: q.hands[d].place == Front(q))
    && (forall d, e | d in q.hands && e in q.hands && q.hands[d].Handed? && q.hands[e].Handed? :: d == e)
    && q.outs == UpTo(Front(q) + if Handing(q) == {} then 0 else 1)
  }

  lemma SendKeeps<M(!new)>(q: Queue<M>, s: Step<M>)
    requires Exactly(q) && s.Send? && Enabled(q, s) && Timely(q, s)
    ensures Exactly(Next(q, s))
  {
    var r := Next(q, s);
    StepKeepsGenuine(q, s);
    hide Genuine;
    assert forall d | d in Handing(q) :: false;
    assert s.who in Handing(r);
  }

  lemma DequeueKeeps<M(!new)>(q: Queue<M>, s: Step<M>)
    requires Exactly(q) && s.Dequeue? && Enabled(q, s)
    ensures Exactly(Next(q, s))
  {
    var r := Next(q, s);
    StepKeepsGenuine(q, s);
    HeadWaits(q, s.who);
    hide Genuine;
    assert s.who in Handing(q);
    forall e ensures e !in Handing(r) {
      assert e in Handing(q) ==> e == s.who;
    }
  }

  lemma OtherHands<M(!new)>(q: Queue<M>, s: Step<M>)
    requires !s.Send? && !s.Dequeue? && Enabled(q, s) && |q.waiting| <= |q.queued|
    ensures var r := Next(q, s);
      && Front(r) == Front(q) && r.outs == q.outs
      && forall d :: (d in r.hands && r.hands[d].Handed? <==> d in q.hands && q.hands[d].Handed?)
                     && (d in r.hands && r.hands[d].Handed? ==> r.hands[d] == q.hands[d])
  {
  }

  lemma OtherKeeps<M(!new)>(q: Queue<M>, s: Step<M>)
    requires Exactly(q) && !s.Send? && !s.Dequeue? && Enabled(q, s)
    ensures Exactly(Next(q, s))
  {
    StepKeepsGenuine(q, s);
    OtherHands(q, s);
    hide Next, Genuine, UpTo;
    assert Handing(Next(q, s)) == Handing(q);
    hide Handing, Enabled;
  }

  lemma TimelyKeeps<M(!new)>(q: Queue<M>, s: Step<M>)
    requires Exactly(q) && Enabled(q, s) && Timely(q, s)
    ensures Exactly(Next(q, s))
  {
    hide Exactly, Next, Timely;
    if s.Send? {
      SendKeeps(q, s);
    } else if s.Dequeue? {
      DequeueKeeps(q, s);
    } else {
      OtherKeeps(q, s);
    }
  }

  lemma HeadWaits<M(!new)>(q: Queue<M>, d: nat)
    requires Genuine(q) && d in q.hands && q.hands[d].place == Front(q)
    ensures q.waiting != []
  {
  }

  ghost predicate Twice(outs: seq<nat>) {
    exists i, j | 0 <= i < j < |outs| :: outs[i] == outs[j]
  }

  /** The first send that is not timely puts a message out again. */
  lemma UntimelyRepeats<M(!new)>(q: Queue<M>, s: Step<M>)
    requires Exactly(q) && Enabled(q, s) && !Timely(q, s)
    ensures Twice(Next(q, s).outs)
  {
    var place := q.hands[s.who].place;
    if place == Front(q) {
      var e :| e in q.hands && q.hands[e].Handed? && q.hands[e].place == Front(q);
      assert e in Handing(q);
    }
    var outs := Next(q, s).outs;
    assert outs[place] == place == outs[|q.outs|];
  }

  /** What went out twice stays out twice. */
  lemma {:induction false} TwiceStays<M(!new)>(q: Queue<M>, steps: seq<Step<M>>, end: Queue<M>)
    requires Twice(q.outs) && Runs(q, steps, end)
    ensures Twice(end.outs)
    decreases |steps|
  {
    if steps != [] {
      var i, j :| 0 <= i < j < |q.outs| && q.outs[i] == q.outs[j];
      var outs := Next(q, steps[0]).outs;
      assert outs[i] == outs[j];
      TwiceStays(Next(q, steps[0]), steps[1..], end);
    }
  }

  lemma {:induction false} TimelyOrTwice<M(!new)>(q: Queue<M>, steps: seq<Step<M>>, end: Queue<M>)
    requires Exactly(q) && Runs(q, steps, end)
    ensures if AllTimely(q, steps) then Exactly(end) else Twice(end.outs)
    decreases |steps|
  {
    hide Exactly, Twice;
    if steps != [] {
      if Timely(q, steps[0]) {
        TimelyKeeps(q, steps[0]);
        TimelyOrTwice(Next(q, steps[0]), steps[1..], end);
      } else {
        UntimelyRepeats(q, steps[0]);
        TwiceStays(Next(q, steps[0]), steps[1..], end);
      }
    }
  }

  lemma NewIsExact<M(!new)>()
    ensures Exactly(NewQueue<M>())
  {
  }

  /** Over every run, with any drainers: at rest each message that left the queue went out once, in the order
      queued, and none that waits did, exactly if every send was timely. */
  lemma ExactlyIfTimely<M(!new)>(steps: seq<Step<M>>, end: Queue<M>)
    requires Runs(NewQueue(), steps, end) && end.hands == map[]
    ensures Front(end) >= 0
    ensures AllTimely(NewQueue(), steps) <==> end.outs == UpTo(Front(end))
  {
    NewIsExact<M>();
    TimelyOrTwice(NewQueue(), steps, end);
    assert Genuine(end) by { EveryRunIsSolvent(NewQueue(), steps, end); }
    assert Handing(end) == {};
  }

  /** In messages: timely sends keep what was sent, then what waits, equal to what was queued; and when no
      message was queued twice nothing else does. */
  lemma TimelyInMessages<M(!new)>(steps: seq<Step<M>>, end: Queue<M>)
    requires Runs(NewQueue(), steps, end) && end.hands == map[]
    ensures AllTimely(NewQueue(), steps) ==> end.sent + end.waiting == end.queued
    ensures (forall i, j | 0 <= i < j < |end.queued| :: end.queued[i] != end.queued[j]) ==>
      (end.sent + end.waiting == end.queued <==> AllTimely(NewQueue(), steps))
  {
    NewIsExact<M>();
    TimelyOrTwice(NewQueue(), steps, end);
    EveryRunIsSolvent(NewQueue(), steps, end);
    assert Handing(end) == {};
    if AllTimely(NewQueue(), steps) {
      assert end.sent == end.queued[..Front(end)];
    } else {
      var i, j :| 0 <= i < j < |end.outs| && end.outs[i] == end.outs[j];
      assert end.sent[i] == end.sent[j];
      assert (end.sent + end.waiting)[i] == (end.sent + end.waiting)[j];
    }
  }

  /** At every moment of a timely run what was sent is a prefix of what was queued. */
  lemma TimelyIsPrefix<M(!new)>(steps: seq<Step<M>>, end: Queue<M>)
    requires Runs(NewQueue(), steps, end) && AllTimely(NewQueue(), steps)
    ensures end.sent <= end.queued
  {
    NewIsExact<M>();
    TimelyOrTwice(NewQueue(), steps, end);
    assert end.sent == end.queued[..|end.sent|];
  }

  // ── one drainer at a time ─────────────────────────────────────────────

  /** At most one drainer between its peek and its dequeue at any time. */
  ghost predicate Alone<M(!new)>(q: Queue<M>, steps: seq<Step<M>>)
    decreases |steps|
  {
    && (forall d, e | d in q.hands && e in q.hands :: d == e)
    && (steps != [] ==> Enabled(q, steps[0]) && Alone(Next(q, steps[0]), steps[1..]))
  }

  lemma {:induction false} AloneIsTimely<M(!new)>(q: Queue<M>, steps: seq<Step<M>>)
    requires Alone(q, steps) && |q.waiting| <= |q.queued| && forall d | d in q.hands :: q.hands[d].place == Front(q)
    ensures AllTimely(q, steps)
    decreases |steps|
  {
    if steps != [] {
      AloneIsTimely(Next(q, steps[0]), steps[1..]);
    }
  }

  /** One drainer at a time is enough: every message goes out exactly once, in order, or still waits. */
  lemma ExactlyOnce<M(!new)>(steps: seq<Step<M>>, end: Queue<M>)
    requires Runs(NewQueue(), steps, end) && Alone(NewQueue(), steps) && end.hands == map[]
    ensures end.sent + end.waiting == end.queued
  {
    AloneIsTimely(NewQueue(), steps);
    TimelyInMessages(steps, end);
  }

  // ── a collision ───────────────────────────────────────────────────────

  /** Two drainers that both peek before either dequeues. */
  function Collision<M>(a: nat, b: nat): seq<Step<M>> {
    [Peek(a), Peek(b), Send(a), Send(b), Dequeue(a), Dequeue(b)]
  }

  /** From every state at rest with two messages waiting, that run sends the first twice and the second
      never. */
  lemma CollisionLoses<M(!new)>(q: Queue<M>, a: nat, b: nat) returns (end: Queue<M>)
    requires Genuine(q) && q.hands == map[] && |q.waiting| >= 2 && a != b
    ensures Runs(q, Collision(a, b), end)
    ensures end.sent == q.sent + [q.waiting[0], q.waiting[0]] && end.waiting == q.waiting[2..]
    ensures end.queued == q.queued && end.hands == map[]
  {
    var steps := Collision<M>(a, b);
    var q1 := Next(q, steps[0]);
    var q2 := Next(q1, steps[1]);
    var q3 := Next(q2, steps[2]);
    var q4 := Next(q3, steps[3]);
    var q5 := Next(q4, steps[4]);
    end := Next(q5, steps[5]);
    assert end.hands == map[];
    assert Runs(end, steps[6..], end);
    assert steps[5..][1..] == steps[6..] && Runs(q5, steps[5..], end);
    assert steps[4..][1..] == steps[5..] && Runs(q4, steps[4..], end);
    assert steps[3..][1..] == steps[4..] && Runs(q3, steps[3..], end);
    assert steps[2..][1..] == steps[3..] && Runs(q2, steps[2..], end);
    assert steps[1..][1..] == steps[2..] && Runs(q1, steps[1..], end);
  }
}
