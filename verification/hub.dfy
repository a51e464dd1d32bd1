/** The hub in place: clients come and go, each broadcast is journaled, then handed to every client, then
    mirrored; a subscriber is replayed the journal. */
module SinkHub {
  import opened Wire
  import opened Journal
  import HistoryStore
  import CloudBridge
  import Mirror

  class Client {
    var pending: nat
    var open: bool
    var handed: seq<Item>

    constructor ()
      ensures pending == 0 && open && handed == []
    {
      pending, open, handed := 0, true, [];
    }

    /** The client as the Journal machine has it, with the given place in its history. */
    ghost function View(base: Journal.Client): Journal.Client
      reads this
    {
      base.(open := open, pending := pending, handed := handed)
    }

    /** Never blocks: a full queue closes the client. */
    method Enqueue(item: Item)
      modifies this
      ensures forall base :: View(base) == Journal.Enqueue(old(View(base)), item)
      ensures old(pending) < 64 ==>
        handed == old(handed) + [item] && pending == old(pending) + 1 && open == old(open)
      ensures old(pending) >= 64 ==> handed == old(handed) && pending == old(pending) && !open
    {
      if pending < SEND_QUEUE_DEPTH {
        pending := pending + 1;
        handed := handed + [item];
      } else {
        open := false;
      }
    }

    method Close()
      modifies this`open
      ensures !open
    {
      open := false;
    }
  }

  /** Several items enqueued one after the other. */
  function EnqueueAll(c: Journal.Client, items: seq<Item>): Journal.Client {
    if items == [] then c else Journal.Enqueue(EnqueueAll(c, items[..|items| - 1]), items[|items| - 1])
  }

  /** A client that is still open after a run of items was handed every one of them. */
  lemma {:induction false} OpenMeansHanded(c: Journal.Client, items: seq<Item>)
    ensures EnqueueAll(c, items).open ==> c.open
    ensures c.open && EnqueueAll(c, items).open ==> EnqueueAll(c, items).handed == c.handed + items
  {
    if items == [] {
      assert c.handed + items == c.handed;
    } else {
      OpenMeansHanded(c, items[..|items| - 1]);
      assert items == items[..|items| - 1] + [items[|items| - 1]];
    }
  }

  /** The rows a replay pushes: all of them, unless the relay is being debugged. */
  function Pushed(rows: seq<Item>, relayDebug: bool): seq<Item> {
    if rows == [] then []
    else
      var last := rows[|rows| - 1];
      Pushed(rows[..|rows| - 1], relayDebug) + (if Held(last, relayDebug) then [] else [last])
  }

  lemma {:induction false} AllPushed(rows: seq<Item>)
    ensures Pushed(rows, false) == rows
  {
    if rows != [] {
      AllPushed(rows[..|rows| - 1]);
    }
  }

  class Hub {
    var clients: set<Client>
    var relayDebug: bool
    const journal: HistoryStore.Store
    const bridge: CloudBridge.Bridge

    constructor (journal: HistoryStore.Store, bridge: CloudBridge.Bridge)
      ensures clients == {} && !relayDebug && this.journal == journal && this.bridge == bridge
    {
      this.journal, this.bridge := journal, bridge;
      clients, relayDebug := {}, false;
    }

    method Register(c: Client)
      modifies this`clients
      ensures clients == old(clients) + {c}
    {
      clients := clients + {c};
    }

    method Unregister(c: Client)
      modifies this`clients, c`open
      ensures clients == old(clients) - {c} && !c.open
    {
      clients := clients - {c};
      c.Close();
    }

    /** Every client registered now, but for `except`, gets the item. */
    method Fanout(except: set<Client>, item: Item)
      modifies clients
      ensures forall c, base | c in clients ::
        c.View(base) == if c in except then old(c.View(base)) else Journal.Enqueue(old(c.View(base)), item)
    {
      var targets := clients - except;
      while targets != {}
        invariant targets <= clients - except
        invariant forall c, base | c in clients ::
          c.View(base) ==
            if c in except || c in targets then old(c.View(base)) else Journal.Enqueue(old(c.View(base)), item)
        decreases |targets|
      {
        var c :| c in targets;
        targets := targets - {c};
        c.Enqueue(item);
      }
    }

    /** Journal first, then every client, then the mirror; a failed append is pushed all the same. */
    method Broadcast(b: Wire.Broadcast, now: int, stored: bool)
      requires journal.Valid() && bridge.Valid()
      modifies clients, journal, bridge
      ensures journal.Valid() && bridge.Valid()
      ensures journal.log ==
        if stored then old(journal.log) + [b.(at := if b.at == 0 then now else b.at)] else old(journal.log)
      ensures relayDebug && b.typ in {ThreadIdle, ThreadBusy, ThreadStarted, ThreadEnded} ==>
        bridge.out == old(bridge.out) && forall c, base | c in clients :: c.View(base) == old(c.View(base))
      ensures !(relayDebug && b.typ in {ThreadIdle, ThreadBusy, ThreadStarted, ThreadEnded}) ==>
        && bridge.View() == Mirror.MirrorOne(old(bridge.View()), HistoryStore.Dated(b, now), Mirror.BRIDGE_DEPTH)
        && forall c, base | c in clients ::
             c.View(base) == Journal.Enqueue(old(c.View(base)),
               if stored then RowAt(journal.log, |journal.log|) else Other)
    {
      var d := HistoryStore.Dated(b, now);
      var num := journal.Append(d, now, stored);
      if relayDebug && AutoRelayed(b.typ) {
        return;
      }
      Fanout({}, if stored then Row(num, d) else Other);
      var kept := bridge.Mirror(d);
    }

    /** Hands one client the journal above its cursor. */
    method ReplayJournal(to: Client, after: int)
      modifies to
      ensures forall base ::
        to.View(base) == EnqueueAll(old(to.View(base)), Pushed(Journal.ReplayAfter(journal.log, after), relayDebug))
      ensures !relayDebug && to.open ==> to.handed == old(to.handed) + Journal.ReplayAfter(journal.log, after)
    {
      var rows := journal.ReplayAfter(after);
      var i := 0;
      while i < |rows|
        invariant 0 <= i <= |rows|
        invariant forall base :: to.View(base) == EnqueueAll(old(to.View(base)), Pushed(rows[..i], relayDebug))
      {
        assert rows[..i + 1][..i] == rows[..i];
        ghost var pushed := Pushed(rows[..i], relayDebug);
        assert (pushed + [rows[i]])[..|pushed|] == pushed;
        assert pushed + [] == pushed;
        if !Held(rows[i], relayDebug) {
          to.Enqueue(rows[i]);
        }
        i := i + 1;
      }
      assert rows[..i] == rows;
      if !relayDebug && to.open {
        AllPushed(rows);
        ghost var base := Journal.Client(true, true, 0, [], 0, map[]);
        OpenMeansHanded(old(to.View(base)), rows);
      }
    }
  }
}
