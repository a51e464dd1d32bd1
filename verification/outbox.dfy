/** The per-session pending queues, held in memory: files, their faults and crash recovery are not modelled. */
module OutboxQueues {
  import opened Wire
  import Text

  datatype Message = Message(
    id: string,
    sid: string,
    thread: string,
    text: string,
    at: int,
    attempts: nat,
    lastError: string)

  // ── which file a session id names ─────────────────────────────────────

  function StripSlashes(p: string): string {
    if p != "" && p[|p| - 1] == '/' then StripSlashes(p[..|p| - 1]) else p
  }

  function AfterLastSlash(p: string): string {
    if p == "" then "" else if p[|p| - 1] == '/' then "" else AfterLastSlash(p[..|p| - 1]) + [p[|p| - 1]]
  }

  /** The last element of a slash-separated path. */
  function Base(p: string): string {
    if p == "" then "."
    else if StripSlashes(p) == "" then "/"
    else AfterLastSlash(StripSlashes(p))
  }

  /** The queue a session id is filed under; an id that names no file has none. */
  datatype QueueKey = NoFile | File(name: string)

  function KeyOf(sid: string): QueueKey {
    var safe := Base(sid);
    if safe == "" || safe == "." then NoFile else File(safe)
  }

  /** The id a queue's file name gives back when the directory is listed. */
  function ListedID(key: string): string {
    if key == "/" then "" else key
  }

  lemma {:induction false} PlainBase(sid: string)
    requires sid != "" && '/' !in sid
    ensures AfterLastSlash(sid) == sid && StripSlashes(sid) == sid
    decreases |sid|
  {
    var init, last := sid[..|sid| - 1], sid[|sid| - 1];
    assert sid == init + [last] && last in sid;
    if init != "" {
      assert forall c | c in init :: c in sid;
      PlainBase(init);
    }
  }

  /** Ids without separators are filed each under itself, so no two of them share a queue. */
  lemma PlainKey(sid: string)
    requires '/' !in sid
    ensures KeyOf(sid) == if sid == "" || sid == "." then NoFile else File(sid)
  {
    if sid != "" {
      PlainBase(sid);
    }
  }

  // ── queue contents ────────────────────────────────────────────────────

  predicate Sendable(m: Message) {
    m.sid != "" && Text.TrimSpace(m.text) != ""
  }

  /** What reading a queue back keeps of it. */
  function Normalize(rows: seq<Message>, now: int): seq<Message> {
    if rows == [] then []
    else
      var rest := Normalize(rows[..|rows| - 1], now);
      var m := rows[|rows| - 1];
      if !Sendable(m) then rest else rest + [if m.at == 0 then m.(at := now) else m]
  }

  function Texts(rows: seq<Message>): seq<string> {
    seq(|rows|, i requires 0 <= i < |rows| => rows[i].text)
  }

  lemma {:induction false} NormalizeKeepsTexts(rows: seq<Message>, now: int)
    requires forall m | m in rows :: Sendable(m)
    ensures Texts(Normalize(rows, now)) == Texts(rows)
    ensures forall m | m in Normalize(rows, now) :: Sendable(m)
  {
    if rows != [] {
      var last := rows[|rows| - 1];
      assert last in rows;
      NormalizeKeepsTexts(rows[..|rows| - 1], now);
      assert Texts(rows) == Texts(rows[..|rows| - 1]) + [last.text];
    }
  }

  /** Reading back goes message by message: one without a session or with a blank text is gone, one without a
      date gets one, and the others are as they were, in their order. */
  lemma {:induction false} NormalizeIs(before: seq<Message>, m: Message, after: seq<Message>, now: int)
    ensures Normalize(before + [m] + after, now) ==
      Normalize(before, now)
      + (if m.sid == "" || Text.TrimSpace(m.text) == "" then [] else [m.(at := if m.at == 0 then now else m.at)])
      + Normalize(after, now)
    decreases |after|
  {
    hide Text.TrimSpace;
    var rows := before + [m] + after;
    if after == [] {
      assert rows[..|rows| - 1] == before && rows == before + [m];
    } else {
      var init, last := after[..|after| - 1], after[|after| - 1];
      NormalizeIs(before, m, init, now);
      assert rows[..|rows| - 1] == before + [m] + init && rows[|rows| - 1] == last;
    }
  }

  /** A failed attempt noted on the first message with that id. */
  function Noted(rows: seq<Message>, messageID: string, error: string): seq<Message> {
    if rows == [] then []
    else if rows[0].id == messageID then [rows[0].(attempts := rows[0].attempts + 1, lastError := error)] + rows[1..]
    else [rows[0]] + Noted(rows[1..], messageID, error)
  }

  lemma {:induction false} NotedAt(rows: seq<Message>, messageID: string, error: string, i: nat)
    requires i < |rows| && rows[i].id == messageID && forall j | 0 <= j < i :: rows[j].id != messageID
    ensures Noted(rows, messageID, error) == rows[i := rows[i].(attempts := rows[i].attempts + 1, lastError := error)]
  {
    if i > 0 {
      NotedAt(rows[1..], messageID, error, i - 1);
      assert rows == [rows[0]] + rows[1..];
    }
  }

  /** What an enqueued message is stored as. */
  function Filled(msg: Message, freshID: string, now: int): Message {
    msg.(id := if msg.id == "" then freshID else msg.id, at := if msg.at == 0 then now else msg.at)
  }

  class Outbox {
    var queues: map<string, seq<Message>>

    /** No queue is stored empty, and every stored message survives being read back. */
    ghost predicate Valid()
      reads this
    {
      forall k | k in queues :: queues[k] != [] && forall m | m in queues[k] :: Sendable(m)
    }

    ghost function Waiting(key: QueueKey): seq<string>
      reads this
    {
      if key.File? && key.name in queues then Texts(queues[key.name]) else []
    }

    /** The messages of a queue as read back at `now`. */
    function Rows(key: QueueKey, now: int): seq<Message>
      reads this
    {
      Normalize(if key.File? && key.name in queues then queues[key.name] else [], now)
    }

    constructor ()
      ensures Valid() && queues == map[]
    {
      queues := map[];
    }

    /** Drops the unusable rows and stamps the undated ones, compacting in place. */
    method ReadQueue(key: string, now: int) returns (rows: seq<Message>)
      requires Valid()
      ensures rows == Rows(File(key), now)
      ensures Texts(rows) == Waiting(File(key)) && forall m | m in rows :: Sendable(m)
    {
      var stored := if key in queues then queues[key] else [];
      rows := [];
      var i := 0;
      while i < |stored|
        invariant 0 <= i <= |stored| && rows == Normalize(stored[..i], now)
      {
        assert stored[..i + 1][..i] == stored[..i];
        var m := stored[i];
        if m.sid != "" && Text.TrimSpace(m.text) != "" {
          rows := rows + [if m.at == 0 then m.(at := now) else m];
        }
        i := i + 1;
      }
      assert stored[..i] == stored;
      NormalizeKeepsTexts(stored, now);
    }

    method WriteQueue(key: string, rows: seq<Message>)
      requires Valid() && forall m | m in rows :: Sendable(m)
      modifies this
      ensures queues == if rows == [] then old(queues) - {key} else old(queues)[key := rows]
      ensures Valid() && Waiting(File(key)) == Texts(rows)
      ensures forall k | k != File(key) :: Waiting(k) == old(Waiting(k))
    {
      if rows == [] {
        queues := queues - {key};
      } else {
        queues := queues[key := rows];
      }
    }

    /** Appends to the session's queue; false when the id names none. */
    method Enqueue(msg: Message, freshID: string, now: int) returns (ok: bool)
      requires Valid() && Text.TrimSpace(msg.text) != ""
      modifies this
      ensures Valid() && ok == (msg.sid != "" && KeyOf(msg.sid).File?)
      ensures queues ==
        if ok then old(queues)[KeyOf(msg.sid).name := old(Rows(KeyOf(msg.sid), now)) + [Filled(msg, freshID, now)]]
        else old(queues)
      ensures ok ==> Waiting(KeyOf(msg.sid)) == old(Waiting(KeyOf(msg.sid))) + [msg.text]
      ensures forall k | !ok || k != KeyOf(msg.sid) :: Waiting(k) == old(Waiting(k))
    {
      if msg.sid == "" {
        return false;
      }
      var m := msg.(id := if msg.id == "" then freshID else msg.id, at := if msg.at == 0 then now else msg.at);
      var key := KeyOf(m.sid);
      if key.NoFile? {
        return false;
      }
      var rows := ReadQueue(key.name, now);
      WriteQueue(key.name, rows + [m]);
      assert Texts(rows + [m]) == Texts(rows) + [m.text];
      return true;
    }

    method Dequeue(sid: string, now: int) returns (msg: Option<Message>)
      requires Valid()
      modifies this
      ensures Valid() && forall k | k != KeyOf(sid) :: Waiting(k) == old(Waiting(k))
      ensures if old(Waiting(KeyOf(sid))) == [] then msg == None && Waiting(KeyOf(sid)) == []
              else msg.Some? && [msg.value.text] + Waiting(KeyOf(sid)) == old(Waiting(KeyOf(sid)))
      ensures var rows := old(Rows(KeyOf(sid), now));
        if rows == [] then msg == None && queues == old(queues)
        else
          msg == Some(rows[0])
          && queues ==
               if |rows| == 1 then old(queues) - {KeyOf(sid).name} else old(queues)[KeyOf(sid).name := rows[1..]]
    {
      var key := KeyOf(sid);
      if key.NoFile? {
        return None;
      }
      var rows := ReadQueue(key.name, now);
      if rows == [] {
        assert Texts(rows) == [];
        return None;
      }
      WriteQueue(key.name, rows[1..]);
      assert Texts(rows) == [rows[0].text] + Texts(rows[1..]);
      return Some(rows[0]);
    }

    method Peek(sid: string, now: int) returns (msg: Option<Message>)
      requires Valid()
      ensures msg == if Rows(KeyOf(sid), now) == [] then None else Some(Rows(KeyOf(sid), now)[0])
      ensures msg.Some? <==> Waiting(KeyOf(sid)) != []
      ensures msg.Some? ==> KeyOf(sid).File? && msg.value.text == Waiting(KeyOf(sid))[0]
    {
      var key := KeyOf(sid);
      if key.NoFile? {
        return None;
      }
      var rows := ReadQueue(key.name, now);
      if rows == [] {
        return None;
      }
      return Some(rows[0]);
    }

    method Count(sid: string, now: int) returns (n: nat)
      requires Valid()
      ensures n == |Waiting(KeyOf(sid))|
    {
      var key := KeyOf(sid);
      if key.NoFile? {
        return 0;
      }
      var rows := ReadQueue(key.name, now);
      return |rows|;
    }

    /** Notes a failed attempt on the first queued message with that id; no text moves. */
    method MarkAttempt(sid: string, messageID: string, error: string, now: int)
      requires Valid()
      modifies this
      ensures Valid() && forall k :: Waiting(k) == old(Waiting(k))
      ensures var rows := old(Rows(KeyOf(sid), now));
        queues ==
          if sid != "" && messageID != "" && exists m | m in rows :: m.id == messageID
          then old(queues)[KeyOf(sid).name := Noted(rows, messageID, error)]
          else old(queues)
    {
      var key := KeyOf(sid);
      if sid == "" || messageID == "" || key.NoFile? {
        return;
      }
      var rows := ReadQueue(key.name, now);
      var i := 0;
      while i < |rows|
        invariant 0 <= i <= |rows| && forall j | 0 <= j < i :: rows[j].id != messageID
      {
        if rows[i].id == messageID {
          NotedAt(rows, messageID, error, i);
          var noted := rows[i := rows[i].(attempts := rows[i].attempts + 1, lastError := error)];
          assert Texts(noted) == Texts(rows);
          assert forall m | m in noted :: m in rows || (Sendable(rows[i]) && m == noted[i]);
          WriteQueue(key.name, noted);
          return;
        }
        i := i + 1;
      }
    }

    method ListPendingIDs() returns (ids: set<string>)
      ensures ids == set k | k in queues :: ListedID(k)
    {
      ids := set k | k in queues :: ListedID(k);
    }
  }
}
