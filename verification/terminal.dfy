/** The headless relay answers terminal capability queries found in an agent's output, read by read.
    However the output is cut into reads, the answers are those of the whole stream. One char is one byte. */
module Terminal {

  datatype Capability = Capability(query: string, reply: string)

  const ESC := '\U{1B}'

  /** Device attributes and status reports: sections 8.3.24 and 8.3.35 of ECMA-48, and XTVERSION. */
  const CAPABILITY_REPLIES: seq<Capability> := [
    Capability([ESC] + "[>0q", [ESC] + "P>|ambient-link-relay" + [ESC] + "\\"),
    Capability([ESC] + "[>0c", [ESC] + "[>0;276;0c"),
    Capability([ESC] + "[>c", [ESC] + "[>0;276;0c"),
    Capability([ESC] + "[0c", [ESC] + "[?1;2c"),
    Capability([ESC] + "[c", [ESC] + "[?1;2c"),
    Capability([ESC] + "[5n", [ESC] + "[0n"),
    Capability([ESC] + "[6n", [ESC] + "[1;1R")
  ]

  const KEEP := 8

  // ── what should be answered ───────────────────────────────────────────

  predicate Matches(s: string, k: nat) {
    k < |CAPABILITY_REPLIES| && CAPABILITY_REPLIES[k].query <= s
  }

  ghost predicate Hit(s: string) {
    exists k :: Matches(s, k)
  }

  /** The query at the front of `s`. */
  ghost function At(s: string): (k: nat)
    requires Hit(s)
    ensures Matches(s, k)
  {
    var k :| Matches(s, k);
    k
  }

  /** One reply for every position of the stream where a query begins, in stream order. */
  ghost function Owed(s: string): seq<string> {
    if s == "" then []
    else (if Hit(s) then [CAPABILITY_REPLIES[At(s)].reply] else []) + Owed(s[1..])
  }

  /** No query begins anywhere in `s`. */
  ghost predicate Quiet(s: string) {
    forall i | 0 <= i <= |s| :: !Hit(s[i..])
  }

  // ── the shape of the queries ──────────────────────────────────────────

  /** ESC comes first and only first; no query is longer than five bytes or a prefix of another. */
  lemma QueryShape(k: nat)
    requires k < |CAPABILITY_REPLIES|
    ensures 3 <= |CAPABILITY_REPLIES[k].query| <= 5 && CAPABILITY_REPLIES[k].query[0] == ESC
    ensures forall i | 0 < i < |CAPABILITY_REPLIES[k].query| :: CAPABILITY_REPLIES[k].query[i] != ESC
  {
  }

  lemma PrefixFree(s: string, j: nat, k: nat)
    requires Matches(s, j) && Matches(s, k)
    ensures j == k
  {
    QueryShape(j);
    QueryShape(k);
    assert s[2] == CAPABILITY_REPLIES[j].query[2] == CAPABILITY_REPLIES[k].query[2];
    assert |CAPABILITY_REPLIES[j].query| > 3 ==> s[3] == CAPABILITY_REPLIES[j].query[3];
    assert |CAPABILITY_REPLIES[k].query| > 3 ==> s[3] == CAPABILITY_REPLIES[k].query[3];
    assert |CAPABILITY_REPLIES[j].query| > 4 ==> s[4] == CAPABILITY_REPLIES[j].query[4];
    assert |CAPABILITY_REPLIES[k].query| > 4 ==> s[4] == CAPABILITY_REPLIES[k].query[4];
  }

  // ── scanning ──────────────────────────────────────────────────────────

  lemma HitIsLocal(s: string, c: string)
    requires |s| >= 5
    ensures Hit(s + c) <==> Hit(s)
  {
    forall k: nat | k < |CAPABILITY_REPLIES| ensures Matches(s + c, k) <==> Matches(s, k) {
      QueryShape(k);
    }
  }

  /** Nothing begins inside a query. */
  lemma InsideQuery(s: string, k: nat, n: nat)
    requires Matches(s, k) && 0 < n < |CAPABILITY_REPLIES[k].query|
    ensures !Hit(s[n..])
  {
    QueryShape(k);
    assert s[n..][0] == CAPABILITY_REPLIES[k].query[n] != ESC;
    forall j: nat | j < |CAPABILITY_REPLIES| ensures !Matches(s[n..], j) {
      QueryShape(j);
    }
  }

  lemma {:induction false} SkipQuery(s: string, k: nat, n: nat)
    requires Matches(s, k) && 0 < n <= |CAPABILITY_REPLIES[k].query|
    ensures Owed(s[n..]) == Owed(s[|CAPABILITY_REPLIES[k].query|..])
    decreases |s| - n
  {
    hide Hit;
    if n < |CAPABILITY_REPLIES[k].query| {
      InsideQuery(s, k, n);
      assert s[n..][1..] == s[n + 1..];
      SkipQuery(s, k, n + 1);
    }
  }

  /** The replies up to and with the first query come before those of the rest. */
  lemma {:induction false} CutAtFirst(s: string, i: nat, k: nat, c: string)
    requires i <= |s| && Matches(s[i..], k)
    requires forall j | 0 <= j < i :: !Hit(s[j..])
    ensures i + |CAPABILITY_REPLIES[k].query| <= |s|
    ensures Owed(s + c) == [CAPABILITY_REPLIES[k].reply] + Owed(s[i + |CAPABILITY_REPLIES[k].query|..] + c)
    decreases i
  {
    var q := CAPABILITY_REPLIES[k].query;
    QueryShape(k);
    if i == 0 {
      assert s[0..] == s && Matches(s + c, k) && Hit(s + c);
      PrefixFree(s + c, k, At(s + c));
      SkipQuery(s + c, k, 1);
      assert (s + c)[|q|..] == s[|q|..] + c;
    } else {
      assert s[0..] == s;
      assert (s + c)[i] == s[i..][0] == ESC;
      forall j: nat | j < |CAPABILITY_REPLIES| ensures !Matches(s + c, j) {
        QueryShape(j);
        assert !Matches(s, j);
      }
      assert (s + c)[1..] == s[1..] + c;
      forall j | 0 <= j < i - 1 ensures !Hit(s[1..][j..]) {
        assert s[1..][j..] == s[j + 1..];
      }
      assert s[1..][i - 1..] == s[i..];
      CutAtFirst(s[1..], i - 1, k, c);
      assert s[1..][i - 1 + |q|..] == s[i + |q|..];
    }
  }

  lemma {:induction false} QuietOwesNothing(s: string)
    requires Quiet(s)
    ensures Owed(s) == []
  {
    if s != "" {
      assert s[0..] == s;
      QuietTail(s, 1);
      QuietOwesNothing(s[1..]);
    }
  }

  lemma QuietTail(s: string, n: nat)
    requires Quiet(s) && n <= |s|
    ensures Quiet(s[n..])
  {
    forall i | 0 <= i <= |s[n..]| ensures !Hit(s[n..][i..]) {
      assert s[n..][i..] == s[n + i..];
    }
  }

  /** Four bytes of a quiet stretch hold all of it that a later query could still need. */
  lemma {:induction false} TailIsEnough(s: string, c: string, keep: nat)
    requires Quiet(s) && 4 <= keep <= |s|
    ensures Owed(s + c) == Owed(s[|s| - keep..] + c)
    decreases |s|
  {
    if |s| == keep {
      assert s[0..] == s;
    } else {
      assert s[0..] == s;
      HitIsLocal(s, c);
      assert (s + c)[1..] == s[1..] + c;
      QuietTail(s, 1);
      TailIsEnough(s[1..], c, keep);
      assert s[1..][|s| - 1 - keep..] == s[|s| - keep..];
    }
  }

  lemma {:induction false} NoEscape(s: string)
    requires ESC !in s
    ensures Quiet(s)
  {
    forall i | 0 <= i <= |s| ensures !Hit(s[i..]) {
      forall k: nat | k < |CAPABILITY_REPLIES| ensures !Matches(s[i..], k) {
        QueryShape(k);
        assert i < |s| ==> s[i] in s;
      }
    }
  }

  /** Fewer do not: the version query cut before its last byte would go unanswered. */
  lemma ShorterTailLoses(keep: nat) returns (s: string, c: string)
    requires keep < 4
    ensures Quiet(s) && keep < |s| && Owed(s + c) != Owed(s[|s| - keep..] + c)
  {
    s, c := [ESC] + "[>0", "q";
    assert !Hit(s) by {
      forall k: nat | k < |CAPABILITY_REPLIES| ensures !Matches(s, k) {
        CutQuery(k, s);
      }
    }
    NoEscape(s[1..]);
    forall i | 0 <= i <= |s| ensures !Hit(s[i..]) {
      assert i > 0 ==> s[i..] == s[1..][i - 1..];
      assert i == 0 ==> s[i..] == s;
    }
    assert s + c == CAPABILITY_REPLIES[0].query && Matches(s + c, 0);
    assert Owed(s + c) != [];
    NoEscape(s[|s| - keep..] + c);
    QuietOwesNothing(s[|s| - keep..] + c);
  }

  lemma CutQuery(k: nat, s: string)
    requires k < |CAPABILITY_REPLIES| && s == [ESC] + "[>0"
    ensures !Matches(s, k)
  {
    var q := CAPABILITY_REPLIES[k].query;
    assert |q| == 3 ==> q[2] == 'c';
    assert |q| == 4 ==> q[2] != '>' || q[3] != '0';
    assert s[2] == '>' && s[3] == '0';
  }

  /** Where `sub` first occurs, or -1. */
  method IndexFrom(s: string, sub: string) returns (r: int)
    ensures r == -1 || 0 <= r <= |s| - |sub|
    ensures r >= 0 ==> sub <= s[r..] && forall j | 0 <= j < r :: !(sub <= s[j..])
    ensures r == -1 ==> forall j | 0 <= j <= |s| :: !(sub <= s[j..])
  {
    var i := 0;
    while i + |sub| <= |s|
      invariant 0 <= i
      invariant forall j | 0 <= j < i && j <= |s| :: !(sub <= s[j..])
    {
      if s[i..i + |sub|] == sub {
        assert s[i..][..|sub|] == sub;
        return i;
      }
      assert s[i..][..|sub|] == s[i..i + |sub|];
      i := i + 1;
    }
    return -1;
  }

  lemma NoneBefore(s: string, i: nat)
    requires i <= |s| && forall q, j | 0 <= q < |CAPABILITY_REPLIES| && 0 <= j < i :: !Matches(s[j..], q)
    ensures forall j | 0 <= j < i :: !Hit(s[j..])
  {
  }

  /** Writes the replies owed for `data` and hands back a short tail: whatever comes next, what is owed for
      the whole is what was written and then what is owed for the tail and the rest. */
  method AnswerQueries(data: string) returns (written: seq<string>, tail: string)
    ensures |tail| <= KEEP && |tail| <= |data| && tail == data[|data| - |tail|..] && Quiet(tail)
    ensures forall c :: Owed(data + c) == written + Owed(tail + c)
  {
    var s := data;
    written := [];
    while true
      invariant |s| <= |data| && s == data[|data| - |s|..]
      invariant forall c :: Owed(data + c) == written + Owed(s + c)
      decreases |s|
    {
      var idx, found := -1, 0;
      var k := 0;
      while k < |CAPABILITY_REPLIES|
        invariant 0 <= k <= |CAPABILITY_REPLIES|
        invariant idx == -1 || (0 <= idx <= |s| && Matches(s[idx..], found))
        invariant forall q, j | 0 <= q < k && 0 <= j <= |s| && (idx == -1 || j < idx) :: !Matches(s[j..], q)
      {
        var i := IndexFrom(s, CAPABILITY_REPLIES[k].query);
        if i >= 0 && (idx == -1 || i < idx) {
          idx, found := i, k;
        }
        k := k + 1;
      }
      if idx == -1 {
        break;
      }
      var rest := s[idx + |CAPABILITY_REPLIES[found].query|..];
      NoneBefore(s, idx);
      hide Matches, Hit, Owed;
      forall c ensures Owed(data + c) == (written + [CAPABILITY_REPLIES[found].reply]) + Owed(rest + c) {
        CutAtFirst(s, idx, found, c);
      }
      written := written + [CAPABILITY_REPLIES[found].reply];
      QueryShape(found);
      s := rest;
    }
    tail := if |s| > KEEP then s[|s| - KEEP..] else s;
    forall c ensures Owed(data + c) == written + Owed(tail + c) {
      if |s| > KEEP {
        TailIsEnough(s, c, KEEP);
      }
    }
    QuietTail(s, |s| - |tail|);
  }

  function Flat(chunks: seq<string>): string {
    if chunks == [] then "" else chunks[0] + Flat(chunks[1..])
  }

  lemma {:induction false} FlatSnoc(chunks: seq<string>, n: nat)
    requires n < |chunks|
    ensures Flat(chunks[..n + 1]) == Flat(chunks[..n]) + chunks[n]
    decreases n
  {
    if n == 0 {
      assert chunks[..1] == [chunks[0]] && Flat([]) == "";
      assert Flat([chunks[0]]) == chunks[0] + Flat([]);
    } else {
      assert chunks[..n + 1][1..] == chunks[1..][..n] && chunks[..n][1..] == chunks[1..][..n - 1];
      FlatSnoc(chunks[1..], n - 1);
    }
  }

  /** What the loop keeps: all that is owed for the stream so far and any sequel is what was written, then
      what is owed for the carry and the sequel. */
  ghost predicate Settled(shown: string, written: seq<string>, carry: string) {
    Quiet(carry) && forall c :: Owed(shown + c) == written + Owed(carry + c)
  }

  lemma SettledRead(shown: string, written: seq<string>, carry: string, chunk: string, replies: seq<string>,
      tail: string)
    requires Settled(shown, written, carry) && Quiet(tail)
    requires forall c :: Owed((carry + chunk) + c) == replies + Owed(tail + c)
    ensures Settled(shown + chunk, written + replies, tail)
  {
    hide Owed, Quiet;
    forall c ensures Owed((shown + chunk) + c) == (written + replies) + Owed(tail + c) {
      assert (shown + chunk) + c == shown + (chunk + c);
      assert (carry + chunk) + c == carry + (chunk + c);
      assert written + (replies + Owed(tail + c)) == (written + replies) + Owed(tail + c);
    }
  }

  lemma SettledEnd(shown: string, written: seq<string>, carry: string)
    requires Settled(shown, written, carry)
    ensures written == Owed(shown)
  {
    QuietOwesNothing(carry);
    assert shown + "" == shown && carry + "" == carry;
  }

  /** The read loop: everything read is passed on, and a headless relay writes back, over all the reads,
      exactly the replies owed for the stream they make up: every query once, in order. */
  method PumpOut(chunks: seq<string>, headless: bool) returns (shown: string, written: seq<string>)
    ensures shown == Flat(chunks)
    ensures written == if headless then Owed(Flat(chunks)) else []
  {
    hide Owed, Quiet, Flat, Settled;
    shown, written := "", [];
    var carry := "";
    var n := 0;
    assert Settled("", [], "") by { SettledStart(); }
    assert Flat(chunks[..0]) == "" by { FlatNone(); }
    while n < |chunks|
      invariant 0 <= n <= |chunks| && shown == Flat(chunks[..n])
      invariant !headless ==> written == []
      invariant headless ==> Settled(shown, written, carry)
    {
      var chunk := chunks[n];
      FlatSnoc(chunks, n);
      if |chunk| > 0 {
        if headless {
          var replies, tail := AnswerQueries(carry + chunk);
          SettledRead(shown, written, carry, chunk, replies, tail);
          written, carry := written + replies, tail;
        }
        shown := shown + chunk;
      } else {
        assert shown + chunk == shown;
      }
      n := n + 1;
    }
    assert chunks[..n] == chunks;
    if headless {
      SettledEnd(shown, written, carry);
    }
  }

  lemma SettledStart()
    ensures Settled("", [], "")
  {
    forall i | 0 <= i <= |""| ensures !Hit(""[i..]) {
      forall k: nat | k < |CAPABILITY_REPLIES| ensures !Matches("", k) {
        QueryShape(k);
      }
    }
    assert forall c: string :: "" + c == c;
  }

  lemma FlatNone()
    ensures forall chunks: seq<string> :: Flat(chunks[..0]) == ""
  {
  }
}
