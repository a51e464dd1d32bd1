/** Snippet clean-up applied before text is buffered on a session. */
module Text {

  const REDACTED := "[REDACTED]"

  /** Unicode's white space. */
  predicate IsSpace(c: char) {
    || '\t' <= c <= '\r' || 0x2000 as char <= c <= 0x200A as char
    || c in {' ', 0x85 as char, 0xA0 as char, 0x1680 as char, 0x2028 as char, 0x2029 as char, 0x202F as char,
             0x205F as char, 0x3000 as char}
  }

  function TrimLeft(s: string): string {
    if s != "" && IsSpace(s[0]) then TrimLeft(s[1..]) else s
  }

  function TrimRight(s: string): string {
    if s != "" && IsSpace(s[|s| - 1]) then TrimRight(s[..|s| - 1]) else s
  }

  function TrimSpace(s: string): string {
    TrimRight(TrimLeft(s))
  }

  lemma {:induction false} TrimLeftIs(s: string)
    ensures var r := TrimLeft(s); r == "" || !IsSpace(r[0])
    ensures TrimLeft(s) != "" ==> TrimLeft(s)[|TrimLeft(s)| - 1] == s[|s| - 1]
    decreases |s|
  {
    if s != "" && IsSpace(s[0]) {
      TrimLeftIs(s[1..]);
    }
  }

  lemma {:induction false} TrimRightIs(s: string)
    ensures var r := TrimRight(s); r == "" || !IsSpace(r[|r| - 1])
    ensures TrimRight(s) != "" ==> TrimRight(s)[0] == s[0]
    decreases |s|
  {
    if s != "" && IsSpace(s[|s| - 1]) {
      TrimRightIs(s[..|s| - 1]);
    }
  }

  /** Trimming leaves nothing to trim. */
  lemma TrimTwice(s: string)
    ensures TrimSpace(TrimSpace(s)) == TrimSpace(s)
  {
    TrimLeftIs(s);
    TrimRightIs(TrimLeft(s));
  }

  predicate Blank(s: string) {
    forall c | c in s :: IsSpace(c)
  }

  lemma {:induction false} TrimLeftCuts(s: string) returns (cut: string)
    ensures s == cut + TrimLeft(s) && Blank(cut)
  {
    cut := "";
    if s != "" && IsSpace(s[0]) {
      var rest := TrimLeftCuts(s[1..]);
      cut := [s[0]] + rest;
    }
  }

  lemma {:induction false} TrimRightCuts(s: string) returns (cut: string)
    ensures s == TrimRight(s) + cut && Blank(cut)
  {
    cut := "";
    if s != "" && IsSpace(s[|s| - 1]) {
      var rest := TrimRightCuts(s[..|s| - 1]);
      cut := rest + [s[|s| - 1]];
    }
  }

  /** Trimming takes all the white space off both ends and nothing else. */
  lemma TrimIs(s: string) returns (before: string, after: string)
    ensures s == before + TrimSpace(s) + after && Blank(before) && Blank(after)
    ensures var r := TrimSpace(s); r == "" || (!IsSpace(r[0]) && !IsSpace(r[|r| - 1]))
  {
    before := TrimLeftCuts(s);
    after := TrimRightCuts(TrimLeft(s));
    TrimLeftIs(s);
    TrimRightIs(TrimLeft(s));
  }

  /** Go also lowers letters beyond ASCII; none of them becomes a letter of the words compared with here. */
  function ToLower(s: string): string {
    seq(|s|, i requires 0 <= i < |s| => if 'A' <= s[i] <= 'Z' then ((s[i] - 'A') + 'a') else s[i])
  }

  /** Lowering forgets the case of letters and nothing else: what gives a word is its spellings. */
  lemma LowerSpells(s: string, word: string)
    requires forall c | c in word :: 'a' <= c <= 'z'
    ensures ToLower(s) == word <==>
      |s| == |word| && forall i | 0 <= i < |s| :: s[i] == word[i] || s[i] as int + 32 == word[i] as int
  {
    if |s| == |word| {
      forall i | 0 <= i < |s|
        ensures ToLower(s)[i] == word[i] <==> s[i] == word[i] || s[i] as int + 32 == word[i] as int
      {
        assert word[i] in word;
      }
    }
  }

  function Clip(s: string, n: nat): (r: string)
    ensures r <= s && |r| == if |s| <= n then |s| else n
  {
    if |s| <= n then s else s[..n]
  }

  /** The lines of `s`, split at every newline. */
  function Lines(s: string): (r: seq<string>)
    ensures |r| > 0
  {
    if s == "" then [""]
    else
      var rest := Lines(s[1..]);
      if s[0] == '\n' then [""] + rest else [[s[0]] + rest[0]] + rest[1..]
  }

  /** Appends the kept lines to `acc`, a newline before each one that does not come first. */
  function Assemble(lines: seq<string>, acc: string): string {
    if lines == [] then acc
    else if TrimSpace(lines[0]) == REDACTED then Assemble(lines[1..], acc)
    else Assemble(lines[1..], (if acc != "" then acc + "\n" else acc) + lines[0])
  }

  /** Drops transcript placeholder lines, so a card keeps the last readable text. */
  function StripRedacted(s: string): string {
    if s == "" then "" else TrimSpace(Assemble(Lines(s), ""))
  }
}
