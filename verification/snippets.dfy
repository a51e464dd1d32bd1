/** Transcript placeholders stripped from what a card shows. */
module Snippets {
  import opened Text

  /** No line of `s` is a placeholder, however it is padded. */
  predicate Readable(s: string) {
    forall line | line in Lines(s) :: TrimSpace(line) != REDACTED
  }

  // ── lines ─────────────────────────────────────────────────────────────

  lemma {:induction false} OneLine(line: string)
    requires '\n' !in line
    ensures Lines(line) == [line]
  {
    if line != "" {
      assert line == [line[0]] + line[1..] && line[0] in line;
      assert forall c | c in line[1..] :: c in line;
      OneLine(line[1..]);
    }
  }

  lemma {:induction false} NoNewlines(s: string)
    ensures forall line | line in Lines(s) :: '\n' !in line
  {
    if s != "" {
      NoNewlines(s[1..]);
      var rest := Lines(s[1..]);
      forall line | line in Lines(s) ensures '\n' !in line {
        assert rest[0] in rest;
        assert line in rest || line == "" || line == [s[0]] + rest[0];
      }
    }
  }

  /** A character in front of the first of some lines. */
  function Glued(c: char, lines: seq<string>): seq<string>
    requires lines != []
  {
    if c == '\n' then [""] + lines else [[c] + lines[0]] + lines[1..]
  }

  lemma GluedMore(c: char, lines: seq<string>, more: seq<string>)
    requires lines != []
    ensures Glued(c, lines + more) == Glued(c, lines) + more
  {
  }

  lemma {:induction false} LinesAppend(a: string, b: string)
    ensures Lines(a + "\n" + b) == Lines(a) + Lines(b)
  {
    var s := a + "\n" + b;
    if a == "" {
      assert s[1..] == b;
    } else {
      LinesAppend(a[1..], b);
      assert s[1..] == a[1..] + "\n" + b;
      GluedMore(a[0], Lines(a[1..]), Lines(b));
    }
  }

  /** What follows the first line, if there is more than one. */
  lemma {:induction false} FirstLine(s: string) returns (tail: string)
    ensures |Lines(s)| == 1 ==> s == Lines(s)[0]
    ensures |Lines(s)| > 1 ==> s == Lines(s)[0] + "\n" + tail && Lines(tail) == Lines(s)[1..]
  {
    tail := "";
    if s != "" {
      if s[0] == '\n' {
        tail := s[1..];
      } else {
        tail := FirstLine(s[1..]);
        assert s == [s[0]] + s[1..];
      }
    }
  }

  // ── trimming ──────────────────────────────────────────────────────────

  lemma {:induction false} TrimLeftSnoc(s: string, c: char)
    requires IsSpace(c)
    ensures TrimLeft(s + [c]) == if TrimLeft(s) == "" then "" else TrimLeft(s) + [c]
  {
    if s == "" {
      assert [c][1..] == "";
    } else if IsSpace(s[0]) {
      assert (s + [c])[1..] == s[1..] + [c];
      TrimLeftSnoc(s[1..], c);
    }
  }

  lemma PaddedAlike(line: string, c: char)
    requires IsSpace(c)
    ensures TrimSpace([c] + line) == TrimSpace(line) == TrimSpace(line + [c])
  {
    assert ([c] + line)[1..] == line;
    TrimLeftSnoc(line, c);
    var t := TrimLeft(line);
    assert (t + [c])[..|t|] == t;
  }

  lemma {:induction false} LinesSnoc(s: string, c: char)
    ensures Lines(s + [c]) ==
      if c == '\n' then Lines(s) + [""] else Lines(s)[..|Lines(s)| - 1] + [Lines(s)[|Lines(s)| - 1] + [c]]
  {
    if s == "" {
      assert s + [c] == [c] && [c][1..] == "" && Lines("") == [""];
      assert c != '\n' ==> Lines([c]) == [[c] + ""];
      assert "" + [c] == [c] == [c] + "";
    } else {
      assert (s + [c])[1..] == s[1..] + [c] && (s + [c])[0] == s[0];
      LinesSnoc(s[1..], c);
      var rest := Lines(s[1..]);
      if c == '\n' {
        GluedMore(s[0], rest, [""]);
      } else if |rest| > 1 {
        GluedMore(s[0], rest[..|rest| - 1], [rest[|rest| - 1] + [c]]);
        GluedMore(s[0], rest[..|rest| - 1], [rest[|rest| - 1]]);
        assert rest == rest[..|rest| - 1] + [rest[|rest| - 1]];
      } else {
        assert rest == [rest[0]] && ([s[0]] + rest[0]) + [c] == [s[0]] + (rest[0] + [c]);
      }
    }
  }

  lemma {:induction false} TrimLeftReadable(s: string)
    requires Readable(s)
    ensures Readable(TrimLeft(s))
  {
    if s != "" && IsSpace(s[0]) {
      var rest := Lines(s[1..]);
      forall line | line in rest ensures TrimSpace(line) != REDACTED {
        if s[0] == '\n' {
          assert line in Lines(s);
        } else if line == rest[0] {
          PaddedAlike(line, s[0]);
          assert Lines(s)[0] in Lines(s);
        } else {
          assert line in rest[1..] && line in Lines(s);
        }
      }
      TrimLeftReadable(s[1..]);
    }
  }

  lemma {:induction false} TrimRightReadable(s: string)
    requires Readable(s)
    ensures Readable(TrimRight(s))
  {
    if s != "" && IsSpace(s[|s| - 1]) {
      var init, c := s[..|s| - 1], s[|s| - 1];
      assert s == init + [c];
      LinesSnoc(init, c);
      var lines := Lines(init);
      hide Lines, TrimSpace;
      forall line | line in lines ensures TrimSpace(line) != REDACTED {
        if c == '\n' {
          assert line in Lines(s);
        } else {
          var i :| 0 <= i < |lines| && lines[i] == line;
          assert Lines(s)[i] in Lines(s);
          PaddedAlike(line, c);
        }
      }
      TrimRightReadable(init);
    }
  }

  // ── stripping ─────────────────────────────────────────────────────────

  lemma {:induction false} AssembledReadable(lines: seq<string>, acc: string)
    requires Readable(acc) && forall line | line in lines :: '\n' !in line
    ensures Readable(Assemble(lines, acc))
    decreases |lines|
  {
    if lines != [] {
      var line := lines[0];
      assert line in lines && forall l | l in lines[1..] :: l in lines;
      if TrimSpace(line) == REDACTED {
        AssembledReadable(lines[1..], acc);
      } else {
        OneLine(line);
        if acc != "" {
          LinesAppend(acc, line);
        } else {
          assert acc + line == line;
        }
        AssembledReadable(lines[1..], (if acc != "" then acc + "\n" else acc) + line);
      }
    }
  }

  lemma {:induction false} AssembleAll(s: string, acc: string)
    requires Readable(s) && acc != ""
    ensures Assemble(Lines(s), acc) == acc + "\n" + s
    decreases |Lines(s)|
  {
    hide TrimSpace, Lines;
    var tail := FirstLine(s);
    var lines := Lines(s);
    assert lines[0] in lines;
    var next := acc + "\n" + lines[0];
    if |lines| == 1 {
      assert Assemble(lines[1..], next) == next;
    } else {
      assert forall l | l in Lines(tail) :: l in lines;
      AssembleAll(tail, next);
      assert next + "\n" + tail == acc + "\n" + s;
    }
  }

  lemma AssembleReadable(s: string)
    requires Readable(s) && (s != "" ==> s[0] != '\n')
    ensures Assemble(Lines(s), "") == s
  {
    if s != "" {
      var tail := FirstLine(s);
      var lines := Lines(s);
      assert lines[0] in lines && lines[0] != "";
      assert "" + lines[0] == lines[0];
      if |lines| == 1 {
        assert Assemble(lines[1..], lines[0]) == lines[0];
      } else {
        assert forall l | l in Lines(tail) :: l in lines;
        AssembleAll(tail, lines[0]);
      }
    }
  }

  // ── what must be kept ─────────────────────────────────────────────────

  /** The lines that say something, each without its padding. */
  function Saying(lines: seq<string>): seq<string> {
    if lines == [] then []
    else
      var t := TrimSpace(lines[0]);
      (if t == "" || t == REDACTED then [] else [t]) + Saying(lines[1..])
  }

  lemma SayingNil()
    ensures Saying([]) == []
  {
  }

  lemma SayingCons(line: string, lines: seq<string>)
    ensures Saying([line] + lines) == Saying([line]) + Saying(lines)
  {
    hide TrimSpace;
    assert ([line] + lines)[1..] == lines && [line][1..] == [];
  }

  lemma {:induction false} SayingConcat(a: seq<string>, b: seq<string>)
    ensures Saying(a + b) == Saying(a) + Saying(b)
  {
    hide Saying;
    if a == [] {
      SayingNil();
      assert a + b == b;
    } else {
      SayingConcat(a[1..], b);
      SayingCons(a[0], a[1..]);
      SayingCons(a[0], a[1..] + b);
      assert a == [a[0]] + a[1..] && a + b == [a[0]] + (a[1..] + b);
    }
  }

  lemma SayingNothing(line: string)
    requires TrimSpace(line) == "" || TrimSpace(line) == REDACTED
    ensures Saying([line]) == []
  {
    assert [line][1..] == [];
  }

  lemma SayingAlike(a: string, b: string)
    requires TrimSpace(a) == TrimSpace(b)
    ensures Saying([a]) == Saying([b])
  {
    assert [a][1..] == [] && [b][1..] == [];
  }

  lemma {:induction false} AssembleSays(lines: seq<string>, acc: string)
    requires forall line | line in lines :: '\n' !in line
    ensures Saying(Lines(Assemble(lines, acc))) == Saying(Lines(acc)) + Saying(lines)
    decreases |lines|
  {
    hide Saying, TrimSpace;
    if lines == [] {
      SayingNil();
    } else {
      var line := lines[0];
      assert line in lines && forall l | l in lines[1..] :: l in lines;
      assert lines == [line] + lines[1..];
      SayingConcat([line], lines[1..]);
      if TrimSpace(line) == REDACTED {
        SayingNothing(line);
        AssembleSays(lines[1..], acc);
      } else {
        OneLine(line);
        if acc != "" {
          LinesAppend(acc, line);
          SayingConcat(Lines(acc), [line]);
        } else {
          assert acc + line == line;
          SayingNothing("") by { TrimNothing(); }
          assert Lines("") == [""];
        }
        AssembleSays(lines[1..], (if acc != "" then acc + "\n" else acc) + line);
      }
    }
  }

  lemma TrimNothing()
    ensures TrimSpace("") == ""
  {
  }

  lemma {:induction false} TrimLeftSays(s: string)
    ensures Saying(Lines(TrimLeft(s))) == Saying(Lines(s))
  {
    hide TrimSpace, Saying;
    if s != "" && IsSpace(s[0]) {
      var rest := Lines(s[1..]);
      TrimLeftSays(s[1..]);
      if s[0] == '\n' {
        SayingConcat([""], rest);
        SayingNothing("") by { TrimNothing(); }
      } else {
        PaddedAlike(rest[0], s[0]);
        SayingAlike(rest[0], [s[0]] + rest[0]);
        SayingConcat([rest[0]], rest[1..]);
        SayingConcat([[s[0]] + rest[0]], rest[1..]);
        assert rest == [rest[0]] + rest[1..];
      }
    }
  }

  lemma {:induction false} TrimRightSays(s: string)
    ensures Saying(Lines(TrimRight(s))) == Saying(Lines(s))
  {
    hide TrimSpace, Saying, Lines;
    if s != "" && IsSpace(s[|s| - 1]) {
      var init, c := s[..|s| - 1], s[|s| - 1];
      TrimRightSays(init);
      assert s == init + [c];
      LinesSnoc(init, c);
      var lines := Lines(init);
      var front, last := lines[..|lines| - 1], lines[|lines| - 1];
      assert lines == front + [last];
      if c == '\n' {
        SayingConcat(lines, [""]);
        SayingNothing("") by { TrimNothing(); }
      } else {
        PaddedAlike(last, c);
        SayingAlike(last, last + [c]);
        SayingConcat(front, [last]);
        SayingConcat(front, [last + [c]]);
      }
    }
  }

  /** Every line that says something is kept, in order, and nothing else is: no line is lost with the
      placeholders. */
  lemma StripKeepsLines(s: string)
    ensures Saying(Lines(StripRedacted(s))) == Saying(Lines(s))
  {
    hide Saying, Lines;
    if s != "" {
      NoNewlines(s);
      var t := Assemble(Lines(s), "");
      AssembleSays(Lines(s), "");
      TrimLeftSays(t);
      TrimRightSays(TrimLeft(t));
      BlankSays();
    }
  }

  lemma BlankSays()
    ensures Saying(Lines("")) == []
  {
    assert Lines("") == [""];
    SayingNothing("") by { TrimNothing(); }
  }

  /** No placeholder line is left, and stripping again changes nothing. */
  lemma StripIsClean(s: string)
    ensures Readable(StripRedacted(s)) && StripRedacted(StripRedacted(s)) == StripRedacted(s)
  {
    if s != "" {
      NoNewlines(s);
      var t := Assemble(Lines(s), "");
      assert Readable(t) by {
        assert Lines("") == [""];
        AssembledReadable(Lines(s), "");
      }
      TrimLeftReadable(t);
      TrimRightReadable(TrimLeft(t));
    }
    var u := StripRedacted(s);
    if u != "" {
      TrimLeftIs(Assemble(Lines(s), ""));
      TrimRightIs(TrimLeft(Assemble(Lines(s), "")));
      AssembleReadable(u);
      TrimTwice(Assemble(Lines(s), ""));
    }
  }

  /** The lines that are no placeholders. */
  function Kept(lines: seq<string>): seq<string> {
    if lines == [] then []
    else if TrimSpace(lines[0]) == REDACTED then Kept(lines[1..])
    else [lines[0]] + Kept(lines[1..])
  }

  /** Each line with a newline in front. */
  function Headed(lines: seq<string>): string {
    if lines == [] then "" else "\n" + lines[0] + Headed(lines[1..])
  }

  /** The lines with a newline between each two. */
  function Joined(lines: seq<string>): string {
    if lines == [] then "" else lines[0] + Headed(lines[1..])
  }

  lemma JoinedNone()
    ensures Joined([]) == Headed([]) == ""
  {
  }

  lemma JoinedCons(line: string, lines: seq<string>)
    ensures Joined([line] + lines) == line + Headed(lines)
    ensures lines != [] ==> Headed(lines) == "\n" + Joined(lines)
  {
    assert ([line] + lines)[1..] == lines;
    if lines != [] {
      assert "\n" + lines[0] + Headed(lines[1..]) == "\n" + (lines[0] + Headed(lines[1..]));
    }
  }

  lemma HeadedAfter(acc: string, line: string, lines: seq<string>)
    ensures acc + Headed([line] + lines) == acc + "\n" + line + Headed(lines)
  {
    assert ([line] + lines)[1..] == lines;
    assert acc + ("\n" + line + Headed(lines)) == acc + "\n" + line + Headed(lines);
  }

  lemma {:induction false} AssembleOnto(lines: seq<string>, acc: string)
    requires acc != ""
    ensures Assemble(lines, acc) == acc + Headed(Kept(lines))
    decreases |lines|
  {
    if lines == [] {
      assert acc + "" == acc;
    } else {
      hide TrimSpace, Headed;
      if TrimSpace(lines[0]) == REDACTED {
        AssembleOnto(lines[1..], acc);
      } else {
        AssembleOnto(lines[1..], acc + "\n" + lines[0]);
        HeadedAfter(acc, lines[0], Kept(lines[1..]));
      }
    }
  }

  /** Only newlines before the first text are missing from what is assembled. */
  lemma {:induction false} AssembleJoins(lines: seq<string>) returns (missing: string)
    ensures Blank(missing) && Joined(Kept(lines)) == missing + Assemble(lines, "")
  {
    hide TrimSpace, Joined, Headed;
    missing := "";
    JoinedNone();
    assert "" + Assemble(lines, "") == Assemble(lines, "");
    if lines != [] {
      if TrimSpace(lines[0]) == REDACTED {
        missing := AssembleJoins(lines[1..]);
      } else if lines[0] == "" {
        var rest := AssembleJoins(lines[1..]);
        var kept, text := Kept(lines[1..]), Assemble(lines[1..], "");
        JoinedCons("", kept);
        assert Kept(lines) == [""] + kept && Assemble(lines, "") == text;
        if kept == [] {
          assert rest + text == "";
        } else {
          missing := "\n" + rest;
          assert "" + Headed(kept) == "\n" + (rest + text) == missing + text;
        }
      } else {
        assert "" + lines[0] == lines[0];
        assert Assemble(lines, "") == Assemble(lines[1..], lines[0]);
        AssembleOnto(lines[1..], lines[0]);
        JoinedCons(lines[0], Kept(lines[1..]));
        assert Kept(lines) == [lines[0]] + Kept(lines[1..]);
        assert Joined(Kept(lines)) == Assemble(lines, "");
        assert "" + Assemble(lines, "") == Assemble(lines, "");
      }
    }
  }

  lemma {:induction false} TrimLeftBlank(blank: string, s: string)
    requires Blank(blank)
    ensures TrimLeft(blank + s) == TrimLeft(s)
  {
    if blank == "" {
      assert blank + s == s;
    } else {
      TrimLeftBlank(blank[1..], s);
      assert (blank + s)[1..] == blank[1..] + s && blank[0] in blank;
    }
  }

  /** What is left is the lines that are no placeholders, joined again and trimmed. */
  lemma StripJoins(s: string)
    ensures StripRedacted(s) == TrimSpace(Joined(Kept(Lines(s))))
  {
    var missing := AssembleJoins(Lines(s));
    TrimLeftBlank(missing, Assemble(Lines(s), ""));
    if s == "" {
      assert Lines(s) == [""] && [""][1..] == [] && Kept([]) == [];
      assert Kept(Lines(s)) == [] || Kept(Lines(s)) == [""];
      assert Joined(Kept(Lines(s))) == "";
    }
  }

  method StripRedactedSnippets(s: string) returns (r: string)
    ensures r == StripRedacted(s)
  {
    if s == "" {
      return "";
    }
    var lines := Lines(s);
    var b := "";
    var i := 0;
    while i < |lines|
      invariant 0 <= i <= |lines| && Assemble(lines[i..], b) == Assemble(lines, "")
    {
      assert lines[i..][1..] == lines[i + 1..];
      if TrimSpace(lines[i]) != REDACTED {
        if |b| > 0 {
          b := b + "\n";
        }
        b := b + lines[i];
      }
      i := i + 1;
    }
    return TrimSpace(b);
  }
}
