/** Merging hook entries into an agent's settings and taking them out again. Settings are JSON objects;
    reading and writing the files is not modelled. */
module Installer {

  datatype Json =
    | Null
    | Bool(b: bool)
    | Num(n: real)
    | Str(text: string)
    | Arr(items: seq<Json>)
    | Obj(fields: map<string, Json>)

  type Settings = map<string, Json>

  const MARKER := "ambient-link-host"

  // ── whose entry is it ─────────────────────────────────────────────────

  predicate Has(s: string, sub: string) {
    exists i | 0 <= i <= |s| :: sub <= s[i..]
  }

  lemma Embedded(a: string, sub: string, b: string)
    ensures Has(a + sub + b, sub)
  {
    var s := a + sub + b;
    assert s[|a|..] == sub + b;
  }

  /** A string field of an object, empty when there is none. */
  function TextAt(j: Json, name: string): string {
    if j.Obj? && name in j.fields && j.fields[name].Str? then j.fields[name].text else ""
  }

  function ItemsAt(hooks: map<string, Json>, name: string): seq<Json> {
    if name in hooks && hooks[name].Arr? then hooks[name].items else []
  }

  /** The entry points at this host, in the old handler shape or the nested command shape. */
  predicate Marked(j: Json) {
    j.Obj? &&
    (("handler" in j.fields
      && (Has(TextAt(j.fields["handler"], "url"), MARKER) || Has(TextAt(j.fields["handler"], "command"), MARKER)))
     || exists n | n in ItemsAt(j.fields, "hooks") :: Has(TextAt(n, "command"), MARKER))
  }

  /** An entry of either old handler shape, or of the nested shape, is ours exactly if it names the host. */
  lemma MarkedShapes(text: string, hooks: seq<Json>, k: nat)
    requires k < |hooks| && hooks[k] == Obj(map["type" := Str("command"), "command" := Str(text)])
    ensures Marked(Obj(map["handler" := Obj(map["url" := Str(text)])])) <==> Has(text, "ambient-link-host")
    ensures Marked(Obj(map["handler" := Obj(map["command" := Str(text)])])) <==> Has(text, "ambient-link-host")
    ensures Has(text, "ambient-link-host") ==> Marked(Obj(map["hooks" := Arr(hooks)]))
    ensures hooks == [hooks[k]] && Marked(Obj(map["hooks" := Arr(hooks)])) ==> Has(text, "ambient-link-host")
  {
    assert TextAt(hooks[k], "command") == text;
  }

  function Unmarked(arr: seq<Json>): (r: seq<Json>)
    ensures |r| <= |arr|
  {
    if arr == [] then []
    else
      var last := arr[|arr| - 1];
      Unmarked(arr[..|arr| - 1]) + (if Marked(last) then [] else [last])
  }

  lemma {:induction false} UnmarkedHasNone(arr: seq<Json>)
    ensures forall x | x in Unmarked(arr) :: !Marked(x) && x in arr
  {
    if arr != [] {
      UnmarkedHasNone(arr[..|arr| - 1]);
      assert forall x | x in arr[..|arr| - 1] :: x in arr;
    }
  }

  lemma {:induction false} UnmarkedSame(arr: seq<Json>)
    ensures |Unmarked(arr)| == |arr| <==> Unmarked(arr) == arr
    ensures Unmarked(arr) == arr <==> forall x | x in arr :: !Marked(x)
  {
    if arr != [] {
      var init, last := arr[..|arr| - 1], arr[|arr| - 1];
      UnmarkedSame(init);
      assert arr == init + [last];
      if forall x | x in arr :: !Marked(x) {
        assert forall x | x in init :: x in arr;
        assert last in arr;
      }
      if |Unmarked(arr)| == |arr| {
        assert |Unmarked(init)| == |init|;
        forall x | x in arr ensures !Marked(x) {
          assert x in init || x == last;
        }
      }
    }
  }

  lemma {:induction false} UnmarkedJoins(a: seq<Json>, b: seq<Json>)
    ensures Unmarked(a + b) == Unmarked(a) + Unmarked(b)
    decreases |b|
  {
    hide Marked;
    if b == [] {
      assert a + b == a;
    } else {
      UnmarkedJoins(a, b[..|b| - 1]);
      assert (a + b)[..|a + b| - 1] == a + b[..|b| - 1];
    }
  }

  /** Filtering goes entry by entry. */
  lemma UnmarkedIs(before: seq<Json>, x: Json, after: seq<Json>)
    ensures Unmarked(before + [x] + after) == Unmarked(before) + (if Marked(x) then [] else [x]) + Unmarked(after)
  {
    assert Unmarked([x]) == if Marked(x) then [] else [x] by { assert [x][..0] == []; }
    hide Unmarked, Marked;
    UnmarkedJoins(before, [x]);
    UnmarkedJoins(before + [x], after);
  }

  lemma UnmarkedTwice(arr: seq<Json>)
    ensures Unmarked(Unmarked(arr)) == Unmarked(arr)
  {
    UnmarkedHasNone(arr);
    UnmarkedSame(Unmarked(arr));
  }

  lemma UnmarkedPlus(arr: seq<Json>, entry: Json)
    requires Marked(entry)
    ensures Unmarked(Unmarked(arr) + [entry]) == Unmarked(arr)
  {
    assert (Unmarked(arr) + [entry])[..|Unmarked(arr)|] == Unmarked(arr);
    UnmarkedTwice(arr);
  }

  method FilterOutMarker(arr: seq<Json>) returns (out: seq<Json>)
    ensures out == Unmarked(arr)
  {
    out := [];
    var i := 0;
    while i < |arr|
      invariant 0 <= i <= |arr| && out == Unmarked(arr[..i])
    {
      assert arr[..i + 1][..i] == arr[..i];
      if !Marked(arr[i]) {
        out := out + [arr[i]];
      }
      i := i + 1;
    }
    assert arr[..i] == arr;
  }

  method ContainsEntry(arr: seq<Json>, want: Json) returns (found: bool)
    ensures found <==> Marked(want) && want in arr
  {
    var i := 0;
    while i < |arr|
      invariant 0 <= i <= |arr|
      invariant forall j | 0 <= j < i :: !(Marked(arr[j]) && arr[j] == want)
    {
      if Marked(arr[i]) && arr[i] == want {
        return true;
      }
      i := i + 1;
    }
    return false;
  }

  // ── what gets installed ───────────────────────────────────────────────

  function TrimRight(s: string, c: char): (r: string)
    ensures r <= s && (r != "" ==> r[|r| - 1] != c)
    ensures forall i | |r| <= i < |s| :: s[i] == c
  {
    if s != "" && s[|s| - 1] == c then TrimRight(s[..|s| - 1], c) else s
  }

  lemma Parts(a: string, b: string, c: string)
    ensures a <= a + b + c && Has(a + b + c, b) && Has(a + b + c, c)
  {
    Embedded(a, b, c);
    assert (a + b + c)[|a + b|..] == c;
  }

  lemma HasInner(a: string, b: string, sub: string, c: string)
    ensures Has(a + (b + sub + c), sub)
  {
    Embedded(a + b, sub, c);
    assert a + b + sub + c == a + (b + sub + c);
  }

  /** Posts the event to this host's Claude endpoint, with the token if there is one. */
  function ClaudeCommand(hostURL: string, token: string): (r: string)
    ensures Has(r, MARKER)
    ensures "curl -fsS -m 5 -X POST -H 'Content-Type: application/json'" <= r
    ensures token != "" ==> Has(r, " -H 'Authorization: Bearer " + token + "'")
    ensures
      Has(r, " --data-binary @- '" + TrimRight(hostURL, '/') + "/ambient-link/hooks/claude?marker=" + MARKER + "'")
  {
    var post := "curl -fsS -m 5 -X POST -H 'Content-Type: application/json'";
    var bearer := if token != "" then " -H 'Authorization: Bearer " + token + "'" else "";
    var target := " --data-binary @- '" + TrimRight(hostURL, '/') + "/ambient-link/hooks/claude?marker=" + MARKER + "'";
    Parts(post, bearer, target);
    HasInner(post + bearer, " --data-binary @- '" + TrimRight(hostURL, '/') + "/ambient-link/hooks/claude?marker=",
             MARKER, "'");
    post + bearer + target
  }

  /** The same for Codex, always with the token. */
  function CodexCommand(hostURL: string, token: string): (r: string)
    ensures Has(r, MARKER)
    ensures "curl -sS -X POST -H 'Content-Type: application/json'" <= r
    ensures Has(r, " -H 'Authorization: Bearer " + token + "'")
    ensures Has(r, " --data-binary @- " + TrimRight(hostURL, '/') + "/ambient-link/hooks/codex?marker=" + MARKER)
  {
    var post := "curl -sS -X POST -H 'Content-Type: application/json'";
    var bearer := " -H 'Authorization: Bearer " + token + "'";
    var url := " --data-binary @- " + TrimRight(hostURL, '/') + "/ambient-link/hooks/codex?marker=";
    Parts(post, bearer, url + MARKER);
    HasInner(post + bearer, url, MARKER, "");
    assert url + MARKER + "" == url + MARKER;
    post + bearer + (url + MARKER)
  }

  function ClaudeEntry(matcher: string, command: string): (r: Json)
    ensures Has(command, MARKER) ==> Marked(r)
  {
    var hook := Obj(map["type" := Str("command"), "command" := Str(command), "timeout" := Num(10.0)]);
    var fields := map["hooks" := Arr([hook])];
    assert TextAt(hook, "command") == command;
    assert ItemsAt(fields, "hooks") == [hook];
    if matcher == "" then Obj(fields) else Obj(fields["matcher" := Str(matcher)])
  }

  function CodexEntry(command: string): (r: Json)
    ensures Has(command, MARKER) ==> Marked(r)
  {
    var handler := Obj(map["type" := Str("command"), "command" := Str(command)]);
    assert TextAt(handler, "command") == command;
    Obj(map["handler" := handler])
  }

  datatype Want = Want(event: string, entry: Json)

  /** Distinct events, each with an entry the uninstaller will know again. */
  predicate WellFormed(wants: seq<Want>) {
    && (forall i | 0 <= i < |wants| :: Marked(wants[i].entry))
    && (forall i, j | 0 <= i < j < |wants| :: wants[i].event != wants[j].event)
  }

  predicate Wanted(wants: seq<Want>, event: string) {
    exists i | 0 <= i < |wants| :: wants[i].event == event
  }

  const CLAUDE_EVENTS := [
    "SessionStart", "SessionEnd", "UserPromptSubmit", "PreToolUse", "PostToolUse", "Notification",
    "PermissionRequest", "Stop", "SubagentStop"
  ]

  const CODEX_EVENTS := [
    "SessionStart", "SessionEnd", "UserPromptSubmit", "PreToolUse", "PostToolUse", "PermissionRequest",
    "Stop", "SubagentStop"
  ]

  predicate Distinct(names: seq<string>) {
    forall i, j | 0 <= i < j < |names| :: names[i] != names[j]
  }

  /** Told apart by length, or by one of the first two letters. */
  lemma EventsDistinct()
    ensures Distinct(CLAUDE_EVENTS) && Distinct(CODEX_EVENTS)
  {
    forall i, j | 0 <= i < j < |CLAUDE_EVENTS| ensures CLAUDE_EVENTS[i] != CLAUDE_EVENTS[j] {
      var a, b := CLAUDE_EVENTS[i], CLAUDE_EVENTS[j];
      assert |a| != |b| || a[0] != b[0] || a[1] != b[1];
    }
    forall i, j | 0 <= i < j < |CODEX_EVENTS| ensures CODEX_EVENTS[i] != CODEX_EVENTS[j] {
      var a, b := CODEX_EVENTS[i], CODEX_EVENTS[j];
      assert |a| != |b| || a[0] != b[0] || a[1] != b[1];
    }
  }

  function ClaudeWants(hostURL: string, token: string): (r: seq<Want>)
    ensures WellFormed(r)
  {
    EventsDistinct();
    var command := ClaudeCommand(hostURL, token);
    seq(|CLAUDE_EVENTS|, i requires 0 <= i < |CLAUDE_EVENTS| =>
      Want(CLAUDE_EVENTS[i],
           ClaudeEntry(if CLAUDE_EVENTS[i] == "Notification" then "permission_prompt" else "", command)))
  }

  function CodexWants(hostURL: string, token: string): (r: seq<Want>)
    ensures WellFormed(r)
  {
    EventsDistinct();
    var entry := CodexEntry(CodexCommand(hostURL, token));
    seq(|CODEX_EVENTS|, i requires 0 <= i < |CODEX_EVENTS| => Want(CODEX_EVENTS[i], entry))
  }

  /** Claude's entries run that command, for permission prompts only under Notification and for anything else. */
  lemma ClaudeAsks(hostURL: string, token: string, want: Want)
    requires want in ClaudeWants(hostURL, token)
    ensures want.entry.Obj? && ItemsAt(want.entry.fields, "hooks") == [Obj(map["type" := Str("command"),
      "command" := Str(ClaudeCommand(hostURL, token)), "timeout" := Num(10.0)])]
    ensures TextAt(want.entry, "matcher") == if want.event == "Notification" then "permission_prompt" else ""
    ensures "matcher" in want.entry.fields <==> want.event == "Notification"
  {
    hide ClaudeCommand;
    EventsDistinct();
  }

  lemma CodexAsks(hostURL: string, token: string, want: Want)
    requires want in CodexWants(hostURL, token)
    ensures want.entry == Obj(map["handler" := Obj(map["type" := Str("command"),
      "command" := Str(CodexCommand(hostURL, token))])])
  {
    hide CodexCommand;
    EventsDistinct();
  }

  /** Which events are asked for. */
  lemma AskedFor(hostURL: string, token: string, event: string)
    ensures Wanted(ClaudeWants(hostURL, token), event) <==> event in {
      "SessionStart", "SessionEnd", "UserPromptSubmit", "PreToolUse", "PostToolUse", "Notification",
      "PermissionRequest", "Stop", "SubagentStop"}
    ensures Wanted(CodexWants(hostURL, token), event) <==> event in {
      "SessionStart", "SessionEnd", "UserPromptSubmit", "PreToolUse", "PostToolUse", "PermissionRequest", "Stop",
      "SubagentStop"}
  {
    hide ClaudeCommand, ClaudeEntry, CodexCommand, CodexEntry;
    var a, b := ClaudeWants(hostURL, token), CodexWants(hostURL, token);
    assert forall i | 0 <= i < 9 :: a[i].event == CLAUDE_EVENTS[i];
    assert forall i | 0 <= i < 8 :: b[i].event == CODEX_EVENTS[i];
    if event in CLAUDE_EVENTS {
      var i :| 0 <= i < 9 && CLAUDE_EVENTS[i] == event;
      assert a[i].event == event;
    }
    if event in CODEX_EVENTS {
      var i :| 0 <= i < 8 && CODEX_EVENTS[i] == event;
      assert b[i].event == event;
    }
  }

  // ── one event's slot ──────────────────────────────────────────────────

  datatype Slot = Missing | Holds(value: Json)

  function SlotOf(hooks: map<string, Json>, event: string): Slot {
    if event in hooks then Holds(hooks[event]) else Missing
  }

  lemma SameSlots(a: map<string, Json>, b: map<string, Json>)
    requires forall ev :: SlotOf(a, ev) == SlotOf(b, ev)
    ensures a == b
  {
    forall ev ensures ev in a <==> ev in b {
      assert SlotOf(a, ev) == SlotOf(b, ev);
    }
    forall ev | ev in a ensures a[ev] == b[ev] {
      assert SlotOf(a, ev) == SlotOf(b, ev);
    }
  }

  function Items(s: Slot): seq<Json> {
    if s.Holds? && s.value.Arr? then s.value.items else []
  }

  /** An installed entry joins what is there, in place of any stale one of ours. */
  function MergeSlot(s: Slot, entry: Json): Slot {
    if entry in Items(s) then s else Holds(Arr(Unmarked(Items(s)) + [entry]))
  }

  predicate HasOurs(s: Slot) {
    s.Holds? && s.value.Arr? && |Unmarked(s.value.items)| != |s.value.items|
  }

  /** An uninstalled slot keeps what is not ours, and goes if that is nothing. */
  function StripSlot(s: Slot): Slot {
    if !HasOurs(s) then s
    else if Unmarked(Items(s)) == [] then Missing
    else Holds(Arr(Unmarked(Items(s))))
  }

  lemma HasOursMeans(s: Slot)
    ensures HasOurs(s) <==> exists x | x in Items(s) :: Marked(x)
  {
    UnmarkedSame(Items(s));
  }

  lemma StripMerged(s: Slot, entry: Json)
    requires Marked(entry)
    ensures Unmarked(Items(MergeSlot(s, entry))) == Unmarked(Items(s)) == Unmarked(Items(StripSlot(s)))
    ensures entry in Items(MergeSlot(s, entry)) && HasOurs(MergeSlot(s, entry))
    ensures !HasOurs(StripSlot(s))
    ensures !HasOurs(s) ==>
      StripSlot(MergeSlot(s, entry)) == if Items(s) == [] then Missing else Holds(Arr(Items(s)))
  {
    UnmarkedPlus(Items(s), entry);
    UnmarkedTwice(Items(s));
    UnmarkedSame(Items(s));
    HasOursMeans(s);
    HasOursMeans(MergeSlot(s, entry));
  }

  // ── install ───────────────────────────────────────────────────────────

  function HooksOf(x: Settings): map<string, Json> {
    if "hooks" in x && x["hooks"].Obj? then x["hooks"].fields else map[]
  }

  function Merged(hooks: map<string, Json>, wants: seq<Want>): map<string, Json> {
    if wants == [] then hooks
    else
      var init, last := Merged(hooks, wants[..|wants| - 1]), wants[|wants| - 1];
      var existing := ItemsAt(init, last.event);
      if last.entry in existing then init
      else init[last.event := Arr(Unmarked(existing) + [last.entry])]
  }

  predicate AllPresent(hooks: map<string, Json>, wants: seq<Want>) {
    forall i | 0 <= i < |wants| :: wants[i].entry in Items(SlotOf(hooks, wants[i].event))
  }

  function Install(x: Settings, wants: seq<Want>): Settings {
    if AllPresent(HooksOf(x), wants) then x else x["hooks" := Obj(Merged(HooksOf(x), wants))]
  }

  lemma MergedStep(hooks: map<string, Json>, wants: seq<Want>, ev: string)
    requires wants != []
    ensures
      var init, last := Merged(hooks, wants[..|wants| - 1]), wants[|wants| - 1];
      SlotOf(Merged(hooks, wants), ev) ==
        if ev == last.event then MergeSlot(SlotOf(init, ev), last.entry) else SlotOf(init, ev)
  {
    hide Unmarked, Marked;
  }

  lemma {:induction false} MergedOther(hooks: map<string, Json>, wants: seq<Want>, ev: string)
    requires !Wanted(wants, ev)
    ensures SlotOf(Merged(hooks, wants), ev) == SlotOf(hooks, ev)
  {
    if wants != [] {
      var init := wants[..|wants| - 1];
      assert forall i | 0 <= i < |init| :: init[i] == wants[i];
      MergedOther(hooks, init, ev);
      hide Merged, SlotOf, MergeSlot;
      MergedStep(hooks, wants, ev);
    }
  }

  /** Each wanted event is merged on its own. */
  lemma {:induction false} MergedAt(hooks: map<string, Json>, wants: seq<Want>, i: nat)
    requires WellFormed(wants) && i < |wants|
    ensures SlotOf(Merged(hooks, wants), wants[i].event) == MergeSlot(SlotOf(hooks, wants[i].event), wants[i].entry)
  {
    hide Merged, SlotOf, MergeSlot, Marked;
    var init := wants[..|wants| - 1];
    assert forall j | 0 <= j < |init| :: init[j] == wants[j];
    MergedStep(hooks, wants, wants[i].event);
    if i == |wants| - 1 {
      MergedOther(hooks, init, wants[i].event);
    } else {
      MergedAt(hooks, init, i);
    }
  }

  lemma PresentPlus(hooks: map<string, Json>, wants: seq<Want>, w: Want)
    ensures AllPresent(hooks, wants + [w]) <==> AllPresent(hooks, wants) && w.entry in Items(SlotOf(hooks, w.event))
  {
    assert forall i | 0 <= i < |wants| :: (wants + [w])[i] == wants[i];
    assert (wants + [w])[|wants|] == w;
  }

  lemma OneMore(hooks: map<string, Json>, wants: seq<Want>, n: nat)
    requires WellFormed(wants) && n < |wants|
    ensures WellFormed(wants[..n]) && !Wanted(wants[..n], wants[n].event)
    ensures ItemsAt(Merged(hooks, wants[..n]), wants[n].event) == Items(SlotOf(hooks, wants[n].event))
    ensures wants[..n + 1][..n] == wants[..n] && wants[..n + 1] == wants[..n] + [wants[n]]
    ensures AllPresent(hooks, wants[..n + 1])
      <==> AllPresent(hooks, wants[..n]) && wants[n].entry in Items(SlotOf(hooks, wants[n].event))
  {
    MergedOther(hooks, wants[..n], wants[n].event);
    assert wants[..n + 1] == wants[..n] + [wants[n]];
    PresentPlus(hooks, wants[..n], wants[n]);
  }

  /** Merges the wanted entries in, event by event, replacing stale entries of ours. */
  method InstallHooks(x: Settings, wants: seq<Want>) returns (y: Settings, changed: bool)
    requires WellFormed(wants)
    ensures y == Install(x, wants) && changed == !AllPresent(HooksOf(x), wants)
  {
    hide Unmarked, Marked, SlotOf, Items, ItemsAt, Wanted;
    var hooks := HooksOf(x);
    changed := false;
    var n := 0;
    while n < |wants|
      invariant 0 <= n <= |wants| && hooks == Merged(HooksOf(x), wants[..n])
      invariant changed == !AllPresent(HooksOf(x), wants[..n])
    {
      var w := wants[n];
      var existing := ItemsAt(hooks, w.event);
      OneMore(HooksOf(x), wants, n);
      var found := ContainsEntry(existing, w.entry);
      if !found {
        var kept := FilterOutMarker(existing);
        hooks := hooks[w.event := Arr(kept + [w.entry])];
        changed := true;
      }
      n := n + 1;
    }
    assert wants[..n] == wants;
    y := if changed then x["hooks" := Obj(hooks)] else x;
  }

  method InstallClaudeHooks(x: Settings, hostURL: string, token: string) returns (y: Settings, changed: bool)
    ensures y == Install(x, ClaudeWants(hostURL, token))
    ensures changed == !AllPresent(HooksOf(x), ClaudeWants(hostURL, token))
  {
    y, changed := InstallHooks(x, ClaudeWants(hostURL, token));
  }

  method InstallCodexHooks(x: Settings, hostURL: string, token: string) returns (y: Settings, changed: bool)
    ensures y == Install(x, CodexWants(hostURL, token))
    ensures changed == !AllPresent(HooksOf(x), CodexWants(hostURL, token))
  {
    y, changed := InstallHooks(x, CodexWants(hostURL, token));
  }

  // ── uninstall ─────────────────────────────────────────────────────────

  function Stripped(hooks: map<string, Json>): map<string, Json> {
    map ev | ev in hooks && StripSlot(Holds(hooks[ev])).Holds? :: StripSlot(Holds(hooks[ev])).value
  }

  predicate Touches(hooks: map<string, Json>) {
    exists ev | ev in hooks :: HasOurs(Holds(hooks[ev]))
  }

  function WithHooks(x: Settings, hooks: map<string, Json>): Settings {
    if hooks == map[] then x - {"hooks"} else x["hooks" := Obj(hooks)]
  }

  function Uninstall(x: Settings): Settings {
    if Touches(HooksOf(x)) then WithHooks(x, Stripped(HooksOf(x))) else x
  }

  lemma StrippedAt(hooks: map<string, Json>, ev: string)
    ensures SlotOf(Stripped(hooks), ev) == StripSlot(SlotOf(hooks, ev))
  {
  }

  lemma TouchesMeans(hooks: map<string, Json>)
    ensures Touches(hooks) <==> exists ev :: HasOurs(SlotOf(hooks, ev))
  {
    if Touches(hooks) {
      var ev :| ev in hooks && HasOurs(Holds(hooks[ev]));
      assert HasOurs(SlotOf(hooks, ev));
    }
  }

  /** Whether or not anything was ours, an uninstall strips every slot. */
  lemma UninstalledAt(x: Settings, ev: string)
    ensures SlotOf(HooksOf(Uninstall(x)), ev) == StripSlot(SlotOf(HooksOf(x), ev))
  {
    StrippedAt(HooksOf(x), ev);
    TouchesMeans(HooksOf(x));
  }

  method StripEvent(hooks: map<string, Json>, ev: string) returns (out: map<string, Json>, changed: bool)
    requires ev in hooks
    ensures forall e :: SlotOf(out, e) == if e == ev then StripSlot(SlotOf(hooks, e)) else SlotOf(hooks, e)
    ensures changed <==> HasOurs(Holds(hooks[ev]))
  {
    hide Unmarked, Marked;
    out, changed := hooks, false;
    if hooks[ev].Arr? {
      var kept := FilterOutMarker(hooks[ev].items);
      if |kept| != |hooks[ev].items| {
        changed := true;
        out := if kept == [] then hooks - {ev} else hooks[ev := Arr(kept)];
      }
    }
  }

  method UninstallHooks(x: Settings) returns (y: Settings)
    ensures y == Uninstall(x)
  {
    if "hooks" !in x || !x["hooks"].Obj? {
      return x;
    }
    hide Unmarked, Marked, StripSlot, HasOurs, Stripped;
    var before := x["hooks"].fields;
    var hooks, changed := before, false;
    var todo := before.Keys;
    while todo != {}
      invariant todo <= before.Keys
      invariant changed <==> exists ev | ev in before && ev !in todo :: HasOurs(Holds(before[ev]))
      invariant forall ev | ev in todo :: SlotOf(hooks, ev) == SlotOf(before, ev)
      invariant forall ev | ev !in todo :: SlotOf(hooks, ev) == StripSlot(SlotOf(before, ev))
      decreases |todo|
    {
      var ev :| ev in todo;
      assert SlotOf(hooks, ev) == SlotOf(before, ev);
      todo := todo - {ev};
      var ours;
      hooks, ours := StripEvent(hooks, ev);
      changed := changed || ours;
    }
    if !changed {
      return x;
    }
    forall ev ensures SlotOf(hooks, ev) == SlotOf(Stripped(before), ev) {
      StrippedAt(before, ev);
    }
    SameSlots(hooks, Stripped(before));
    y := if hooks == map[] then x - {"hooks"} else x["hooks" := Obj(hooks)];
  }

  // ── what the two promise together ─────────────────────────────────────

  /** What an uninstall gives back unharmed: a readable hooks object, arrays under the wanted events, and
      none of our entries there already. */
  predicate Clean(x: Settings, wants: seq<Want>) {
    && ("hooks" in x ==> x["hooks"].Obj?)
    && (forall ev | ev in HooksOf(x) :: CleanSlot(Holds(HooksOf(x)[ev]), Wanted(wants, ev)))
  }

  predicate CleanSlot(s: Slot, wanted: bool) {
    s.Holds? ==> !HasOurs(s) && (wanted ==> s.value.Arr?)
  }

  function TidySlot(s: Slot, wanted: bool): Slot {
    if wanted && s == Holds(Arr([])) then Missing else s
  }

  function TidyHooks(hooks: map<string, Json>, wants: seq<Want>): map<string, Json> {
    map ev | ev in hooks && TidySlot(Holds(hooks[ev]), Wanted(wants, ev)).Holds? :: hooks[ev]
  }

  /** The settings without empty arrays under wanted events and without an empty hooks object. */
  function Tidy(x: Settings, wants: seq<Want>): Settings {
    if "hooks" in x && x["hooks"].Obj? then WithHooks(x, TidyHooks(HooksOf(x), wants)) else x
  }

  lemma TidyAt(x: Settings, wants: seq<Want>, ev: string)
    ensures SlotOf(TidyHooks(HooksOf(x), wants), ev) == TidySlot(SlotOf(HooksOf(x), ev), Wanted(wants, ev))
    ensures SlotOf(HooksOf(Tidy(x, wants)), ev) == TidySlot(SlotOf(HooksOf(x), ev), Wanted(wants, ev))
  {
  }

  lemma InstalledAt(x: Settings, wants: seq<Want>, ev: string) returns (i: nat)
    requires WellFormed(wants)
    ensures Wanted(wants, ev) ==>
      i < |wants| && wants[i].event == ev
      && SlotOf(HooksOf(Install(x, wants)), ev) == MergeSlot(SlotOf(HooksOf(x), ev), wants[i].entry)
    ensures !Wanted(wants, ev) ==> SlotOf(HooksOf(Install(x, wants)), ev) == SlotOf(HooksOf(x), ev)
  {
    hide Merged, SlotOf, Marked, Unmarked;
    i := 0;
    if Wanted(wants, ev) {
      i :| 0 <= i < |wants| && wants[i].event == ev;
      MergedAt(HooksOf(x), wants, i);
    } else {
      MergedOther(HooksOf(x), wants, ev);
    }
  }

  /** Slot by slot, an install followed by an uninstall tidies exactly the clean slots. */
  /** An install leaves a wanted event as it is if the very entry is there already; else what is not ours stays
      in order, and the entry comes last. An event that is not wanted keeps its value. */
  lemma InstallPuts(x: Settings, wants: seq<Want>, i: nat, other: string)
    requires WellFormed(wants) && i < |wants|
    ensures var was := Items(SlotOf(HooksOf(x), wants[i].event));
      Items(SlotOf(HooksOf(Install(x, wants)), wants[i].event)) ==
        if wants[i].entry in was then was else Unmarked(was) + [wants[i].entry]
    ensures (forall j | 0 <= j < |wants| :: wants[j].event != other) ==>
      SlotOf(HooksOf(Install(x, wants)), other) == SlotOf(HooksOf(x), other)
  {
    hide Marked, Unmarked, Install, HooksOf, SlotOf;
    var j := InstalledAt(x, wants, wants[i].event);
    assert i == j;
    var k := InstalledAt(x, wants, other);
  }

  lemma SlotRoundTrip(x: Settings, wants: seq<Want>, ev: string)
    requires WellFormed(wants)
    ensures SlotOf(HooksOf(Uninstall(Install(x, wants))), ev) == TidySlot(SlotOf(HooksOf(x), ev), Wanted(wants, ev))
      <==> CleanSlot(SlotOf(HooksOf(x), ev), Wanted(wants, ev))
  {
    hide Merged, Marked, Unmarked, Wanted, Install, Uninstall, HooksOf, MergeSlot, StripSlot, HasOurs;
    UninstalledAt(Install(x, wants), ev);
    var i := InstalledAt(x, wants, ev);
    var s := SlotOf(HooksOf(x), ev);
    if Wanted(wants, ev) {
      StripMerged(s, wants[i].entry);
      StripMerged(MergeSlot(s, wants[i].entry), wants[i].entry);
      WantedSlot(s, wants[i].entry);
    } else {
      OtherSlot(s);
    }
  }

  lemma WantedSlot(s: Slot, entry: Json)
    requires Marked(entry)
    ensures StripSlot(MergeSlot(s, entry)) == TidySlot(s, true) <==> CleanSlot(s, true)
  {
    hide Marked, Unmarked;
    StripMerged(s, entry);
    StripMerged(MergeSlot(s, entry), entry);
  }

  lemma OtherSlot(s: Slot)
    ensures StripSlot(s) == TidySlot(s, false) <==> CleanSlot(s, false)
  {
  }

  /** Uninstalling what was installed gives the settings back, up to empty arrays and an empty hooks
      object, exactly when they were clean to begin with. */
  lemma UninstallUndoesInstall(x: Settings, wants: seq<Want>)
    requires WellFormed(wants) && wants != []
    ensures Uninstall(Install(x, wants)) == Tidy(x, wants) <==> Clean(x, wants)
  {
    hide Merged, Stripped, TidyHooks, Marked, Unmarked, TidySlot, MergeSlot, StripSlot, HasOurs, Wanted;
    var y := Install(x, wants);
    var z := Uninstall(y);
    assert y == x["hooks" := Obj(Merged(HooksOf(x), wants))] || AllPresent(HooksOf(x), wants);
    if "hooks" in x && !x["hooks"].Obj? {
      NotPresent(HooksOf(x), wants);
      assert "hooks" in z ==> z["hooks"].Obj?;
    } else {
      CleanMeans(x, wants);
      if Clean(x, wants) {
        forall ev ensures SlotOf(HooksOf(z), ev) == SlotOf(HooksOf(Tidy(x, wants)), ev) {
          SlotRoundTrip(x, wants, ev);
          TidyAt(x, wants, ev);
        }
        SameSlots(HooksOf(z), HooksOf(Tidy(x, wants)));
        RoundTripShape(x, wants);
      } else {
        var ev :| !CleanSlot(SlotOf(HooksOf(x), ev), Wanted(wants, ev));
        SlotRoundTrip(x, wants, ev);
        TidyAt(x, wants, ev);
      }
    }
  }

  lemma CleanMeans(x: Settings, wants: seq<Want>)
    requires "hooks" in x ==> x["hooks"].Obj?
    ensures Clean(x, wants) <==> forall ev :: CleanSlot(SlotOf(HooksOf(x), ev), Wanted(wants, ev))
  {
    hide Wanted, HasOurs;
    if forall ev :: CleanSlot(SlotOf(HooksOf(x), ev), Wanted(wants, ev)) {
      forall ev | ev in HooksOf(x) ensures CleanSlot(Holds(HooksOf(x)[ev]), Wanted(wants, ev)) {
        assert CleanSlot(SlotOf(HooksOf(x), ev), Wanted(wants, ev));
      }
    }
  }

  lemma NotPresent(hooks: map<string, Json>, wants: seq<Want>)
    requires wants != [] && hooks == map[]
    ensures !AllPresent(hooks, wants)
  {
    assert Items(SlotOf(hooks, wants[0].event)) == [];
  }

  /** Both sides have a hooks object just when it is not empty, and agree elsewhere. */
  lemma RoundTripShape(x: Settings, wants: seq<Want>)
    requires WellFormed(wants) && wants != [] && Clean(x, wants)
    requires HooksOf(Uninstall(Install(x, wants))) == HooksOf(Tidy(x, wants))
    ensures Uninstall(Install(x, wants)) == Tidy(x, wants)
  {
    hide Merged, Stripped, TidyHooks, Marked, Unmarked, StripSlot, HasOurs, Wanted, MergeSlot;
    var y := Install(x, wants);
    assert !AllPresent(HooksOf(x), wants) by { CleanNotPresent(x, wants); }
    var ev := wants[0].event;
    assert Touches(HooksOf(y)) by {
      MergedAt(HooksOf(x), wants, 0);
      StripMerged(SlotOf(HooksOf(x), ev), wants[0].entry);
      assert HasOurs(SlotOf(HooksOf(y), ev));
      TouchesMeans(HooksOf(y));
    }
    assert Uninstall(y) == WithHooks(y, Stripped(HooksOf(y)));
    assert "hooks" !in x ==> HooksOf(Tidy(x, wants)) == map[];
    assert x["hooks" := y["hooks"]] == y;
  }

  lemma CleanNotPresent(x: Settings, wants: seq<Want>)
    requires WellFormed(wants) && wants != [] && Clean(x, wants)
    ensures !AllPresent(HooksOf(x), wants)
  {
    hide Marked, Unmarked, Wanted;
    var s := SlotOf(HooksOf(x), wants[0].event);
    HasOursMeans(s);
    assert s.Holds? ==> CleanSlot(s, Wanted(wants, wants[0].event));
  }

  /** A second install with the same options changes nothing, whatever the settings. */
  lemma InstallTwice(x: Settings, wants: seq<Want>)
    requires WellFormed(wants)
    ensures AllPresent(HooksOf(Install(x, wants)), wants) && Install(Install(x, wants), wants) == Install(x, wants)
  {
    hide Merged, Marked, Unmarked, MergeSlot, SlotOf, Items;
    forall i | 0 <= i < |wants| ensures wants[i].entry in Items(SlotOf(HooksOf(Install(x, wants)), wants[i].event)) {
      StripMerged(SlotOf(HooksOf(x), wants[i].event), wants[i].entry);
      MergedAt(HooksOf(x), wants, i);
    }
  }

  /** Nobody else's entry is lost, moved or changed, and nothing outside the hooks object is touched. */
  lemma OthersSurvive(x: Settings, wants: seq<Want>, ev: string)
    requires WellFormed(wants)
    ensures Unmarked(Items(SlotOf(HooksOf(Install(x, wants)), ev))) == Unmarked(Items(SlotOf(HooksOf(x), ev)))
    ensures Unmarked(Items(SlotOf(HooksOf(Uninstall(x)), ev))) == Unmarked(Items(SlotOf(HooksOf(x), ev)))
    ensures Install(x, wants) - {"hooks"} == x - {"hooks"} == Uninstall(x) - {"hooks"}
  {
    hide Merged, Stripped, Marked, Unmarked, MergeSlot, StripSlot, SlotOf, Items, HooksOf, Wanted;
    var i := InstalledAt(x, wants, ev);
    if Wanted(wants, ev) {
      StripMerged(SlotOf(HooksOf(x), ev), wants[i].entry);
    }
    UninstalledAt(x, ev);
    StripKeeps(SlotOf(HooksOf(x), ev));
  }

  lemma StripKeeps(s: Slot)
    ensures Unmarked(Items(StripSlot(s))) == Unmarked(Items(s))
  {
    UnmarkedTwice(Items(s));
  }

  // ── new options over old ──────────────────────────────────────────────

  /** Entry lists for the same events. */
  predicate SameEvents(a: seq<Want>, b: seq<Want>) {
    |a| == |b| && forall i | 0 <= i < |a| :: a[i].event == b[i].event
  }

  /** The new entry is there already without the old one, but not as our only entry and the last. */
  predicate Crowded(existing: seq<Json>, older: Json, newer: Json) {
    newer in existing && older !in existing && existing != Unmarked(existing) + [newer]
  }

  lemma MergeOver(s: Slot, older: Json, newer: Json)
    requires Marked(older) && Marked(newer)
    ensures MergeSlot(MergeSlot(s, older), newer) == MergeSlot(s, newer) <==> !Crowded(Items(s), older, newer)
  {
    hide Marked;
    UnmarkedPlus(Items(s), older);
    UnmarkedHasNone(Items(s));
    if older !in Items(s) && older != newer {
      assert newer !in Unmarked(Items(s)) + [older];
    }
  }

  lemma InstalledShape(x: Settings, wants: seq<Want>)
    requires wants != []
    ensures Install(x, wants) == x["hooks" := Obj(HooksOf(Install(x, wants)))]
  {
    hide Merged;
    if AllPresent(HooksOf(x), wants) {
      assert wants[0].entry in Items(SlotOf(HooksOf(x), wants[0].event));
      assert "hooks" in x && x["hooks"] == Obj(HooksOf(x));
    }
  }

  /** No wanted event is crowded. */
  predicate Roomy(x: Settings, older: seq<Want>, newer: seq<Want>)
    requires |older| == |newer|
  {
    forall i | 0 <= i < |newer| :: !Crowded(Items(SlotOf(HooksOf(x), newer[i].event)), older[i].entry, newer[i].entry)
  }

  lemma OverAt(x: Settings, older: seq<Want>, newer: seq<Want>, i: nat)
    requires WellFormed(older) && WellFormed(newer) && SameEvents(older, newer) && i < |newer|
    ensures SlotOf(HooksOf(Install(Install(x, older), newer)), newer[i].event)
      == SlotOf(HooksOf(Install(x, newer)), newer[i].event)
      <==> !Crowded(Items(SlotOf(HooksOf(x), newer[i].event)), older[i].entry, newer[i].entry)
  {
    hide Merged, Marked, Unmarked, MergeSlot, Crowded, Items, SlotOf;
    var s := SlotOf(HooksOf(x), newer[i].event);
    MergedAt(HooksOf(x), older, i);
    MergedAt(HooksOf(Install(x, older)), newer, i);
    MergedAt(HooksOf(x), newer, i);
    assert SlotOf(HooksOf(Install(x, older)), newer[i].event) == MergeSlot(s, older[i].entry) by {
      InstallAt(x, older, i);
    }
    InstallAt(Install(x, older), newer, i);
    InstallAt(x, newer, i);
    MergeOver(s, older[i].entry, newer[i].entry);
  }

  lemma InstallAt(x: Settings, wants: seq<Want>, i: nat)
    requires WellFormed(wants) && i < |wants|
    ensures SlotOf(HooksOf(Install(x, wants)), wants[i].event)
      == MergeSlot(SlotOf(HooksOf(x), wants[i].event), wants[i].entry)
  {
    hide Merged, SlotOf, Marked, Unmarked;
    MergedAt(HooksOf(x), wants, i);
  }

  /** Installing new options over old ones leaves what installing only the new ones would, exactly when no
      wanted event is crowded. */
  lemma NewOverOld(x: Settings, older: seq<Want>, newer: seq<Want>)
    requires WellFormed(older) && WellFormed(newer) && SameEvents(older, newer)
    ensures Install(Install(x, older), newer) == Install(x, newer) <==> Roomy(x, older, newer)
  {
    hide Merged, Marked, Unmarked, MergeSlot, Crowded, Items, WellFormed, Install, SlotOf, HooksOf;
    var y, z := Install(Install(x, older), newer), Install(x, newer);
    if newer == [] {
      NothingWanted(x, older);
      NothingWanted(Install(x, older), newer);
      NothingWanted(x, newer);
      return;
    }
    forall i | 0 <= i < |newer|
      ensures SlotOf(HooksOf(y), newer[i].event) == SlotOf(HooksOf(z), newer[i].event)
        <==> !Crowded(Items(SlotOf(HooksOf(x), newer[i].event)), older[i].entry, newer[i].entry)
    {
      OverAt(x, older, newer, i);
    }
    if Roomy(x, older, newer) {
      forall ev ensures SlotOf(HooksOf(y), ev) == SlotOf(HooksOf(z), ev) {
        if !Wanted(newer, ev) {
          assert !Wanted(older, ev);
          var i := InstalledAt(x, older, ev);
          i := InstalledAt(Install(x, older), newer, ev);
          i := InstalledAt(x, newer, ev);
        }
      }
      SameSlots(HooksOf(y), HooksOf(z));
      InstalledShape(x, older);
      InstalledShape(Install(x, older), newer);
      InstalledShape(x, newer);
    }
  }

  lemma NothingWanted(x: Settings, wants: seq<Want>)
    requires wants == []
    ensures Install(x, wants) == x
  {
  }

  lemma CleanIsRoomy(x: Settings, older: seq<Want>, newer: seq<Want>)
    requires WellFormed(newer) && |older| == |newer| && Clean(x, newer)
    ensures Roomy(x, older, newer)
  {
    hide Marked, Unmarked, Wanted;
    forall i | 0 <= i < |newer|
      ensures !Crowded(Items(SlotOf(HooksOf(x), newer[i].event)), older[i].entry, newer[i].entry)
    {
      var s := SlotOf(HooksOf(x), newer[i].event);
      HasOursMeans(s);
      assert s.Holds? ==> CleanSlot(s, Wanted(newer, newer[i].event));
    }
  }
}
