/** Slash commands of the ACP bridge: how a prompt is routed, against the menu of
    commands advertised to the client. */
module Slash {
  import opened Wrappers

  datatype Block = Text(text: string) | OtherBlock

  datatype Skill = Skill(name: string, invocation: string)

  datatype Action =
    | Compact
    | Clear
    | ListSkills
    | Help
    | RunSkill(invocation: string)
    | Unknown(cmd: string)

  // ----- strings --------------------------------------------------------

  /** The Unicode White_Space property. */
  predicate IsWhitespace(c: char) {
    var u := c as int;
    || 0x9 <= u <= 0xD || u == 0x20 || u == 0x85 || u == 0xA0 || u == 0x1680
    || 0x2000 <= u <= 0x200A || u == 0x2028 || u == 0x2029 || u == 0x202F || u == 0x205F || u == 0x3000
  }

  /** These are its twenty-five characters. */
  lemma WhitespaceListed(c: char)
    ensures IsWhitespace(c) <==>
            c as int in {9, 10, 11, 12, 13, 32, 133, 160, 5760, 8192, 8193, 8194, 8195, 8196, 8197, 8198, 8199,
                         8200, 8201, 8202, 8232, 8233, 8239, 8287, 12288}
  {
  }

  predicate AllWhite(s: string) {
    forall i | 0 <= i < |s| :: IsWhitespace(s[i])
  }

  predicate NoWhite(s: string) {
    forall i | 0 <= i < |s| :: !IsWhitespace(s[i])
  }

  function TrimStart(s: string): string {
    if s != "" && IsWhitespace(s[0]) then TrimStart(s[1..]) else s
  }

  function TrimEnd(s: string): string {
    if s != "" && IsWhitespace(s[|s| - 1]) then TrimEnd(s[..|s| - 1]) else s
  }

  function Trim(s: string): string {
    TrimEnd(TrimStart(s))
  }

  /** Where the first whitespace is, or the length. */
  function FirstWhite(s: string): (n: nat)
    ensures n <= |s| && NoWhite(s[..n]) && (n < |s| ==> IsWhitespace(s[n]))
  {
    if s == "" || IsWhitespace(s[0]) then 0
    else
      var n := 1 + FirstWhite(s[1..]);
      assert forall i | 1 <= i < n :: s[i] == s[1..][..n - 1][i - 1];
      n
  }

  /** The text without a prefix, or as it is. */
  function Stripped(s: string, prefix: string): string {
    if prefix <= s then s[|prefix|..] else s
  }

  // ----- routing --------------------------------------------------------

  const SKILL_PREFIX := "skill:"

  function Builtin(name: string): Option<Action> {
    match name
    case "compact" => Some(Compact)
    case "new" => Some(Clear)
    case "clear" => Some(Clear)
    case "skills" => Some(ListSkills)
    case "help" => Some(Help)
    case "?" => Some(Help)
    case _ => None
  }

  function Find(catalogue: seq<Skill>, name: string): Option<nat> {
    if catalogue == [] then None
    else if catalogue[0].name == name then Some(0)
    else match Find(catalogue[1..], name)
      case None => None
      case Some(i) => Some(i + 1)
  }

  /** What a command line names: a built-in, an entry of the catalogue with its
      arguments, or nothing known. */
  datatype Route = ToBuiltin(action: Action) | ToSkill(index: nat, args: string) | ToNothing(cmd: string)

  function RouteOf(text: string, catalogue: seq<Skill>): Option<Route> {
    var raw := TrimStart(text);
    if !("/" <= raw) then None
    else
      var cmd := raw[1..];
      var n := FirstWhite(cmd);
      var name, args := cmd[..n], if n < |cmd| then Trim(cmd[n + 1..]) else "";
      if Builtin(name).Some? then Some(ToBuiltin(Builtin(name).value))
      else
        match Find(catalogue, Stripped(name, SKILL_PREFIX))
        case Some(i) => Some(ToSkill(i, args))
        case None => Some(ToNothing(name))
  }

  lemma {:induction false} FindIsFirst(catalogue: seq<Skill>, name: string)
    ensures forall i :: Find(catalogue, name) == Some(i) <==>
                        0 <= i < |catalogue| && catalogue[i].name == name && First(catalogue, i)
  {
    if catalogue != [] && catalogue[0].name != name {
      FindIsFirst(catalogue[1..], name);
      forall i | 0 < i < |catalogue| && catalogue[i].name == name
        ensures First(catalogue, i) <==> First(catalogue[1..], i - 1)
      {
        if First(catalogue[1..], i - 1) {
          forall j | 0 <= j < i ensures catalogue[j].name != catalogue[i].name {
            assert j > 0 ==> catalogue[1..][j - 1] == catalogue[j];
          }
        }
      }
    }
  }

  function ActionOf(r: Route, catalogue: seq<Skill>): Action
    requires r.ToSkill? ==> r.index < |catalogue|
  {
    match r
    case ToBuiltin(action) => action
    case ToNothing(cmd) => Unknown(cmd)
    case ToSkill(i, args) =>
      RunSkill(if args == "" then catalogue[i].invocation else catalogue[i].invocation + "\n\n" + args)
  }

  lemma RouteInCatalogue(text: string, catalogue: seq<Skill>)
    ensures RouteOf(text, catalogue).Some? && RouteOf(text, catalogue).value.ToSkill? ==>
              RouteOf(text, catalogue).value.index < |catalogue|
  {
    var raw := TrimStart(text);
    if "/" <= raw {
      FindIsFirst(catalogue, Stripped(raw[1..][..FirstWhite(raw[1..])], SKILL_PREFIX));
    }
  }

  /** Only the first block is looked at; `None` starts a normal turn. */
  function ParsePrompt(blocks: seq<Block>, catalogue: seq<Skill>): Option<Action> {
    if blocks == [] || !blocks[0].Text? then None
    else
      match RouteOf(blocks[0].text, catalogue)
      case None => None
      case Some(r) =>
        RouteInCatalogue(blocks[0].text, catalogue);
        Some(ActionOf(r, catalogue))
  }

  // ----- the advertised menu --------------------------------------------

  /** The names advertised, one for each skill. */
  function AvailableCommands(catalogue: seq<Skill>): seq<string> {
    seq(|catalogue|, i requires 0 <= i < |catalogue| => catalogue[i].name)
  }

  /** No earlier entry has the same name. */
  ghost predicate First(catalogue: seq<Skill>, i: nat)
    requires i < |catalogue|
  {
    forall j | 0 <= j < i :: catalogue[j].name != catalogue[i].name
  }

  /** What a client sends for a menu entry: nothing but whitespace before the
      slash, and text after the name only behind whitespace. */
  ghost predicate Framed(lead: string, tail: string) {
    AllWhite(lead) && (tail == "" || IsWhitespace(tail[0]))
  }

  lemma {:induction false} TrimStartPast(lead: string, rest: string)
    requires AllWhite(lead) && rest != "" && !IsWhitespace(rest[0])
    ensures TrimStart(lead + rest) == rest
  {
    if lead == "" {
      assert lead + rest == rest;
    } else {
      assert (lead + rest)[1..] == lead[1..] + rest;
      TrimStartPast(lead[1..], rest);
    }
  }

  lemma {:induction false} FirstWhitePast(name: string, tail: string)
    requires tail == "" || IsWhitespace(tail[0])
    ensures FirstWhite(name + tail) <= |name|
    ensures FirstWhite(name + tail) == |name| <==> NoWhite(name)
  {
    var n := FirstWhite(name + tail);
    var all := name + tail;
    assert forall i | 0 <= i < n :: all[..n][i] == all[i] && !IsWhitespace(all[i]);
    assert n < |name| ==> all[n] == name[n];
    assert tail != "" ==> IsWhitespace(all[|name|]);
    if n == |name| {
      assert all[..n] == name;
    }
  }

  /** How a framed command line is taken apart. */
  lemma RouteFramed(lead: string, cmd: string, tail: string, catalogue: seq<Skill>)
    requires Framed(lead, tail)
    ensures var n := FirstWhite(cmd + tail);
            var name := (cmd + tail)[..n];
            var found := Find(catalogue, Stripped(name, SKILL_PREFIX));
            && n <= |cmd| && (n == |cmd| <==> NoWhite(cmd)) && (n == |cmd| ==> name == cmd)
            && RouteOf(lead + ("/" + (cmd + tail)), catalogue) ==
               Some(if Builtin(name).Some? then ToBuiltin(Builtin(name).value)
                    else if found.None? then ToNothing(name)
                    else ToSkill(found.value, if n < |cmd + tail| then Trim((cmd + tail)[n + 1..]) else ""))
  {
    TrimStartPast(lead, "/" + (cmd + tail));
    FirstWhitePast(cmd, tail);
    SlashOff(cmd + tail);
    assert (cmd + tail)[..|cmd|] == cmd;
    hide Builtin, Find, Trim, TrimStart, FirstWhite, Stripped, NoWhite, AllWhite;
  }

  lemma SlashOff(cmd: string)
    ensures "/" <= "/" + cmd && ("/" + cmd)[1..] == cmd
  {
  }

  predicate Reaches(r: Option<Route>, i: nat) {
    r.Some? && r.value.ToSkill? && r.value.index == i
  }

  /** A menu entry, typed as `/name` with any arguments, runs its own skill exactly
      when its name has no whitespace, is no built-in, does not start with the
      explicit prefix and is the first of that name; the arguments arrive trimmed. */
  lemma MenuEntryRuns(catalogue: seq<Skill>, i: nat, lead: string, tail: string)
    requires i < |catalogue| && Framed(lead, tail)
    ensures var name := AvailableCommands(catalogue)[i];
            var r := RouteOf(lead + ("/" + (name + tail)), catalogue);
            && (Reaches(r, i) <==>
                NoWhite(name) && Builtin(name).None? && !("skill:" <= name) && First(catalogue, i))
            && (Reaches(r, i) ==> r.value.args == Trim(tail))
  {
    var name := catalogue[i].name;
    RouteFramed(lead, name, tail, catalogue);
    var n := FirstWhite(name + tail);
    FindIsFirst(catalogue, Stripped((name + tail)[..n], SKILL_PREFIX));
    if n == |name| && tail != "" {
      assert (name + tail)[n + 1..] == tail[1..];
      assert Trim(tail) == Trim(tail[1..]);
    }
    assert tail == "" ==> name + tail == name;
    hide Builtin, Find, Trim, FirstWhite, RouteOf;
  }

  /** With the explicit prefix a skill is reached exactly when its name has no
      whitespace and is the first of that name, whatever the built-ins are. */
  lemma ExplicitEntryRuns(catalogue: seq<Skill>, i: nat, lead: string, tail: string)
    requires i < |catalogue| && Framed(lead, tail)
    ensures var name := catalogue[i].name;
            var r := RouteOf(lead + ("/" + (("skill:" + name) + tail)), catalogue);
            && (Reaches(r, i) <==> NoWhite(name) && First(catalogue, i))
            && (Reaches(r, i) ==> r.value.args == Trim(tail))
  {
    var name := catalogue[i].name;
    var cmd := SKILL_PREFIX + name;
    RouteFramed(lead, cmd, tail, catalogue);
    var n := FirstWhite(cmd + tail);
    var used := (cmd + tail)[..n];
    FindIsFirst(catalogue, Stripped(used, SKILL_PREFIX));
    PrefixedName(name);
    hide Builtin, Find, FirstWhite, RouteOf;
    if n == |cmd| {
      if tail != "" {
        assert (cmd + tail)[n + 1..] == tail[1..];
        assert Trim(tail) == Trim(tail[1..]);
      } else {
        assert cmd + tail == cmd;
      }
    } else {
      assert SKILL_PREFIX <= used ==> |Stripped(used, SKILL_PREFIX)| < |name|;
      assert !(SKILL_PREFIX <= used) ==> Stripped(used, SKILL_PREFIX) != name;
    }
  }

  /** With the explicit prefix no name is a built-in, and the prefix comes off. */
  lemma PrefixedName(name: string)
    ensures var cmd := SKILL_PREFIX + name;
            Builtin(cmd).None? && Stripped(cmd, SKILL_PREFIX) == name && (NoWhite(cmd) <==> NoWhite(name))
  {
    var cmd := SKILL_PREFIX + name;
    assert cmd[5] == ':';
    assert forall j | 0 <= j < |name| :: name[j] == cmd[j + 6];
  }

  /** The built-in commands. */
  const COMMANDS: seq<(string, Action)> :=
    [("compact", Compact), ("new", Clear), ("clear", Clear), ("skills", ListSkills), ("help", Help), ("?", Help)]

  /** A built-in runs whatever the catalogue holds and whatever follows it, and
      nothing else is one. */
  lemma BuiltinsComeFirst(catalogue: seq<Skill>, name: string, lead: string, tail: string)
    requires Framed(lead, tail) && NoWhite(name)
    ensures forall c | c in COMMANDS && c.0 == name ::
              RouteOf(lead + ("/" + (name + tail)), catalogue) == Some(ToBuiltin(c.1))
    ensures var r := RouteOf(lead + ("/" + (name + tail)), catalogue);
            r.Some? && (r.value.ToBuiltin? <==> exists c :: c in COMMANDS && c.0 == name)
  {
    RouteFramed(lead, name, tail, catalogue);
    hide RouteOf, Find, Trim, FirstWhite, Stripped;
    assert COMMANDS[0].0 == "compact" && COMMANDS[1].0 == "new" && COMMANDS[2].0 == "clear";
    assert COMMANDS[3].0 == "skills" && COMMANDS[4].0 == "help" && COMMANDS[5].0 == "?";
  }

  /** What a client sends for a built-in does what that built-in does. */
  lemma BuiltinPrompt(catalogue: seq<Skill>, c: (string, Action), lead: string, tail: string, more: seq<Block>)
    requires Framed(lead, tail) && c in COMMANDS
    ensures ParsePrompt([Text(lead + ("/" + (c.0 + tail)))] + more, catalogue) == Some(c.1)
  {
    CommandsPlain(c);
    BuiltinsComeFirst(catalogue, c.0, lead, tail);
    hide RouteOf;
  }

  lemma CommandsPlain(c: (string, Action))
    requires c in COMMANDS
    ensures NoWhite(c.0)
  {
  }

  /** A name that is no built-in and, with or without the explicit prefix, no skill
      is reported as it was typed. */
  lemma UnknownPrompt(catalogue: seq<Skill>, name: string, lead: string, tail: string, more: seq<Block>)
    requires Framed(lead, tail) && NoWhite(name) && forall c | c in COMMANDS :: c.0 != name
    requires forall s | s in catalogue :: s.name != if "skill:" <= name then name[6..] else name
    ensures ParsePrompt([Text(lead + ("/" + (name + tail)))] + more, catalogue) == Some(Unknown(name))
  {
    RouteFramed(lead, name, tail, catalogue);
    BuiltinsComeFirst(catalogue, name, lead, tail);
    FindIsFirst(catalogue, Stripped(name, SKILL_PREFIX));
    hide RouteOf, Find, Trim, FirstWhite, Builtin;
  }

  /** A prompt is taken for a command exactly when its first block is text that, after
      whitespace, starts with a slash. */
  lemma CommandsIff(catalogue: seq<Skill>, blocks: seq<Block>)
    ensures ParsePrompt(blocks, catalogue).Some? <==>
            && blocks != [] && blocks[0].Text?
            && exists lead, rest :: AllWhite(lead) && blocks[0].text == lead + ("/" + rest)
  {
    if blocks != [] && blocks[0].Text? {
      var text := blocks[0].text;
      var lead := TrimStartMeaning(text);
      var raw := TrimStart(text);
      if "/" <= raw {
        assert raw == "/" + raw[1..];
        assert text == lead + ("/" + raw[1..]);
      }
      if before, rest :| AllWhite(before) && text == before + ("/" + rest) {
        TrimStartPast(before, "/" + rest);
        SlashOff(rest);
      }
      hide Builtin, Find, Trim, TrimStart, FirstWhite, Stripped, AllWhite;
    }
  }

  // ----- arguments ------------------------------------------------------

  /** Trimming takes whitespace off both ends and nothing else. */
  lemma {:induction false} TrimMeaning(s: string)
    ensures exists before, after ::
              s == before + Trim(s) + after && AllWhite(before) && AllWhite(after)
    ensures Trim(s) == "" || (!IsWhitespace(Trim(s)[0]) && !IsWhitespace(Trim(s)[|Trim(s)| - 1]))
  {
    var middle := TrimStart(s);
    var before := TrimStartMeaning(s);
    var after := TrimEndMeaning(middle);
    assert s == before + Trim(s) + after;
  }

  lemma {:induction false} TrimStartMeaning(s: string) returns (before: string)
    ensures s == before + TrimStart(s) && AllWhite(before)
    ensures TrimStart(s) == "" || !IsWhitespace(TrimStart(s)[0])
  {
    before := "";
    if s != "" && IsWhitespace(s[0]) {
      var rest := TrimStartMeaning(s[1..]);
      before := [s[0]] + rest;
    }
  }

  lemma {:induction false} TrimEndMeaning(s: string) returns (after: string)
    ensures s == TrimEnd(s) + after && AllWhite(after)
    ensures TrimEnd(s) == "" || !IsWhitespace(TrimEnd(s)[|TrimEnd(s)| - 1])
    ensures TrimEnd(s) <= s
  {
    after := "";
    if s != "" && IsWhitespace(s[|s| - 1]) {
      var rest := TrimEndMeaning(s[..|s| - 1]);
      after := rest + [s[|s| - 1]];
    }
  }

  /** The model sees the skill's block and, after a blank line, exactly the trimmed
      arguments. */
  lemma InvocationCarriesArguments(catalogue: seq<Skill>, i: nat, lead: string, tail: string, more: seq<Block>)
    requires i < |catalogue| && Framed(lead, tail)
    requires NoWhite(catalogue[i].name) && First(catalogue, i)
    ensures var name, invocation := catalogue[i].name, catalogue[i].invocation;
            var run := Some(RunSkill(if Trim(tail) == "" then invocation else invocation + "\n\n" + Trim(tail)));
            && ParsePrompt([Text(lead + ("/" + (("skill:" + name) + tail)))] + more, catalogue) == run
            && (Builtin(name).None? && !("skill:" <= name) ==>
                  ParsePrompt([Text(lead + ("/" + (name + tail)))] + more, catalogue) == run)
  {
    ExplicitEntryRuns(catalogue, i, lead, tail);
    MenuEntryRuns(catalogue, i, lead, tail);
    hide RouteOf, Trim, Builtin;
  }
}
