// The command line of the Claude process (src/activations/claudecode/executor.rs):
// its arguments, the MCP option inserted into them, and the quoting that must
// survive a shell.
module Shell {
  import opened Prelude

  // ------------------------------------------------------------------ quoting

  /** s.replace('\'', "'\\''"). */
  function Requoted(s: string): string {
    if s == "" then ""
    else (if s[0] == '\'' then "'\\''" else [s[0]]) + Requoted(s[1..])
  }

  function ShellEscape(s: string): string {
    "'" + Requoted(s) + "'"
  }

  /** Each argument escaped, joined by blanks. */
  function Joined(args: seq<string>): string {
    if args == [] then ""
    else if |args| == 1 then ShellEscape(args[0])
    else ShellEscape(args[0]) + " " + Joined(args[1..])
  }

  function ShellCommand(path: string, args: seq<string>): string {
    ShellEscape(path) + " " + Joined(args)
  }

  // --------------------------------------------------- what a shell reads back

  /** Characters that, unquoted, mean more than themselves to a shell. */
  predicate Special(c: char) {
    c in "|&;<>()$`\"*?[]#~=%!{}\n"
  }

  /** The words of a simple command by the POSIX.1-2017 Shell Command Language:
      the escape character (section 2.2.1), single quotes (section 2.2.2) and token
      recognition (section 2.3). `word` is the word begun, `quoted` tells whether
      a single quote is open. None stands for whatever else a shell would do: an
      unfinished quote, an unquoted special character, or a NUL, which no
      argument can carry. */
  function Words(s: string, word: Option<string>, quoted: bool): Option<seq<string>>
    decreases |s|
  {
    var begun := if word.Some? then word.value else "";
    if s == "" then
      if quoted then None else Some(if word.Some? then [begun] else [])
    else if s[0] == '\0' then None
    else if quoted then
      if s[0] == '\'' then Words(s[1..], Some(begun), false) else Words(s[1..], Some(begun + [s[0]]), true)
    else if s[0] == '\'' then Words(s[1..], Some(begun), true)
    else if s[0] == '\\' then
      if |s| < 2 || s[1] == '\0' then None
      else if s[1] == '\n' then Words(s[2..], word, false)
      else Words(s[2..], Some(begun + [s[1]]), false)
    else if s[0] == ' ' || s[0] == '\t' then
      match Words(s[1..], None, false)
      case None => None
      case Some(rest) => Some((if word.Some? then [begun] else []) + rest)
    else if Special(s[0]) then None
    else Words(s[1..], Some(begun + [s[0]]), false)
  }

  predicate NulFree(s: string) {
    '\0' !in s
  }

  predicate AllNulFree(args: seq<string>) {
    forall i :: 0 <= i < |args| ==> NulFree(args[i])
  }

  /** Inside single quotes the escaped text is read back as it was. */
  lemma {:induction false} ReadQuoted(a: string, begun: string, rest: string)
    requires NulFree(a)
    ensures Words(Requoted(a) + "'" + rest, Some(begun), true) == Words(rest, Some(begun + a), false)
  {
    var s := Requoted(a) + "'" + rest;
    if a == "" {
      assert s == "'" + rest;
      assert s[1..] == rest && begun + a == begun;
    } else {
      var tail := Requoted(a[1..]) + "'" + rest;
      assert NulFree(a[1..]);
      assert a == [a[0]] + a[1..];
      assert begun + [a[0]] + a[1..] == begun + a;
      ReadQuoted(a[1..], begun + [a[0]], rest);
      if a[0] == '\'' {
        ReadQuote(begun, tail);
        assert s == "'\\''" + tail;
      } else {
        assert a[0] in a;
        assert s == [a[0]] + tail;
        assert s[1..] == tail;
      }
    }
  }

  /** A quote inside quotes: close, escaped quote, reopen. */
  lemma {:induction false} ReadQuote(begun: string, tail: string)
    ensures Words("'\\''" + tail, Some(begun), true) == Words(tail, Some(begun + ['\'']), true)
  {
    var s := "'\\''" + tail;
    assert s[1..] == "\\''" + tail;
    assert s[1..][2..] == "'" + tail;
    assert ("'" + tail)[1..] == tail;
    assert Words(s, Some(begun), true) == Words(s[1..], Some(begun), false);
    assert Words(s[1..], Some(begun), false) == Words(s[1..][2..], Some(begun + ['\'']), false);
  }

  lemma {:induction false} ReadEscaped(a: string, rest: string)
    requires NulFree(a)
    ensures Words(ShellEscape(a) + rest, None, false) == Words(rest, Some(a), false)
  {
    var s := ShellEscape(a) + rest;
    assert s == "'" + (Requoted(a) + "'" + rest);
    assert s[1..] == Requoted(a) + "'" + rest;
    ReadQuoted(a, "", rest);
    assert "" + a == a;
  }

  lemma {:induction false} ReadBlank(a: string, rest: string)
    ensures Words(" " + rest, Some(a), false) ==
      match Words(rest, None, false)
      case None => None
      case Some(words) => Some([a] + words)
  {
    assert (" " + rest)[1..] == rest;
  }

  lemma {:induction false} ReadJoined(args: seq<string>)
    requires AllNulFree(args)
    ensures Words(Joined(args), None, false) == Some(args)
  {
    if args != [] {
      assert NulFree(args[0]) && AllNulFree(args[1..]);
      if |args| == 1 {
        assert ShellEscape(args[0]) + "" == ShellEscape(args[0]);
        ReadEscaped(args[0], "");
        assert args == [args[0]];
      } else {
        ReadJoined(args[1..]);
        ReadFirst(args);
      }
    }
  }

  lemma {:induction false} ReadFirst(args: seq<string>)
    requires |args| > 1 && NulFree(args[0]) && Words(Joined(args[1..]), None, false) == Some(args[1..])
    ensures Words(Joined(args), None, false) == Some(args)
  {
    var rest := " " + Joined(args[1..]);
    assert Joined(args) == ShellEscape(args[0]) + rest;
    ReadEscaped(args[0], rest);
    ReadBlank(args[0], Joined(args[1..]));
    assert [args[0]] + args[1..] == args;
  }

  /** No shell reads a NUL. */
  lemma {:induction false} NulUnreadable(s: string, word: Option<string>, quoted: bool)
    requires '\0' in s
    ensures Words(s, word, quoted) == None
    decreases |s|
  {
    if s[0] != '\0' {
      assert s == [s[0]] + s[1..];
      assert '\0' in s[1..];
      var begun := if word.Some? then word.value else "";
      if !quoted && s[0] == '\\' {
        if |s| >= 2 && s[1] != '\0' {
          assert s[1..] == [s[1]] + s[2..];
          NulUnreadable(s[2..], if s[1] == '\n' then word else Some(begun + [s[1]]), false);
        }
      } else if quoted {
        NulUnreadable(s[1..], if s[0] == '\'' then Some(begun) else Some(begun + [s[0]]), s[0] != '\'');
      } else if s[0] == '\'' {
        NulUnreadable(s[1..], Some(begun), true);
      } else if s[0] == ' ' || s[0] == '\t' {
        NulUnreadable(s[1..], None, false);
      } else if !Special(s[0]) {
        NulUnreadable(s[1..], Some(begun + [s[0]]), false);
      }
    }
  }

  lemma {:induction false} NulSurvives(s: string)
    requires '\0' in s
    ensures '\0' in Requoted(s)
  {
    if s[0] != '\0' {
      assert s == [s[0]] + s[1..];
      NulSurvives(s[1..]);
    }
  }

  lemma {:induction false} NulJoins(args: seq<string>, i: nat)
    requires i < |args| && '\0' in args[i]
    ensures '\0' in Joined(args)
  {
    NulSurvives(args[i]);
    assert '\0' in ShellEscape(args[i]);
    if i > 0 {
      NulJoins(args[1..], i - 1);
    }
  }

  /** A shell splits the assembled command back into the path and the arguments,
      whatever they contain, exactly when none of them contains a NUL. */
  lemma {:induction false} CommandRoundTrip(path: string, args: seq<string>)
    ensures Words(ShellCommand(path, args), None, false) == Some([path] + args) <==> NulFree(path) && AllNulFree(args)
  {
    var rest := " " + Joined(args);
    assert ShellCommand(path, args) == ShellEscape(path) + rest;
    if !NulFree(path) {
      NulSurvives(path);
      assert '\0' in ShellEscape(path);
      NulUnreadable(ShellCommand(path, args), None, false);
    } else if !AllNulFree(args) {
      var i :| 0 <= i < |args| && !NulFree(args[i]);
      NulJoins(args, i);
      NulUnreadable(ShellCommand(path, args), None, false);
    } else {
      ReadEscaped(path, rest);
      ReadBlank(path, Joined(args));
      ReadJoined(args);
    }
  }

  // ---------------------------------------------------------------- arguments

  datatype Model = Opus | Sonnet | Haiku

  function ModelName(m: Model): string {
    match m
    case Opus => "opus"
    case Sonnet => "sonnet"
    case Haiku => "haiku"
  }

  function Digits(n: nat): (s: string)
    ensures |s| > 0 && s[0] != '-'
  {
    var digit := ['0' + (n % 10) as char];
    if n < 10 then digit else Digits(n / 10) + digit
  }

  function Decimal(n: int): (s: string)
    ensures s != SEPARATOR
  {
    if n >= 0 then Digits(n) else
      assert Digits(-n)[0] != '-';
      assert ("-" + Digits(-n))[1] == Digits(-n)[0];
      "-" + Digits(-n)
  }

  /** names.join(","). */
  function Commas(names: seq<string>): string {
    if names == [] then "" else if |names| == 1 then names[0] else names[0] + "," + Commas(names[1..])
  }

  datatype LaunchConfig = LaunchConfig(
    sessionId: Option<string>, forkSession: bool, model: Model, maxTurns: Option<int>, systemPrompt: Option<string>,
    loopbackEnabled: bool, permissionTool: Option<string>, allowedTools: seq<string>, disallowedTools: seq<string>,
    query: string)

  const SEPARATOR := "--"
  const PERMIT_TOOL := "mcp__plexus__loopback_permit"

  /** An option and its value, if there is one. */
  function Given(name: string, value: Option<string>): seq<string> {
    if value.Some? then [name, value.value] else []
  }

  function ListGiven(name: string, names: seq<string>): seq<string> {
    if names == [] then [] else [name, Commas(names)]
  }

  function PermissionTool(config: LaunchConfig): Option<string> {
    if config.loopbackEnabled then Some(PERMIT_TOOL) else config.permissionTool
  }

  /** The arguments before the separator. */
  function OptionsOf(config: LaunchConfig): seq<string> {
    ["--output-format", "stream-json", "--include-partial-messages", "--verbose", "--print"]
    + Given("--resume", config.sessionId)
    + (if config.sessionId.Some? && config.forkSession then ["--fork-session"] else [])
    + ["--model", ModelName(config.model)]
    + (if config.maxTurns.Some? then ["--max-turns", Decimal(config.maxTurns.value)] else [])
    + Given("--system-prompt", config.systemPrompt)
    + Given("--permission-prompt-tool", PermissionTool(config))
    + ListGiven("--allowedTools", config.allowedTools)
    + ListGiven("--disallowedTools", config.disallowedTools)
  }

  method PushOption(args: seq<string>, name: string, value: Option<string>) returns (r: seq<string>)
    ensures r == args + Given(name, value)
  {
    r := args;
    if value.Some? {
      r := r + [name, value.value];
    }
  }

  method PushList(args: seq<string>, name: string, names: seq<string>) returns (r: seq<string>)
    ensures r == args + ListGiven(name, names)
  {
    r := args;
    if names != [] {
      r := r + [name, Commas(names)];
    }
  }

  method BuildArgs(config: LaunchConfig) returns (args: seq<string>)
    ensures args == OptionsOf(config) + [SEPARATOR, config.query]
  {
    args := ["--output-format", "stream-json", "--include-partial-messages", "--verbose", "--print"];
    args := PushOption(args, "--resume", config.sessionId);
    args := args + if config.sessionId.Some? && config.forkSession then ["--fork-session"] else [];
    args := args + ["--model", ModelName(config.model)];
    args := args + if config.maxTurns.Some? then ["--max-turns", Decimal(config.maxTurns.value)] else [];
    args := PushOption(args, "--system-prompt", config.systemPrompt);
    var tool := config.permissionTool;
    if config.loopbackEnabled {
      tool := Some(PERMIT_TOOL);
    }
    args := PushOption(args, "--permission-prompt-tool", tool);
    args := PushList(args, "--allowedTools", config.allowedTools);
    args := PushList(args, "--disallowedTools", config.disallowedTools);
    args := args + [SEPARATOR, config.query];
  }

  /** Where the MCP option goes: before the first argument equal to the separator. */
  function FirstSeparator(args: seq<string>): (p: nat)
    ensures p <= |args| && (p < |args| ==> args[p] == SEPARATOR)
    ensures forall i :: 0 <= i < p ==> args[i] != SEPARATOR
  {
    if args == [] || args[0] == SEPARATOR then 0 else 1 + FirstSeparator(args[1..])
  }

  /** Vec::insert. */
  function Inserted<T>(s: seq<T>, at: nat, x: T): seq<T>
    requires at <= |s|
  {
    s[..at] + [x] + s[at..]
  }

  method InsertMcp(args: seq<string>, path: string) returns (r: seq<string>)
    ensures var p := FirstSeparator(args);
            r == if p < |args| then args[..p] + ["--mcp-config", path] + args[p..] else args
  {
    var p := 0;
    while p < |args| && args[p] != SEPARATOR
      invariant p <= |args| && p + FirstSeparator(args[p..]) == FirstSeparator(args)
    {
      assert args[p..][1..] == args[p + 1..];
      p := p + 1;
    }
    r := args;
    if p < |args| {
      r := Inserted(r, p, path);
      r := Inserted(r, p, "--mcp-config");
    }
  }

  /** No argument before the separator is itself the separator. */
  predicate NoSeparatorValue(config: LaunchConfig) {
    && config.sessionId != Some(SEPARATOR) && config.systemPrompt != Some(SEPARATOR)
    && PermissionTool(config) != Some(SEPARATOR)
    && (config.allowedTools != [] ==> Commas(config.allowedTools) != SEPARATOR)
    && (config.disallowedTools != [] ==> Commas(config.disallowedTools) != SEPARATOR)
  }

  lemma {:induction false} SeparatorInOptions(config: LaunchConfig)
    ensures SEPARATOR in OptionsOf(config) <==> !NoSeparatorValue(config)
  {
  }

  lemma {:induction false} PlacedBefore(options: seq<string>, query: string, path: string)
    ensures var args := options + [SEPARATOR, query];
            var p := FirstSeparator(args);
            && p <= |options|
            && (args[..p] + ["--mcp-config", path] + args[p..] == options + ["--mcp-config", path, SEPARATOR, query]
                <==> SEPARATOR !in options)
  {
    var args := options + [SEPARATOR, query];
    var p := FirstSeparator(args);
    assert args[|options|] == SEPARATOR;
    if p < |options| {
      var final := args[..p] + ["--mcp-config", path] + args[p..];
      assert options[p] == SEPARATOR && final[p] == "--mcp-config";
      assert (options + ["--mcp-config", path, SEPARATOR, query])[p] == SEPARATOR;
    } else {
      assert args[..p] == options && args[p..] == [SEPARATOR, query];
      assert forall i :: 0 <= i < |options| ==> args[i] == options[i];
    }
  }

  /** With the MCP option inserted the last two arguments are still the separator
      and the query; and the option stands right before them exactly when no value
      given to an earlier option is the separator. */
  lemma {:induction false} McpPlacement(config: LaunchConfig, path: string)
    ensures var args := OptionsOf(config) + [SEPARATOR, config.query];
            var p := FirstSeparator(args);
            && p < |args|
            && (args[..p] + ["--mcp-config", path] + args[p..])[|args|..] == [SEPARATOR, config.query]
            && (args[..p] + ["--mcp-config", path] + args[p..]
                == OptionsOf(config) + ["--mcp-config", path, SEPARATOR, config.query]
                <==> NoSeparatorValue(config))
  {
    var options := OptionsOf(config);
    PlacedBefore(options, config.query, path);
    SeparatorInOptions(config);
    KeepsTail(options, [SEPARATOR, config.query], FirstSeparator(options + [SEPARATOR, config.query]),
      ["--mcp-config", path]);
  }

  lemma {:induction false} KeepsTail(options: seq<string>, tail: seq<string>, p: nat, inserted: seq<string>)
    requires p <= |options|
    ensures var args := options + tail;
            (args[..p] + inserted + args[p..])[|options| + |inserted|..] == tail
  {
  }
}
