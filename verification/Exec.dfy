// internal/apps/apps_linux.go: splitting a desktop entry's Exec value into
// tokens, and finding the program behind launch wrappers.
module Exec {
  import opened Text

  // ---------- execTokens ----------

  // flush drops empty tokens and field codes.
  predicate Shown(token: string) { token != "" && !HasPrefix(token, "%") }

  function Flushed(tokens: seq<string>, token: string): seq<string> {
    if Shown(token) then tokens + [token] else tokens
  }

  // No quote is open when quote is the zero rune.
  const NO_QUOTE := '\U{0000}'

  datatype Lexer = Lexer(tokens: seq<string>, token: string, quote: char, escaped: bool)

  const START := Lexer([], "", NO_QUOTE, false)

  function Next(l: Lexer, c: char): Lexer {
    if l.escaped then l.(token := l.token + [c], escaped := false)
    else if c == '\\' then l.(escaped := true)
    else if l.quote != NO_QUOTE then
      if c == l.quote then l.(quote := NO_QUOTE) else l.(token := l.token + [c])
    else if c == '\'' || c == '"' then l.(quote := c)
    else if c == ' ' || c == '\t' then l.(tokens := Flushed(l.tokens, l.token), token := "")
    else l.(token := l.token + [c])
  }

  function Lex(l: Lexer, text: string): Lexer
    decreases |text|
  {
    if text == "" then l else Lex(Next(l, text[0]), text[1..])
  }

  function Tokens(command: string): seq<string> {
    var end := Lex(START, TrimSpace(command));
    Flushed(end.tokens, end.token)
  }

  method ExecTokens(command: string) returns (tokens: seq<string>)
    ensures tokens == Tokens(command)
  {
    var text := TrimSpace(command);
    if text == "" {
      return [];
    }
    tokens := [];
    var token := "";
    var quote := NO_QUOTE;
    var escaped := false;
    for i := 0 to |text|
      invariant Lex(Lexer(tokens, token, quote, escaped), text[i..]) == Lex(START, text)
    {
      var character := text[i];
      assert text[i..][1..] == text[i + 1..];
      if escaped {
        token := token + [character];
        escaped := false;
        continue;
      }
      if character == '\\' {
        escaped := true;
        continue;
      }
      if quote != NO_QUOTE {
        if character == quote {
          quote := NO_QUOTE;
        } else {
          token := token + [character];
        }
        continue;
      }
      if character == '\'' || character == '"' {
        quote := character;
        continue;
      }
      if character == ' ' || character == '\t' {
        if token != "" && !HasPrefix(token, "%") {
          tokens := tokens + [token];
        }
        token := "";
        continue;
      }
      token := token + [character];
    }
    if token != "" && !HasPrefix(token, "%") {
      tokens := tokens + [token];
    }
  }

  // ---------- quoting is inverted exactly ----------

  // The double-quoted form of the Desktop Entry Specification, section "The
  // Exec key": a backslash before ", `, $ and \.
  function Escaped(token: string): string {
    if token == "" then ""
    else (if token[0] in {'"', '`', '$', '\\'} then ['\\', token[0]] else [token[0]]) + Escaped(token[1..])
  }

  function Quoted(token: string): string { "\"" + Escaped(token) + "\"" }

  function Joined(tokens: seq<string>): string {
    if tokens == [] then ""
    else if |tokens| == 1 then Quoted(tokens[0])
    else Quoted(tokens[0]) + " " + Joined(tokens[1..])
  }

  function ShownOf(tokens: seq<string>): seq<string> {
    if tokens == [] then [] else (if Shown(tokens[0]) then [tokens[0]] else []) + ShownOf(tokens[1..])
  }

  lemma {:induction false} LexConcat(l: Lexer, a: string, b: string)
    ensures Lex(l, a + b) == Lex(Lex(l, a), b)
    decreases |a|
  {
    if a == "" {
      assert a + b == b;
    } else {
      assert (a + b)[1..] == a[1..] + b;
      LexConcat(Next(l, a[0]), a[1..], b);
    }
  }

  // Inside double quotes, an escaped text is read back as itself.
  lemma {:induction false} LexEscaped(l: Lexer, text: string)
    requires l.quote == '"' && !l.escaped
    ensures Lex(l, Escaped(text)) == l.(token := l.token + text)
    decreases |text|
  {
    if text == "" {
      assert l.token + text == l.token;
    } else {
      var head := if text[0] in {'"', '`', '$', '\\'} then ['\\', text[0]] else [text[0]];
      var next := l.(token := l.token + [text[0]]);
      LexHead(l, text[0], head);
      LexConcat(l, head, Escaped(text[1..]));
      LexEscaped(next, text[1..]);
      assert next.token + text[1..] == l.token + text;
    }
  }

  lemma LexHead(l: Lexer, c: char, head: string)
    requires l.quote == '"' && !l.escaped
    requires head == if c in {'"', '`', '$', '\\'} then ['\\', c] else [c]
    ensures Lex(l, head) == l.(token := l.token + [c])
  {
    if |head| == 2 {
      assert head[1..] == [c] && [c][1..] == "";
      assert Lex(l, head) == Lex(Next(l, '\\'), [c]);
    } else {
      assert [c][1..] == "";
    }
  }

  lemma LexQuoted(tokens: seq<string>, text: string)
    ensures Lex(Lexer(tokens, "", NO_QUOTE, false), Quoted(text)) == Lexer(tokens, text, NO_QUOTE, false)
  {
    var l := Lexer(tokens, "", NO_QUOTE, false);
    var open := l.(quote := '"');
    assert Quoted(text) == "\"" + (Escaped(text) + "\"");
    LexOne(l, '"');
    LexConcat(l, "\"", Escaped(text) + "\"");
    LexConcat(open, Escaped(text), "\"");
    LexEscaped(open, text);
    LexOne(open.(token := text), '"');
    assert "" + text == text;
  }

  lemma LexOne(l: Lexer, c: char)
    ensures Lex(l, [c]) == Next(l, c)
  {
    assert [c][1..] == "";
  }

  lemma {:induction false} LexJoined(done: seq<string>, tokens: seq<string>)
    ensures var end := Lex(Lexer(done, "", NO_QUOTE, false), Joined(tokens));
      !end.escaped && end.quote == NO_QUOTE && Flushed(end.tokens, end.token) == done + ShownOf(tokens)
    decreases |tokens|
  {
    var l := Lexer(done, "", NO_QUOTE, false);
    if |tokens| == 1 {
      LexQuoted(done, tokens[0]);
      assert ShownOf(tokens[1..]) == [];
    } else if |tokens| > 1 {
      var rest := " " + Joined(tokens[1..]);
      LexQuoted(done, tokens[0]);
      assert Joined(tokens) == Quoted(tokens[0]) + rest;
      LexConcat(l, Quoted(tokens[0]), rest);
      var read := Lexer(done, tokens[0], NO_QUOTE, false);
      LexConcat(read, " ", Joined(tokens[1..]));
      LexOne(read, ' ');
      LexJoined(Flushed(done, tokens[0]), tokens[1..]);
      assert Flushed(done, tokens[0]) + ShownOf(tokens[1..]) == done + ShownOf(tokens);
    }
  }

  lemma {:induction false} JoinedEnds(tokens: seq<string>)
    requires tokens != []
    ensures |Joined(tokens)| >= 2 && Joined(tokens)[0] == '"' && Joined(tokens)[|Joined(tokens)| - 1] == '"'
  {
    if |tokens| > 1 { JoinedEnds(tokens[1..]); }
  }

  // The round trip, on every list: quoting and joining loses exactly the tokens
  // that execTokens never shows, the empty ones and the field codes.
  lemma QuotingRoundTrip(tokens: seq<string>)
    ensures Tokens(Joined(tokens)) == ShownOf(tokens)
    ensures (forall i :: 0 <= i < |tokens| ==> Shown(tokens[i])) <==> Tokens(Joined(tokens)) == tokens
  {
    if tokens != [] {
      JoinedEnds(tokens);
      assert !IsSpace('"');
    }
    assert TrimSpace(Joined(tokens)) == Joined(tokens);
    LexJoined([], tokens);
    ShownIsAll(tokens);
  }

  lemma {:induction false} ShownIsAll(tokens: seq<string>)
    ensures |ShownOf(tokens)| <= |tokens|
    ensures ShownOf(tokens) == tokens <==> forall i :: 0 <= i < |tokens| ==> Shown(tokens[i])
  {
    if tokens != [] {
      ShownIsAll(tokens[1..]);
      assert tokens == [tokens[0]] + tokens[1..];
      if Shown(tokens[0]) {
        assert ShownOf(tokens)[1..] == ShownOf(tokens[1..]);
      }
    }
  }

  // ---------- the tokens are no longer than the command ----------

  function Size(tokens: seq<string>): nat {
    if tokens == [] then 0 else Size(tokens[..|tokens| - 1]) + |tokens[|tokens| - 1]|
  }

  lemma FlushedSize(tokens: seq<string>, token: string)
    ensures Size(Flushed(tokens, token)) <= Size(tokens) + |token|
  {
    assert (tokens + [token])[..|tokens|] == tokens;
  }

  lemma NextSize(l: Lexer, c: char)
    ensures var n := Next(l, c); Size(n.tokens) + |n.token| <= Size(l.tokens) + |l.token| + 1
  {
    FlushedSize(l.tokens, l.token);
  }

  lemma {:induction false} LexSize(l: Lexer, text: string)
    ensures var end := Lex(l, text); Size(end.tokens) + |end.token| <= Size(l.tokens) + |l.token| + |text|
    decreases |text|
  {
    if text != "" {
      NextSize(l, text[0]);
      LexSize(Next(l, text[0]), text[1..]);
    }
  }

  lemma {:induction false} LexShows(l: Lexer, text: string)
    requires forall i :: 0 <= i < |l.tokens| ==> Shown(l.tokens[i])
    ensures forall i :: 0 <= i < |Lex(l, text).tokens| ==> Shown(Lex(l, text).tokens[i])
    decreases |text|
  {
    if text != "" { LexShows(Next(l, text[0]), text[1..]); }
  }

  lemma {:induction false} TrimRightShortens(s: string)
    ensures |TrimRight(s)| <= |s|
  {
    if s != "" && IsSpace(s[|s| - 1]) { TrimRightShortens(s[..|s| - 1]); }
  }

  lemma {:induction false} TrimLeftShortens(s: string)
    ensures |TrimLeft(s)| <= |s|
  {
    if s != "" && IsSpace(s[0]) { TrimLeftShortens(s[1..]); }
  }

  // The summed token lengths never exceed the command's, and no token is empty
  // or a field code.
  lemma TokensFit(command: string)
    ensures Size(Tokens(command)) <= |command|
    ensures forall i :: 0 <= i < |Tokens(command)| ==> Shown(Tokens(command)[i])
  {
    var text := TrimSpace(command);
    TrimLeftShortens(command);
    TrimRightShortens(TrimLeft(command));
    var end := Lex(START, text);
    LexSize(START, text);
    LexShows(START, text);
    FlushedSize(end.tokens, end.token);
  }

  lemma {:induction false} MembersFit(tokens: seq<string>, i: nat, j: nat)
    requires i < j < |tokens|
    ensures |tokens[i]| + |tokens[j]| <= Size(tokens)
  {
    var n := |tokens| - 1;
    if j < n { MembersFit(tokens[..n], i, j); } else { MemberFits(tokens[..n], i); }
  }

  lemma {:induction false} MemberFits(tokens: seq<string>, i: nat)
    requires i < |tokens|
    ensures |tokens[i]| <= Size(tokens)
  {
    var n := |tokens| - 1;
    if i < n { MemberFits(tokens[..n], i); }
  }

  // ---------- applicationExecToken ----------

  // filepath.Base
  function Base(path: string): string {
    if path == "" then "."
    else
      var stripped := StripSlashes(path);
      if stripped == "" then "/" else AfterSlash(stripped)
  }

  function StripSlashes(path: string): string {
    if path != "" && path[|path| - 1] == '/' then StripSlashes(path[..|path| - 1]) else path
  }

  function AfterSlash(path: string): string {
    if path == "" || path[|path| - 1] == '/' then ""
    else AfterSlash(path[..|path| - 1]) + [path[|path| - 1]]
  }

  predicate Wrapper(name: string) {
    name == "prime-run" || name == "gamemoderun" || name == "nohup" || name == "command" || name == "exec"
  }

  // The options of env that take a value.
  predicate TakesValue(option: string) {
    option == "-u" || option == "--unset" || option == "-C" || option == "--chdir"
  }

  // The arguments env consumes; None when an option lacks its value.
  datatype Rest = Missing | Left(tokens: seq<string>)

  function AfterEnv(tokens: seq<string>): (r: Rest)
    ensures r.Left? ==> |r.tokens| <= |tokens| && r.tokens == tokens[|tokens| - |r.tokens|..]
    decreases |tokens|
  {
    if tokens == [] then Left(tokens)
    else if '=' in tokens[0] then AfterEnv(tokens[1..])
    else if TakesValue(tokens[0]) then
      if |tokens| < 2 then Missing else AfterEnv(tokens[2..])
    else if HasPrefix(tokens[0], "-") then AfterEnv(tokens[1..])
    else Left(tokens)
  }

  // The tokens once every leading wrapper is stripped.
  function Unwrapped(tokens: seq<string>): (r: Rest)
    ensures r.Left? ==> |r.tokens| <= |tokens| && r.tokens == tokens[|tokens| - |r.tokens|..]
    ensures r.Left? && r.tokens != [] ==> !Wrapper(Base(r.tokens[0])) && Base(r.tokens[0]) != "env"
    decreases |tokens|
  {
    if tokens == [] then Left(tokens)
    else if Wrapper(Base(tokens[0])) then Unwrapped(tokens[1..])
    else if Base(tokens[0]) == "env" then
      var rest := AfterEnv(tokens[1..]);
      if rest.Missing? then Missing else Unwrapped(rest.tokens)
    else Left(tokens)
  }

  predicate ShellScript(tokens: seq<string>) {
    |tokens| >= 3 && (Base(tokens[0]) == "sh" || Base(tokens[0]) == "bash") && tokens[1] == "-c"
  }

  // The script of a `sh -c` form, behind any wrappers, is strictly shorter than
  // the command.
  lemma ShellScriptIsShorter(command: string)
    requires Unwrapped(Tokens(command)).Left? && ShellScript(Unwrapped(Tokens(command)).tokens)
    ensures |Unwrapped(Tokens(command)).tokens[2]| < |command|
  {
    var tokens := Tokens(command);
    var left := Unwrapped(tokens).tokens;
    var k := |tokens| - |left|;
    TokensFit(command);
    assert left[0] == tokens[k] && left[2] == tokens[k + 2];
    MembersFit(tokens, k, k + 2);
  }

  // The program a command runs, or "".
  function Program(command: string): string
    decreases |command|
  {
    var left := Unwrapped(Tokens(command));
    if left.Missing? || left.tokens == [] then ""
    else if ShellScript(left.tokens) then
      ShellScriptIsShorter(command);
      Program(left.tokens[2])
    else if HasPrefix(left.tokens[0], "%") then ""
    else left.tokens[0]
  }

  method ApplicationExecToken(command: string) returns (program: string)
    ensures program == Program(command)
    decreases |command|
  {
    var tokens := ExecTokens(command);
    while |tokens| > 0
      invariant Unwrapped(tokens) == Unwrapped(Tokens(command))
      decreases |tokens|
    {
      var name := Base(tokens[0]);
      if Wrapper(name) {
        tokens := tokens[1..];
        continue;
      }
      if name == "env" {
        var rest := SkipEnvironment(tokens[1..]);
        if rest.Missing? {
          return "";
        }
        tokens := rest.tokens;
        continue;
      }
      if name == "sh" || name == "bash" {
        if |tokens| >= 3 && tokens[1] == "-c" {
          ShellScriptIsShorter(command);
          program := ApplicationExecToken(tokens[2]);
          return;
        }
      }
      break;
    }
    if |tokens| == 0 || HasPrefix(tokens[0], "%") {
      return "";
    }
    return tokens[0];
  }

  // The inner loop of the env case.
  method SkipEnvironment(arguments: seq<string>) returns (rest: Rest)
    ensures rest == AfterEnv(arguments)
  {
    var tokens := arguments;
    while |tokens| > 0
      invariant AfterEnv(tokens) == AfterEnv(arguments)
      decreases |tokens|
    {
      if '=' in tokens[0] {
        tokens := tokens[1..];
        continue;
      }
      if tokens[0] == "-u" || tokens[0] == "--unset" || tokens[0] == "-C" || tokens[0] == "--chdir" {
        if |tokens| < 2 {
          return Missing;
        }
        tokens := tokens[2..];
        continue;
      }
      if HasPrefix(tokens[0], "-") {
        tokens := tokens[1..];
        continue;
      }
      break;
    }
    return Left(tokens);
  }

  // The result is nothing, or a shown token that is no stripped wrapper and no
  // shell running a script.
  lemma {:induction false} ProgramIsNoWrapper(command: string)
    ensures var p := Program(command);
      p == "" || (Shown(p) && !Wrapper(Base(p)) && Base(p) != "env")
    decreases |command|
  {
    var left := Unwrapped(Tokens(command));
    TokensFit(command);
    if left.Left? && left.tokens != [] {
      if ShellScript(left.tokens) {
        ShellScriptIsShorter(command);
        ProgramIsNoWrapper(left.tokens[2]);
      } else {
        assert left.tokens[0] == Tokens(command)[|Tokens(command)| - |left.tokens|];
      }
    }
  }

  // ---------- the two together ----------

  lemma UnwrappedBehind(wrapper: string, tokens: seq<string>)
    requires Wrapper(Base(wrapper))
    ensures Unwrapped([wrapper] + tokens) == Unwrapped(tokens)
  {
    assert ([wrapper] + tokens)[0] == wrapper && ([wrapper] + tokens)[1..] == tokens;
  }

  lemma SameProgram(one: string, other: string)
    requires Unwrapped(Tokens(one)) == Unwrapped(Tokens(other))
    ensures Program(one) == Program(other)
  {}

  lemma ProgramOfWrapped(whole: string, inner: string, wrapper: string)
    requires Tokens(whole) == [wrapper] + Tokens(inner) && Wrapper(Base(wrapper))
    ensures Program(whole) == Program(inner)
  {
    UnwrappedBehind(wrapper, Tokens(inner));
    SameProgram(whole, inner);
  }

  lemma ProgramOfScript(whole: string)
    requires ShellScript(Tokens(whole))
    ensures Program(whole) == Program(Tokens(whole)[2])
  {
    assert !Wrapper("sh") && !Wrapper("bash");
    assert Unwrapped(Tokens(whole)) == Left(Tokens(whole));
  }

  // Wrapping a command, as quoted tokens, does not change the program found.
  lemma WrapperIsTransparent(wrapper: string, tokens: seq<string>)
    requires Wrapper(Base(wrapper)) && Shown(wrapper)
    requires forall i :: 0 <= i < |tokens| ==> Shown(tokens[i])
    ensures Program(Joined([wrapper] + tokens)) == Program(Joined(tokens))
  {
    QuotingRoundTrip(tokens);
    QuotingRoundTrip([wrapper] + tokens);
    ProgramOfWrapped(Joined([wrapper] + tokens), Joined(tokens), wrapper);
  }

  // Nor does handing a whole command, as one quoted argument, to a shell.
  lemma ShellIsTransparent(tokens: seq<string>)
    requires ShellScript(tokens) && forall i :: 0 <= i < |tokens| ==> Shown(tokens[i])
    ensures Program(Joined(tokens)) == Program(tokens[2])
  {
    QuotingRoundTrip(tokens);
    ProgramOfScript(Joined(tokens));
  }
}
