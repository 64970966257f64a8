// The program applicationExecToken finds, for command lines as they are written:
// launch wrappers, env with its assignments and options, then program and arguments.
module Programs {
  import opened Text
  import opened Exec
  import opened Words

  // ---------- filepath.Base ----------

  lemma {:induction false} NameIsItself(name: string)
    requires '/' !in name
    ensures AfterSlash(name) == name
  {
    if name != "" { NameIsItself(name[..|name| - 1]); }
  }

  lemma {:induction false} NameBehindSlash(dir: string, name: string)
    requires '/' !in name
    ensures AfterSlash(dir + "/" + name) == name
    decreases |name|
  {
    var path := dir + "/" + name;
    if name == "" {
      assert path[|path| - 1] == '/';
    } else {
      assert path[|path| - 1] == name[|name| - 1];
      assert path[..|path| - 1] == dir + "/" + name[..|name| - 1];
      NameBehindSlash(dir, name[..|name| - 1]);
    }
  }

  lemma {:induction false} SlashesAreStripped(path: string, slashes: string)
    requires (path == "" || path[|path| - 1] != '/') && forall k :: 0 <= k < |slashes| ==> slashes[k] == '/'
    ensures StripSlashes(path + slashes) == path
    decreases |slashes|
  {
    if slashes == "" {
      assert path + slashes == path;
    } else {
      assert (path + slashes)[..|path + slashes| - 1] == path + slashes[..|slashes| - 1];
      SlashesAreStripped(path, slashes[..|slashes| - 1]);
    }
  }

  // The base name of a path is its last element; of no path ".", of slashes "/".
  lemma BaseIsLastElement(dir: string, name: string, slashes: string)
    requires name != "" && '/' !in name && forall k :: 0 <= k < |slashes| ==> slashes[k] == '/'
    ensures Base(name + slashes) == name && Base(dir + "/" + name + slashes) == name
    ensures Base("") == "." && (slashes != "" ==> Base(slashes) == "/")
  {
    assert name[|name| - 1] in name;
    NameIsItself(name);
    NameBehindSlash(dir, name);
    SlashesAreStripped(name, slashes);
    SlashesAreStripped(dir + "/" + name, slashes);
    SlashesAreStripped("", slashes);
    assert "" + slashes == slashes;
  }

  // ---------- what stands before the program ----------

  datatype EnvItem = Assign(token: string) | Valued(option: string, value: string) | Flag(token: string)

  datatype Lead = Wrap(path: string) | Env(path: string, items: seq<EnvItem>)

  predicate GoodItem(item: EnvItem) {
    match item
    case Assign(token) => '=' in token
    case Valued(option, _) => option == "-u" || option == "--unset" || option == "-C" || option == "--chdir"
    case Flag(token) =>
      '=' !in token && HasPrefix(token, "-")
      && token != "-u" && token != "--unset" && token != "-C" && token != "--chdir"
  }

  predicate GoodLead(lead: Lead) {
    match lead
    case Wrap(path) =>
      var name := Base(path);
      name == "prime-run" || name == "gamemoderun" || name == "nohup" || name == "command" || name == "exec"
    case Env(path, items) => Base(path) == "env" && forall i :: 0 <= i < |items| ==> GoodItem(items[i])
  }

  // env takes neither an assignment nor an option for the program.
  predicate Stops(token: string) { '=' !in token && !HasPrefix(token, "-") }

  function ItemTokens(items: seq<EnvItem>): seq<string> {
    if items == [] then []
    else (match items[0]
          case Assign(token) => [token]
          case Valued(option, value) => [option, value]
          case Flag(token) => [token])
         + ItemTokens(items[1..])
  }

  function LeadTokens(leads: seq<Lead>): seq<string> {
    if leads == [] then []
    else [leads[0].path] + (if leads[0].Env? then ItemTokens(leads[0].items) else []) + LeadTokens(leads[1..])
  }

  // Each env is followed by a token it does not take for its own.
  predicate WellLed(leads: seq<Lead>, rest: seq<string>) {
    && (forall i :: 0 <= i < |leads| ==> GoodLead(leads[i]))
    && (forall i :: 0 <= i < |leads| - 1 && leads[i].Env? ==> Stops(leads[i + 1].path))
    && (leads != [] && leads[|leads| - 1].Env? && rest != [] ==> Stops(rest[0]))
  }

  lemma ItemConsumed(item: EnvItem, rest: seq<string>)
    requires GoodItem(item)
    ensures AfterEnv(ItemTokens([item]) + rest) == AfterEnv(rest)
  {
    assert [item][1..] == [];
    match item
    case Assign(token) =>
      assert ItemTokens([item]) == [token];
      assert ([token] + rest)[1..] == rest;
    case Valued(option, value) =>
      assert ItemTokens([item]) == [option, value];
      assert ([option, value] + rest)[2..] == rest;
      assert '=' !in option;
    case Flag(token) =>
      assert ItemTokens([item]) == [token];
      assert ([token] + rest)[1..] == rest;
  }

  lemma FirstItem(items: seq<EnvItem>, rest: seq<string>)
    requires items != []
    ensures ItemTokens(items) + rest == ItemTokens([items[0]]) + (ItemTokens(items[1..]) + rest)
  {
    assert [items[0]][1..] == [];
    assert ItemTokens([items[0]]) + ItemTokens(items[1..]) == ItemTokens(items);
  }

  lemma {:induction false} ItemsConsumed(items: seq<EnvItem>, rest: seq<string>, all: seq<string>)
    requires forall i :: 0 <= i < |items| ==> GoodItem(items[i])
    requires all == ItemTokens(items) + rest
    ensures AfterEnv(all) == AfterEnv(rest)
    decreases |items|
  {
    if items == [] {
      assert all == rest;
    } else {
      var behind := ItemTokens(items[1..]) + rest;
      ItemsConsumed(items[1..], rest, behind);
      ItemConsumed(items[0], behind);
      FirstItem(items, rest);
    }
  }

  lemma WrapConsumed(path: string, rest: seq<string>)
    requires GoodLead(Wrap(path))
    ensures Unwrapped([path] + rest) == Unwrapped(rest)
  {
    assert ([path] + rest)[0] == path && ([path] + rest)[1..] == rest;
  }

  lemma UnwrapEnv(tokens: seq<string>, left: seq<string>)
    requires tokens != [] && Base(tokens[0]) == "env" && AfterEnv(tokens[1..]) == Left(left)
    ensures Unwrapped(tokens) == Unwrapped(left)
  {
    EnvIsNoWrapper();
  }

  lemma EnvIsNoWrapper()
    ensures !Wrapper("env")
  {}

  lemma EnvConsumed(path: string, items: seq<EnvItem>, rest: seq<string>)
    requires GoodLead(Env(path, items)) && (rest != [] ==> Stops(rest[0]))
    ensures Unwrapped([path] + (ItemTokens(items) + rest)) == Unwrapped(rest)
  {
    var given := ItemTokens(items) + rest;
    ItemsConsumed(items, rest, given);
    if rest != [] { StopsAtOnce(rest); }
    BehindFirst(path, given);
    UnwrapEnv([path] + given, rest);
  }

  lemma BehindFirst(head: string, tail: seq<string>)
    ensures ([head] + tail)[0] == head && ([head] + tail)[1..] == tail
  {}

  lemma StopsAtOnce(rest: seq<string>)
    requires rest != [] && Stops(rest[0])
    ensures AfterEnv(rest) == Left(rest)
  {
    assert HasPrefix("-u", "-") && HasPrefix("--unset", "-") && HasPrefix("-C", "-") && HasPrefix("--chdir", "-");
  }

  function OwnTokens(lead: Lead): seq<string> { if lead.Env? then ItemTokens(lead.items) else [] }

  lemma FirstLead(leads: seq<Lead>, rest: seq<string>)
    requires leads != []
    ensures LeadTokens(leads) + rest == [leads[0].path] + (OwnTokens(leads[0]) + (LeadTokens(leads[1..]) + rest))
  {}

  lemma LeadConsumed(lead: Lead, rest: seq<string>)
    requires GoodLead(lead) && (lead.Env? && rest != [] ==> Stops(rest[0]))
    ensures Unwrapped([lead.path] + (OwnTokens(lead) + rest)) == Unwrapped(rest)
  {
    if lead.Env? {
      EnvConsumed(lead.path, lead.items, rest);
    } else {
      assert OwnTokens(lead) + rest == rest;
      WrapConsumed(lead.path, rest);
    }
  }

  lemma RestIsWellLed(leads: seq<Lead>, rest: seq<string>)
    requires WellLed(leads, rest) && leads != []
    ensures WellLed(leads[1..], rest)
    ensures var behind := LeadTokens(leads[1..]) + rest; leads[0].Env? && behind != [] ==> Stops(behind[0])
  {
    if |leads| > 1 { assert leads[1..][0] == leads[1]; }
  }

  lemma {:induction false} LeadsConsumed(leads: seq<Lead>, rest: seq<string>, all: seq<string>)
    requires WellLed(leads, rest) && all == LeadTokens(leads) + rest
    ensures Unwrapped(all) == Unwrapped(rest)
    decreases |leads|
  {
    if leads == [] {
      assert all == rest;
    } else {
      var behind := LeadTokens(leads[1..]) + rest;
      RestIsWellLed(leads, rest);
      LeadsConsumed(leads[1..], rest, behind);
      LeadConsumed(leads[0], behind);
      FirstLead(leads, rest);
    }
  }

  // ---------- the program ----------

  // A name of which nothing is stripped.
  predicate OwnName(name: string) {
    && name != "prime-run" && name != "gamemoderun" && name != "nohup" && name != "command" && name != "exec"
    && name != "env"
  }

  predicate RunsScript(tokens: seq<string>) {
    |tokens| >= 3 && (Base(tokens[0]) == "sh" || Base(tokens[0]) == "bash") && tokens[1] == "-c"
  }

  // Behind any wrappers and any env, the first token left is the program, unless it
  // is a shell that runs a script.
  lemma ProgramIsFirstLeft(command: string, leads: seq<Lead>, rest: seq<string>)
    requires Tokens(command) == LeadTokens(leads) + rest && WellLed(leads, rest)
    requires rest != [] && OwnName(Base(rest[0])) && !RunsScript(rest)
    ensures Program(command) == rest[0]
  {
    LeadsConsumed(leads, rest, Tokens(command));
    assert Unwrapped(rest) == Left(rest);
    TokensFit(command);
    assert rest[0] == Tokens(command)[|LeadTokens(leads)|];
  }

  // Then the program is the script's.
  lemma ProgramOfLedScript(command: string, leads: seq<Lead>, rest: seq<string>)
    requires Tokens(command) == LeadTokens(leads) + rest && WellLed(leads, rest) && RunsScript(rest)
    ensures Program(command) == Program(rest[2])
  {
    LeadsConsumed(leads, rest, Tokens(command));
    assert Unwrapped(rest) == Left(rest);
  }

  // With nothing left, or an env option that lacks its value, there is none.
  lemma NoProgram(command: string, leads: seq<Lead>)
    requires Tokens(command) == LeadTokens(leads) && WellLed(leads, [])
    ensures Program(command) == ""
  {
    assert LeadTokens(leads) + [] == LeadTokens(leads);
    LeadsConsumed(leads, [], Tokens(command));
  }

  lemma MissingValueNoProgram(command: string, leads: seq<Lead>, path: string, items: seq<EnvItem>, option: string)
    requires GoodLead(Env(path, items)) && GoodItem(Valued(option, ""))
    requires WellLed(leads, [path]) && Tokens(command) == LeadTokens(leads) + ([path] + (ItemTokens(items) + [option]))
    ensures Program(command) == ""
  {
    var given := ItemTokens(items) + [option];
    var rest := [path] + given;
    LeadsConsumed(leads, rest, Tokens(command));
    ItemsConsumed(items, [option], given);
    OptionAlone(option);
    BehindFirst(path, given);
    UnwrapFails(rest);
  }

  lemma OptionAlone(option: string)
    requires GoodItem(Valued(option, ""))
    ensures AfterEnv([option]) == Missing
  {
    assert '=' !in option;
  }

  lemma UnwrapFails(tokens: seq<string>)
    requires tokens != [] && Base(tokens[0]) == "env" && AfterEnv(tokens[1..]) == Missing
    ensures Unwrapped(tokens) == Missing
  {
    EnvIsNoWrapper();
  }

  // ---------- written in plain words ----------

  // A plain command line runs its first word that is not stripped.
  lemma PlainCommandRuns(
    lead: string, words: seq<string>, gaps: seq<string>, trail: string, leads: seq<Lead>, rest: seq<string>)
    requires |gaps| == |words| && Gaps(gaps) && AllPlain(words) && AllSpace(lead) && AllSpace(trail)
    requires words != [] ==> !IsSpace(First(words[0])) && !IsSpace(Last(words[|words| - 1]))
    requires Visible(words) == LeadTokens(leads) + rest && WellLed(leads, rest)
    requires rest != [] && OwnName(Base(rest[0])) && !RunsScript(rest)
    ensures Program(lead + Spaced(words, gaps) + trail) == rest[0]
  {
    PlainWordsAreRead(lead, words, gaps, trail);
    ProgramIsFirstLeft(lead + Spaced(words, gaps) + trail, leads, rest);
  }
}
