/** The parts of a configuration file setup does not write: sandbox paths, environments, argument vectors, profiles. */
module ConfigSections {
  import opened Prelude
  import opened Text
  import opened Config
  import opened ConfigSetup

  // ------------------------------------------------------------------- sandbox

  function SandboxStep(): (Sandbox, nat, string) -> Sandbox {
    (c: Sandbox, indent: nat, text: string) => SandboxLine(c, text)
  }

  function SandboxRows(writable: seq<string>, forbidden: seq<string>): seq<Row> {
    [Row(2, "writable_paths:")] +
    (ItemRows(4, writable) + ([Row(2, "forbidden_paths:")] + ItemRows(4, forbidden)))
  }

  lemma SandboxItem(c: Sandbox, value: string)
    requires c.list in {Some("writable_paths"), Some("forbidden_paths")}
    ensures SandboxLine(c, Item(value)) ==
            if c.list == Some("writable_paths") then c.(writable := c.writable + [value])
            else c.(forbidden := c.forbidden + [value])
  {
    ItemIs(value);
    assert "writable_paths:"[0] != '-' && "forbidden_paths:"[0] != '-' && "writable_paths"[0] != "forbidden_paths"[0];
    hide Item, ItemText;
  }

  lemma SandboxList(c: Sandbox)
    ensures SandboxLine(c, "writable_paths:") == c.(list := Some("writable_paths"))
    ensures SandboxLine(c, "forbidden_paths:") == c.(list := Some("forbidden_paths"))
  {
    assert "writable_paths:"[..14] == "writable_paths" && "forbidden_paths:"[..15] == "forbidden_paths";
  }

  function WithPaths(c: Sandbox, values: seq<string>): Sandbox {
    if c.list == Some("writable_paths") then c.(writable := c.writable + values)
    else c.(forbidden := c.forbidden + values)
  }

  lemma SandboxItems(c: Sandbox, values: seq<string>)
    requires c.list in {Some("writable_paths"), Some("forbidden_paths")}
    ensures Fold(c, ItemRows(4, values), SandboxStep()) == WithPaths(c, values)
  {
    hide SandboxLine, Item;
    var added := (vs: seq<string>) => WithPaths(c, vs);
    forall vs: seq<string>, v: string ensures SandboxStep()(added(vs), 4, Item(v)) == added(vs + [v]) {
      SandboxItem(added(vs), v);
      assert c.writable + vs + [v] == c.writable + (vs + [v]) && c.forbidden + vs + [v] == c.forbidden + (vs + [v]);
    }
    assert c.writable + [] == c.writable && c.forbidden + [] == c.forbidden;
    FoldItems(c, 4, values, SandboxStep(), added);
  }

  /** Both path lists of a sandbox section are read back, each in its place and order. */
  lemma SandboxRead(writable: seq<string>, forbidden: seq<string>)
    ensures Fold(Initial.sandbox, SandboxRows(writable, forbidden), SandboxStep()) ==
            Sandbox(writable, forbidden, Some("forbidden_paths"))
  {
    hide SandboxLine, Fold, ItemRows;
    var step := SandboxStep();
    var forbids := [Row(2, "forbidden_paths:")] + ItemRows(4, forbidden);
    FoldFirst(Initial.sandbox, 2, "writable_paths:", ItemRows(4, writable) + forbids, step);
    SandboxList(Initial.sandbox);
    var writing := Initial.sandbox.(list := Some("writable_paths"));
    FoldJoin(writing, ItemRows(4, writable), forbids, step);
    SandboxItems(writing, writable);
    assert [] + writable == writable && [] + forbidden == forbidden;
    var written := writing.(writable := writable);
    FoldFirst(written, 2, "forbidden_paths:", ItemRows(4, forbidden), step);
    SandboxList(written);
    SandboxItems(written.(list := Some("forbidden_paths")), forbidden);
    assert "writable_paths"[0] != "forbidden_paths"[0];
  }

  // --------------------------------------------------------------- environments

  function EnvRows(pairs: seq<(string, string)>): seq<Row> {
    if pairs == [] then []
    else EnvRows(pairs[..|pairs| - 1]) + [Row(6, Quoted(pairs[|pairs| - 1].0, pairs[|pairs| - 1].1))]
  }

  /** The variables of the pairs, the last of a name winning. */
  function Variables(pairs: seq<(string, string)>): map<string, string> {
    if pairs == [] then map[]
    else Variables(pairs[..|pairs| - 1])[pairs[|pairs| - 1].0 := pairs[|pairs| - 1].1]
  }

  lemma EnvPair(c: Agents, entries: map<string, string>, key: string, value: string, parse: string -> Option<int>)
    requires c.current.Some? && c.inEnv && "env" in c.current.value && c.current.value["env"] == Table(entries)
    requires KeyOk(key)
    ensures AgentLine(c, 6, Quoted(key, value), parse) ==
            c.(current := Some(c.current.value["env" := Table(entries[key := value])]))
  {
    QuotedIs(key, value);
    assert EndsWith("args:", ":") && EndsWith("env:", ":");
    hide Quoted, EndsWith, StartsWith, ValueOf, Key, FinishAgent, KeyOk;
  }

  /** An agent's `env:` table is read back, the last of a name winning. */
  lemma {:induction false} EnvRead(c: Agents, pairs: seq<(string, string)>, parse: string -> Option<int>)
    requires c.current.Some? && forall i :: 0 <= i < |pairs| ==> KeyOk(pairs[i].0)
    ensures Fold(c, [Row(4, "env:")] + EnvRows(pairs), AgentStep(parse)) ==
            c.(current := Some(c.current.value["env" := Table(Variables(pairs))]), inArgs := false, inEnv := true)
  {
    hide AgentLine, Quoted, KeyOk;
    EnvOpens(c, parse);
    if pairs == [] {
      FoldFirst(c, 4, "env:", [], AgentStep(parse));
      FoldGap(AgentLine(c, 4, "env:", parse), AgentStep(parse));
    } else {
      var last := |pairs| - 1;
      var rows := [Row(4, "env:")] + EnvRows(pairs);
      assert rows[..|rows| - 1] == [Row(4, "env:")] + EnvRows(pairs[..last]);
      EnvRead(c, pairs[..last], parse);
      var before := c.(current := Some(c.current.value["env" := Table(Variables(pairs[..last]))]),
                       inArgs := false, inEnv := true);
      EnvPair(before, Variables(pairs[..last]), pairs[last].0, pairs[last].1, parse);
      assert before.current.value["env" := Table(Variables(pairs))]
          == c.current.value["env" := Table(Variables(pairs))];
    }
  }

  lemma EnvOpens(c: Agents, parse: string -> Option<int>)
    requires c.current.Some?
    ensures AgentLine(c, 4, "env:", parse) ==
            c.(current := Some(c.current.value["env" := Table(map[])]), inArgs := false, inEnv := true)
  {
    assert "env:"[0] != "args:"[0];
    hide FinishAgent;
  }

  /** A finished agent has the profile and the environment that were read. */
  lemma ProfileAndEnv(c: Agents, profile: string, env: map<string, string>, parse: string -> Option<int>)
    requires c.name.Some? && c.current.Some?
    requires "profile" in c.current.value && c.current.value["profile"] == Plain(profile)
    requires "env" in c.current.value && c.current.value["env"] == Table(env)
    ensures var agents := FinishAgent(c, parse).done;
      && c.name.value in agents && agents[c.name.value].name == c.name.value
      && agents[c.name.value].profile == profile && agents[c.name.value].env == env
  {
    hide AsInt, AsBool;
  }

  /** What an agent leaves open comes from its profile; of the environment, its own variables win. */
  lemma ResolvedFields(a: Agent, profiles: map<string, Agent>)
    requires a.profile in profiles
    ensures var r, p := Resolve(a, profiles), profiles[a.profile];
      && r.name == a.name && r.enabled == a.enabled && r.profile == a.profile
      && r.kind == (if a.kind == "" then p.kind else a.kind)
      && r.command == (if a.command == "" then p.command else a.command)
      && r.args == (if a.args == None then p.args else a.args)
      && r.timeoutSec == (if a.timeoutSec == 300 then p.timeoutSec else a.timeoutSec)
      && (forall k :: k in r.env <==> k in a.env || k in p.env)
      && forall k :: k in r.env ==> r.env[k] == if k in a.env then a.env[k] else p.env[k]
  {
  }

  /** Without a profile of that name an agent is itself, and is of its own name's kind unless it says otherwise. */
  lemma UnresolvedFields(a: Agent, profiles: map<string, Agent>)
    requires a.profile !in profiles
    ensures Resolve(a, profiles) == a.(kind := if a.kind == "" then a.name else a.kind)
  {
  }

  // -------------------------------------------------------------------- runtime

  lemma MinutesLine(c: Orchestrator, n: nat, parse: string -> Option<int>)
    requires parse(Decimal(n)) == Some(n)
    ensures OrchestratorLine(c, Bare("max_task_runtime_minutes", Decimal(n)), parse) ==
            c.(inFallback := false, maxRuntimeSec := if c.maxRuntimeSec.Some? then c.maxRuntimeSec else Some(60 * n))
  {
    var s, key := Bare("max_task_runtime_minutes", Decimal(n)), "max_task_runtime_minutes";
    assert KeyOk(key) && key + ":" == "max_task_runtime_minutes:";
    hide Bare, StartsWith, KeyOk, ValueOf, Decimal;
    NumberIs(key, n, "max_task_runtime_minutes:", parse);
    KeyAt(s, key, 4);
    Differs(s, "max_iterations:", 4);
    Differs(s, "max_no_change_iterations:", 4);
    Differs(s, "max_runtime_sec:", 4);
  }

  /** The runtime limit is the seconds where they are given, before or after the minutes, and else sixty a minute. */
  lemma RuntimeRead(c: Orchestrator, seconds: nat, minutes: nat, parse: string -> Option<int>)
    requires ReadsNumbers(parse) && c.maxRuntimeSec.None?
    ensures var s, m := Bare("max_runtime_sec", Decimal(seconds)), Bare("max_task_runtime_minutes", Decimal(minutes));
      && OrchestratorLine(c, m, parse).maxRuntimeSec == Some(60 * minutes)
      && OrchestratorLine(OrchestratorLine(c, m, parse), s, parse).maxRuntimeSec == Some(seconds)
      && OrchestratorLine(OrchestratorLine(c, s, parse), m, parse).maxRuntimeSec == Some(seconds)
  {
    hide OrchestratorLine, Bare, Decimal;
    var s, m := Bare("max_runtime_sec", Decimal(seconds)), Bare("max_task_runtime_minutes", Decimal(minutes));
    MinutesLine(c, minutes, parse);
    OrchestratorRuntime(c, seconds, parse);
    OrchestratorRuntime(OrchestratorLine(c, m, parse), seconds, parse);
    MinutesLine(OrchestratorLine(c, s, parse), minutes, parse);
  }

  // ------------------------------------------------------------ argument vectors

  lemma ArgvOpens(c: Verification, parse: string -> Option<int>)
    requires c.current.Some? && c.inCommands
    ensures VerificationLine(c, "argv:", parse) ==
            c.(current := Some(c.current.value["argv" := List([])]), inArgv := true)
  {
    Differs("argv:", "strict:", 0);
    Differs("argv:", "- ", 0);
    assert "argv:"[0] != "commands:"[0];
  }

  lemma ArgvItem(c: Verification, items: seq<string>, value: string, parse: string -> Option<int>)
    requires c.current.Some? && c.inCommands && c.inArgv
    requires "argv" in c.current.value && c.current.value["argv"] == List(items)
    ensures VerificationLine(c, Item(value), parse) ==
            c.(current := Some(c.current.value["argv" := List(items + [value])]))
  {
    ItemIs(value);
    Differs(Item(value), "strict:", 0);
    assert "commands:"[0] != '-';
    hide Item, ItemText, FinishCommand;
  }

  function WithArgv(c: Verification, values: seq<string>): Verification
    requires c.current.Some?
  {
    c.(current := Some(c.current.value["argv" := List(values)]), inArgv := true)
  }

  /** A check's `argv:` list is read back in order. */
  lemma ArgvRead(c: Verification, values: seq<string>, parse: string -> Option<int>)
    requires c.current.Some? && c.inCommands
    ensures Fold(c, [Row(6, "argv:")] + ItemRows(8, values), VerificationStep(parse)) == WithArgv(c, values)
  {
    hide VerificationLine, Item, Fold, ItemRows;
    ArgvOpens(c, parse);
    FoldFirst(c, 6, "argv:", ItemRows(8, values), VerificationStep(parse));
    var open := WithArgv(c, []);
    var added: seq<string> -> Verification := vs requires c.current.Some? => WithArgv(c, vs);
    forall vs: seq<string>, v: string ensures VerificationStep(parse)(added(vs), 8, Item(v)) == added(vs + [v]) {
      ArgvItem(added(vs), vs, v, parse);
      assert added(vs).current.value["argv" := List(vs + [v])] == c.current.value["argv" := List(vs + [v])];
    }
    FoldItems(open, 8, values, VerificationStep(parse), added);
  }

  /** A finished check has the argument vector that was read, and runs even without a command line. */
  lemma ArgvFinished(c: Verification, name: string, values: seq<string>, parse: string -> Option<int>)
    requires c.current.Some? && values != []
    requires "name" in c.current.value && c.current.value["name"] == Plain(name)
    requires "argv" in c.current.value && c.current.value["argv"] == List(values)
    ensures var commands := FinishCommand(c, parse).commands;
      && |commands| == |c.commands| + 1 && commands[..|c.commands|] == c.commands
      && commands[|c.commands|].name == name && commands[|c.commands|].argv == Some(values)
  {
    hide AsInt;
  }

  /** A check is kept exactly if it has a name and something to run. */
  lemma FinishedIff(c: Verification, parse: string -> Option<int>)
    ensures FinishCommand(c, parse).commands != c.commands <==>
      && c.current.Some?
      && var f := c.current.value;
         && "name" in f && f["name"].Plain?
         && (("run" in f && f["run"].Plain? && f["run"].text != "") ||
             ("argv" in f && f["argv"].List? && f["argv"].items != []))
  {
    hide AsInt;
  }

  // ------------------------------------------------------------ defaults and gaps

  /** An agent and a check that say nothing more than their name, and a command line, have the defaults. */
  lemma Defaults(name: string, run: string, parse: string -> Option<int>)
    requires run != ""
    ensures FinishAgent(NoAgents.(name := Some(name), current := Some(map[])), parse).done ==
            map[name := Agent(name, "", false, "", "", None, 300, map[])]
    ensures var fields := map["name" := Plain(name), "run" := Plain(run)];
      FinishCommand(Initial.verification.(current := Some(fields)), parse).commands == [Command(name, run, 300, None)]
  {
  }

  /** What an empty file parses to. */
  lemma EmptyConfig(parse: string -> Option<int>)
    ensures Parse([], parse) ==
      ProjectConfig([], false, 2, 2, None, "mock", [], map[], map[], [], [], "", ["codebase-memory-mcp", "cli"], "",
                    120, 5, [], [])
  {
  }

  /** A limit that cannot be read is two iterations, or no runtime limit. */
  lemma UnreadableLimits(c: Orchestrator, word: string, parse: string -> Option<int>)
    requires parse(word) == None && IsWord(word)
    ensures OrchestratorLine(c, Bare("max_iterations", word), parse).maxIterations == 2
    ensures OrchestratorLine(c, Bare("max_no_change_iterations", word), parse).maxNoChange == 2
    ensures OrchestratorLine(c, Bare("max_runtime_sec", word), parse).maxRuntimeSec == None
  {
    OrchestratorKeysOk();
    OrchestratorTests();
    KeyLine("max_iterations", word);
    KeyLine("max_no_change_iterations", word);
    KeyLine("max_runtime_sec", word);
    hide Bare, StartsWith, KeyOk, ValueOf, IsWord;
    Differs(Bare("max_no_change_iterations", word), "max_iterations:", 4);
    Differs(Bare("max_runtime_sec", word), "max_iterations:", 4);
    Differs(Bare("max_runtime_sec", word), "max_no_change_iterations:", 4);
  }

  /** A number of the memory section that cannot be read is its default. */
  lemma UnreadableMemory(c: Memory, word: string, parse: string -> Option<int>)
    requires parse(word) == None && IsWord(word)
    ensures MemoryLine(c, Bare("timeout_sec", word), parse).timeoutSec == 120
    ensures MemoryLine(c, Bare("max_lessons", word), parse).maxLessons == 5
  {
    MemoryKeysOk();
    KeyLine("timeout_sec", word);
    KeyLine("max_lessons", word);
    hide Bare, StartsWith, KeyOk, ValueOf, IsWord;
    Differs(Bare("timeout_sec", word), "provider:", 0);
    Differs(Bare("timeout_sec", word), "project:", 0);
    Differs(Bare("max_lessons", word), "provider:", 0);
    Differs(Bare("max_lessons", word), "project:", 0);
    Differs(Bare("max_lessons", word), "timeout_sec:", 0);
  }

  predicate IsWord(word: string) {
    word != "" && forall i :: 0 <= i < |word| ==> 'a' <= word[i] <= 'z'
  }

  lemma KeyLine(key: string, word: string)
    requires KeyOk(key) && IsWord(word)
    ensures var s := Bare(key, word);
      && StartsWith(s, key + ":") && ValueOf(s) == word && s != "command:" && !StartsWith(s, "- ")
      && |key| < |s| && forall k :: 0 <= k < |key| ==> s[k] == key[k]
  {
    BareIs(key, word);
    MemoryPair(Bare(key, word), key, word);
    hide StartsWith, KeyOk, ValueOf;
  }

  predicate IsWhite(c: char) {
    c in " \t\n\r"
  }

  /** A line that is blank, or whose first visible character is `#`. */
  predicate IsGap(raw: string) {
    || (forall i :: 0 <= i < |raw| ==> IsWhite(raw[i]))
    || exists i :: 0 <= i < |raw| && raw[i] == '#' && forall k :: 0 <= k < i ==> IsWhite(raw[k])
  }

  lemma GapIff(raw: string)
    ensures Ignored(raw) <==> IsGap(raw)
  {
    var i, j := StripIs(raw);
    var first := LeftIs(raw);
    hide Strip, TrimLeft;
    assert first < |raw| ==> raw[first..][..1] == [raw[first]];
    if Blank(raw) {
      assert |raw[i..j]| == 0;
    }
  }

  /** Blank lines and comments may stand anywhere: without them a file parses to the same configuration. */
  lemma GapsDrop(before: seq<string>, raw: string, after: seq<string>, parse: string -> Option<int>)
    requires IsGap(raw)
    ensures Parse(before + [raw] + after, parse) == Parse(before + after, parse)
  {
    GapIff(raw);
    GapGone(before, raw, after, parse);
    hide Lines, Settle, Assemble;
  }

  lemma {:induction false} GapGone(
    before: seq<string>, raw: string, after: seq<string>, parse: string -> Option<int>)
    requires Ignored(raw)
    ensures Lines(Initial, before + [raw] + after, parse) == Lines(Initial, before + after, parse)
  {
    hide Ignored, LineStep;
    if after == [] {
      assert before + [raw] + after == before + [raw] && before + after == before;
      assert (before + [raw])[..|before|] == before;
      GapStays(Lines(Initial, before, parse), raw, parse);
    } else {
      var last := |after| - 1;
      GapGone(before, raw, after[..last], parse);
      var long, short := before + [raw] + after, before + after;
      assert long[..|long| - 1] == before + [raw] + after[..last] && short[..|short| - 1] == before + after[..last];
    }
  }

  lemma GapStays(s: State, raw: string, parse: string -> Option<int>)
    requires Ignored(raw)
    ensures LineStep(s, raw, parse) == s
  {
    hide Ignored;
  }
}
