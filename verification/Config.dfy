/** The configuration line parser, and why the order of its top-level sections does not matter. */
module Config {
  import opened Prelude
  import opened Text

  // ------------------------------------------------------------------- results

  datatype Command = Command(name: string, run: string, timeoutSec: int, argv: Option<seq<string>>)

  datatype Agent = Agent(
    name: string, kind: string, enabled: bool, profile: string, command: string,
    args: Option<seq<string>>, timeoutSec: int, env: map<string, string>)

  datatype ProjectConfig = ProjectConfig(
    commands: seq<Command>, strict: bool,
    maxIterations: int, maxNoChange: int, maxRuntimeSec: Option<int>,
    defaultAgent: string, fallbackAgents: seq<string>,
    profiles: map<string, Agent>, agents: map<string, Agent>,
    deny: seq<string>, ask: seq<string>,
    provider: string, memoryCommand: seq<string>, project: string, memoryTimeoutSec: int, maxLessons: int,
    writablePaths: seq<string>, forbiddenPaths: seq<string>)

  /** A value collected for a command or an agent. */
  datatype Value = Plain(text: string) | List(items: seq<string>) | Table(entries: map<string, string>)

  type Fields = map<string, Value>

  // ---------------------------------------------------------- the parser's state

  /** `agents` or `adapter_profiles`. */
  datatype Agents = Agents(
    done: map<string, Agent>, name: Option<string>, current: Option<Fields>, inArgs: bool, inEnv: bool)

  datatype Orchestrator = Orchestrator(
    maxIterations: int, maxNoChange: int, maxRuntimeSec: Option<int>,
    defaultAgent: string, fallback: seq<string>, inFallback: bool)

  datatype Verification = Verification(
    commands: seq<Command>, strict: bool, current: Option<Fields>, inCommands: bool, inArgv: bool)

  datatype Patterns = Patterns(deny: seq<string>, ask: seq<string>, list: Option<string>)

  datatype Sandbox = Sandbox(writable: seq<string>, forbidden: seq<string>, list: Option<string>)

  datatype Memory = Memory(
    provider: string, command: seq<string>, project: string, timeoutSec: int, maxLessons: int, inCommand: bool)

  datatype State = State(
    section: Option<string>, profiles: Agents, agents: Agents, orchestrator: Orchestrator,
    verification: Verification, policy: Patterns, sandbox: Sandbox, memory: Memory)

  const NoAgents := Agents(map[], None, None, false, false)

  const Initial := State(
    None, NoAgents, NoAgents, Orchestrator(2, 2, None, "mock", [], false),
    Verification([], false, None, false, false), Patterns([], [], None), Sandbox([], [], None),
    Memory("", [], "", 120, 5, false))

  // ------------------------------------------------------------ pieces of a line

  function Indent(raw: string): nat {
    if raw != "" && raw[0] == ' ' then 1 + Indent(raw[1..]) else 0
  }

  predicate Ignored(raw: string) {
    Blank(raw) || StartsWith(TrimLeft(raw), "#")
  }

  /** A top-level section header. */
  predicate IsHeader(raw: string) {
    !Ignored(raw) && Indent(raw) == 0 && EndsWith(Strip(raw), ":")
  }

  function HeaderName(raw: string): string {
    var s := Strip(raw);
    if s == "" then "" else s[..|s| - 1]
  }

  function StripQuotes(s: string): string {
    if |s| >= 2 && s[0] == s[|s| - 1] && s[0] in "'\"" then s[1..|s| - 1] else s
  }

  /** The parts before and after the first colon. */
  function BeforeColon(s: string): string {
    if s == "" || s[0] == ':' then "" else [s[0]] + BeforeColon(s[1..])
  }

  function AfterColon(s: string): string {
    if s == "" then "" else if s[0] == ':' then s[1..] else AfterColon(s[1..])
  }

  function Key(s: string): string {
    if ':' in s then Strip(BeforeColon(s)) else ""
  }

  function ValueOf(s: string): string {
    if ':' in s then StripQuotes(Strip(AfterColon(s))) else ""
  }

  /** `- item` */
  function ItemText(s: string): string
    requires StartsWith(s, "- ")
  {
    StripQuotes(Strip(s[2..]))
  }

  function SetField(fields: Fields, s: string): Fields {
    if Key(s) == "" then fields else fields[Key(s) := Plain(ValueOf(s))]
  }

  function AsText(fields: Fields, key: string): string {
    if key in fields && fields[key].Plain? then fields[key].text else ""
  }

  function AsBool(fields: Fields, key: string): bool {
    key in fields && fields[key].Plain? && Lower(fields[key].text) == "true"
  }

  function OrElse(n: Option<int>, default: int): int {
    if n.Some? then n.value else default
  }

  function AsInt(fields: Fields, key: string, default: int, parse: string -> Option<int>): int {
    if key in fields && fields[key].Plain? then OrElse(parse(fields[key].text), default) else default
  }

  // ------------------------------------------------------------------- sections

  /** `_finish_agent`. */
  function FinishAgent(c: Agents, parse: string -> Option<int>): Agents {
    var closed := c.(name := None, current := None);
    if c.name.None? || c.current.None? then closed
    else
      var f := c.current.value;
      var args := if "args" !in f then None else if f["args"].List? then Some(f["args"].items) else Some([]);
      var env := if "env" in f && f["env"].Table? then f["env"].entries else map[];
      var agent := Agent(c.name.value, AsText(f, "type"), AsBool(f, "enabled"), AsText(f, "profile"),
                         AsText(f, "command"), args, AsInt(f, "timeout_sec", 300, parse), env);
      closed.(done := c.done[c.name.value := agent])
  }

  function AgentLine(c: Agents, indent: nat, s: string, parse: string -> Option<int>): Agents {
    if indent == 2 && EndsWith(s, ":") then
      FinishAgent(c, parse).(name := Some(s[..|s| - 1]), current := Some(map[]), inArgs := false, inEnv := false)
    else if c.current.None? then c
    else
      var f := c.current.value;
      if s == "args:" then c.(inArgs := true, inEnv := false)
      else if s == "env:" then c.(current := Some(f["env" := Table(map[])]), inArgs := false, inEnv := true)
      else if c.inEnv && indent >= 6 && ':' in s then
        if "env" in f && f["env"].Table? && Key(s) != "" then
          c.(current := Some(f["env" := Table(f["env"].entries[Key(s) := ValueOf(s)])]))
        else c
      else if c.inArgs && StartsWith(s, "- ") then
        var items := if "args" in f && f["args"].List? then f["args"].items else [];
        c.(current := Some(f["args" := List(items + [ItemText(s)])]))
      else if ':' in s then c.(current := Some(SetField(f, s)), inArgs := false, inEnv := false)
      else c
  }

  function OrchestratorLine(c: Orchestrator, s: string, parse: string -> Option<int>): Orchestrator {
    if StartsWith(s, "max_iterations:") then
      c.(inFallback := false, maxIterations := OrElse(parse(ValueOf(s)), 2))
    else if StartsWith(s, "max_no_change_iterations:") then
      c.(inFallback := false, maxNoChange := OrElse(parse(ValueOf(s)), 2))
    else if StartsWith(s, "max_runtime_sec:") then
      c.(inFallback := false, maxRuntimeSec := parse(ValueOf(s)))
    else if StartsWith(s, "max_task_runtime_minutes:") then
      if c.maxRuntimeSec.Some? then c.(inFallback := false)
      else
        var minutes := parse(ValueOf(s));
        c.(inFallback := false, maxRuntimeSec := if minutes.Some? then Some(minutes.value * 60) else None)
    else if StartsWith(s, "default_agent:") then c.(inFallback := false, defaultAgent := ValueOf(s))
    else if s == "fallback_agents:" then c.(inFallback := true)
    else if c.inFallback && StartsWith(s, "- ") then c.(fallback := c.fallback + [ItemText(s)])
    else c
  }

  /** `_finish_command`. */
  function FinishCommand(c: Verification, parse: string -> Option<int>): Verification {
    if c.current.None? then c
    else
      var f := c.current.value;
      var argv := if "argv" in f && f["argv"].List? then Some(f["argv"].items) else None;
      var run := AsText(f, "run");
      var closed := c.(current := None);
      if "name" !in f || !f["name"].Plain? || (run == "" && (argv.None? || argv.value == [])) then closed
      else
        closed.(commands := c.commands + [Command(f["name"].text, run, AsInt(f, "timeout_sec", 300, parse), argv)])
  }

  /** A line below `commands:`. */
  function CommandLine(c: Verification, s: string, parse: string -> Option<int>): Verification {
    if StartsWith(s, "- ") then
      if c.inArgv && c.current.Some? then
        var f := c.current.value;
        if "argv" !in f then c.(current := Some(f["argv" := List([ItemText(s)])]))
        else if f["argv"].List? then c.(current := Some(f["argv" := List(f["argv"].items + [ItemText(s)])]))
        else c
      else
        FinishCommand(c, parse).(current := Some(SetField(map[], Strip(s[2..]))), inArgv := false)
    else if c.current.None? then c
    else if s == "argv:" then c.(current := Some(c.current.value["argv" := List([])]), inArgv := true)
    else if ':' in s then c.(current := Some(SetField(c.current.value, s)), inArgv := false)
    else c
  }

  function VerificationLine(c: Verification, s: string, parse: string -> Option<int>): Verification {
    if s == "commands:" then c.(inCommands := true)
    else if StartsWith(s, "strict:") then
      c.(inCommands := false, inArgv := false, strict := Lower(ValueOf(s)) == "true")
    else if c.inCommands then CommandLine(c, s, parse)
    else c
  }

  function PolicyLine(c: Patterns, s: string): Patterns {
    if s in {"deny:", "require_approval:"} then c.(list := Some(s[..|s| - 1]))
    else if c.list.Some? && StartsWith(s, "- ") then
      if c.list.value == "deny" then c.(deny := c.deny + [ItemText(s)])
      else if c.list.value == "require_approval" then c.(ask := c.ask + [ItemText(s)])
      else c
    else c
  }

  function SandboxLine(c: Sandbox, s: string): Sandbox {
    if s in {"writable_paths:", "forbidden_paths:"} then c.(list := Some(s[..|s| - 1]))
    else if c.list.Some? && StartsWith(s, "- ") then
      if c.list.value == "writable_paths" then c.(writable := c.writable + [ItemText(s)])
      else if c.list.value == "forbidden_paths" then c.(forbidden := c.forbidden + [ItemText(s)])
      else c
    else c
  }

  function MemoryLine(c: Memory, s: string, parse: string -> Option<int>): Memory {
    if StartsWith(s, "provider:") then c.(inCommand := false, provider := ValueOf(s))
    else if s == "command:" then c.(inCommand := true, command := [])
    else if c.inCommand && StartsWith(s, "- ") then c.(command := c.command + [ItemText(s)])
    else if StartsWith(s, "project:") then c.(inCommand := false, project := ValueOf(s))
    else if StartsWith(s, "timeout_sec:") then
      c.(inCommand := false, timeoutSec := OrElse(parse(ValueOf(s)), 120))
    else if StartsWith(s, "max_lessons:") then
      c.(inCommand := false, maxLessons := Max(1, OrElse(parse(ValueOf(s)), 5)))
    else c
  }

  // ------------------------------------------------------------------ the parser

  /** Leaving a section: the open agent, profile or command is finished and every flag is down. */
  function Settle(s: State, parse: string -> Option<int>): State {
    State(None,
          FinishAgent(s.profiles, parse).(inArgs := false, inEnv := false),
          FinishAgent(s.agents, parse).(inArgs := false, inEnv := false),
          s.orchestrator.(inFallback := false),
          FinishCommand(s.verification, parse).(inCommands := false, inArgv := false),
          s.policy.(list := None), s.sandbox.(list := None), s.memory.(inCommand := false))
  }

  /** A line goes to the part of the state that belongs to its section. */
  function InSection(s: State, indent: nat, text: string, parse: string -> Option<int>): State {
    if s.section == Some("adapter_profiles") then s.(profiles := AgentLine(s.profiles, indent, text, parse))
    else if s.section == Some("agents") then s.(agents := AgentLine(s.agents, indent, text, parse))
    else if s.section == Some("orchestrator") then s.(orchestrator := OrchestratorLine(s.orchestrator, text, parse))
    else if s.section == Some("verification") then s.(verification := VerificationLine(s.verification, text, parse))
    else if s.section == Some("policy") then s.(policy := PolicyLine(s.policy, text))
    else if s.section == Some("sandbox") then s.(sandbox := SandboxLine(s.sandbox, text))
    else if s.section == Some("memory") then s.(memory := MemoryLine(s.memory, text, parse))
    else s
  }

  function LineStep(s: State, raw: string, parse: string -> Option<int>): State {
    if Ignored(raw) then s
    else if IsHeader(raw) then Settle(s, parse).(section := Some(HeaderName(raw)))
    else InSection(s, Indent(raw), Strip(raw), parse)
  }

  function Lines(s: State, lines: seq<string>, parse: string -> Option<int>): State {
    if lines == [] then s else LineStep(Lines(s, lines[..|lines| - 1], parse), lines[|lines| - 1], parse)
  }

  /** `_resolve_agent_profiles`. */
  function Resolve(a: Agent, profiles: map<string, Agent>): Agent {
    if a.profile !in profiles then (if a.kind == "" then a.(kind := a.name) else a)
    else
      var p := profiles[a.profile];
      a.(kind := if a.kind != "" then a.kind else p.kind,
         command := if a.command != "" then a.command else p.command,
         args := if a.args.Some? then a.args else p.args,
         timeoutSec := if a.timeoutSec != 300 then a.timeoutSec else p.timeoutSec,
         env := p.env + a.env)
  }

  function Assemble(s: State): ProjectConfig {
    ProjectConfig(
      s.verification.commands, s.verification.strict,
      s.orchestrator.maxIterations, s.orchestrator.maxNoChange, s.orchestrator.maxRuntimeSec,
      s.orchestrator.defaultAgent, s.orchestrator.fallback,
      s.profiles.done, map name | name in s.agents.done :: Resolve(s.agents.done[name], s.profiles.done),
      s.policy.deny, s.policy.ask,
      s.memory.provider, if s.memory.command == [] then ["codebase-memory-mcp", "cli"] else s.memory.command,
      s.memory.project, s.memory.timeoutSec, s.memory.maxLessons,
      s.sandbox.writable, s.sandbox.forbidden)
  }

  function Parse(lines: seq<string>, parse: string -> Option<int>): ProjectConfig {
    Assemble(Settle(Lines(Initial, lines, parse), parse))
  }

  // ------------------------------------------------- only one section is open

  predicate AgentsClosed(c: Agents) {
    c.name.None? && c.current.None? && !c.inArgs && !c.inEnv
  }

  predicate VerificationClosed(c: Verification) {
    c.current.None? && !c.inCommands && !c.inArgv
  }

  /** What holds between lines: only the current section has anything open, and only its flags are up. */
  predicate OnlyCurrentOpen(s: State) {
    && (s.section != Some("adapter_profiles") ==> AgentsClosed(s.profiles))
    && (s.section != Some("agents") ==> AgentsClosed(s.agents))
    && (s.section != Some("verification") ==> VerificationClosed(s.verification))
    && (s.section != Some("orchestrator") ==> !s.orchestrator.inFallback)
    && (s.section != Some("policy") ==> s.policy.list.None?)
    && (s.section != Some("sandbox") ==> s.sandbox.list.None?)
    && (s.section != Some("memory") ==> !s.memory.inCommand)
  }

  lemma FinishCloses(a: Agents, v: Verification, parse: string -> Option<int>)
    ensures AgentsClosed(FinishAgent(a, parse).(inArgs := false, inEnv := false))
    ensures VerificationClosed(FinishCommand(v, parse).(inCommands := false, inArgv := false))
    ensures AgentsClosed(a) ==> FinishAgent(a, parse) == a
    ensures VerificationClosed(v) ==> FinishCommand(v, parse) == v
  {
  }

  lemma LineKeepsOneOpen(s: State, raw: string, parse: string -> Option<int>)
    requires OnlyCurrentOpen(s)
    ensures OnlyCurrentOpen(LineStep(s, raw, parse))
  {
    FinishCloses(s.profiles, s.verification, parse);
    FinishCloses(s.agents, s.verification, parse);
    hide AgentLine, OrchestratorLine, VerificationLine, PolicyLine, SandboxLine, MemoryLine;
    hide FinishAgent, FinishCommand, Ignored, IsHeader, HeaderName, Strip, Indent;
  }

  /** A header finishes the section it leaves; every other section has nothing to finish. */
  lemma HeaderSettles(s: State, parse: string -> Option<int>)
    requires OnlyCurrentOpen(s)
    ensures Settle(s, parse) == State(
              None,
              (if s.section == Some("adapter_profiles") then FinishAgent(s.profiles, parse) else s.profiles)
                .(inArgs := false, inEnv := false),
              (if s.section == Some("agents") then FinishAgent(s.agents, parse) else s.agents)
                .(inArgs := false, inEnv := false),
              s.orchestrator.(inFallback := false),
              FinishCommand(s.verification, parse).(inCommands := false, inArgv := false),
              s.policy.(list := None), s.sandbox.(list := None), s.memory.(inCommand := false))
  {
    FinishCloses(s.profiles, s.verification, parse);
    FinishCloses(s.agents, s.verification, parse);
    hide FinishAgent, FinishCommand;
  }

  // ------------------------------------------------------------------ the parser as a loop

  lemma NextLine(lines: seq<string>, i: nat, parse: string -> Option<int>)
    requires i < |lines|
    ensures Lines(Initial, lines[..i + 1], parse) == LineStep(Lines(Initial, lines[..i], parse), lines[i], parse)
  {
    assert lines[..i + 1][..i] == lines[..i];
    hide LineStep;
  }

  /**
   * `_parse_minimal_config`: one loop over the lines. A header finishes only the section that is open, and a
   * line that no section claims falls through to the verification commands, whatever the section is.
   */
  method ParseMinimalConfig(lines: seq<string>, parse: string -> Option<int>) returns (config: ProjectConfig)
    ensures config == Parse(lines, parse)
  {
    var section, profiles, agents, orchestrator := Initial.section, NoAgents, NoAgents, Initial.orchestrator;
    var verification, policy, sandbox, memory :=
      Initial.verification, Initial.policy, Initial.sandbox, Initial.memory;
    for i := 0 to |lines|
      invariant Lines(Initial, lines[..i], parse)
             == State(section, profiles, agents, orchestrator, verification, policy, sandbox, memory)
      invariant OnlyCurrentOpen(Lines(Initial, lines[..i], parse))
    {
      hide AgentLine, OrchestratorLine, CommandLine, PolicyLine, SandboxLine, MemoryLine, FinishAgent, FinishCommand;
      hide Ignored, Strip, Indent, StartsWith, EndsWith, Lines;
      ghost var before := Lines(Initial, lines[..i], parse);
      var raw := lines[i];
      NextLine(lines, i, parse);
      LineKeepsOneOpen(before, raw, parse);
      if Ignored(raw) {
        continue;
      }
      var indent, stripped := Indent(raw), Strip(raw);
      if indent == 0 && EndsWith(stripped, ":") {
        HeaderSettles(before, parse);
        if section == Some("agents") {
          agents := FinishAgent(agents, parse);
        }
        if section == Some("adapter_profiles") {
          profiles := FinishAgent(profiles, parse);
        }
        section := Some(stripped[..|stripped| - 1]);
        orchestrator := orchestrator.(inFallback := false);
        policy, sandbox := policy.(list := None), sandbox.(list := None);
        agents := agents.(inArgs := false, inEnv := false);
        profiles := profiles.(inArgs := false, inEnv := false);
        memory := memory.(inCommand := false);
        verification := FinishCommand(verification, parse).(inCommands := false, inArgv := false);
        continue;
      }
      if section == Some("adapter_profiles") {
        profiles := AgentLine(profiles, indent, stripped, parse);
      }
      if section == Some("agents") {
        agents := AgentLine(agents, indent, stripped, parse);
      }
      if section == Some("orchestrator") {
        orchestrator := OrchestratorLine(orchestrator, stripped, parse);
      }
      if section == Some("verification") && stripped == "commands:" {
        verification := verification.(inCommands := true);
        continue;
      }
      if section == Some("verification") && StartsWith(stripped, "strict:") {
        verification :=
          verification.(inCommands := false, inArgv := false, strict := Lower(ValueOf(stripped)) == "true");
        continue;
      }
      if section == Some("policy") {
        policy := PolicyLine(policy, stripped);
      }
      if section == Some("sandbox") {
        sandbox := SandboxLine(sandbox, stripped);
      }
      if section == Some("memory") {
        memory := MemoryLine(memory, stripped, parse);
      }
      if verification.inCommands {
        verification := CommandLine(verification, stripped, parse);
      }
    }
    assert lines[..|lines|] == lines;
    verification := FinishCommand(verification, parse);
    agents := FinishAgent(agents, parse);
    profiles := FinishAgent(profiles, parse);
    config := Assemble(State(section, profiles, agents, orchestrator, verification, policy, sandbox, memory));
    hide Lines;
    hide FinishAgent, FinishCommand;
  }

  // ------------------------------------------------------- the order of the sections

  /** A top-level section: its header, and lines up to the next one. */
  datatype Block = Block(header: string, lines: seq<string>)

  ghost predicate IsBlock(b: Block) {
    IsHeader(b.header) && forall line :: line in b.lines ==> !IsHeader(line)
  }

  /** Top-level sections, no two with the same name. */
  ghost predicate IsDocument(doc: seq<Block>) {
    && (forall b :: b in doc ==> IsBlock(b))
    && forall i, j :: 0 <= i < j < |doc| ==> HeaderName(doc[i].header) != HeaderName(doc[j].header)
  }

  function DocLines(doc: seq<Block>): seq<string> {
    if doc == [] then []
    else
      var last := doc[|doc| - 1];
      DocLines(doc[..|doc| - 1]) + [last.header] + last.lines
  }

  /** A section on its own, read from a state with no section open. */
  function RunBlock(s: State, b: Block, parse: string -> Option<int>): State {
    Settle(Lines(s.(section := Some(HeaderName(b.header))), b.lines, parse), parse)
  }

  /** Two states hold the same results for the section named `name`. */
  predicate Agree(s: State, t: State, name: string) {
    && (name == "adapter_profiles" ==> s.profiles == t.profiles)
    && (name == "agents" ==> s.agents == t.agents)
    && (name == "orchestrator" ==> s.orchestrator == t.orchestrator)
    && (name == "verification" ==> s.verification == t.verification)
    && (name == "policy" ==> s.policy == t.policy)
    && (name == "sandbox" ==> s.sandbox == t.sandbox)
    && (name == "memory" ==> s.memory == t.memory)
  }

  lemma AgreeOnAll(s: State, t: State)
    requires s.section == t.section
    requires forall name :: Agree(s, t, name)
    ensures s == t
  {
    assert Agree(s, t, "adapter_profiles") && Agree(s, t, "agents") && Agree(s, t, "orchestrator");
    assert Agree(s, t, "verification") && Agree(s, t, "policy") && Agree(s, t, "sandbox") && Agree(s, t, "memory");
  }

  /** Inside a section a line changes only that section, and reads nothing else. */
  lemma LineIsLocal(s: State, t: State, raw: string, name: string, other: string, parse: string -> Option<int>)
    requires s.section == t.section == Some(name) && !IsHeader(raw)
    ensures LineStep(s, raw, parse).section == LineStep(t, raw, parse).section == Some(name)
    ensures Agree(s, t, name) ==> Agree(LineStep(s, raw, parse), LineStep(t, raw, parse), name)
    ensures other != name ==> Agree(LineStep(s, raw, parse), s, other)
  {
    hide AgentLine, OrchestratorLine, VerificationLine, PolicyLine, SandboxLine, MemoryLine, IsHeader, Ignored;
    hide Strip, Indent;
  }

  lemma {:induction false} LinesAreLocal(s: State, t: State, lines: seq<string>, name: string, other: string,
                                         parse: string -> Option<int>)
    requires s.section == t.section == Some(name)
    requires forall line :: line in lines ==> !IsHeader(line)
    ensures Lines(s, lines, parse).section == Lines(t, lines, parse).section == Some(name)
    ensures Agree(s, t, name) ==> Agree(Lines(s, lines, parse), Lines(t, lines, parse), name)
    ensures other != name ==> Agree(Lines(s, lines, parse), s, other)
  {
    hide LineStep, IsHeader;
    if lines != [] {
      var rest, last := lines[..|lines| - 1], lines[|lines| - 1];
      LinesAreLocal(s, t, rest, name, other, parse);
      assert last in lines;
      LineIsLocal(Lines(s, rest, parse), Lines(t, rest, parse), last, name, other, parse);
    }
  }

  /** A settled state stays as it is. */
  lemma SettleAgain(s: State, parse: string -> Option<int>)
    ensures Settle(Settle(s, parse), parse) == Settle(s, parse)
  {
  }

  lemma SettleAgrees(s: State, t: State, name: string, parse: string -> Option<int>)
    requires Agree(s, t, name)
    ensures Agree(Settle(s, parse), Settle(t, parse), name)
  {
    hide FinishAgent, FinishCommand;
  }

  lemma BlockIsLocal(s: State, t: State, b: Block, other: string, parse: string -> Option<int>)
    requires IsBlock(b)
    ensures Agree(s, t, HeaderName(b.header)) ==>
      Agree(RunBlock(s, b, parse), RunBlock(t, b, parse), HeaderName(b.header))
    ensures other != HeaderName(b.header) && Settle(s, parse) == s ==> Agree(RunBlock(s, b, parse), s, other)
  {
    var name := HeaderName(b.header);
    var s', t' := s.(section := Some(name)), t.(section := Some(name));
    hide Lines, Settle, IsHeader, HeaderName;
    LinesAreLocal(s', t', b.lines, name, other, parse);
    if Agree(s, t, name) {
      SettleAgrees(Lines(s', b.lines, parse), Lines(t', b.lines, parse), name, parse);
    }
    if other != name && Settle(s, parse) == s {
      SettleAgrees(Lines(s', b.lines, parse), s, other, parse);
    }
  }

  /** The state after a document: one section after the other. */
  ghost function RunBlocks(doc: seq<Block>, parse: string -> Option<int>): State {
    if doc == [] then Initial
    else RunBlock(RunBlocks(doc[..|doc| - 1], parse), doc[|doc| - 1], parse)
  }

  lemma {:induction false} LinesJoin(s: State, a: seq<string>, b: seq<string>, parse: string -> Option<int>)
    ensures Lines(s, a + b, parse) == Lines(Lines(s, a, parse), b, parse)
  {
    hide LineStep;
    if b == [] {
      assert a + b == a;
    } else {
      LinesJoin(s, a, b[..|b| - 1], parse);
      assert (a + b)[..|a + b| - 1] == a + b[..|b| - 1];
    }
  }

  lemma OneLine(s: State, header: string, parse: string -> Option<int>)
    requires IsHeader(header)
    ensures Lines(s, [header], parse) == Settle(s, parse).(section := Some(HeaderName(header)))
  {
    hide Settle, HeaderName, InSection;
    assert [header][..0] == [];
    assert Lines(s, [], parse) == s;
  }

  lemma BlockJoins(s: State, before: seq<string>, b: Block, parse: string -> Option<int>)
    requires IsBlock(b)
    ensures Settle(Lines(s, before + [b.header] + b.lines, parse), parse)
         == RunBlock(Settle(Lines(s, before, parse), parse), b, parse)
  {
    LinesJoin(s, before + [b.header], b.lines, parse);
    LinesJoin(s, before, [b.header], parse);
    OneLine(Lines(s, before, parse), b.header, parse);
    hide Lines, LineStep, IsHeader, HeaderName, FinishAgent, FinishCommand;
  }

  /** The header of a section settles whatever the sections before it left open. */
  lemma {:induction false} DocumentIsBlocks(doc: seq<Block>, parse: string -> Option<int>)
    requires forall b :: b in doc ==> IsBlock(b)
    ensures Settle(Lines(Initial, DocLines(doc), parse), parse) == RunBlocks(doc, parse)
  {
    hide RunBlock, Settle, Lines, IsBlock;
    if doc == [] {
      assert DocLines(doc) == [];
      NothingRead(parse);
    } else {
      var rest, last := doc[..|doc| - 1], doc[|doc| - 1];
      DocumentIsBlocks(rest, parse);
      BlockJoins(Initial, DocLines(rest), last, parse);
    }
  }

  lemma NothingRead(parse: string -> Option<int>)
    ensures Settle(Lines(Initial, [], parse), parse) == Initial
  {
  }

  /** What a document says about a section is what that section alone says: nothing before or after it matters. */
  lemma {:induction false} SectionDecides(doc: seq<Block>, k: nat, name: string, parse: string -> Option<int>)
    requires IsDocument(doc)
    ensures k < |doc| && HeaderName(doc[k].header) == name
            ==> Agree(RunBlocks(doc, parse), RunBlock(Initial, doc[k], parse), name)
    ensures (forall b :: b in doc ==> HeaderName(b.header) != name) ==> Agree(RunBlocks(doc, parse), Initial, name)
  {
    hide RunBlock, IsBlock, HeaderName, Settle, Lines;
    if doc != [] {
      var rest, last := doc[..|doc| - 1], doc[|doc| - 1];
      assert last in doc;
      SectionDecides(rest, k, name, parse);
      RunBlocksSettled(rest, parse);
      BlockIsLocal(RunBlocks(rest, parse), Initial, last, name, parse);
      if k == |doc| - 1 && HeaderName(doc[k].header) == name {
        assert forall b :: b in rest ==> HeaderName(b.header) != name;
      }
    }
  }

  lemma {:induction false} RunBlocksSettled(doc: seq<Block>, parse: string -> Option<int>)
    ensures Settle(RunBlocks(doc, parse), parse) == RunBlocks(doc, parse)
    ensures RunBlocks(doc, parse).section == None
  {
    if doc != [] {
      var before := RunBlocks(doc[..|doc| - 1], parse);
      var last := doc[|doc| - 1];
      SettleAgain(Lines(before.(section := Some(HeaderName(last.header))), last.lines, parse), parse);
      hide Lines, HeaderName, FinishAgent, FinishCommand;
    }
  }

  lemma OccursTwice(blocks: seq<Block>, i: nat, j: nat)
    requires i < j < |blocks| && blocks[i] == blocks[j]
    ensures multiset(blocks)[blocks[i]] >= 2
  {
    assert blocks == blocks[..i] + [blocks[i]] + blocks[i + 1..];
    assert blocks[j] == blocks[i + 1..][j - i - 1];
  }

  lemma OccursOnce(doc: seq<Block>, i: nat)
    requires IsDocument(doc) && i < |doc|
    ensures multiset(doc)[doc[i]] == 1
  {
    hide IsBlock, HeaderName;
    forall j | 0 <= j < |doc| && j != i ensures doc[j] != doc[i] {
      assert HeaderName(doc[if i < j then i else j].header) != HeaderName(doc[if i < j then j else i].header);
    }
    hide IsDocument;
    assert doc[i] !in doc[..i] && doc[i] !in doc[i + 1..];
    assert doc == doc[..i] + [doc[i]] + doc[i + 1..];
  }

  /** Moving sections around leaves each section there, once. */
  lemma ShuffledIsDocument(doc: seq<Block>, shuffled: seq<Block>)
    requires IsDocument(doc) && multiset(doc) == multiset(shuffled)
    ensures IsDocument(shuffled)
    ensures forall b :: b in doc <==> b in shuffled
  {
    assert forall b :: b in doc <==> b in multiset(doc);
    assert forall b :: b in shuffled <==> b in multiset(shuffled);
    hide HeaderName, IsBlock;
    forall i, j | 0 <= i < j < |shuffled| ensures HeaderName(shuffled[i].header) != HeaderName(shuffled[j].header) {
      assert shuffled[i] in doc && shuffled[j] in doc;
      var k :| 0 <= k < |doc| && doc[k] == shuffled[i];
      var l :| 0 <= l < |doc| && doc[l] == shuffled[j];
      if k == l {
        OccursTwice(shuffled, i, j);
        OccursOnce(doc, k);
      } else {
        assert HeaderName(doc[if k < l then k else l].header) != HeaderName(doc[if k < l then l else k].header);
      }
    }
  }

  lemma SameSection(doc: seq<Block>, shuffled: seq<Block>, name: string, parse: string -> Option<int>)
    requires IsDocument(doc) && IsDocument(shuffled)
    requires forall b :: b in doc <==> b in shuffled
    ensures Agree(RunBlocks(doc, parse), RunBlocks(shuffled, parse), name)
  {
    hide RunBlocks, RunBlock, IsDocument, HeaderName;
    if b :| b in doc && HeaderName(b.header) == name {
      var i :| 0 <= i < |doc| && doc[i] == b;
      assert b in shuffled;
      var j :| 0 <= j < |shuffled| && shuffled[j] == b;
      SectionDecides(doc, i, name, parse);
      SectionDecides(shuffled, j, name, parse);
    } else {
      SectionDecides(doc, 0, name, parse);
      SectionDecides(shuffled, 0, name, parse);
    }
  }

  lemma SectionsInAnyOrder(doc: seq<Block>, shuffled: seq<Block>, parse: string -> Option<int>)
    requires IsDocument(doc)
    requires multiset(doc) == multiset(shuffled)
    ensures Parse(DocLines(doc), parse) == Parse(DocLines(shuffled), parse)
  {
    ShuffledIsDocument(doc, shuffled);
    hide RunBlocks, Settle, Lines, Agree, IsDocument, Assemble;
    forall name {
      SameSection(doc, shuffled, name, parse);
    }
    RunBlocksSettled(doc, parse);
    RunBlocksSettled(shuffled, parse);
    AgreeOnAll(RunBlocks(doc, parse), RunBlocks(shuffled, parse));
    DocumentIsBlocks(doc, parse);
    DocumentIsBlocks(shuffled, parse);
  }

  /** Lines before the first header. */
  ghost predicate IsPreamble(lines: seq<string>) {
    forall line :: line in lines ==> !IsHeader(line)
  }

  lemma {:induction false} PreambleIgnored(preamble: seq<string>, parse: string -> Option<int>)
    requires IsPreamble(preamble)
    ensures Lines(Initial, preamble, parse) == Initial
  {
    hide IsHeader;
    if preamble != [] {
      PreambleIgnored(preamble[..|preamble| - 1], parse);
    }
  }

  /**
   * Section-order independence: files made of the same sections, each section once, parse to the same configuration,
   * in whatever order the sections come and whatever stands before the first of them.
   */
  lemma SectionOrderIndependence(
    doc: seq<Block>, shuffled: seq<Block>, preamble: seq<string>, other: seq<string>, parse: string -> Option<int>)
    requires IsDocument(doc) && IsPreamble(preamble) && IsPreamble(other)
    requires multiset(doc) == multiset(shuffled)
    ensures Parse(preamble + DocLines(doc), parse) == Parse(other + DocLines(shuffled), parse)
  {
    SectionsInAnyOrder(doc, shuffled, parse);
    PreambleIgnored(preamble, parse);
    PreambleIgnored(other, parse);
    LinesJoin(Initial, preamble, DocLines(doc), parse);
    LinesJoin(Initial, other, DocLines(shuffled), parse);
    hide Lines, Settle, Assemble, IsDocument, IsPreamble;
  }
}
