/** The configuration that `setup` writes, and the proof that the line parser reads back what was written. */
module ConfigSetup {
  import opened Prelude
  import opened Text
  import opened Config

  // ------------------------------------------------------------------ rendering

  datatype Cli = Cli(command: string, args: seq<string>, timeout: nat)

  /** An agent as `setup` writes it; the mock agent has no command. */
  datatype Worker = Worker(name: string, enabled: bool, kind: string, cli: Option<Cli>)

  datatype Check = Check(name: string, run: string, timeout: nat)

  datatype Setup = Setup(
    projectName: string, repo: string, setupProfile: string,
    defaultAgent: string, fallback: seq<string>, maxIterations: nat, maxNoChange: nat, maxRuntime: nat,
    workers: seq<Worker>, strict: bool, checks: seq<Check>, deny: seq<string>, ask: seq<string>,
    provider: string, command: seq<string>, project: string, timeout: nat, maxLessons: nat)

  /** One line below a section header. */
  datatype Row = Row(indent: nat, text: string) | Gap

  function Spaces(k: nat): string {
    if k == 0 then "" else " " + Spaces(k - 1)
  }

  function Raw(r: Row): string {
    if r.Gap? then "" else Spaces(r.indent) + r.text
  }

  function RawAll(rows: seq<Row>): seq<string> {
    seq(|rows|, i requires 0 <= i < |rows| => Raw(rows[i]))
  }

  function Quoted(key: string, value: string): string {
    key + ": \"" + value + "\""
  }

  function Bare(key: string, value: string): string {
    key + ": " + value
  }

  function Item(value: string): string {
    "- \"" + value + "\""
  }

  function YamlBool(b: bool): string {
    if b then "true" else "false"
  }

  function ItemRows(indent: nat, values: seq<string>): seq<Row> {
    if values == [] then [] else ItemRows(indent, values[..|values| - 1]) + [Row(indent, Item(values[|values| - 1]))]
  }

  // -------------------------------------------------------------- single lines

  predicate RowOk(r: Row) {
    r.Row? ==> r.indent >= 1 && Trim(r.text) && r.text[0] != '#'
  }

  ghost predicate RowsOk(rows: seq<Row>) {
    forall i :: 0 <= i < |rows| ==> RowOk(rows[i])
  }

  lemma {:induction false} SpacesGo(k: nat, s: string)
    requires Trim(s)
    ensures TrimLeft(Spaces(k) + s) == s && Strip(Spaces(k) + s) == s && Indent(Spaces(k) + s) == k
  {
    if k == 0 {
      assert Spaces(0) + s == s;
      assert TrimLeft(s) == s && TrimRight(s) == s;
    } else {
      SpacesGo(k - 1, s);
      assert (Spaces(k) + s)[1..] == Spaces(k - 1) + s;
      assert TrimRight(s) == s;
    }
  }

  /** A rendered line is read as its text at its indent, and a gap is not read at all. */
  lemma RowRead(st: State, r: Row, parse: string -> Option<int>)
    requires RowOk(r)
    ensures !IsHeader(Raw(r))
    ensures LineStep(st, Raw(r), parse) == if r.Gap? then st else InSection(st, r.indent, r.text, parse)
  {
    hide InSection, Settle;
    if r.Row? {
      SpacesGo(r.indent, r.text);
      hide Strip, TrimLeft, Indent, Spaces;
    } else {
      assert Strip("") == "";
    }
  }

  /** A header is read as the section's name. */
  lemma HeaderRead(name: string)
    requires name != "" && !IsSpace(name[0]) && name[0] != '#'
    ensures IsHeader(name + ":") && HeaderName(name + ":") == name
  {
    var s := name + ":";
    SpacesGo(0, s);
    assert Spaces(0) + s == s;
    hide Strip, TrimLeft, Indent;
    assert s[|s| - 1..] == ":" && s[..|s| - 1] == name;
  }

  // ------------------------------------------------------------- keys and values

  predicate KeyOk(key: string) {
    Trim(key) && ':' !in key && key[0] != '-' && key[0] != '#'
  }

  lemma {:induction false} SplitAtColon(key: string, rest: string)
    requires ':' !in key
    ensures BeforeColon(key + ":" + rest) == key && AfterColon(key + ":" + rest) == rest
  {
    var s := key + ":" + rest;
    if key == "" {
      assert s[0] == ':' && s[1..] == rest;
    } else {
      assert s[0] == key[0] && key[0] in key;
      assert s[1..] == key[1..] + ":" + rest;
      assert forall c :: c in key[1..] ==> c in key;
      SplitAtColon(key[1..], rest);
    }
  }

  /** What the tests of the parser see of a `key: value` text. */
  predicate PairText(s: string, key: string, value: string) {
    && key != "" && Trim(s) && s[0] == key[0] && ':' in s && !EndsWith(s, ":") && !StartsWith(s, "- ")
    && Key(s) == key && ValueOf(s) == value
  }

  lemma PairIs(key: string, shown: string, value: string)
    requires KeyOk(key) && Trim(shown) && shown[|shown| - 1] != ':' && StripQuotes(shown) == value
    ensures PairText(key + ": " + shown, key, value)
    ensures StartsWith(key + ": " + shown, key + ":")
    ensures forall other :: ':' !in other && other != key ==> !StartsWith(key + ": " + shown, other + ":")
  {
    var s := key + ": " + shown;
    PairSplits(key, shown);
    assert s[..|key| + 1] == key + ":" && s[|key|] == ':' && s[|s| - 1] == shown[|shown| - 1];
    hide Strip, BeforeColon, AfterColon, StripQuotes;
    assert StartsWith(s, key + ":");
    forall other | ':' !in other && other != key ensures !StartsWith(s, other + ":") {
      if StartsWith(s, other + ":") {
        OnePrefix(s, key, other);
      }
    }
    hide StartsWith;
    assert Key(s) == key && ValueOf(s) == value;
    PairEdges(key, shown);
  }

  lemma PairSplits(key: string, shown: string)
    requires KeyOk(key) && Trim(shown)
    ensures var s := key + ": " + shown; Strip(BeforeColon(s)) == key && Strip(AfterColon(s)) == shown
  {
    assert key + ": " + shown == key + ":" + (" " + shown);
    SplitAtColon(key, " " + shown);
    SpacesGo(1, shown);
    assert Spaces(1) == " " + Spaces(0) == " ";
    TrimIsFixed(key);
    hide Strip, BeforeColon, AfterColon;
  }

  lemma PairEdges(key: string, shown: string)
    requires KeyOk(key) && Trim(shown) && shown[|shown| - 1] != ':'
    ensures var s := key + ": " + shown;
      Trim(s) && s[0] == key[0] && !EndsWith(s, ":") && !StartsWith(s, "- ")
  {
    var s := key + ": " + shown;
    assert s[|s| - 1] == shown[|shown| - 1] && s[|s| - 1..][0] == s[|s| - 1];
    assert s[..2][0] == s[0];
  }

  lemma OnePrefix(s: string, key: string, other: string)
    requires ':' !in key && ':' !in other && StartsWith(s, key + ":") && StartsWith(s, other + ":")
    ensures key == other
  {
    assert s[|key|] == (key + ":")[|key|] && s[|other|] == (other + ":")[|other|];
    assert forall i :: 0 <= i < |key| ==> s[i] == (key + ":")[i] == key[i] && key[i] in key;
    assert forall i :: 0 <= i < |other| ==> s[i] == (other + ":")[i] == other[i] && other[i] in other;
    assert |key| == |other|;
  }

  lemma QuotedIs(key: string, value: string)
    requires KeyOk(key)
    ensures PairText(Quoted(key, value), key, value) && StartsWith(Quoted(key, value), key + ":")
    ensures forall other :: ':' !in other && other != key ==> !StartsWith(Quoted(key, value), other + ":")
  {
    var shown := "\"" + value + "\"";
    assert Quoted(key, value) == key + ": " + shown;
    assert shown[1..|shown| - 1] == value;
    PairIs(key, shown, value);
  }

  lemma BareIs(key: string, value: string)
    requires KeyOk(key) && value != "" && forall i :: 0 <= i < |value| ==> IsDigit(value[i]) || 'a' <= value[i] <= 'z'
    ensures PairText(Bare(key, value), key, value) && StartsWith(Bare(key, value), key + ":")
    ensures forall other :: ':' !in other && other != key ==> !StartsWith(Bare(key, value), other + ":")
  {
    PairIs(key, value, value);
  }

  lemma ItemIs(value: string)
    ensures Trim(Item(value)) && Item(value)[0] == '-' && !EndsWith(Item(value), ":")
    ensures StartsWith(Item(value), "- ") && ItemText(Item(value)) == value
  {
    var s, shown := Item(value), "\"" + value + "\"";
    assert s[..2] == "- " && s[2..] == shown && shown[1..|shown| - 1] == value;
    TrimIsFixed(shown);
    hide Strip;
  }

  // -------------------------------------------------------- reading section rows

  /** The rows read one after the other by the reader of one section. */
  function Fold<C>(c: C, rows: seq<Row>, step: (C, nat, string) -> C): C {
    if rows == [] then c
    else
      var before, r := Fold(c, rows[..|rows| - 1], step), rows[|rows| - 1];
      if r.Gap? then before else step(before, r.indent, r.text)
  }

  lemma {:induction false} FoldJoin<C>(c: C, a: seq<Row>, b: seq<Row>, step: (C, nat, string) -> C)
    ensures Fold(c, a + b, step) == Fold(Fold(c, a, step), b, step)
  {
    if b == [] {
      assert a + b == a;
    } else {
      FoldJoin(c, a, b[..|b| - 1], step);
      assert (a + b)[..|a + b| - 1] == a + b[..|b| - 1];
    }
  }

  lemma FoldFirst<C>(c: C, indent: nat, text: string, rest: seq<Row>, step: (C, nat, string) -> C)
    ensures Fold(c, [Row(indent, text)] + rest, step) == Fold(step(c, indent, text), rest, step)
  {
    FoldJoin(c, [Row(indent, text)], rest, step);
    assert [Row(indent, text)][..0] == [];
    assert Fold(c, [], step) == c;
  }

  lemma FoldGap<C>(c: C, step: (C, nat, string) -> C)
    ensures Fold(c, [Gap], step) == c && Fold(c, [], step) == c
  {
    assert [Gap][..0] == [];
  }

  /** A list read item by item. */
  lemma {:induction false} FoldItems<C>(
    c: C, indent: nat, values: seq<string>, step: (C, nat, string) -> C, added: seq<string> -> C)
    requires added([]) == c
    requires forall vs: seq<string>, v: string {:trigger step(added(vs), indent, Item(v))} ::
      step(added(vs), indent, Item(v)) == added(vs + [v])
    ensures Fold(c, ItemRows(indent, values), step) == added(values)
  {
    hide Item;
    if values == [] {
    } else {
      var rest, last := values[..|values| - 1], values[|values| - 1];
      FoldItems(c, indent, rest, step, added);
      assert step(added(rest), indent, Item(last)) == added(rest + [last]);
      assert ItemRows(indent, values)[..|ItemRows(indent, values)| - 1] == ItemRows(indent, rest);
      assert rest + [last] == values;
    }
  }

  function AgentStep(parse: string -> Option<int>): (Agents, nat, string) -> Agents {
    (c: Agents, indent: nat, text: string) => AgentLine(c, indent, text, parse)
  }

  function OrchestratorStep(parse: string -> Option<int>): (Orchestrator, nat, string) -> Orchestrator {
    (c: Orchestrator, indent: nat, text: string) => OrchestratorLine(c, text, parse)
  }

  function VerificationStep(parse: string -> Option<int>): (Verification, nat, string) -> Verification {
    (c: Verification, indent: nat, text: string) => VerificationLine(c, text, parse)
  }

  function PolicyStep(): (Patterns, nat, string) -> Patterns {
    (c: Patterns, indent: nat, text: string) => PolicyLine(c, text)
  }

  function MemoryStep(parse: string -> Option<int>): (Memory, nat, string) -> Memory {
    (c: Memory, indent: nat, text: string) => MemoryLine(c, text, parse)
  }

  /** The parser, inside a section, is that section's reader. */
  lemma {:induction false} SectionRead(st: State, rows: seq<Row>, parse: string -> Option<int>)
    requires RowsOk(rows)
    ensures var after := Lines(st, RawAll(rows), parse);
      && after.section == st.section
      && (st.section == Some("agents") ==> after.agents == Fold(st.agents, rows, AgentStep(parse)))
      && (st.section == Some("orchestrator") ==>
            after.orchestrator == Fold(st.orchestrator, rows, OrchestratorStep(parse)))
      && (st.section == Some("verification") ==>
            after.verification == Fold(st.verification, rows, VerificationStep(parse)))
      && (st.section == Some("policy") ==> after.policy == Fold(st.policy, rows, PolicyStep()))
      && (st.section == Some("memory") ==> after.memory == Fold(st.memory, rows, MemoryStep(parse)))
  {
    hide AgentLine, OrchestratorLine, VerificationLine, PolicyLine, MemoryLine, SandboxLine, RowOk, Raw, LineStep;
    if rows == [] {
      assert RawAll(rows) == [];
    } else {
      var before, r := rows[..|rows| - 1], rows[|rows| - 1];
      assert RawAll(rows)[..|rows| - 1] == RawAll(before);
      assert RowOk(r);
      SectionRead(st, before, parse);
      RowRead(Lines(st, RawAll(before), parse), r, parse);
    }
  }

  // ------------------------------------------------------------------- agents

  function CliRows(o: Option<Cli>): seq<Row> {
    if o.None? then [Gap]
    else
      var cli := o.value;
      [Row(4, Quoted("command", cli.command))] +
      ([Row(4, "args:")] + (ItemRows(6, cli.args) + ([Row(4, Bare("timeout_sec", Decimal(cli.timeout)))] + [Gap])))
  }

  function WorkerRows(w: Worker): seq<Row> {
    [Row(2, w.name + ":")] +
    ([Row(4, Bare("enabled", YamlBool(w.enabled)))] + ([Row(4, Quoted("type", w.kind))] + CliRows(w.cli)))
  }

  function WorkersRows(ws: seq<Worker>): seq<Row> {
    if ws == [] then [] else WorkersRows(ws[..|ws| - 1]) + WorkerRows(ws[|ws| - 1])
  }

  /** The agent a worker is written for; an empty argument list cannot be told from none. */
  function WorkerAgent(w: Worker): Agent {
    if w.cli.None? then Agent(w.name, w.kind, w.enabled, "", "", None, 300, map[])
    else
      var cli := w.cli.value;
      Agent(w.name, w.kind, w.enabled, "", cli.command,
            if cli.args == [] then None else Some(cli.args), cli.timeout, map[])
  }

  function WorkerAgents(ws: seq<Worker>): map<string, Agent> {
    if ws == [] then map[]
    else WorkerAgents(ws[..|ws| - 1])[ws[|ws| - 1].name := WorkerAgent(ws[|ws| - 1])]
  }

  /** The parser reads decimal numbers back. */
  ghost predicate ReadsNumbers(parse: string -> Option<int>) {
    forall n: nat :: parse(Decimal(n)) == Some(n)
  }

  lemma AgentKeysOk()
    ensures KeyOk("enabled") && KeyOk("type") && KeyOk("command") && KeyOk("timeout_sec")
  {
  }

  /** A `key: value` line below an agent's name sets the field and ends the lists. */
  lemma AgentPair(c: Agents, s: string, key: string, value: string, parse: string -> Option<int>)
    requires c.current.Some? && !c.inEnv && PairText(s, key, value)
    ensures AgentLine(c, 4, s, parse) ==
            c.(current := Some(c.current.value[key := Plain(value)]), inArgs := false, inEnv := false)
  {
    assert EndsWith("args:", ":") && EndsWith("env:", ":");
    hide PairText, KeyOk, StartsWith, EndsWith, Key, ValueOf, FinishAgent;
    PairParts(s, key, value);
  }

  lemma PairParts(s: string, key: string, value: string)
    requires PairText(s, key, value)
    ensures key != "" && s != "" && ':' in s && !EndsWith(s, ":") && !StartsWith(s, "- ")
    ensures Key(s) == key && ValueOf(s) == value
  {
  }

  /** The arguments of an open agent after `values` are read. */
  function WithArgs(c: Agents, values: seq<string>): Agents
    requires c.current.Some?
  {
    if values == [] then c else c.(current := Some(c.current.value["args" := List(values)]))
  }

  lemma AgentItems(c: Agents, values: seq<string>, parse: string -> Option<int>)
    requires c.current.Some? && c.inArgs && !c.inEnv && "args" !in c.current.value
    ensures Fold(c, ItemRows(6, values), AgentStep(parse)) == WithArgs(c, values)
  {
    var added: seq<string> -> Agents := vs requires c.current.Some? => WithArgs(c, vs);
    forall vs: seq<string>, v: string ensures AgentStep(parse)(added(vs), 6, Item(v)) == added(vs + [v]) {
      OneMoreArg(c, vs, v, parse);
    }
    FoldItems(c, 6, values, AgentStep(parse), added);
  }

  lemma OneMoreArg(c: Agents, rest: seq<string>, last: string, parse: string -> Option<int>)
    requires c.current.Some? && c.inArgs && !c.inEnv && "args" !in c.current.value
    ensures AgentLine(WithArgs(c, rest), 6, Item(last), parse) == WithArgs(c, rest + [last])
  {
    AgentItem(WithArgs(c, rest), last, parse);
    var f := c.current.value;
    assert [] + [last] == [last];
    assert f["args" := List(rest)]["args" := List(rest + [last])] == f["args" := List(rest + [last])];
    hide AgentLine, Item;
  }

  lemma AgentItem(c: Agents, value: string, parse: string -> Option<int>)
    requires c.current.Some? && c.inArgs && !c.inEnv
    ensures var f := c.current.value;
      var items := if "args" in f && f["args"].List? then f["args"].items else [];
      AgentLine(c, 6, Item(value), parse) == c.(current := Some(f["args" := List(items + [value])]))
  {
    ItemIs(value);
    assert EndsWith("args:", ":") && EndsWith("env:", ":");
    hide StartsWith, EndsWith, Item, ItemText, FinishAgent;
  }

  lemma AgentName(c: Agents, name: string, parse: string -> Option<int>)
    ensures AgentLine(c, 2, name + ":", parse) ==
            FinishAgent(c, parse).(name := Some(name), current := Some(map[]), inArgs := false, inEnv := false)
  {
    var s := name + ":";
    assert s[|s| - 1..] == ":" && s[..|s| - 1] == name;
    hide FinishAgent;
  }

  /** The fields of an open worker. */
  function BaseFields(w: Worker): Fields {
    map["enabled" := Plain(YamlBool(w.enabled)), "type" := Plain(w.kind)]
  }

  function CliFields(f: Fields, cli: Cli): Fields {
    var named := f["command" := Plain(cli.command)];
    (if cli.args == [] then named else named["args" := List(cli.args)])["timeout_sec" := Plain(Decimal(cli.timeout))]
  }

  function WorkerFields(w: Worker): Fields {
    if w.cli.None? then BaseFields(w) else CliFields(BaseFields(w), w.cli.value)
  }

  lemma CliRead(c: Agents, cli: Cli, parse: string -> Option<int>)
    requires c.current.Some? && !c.inArgs && !c.inEnv && "args" !in c.current.value
    ensures Fold(c, CliRows(Some(cli)), AgentStep(parse)) == c.(current := Some(CliFields(c.current.value, cli)))
  {
    hide AgentLine, Fold, Quoted, Bare, PairText, KeyOk, ItemRows;
    var step := AgentStep(parse);
    AgentKeysOk();
    QuotedIs("command", cli.command);
    BareIs("timeout_sec", Decimal(cli.timeout));
    var last := [Row(4, Bare("timeout_sec", Decimal(cli.timeout)))] + [Gap];
    FoldFirst(c, 4, Quoted("command", cli.command), [Row(4, "args:")] + (ItemRows(6, cli.args) + last), step);
    AgentPair(c, Quoted("command", cli.command), "command", cli.command, parse);
    var named := c.(current := Some(c.current.value["command" := Plain(cli.command)]), inArgs := false, inEnv := false);
    FoldFirst(named, 4, "args:", ItemRows(6, cli.args) + last, step);
    ArgsLine(named, parse);
    var open := named.(inArgs := true, inEnv := false);
    FoldJoin(open, ItemRows(6, cli.args), last, step);
    AgentItems(open, cli.args, parse);
    var listed := Fold(open, ItemRows(6, cli.args), step);
    FoldFirst(listed, 4, Bare("timeout_sec", Decimal(cli.timeout)), [Gap], step);
    AgentPair(listed, Bare("timeout_sec", Decimal(cli.timeout)), "timeout_sec", Decimal(cli.timeout), parse);
    FoldGap(step(listed, 4, Bare("timeout_sec", Decimal(cli.timeout))), step);
  }

  lemma ArgsLine(c: Agents, parse: string -> Option<int>)
    requires c.current.Some?
    ensures AgentLine(c, 4, "args:", parse) == c.(inArgs := true, inEnv := false)
  {
  }

  /** The rows a worker starts with. */
  lemma WorkerHead(c: Agents, w: Worker, rest: seq<Row>, parse: string -> Option<int>)
    ensures var head := [Row(2, w.name + ":")] +
      ([Row(4, Bare("enabled", YamlBool(w.enabled)))] + ([Row(4, Quoted("type", w.kind))] + rest));
      Fold(c, head, AgentStep(parse)) ==
      Fold(Agents(FinishAgent(c, parse).done, Some(w.name), Some(BaseFields(w)), false, false), rest, AgentStep(parse))
  {
    hide AgentLine, Fold, Quoted, Bare, PairText, KeyOk, FinishAgent;
    var step := AgentStep(parse);
    var enabled, kind := Bare("enabled", YamlBool(w.enabled)), Quoted("type", w.kind);
    AgentKeysOk();
    BareIs("enabled", YamlBool(w.enabled));
    QuotedIs("type", w.kind);
    FoldFirst(c, 2, w.name + ":", [Row(4, enabled)] + ([Row(4, kind)] + rest), step);
    AgentName(c, w.name, parse);
    var named := step(c, 2, w.name + ":");
    FoldFirst(named, 4, enabled, [Row(4, kind)] + rest, step);
    AgentPair(named, enabled, "enabled", YamlBool(w.enabled), parse);
    var first := step(named, 4, enabled);
    FoldFirst(first, 4, kind, rest, step);
    AgentPair(first, kind, "type", w.kind, parse);
    assert step(first, 4, kind).current == Some(BaseFields(w));
  }

  lemma WorkerRead(c: Agents, w: Worker, parse: string -> Option<int>)
    ensures Fold(c, WorkerRows(w), AgentStep(parse)) ==
            Agents(FinishAgent(c, parse).done, Some(w.name), Some(WorkerFields(w)), false, false)
  {
    hide AgentLine, Fold, CliRows, CliFields, FinishAgent, Quoted, Bare;
    WorkerHead(c, w, CliRows(w.cli), parse);
    CliRowsRead(Agents(FinishAgent(c, parse).done, Some(w.name), Some(BaseFields(w)), false, false), w.cli, parse);
  }

  lemma CliRowsRead(c: Agents, cli: Option<Cli>, parse: string -> Option<int>)
    requires c.current.Some? && !c.inArgs && !c.inEnv && "args" !in c.current.value
    ensures Fold(c, CliRows(cli), AgentStep(parse)) ==
            if cli.None? then c else c.(current := Some(CliFields(c.current.value, cli.value)))
  {
    if cli.None? {
      FoldGap(c, AgentStep(parse));
    } else {
      CliRead(c, cli.value, parse);
    }
  }

  /** Finishing an open worker yields its agent. */
  lemma WorkerFinished(c: Agents, w: Worker, parse: string -> Option<int>)
    requires c.name == Some(w.name) && c.current == Some(WorkerFields(w)) && ReadsNumbers(parse)
    ensures FinishAgent(c, parse) == c.(done := c.done[w.name := WorkerAgent(w)], name := None, current := None)
  {
    assert Lower("true") == "true" && Lower("false") == "false" && "false"[0] != "true"[0];
    hide Decimal, Lower;
  }

  /** Every worker that is written is an agent that is read, the last of a name winning. */
  lemma {:induction false} WorkersRead(ws: seq<Worker>, parse: string -> Option<int>)
    requires ReadsNumbers(parse)
    ensures FinishAgent(Fold(NoAgents, WorkersRows(ws), AgentStep(parse)), parse) ==
            Agents(WorkerAgents(ws), None, None, false, false)
  {
    hide WorkerRows, WorkerFields, WorkerAgent, ReadsNumbers;
    if ws == [] {
    } else {
      var rest, w := ws[..|ws| - 1], ws[|ws| - 1];
      WorkersRead(rest, parse);
      var before := Fold(NoAgents, WorkersRows(rest), AgentStep(parse));
      FoldJoin(NoAgents, WorkersRows(rest), WorkerRows(w), AgentStep(parse));
      WorkerRead(before, w, parse);
      WorkerFinished(Fold(before, WorkerRows(w), AgentStep(parse)), w, parse);
    }
  }

  // ------------------------------------------------------------- orchestrator

  function OrchestratorRows(c: Setup): seq<Row> {
    [Row(2, Quoted("default_agent", c.defaultAgent))] +
    ([Row(2, "fallback_agents:")] +
     (ItemRows(4, c.fallback) +
      ([Row(2, Bare("max_iterations", Decimal(c.maxIterations)))] +
       ([Row(2, Bare("max_no_change_iterations", Decimal(c.maxNoChange)))] +
        ([Row(2, Bare("max_runtime_sec", Decimal(c.maxRuntime)))] + [Gap])))))
  }

  lemma OrchestratorKeysOk()
    ensures KeyOk("default_agent") && KeyOk("max_iterations")
    ensures KeyOk("max_no_change_iterations") && KeyOk("max_runtime_sec")
  {
  }

  lemma OrchestratorItem(c: Orchestrator, value: string, parse: string -> Option<int>)
    requires c.inFallback
    ensures OrchestratorLine(c, Item(value), parse) == c.(fallback := c.fallback + [value])
  {
    ItemIs(value);
    hide ItemText, Item;
  }

  /** Texts that differ in a character do not start alike. */
  lemma Differs(s: string, test: string, k: nat)
    requires k < |s| && k < |test| && s[k] != test[k]
    ensures !StartsWith(s, test)
  {
    assert |test| <= |s| ==> s[..|test|][k] == s[k];
  }

  /** The characters of the key stand at the front of the text. */
  lemma KeyAt(s: string, key: string, k: nat)
    requires StartsWith(s, key + ":") && k < |key|
    ensures k < |s| && s[k] == key[k]
  {
    assert s[..|key| + 1][k] == (key + ":")[k];
  }

  lemma OrchestratorAgent(c: Orchestrator, value: string, parse: string -> Option<int>)
    ensures OrchestratorLine(c, Quoted("default_agent", value), parse) == c.(inFallback := false, defaultAgent := value)
  {
    var s := Quoted("default_agent", value);
    OrchestratorKeysOk();
    QuotedIs("default_agent", value);
    KeyAt(s, "default_agent", 0);
    assert "default_agent" + ":" == "default_agent:";
    Differs(s, "max_iterations:", 0);
    Differs(s, "max_no_change_iterations:", 0);
    Differs(s, "max_runtime_sec:", 0);
    Differs(s, "max_task_runtime_minutes:", 0);
    hide Quoted, StartsWith, KeyOk, ValueOf;
  }

  /** What the tests see of a number under `key`. */
  lemma NumberIs(key: string, n: nat, test: string, parse: string -> Option<int>)
    requires KeyOk(key) && test == key + ":" && parse(Decimal(n)) == Some(n)
    ensures StartsWith(Bare(key, Decimal(n)), test) && parse(ValueOf(Bare(key, Decimal(n)))) == Some(n)
  {
    BareIs(key, Decimal(n));
    hide Bare, Decimal, StartsWith, KeyOk, ValueOf;
  }

  lemma OrchestratorTests()
    ensures "max_iterations" + ":" == "max_iterations:"
    ensures "max_no_change_iterations" + ":" == "max_no_change_iterations:"
    ensures "max_runtime_sec" + ":" == "max_runtime_sec:"
  {
  }

  lemma OrchestratorIterations(c: Orchestrator, n: nat, parse: string -> Option<int>)
    requires parse(Decimal(n)) == Some(n)
    ensures OrchestratorLine(c, Bare("max_iterations", Decimal(n)), parse) ==
            c.(inFallback := false, maxIterations := n)
  {
    hide Bare, StartsWith, KeyOk, ValueOf, Decimal;
    OrchestratorKeysOk();
    OrchestratorTests();
    NumberIs("max_iterations", n, "max_iterations:", parse);
  }

  lemma OrchestratorNoChange(c: Orchestrator, n: nat, parse: string -> Option<int>)
    requires parse(Decimal(n)) == Some(n)
    ensures OrchestratorLine(c, Bare("max_no_change_iterations", Decimal(n)), parse) ==
            c.(inFallback := false, maxNoChange := n)
  {
    hide Bare, StartsWith, KeyOk, ValueOf, Decimal;
    var s := Bare("max_no_change_iterations", Decimal(n));
    OrchestratorKeysOk();
    OrchestratorTests();
    NumberIs("max_no_change_iterations", n, "max_no_change_iterations:", parse);
    KeyAt(s, "max_no_change_iterations", 4);
    Differs(s, "max_iterations:", 4);
  }

  lemma OrchestratorRuntime(c: Orchestrator, n: nat, parse: string -> Option<int>)
    requires parse(Decimal(n)) == Some(n)
    ensures OrchestratorLine(c, Bare("max_runtime_sec", Decimal(n)), parse) ==
            c.(inFallback := false, maxRuntimeSec := Some(n))
  {
    hide Bare, StartsWith, KeyOk, ValueOf, Decimal;
    var s := Bare("max_runtime_sec", Decimal(n));
    OrchestratorKeysOk();
    OrchestratorTests();
    NumberIs("max_runtime_sec", n, "max_runtime_sec:", parse);
    KeyAt(s, "max_runtime_sec", 4);
    Differs(s, "max_iterations:", 4);
    Differs(s, "max_no_change_iterations:", 4);
  }

  lemma OrchestratorFallback(c: Orchestrator, parse: string -> Option<int>)
    ensures OrchestratorLine(c, "fallback_agents:", parse) == c.(inFallback := true)
  {
    Differs("fallback_agents:", "max_iterations:", 0);
    Differs("fallback_agents:", "max_no_change_iterations:", 0);
    Differs("fallback_agents:", "max_runtime_sec:", 0);
    Differs("fallback_agents:", "max_task_runtime_minutes:", 0);
    Differs("fallback_agents:", "default_agent:", 0);
    hide StartsWith, ValueOf;
  }

  lemma OrchestratorItems(c: Orchestrator, values: seq<string>, parse: string -> Option<int>)
    requires c.inFallback
    ensures Fold(c, ItemRows(4, values), OrchestratorStep(parse)) == c.(fallback := c.fallback + values)
  {
    hide OrchestratorLine, Item;
    var added := (vs: seq<string>) => c.(fallback := c.fallback + vs);
    forall vs: seq<string>, v: string ensures OrchestratorStep(parse)(added(vs), 4, Item(v)) == added(vs + [v]) {
      OrchestratorItem(added(vs), v, parse);
      assert c.fallback + vs + [v] == c.fallback + (vs + [v]);
    }
    assert c.fallback + [] == c.fallback;
    FoldItems(c, 4, values, OrchestratorStep(parse), added);
  }

  lemma OrchestratorRead(c: Setup, parse: string -> Option<int>)
    requires ReadsNumbers(parse)
    ensures Fold(Initial.orchestrator, OrchestratorRows(c), OrchestratorStep(parse)) ==
            Orchestrator(c.maxIterations, c.maxNoChange, Some(c.maxRuntime), c.defaultAgent, c.fallback, false)
  {
    hide OrchestratorLine, Fold, ItemRows, Quoted, Bare, Decimal;
    var step, start := OrchestratorStep(parse), Initial.orchestrator;
    var runtime := [Row(2, Bare("max_runtime_sec", Decimal(c.maxRuntime)))] + [Gap];
    var numbers := [Row(2, Bare("max_iterations", Decimal(c.maxIterations)))] +
                   ([Row(2, Bare("max_no_change_iterations", Decimal(c.maxNoChange)))] + runtime);
    FoldFirst(start, 2, Quoted("default_agent", c.defaultAgent),
              [Row(2, "fallback_agents:")] + (ItemRows(4, c.fallback) + numbers), step);
    OrchestratorAgent(start, c.defaultAgent, parse);
    var named := start.(defaultAgent := c.defaultAgent);
    FoldFirst(named, 2, "fallback_agents:", ItemRows(4, c.fallback) + numbers, step);
    OrchestratorFallback(named, parse);
    var open := named.(inFallback := true);
    FoldJoin(open, ItemRows(4, c.fallback), numbers, step);
    OrchestratorItems(open, c.fallback, parse);
    assert [] + c.fallback == c.fallback;
    var listed := open.(fallback := c.fallback);
    OrchestratorNumbers(listed, c, parse);
  }

  lemma OrchestratorNumbers(listed: Orchestrator, c: Setup, parse: string -> Option<int>)
    requires ReadsNumbers(parse)
    ensures var runtime := [Row(2, Bare("max_runtime_sec", Decimal(c.maxRuntime)))] + [Gap];
      var numbers := [Row(2, Bare("max_iterations", Decimal(c.maxIterations)))] +
                     ([Row(2, Bare("max_no_change_iterations", Decimal(c.maxNoChange)))] + runtime);
      Fold(listed, numbers, OrchestratorStep(parse)) ==
      listed.(inFallback := false, maxIterations := c.maxIterations, maxNoChange := c.maxNoChange,
              maxRuntimeSec := Some(c.maxRuntime))
  {
    hide OrchestratorLine, Fold, Bare, Decimal;
    var step := OrchestratorStep(parse);
    var runtime := [Row(2, Bare("max_runtime_sec", Decimal(c.maxRuntime)))] + [Gap];
    FoldFirst(listed, 2, Bare("max_iterations", Decimal(c.maxIterations)),
              [Row(2, Bare("max_no_change_iterations", Decimal(c.maxNoChange)))] + runtime, step);
    OrchestratorIterations(listed, c.maxIterations, parse);
    var first := listed.(inFallback := false, maxIterations := c.maxIterations);
    FoldFirst(first, 2, Bare("max_no_change_iterations", Decimal(c.maxNoChange)), runtime, step);
    OrchestratorNoChange(first, c.maxNoChange, parse);
    var second := first.(maxNoChange := c.maxNoChange);
    FoldFirst(second, 2, Bare("max_runtime_sec", Decimal(c.maxRuntime)), [Gap], step);
    OrchestratorRuntime(second, c.maxRuntime, parse);
    FoldGap(second.(maxRuntimeSec := Some(c.maxRuntime)), step);
  }

  // ------------------------------------------------------------- verification

  function CheckRows(k: Check): seq<Row> {
    [Row(4, "- " + Quoted("name", k.name))] +
    ([Row(6, Quoted("run", k.run))] + [Row(6, Bare("timeout_sec", Decimal(k.timeout)))])
  }

  function ChecksRows(ks: seq<Check>): seq<Row> {
    if ks == [] then [] else ChecksRows(ks[..|ks| - 1]) + CheckRows(ks[|ks| - 1])
  }

  function VerificationRows(c: Setup): seq<Row> {
    [Row(2, Bare("strict", YamlBool(c.strict)))] + ([Row(2, "commands:")] + (ChecksRows(c.checks) + [Gap]))
  }

  function CheckCommand(k: Check): Command {
    Command(k.name, k.run, k.timeout, None)
  }

  function CheckCommands(ks: seq<Check>): seq<Command> {
    seq(|ks|, i requires 0 <= i < |ks| => CheckCommand(ks[i]))
  }

  function CheckFields(k: Check): Fields {
    map["name" := Plain(k.name), "run" := Plain(k.run), "timeout_sec" := Plain(Decimal(k.timeout))]
  }

  lemma CheckKeysOk()
    ensures KeyOk("strict") && KeyOk("name") && KeyOk("run") && KeyOk("timeout_sec")
  {
  }

  lemma YamlBoolRead(b: bool)
    ensures (Lower(YamlBool(b)) == "true") == b
  {
    assert Lower("true") == "true" && Lower("false")[0] == 'f' && "true"[0] == 't';
  }

  lemma StrictLine(c: Verification, b: bool, parse: string -> Option<int>)
    ensures VerificationLine(c, Bare("strict", YamlBool(b)), parse) ==
            c.(inCommands := false, inArgv := false, strict := b)
  {
    hide Bare, StartsWith, KeyOk, ValueOf, Lower, CommandLine, YamlBool;
    var s := Bare("strict", YamlBool(b));
    StrictPair(b);
    YamlBoolRead(b);
    KeyAt(s, "strict", 0);
    assert "commands:"[0] != s[0];
  }

  lemma YamlBoolLetters(b: bool)
    ensures YamlBool(b) != "" && forall i :: 0 <= i < |YamlBool(b)| ==> 'a' <= YamlBool(b)[i] <= 'z'
  {
  }

  lemma StrictPair(b: bool)
    ensures var s := Bare("strict", YamlBool(b));
      StartsWith(s, "strict" + ":") && StartsWith(s, "strict:") && ValueOf(s) == YamlBool(b)
  {
    hide Bare, StartsWith, KeyOk, ValueOf, YamlBool;
    CheckKeysOk();
    YamlBoolLetters(b);
    BareIs("strict", YamlBool(b));
    StrictText();
  }

  lemma StrictText()
    ensures "strict" + ":" == "strict:"
  {
  }

  /** A pair below a command sets its field. */
  lemma CommandPair(c: Verification, s: string, key: string, value: string, parse: string -> Option<int>)
    requires c.inCommands && c.current.Some? && PairText(s, key, value) && !StartsWith(s, "strict:")
    ensures VerificationLine(c, s, parse) == c.(current := Some(c.current.value[key := Plain(value)]), inArgv := false)
  {
    assert EndsWith("commands:", ":") && EndsWith("argv:", ":");
    PairParts(s, key, value);
    hide PairText, KeyOk, StartsWith, EndsWith, Key, ValueOf, FinishCommand;
  }

  lemma CommandStart(c: Verification, name: string, parse: string -> Option<int>)
    requires c.inCommands && !c.inArgv
    ensures VerificationLine(c, "- " + Quoted("name", name), parse) ==
            FinishCommand(c, parse).(current := Some(map["name" := Plain(name)]), inArgv := false)
  {
    var q := Quoted("name", name);
    var s := "- " + q;
    CheckKeysOk();
    QuotedIs("name", name);
    assert s[..2] == "- " && s[2..] == q && s[0] != "commands:"[0];
    Differs(s, "strict:", 0);
    TrimIsFixed(q);
    hide Quoted, KeyOk, Strip, Key, ValueOf, FinishCommand;
  }

  lemma CheckRead(c: Verification, k: Check, parse: string -> Option<int>)
    requires c.inCommands && !c.inArgv
    ensures Fold(c, CheckRows(k), VerificationStep(parse)) == FinishCommand(c, parse).(current := Some(CheckFields(k)))
  {
    hide VerificationLine, Fold, Quoted, Bare, PairText, KeyOk, Decimal;
    var step := VerificationStep(parse);
    var run, timeout := Quoted("run", k.run), Bare("timeout_sec", Decimal(k.timeout));
    CheckKeysOk();
    QuotedIs("run", k.run);
    BareIs("timeout_sec", Decimal(k.timeout));
    FoldFirst(c, 4, "- " + Quoted("name", k.name), [Row(6, run)] + [Row(6, timeout)], step);
    CommandStart(c, k.name, parse);
    var first := step(c, 4, "- " + Quoted("name", k.name));
    FoldFirst(first, 6, run, [Row(6, timeout)], step);
    NotStrict("run", run);
    CommandPair(first, run, "run", k.run, parse);
    var second := step(first, 6, run);
    assert [Row(6, timeout)] + [] == [Row(6, timeout)];
    FoldFirst(second, 6, timeout, [], step);
    NotStrict("timeout_sec", timeout);
    CommandPair(second, timeout, "timeout_sec", Decimal(k.timeout), parse);
    FoldGap(step(second, 6, timeout), step);
  }

  lemma NotStrict(key: string, s: string)
    requires key in ["run", "timeout_sec"] && StartsWith(s, key + ":")
    ensures !StartsWith(s, "strict:")
  {
    KeyAt(s, key, 0);
    Differs(s, "strict:", 0);
  }

  lemma CheckFinished(c: Verification, k: Check, parse: string -> Option<int>)
    requires c.current == Some(CheckFields(k)) && k.run != "" && parse(Decimal(k.timeout)) == Some(k.timeout)
    ensures FinishCommand(c, parse) == c.(commands := c.commands + [CheckCommand(k)], current := None)
  {
    hide Decimal;
  }

  lemma {:induction false} ChecksRead(c: Verification, ks: seq<Check>, parse: string -> Option<int>)
    requires c.inCommands && !c.inArgv && c.current.None? && ReadsNumbers(parse)
    requires forall i :: 0 <= i < |ks| ==> ks[i].run != ""
    ensures var after := Fold(c, ChecksRows(ks), VerificationStep(parse));
      after.inCommands && !after.inArgv &&
      FinishCommand(after, parse) == c.(commands := c.commands + CheckCommands(ks), current := None)
  {
    hide CheckRows, CheckFields, VerificationLine;
    if ks == [] {
      assert CheckCommands(ks) == [] && c.commands + [] == c.commands;
    } else {
      var rest, k := ks[..|ks| - 1], ks[|ks| - 1];
      ChecksRead(c, rest, parse);
      var before := Fold(c, ChecksRows(rest), VerificationStep(parse));
      FoldJoin(c, ChecksRows(rest), CheckRows(k), VerificationStep(parse));
      CheckRead(before, k, parse);
      CheckFinished(Fold(before, CheckRows(k), VerificationStep(parse)), k, parse);
      assert CheckCommands(ks) == CheckCommands(rest) + [CheckCommand(k)];
      hide Fold, ChecksRows, FinishCommand;
      assert c.commands + CheckCommands(rest) + [CheckCommand(k)] == c.commands + CheckCommands(ks);
    }
  }

  lemma VerificationRead(c: Setup, parse: string -> Option<int>)
    requires ReadsNumbers(parse) && forall i :: 0 <= i < |c.checks| ==> c.checks[i].run != ""
    ensures var after := Fold(Initial.verification, VerificationRows(c), VerificationStep(parse));
      FinishCommand(after, parse).(inCommands := false, inArgv := false) ==
      Verification(CheckCommands(c.checks), c.strict, None, false, false)
  {
    hide Fold, Bare, ChecksRows, ReadsNumbers, CheckCommands, FinishCommand;
    var step := VerificationStep(parse);
    FoldFirst(Initial.verification, 2, Bare("strict", YamlBool(c.strict)),
              [Row(2, "commands:")] + (ChecksRows(c.checks) + [Gap]), step);
    StrictLine(Initial.verification, c.strict, parse);
    var strict := Initial.verification.(strict := c.strict);
    FoldFirst(strict, 2, "commands:", ChecksRows(c.checks) + [Gap], step);
    var open := strict.(inCommands := true);
    FoldJoin(open, ChecksRows(c.checks), [Gap], step);
    ChecksRead(open, c.checks, parse);
    FoldGap(Fold(open, ChecksRows(c.checks), step), step);
    assert [] + CheckCommands(c.checks) == CheckCommands(c.checks);
  }

  // -------------------------------------------------------------------- policy

  function PolicyRows(c: Setup): seq<Row> {
    [Row(2, "deny:")] + (ItemRows(4, c.deny) + ([Row(2, "require_approval:")] + (ItemRows(4, c.ask) + [Gap])))
  }

  lemma PolicyItem(c: Patterns, value: string)
    requires c.list in {Some("deny"), Some("require_approval")}
    ensures PolicyLine(c, Item(value)) ==
            if c.list == Some("deny") then c.(deny := c.deny + [value]) else c.(ask := c.ask + [value])
  {
    ItemIs(value);
    assert "deny:"[0] != '-' && "require_approval:"[0] != '-' && "deny"[0] != "require_approval"[0];
    hide Item, ItemText;
  }

  lemma PolicyList(c: Patterns)
    ensures PolicyLine(c, "deny:") == c.(list := Some("deny"))
    ensures PolicyLine(c, "require_approval:") == c.(list := Some("require_approval"))
  {
    assert "deny:"[..4] == "deny" && "require_approval:"[..16] == "require_approval";
  }

  /** The patterns after the items `values` of the open list. */
  function WithPatterns(c: Patterns, values: seq<string>): Patterns {
    if c.list == Some("deny") then c.(deny := c.deny + values) else c.(ask := c.ask + values)
  }

  lemma PolicyItems(c: Patterns, values: seq<string>)
    requires c.list in {Some("deny"), Some("require_approval")}
    ensures Fold(c, ItemRows(4, values), PolicyStep()) == WithPatterns(c, values)
  {
    hide PolicyLine, Item;
    var added := (vs: seq<string>) => WithPatterns(c, vs);
    forall vs: seq<string>, v: string ensures PolicyStep()(added(vs), 4, Item(v)) == added(vs + [v]) {
      PolicyItem(added(vs), v);
      assert c.deny + vs + [v] == c.deny + (vs + [v]) && c.ask + vs + [v] == c.ask + (vs + [v]);
    }
    assert c.deny + [] == c.deny && c.ask + [] == c.ask;
    FoldItems(c, 4, values, PolicyStep(), added);
  }

  lemma PolicyRead(c: Setup)
    ensures Fold(Initial.policy, PolicyRows(c), PolicyStep()) == Patterns(c.deny, c.ask, Some("require_approval"))
  {
    hide PolicyLine, Fold, ItemRows;
    var step := PolicyStep();
    var asks := [Row(2, "require_approval:")] + (ItemRows(4, c.ask) + [Gap]);
    FoldFirst(Initial.policy, 2, "deny:", ItemRows(4, c.deny) + asks, step);
    PolicyList(Initial.policy);
    var denying := Initial.policy.(list := Some("deny"));
    FoldJoin(denying, ItemRows(4, c.deny), asks, step);
    PolicyItems(denying, c.deny);
    assert [] + c.deny == c.deny && [] + c.ask == c.ask;
    var denied := denying.(deny := c.deny);
    FoldFirst(denied, 2, "require_approval:", ItemRows(4, c.ask) + [Gap], step);
    PolicyList(denied);
    var asking := denied.(list := Some("require_approval"));
    FoldJoin(asking, ItemRows(4, c.ask), [Gap], step);
    PolicyItems(asking, c.ask);
    assert "deny"[0] != "require_approval"[0];
    FoldGap(asking.(ask := c.ask), step);
  }

  // -------------------------------------------------------------------- memory

  function MemoryRows(c: Setup): seq<Row> {
    [Row(2, Quoted("provider", c.provider))] +
    ([Row(2, "command:")] +
     (ItemRows(4, c.command) +
      ([Row(2, Quoted("project", c.project))] +
       ([Row(2, Bare("timeout_sec", Decimal(c.timeout)))] +
        ([Row(2, Bare("max_lessons", Decimal(c.maxLessons)))] + [Gap])))))
  }

  lemma MemoryKeysOk()
    ensures KeyOk("provider") && KeyOk("project") && KeyOk("timeout_sec") && KeyOk("max_lessons")
    ensures "provider" + ":" == "provider:" && "project" + ":" == "project:"
    ensures "timeout_sec" + ":" == "timeout_sec:" && "max_lessons" + ":" == "max_lessons:"
  {
  }

  lemma MemoryProvider(c: Memory, value: string, parse: string -> Option<int>)
    ensures MemoryLine(c, Quoted("provider", value), parse) == c.(inCommand := false, provider := value)
  {
    MemoryKeysOk();
    QuotedIs("provider", value);
    hide Quoted, StartsWith, KeyOk, ValueOf;
  }

  lemma MemoryCommand(c: Memory, parse: string -> Option<int>)
    ensures MemoryLine(c, "command:", parse) == c.(inCommand := true, command := [])
  {
    Differs("command:", "provider:", 0);
    hide StartsWith, ValueOf;
  }

  lemma MemoryItem(c: Memory, value: string, parse: string -> Option<int>)
    requires c.inCommand
    ensures MemoryLine(c, Item(value), parse) == c.(command := c.command + [value])
  {
    ItemIs(value);
    Differs(Item(value), "provider:", 0);
    assert "command:"[0] != '-';
    hide Item, ItemText, StartsWith;
  }

  /** A pair of the memory section is neither the command header nor an item. */
  lemma MemoryPair(s: string, key: string, value: string)
    requires PairText(s, key, value)
    ensures s != "command:" && !StartsWith(s, "- ")
  {
    assert EndsWith("command:", ":");
  }

  lemma MemoryProject(c: Memory, value: string, parse: string -> Option<int>)
    ensures MemoryLine(c, Quoted("project", value), parse) == c.(inCommand := false, project := value)
  {
    var s := Quoted("project", value);
    MemoryKeysOk();
    QuotedIs("project", value);
    MemoryPair(s, "project", value);
    KeyAt(s, "project", 3);
    Differs(s, "provider:", 3);
    hide Quoted, StartsWith, KeyOk, ValueOf;
  }

  lemma MemoryTimeout(c: Memory, n: nat, parse: string -> Option<int>)
    requires parse(Decimal(n)) == Some(n)
    ensures MemoryLine(c, Bare("timeout_sec", Decimal(n)), parse) == c.(inCommand := false, timeoutSec := n)
  {
    var s := Bare("timeout_sec", Decimal(n));
    MemoryKeysOk();
    BareIs("timeout_sec", Decimal(n));
    MemoryPair(s, "timeout_sec", Decimal(n));
    NumberIs("timeout_sec", n, "timeout_sec:", parse);
    KeyAt(s, "timeout_sec", 0);
    Differs(s, "provider:", 0);
    Differs(s, "project:", 0);
    hide Bare, StartsWith, KeyOk, ValueOf, Decimal;
  }

  lemma MemoryLessons(c: Memory, n: nat, parse: string -> Option<int>)
    requires parse(Decimal(n)) == Some(n)
    ensures MemoryLine(c, Bare("max_lessons", Decimal(n)), parse) == c.(inCommand := false, maxLessons := Max(1, n))
  {
    var s := Bare("max_lessons", Decimal(n));
    MemoryKeysOk();
    BareIs("max_lessons", Decimal(n));
    MemoryPair(s, "max_lessons", Decimal(n));
    NumberIs("max_lessons", n, "max_lessons:", parse);
    KeyAt(s, "max_lessons", 0);
    Differs(s, "provider:", 0);
    Differs(s, "project:", 0);
    Differs(s, "timeout_sec:", 0);
    hide Bare, StartsWith, KeyOk, ValueOf, Decimal;
  }

  lemma MemoryItems(c: Memory, values: seq<string>, parse: string -> Option<int>)
    requires c.inCommand
    ensures Fold(c, ItemRows(4, values), MemoryStep(parse)) == c.(command := c.command + values)
  {
    hide MemoryLine, Item;
    var added := (vs: seq<string>) => c.(command := c.command + vs);
    forall vs: seq<string>, v: string ensures MemoryStep(parse)(added(vs), 4, Item(v)) == added(vs + [v]) {
      MemoryItem(added(vs), v, parse);
      assert c.command + vs + [v] == c.command + (vs + [v]);
    }
    assert c.command + [] == c.command;
    FoldItems(c, 4, values, MemoryStep(parse), added);
  }

  lemma MemoryRead(c: Setup, parse: string -> Option<int>)
    requires ReadsNumbers(parse)
    ensures Fold(Initial.memory, MemoryRows(c), MemoryStep(parse)) ==
            Memory(c.provider, c.command, c.project, c.timeout, Max(1, c.maxLessons), false)
  {
    hide MemoryLine, Fold, ItemRows, Quoted, Bare, Decimal;
    var step, start := MemoryStep(parse), Initial.memory;
    var lessons := [Row(2, Bare("max_lessons", Decimal(c.maxLessons)))] + [Gap];
    var numbers := [Row(2, Bare("timeout_sec", Decimal(c.timeout)))] + lessons;
    var rest := [Row(2, Quoted("project", c.project))] + numbers;
    FoldFirst(start, 2, Quoted("provider", c.provider), [Row(2, "command:")] + (ItemRows(4, c.command) + rest), step);
    MemoryProvider(start, c.provider, parse);
    var named := start.(provider := c.provider);
    FoldFirst(named, 2, "command:", ItemRows(4, c.command) + rest, step);
    MemoryCommand(named, parse);
    var open := named.(inCommand := true, command := []);
    FoldJoin(open, ItemRows(4, c.command), rest, step);
    MemoryItems(open, c.command, parse);
    assert [] + c.command == c.command;
    var listed := open.(command := c.command);
    FoldFirst(listed, 2, Quoted("project", c.project), numbers, step);
    MemoryProject(listed, c.project, parse);
    var owned := listed.(inCommand := false, project := c.project);
    FoldFirst(owned, 2, Bare("timeout_sec", Decimal(c.timeout)), lessons, step);
    MemoryTimeout(owned, c.timeout, parse);
    var timed := owned.(timeoutSec := c.timeout);
    FoldFirst(timed, 2, Bare("max_lessons", Decimal(c.maxLessons)), [Gap], step);
    MemoryLessons(timed, c.maxLessons, parse);
    FoldGap(timed.(maxLessons := Max(1, c.maxLessons)), step);
  }

  // --------------------------------------------------------------- the document

  function Section(name: string, rows: seq<Row>): Block {
    Block(name + ":", RawAll(rows))
  }

  function ProjectRows(c: Setup): seq<Row> {
    [Row(2, Quoted("name", c.projectName)), Row(2, Quoted("repo", c.repo)),
     Row(2, Quoted("setup_profile", c.setupProfile)), Gap]
  }

  /** `_render_setup_config`, section by section. */
  function SetupDocument(c: Setup): seq<Block> {
    [Section("project", ProjectRows(c)), Section("orchestrator", OrchestratorRows(c)),
     Section("agents", WorkersRows(c.workers)), Section("verification", VerificationRows(c)),
     Section("policy", PolicyRows(c)), Section("memory", MemoryRows(c))]
  }

  /** Agent names can stand at the front of a line, and every check runs something. */
  ghost predicate Writable(c: Setup) {
    && (forall i :: 0 <= i < |c.workers| ==> NameOk(c.workers[i].name))
    && forall i :: 0 <= i < |c.checks| ==> c.checks[i].run != ""
  }

  predicate NameOk(name: string) {
    name != "" && !IsSpace(name[0]) && name[0] != '#'
  }

  /** The configuration a setup stands for. */
  function Written(c: Setup): ProjectConfig {
    var agents := WorkerAgents(c.workers);
    ProjectConfig(
      CheckCommands(c.checks), c.strict, c.maxIterations, c.maxNoChange, Some(c.maxRuntime),
      c.defaultAgent, c.fallback, map[],
      map name | name in agents ::
        (if agents[name].kind == "" then agents[name].(kind := agents[name].name) else agents[name]),
      c.deny, c.ask,
      c.provider, if c.command == [] then ["codebase-memory-mcp", "cli"] else c.command, c.project, c.timeout,
      Max(1, c.maxLessons), [], [])
  }

  lemma PairRowOk(indent: nat, key: string, s: string, value: string)
    requires KeyOk(key) && PairText(s, key, value) && indent >= 1
    ensures RowOk(Row(indent, s))
  {
  }

  lemma QuotedRowOk(indent: nat, key: string, value: string)
    requires KeyOk(key) && indent >= 1
    ensures RowOk(Row(indent, Quoted(key, value)))
  {
    QuotedIs(key, value);
    PairRowOk(indent, key, Quoted(key, value), value);
  }

  lemma NumberRowOk(indent: nat, key: string, n: nat)
    requires KeyOk(key) && indent >= 1
    ensures RowOk(Row(indent, Bare(key, Decimal(n))))
  {
    BareIs(key, Decimal(n));
    PairRowOk(indent, key, Bare(key, Decimal(n)), Decimal(n));
  }

  lemma BoolRowOk(indent: nat, key: string, b: bool)
    requires KeyOk(key) && indent >= 1
    ensures RowOk(Row(indent, Bare(key, YamlBool(b))))
  {
    BareIs(key, YamlBool(b));
    PairRowOk(indent, key, Bare(key, YamlBool(b)), YamlBool(b));
  }

  lemma {:induction false} ItemRowsOk(indent: nat, values: seq<string>)
    requires indent >= 1
    ensures RowsOk(ItemRows(indent, values))
  {
    if values != [] {
      ItemRowsOk(indent, values[..|values| - 1]);
      ItemIs(values[|values| - 1]);
    }
  }

  lemma HeadingRowsOk()
    ensures RowOk(Row(2, "fallback_agents:")) && RowOk(Row(4, "args:")) && RowOk(Row(2, "commands:"))
    ensures RowOk(Row(2, "deny:")) && RowOk(Row(2, "require_approval:")) && RowOk(Row(2, "command:"))
  {
  }

  lemma WorkerRowsOk(w: Worker)
    requires NameOk(w.name)
    ensures RowsOk(WorkerRows(w))
  {
    AgentKeysOk();
    HeadingRowsOk();
    assert Trim(w.name + ":");
    BoolRowOk(4, "enabled", w.enabled);
    QuotedRowOk(4, "type", w.kind);
    if w.cli.Some? {
      QuotedRowOk(4, "command", w.cli.value.command);
      ItemRowsOk(6, w.cli.value.args);
      NumberRowOk(4, "timeout_sec", w.cli.value.timeout);
    }
    hide Quoted, Bare, Decimal, KeyOk, ItemRows, YamlBool;
  }

  lemma {:induction false} WorkersRowsOk(ws: seq<Worker>)
    requires forall i :: 0 <= i < |ws| ==> NameOk(ws[i].name)
    ensures RowsOk(WorkersRows(ws))
  {
    hide WorkerRows, NameOk, RowOk;
    if ws != [] {
      WorkersRowsOk(ws[..|ws| - 1]);
      WorkerRowsOk(ws[|ws| - 1]);
    }
  }

  lemma OrchestratorRowsOk(c: Setup)
    ensures RowsOk(OrchestratorRows(c))
  {
    OrchestratorKeysOk();
    HeadingRowsOk();
    hide Quoted, Bare, Decimal, KeyOk, ItemRows, RowOk;
    QuotedRowOk(2, "default_agent", c.defaultAgent);
    ItemRowsOk(4, c.fallback);
    NumberRowOk(2, "max_iterations", c.maxIterations);
    NumberRowOk(2, "max_no_change_iterations", c.maxNoChange);
    NumberRowOk(2, "max_runtime_sec", c.maxRuntime);
    GapOk();
  }

  lemma GapOk()
    ensures RowOk(Gap)
  {
  }

  lemma {:induction false} ChecksRowsOk(ks: seq<Check>)
    ensures RowsOk(ChecksRows(ks))
  {
    hide RowOk, Quoted, Bare, Decimal, KeyOk;
    if ks != [] {
      var k := ks[|ks| - 1];
      ChecksRowsOk(ks[..|ks| - 1]);
      CheckKeysOk();
      CheckNameOk(k.name);
      QuotedRowOk(6, "run", k.run);
      NumberRowOk(6, "timeout_sec", k.timeout);
    }
  }

  lemma CheckNameOk(name: string)
    ensures RowOk(Row(4, "- " + Quoted("name", name)))
  {
    var s := "- " + Quoted("name", name);
    assert s[|s| - 1] == '"';
  }

  lemma VerificationRowsOk(c: Setup)
    ensures RowsOk(VerificationRows(c))
  {
    CheckKeysOk();
    HeadingRowsOk();
    hide Bare, KeyOk, ChecksRows, RowOk;
    BoolRowOk(2, "strict", c.strict);
    ChecksRowsOk(c.checks);
    GapOk();
  }

  lemma PolicyRowsOk(c: Setup)
    ensures RowsOk(PolicyRows(c))
  {
    HeadingRowsOk();
    hide ItemRows, RowOk;
    ItemRowsOk(4, c.deny);
    ItemRowsOk(4, c.ask);
    GapOk();
  }

  lemma MemoryRowsOk(c: Setup)
    ensures RowsOk(MemoryRows(c))
  {
    MemoryKeysOk();
    HeadingRowsOk();
    hide Quoted, Bare, Decimal, KeyOk, ItemRows, RowOk;
    QuotedRowOk(2, "provider", c.provider);
    ItemRowsOk(4, c.command);
    QuotedRowOk(2, "project", c.project);
    NumberRowOk(2, "timeout_sec", c.timeout);
    NumberRowOk(2, "max_lessons", c.maxLessons);
    GapOk();
  }

  lemma ProjectRowsOk(c: Setup)
    ensures RowsOk(ProjectRows(c))
  {
    assert KeyOk("name") && KeyOk("repo") && KeyOk("setup_profile");
    hide Quoted, KeyOk, RowOk;
    QuotedRowOk(2, "name", c.projectName);
    QuotedRowOk(2, "repo", c.repo);
    QuotedRowOk(2, "setup_profile", c.setupProfile);
    GapOk();
  }

  /** A section of rendered rows is a block of its name. */
  lemma SectionIsBlock(name: string, rows: seq<Row>)
    requires NameOk(name) && RowsOk(rows)
    ensures IsBlock(Section(name, rows)) && HeaderName(Section(name, rows).header) == name
  {
    HeaderRead(name);
    hide IsHeader, HeaderName, Raw, RowOk;
    forall i | 0 <= i < |rows| ensures !IsHeader(Raw(rows[i])) {
      assert RowOk(rows[i]);
      RowRead(Initial, rows[i], (s: string) => None);
    }
  }

  /** A section on its own holds what its reader makes of its rows. */
  lemma BlockRead(name: string, rows: seq<Row>, parse: string -> Option<int>)
    requires NameOk(name) && RowsOk(rows)
    ensures var after := RunBlock(Initial, Section(name, rows), parse);
      && (name == "agents" ==>
            after.agents == FinishAgent(Fold(NoAgents, rows, AgentStep(parse)), parse)
                              .(inArgs := false, inEnv := false))
      && (name == "orchestrator" ==>
            after.orchestrator == Fold(Initial.orchestrator, rows, OrchestratorStep(parse)).(inFallback := false))
      && (name == "verification" ==>
            after.verification == FinishCommand(Fold(Initial.verification, rows, VerificationStep(parse)), parse)
                                    .(inCommands := false, inArgv := false))
      && (name == "policy" ==> after.policy == Fold(Initial.policy, rows, PolicyStep()).(list := None))
      && (name == "memory" ==> after.memory == Fold(Initial.memory, rows, MemoryStep(parse)).(inCommand := false))
  {
    HeaderRead(name);
    hide IsHeader, HeaderName, FinishAgent, FinishCommand, Lines, Fold, RowOk;
    SectionRead(Initial.(section := Some(name)), rows, parse);
  }

  lemma SetupIsDocument(c: Setup)
    requires Writable(c)
    ensures IsDocument(SetupDocument(c))
    ensures forall i :: 0 <= i < 6 ==> HeaderName(SetupDocument(c)[i].header) !in {"adapter_profiles", "sandbox"}
    ensures var doc := SetupDocument(c);
      && HeaderName(doc[0].header) == "project" && HeaderName(doc[1].header) == "orchestrator"
      && HeaderName(doc[2].header) == "agents" && HeaderName(doc[3].header) == "verification"
      && HeaderName(doc[4].header) == "policy" && HeaderName(doc[5].header) == "memory"
  {
    hide Section, IsBlock, HeaderName, RowsOk;
    hide ProjectRows, OrchestratorRows, WorkersRows, VerificationRows, PolicyRows, MemoryRows;
    ProjectRowsOk(c);
    OrchestratorRowsOk(c);
    WorkersRowsOk(c.workers);
    VerificationRowsOk(c);
    PolicyRowsOk(c);
    MemoryRowsOk(c);
    SectionIsBlock("project", ProjectRows(c));
    SectionIsBlock("orchestrator", OrchestratorRows(c));
    SectionIsBlock("agents", WorkersRows(c.workers));
    SectionIsBlock("verification", VerificationRows(c));
    SectionIsBlock("policy", PolicyRows(c));
    SectionIsBlock("memory", MemoryRows(c));
    assert "project"[1] == 'r' && "policy"[1] == 'o';
    assert "project"[0] == 'p' && "orchestrator"[0] == 'o' && "agents"[0] == 'a' && "verification"[0] == 'v' &&
      "policy"[0] == 'p' && "memory"[0] == 'm';
    assert "adapter_profiles"[1] == 'd' && "agents"[1] == 'g' && "sandbox"[0] == 's';
  }

  /** What one section of a document makes of the state. */
  lemma OneSection(doc: seq<Block>, k: nat, name: string, rows: seq<Row>, parse: string -> Option<int>)
    requires IsDocument(doc) && k < |doc| && doc[k] == Section(name, rows) && HeaderName(doc[k].header) == name
    requires NameOk(name) && RowsOk(rows)
    ensures var after := RunBlocks(doc, parse);
      && (name == "agents" ==>
            after.agents == FinishAgent(Fold(NoAgents, rows, AgentStep(parse)), parse)
                              .(inArgs := false, inEnv := false))
      && (name == "orchestrator" ==>
            after.orchestrator == Fold(Initial.orchestrator, rows, OrchestratorStep(parse)).(inFallback := false))
      && (name == "verification" ==>
            after.verification == FinishCommand(Fold(Initial.verification, rows, VerificationStep(parse)), parse)
                                    .(inCommands := false, inArgv := false))
      && (name == "policy" ==> after.policy == Fold(Initial.policy, rows, PolicyStep()).(list := None))
      && (name == "memory" ==> after.memory == Fold(Initial.memory, rows, MemoryStep(parse)).(inCommand := false))
  {
    hide IsDocument, RunBlocks, RunBlock, Section, HeaderName, NameOk, RowsOk, FinishAgent, FinishCommand, Fold;
    SectionDecides(doc, k, name, parse);
    BlockRead(name, rows, parse);
  }

  /** Where each section of the document stands. */
  predicate StandsAt(c: Setup, k: nat, name: string, rows: seq<Row>) {
    || (k == 1 && name == "orchestrator" && rows == OrchestratorRows(c))
    || (k == 2 && name == "agents" && rows == WorkersRows(c.workers))
    || (k == 3 && name == "verification" && rows == VerificationRows(c))
    || (k == 4 && name == "policy" && rows == PolicyRows(c))
    || (k == 5 && name == "memory" && rows == MemoryRows(c))
  }

  lemma HasSection(c: Setup, k: nat, name: string, rows: seq<Row>)
    requires Writable(c) && StandsAt(c, k, name, rows)
    ensures IsDocument(SetupDocument(c)) && k < |SetupDocument(c)| && SetupDocument(c)[k] == Section(name, rows)
    ensures HeaderName(SetupDocument(c)[k].header) == name && NameOk(name) && RowsOk(rows)
  {
    hide IsDocument, HeaderName, Section, RowsOk;
    hide ProjectRows, OrchestratorRows, WorkersRows, VerificationRows, PolicyRows, MemoryRows;
    SetupIsDocument(c);
    OrchestratorRowsOk(c);
    WorkersRowsOk(c.workers);
    VerificationRowsOk(c);
    PolicyRowsOk(c);
    MemoryRowsOk(c);
  }

  lemma SetupOrchestrator(c: Setup, parse: string -> Option<int>)
    requires Writable(c) && ReadsNumbers(parse)
    ensures RunBlocks(SetupDocument(c), parse).orchestrator ==
            Orchestrator(c.maxIterations, c.maxNoChange, Some(c.maxRuntime), c.defaultAgent, c.fallback, false)
  {
    assert StandsAt(c, 1, "orchestrator", OrchestratorRows(c));
    hide *;
    HasSection(c, 1, "orchestrator", OrchestratorRows(c));
    OrchestratorRead(c, parse);
    OneSection(SetupDocument(c), 1, "orchestrator", OrchestratorRows(c), parse);
  }

  lemma SetupAgents(c: Setup, parse: string -> Option<int>)
    requires Writable(c) && ReadsNumbers(parse)
    ensures RunBlocks(SetupDocument(c), parse).agents ==
            Agents(WorkerAgents(c.workers), None, None, false, false)
  {
    assert StandsAt(c, 2, "agents", WorkersRows(c.workers));
    hide *;
    HasSection(c, 2, "agents", WorkersRows(c.workers));
    WorkersRead(c.workers, parse);
    OneSection(SetupDocument(c), 2, "agents", WorkersRows(c.workers), parse);
  }

  lemma SetupVerification(c: Setup, parse: string -> Option<int>)
    requires Writable(c) && ReadsNumbers(parse)
    ensures RunBlocks(SetupDocument(c), parse).verification ==
            Verification(CheckCommands(c.checks), c.strict, None, false, false)
  {
    assert forall i :: 0 <= i < |c.checks| ==> c.checks[i].run != "";
    assert StandsAt(c, 3, "verification", VerificationRows(c));
    hide *;
    HasSection(c, 3, "verification", VerificationRows(c));
    VerificationRead(c, parse);
    OneSection(SetupDocument(c), 3, "verification", VerificationRows(c), parse);
  }

  lemma SetupPolicy(c: Setup, parse: string -> Option<int>)
    requires Writable(c) && ReadsNumbers(parse)
    ensures RunBlocks(SetupDocument(c), parse).policy ==
            Patterns(c.deny, c.ask, None)
  {
    assert StandsAt(c, 4, "policy", PolicyRows(c));
    hide *;
    HasSection(c, 4, "policy", PolicyRows(c));
    PolicyRead(c);
    OneSection(SetupDocument(c), 4, "policy", PolicyRows(c), parse);
  }

  lemma SetupMemory(c: Setup, parse: string -> Option<int>)
    requires Writable(c) && ReadsNumbers(parse)
    ensures RunBlocks(SetupDocument(c), parse).memory ==
            Memory(c.provider, c.command, c.project, c.timeout, Max(1, c.maxLessons), false)
  {
    assert StandsAt(c, 5, "memory", MemoryRows(c));
    hide *;
    HasSection(c, 5, "memory", MemoryRows(c));
    MemoryRead(c, parse);
    OneSection(SetupDocument(c), 5, "memory", MemoryRows(c), parse);
  }

  lemma SetupRest(c: Setup, parse: string -> Option<int>)
    requires Writable(c)
    ensures RunBlocks(SetupDocument(c), parse).profiles == NoAgents
    ensures RunBlocks(SetupDocument(c), parse).sandbox == Initial.sandbox
  {
    var doc := SetupDocument(c);
    SetupIsDocument(c);
    assert |doc| == 6;
    hide Writable, IsDocument, RunBlocks, HeaderName, Section, SetupDocument;
    SectionDecides(doc, 6, "adapter_profiles", parse);
    SectionDecides(doc, 6, "sandbox", parse);
  }

  /** What setup writes, the parser reads back, whatever order the sections are put in afterwards. */
  lemma SetupRoundTrip(c: Setup, doc: seq<Block>, parse: string -> Option<int>)
    requires Writable(c) && ReadsNumbers(parse)
    requires multiset(doc) == multiset(SetupDocument(c))
    ensures Parse(DocLines(doc), parse) == Written(c)
  {
    var whole := SetupDocument(c);
    SetupIsDocument(c);
    SectionsInAnyOrder(whole, doc, parse);
    DocumentIsBlocks(whole, parse);
    ParseIs(DocLines(whole), parse);
    hide *;
    SetupOrchestrator(c, parse);
    SetupAgents(c, parse);
    SetupVerification(c, parse);
    SetupPolicy(c, parse);
    SetupMemory(c, parse);
    SetupRest(c, parse);
    AssembledIs(RunBlocks(whole, parse), c);
  }

  lemma ParseIs(lines: seq<string>, parse: string -> Option<int>)
    ensures Parse(lines, parse) == Assemble(Settle(Lines(Initial, lines, parse), parse))
  {
  }

  lemma AssembledIs(s: State, c: Setup)
    requires s.orchestrator ==
             Orchestrator(c.maxIterations, c.maxNoChange, Some(c.maxRuntime), c.defaultAgent, c.fallback, false)
    requires s.agents == Agents(WorkerAgents(c.workers), None, None, false, false)
    requires s.verification == Verification(CheckCommands(c.checks), c.strict, None, false, false)
    requires s.policy == Patterns(c.deny, c.ask, None)
    requires s.memory == Memory(c.provider, c.command, c.project, c.timeout, Max(1, c.maxLessons), false)
    requires s.profiles == NoAgents && s.sandbox == Initial.sandbox
    ensures Assemble(s) == Written(c)
  {
    hide WorkerAgents, CheckCommands;
    assert Assemble(s).agents == Written(c).agents;
  }

  // ------------------------------------------------------- the setup command's values

  /** Which agent commands were found. */
  datatype Detected = Detected(codex: bool, claude: bool, kimi: bool, gemini: bool)

  /** `_select_setup_default_agent`. */
  function DefaultAgent(requested: string, found: Detected, profile: string): string {
    if requested != "auto" then requested
    else if profile == "codex-safe" then if found.codex then "codex" else "mock"
    else if found.codex then "codex"
    else if found.claude then "claude"
    else if found.kimi then "kimi"
    else if found.gemini then "gemini"
    else "mock"
  }

  const AGENT_NAMES: seq<string> := ["codex", "claude", "kimi", "gemini", "mock"]

  function Others(names: seq<string>, name: string): seq<string> {
    if names == [] then []
    else (if names[0] != name then [names[0]] else []) + Others(names[1..], name)
  }

  /** `_verification_profile_lines`; an unknown profile gets the Python checks. */
  function ProfileChecks(profile: string): seq<Check> {
    if profile == "codex-safe" then
      [Check("compile", "python -m compileall ai_orchestrator", 120), Check("tests", "python -m pytest", 300)]
    else if profile == "node-project" then [Check("npm-test", "npm test", 300)]
    else if profile == "docs-project" then
      [Check("readme-has-heading",
             "python -c \"import re, sys; txt=open('README.md', encoding='utf-8').read(); " +
             "sys.exit(0 if re.search(r'^# ', txt, re.MULTILINE) else 1)\"",
             30)]
    else if profile == "readonly-review" then [Check("diff-check", "git diff --check", 60)]
    else [Check("compile", "python -m compileall .", 120), Check("tests", "python -m pytest", 300)]
  }

  function SetupWorkers(agent: string, found: Detected): seq<Worker> {
    [Worker("mock", true, "mock", None),
     Worker("codex", agent == "codex" || found.codex, "codex_exec",
            Some(Cli("codex", ["exec", "--json", "--sandbox", "workspace-write", "{prompt}"], 1800))),
     Worker("claude", agent == "claude" || found.claude, "claude_headless",
            Some(Cli("claude", ["-p", "{prompt}", "--output-format", "json"], 1800))),
     Worker("kimi", agent == "kimi" || found.kimi, "kimi_cli", Some(Cli("kimi", ["{prompt}"], 1800))),
     Worker("gemini", agent == "gemini" || found.gemini, "gemini_cli", Some(Cli("gemini", ["-p", "{prompt}"], 1800)))]
  }

  /** What `setup` writes for an agent, what was found, and a profile. */
  function SetupFor(agent: string, found: Detected, profile: string): Setup {
    Setup("ai-orchestrator-project", ".", profile, agent, Others(AGENT_NAMES, agent), 4, 2, 1800,
          SetupWorkers(agent, found), true, ProfileChecks(profile),
          ["rm -rf /", "cat ~/.ssh", "cat ~/.codex/auth.json"], ["git push", "rm -rf", "pip install", "npm install"],
          "codebase-memory-mcp", ["codebase-memory-mcp", "cli"], "", 120, 5)
  }

  lemma ChecksRun(profile: string)
    ensures forall i :: 0 <= i < |ProfileChecks(profile)| ==> ProfileChecks(profile)[i].run != ""
  {
  }

  lemma WorkersNamed(agent: string, found: Detected)
    ensures forall i :: 0 <= i < |SetupWorkers(agent, found)| ==> NameOk(SetupWorkers(agent, found)[i].name)
  {
    assert NameOk("mock") && NameOk("codex") && NameOk("claude") && NameOk("kimi") && NameOk("gemini");
    hide NameOk;
  }

  lemma SetupIsWritable(agent: string, found: Detected, profile: string)
    ensures Writable(SetupFor(agent, found, profile))
  {
    ChecksRun(profile);
    WorkersNamed(agent, found);
    hide Others, ProfileChecks, SetupWorkers, NameOk;
  }

  /** Whatever agent, tools and profile: the parser reads back what `setup` wrote, agent and checks included. */
  lemma SetupReadsBack(requested: string, found: Detected, profile: string, parse: string -> Option<int>)
    requires ReadsNumbers(parse)
    ensures var agent := DefaultAgent(requested, found, profile);
      var config := Parse(DocLines(SetupDocument(SetupFor(agent, found, profile))), parse);
      && config == Written(SetupFor(agent, found, profile))
      && config.defaultAgent == agent && config.strict && config.commands == CheckCommands(ProfileChecks(profile))
      && agent !in config.fallbackAgents
      && forall name :: name in AGENT_NAMES && name != agent ==> name in config.fallbackAgents
  {
    var agent := DefaultAgent(requested, found, profile);
    var c := SetupFor(agent, found, profile);
    SetupIsWritable(agent, found, profile);
    OthersAre(AGENT_NAMES, agent);
    hide Parse, DocLines, SetupDocument, ProfileChecks, SetupWorkers, WorkerAgents, Others, DefaultAgent;
    SetupRoundTrip(c, SetupDocument(c), parse);
  }

  lemma {:induction false} OthersAre(names: seq<string>, name: string)
    ensures forall x :: x in Others(names, name) <==> x in names && x != name
  {
    if names != [] {
      OthersAre(names[1..], name);
      assert names == [names[0]] + names[1..];
    }
  }
}
