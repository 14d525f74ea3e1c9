/** The policy engine's token algebra: segments, nested commands, wrappers, and the decision over them. */
module Policy {
  import opened Text
  import opened PolicyActions

  type Tokens = seq<string>

  // -------------------------------------------------------------------- tokens

  const SEPARATORS: set<string> := {"&&", "||", ";", "|"}

  const TRANSPARENT_WRAPPERS: set<string> :=
    {"command", "env", "nice", "nohup", "stdbuf", "sudo", "time", "xargs"}

  /** The options of a wrapper that take the next token as their value. */
  function OptionsWithValues(wrapper: string): set<string> {
    if wrapper == "env" then {"-u", "--unset"}
    else if wrapper == "nice" then {"-n", "--adjustment"}
    else if wrapper == "stdbuf" then {"-i", "-o", "-e", "--input", "--output", "--error"}
    else if wrapper == "sudo" then {"-C", "-g", "-h", "-p", "-T", "-U", "-u"}
    else if wrapper == "xargs" then {"-E", "-I", "-L", "-P", "-n", "-s"}
    else {}
  }

  predicate HasSpace(token: string) {
    exists i :: 0 <= i < |token| && IsSpace(token[i])
  }

  function TrimQuotesLeft(s: string): string {
    if s != "" && s[0] in "\"'" then TrimQuotesLeft(s[1..]) else s
  }

  function TrimQuotesRight(s: string): string {
    if s != "" && s[|s| - 1] in "\"'" then TrimQuotesRight(s[..|s| - 1]) else s
  }

  function Slashes(s: string): string {
    seq(|s|, i requires 0 <= i < |s| => if s[i] == '\\' then '/' else s[i])
  }

  /** The part after the last slash. */
  function BaseName(s: string): string {
    if s == "" then ""
    else if s[|s| - 1] == '/' then ""
    else BaseName(s[..|s| - 1]) + [s[|s| - 1]]
  }

  function CommandName(token: string): string {
    var command := Lower(BaseName(Slashes(TrimQuotesRight(TrimQuotesLeft(token)))));
    if EndsWith(command, ".exe") then command[..|command| - 4] else command
  }

  predicate IsWordChar(c: char) {
    c == '_' || 'a' <= c <= 'z' || 'A' <= c <= 'Z' || '0' <= c <= '9'
  }

  /** The part before the first `=`. */
  function BeforeEquals(token: string): string {
    if token == "" || token[0] == '=' then "" else [token[0]] + BeforeEquals(token[1..])
  }

  predicate IsEnvAssignment(token: string) {
    && '=' in token && !StartsWith(token, "-")
    && var name := BeforeEquals(token);
       name != "" && forall i :: 0 <= i < |name| ==> IsWordChar(name[i])
  }

  predicate IsWrapper(token: string) {
    CommandName(token) in TRANSPARENT_WRAPPERS
  }

  // ------------------------------------------------------------------- segments

  /** The position of the first separator, or the length. */
  function FirstSeparator(tokens: Tokens): (i: nat)
    ensures i <= |tokens| && (i < |tokens| ==> tokens[i] in SEPARATORS)
    ensures forall k :: 0 <= k < i ==> tokens[k] !in SEPARATORS
  {
    if tokens == [] || tokens[0] in SEPARATORS then 0 else 1 + FirstSeparator(tokens[1..])
  }

  function OneSegment(tokens: Tokens): seq<Tokens> {
    if tokens == [] then [] else [tokens]
  }

  /** The maximal separator-free stretches, in order. */
  function Segments(tokens: Tokens): seq<Tokens>
    decreases |tokens|
  {
    var i := FirstSeparator(tokens);
    OneSegment(tokens[..i]) + if i < |tokens| then Segments(tokens[i + 1..]) else []
  }

  /** The first segment of a command. */
  function FirstSegment(tokens: Tokens): Tokens {
    tokens[..FirstSeparator(tokens)]
  }

  function OtherSegments(tokens: Tokens): seq<Tokens> {
    var first := FirstSeparator(tokens);
    if first < |tokens| then Segments(tokens[first + 1..]) else []
  }

  lemma SegmentsSplit(tokens: Tokens)
    ensures Segments(tokens) == OneSegment(FirstSegment(tokens)) + OtherSegments(tokens)
  {
    hide FirstSeparator, OneSegment;
  }

  predicate NoSeparator(tokens: Tokens) {
    forall k :: 0 <= k < |tokens| ==> tokens[k] !in SEPARATORS
  }

  lemma FirstSeparatorIs(tokens: Tokens, i: nat)
    requires i <= |tokens| && NoSeparator(tokens[..i]) && (i < |tokens| ==> tokens[i] in SEPARATORS)
    ensures FirstSeparator(tokens) == i
  {
    var j := FirstSeparator(tokens);
    assert forall k :: 0 <= k < i ==> tokens[..i][k] == tokens[k];
  }

  lemma SegmentsAtSeparator(current: Tokens, tail: Tokens)
    requires NoSeparator(current) && tail != [] && tail[0] in SEPARATORS
    ensures Segments(current + tail) == OneSegment(current) + Segments(tail[1..])
  {
    var whole := current + tail;
    assert whole[..|current|] == current && whole[|current|] == tail[0];
    FirstSeparatorIs(whole, |current|);
    assert whole[|current| + 1..] == tail[1..];
  }

  lemma SegmentsPlain(current: Tokens)
    requires NoSeparator(current)
    ensures Segments(current) == OneSegment(current)
  {
    assert current[..|current|] == current;
    FirstSeparatorIs(current, |current|);
  }

  /** `_command_segments`. */
  method CommandSegments(tokens: Tokens) returns (segments: seq<Tokens>)
    ensures segments == Segments(tokens)
  {
    hide Segments, FirstSeparator;
    segments := [];
    var current: Tokens := [];
    assert current + tokens[0..] == tokens;
    for i := 0 to |tokens|
      invariant NoSeparator(current)
      invariant segments + Segments(current + tokens[i..]) == Segments(tokens)
    {
      var token := tokens[i];
      assert tokens[i..][0] == token && tokens[i..][1..] == tokens[i + 1..];
      if token in SEPARATORS {
        SegmentsAtSeparator(current, tokens[i..]);
        if current != [] {
          segments := segments + [current];
          current := [];
        }
        assert current + tokens[i + 1..] == tokens[i + 1..];
      } else {
        assert current + tokens[i..] == (current + [token]) + tokens[i + 1..];
        current := current + [token];
      }
    }
    assert current + tokens[|tokens|..] == current;
    SegmentsPlain(current);
    if current != [] {
      segments := segments + [current];
    }
  }

  /** Segments of a joined command are the segments of its parts. */
  lemma {:induction false} SegmentsJoin(a: Tokens, sep: string, b: Tokens)
    requires sep in SEPARATORS
    ensures Segments(a + [sep] + b) == Segments(a) + Segments(b)
    decreases |a|
  {
    hide Segments, FirstSeparator, OneSegment;
    var i, whole := FirstSeparator(a), a + [sep] + b;
    assert whole[..i] == a[..i] && whole[i] in SEPARATORS;
    FirstSeparatorIs(whole, i);
    SegmentsSplit(whole);
    SegmentsSplit(a);
    if i == |a| {
      assert whole[i + 1..] == b;
      assert Segments(a) == OneSegment(a[..i]) + [];
    } else {
      assert whole[i + 1..] == a[i + 1..] + [sep] + b;
      SegmentsJoin(a[i + 1..], sep, b);
    }
  }

  /** The segments of commands nested in tokens with white space; `split` is the shell splitter. */
  function NestedSegments(tokens: Tokens, split: string -> Tokens): seq<Tokens> {
    if tokens == [] then []
    else
      var last := tokens[|tokens| - 1];
      NestedSegments(tokens[..|tokens| - 1], split) +
      if HasSpace(last) && split(last) != [last] then Segments(split(last)) else []
  }

  lemma {:induction false} NestedJoin(a: Tokens, b: Tokens, split: string -> Tokens)
    ensures NestedSegments(a + b, split) == NestedSegments(a, split) + NestedSegments(b, split)
  {
    hide Segments, HasSpace;
    if b == [] {
      assert a + b == a;
    } else {
      var last := b[|b| - 1];
      var tail := if HasSpace(last) && split(last) != [last] then Segments(split(last)) else [];
      assert (a + b)[..|a + b| - 1] == a + b[..|b| - 1] && (a + b)[|a + b| - 1] == last;
      NestedJoin(a, b[..|b| - 1], split);
      assert NestedSegments(a + b, split) == NestedSegments(a + b[..|b| - 1], split) + tail;
      assert NestedSegments(b, split) == NestedSegments(b[..|b| - 1], split) + tail;
    }
  }

  lemma {:induction false} NestedNone(a: Tokens, split: string -> Tokens)
    requires forall i :: 0 <= i < |a| ==> !HasSpace(a[i])
    ensures NestedSegments(a, split) == []
  {
    if a != [] {
      NestedNone(a[..|a| - 1], split);
    }
  }

  // ------------------------------------------------------------------- wrappers

  /** What is left after the options of a wrapper. */
  function SkipOptions(tokens: Tokens, withValues: set<string>): (rest: Tokens)
    ensures |rest| <= |tokens| && rest == tokens[|tokens| - |rest|..]
  {
    if tokens == [] then tokens
    else if IsEnvAssignment(tokens[0]) then SkipOptions(tokens[1..], withValues)
    else if tokens[0] == "--" then tokens[1..]
    else if !StartsWith(tokens[0], "-") || tokens[0] == "-" then tokens
    else if '=' !in tokens[0] && BeforeEquals(tokens[0]) in withValues && |tokens| > 1 then
      SkipOptions(tokens[2..], withValues)
    else SkipOptions(tokens[1..], withValues)
  }

  /** What is left after leading assignments and wrappers: always a suffix. */
  function Peel(tokens: Tokens): (rest: Tokens)
    ensures |rest| <= |tokens| && rest == tokens[|tokens| - |rest|..]
    ensures rest == [] || (!IsEnvAssignment(rest[0]) && !IsWrapper(rest[0]))
    decreases |tokens|
  {
    if tokens == [] then tokens
    else if IsEnvAssignment(tokens[0]) then Peel(tokens[1..])
    else if !IsWrapper(tokens[0]) then tokens
    else Peel(SkipOptions(tokens[1..], OptionsWithValues(CommandName(tokens[0]))))
  }

  lemma SkipStep(tokens: Tokens, index: nat, withValues: set<string>)
    requires index <= |tokens|
    ensures index == |tokens| ==> SkipOptions(tokens[index..], withValues) == []
    ensures index < |tokens| ==>
      var token := tokens[index];
      SkipOptions(tokens[index..], withValues) ==
        if IsEnvAssignment(token) then SkipOptions(tokens[index + 1..], withValues)
        else if token == "--" then tokens[index + 1..]
        else if !StartsWith(token, "-") || token == "-" then tokens[index..]
        else if '=' !in token && BeforeEquals(token) in withValues && index + 1 < |tokens| then
          SkipOptions(tokens[index + 2..], withValues)
        else SkipOptions(tokens[index + 1..], withValues)
  {
    hide IsEnvAssignment, BeforeEquals, StartsWith;
    if index < |tokens| {
      assert tokens[index..][0] == tokens[index] && tokens[index..][1..] == tokens[index + 1..];
      assert index + 1 < |tokens| ==> tokens[index..][2..] == tokens[index + 2..];
    }
  }

  method SkipWrapperOptions(tokens: Tokens, from: nat, wrapper: string) returns (index: nat)
    requires from <= |tokens|
    ensures from <= index <= |tokens|
    ensures tokens[index..] == SkipOptions(tokens[from..], OptionsWithValues(wrapper))
  {
    var withValues := OptionsWithValues(wrapper);
    index := from;
    hide *;
    while index < |tokens|
      invariant from <= index <= |tokens|
      invariant SkipOptions(tokens[index..], withValues) == SkipOptions(tokens[from..], withValues)
      decreases |tokens| - index
    {
      var token := tokens[index];
      SkipStep(tokens, index, withValues);
      if IsEnvAssignment(token) {
        index := index + 1;
        continue;
      }
      if token == "--" {
        return index + 1;
      }
      if !StartsWith(token, "-") || token == "-" {
        return index;
      }
      index := index + 1;
      if '=' !in token && BeforeEquals(token) in withValues && index < |tokens| {
        index := index + 1;
      }
    }
    SkipStep(tokens, index, withValues);
  }

  method PeelWrappers(tokens: Tokens) returns (rest: Tokens)
    ensures rest == Peel(tokens)
  {
    var index := 0;
    while index < |tokens|
      invariant index <= |tokens|
      invariant Peel(tokens[index..]) == Peel(tokens)
      decreases |tokens| - index
    {
      var token := tokens[index];
      assert tokens[index..][0] == token && tokens[index..][1..] == tokens[index + 1..];
      if IsEnvAssignment(token) {
        index := index + 1;
        continue;
      }
      if !IsWrapper(token) {
        break;
      }
      index := SkipWrapperOptions(tokens, index + 1, CommandName(token));
    }
    rest := tokens[index..];
  }

  lemma PeelIdempotent(tokens: Tokens)
    ensures Peel(Peel(tokens)) == Peel(tokens)
  {
  }

  // ------------------------------------------------------------------- matching

  predicate IsRmRecursiveForce(tokens: Tokens) {
    && |tokens| >= 2 && CommandName(tokens[0]) == "rm"
    && exists i :: 1 <= i < |tokens| && StartsWith(tokens[i], "-") && 'r' in tokens[i] && 'f' in tokens[i]
  }

  predicate HasSecretPath(tokens: Tokens, pattern: string) {
    exists i :: 0 <= i < |tokens| && Contains(tokens[i], pattern)
  }

  predicate MatchesDeny(tokens: Tokens) {
    || HasSecretPath(tokens, "~/.codex/auth.json")
    || HasSecretPath(tokens, "~/.ssh")
    || (IsRmRecursiveForce(tokens) && exists i :: 0 <= i < |tokens| && tokens[i] in {"/", "/*"})
  }

  predicate IsPipInstall(tokens: Tokens) {
    || (|tokens| >= 2 && CommandName(tokens[0]) in {"pip", "pip3"} && tokens[1] == "install")
    || (|tokens| >= 4 && CommandName(tokens[0]) in {"python", "python3", "py"} &&
        tokens[1..4] == ["-m", "pip", "install"])
  }

  predicate MatchesAsk(tokens: Tokens) {
    || (|tokens| >= 2 && CommandName(tokens[0]) == "git" && tokens[1] == "push")
    || IsRmRecursiveForce(tokens)
    || IsPipInstall(tokens)
    || (|tokens| >= 2 && CommandName(tokens[0]) == "npm" && tokens[1] == "install")
  }

  /** What the default patterns say of one peeled segment. */
  function SegmentAction(segment: Tokens): PolicyAction {
    if MatchesDeny(segment) then Deny else if MatchesAsk(segment) then Ask else Allow
  }

  /** The strongest answer over the segments, wrappers peeled. */
  function Strongest(segments: seq<Tokens>): PolicyAction {
    if segments == [] then Allow
    else Stronger(Strongest(segments[..|segments| - 1]), SegmentAction(Peel(segments[|segments| - 1])))
  }

  lemma {:induction false} StrongestJoin(a: seq<Tokens>, b: seq<Tokens>)
    ensures Strongest(a + b) == Stronger(Strongest(a), Strongest(b))
  {
    if b == [] {
      assert a + b == a;
    } else {
      assert (a + b)[..|a + b| - 1] == a + b[..|b| - 1];
      StrongestJoin(a, b[..|b| - 1]);
    }
  }

  /** The strongest answer is some segment's answer, or allow; and no segment's answer is stronger. */
  lemma {:induction false} StrongestIsMax(segments: seq<Tokens>)
    ensures Strongest(segments) == Allow ||
            exists i :: 0 <= i < |segments| && SegmentAction(Peel(segments[i])) == Strongest(segments)
    ensures forall i :: 0 <= i < |segments| ==> Rank(SegmentAction(Peel(segments[i]))) <= Rank(Strongest(segments))
  {
    hide SegmentAction, Peel;
    if segments != [] {
      var last := |segments| - 1;
      StrongestIsMax(segments[..last]);
      if Strongest(segments[..last]) != Allow {
        var i :| 0 <= i < last && SegmentAction(Peel(segments[..last][i])) == Strongest(segments[..last]);
        assert segments[i] == segments[..last][i];
      }
      forall i | 0 <= i < |segments| ensures Rank(SegmentAction(Peel(segments[i]))) <= Rank(Strongest(segments)) {
        assert i < last ==> segments[i] == segments[..last][i];
      }
    }
  }

  /** What the default patterns say of a token list. */
  function DefaultAction(tokens: Tokens, split: string -> Tokens): PolicyAction {
    Strongest(Segments(tokens) + NestedSegments(tokens, split))
  }

  predicate MatchesAny(patterns: seq<string>, text: string) {
    exists i :: 0 <= i < |patterns| && Contains(text, patterns[i])
  }

  function CustomAction(deny: seq<string>, ask: seq<string>, text: string): PolicyAction {
    if MatchesAny(deny, text) then Deny else if MatchesAny(ask, text) then Ask else Allow
  }

  /** The reference decision: the strongest of what the default and the custom patterns say. */
  function Action(
    tokens: Tokens, text: string, split: string -> Tokens, deny: seq<string>, ask: seq<string>): PolicyAction
  {
    Stronger(DefaultAction(tokens, split), CustomAction(deny, ask, text))
  }

  // --------------------------------------------------------------------- engine

  const DEFAULT_DENY: seq<string> := ["rm -rf /", "~/.ssh", "~/.codex/auth.json"]
  const DEFAULT_ASK: seq<string> := ["git push", "rm -rf", "pip install", "npm install"]

  /** The configured patterns that are not defaults, in order. */
  function CustomPatterns(defaults: seq<string>, configured: seq<string>): (r: seq<string>)
    ensures forall p :: p in r <==> p in configured && p !in defaults
  {
    if configured == [] then []
    else
      var last := configured[|configured| - 1];
      CustomPatterns(defaults, configured[..|configured| - 1]) + if last in defaults then [] else [last]
  }

  /** Every segment in turn, peeled. */
  function Peeled(segments: seq<Tokens>): seq<Tokens> {
    seq(|segments|, i requires 0 <= i < |segments| => Peel(segments[i]))
  }

  class Engine {
    const customDeny: seq<string>
    const customAsk: seq<string>

    constructor (deny: seq<string>, ask: seq<string>)
      ensures customDeny == CustomPatterns(DEFAULT_DENY, deny)
      ensures customAsk == CustomPatterns(DEFAULT_ASK, ask)
    {
      customDeny, customAsk := CustomPatterns(DEFAULT_DENY, deny), CustomPatterns(DEFAULT_ASK, ask);
    }

    /** `_policy_segments`: the command's own segments, then those nested in its tokens, all peeled. */
    method PolicySegments(tokens: Tokens, split: string -> Tokens) returns (segments: seq<Tokens>)
      ensures segments == Peeled(Segments(tokens) + NestedSegments(tokens, split))
    {
      hide Segments, NestedSegments, Peel;
      var raw := RawSegments(tokens, split);
      segments := [];
      for i := 0 to |raw|
        invariant segments == Peeled(raw)[..i]
      {
        var peeled := PeelWrappers(raw[i]);
        segments := segments + [peeled];
      }
    }

    method RawSegments(tokens: Tokens, split: string -> Tokens) returns (raw: seq<Tokens>)
      ensures raw == Segments(tokens) + NestedSegments(tokens, split)
    {
      hide Segments, HasSpace;
      var own := CommandSegments(tokens);
      var nested: seq<Tokens> := [];
      for i := 0 to |tokens|
        invariant nested == NestedSegments(tokens[..i], split)
      {
        var token := tokens[i];
        assert tokens[..i + 1][..i] == tokens[..i];
        if HasSpace(token) {
          var inner := split(token);
          if inner != [token] {
            var more := CommandSegments(inner);
            nested := nested + more;
          }
        }
      }
      assert tokens[..|tokens|] == tokens;
      raw := own + nested;
    }

    /** Whether some segment is denied, or asked about, by the default patterns. */
    method AnySegment(segments: seq<Tokens>, deny: bool) returns (found: bool)
      ensures found <==>
        exists i :: 0 <= i < |segments| && if deny then MatchesDeny(segments[i]) else MatchesAsk(segments[i])
    {
      hide MatchesDeny, MatchesAsk;
      for i := 0 to |segments|
        invariant forall k :: 0 <= k < i ==> !(if deny then MatchesDeny(segments[k]) else MatchesAsk(segments[k]))
      {
        if (if deny then MatchesDeny(segments[i]) else MatchesAsk(segments[i])) {
          return true;
        }
      }
      return false;
    }

    method AnyPattern(patterns: seq<string>, text: string) returns (found: bool)
      ensures found <==> MatchesAny(patterns, text)
    {
      hide Contains;
      for i := 0 to |patterns|
        invariant forall k :: 0 <= k < i ==> !Contains(text, patterns[k])
      {
        if Contains(text, patterns[i]) {
          return true;
        }
      }
      return false;
    }

    /** `_evaluate_tokens`: the four early-return loops come to the strongest of all the answers. */
    method EvaluateTokens(tokens: Tokens, text: string, split: string -> Tokens) returns (action: PolicyAction)
      ensures action == Action(tokens, text, split, customDeny, customAsk)
    {
      hide MatchesDeny, MatchesAsk, MatchesAny, Segments, NestedSegments, Peel, Strongest;
      ghost var raw := Segments(tokens) + NestedSegments(tokens, split);
      StrongestIsMax(raw);
      var segments := PolicySegments(tokens, split);
      assert forall i :: 0 <= i < |raw| ==> segments[i] == Peel(raw[i]);
      var found := AnySegment(segments, true);
      if found { return Deny; }
      found := AnyPattern(customDeny, text);
      if found { return Deny; }
      found := AnySegment(segments, false);
      if found { return Ask; }
      found := AnyPattern(customAsk, text);
      if found { return Ask; }
      return Allow;
    }
  }

  // ------------------------------------------------------------------- algebra

  /** Under the default patterns the decision on joined commands is the stronger of the two decisions. */
  lemma DefaultIsHomomorphism(a: Tokens, sep: string, b: Tokens, split: string -> Tokens)
    requires sep in SEPARATORS
    ensures DefaultAction(a + [sep] + b, split) == Stronger(DefaultAction(a, split), DefaultAction(b, split))
  {
    SegmentsJoin(a, sep, b);
    NestedJoinSeparator(a, sep, b, split);
    hide Segments, NestedSegments, Strongest;
    StrongestShuffle(Segments(a), Segments(b), NestedSegments(a, split), NestedSegments(b, split));
  }

  lemma NestedJoinSeparator(a: Tokens, sep: string, b: Tokens, split: string -> Tokens)
    requires sep in SEPARATORS
    ensures NestedSegments(a + [sep] + b, split) == NestedSegments(a, split) + NestedSegments(b, split)
  {
    assert !HasSpace(sep);
    hide Segments, HasSpace;
    NestedNone([sep], split);
    hide NestedSegments;
    NestedJoin(a, [sep], split);
    NestedJoin(a + [sep], b, split);
  }

  lemma StrongestShuffle(a: seq<Tokens>, b: seq<Tokens>, c: seq<Tokens>, d: seq<Tokens>)
    ensures Strongest(a + b + (c + d)) == Stronger(Strongest(a + c), Strongest(b + d))
  {
    hide Strongest;
    StrongestJoin(a + b, c + d);
    StrongestJoin(a, b);
    StrongestJoin(c, d);
    StrongestJoin(a, c);
    StrongestJoin(b, d);
  }

  /** A command line: the quoted tokens joined by single blanks. */
  function Line(tokens: Tokens, quote: string -> string): string {
    if tokens == [] then ""
    else if |tokens| == 1 then quote(tokens[0])
    else quote(tokens[0]) + " " + Line(tokens[1..], quote)
  }

  lemma {:induction false} LineJoin(a: Tokens, b: Tokens, quote: string -> string)
    requires a != [] && b != []
    ensures Line(a + b, quote) == Line(a, quote) + " " + Line(b, quote)
  {
    assert (a + b)[1..] == a[1..] + b;
    if |a| > 1 {
      LineJoin(a[1..], b, quote);
    } else {
      assert a[1..] + b == b;
    }
  }

  lemma EmptyIn(text: string, pattern: string)
    requires Contains("", pattern)
    ensures Contains(text, pattern)
  {
    assert pattern == "";
    assert OccursAt(text, "", 0);
  }

  lemma LineContains(a: Tokens, sep: string, b: Tokens, quote: string -> string, pattern: string)
    ensures Contains(Line(a, quote), pattern) ==> Contains(Line(a + [sep] + b, quote), pattern)
    ensures Contains(Line(b, quote), pattern) ==> Contains(Line(a + [sep] + b, quote), pattern)
  {
    hide Contains, Line;
    var whole, rest := Line(a + [sep] + b, quote), Line([sep] + b, quote);
    assert a + [sep] + b == a + ([sep] + b);
    if a != [] {
      LineJoin(a, [sep] + b, quote);
    } else {
      assert a + ([sep] + b) == [sep] + b;
      LineNil(quote);
    }
    if b != [] {
      LineJoin([sep], b, quote);
    } else {
      LineNil(quote);
    }
    if Contains(Line(a, quote), pattern) {
      if a != [] {
        ContainsIn(Line(a, quote), "", " " + rest, pattern);
        assert "" + Line(a, quote) + (" " + rest) == whole;
      } else {
        EmptyIn(whole, pattern);
      }
    }
    if Contains(Line(b, quote), pattern) {
      if b != [] {
        var left := (if a != [] then Line(a, quote) + " " else "") + Line([sep], quote) + " ";
        ContainsIn(Line(b, quote), left, "", pattern);
        assert left + Line(b, quote) + "" == whole;
      } else {
        EmptyIn(whole, pattern);
      }
    }
  }

  lemma LineNil(quote: string -> string)
    ensures Line([], quote) == ""
  {
  }

  /** With custom patterns, matched on the joined line, joining commands never weakens the decision. */
  lemma JoiningNeverWeakens(
    a: Tokens, sep: string, b: Tokens, split: string -> Tokens, quote: string -> string,
    deny: seq<string>, ask: seq<string>)
    requires sep in SEPARATORS
    ensures Rank(Stronger(Action(a, Line(a, quote), split, deny, ask), Action(b, Line(b, quote), split, deny, ask)))
         <= Rank(Action(a + [sep] + b, Line(a + [sep] + b, quote), split, deny, ask))
  {
    DefaultIsHomomorphism(a, sep, b, split);
    PatternsSeenInLine(a, sep, b, quote, deny);
    PatternsSeenInLine(a, sep, b, quote, ask);
    hide DefaultAction, Line, MatchesAny;
  }

  lemma PatternsSeenInLine(a: Tokens, sep: string, b: Tokens, quote: string -> string, patterns: seq<string>)
    ensures MatchesAny(patterns, Line(a, quote)) ==> MatchesAny(patterns, Line(a + [sep] + b, quote))
    ensures MatchesAny(patterns, Line(b, quote)) ==> MatchesAny(patterns, Line(a + [sep] + b, quote))
  {
    hide Line, Contains;
    forall i | 0 <= i < |patterns|
      ensures Contains(Line(a, quote), patterns[i]) || Contains(Line(b, quote), patterns[i]) ==>
              Contains(Line(a + [sep] + b, quote), patterns[i])
    {
      LineContains(a, sep, b, quote, patterns[i]);
    }
  }

  /** More configured patterns never weaken a decision. */
  lemma PatternsNeverWeaken(
    tokens: Tokens, text: string, split: string -> Tokens,
    deny: seq<string>, ask: seq<string>, moreDeny: seq<string>, moreAsk: seq<string>)
    requires (forall p :: p in deny ==> p in moreDeny) && (forall p :: p in ask ==> p in moreAsk)
    ensures Rank(Action(tokens, text, split, CustomPatterns(DEFAULT_DENY, deny), CustomPatterns(DEFAULT_ASK, ask)))
         <= Rank(Action(tokens, text, split,
                        CustomPatterns(DEFAULT_DENY, moreDeny), CustomPatterns(DEFAULT_ASK, moreAsk)))
  {
    hide DefaultAction, Contains;
    MorePatterns(CustomPatterns(DEFAULT_DENY, deny), CustomPatterns(DEFAULT_DENY, moreDeny), text);
    MorePatterns(CustomPatterns(DEFAULT_ASK, ask), CustomPatterns(DEFAULT_ASK, moreAsk), text);
  }

  lemma MorePatterns(some: seq<string>, more: seq<string>, text: string)
    requires forall p :: p in some ==> p in more
    ensures MatchesAny(some, text) ==> MatchesAny(more, text)
  {
    hide Contains;
    if MatchesAny(some, text) {
      var i :| 0 <= i < |some| && Contains(text, some[i]);
      assert some[i] in more;
    }
  }

  // ---------------------------------------------------------- wrapper transparency

  /** An option of a wrapper. */
  datatype WrapperOption =
    | AssignmentOption(token: string)
    | Flag(token: string)
    | ValueFlag(token: string, value: string)

  /** An assignment, or a wrapper with its options and an optional `--`. */
  datatype Item = Assignment(token: string) | Wrapper(token: string, options: seq<WrapperOption>, dashes: bool)

  predicate OptionOk(o: WrapperOption, withValues: set<string>) {
    match o
    case AssignmentOption(token) => IsEnvAssignment(token)
    case Flag(token) =>
      StartsWith(token, "-") && token != "-" && token != "--" && ('=' in token || token !in withValues)
    case ValueFlag(token, value) =>
      StartsWith(token, "-") && token != "-" && token != "--" && '=' !in token && token in withValues
  }

  function OptionTokens(o: WrapperOption): Tokens {
    match o
    case AssignmentOption(token) => [token]
    case Flag(token) => [token]
    case ValueFlag(token, value) => [token, value]
  }

  function OptionsTokens(options: seq<WrapperOption>): Tokens {
    if options == [] then [] else OptionTokens(options[0]) + OptionsTokens(options[1..])
  }

  predicate ItemOk(item: Item) {
    match item
    case Assignment(token) => IsEnvAssignment(token)
    case Wrapper(token, options, _) =>
      && IsWrapper(token) && !IsEnvAssignment(token) && !StartsWith(token, "-")
      && forall i :: 0 <= i < |options| ==> OptionOk(options[i], OptionsWithValues(CommandName(token)))
  }

  function ItemTokens(item: Item): Tokens {
    match item
    case Assignment(token) => [token]
    case Wrapper(token, options, dashes) => [token] + OptionsTokens(options) + if dashes then ["--"] else []
  }

  function PrefixTokens(items: seq<Item>): Tokens {
    if items == [] then [] else ItemTokens(items[0]) + PrefixTokens(items[1..])
  }

  predicate PrefixOk(items: seq<Item>) {
    forall i :: 0 <= i < |items| ==> ItemOk(items[i])
  }

  /** A token that names an ordinary command. */
  predicate PlainCommand(token: string) {
    !IsEnvAssignment(token) && !IsWrapper(token) && !StartsWith(token, "-") && token !in SEPARATORS
  }

  lemma {:induction false} BeforeEqualsWhole(token: string)
    requires '=' !in token
    ensures BeforeEquals(token) == token
  {
    if token != "" {
      assert token[0] in token;
      assert forall c :: c in token[1..] ==> c in token;
      BeforeEqualsWhole(token[1..]);
    }
  }

  lemma {:induction false} OptionsSkipped(options: seq<WrapperOption>, tail: Tokens, withValues: set<string>)
    requires forall i :: 0 <= i < |options| ==> OptionOk(options[i], withValues)
    ensures SkipOptions(OptionsTokens(options) + tail, withValues) == SkipOptions(tail, withValues)
  {
    hide SkipOptions, OptionOk, OptionTokens;
    if options == [] {
      assert OptionsTokens(options) + tail == tail;
    } else {
      var o, rest := options[0], OptionsTokens(options[1..]) + tail;
      OptionsSkipped(options[1..], tail, withValues);
      assert OptionsTokens(options) + tail == OptionTokens(o) + rest;
      OptionSkipped(o, rest, withValues);
    }
  }

  lemma OptionSkipped(o: WrapperOption, rest: Tokens, withValues: set<string>)
    requires OptionOk(o, withValues)
    ensures SkipOptions(OptionTokens(o) + rest, withValues) == SkipOptions(rest, withValues)
  {
    var tokens := OptionTokens(o) + rest;
    if '=' !in o.token {
      BeforeEqualsWhole(o.token);
    }
    hide BeforeEquals;
    match o
    case AssignmentOption(token) => assert tokens[0] == token && tokens[1..] == rest;
    case Flag(token) => assert tokens[0] == token && tokens[1..] == rest;
    case ValueFlag(token, value) => assert tokens[0] == token && tokens[2..] == rest;
  }

  lemma AssignmentGoes(token: string, more: Tokens, withValues: set<string>)
    requires IsEnvAssignment(token)
    ensures Peel([token] + more) == Peel(more)
    ensures SkipOptions([token] + more, withValues) == SkipOptions(more, withValues)
  {
    assert ([token] + more)[0] == token && ([token] + more)[1..] == more;
    hide IsEnvAssignment, IsWrapper, OptionsWithValues;
  }

  lemma CommandStays(token: string, more: Tokens, withValues: set<string>)
    requires !IsEnvAssignment(token) && !StartsWith(token, "-")
    ensures SkipOptions([token] + more, withValues) == [token] + more
    ensures !IsWrapper(token) ==> Peel([token] + more) == [token] + more
  {
    assert ([token] + more)[0] == token;
    assert StartsWith("--", "-");
    hide IsEnvAssignment, IsWrapper;
  }

  lemma WrapperGoes(token: string, options: seq<WrapperOption>, tail: Tokens)
    requires ItemOk(Wrapper(token, options, false))
    ensures Peel([token] + OptionsTokens(options) + tail) ==
            Peel(SkipOptions(tail, OptionsWithValues(CommandName(token))))
  {
    var tokens := [token] + OptionsTokens(options) + tail;
    assert tokens[0] == token && tokens[1..] == OptionsTokens(options) + tail;
    hide SkipOptions, OptionOk, IsEnvAssignment, OptionsWithValues, CommandName;
    OptionsSkipped(options, tail, OptionsWithValues(CommandName(token)));
  }

  lemma WrapperStep(item: Item, more: Tokens, bare: Tokens)
    requires item.Wrapper? && ItemOk(item)
    requires item.dashes ==> Peel(more) == bare
    requires !item.dashes ==> Peel(SkipOptions(more, OptionsWithValues(CommandName(item.token)))) == bare
    ensures Peel(ItemTokens(item) + more) == bare
  {
    hide IsEnvAssignment, IsWrapper, OptionsWithValues, CommandName, OptionOk, StartsWith;
    hide Peel, SkipOptions, OptionsTokens;
    var withValues := OptionsWithValues(CommandName(item.token));
    var tail := (if item.dashes then ["--"] else []) + more;
    assert ItemOk(Wrapper(item.token, item.options, false));
    assert ItemTokens(item) + more == [item.token] + OptionsTokens(item.options) + tail;
    hide *;
    WrapperGoes(item.token, item.options, tail);
    if item.dashes {
      DashesSkipped(more, withValues);
    } else {
      assert tail == more;
    }
  }

  /** Peeling a prefix of items leaves the command. */
  lemma {:induction false} ItemsPeeled(items: seq<Item>, command: string, rest: Tokens)
    requires PrefixOk(items) && PlainCommand(command)
    ensures Peel(PrefixTokens(items) + ([command] + rest)) == [command] + rest
    decreases |items|, 0
  {
    hide IsEnvAssignment, IsWrapper, OptionsWithValues, SkipOptions, OptionOk, StartsWith, Peel, OptionsTokens;
    var bare := [command] + rest;
    CommandStays(command, rest, {});
    if items == [] {
      assert PrefixTokens(items) + bare == bare;
    } else {
      var more := PrefixTokens(items[1..]) + bare;
      assert PrefixTokens(items) + bare == ItemTokens(items[0]) + more;
      match items[0]
      case Assignment(token) =>
        ItemsPeeled(items[1..], command, rest);
        AssignmentGoes(token, more, {});
      case Wrapper(token, options, dashes) =>
        if dashes {
          ItemsPeeled(items[1..], command, rest);
        } else {
          ItemsSkipped(items[1..], command, rest, OptionsWithValues(CommandName(token)));
        }
        WrapperStep(items[0], more, bare);
    }
  }

  /** The option loop may run into the following items; peeling then goes on to the same command. */
  lemma {:induction false} ItemsSkipped(items: seq<Item>, command: string, rest: Tokens, withValues: set<string>)
    requires PrefixOk(items) && PlainCommand(command)
    ensures Peel(SkipOptions(PrefixTokens(items) + ([command] + rest), withValues)) == [command] + rest
    decreases |items|, 1
  {
    hide IsEnvAssignment, IsWrapper, OptionsWithValues, SkipOptions, OptionOk, StartsWith, Peel, OptionsTokens;
    var bare := [command] + rest;
    CommandStays(command, rest, withValues);
    if items == [] {
      assert PrefixTokens(items) + bare == bare;
    } else {
      var more := PrefixTokens(items[1..]) + bare;
      assert PrefixTokens(items) + bare == ItemTokens(items[0]) + more;
      match items[0]
      case Assignment(token) =>
        ItemsSkipped(items[1..], command, rest, withValues);
        AssignmentGoes(token, more, withValues);
      case Wrapper(token, options, dashes) =>
        WrapperStays(items, bare, withValues);
        ItemsPeeled(items, command, rest);
    }
  }

  /** The option loop stops at a wrapper. */
  lemma WrapperStays(items: seq<Item>, bare: Tokens, withValues: set<string>)
    requires items != [] && items[0].Wrapper? && ItemOk(items[0])
    ensures SkipOptions(PrefixTokens(items) + bare, withValues) == PrefixTokens(items) + bare
  {
    hide IsEnvAssignment, IsWrapper, OptionsWithValues, SkipOptions, OptionOk, StartsWith, OptionsTokens, CommandName;
    var token, options := items[0].token, items[0].options;
    var after := OptionsTokens(options) + (if items[0].dashes then ["--"] else []) + (PrefixTokens(items[1..]) + bare);
    assert PrefixTokens(items) + bare == [token] + after;
    CommandStays(token, after, withValues);
  }

  lemma DashesSkipped(more: Tokens, withValues: set<string>)
    ensures SkipOptions(["--"] + more, withValues) == more
  {
    assert (["--"] + more)[1..] == more;
    assert StartsWith("--", "-");
  }

  /** No white space in it and no separator. */
  predicate Clean(token: string) {
    !HasSpace(token) && token !in SEPARATORS
  }

  lemma FirstSeparatorPrefixed(prefix: Tokens, bare: Tokens)
    requires NoSeparator(prefix)
    ensures FirstSeparator(prefix + bare) == |prefix| + FirstSeparator(bare)
  {
    var i, whole := |prefix| + FirstSeparator(bare), prefix + bare;
    forall k | 0 <= k < i ensures whole[..i][k] !in SEPARATORS {
      if k < |prefix| { assert whole[k] == prefix[k]; } else { assert whole[k] == bare[k - |prefix|]; }
    }
    FirstSeparatorIs(whole, i);
  }

  lemma FirstSegmentPrefixed(prefix: Tokens, bare: Tokens)
    requires NoSeparator(prefix)
    ensures FirstSegment(prefix + bare) == prefix + FirstSegment(bare)
  {
    FirstSeparatorPrefixed(prefix, bare);
    hide FirstSeparator, NoSeparator;
  }

  lemma DropPrefix(prefix: Tokens, bare: Tokens, k: nat)
    requires k <= |bare|
    ensures (prefix + bare)[|prefix| + k..] == bare[k..]
  {
  }

  lemma OtherSegmentsPrefixed(prefix: Tokens, bare: Tokens)
    requires NoSeparator(prefix)
    ensures OtherSegments(prefix + bare) == OtherSegments(bare)
  {
    hide FirstSeparator, NoSeparator, Segments;
    FirstSeparatorPrefixed(prefix, bare);
    if FirstSeparator(bare) < |bare| {
      DropPrefix(prefix, bare, FirstSeparator(bare) + 1);
    }
  }

  /** A prefix without separators goes to the first segment. */
  lemma SegmentsPrefixed(prefix: Tokens, bare: Tokens)
    requires NoSeparator(prefix) && bare != [] && bare[0] !in SEPARATORS
    ensures Segments(prefix + bare) == [prefix + FirstSegment(bare)] + OtherSegments(bare)
  {
    assert |FirstSegment(bare)| >= 1;
    hide FirstSeparator, Segments, FirstSegment, OtherSegments, NoSeparator;
    FirstSegmentPrefixed(prefix, bare);
    OtherSegmentsPrefixed(prefix, bare);
    SegmentsSplit(prefix + bare);
  }

  /**
   * Wrapper transparency: any blank-free prefix of assignments and wrappers with their options, before a plain
   * command, leaves the decision under the default patterns as it was.
   */
  lemma WrappersAreTransparent(items: seq<Item>, command: string, rest: Tokens, split: string -> Tokens)
    requires PrefixOk(items) && PlainCommand(command)
    requires forall i :: 0 <= i < |PrefixTokens(items)| ==> Clean(PrefixTokens(items)[i])
    ensures DefaultAction(PrefixTokens(items) + ([command] + rest), split) == DefaultAction([command] + rest, split)
  {
    FirstSegmentPeeled(items, command, rest);
    PlainIsNoSeparator(command);
    hide *;
    PrefixIgnored(PrefixTokens(items), [command] + rest, split);
  }

  lemma PlainIsNoSeparator(command: string)
    requires PlainCommand(command)
    ensures command !in SEPARATORS
  {
  }

  /** A clean prefix that peels off the first segment does not change the decision. */
  lemma PrefixIgnored(prefix: Tokens, bare: Tokens, split: string -> Tokens)
    requires bare != [] && bare[0] !in SEPARATORS
    requires forall i :: 0 <= i < |prefix| ==> Clean(prefix[i])
    requires Peel(prefix + FirstSegment(bare)) == Peel(FirstSegment(bare))
    ensures DefaultAction(prefix + bare, split) == DefaultAction(bare, split)
  {
    NestedNone(prefix, split);
    CleanHasNoSeparator(prefix);
    hide *;
    var segment, rest := FirstSegment(bare), OtherSegments(bare) + NestedSegments(bare, split);
    SegmentsPrefixed(prefix, bare);
    NestedJoin(prefix, bare, split);
    Reassociate(prefix + segment, OtherSegments(bare), NestedSegments(bare, split));
    BareSegments(bare, split);
    SwapFirst(prefix + segment, segment, rest);
    DefaultActionIs(prefix + bare, split);
    DefaultActionIs(bare, split);
  }

  lemma Reassociate(first: Tokens, b: seq<Tokens>, c: seq<Tokens>)
    ensures [first] + b + c == [first] + (b + c)
    ensures [] + c == c
  {
  }

  lemma BareSegments(bare: Tokens, split: string -> Tokens)
    requires bare != [] && bare[0] !in SEPARATORS
    ensures Segments(bare) + NestedSegments(bare, split) ==
            [FirstSegment(bare)] + (OtherSegments(bare) + NestedSegments(bare, split))
  {
    assert NoSeparator([]);
    hide *;
    SegmentsPrefixed([], bare);
    assert [] + bare == bare && [] + FirstSegment(bare) == FirstSegment(bare);
    Reassociate(FirstSegment(bare), OtherSegments(bare), NestedSegments(bare, split));
  }

  lemma CleanHasNoSeparator(tokens: Tokens)
    requires forall i :: 0 <= i < |tokens| ==> Clean(tokens[i])
    ensures NoSeparator(tokens)
  {
  }

  lemma DefaultActionIs(tokens: Tokens, split: string -> Tokens)
    ensures DefaultAction(tokens, split) == Strongest(Segments(tokens) + NestedSegments(tokens, split))
  {
  }

  lemma FirstSegmentPeeled(items: seq<Item>, command: string, rest: Tokens)
    requires PrefixOk(items) && PlainCommand(command)
    ensures var segment := FirstSegment([command] + rest);
      Peel(PrefixTokens(items) + segment) == Peel(segment)
  {
    var segment := FirstSegment([command] + rest);
    assert FirstSeparator([command] + rest) >= 1;
    assert segment == [command] + segment[1..];
    ItemsPeeled(items, command, segment[1..]);
    ItemsPeeled([], command, segment[1..]);
    assert PrefixTokens([]) + segment == segment;
  }

  lemma SwapFirst(a: Tokens, b: Tokens, others: seq<Tokens>)
    requires Peel(a) == Peel(b)
    ensures Strongest([a] + others) == Strongest([b] + others)
  {
    hide Peel, SegmentAction;
    StrongestJoin([a], others);
    StrongestJoin([b], others);
  }
}
