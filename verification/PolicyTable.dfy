/** The default policy as a table over the tokens of a segment, commands told by what they are spelled like. */
module PolicyTable {
  import opened Text
  import opened PolicyActions
  import opened Policy

  predicate IsQuote(c: char) {
    c == '"' || c == '\''
  }

  predicate IsSlash(c: char) {
    c == '/' || c == '\\'
  }

  /** The stretch spells the name in any letter case, and nothing else. */
  predicate IsNamed(token: string, i: nat, j: nat, name: string) {
    i + |name| == j && SpelledAt(token, name, i)
  }

  /** Before `i` comes the end of a directory, or nothing but quotes. */
  predicate StartsAt(token: string, i: nat) {
    i <= |token| && ((i > 0 && IsSlash(token[i - 1])) || forall k :: 0 <= k < i ==> IsQuote(token[k]))
  }

  /** Between `i` and `j` stands the name, with or without `.exe`, and only quotes come after it. */
  predicate NamedAt(token: string, name: string, i: nat, j: nat) {
    && StartsAt(token, i) && j <= |token| && (forall k :: j <= k < |token| ==> IsQuote(token[k]))
    && (IsNamed(token, i, j, name) || IsNamed(token, i, j, name + ".exe"))
  }

  /** The token runs the command: its last path component, quotes aside, is the name in any letter case. */
  ghost predicate Invokes(token: string, name: string) {
    exists i: nat, j: nat :: NamedAt(token, name, i, j)
  }

  /** Lower-case letters and digits, as the names of commands are here. */
  predicate NameLike(name: string) {
    name != "" && forall k :: 0 <= k < |name| ==> 'a' <= name[k] <= 'z' || '0' <= name[k] <= '9'
  }

  // ---------------------------------------------------------- what a command is called

  lemma {:induction false} LeftQuotes(s: string) returns (a: nat)
    ensures a <= |s| && TrimQuotesLeft(s) == s[a..]
    ensures (forall k :: 0 <= k < a ==> IsQuote(s[k])) && (a < |s| ==> !IsQuote(s[a]))
  {
    if s != "" && s[0] in "\"'" {
      var rest := LeftQuotes(s[1..]);
      a := rest + 1;
      assert s[1..][rest..] == s[a..];
      assert forall k :: 1 <= k < a ==> s[k] == s[1..][k - 1];
    } else {
      a := 0;
    }
  }

  lemma {:induction false} RightQuotes(s: string) returns (b: nat)
    ensures b <= |s| && TrimQuotesRight(s) == s[..b]
    ensures (forall k :: b <= k < |s| ==> IsQuote(s[k])) && (b > 0 ==> !IsQuote(s[b - 1]))
  {
    if s != "" && s[|s| - 1] in "\"'" {
      b := RightQuotes(s[..|s| - 1]);
    } else {
      b := |s|;
    }
  }

  lemma {:induction false} BaseStart(s: string) returns (c: nat)
    ensures c <= |s| && BaseName(s) == s[c..]
    ensures (forall k :: c <= k < |s| ==> s[k] != '/') && (c > 0 ==> s[c - 1] == '/')
  {
    if s == "" || s[|s| - 1] == '/' {
      c := |s|;
    } else {
      c := BaseStart(s[..|s| - 1]);
      assert s[..|s| - 1][c..] + [s[|s| - 1]] == s[c..];
    }
  }

  /** What is left between the quotes. */
  lemma Unquoted(token: string) returns (a: nat, e: nat)
    ensures a <= e <= |token| && TrimQuotesRight(TrimQuotesLeft(token)) == token[a..e]
    ensures (forall k :: 0 <= k < a ==> IsQuote(token[k])) && (a < e ==> !IsQuote(token[a]))
    ensures (forall k :: e <= k < |token| ==> IsQuote(token[k])) && (a < e ==> !IsQuote(token[e - 1]))
  {
    a := LeftQuotes(token);
    var b := RightQuotes(token[a..]);
    e := a + b;
    assert token[a..][..b] == token[a..e];
    assert forall k :: a <= k < |token| ==> token[a..][k - a] == token[k];
  }

  /** The last path component of a text. */
  lemma LastComponent(inner: string) returns (c: nat)
    ensures c <= |inner| && BaseName(Slashes(inner)) == inner[c..]
    ensures (forall k :: c <= k < |inner| ==> !IsSlash(inner[k])) && (c > 0 ==> IsSlash(inner[c - 1]))
  {
    c := BaseStart(Slashes(inner));
    forall k | c <= k < |inner| ensures !IsSlash(inner[k]) && Slashes(inner)[k] == inner[k] {
      assert Slashes(inner)[k] != '/';
    }
    assert Slashes(inner)[c..] == inner[c..];
  }

  /** Where the command's name stands in the token. */
  lemma NameStands(token: string) returns (i: nat, j: nat)
    ensures i <= j <= |token| && StartsAt(token, i)
    ensures (forall k :: j <= k < |token| ==> IsQuote(token[k])) && (j > i ==> !IsQuote(token[j - 1]))
    ensures forall k :: i <= k < j ==> !IsSlash(token[k])
    ensures i < j && (forall k :: 0 <= k < i ==> IsQuote(token[k])) ==> !IsQuote(token[i])
    ensures var command := Lower(token[i..j]);
      CommandName(token) == if EndsWith(command, ".exe") then command[..|command| - 4] else command
  {
    var a;
    a, j := Unquoted(token);
    var inner := token[a..j];
    var c := LastComponent(inner);
    i := a + c;
    assert inner[c..] == token[i..j];
    assert forall k :: a <= k < j ==> inner[k - a] == token[k];
    hide Slashes, BaseName, Lower, EndsWith;
  }

  lemma LowerIs(s: string, name: string)
    requires forall k :: 0 <= k < |name| ==> !('A' <= name[k] <= 'Z')
    ensures Lower(s) == name <==> |s| == |name| && SpelledAt(s, name, 0)
  {
    if |s| == |name| {
      forall k | 0 <= k < |name| ensures Lower(s)[k] == name[k] <==> SameLetter(s[0 + k], name[k]) {
      }
      if SpelledAt(s, name, 0) {
        assert forall k :: 0 <= k < |name| ==> Lower(s)[k] == name[k];
      }
    }
  }

  lemma ShiftSpelled(token: string, i: nat, j: nat, name: string)
    requires i <= j <= |token|
    ensures IsNamed(token, i, j, name) <==> |token[i..j]| == |name| && SpelledAt(token[i..j], name, 0)
  {
    var part := token[i..j];
    assert forall k :: 0 <= k < |part| ==> part[k] == token[i + k];
    if i + |name| == j {
      if SpelledAt(token, name, i) {
        forall k | 0 <= k < |name| ensures SameLetter(part[0 + k], name[k]) {
          assert SameLetter(token[i + k], name[k]);
        }
      }
      if SpelledAt(part, name, 0) {
        forall k | 0 <= k < |name| ensures SameLetter(token[i + k], name[k]) {
          assert SameLetter(part[0 + k], name[k]);
        }
      }
    }
  }

  /** A name has neither quotes nor slashes. */
  lemma NamedChars(token: string, i: nat, j: nat, name: string)
    requires NameLike(name) && j <= |token| && (IsNamed(token, i, j, name) || IsNamed(token, i, j, name + ".exe"))
    ensures i < j && forall k :: i <= k < j ==> !IsQuote(token[k]) && !IsSlash(token[k])
  {
    var full := if IsNamed(token, i, j, name) then name else name + ".exe";
    forall k | i <= k < j ensures !IsQuote(token[k]) && !IsSlash(token[k]) {
      assert SameLetter(token[i + (k - i)], full[k - i]);
    }
  }

  /** The name stands in one place. */
  lemma OnePlace(token: string, name: string, i: nat, j: nat, a: nat, b: nat)
    requires NameLike(name) && NamedAt(token, name, a, b) && i <= j <= |token| && StartsAt(token, i)
    requires (forall k :: j <= k < |token| ==> IsQuote(token[k])) && (j > i ==> !IsQuote(token[j - 1]))
    requires forall k :: i <= k < j ==> !IsSlash(token[k])
    requires i < j && (forall k :: 0 <= k < i ==> IsQuote(token[k])) ==> !IsQuote(token[i])
    ensures a == i && b == j
  {
    NamedChars(token, a, b, name);
    hide SpelledAt, NameLike;
    assert !IsQuote(token[b - 1]) && !IsSlash(token[b - 1]) && !IsQuote(token[a]) && !IsSlash(token[a]);
  }

  /** A token is called by a name exactly when it invokes it. */
  lemma CalledIff(token: string, name: string)
    requires NameLike(name)
    ensures CommandName(token) == name <==> Invokes(token, name)
  {
    var i, j := NameStands(token);
    var part, exe := token[i..j], name + ".exe";
    ShiftSpelled(token, i, j, name);
    ShiftSpelled(token, i, j, exe);
    LowerIs(part, name);
    LowerIs(part, exe);
    ExeEnds(Lower(part), name);
    if a: nat, b: nat :| NamedAt(token, name, a, b) {
      OnePlace(token, name, i, j, a, b);
    }
    hide CommandName, SpelledAt, Lower, EndsWith, StartsAt, NameLike;
    if CommandName(token) == name {
      assert NamedAt(token, name, i, j);
    }
  }

  lemma ExeEnds(command: string, name: string)
    requires NameLike(name)
    ensures (if EndsWith(command, ".exe") then command[..|command| - 4] else command) == name <==>
            command == name || command == name + ".exe"
  {
    if EndsWith(command, ".exe") {
      assert command == command[..|command| - 4] + ".exe";
    }
    assert ".exe"[0] == '.';
  }

  // ------------------------------------------------------------------------ the table

  /** `rm` with an option that has both an `r` and an `f`. */
  ghost predicate RemovesByForce(tokens: Tokens) {
    && |tokens| >= 2 && Invokes(tokens[0], "rm")
    && exists i :: 1 <= i < |tokens| && "-" <= tokens[i] && 'r' in tokens[i] && 'f' in tokens[i]
  }

  ghost predicate Installs(tokens: Tokens) {
    || (|tokens| >= 2 && tokens[1] == "install" &&
        (Invokes(tokens[0], "pip") || Invokes(tokens[0], "pip3") || Invokes(tokens[0], "npm")))
    || (|tokens| >= 4 && tokens[1] == "-m" && tokens[2] == "pip" && tokens[3] == "install" &&
        (Invokes(tokens[0], "python") || Invokes(tokens[0], "python3") || Invokes(tokens[0], "py")))
  }

  lemma Names()
    ensures NameLike("rm") && NameLike("git") && NameLike("npm") && NameLike("pip") && NameLike("pip3")
    ensures NameLike("python") && NameLike("python3") && NameLike("py")
  {
  }

  lemma FirstCalled(token: string)
    ensures CommandName(token) == "rm" <==> Invokes(token, "rm")
    ensures CommandName(token) == "git" <==> Invokes(token, "git")
    ensures CommandName(token) == "npm" <==> Invokes(token, "npm")
    ensures CommandName(token) in {"pip", "pip3"} <==> Invokes(token, "pip") || Invokes(token, "pip3")
    ensures CommandName(token) in {"python", "python3", "py"} <==>
            Invokes(token, "python") || Invokes(token, "python3") || Invokes(token, "py")
  {
    Names();
    hide CommandName, Invokes, NameLike;
    CalledIff(token, "rm");
    CalledIff(token, "git");
    CalledIff(token, "npm");
    CalledIff(token, "pip");
    CalledIff(token, "pip3");
    CalledIff(token, "python");
    CalledIff(token, "python3");
    CalledIff(token, "py");
  }

  /** What the default patterns deny of a segment, and what they ask about. */
  lemma SegmentTable(tokens: Tokens)
    ensures SegmentAction(tokens) == Deny <==>
      || (exists i :: 0 <= i < |tokens| && Contains(tokens[i], "~/.codex/auth.json"))
      || (exists i :: 0 <= i < |tokens| && Contains(tokens[i], "~/.ssh"))
      || (RemovesByForce(tokens) && ("/" in tokens || "/*" in tokens))
    ensures SegmentAction(tokens) != Allow <==>
      || SegmentAction(tokens) == Deny || RemovesByForce(tokens) || Installs(tokens)
      || (|tokens| >= 2 && Invokes(tokens[0], "git") && tokens[1] == "push")
  {
    if tokens != [] {
      FirstCalled(tokens[0]);
    }
    RemovesIff(tokens);
    InstallsIff(tokens);
    hide CommandName, Invokes, Contains, RemovesByForce, IsRmRecursiveForce, Installs;
  }

  lemma RemovesIff(tokens: Tokens)
    ensures IsRmRecursiveForce(tokens) <==> RemovesByForce(tokens)
  {
    if tokens != [] {
      FirstCalled(tokens[0]);
    }
    hide CommandName, Invokes;
  }

  lemma InstallsIff(tokens: Tokens)
    ensures Installs(tokens) <==>
      IsPipInstall(tokens) || (|tokens| >= 2 && CommandName(tokens[0]) == "npm" && tokens[1] == "install")
  {
    if tokens != [] {
      FirstCalled(tokens[0]);
    }
    hide CommandName, Invokes;
    assert |tokens| >= 4 ==> tokens[1..4] == [tokens[1], tokens[2], tokens[3]];
  }

  // ------------------------------------------------------------ which segments there are

  predicate IsSeparator(token: string) {
    token == "&&" || token == "||" || token == ";" || token == "|"
  }

  /** A longest stretch without separators, with something in it. */
  predicate IsStretch(tokens: Tokens, i: nat, j: nat) {
    && i < j <= |tokens| && (forall k :: i <= k < j ==> !IsSeparator(tokens[k]))
    && (i == 0 || IsSeparator(tokens[i - 1])) && (j == |tokens| || IsSeparator(tokens[j]))
  }

  ghost predicate IsOwn(tokens: Tokens, segment: Tokens) {
    exists i: nat, j: nat :: IsStretch(tokens, i, j) && segment == tokens[i..j]
  }

  lemma Separators(token: string)
    ensures token in SEPARATORS <==> IsSeparator(token)
  {
  }

  /** Where the first separator stands, the own segments are the first stretch and those after it. */
  lemma OwnStep(tokens: Tokens, first: nat, segment: Tokens)
    requires first <= |tokens| && (forall k :: 0 <= k < first ==> !IsSeparator(tokens[k]))
    requires first < |tokens| ==> IsSeparator(tokens[first])
    ensures IsOwn(tokens, segment) <==>
      || (first > 0 && segment == tokens[..first])
      || (first < |tokens| && IsOwn(tokens[first + 1..], segment))
  {
    hide IsSeparator;
    if i: nat, j: nat :| IsStretch(tokens, i, j) && segment == tokens[i..j] {
      if i <= first {
        assert i == 0 && j == first;
      } else {
        StretchMoves(tokens, first, i - first - 1, j - first - 1);
      }
    }
    if first > 0 {
      assert IsStretch(tokens, 0, first);
    }
    if first < |tokens| && IsOwn(tokens[first + 1..], segment) {
      var i: nat, j: nat :| IsStretch(tokens[first + 1..], i, j) && segment == tokens[first + 1..][i..j];
      StretchMoves(tokens, first, i, j);
    }
  }

  lemma StretchMoves(tokens: Tokens, first: nat, i: nat, j: nat)
    requires first < |tokens| && IsSeparator(tokens[first]) && i <= j <= |tokens| - first - 1
    ensures IsStretch(tokens[first + 1..], i, j) <==> IsStretch(tokens, first + 1 + i, first + 1 + j)
    ensures tokens[first + 1..][i..j] == tokens[first + 1 + i..first + 1 + j]
  {
    var rest := tokens[first + 1..];
    hide IsSeparator;
    assert forall k :: first < k < |tokens| ==> tokens[k] == rest[k - first - 1];
    assert forall k :: 0 <= k < |rest| ==> rest[k] == tokens[first + 1 + k];
  }

  lemma {:induction false} SegmentsAre(tokens: Tokens, segment: Tokens)
    ensures segment in Segments(tokens) <==> IsOwn(tokens, segment)
    decreases |tokens|
  {
    var first := FirstSeparator(tokens);
    forall token ensures token in SEPARATORS <==> IsSeparator(token) {
      Separators(token);
    }
    OwnStep(tokens, first, segment);
    hide IsOwn, FirstSeparator, IsSeparator;
    if first < |tokens| {
      SegmentsAre(tokens[first + 1..], segment);
    }
    if first == 0 {
      assert tokens[..first] == [];
    }
  }

  /** The command line of a token with white space in it is looked into as well. */
  ghost predicate IsNested(tokens: Tokens, split: string -> Tokens, segment: Tokens) {
    exists t :: 0 <= t < |tokens| && Nests(tokens[t], split, segment)
  }

  ghost predicate Nests(token: string, split: string -> Tokens, segment: Tokens) {
    (exists k :: 0 <= k < |token| && token[k] in " \t\n\r") && split(token) != [token] && IsOwn(split(token), segment)
  }

  lemma NestsIff(token: string, split: string -> Tokens, segment: Tokens)
    ensures Nests(token, split, segment) <==>
            HasSpace(token) && split(token) != [token] && segment in Segments(split(token))
  {
    SegmentsAre(split(token), segment);
    hide Segments, IsOwn;
  }

  lemma {:induction false} NestedAre(tokens: Tokens, split: string -> Tokens, segment: Tokens)
    ensures segment in NestedSegments(tokens, split) <==> IsNested(tokens, split, segment)
  {
    hide Segments, Nests, HasSpace;
    if tokens != [] {
      var last := |tokens| - 1;
      NestedAre(tokens[..last], split, segment);
      NestsIff(tokens[last], split, segment);
      assert forall t :: 0 <= t < last ==> tokens[..last][t] == tokens[t];
    }
  }

  /** Some own or nested segment is judged so once peeled. */
  ghost predicate SomeSegment(tokens: Tokens, split: string -> Tokens, actions: set<PolicyAction>) {
    exists segment ::
      (IsOwn(tokens, segment) || IsNested(tokens, split, segment)) && SegmentAction(Peel(segment)) in actions
  }

  /** Some of the segments is judged so. */
  ghost predicate Judges(segments: seq<Tokens>, actions: set<PolicyAction>) {
    exists i :: 0 <= i < |segments| && SegmentAction(Peel(segments[i])) in actions
  }

  lemma StrongestIff(segments: seq<Tokens>)
    ensures Strongest(segments) == Deny <==> Judges(segments, {Deny})
    ensures Strongest(segments) != Allow <==> Judges(segments, {Deny, Ask})
  {
    StrongestIsMax(segments);
    hide SegmentAction, Peel, Strongest;
    if Strongest(segments) != Allow {
      var i :| 0 <= i < |segments| && SegmentAction(Peel(segments[i])) == Strongest(segments);
    }
  }

  lemma JudgesSome(tokens: Tokens, split: string -> Tokens, actions: set<PolicyAction>)
    ensures Judges(Segments(tokens) + NestedSegments(tokens, split), actions) <==> SomeSegment(tokens, split, actions)
  {
    var all := Segments(tokens) + NestedSegments(tokens, split);
    forall segment ensures segment in all <==> IsOwn(tokens, segment) || IsNested(tokens, split, segment) {
      SegmentIn(tokens, split, segment);
    }
    hide *;
    JudgesThose(all, tokens, split, actions);
  }

  lemma JudgesThose(all: seq<Tokens>, tokens: Tokens, split: string -> Tokens, actions: set<PolicyAction>)
    requires forall segment :: segment in all <==> IsOwn(tokens, segment) || IsNested(tokens, split, segment)
    ensures Judges(all, actions) <==> SomeSegment(tokens, split, actions)
  {
    hide SegmentAction, Peel, IsOwn, IsNested;
    if i :| 0 <= i < |all| && SegmentAction(Peel(all[i])) in actions {
      assert all[i] in all;
    }
    if SomeSegment(tokens, split, actions) {
      var segment :|
        (IsOwn(tokens, segment) || IsNested(tokens, split, segment)) && SegmentAction(Peel(segment)) in actions;
      assert segment in all;
    }
  }

  lemma SegmentIn(tokens: Tokens, split: string -> Tokens, segment: Tokens)
    ensures segment in Segments(tokens) + NestedSegments(tokens, split) <==>
      IsOwn(tokens, segment) || IsNested(tokens, split, segment)
  {
    SegmentsAre(tokens, segment);
    NestedAre(tokens, split, segment);
    hide Segments, NestedSegments, IsOwn, IsNested;
  }

  /** A command is denied, or held, by default exactly for one of its own or nested segments. */
  lemma DefaultIff(tokens: Tokens, split: string -> Tokens)
    ensures DefaultAction(tokens, split) == Deny <==> SomeSegment(tokens, split, {Deny})
    ensures DefaultAction(tokens, split) != Allow <==> SomeSegment(tokens, split, {Deny, Ask})
  {
    StrongestIff(Segments(tokens) + NestedSegments(tokens, split));
    JudgesSome(tokens, split, {Deny});
    JudgesSome(tokens, split, {Deny, Ask});
    hide Judges, SomeSegment, Strongest, Segments, NestedSegments;
  }

  /** The whole decision: the defaults', raised by the configured patterns found in the command line. */
  lemma ActionIff(tokens: Tokens, text: string, split: string -> Tokens, deny: seq<string>, ask: seq<string>)
    ensures Action(tokens, text, split, deny, ask) == Deny <==>
      DefaultAction(tokens, split) == Deny || exists p :: p in deny && Contains(text, p)
    ensures Action(tokens, text, split, deny, ask) != Allow <==>
      || DefaultAction(tokens, split) != Allow
      || (exists p :: p in deny && Contains(text, p)) || exists p :: p in ask && Contains(text, p)
  {
    hide DefaultAction, Contains;
    assert forall i :: 0 <= i < |deny| ==> deny[i] in deny;
    assert forall i :: 0 <= i < |ask| ==> ask[i] in ask;
  }

  // ----------------------------------------------------------------- what is peeled away

  lemma WrapperNames()
    ensures NameLike("command") && NameLike("env") && NameLike("nice") && NameLike("nohup") && NameLike("stdbuf")
    ensures NameLike("sudo") && NameLike("time") && NameLike("xargs")
  {
  }

  /** The wrappers, by name. */
  lemma WrapperIff(token: string)
    ensures IsWrapper(token) <==>
      || Invokes(token, "command") || Invokes(token, "env") || Invokes(token, "nice") || Invokes(token, "nohup")
      || Invokes(token, "stdbuf") || Invokes(token, "sudo") || Invokes(token, "time") || Invokes(token, "xargs")
  {
    WrapperNames();
    hide CommandName, Invokes, NameLike;
    CalledIff(token, "command");
    CalledIff(token, "env");
    CalledIff(token, "nice");
    CalledIff(token, "nohup");
    CalledIff(token, "stdbuf");
    CalledIff(token, "sudo");
    CalledIff(token, "time");
    CalledIff(token, "xargs");
  }

  /** The options that take the next token as their value, wrapper by wrapper. */
  lemma ValueOptions(token: string, option: string)
    ensures option in OptionsWithValues(CommandName(token)) <==>
      || (Invokes(token, "env") && option in {"-u", "--unset"})
      || (Invokes(token, "nice") && option in {"-n", "--adjustment"})
      || (Invokes(token, "stdbuf") && option in {"-i", "-o", "-e", "--input", "--output", "--error"})
      || (Invokes(token, "sudo") && option in {"-C", "-g", "-h", "-p", "-T", "-U", "-u"})
      || (Invokes(token, "xargs") && option in {"-E", "-I", "-L", "-P", "-n", "-s"})
  {
    WrapperNames();
    hide CommandName, Invokes, NameLike;
    CalledIff(token, "env");
    CalledIff(token, "nice");
    CalledIff(token, "stdbuf");
    CalledIff(token, "sudo");
    CalledIff(token, "xargs");
  }

  /** An assignment is a name of word characters with `=` after it. */
  lemma AssignmentIff(token: string)
    ensures IsEnvAssignment(token) <==>
      exists k :: 0 < k < |token| && token[k] == '=' && forall i :: 0 <= i < k ==> IsWordChar(token[i])
  {
    NamePart(token);
    var name := BeforeEquals(token);
    hide BeforeEquals;
    if IsEnvAssignment(token) {
      assert token[|name|] == '=';
      assert forall i :: 0 <= i < |name| ==> token[i] == name[i];
    }
    if k :| 0 < k < |token| && token[k] == '=' && forall i :: 0 <= i < k ==> IsWordChar(token[i]) {
      assert IsWordChar(token[0]) && !IsWordChar('-') && !IsWordChar('=');
      assert |name| == k;
      assert forall i :: 0 <= i < |name| ==> token[i] == name[i];
    }
  }

  lemma {:induction false} NamePart(token: string)
    ensures var name := BeforeEquals(token);
      && name <= token && '=' !in name && (|name| < |token| ==> token[|name|] == '=')
      && ('=' in token <==> |name| < |token|)
  {
    if token != "" && token[0] != '=' {
      NamePart(token[1..]);
      assert token == [token[0]] + token[1..];
    }
  }
}
