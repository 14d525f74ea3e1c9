/** Which calls name a secret, told from their fields and the literal markers, and what the gate makes of it. */
module Secrets {
  import opened Prelude
  import opened Text
  import opened PolicyActions
  import opened ToolCalls
  import opened ActionJournal
  import opened BrokerMachine

  // ------------------------------------------------------------- markers in texts

  ghost predicate NamesSecret(s: string) {
    || Spells(s, ".env") || Spells(s, "auth.json") || Spells(s, "id_rsa") || Spells(s, "private_key")
    || Spells(s, "api_key") || Spells(s, "secret") || Spells(s, "token=") || Spells(s, "_token")
    || Spells(s, "password")
  }

  /** The command is given and not only white space; the argument vector is looked at only without one. */
  predicate HasCommand(args: Arguments) {
    args.command.Some? && exists i :: 0 <= i < |args.command.value| && args.command.value[i] !in " \t\n\r"
  }

  /** A secret is named by the tool's name, by the command or without one by an argument, or by the path. */
  ghost predicate SecretCall(c: ToolCall) {
    || NamesSecret(c.name)
    || NamesSecret(c.args.path)
    || (c.args.command.Some? && NamesSecret(c.args.command.value))
    || (!HasCommand(c.args) && c.args.argv.Some? &&
        exists i :: 0 <= i < |c.args.argv.value| && NamesSecret(c.args.argv.value[i]))
  }

  /** Lower-case text without capitals or white space, as all markers are. */
  predicate MarkerLike(m: string) {
    m != "" && forall k :: 0 <= k < |m| ==> !IsSpace(m[k]) && !('A' <= m[k] <= 'Z')
  }

  lemma LowerContains(s: string, m: string)
    requires MarkerLike(m)
    ensures Contains(Lower(s), m) <==> Spells(s, m)
  {
    var low := Lower(s);
    assert forall c: char, l: char :: !('A' <= l <= 'Z') ==> (LowerChar(c) == l <==> SameLetter(c, l));
    if Contains(low, m) {
      var i :| 0 <= i <= |low| && OccursAt(low, m, i);
      forall k | 0 <= k < |m| ensures SameLetter(s[i + k], m[k]) {
        assert low[i..i + |m|][k] == low[i + k] == LowerChar(s[i + k]);
      }
      assert SpelledAt(s, m, i);
    }
    if i: nat :| SpelledAt(s, m, i) {
      forall k | 0 <= k < |m| ensures low[i..i + |m|][k] == m[k] {
        assert low[i + k] == LowerChar(s[i + k]) && SameLetter(s[i + k], m[k]);
      }
      assert low[i..i + |m|] == m;
      assert OccursAt(low, m, i);
    }
  }

  /** The same stretch elsewhere spells the same. */
  lemma SpelledThere(s: string, i: nat, t: string, j: nat, m: string)
    requires SpelledAt(s, m, i) && j + |m| <= |t| && s[i..i + |m|] == t[j..j + |m|]
    ensures Spells(t, m)
  {
    forall k | 0 <= k < |m| ensures SameLetter(t[j + k], m[k]) {
      assert s[i..i + |m|][k] == t[j..j + |m|][k];
    }
    assert SpelledAt(t, m, j);
  }

  lemma BlankIsNoLetter(m: string, k: nat)
    requires MarkerLike(m) && k < |m|
    ensures !SameLetter(' ', m[k])
  {
  }

  lemma NotAcross(a: string, b: string, m: string, i: nat)
    requires MarkerLike(m) && SpelledAt(a + " " + b, m, i)
    ensures i + |m| <= |a| || |a| < i
  {
    assert (a + " " + b)[|a|] == ' ';
    if i <= |a| < i + |m| {
      BlankIsNoLetter(m, |a| - i);
    }
  }

  /** Where two texts are joined by a blank, a marker lies in the one or in the other. */
  lemma SpellsJoined(a: string, b: string, m: string)
    requires MarkerLike(m)
    ensures Spells(a + " " + b, m) <==> Spells(a, m) || Spells(b, m)
  {
    var s := a + " " + b;
    if i: nat :| SpelledAt(s, m, i) {
      NotAcross(a, b, m, i);
      if i + |m| <= |a| {
        SpelledThere(s, i, a, i, m);
      } else {
        SpelledThere(s, i, b, i - |a| - 1, m);
      }
    }
    if i: nat :| SpelledAt(a, m, i) {
      SpelledThere(a, i, s, i, m);
    }
    if i: nat :| SpelledAt(b, m, i) {
      assert s[|a| + 1..] == b;
      assert s[|a| + 1 + i..|a| + 1 + i + |m|] == b[i..i + |m|];
      SpelledThere(b, i, s, |a| + 1 + i, m);
    }
  }

  /** Some of the texts spells the marker. */
  ghost predicate SomeSpells(parts: seq<string>, m: string) {
    exists i :: 0 <= i < |parts| && Spells(parts[i], m)
  }

  lemma SomeFirst(parts: seq<string>, m: string)
    requires parts != []
    ensures SomeSpells(parts, m) <==> Spells(parts[0], m) || SomeSpells(parts[1..], m)
  {
    if i :| 0 < i < |parts| && Spells(parts[i], m) {
      assert parts[1..][i - 1] == parts[i];
    }
  }

  lemma {:induction false} SpellsWords(words: seq<string>, m: string)
    requires MarkerLike(m)
    ensures Spells(JoinWords(words), m) <==> SomeSpells(words, m)
  {
    if words == [] {
      assert !Spells("", m);
    } else {
      SpellsWords(words[1..], m);
      SomeFirst(words, m);
      if |words| > 1 {
        SpellsJoined(words[0], JoinWords(words[1..]), m);
      }
    }
  }

  lemma {:induction false} SpellsParts(parts: seq<string>, m: string)
    requires MarkerLike(m)
    ensures SomeSpells(NonEmpty(parts), m) <==> SomeSpells(parts, m)
  {
    if parts != [] {
      SpellsParts(parts[1..], m);
      SomeFirst(parts, m);
      assert !Spells("", m);
      if parts[0] != "" {
        SomeFirst(NonEmpty(parts), m);
        assert NonEmpty(parts)[1..] == NonEmpty(parts[1..]);
      } else {
        assert NonEmpty(parts) == NonEmpty(parts[1..]);
      }
    }
  }

  lemma {:induction false} SpellsLeft(s: string, m: string)
    requires MarkerLike(m)
    ensures Spells(TrimLeft(s), m) <==> Spells(s, m)
  {
    if s != "" && IsSpace(s[0]) {
      SpellsLeft(s[1..], m);
      if i: nat :| SpelledAt(s, m, i) {
        assert SameLetter(s[i + 0], m[0]);
        assert i > 0;
        assert SpelledAt(s[1..], m, i - 1);
      }
      if i: nat :| SpelledAt(s[1..], m, i) {
        assert SpelledAt(s, m, i + 1);
      }
    }
  }

  lemma {:induction false} SpellsRight(s: string, m: string)
    requires MarkerLike(m)
    ensures Spells(TrimRight(s), m) <==> Spells(s, m)
  {
    if s != "" && IsSpace(s[|s| - 1]) {
      var rest := s[..|s| - 1];
      SpellsRight(rest, m);
      if i: nat :| SpelledAt(s, m, i) {
        assert SameLetter(s[i + (|m| - 1)], m[|m| - 1]);
        assert i + |m| < |s|;
        assert SpelledAt(rest, m, i);
      }
      if i: nat :| SpelledAt(rest, m, i) {
        assert SpelledAt(s, m, i);
      }
    }
  }

  lemma SpellsStripped(s: string, m: string)
    requires MarkerLike(m)
    ensures Spells(Strip(s), m) <==> Spells(s, m)
  {
    SpellsLeft(s, m);
    SpellsRight(TrimLeft(s), m);
  }

  // ----------------------------------------------------------- what the classifier sees

  lemma {:induction false} AllBlank(s: string)
    ensures Blank(s) <==> forall i :: 0 <= i < |s| ==> s[i] in " \t\n\r"
  {
    if i :| 0 <= i < |s| && s[i] !in " \t\n\r" {
      NotBlank(s, i);
    } else {
      BlankTrims(s);
    }
  }

  lemma {:induction false} BlankTrims(s: string)
    requires forall i :: 0 <= i < |s| ==> IsSpace(s[i])
    ensures TrimLeft(s) == ""
  {
    if s != "" {
      BlankTrims(s[1..]);
    }
  }

  /** The text of a call's command spells what its fields do. */
  lemma CommandSpells(args: Arguments, m: string)
    requires MarkerLike(m)
    ensures var text := CommandText(args);
      Spells(if text.Some? then text.value else "", m) <==>
        || (args.command.Some? && Spells(args.command.value, m))
        || (!HasCommand(args) && args.argv.Some? && SomeSpells(args.argv.value, m))
  {
    assert !Spells("", m);
    if args.command.Some? {
      AllBlank(args.command.value);
      SpellsStripped(args.command.value, m);
    }
    if args.argv.Some? {
      SpellsStripped(JoinWords(args.argv.value), m);
      SpellsWords(args.argv.value, m);
    }
    hide Strip, JoinWords, Spells, MarkerLike, SomeSpells;
  }

  /** One of the call's fields spells the marker. */
  ghost predicate FieldSpells(c: ToolCall, m: string) {
    || Spells(c.name, m)
    || Spells(c.args.path, m)
    || (c.args.command.Some? && Spells(c.args.command.value, m))
    || (!HasCommand(c.args) && c.args.argv.Some? && SomeSpells(c.args.argv.value, m))
  }

  /** The text the markers are looked for in. */
  function Haystack(c: ToolCall): string {
    var text := CommandText(c.args);
    JoinWords(NonEmpty([c.name, if text.Some? then text.value else "", c.args.path]))
  }

  lemma HaystackSpells(c: ToolCall, m: string)
    requires MarkerLike(m)
    ensures Contains(Lower(Haystack(c)), m) <==> FieldSpells(c, m)
  {
    var text := CommandText(c.args);
    var command := if text.Some? then text.value else "";
    var parts := [c.name, command, c.args.path];
    LowerContains(Haystack(c), m);
    SpellsWords(NonEmpty(parts), m);
    SpellsParts(parts, m);
    SomeFirst(parts, m);
    SomeFirst(parts[1..], m);
    SomeFirst(parts[2..], m);
    assert parts[1..] == [command, c.args.path] && parts[2..] == [c.args.path] && parts[3..] == [];
    assert parts[1..][1..] == parts[2..] && parts[2..][1..] == [];
    CommandSpells(c.args, m);
    hide Spells, NonEmpty, JoinWords, CommandText, HasCommand, MarkerLike, Contains, Lower;
  }

  lemma MarkersListed(c: ToolCall)
    ensures LooksSecret(c) <==>
      var low := Lower(Haystack(c));
      || Contains(low, ".env") || Contains(low, "auth.json") || Contains(low, "id_rsa") || Contains(low, "private_key")
      || Contains(low, "api_key") || Contains(low, "secret") || Contains(low, "token=") || Contains(low, "_token")
      || Contains(low, "password")
  {
    hide Contains, Lower, JoinWords, NonEmpty, CommandText;
    var low := Lower(Haystack(c));
    assert SECRET_MARKERS[0] == ".env" && SECRET_MARKERS[1] == "auth.json" && SECRET_MARKERS[2] == "id_rsa";
    assert SECRET_MARKERS[3] == "private_key" && SECRET_MARKERS[4] == "api_key" && SECRET_MARKERS[5] == "secret";
    assert SECRET_MARKERS[6] == "token=" && SECRET_MARKERS[7] == "_token" && SECRET_MARKERS[8] == "password";
  }

  lemma ShortMarkers()
    ensures MarkerLike(".env") && MarkerLike("id_rsa") && MarkerLike("api_key")
  {
  }

  lemma TokenMarkers()
    ensures MarkerLike("token=") && MarkerLike("_token") && MarkerLike("secret")
  {
  }

  lemma FileMarkers()
    ensures MarkerLike("auth.json") && MarkerLike("password")
  {
  }

  lemma KeyMarker()
    ensures MarkerLike("private_key")
  {
  }

  /** The classifier finds a secret exactly in the calls that name one. */
  lemma SecretIff(c: ToolCall)
    ensures LooksSecret(c) <==> SecretCall(c)
  {
    MarkersListed(c);
    ShortMarkers();
    TokenMarkers();
    FileMarkers();
    KeyMarker();
    HaystackSpells(c, ".env");
    HaystackSpells(c, "auth.json");
    HaystackSpells(c, "id_rsa");
    HaystackSpells(c, "private_key");
    HaystackSpells(c, "api_key");
    HaystackSpells(c, "secret");
    HaystackSpells(c, "token=");
    HaystackSpells(c, "_token");
    HaystackSpells(c, "password");
    hide Spells, LooksSecret, Lower, Contains, Haystack, MarkerLike, HasCommand;
  }

  /** A call beside a command keeps its argument vector to itself: no marker in it is looked for. */
  lemma ArgvBesideCommand(c: ToolCall, argv: seq<string>)
    requires HasCommand(c.args)
    ensures SecretCall(c.(args := c.args.(argv := Some(argv)))) <==> SecretCall(c)
  {
    hide NamesSecret;
  }

  // ------------------------------------------------------------------------ the gate

  /** What the gate decides, in terms of the policy's answer, the tier and the call's fields. */
  lemma GateIff(c: ToolCall, policy: PolicyAction)
    ensures Forbidden(c) <==> SecretCall(c) || c.tier == Destructive
    ensures EffectivePolicy(c, policy) == Deny <==> policy == Deny || SecretCall(c) || c.tier == Destructive
    ensures BlockedStatus(c, EffectivePolicy(c, policy)) ==
      if policy == Deny || SecretCall(c) || c.tier == Destructive then Some(PolicyDenied)
      else if policy == Ask || c.tier != Read then Some(NeedsApproval)
      else None
  {
    SecretIff(c);
    hide LooksSecret, SecretCall, CommandText;
  }

  /** Whatever the history, no attempt that carries a call naming a secret, or a destructive one, is at its executor. */
  lemma SecretsNeverExecute(labels: seq<Label>, a: nat)
    requires a in Run(InitialMachine, labels).live && Executing(Run(InitialMachine, labels).live[a])
    ensures var g := Run(InitialMachine, labels).live[a];
      !SecretCall(g.call) && g.call.tier != Destructive && (g.approval.None? ==> g.call.tier == Read)
  {
    var g := Run(InitialMachine, labels).live[a];
    GateIff(g.call, Allow);
    hide Run, Forbidden, SecretCall;
    OnlySafeCallsExecute(labels, a);
  }

  // ----------------------------------------------------------------- the risk columns

  /** The call has a command to run: one that is not blank, or without one an argument that is not. */
  predicate HasText(args: Arguments) {
    HasCommand(args) ||
    (args.argv.Some? && exists i :: 0 <= i < |args.argv.value| && !AllSpace(args.argv.value[i]))
  }

  predicate AllSpace(s: string) {
    forall i :: 0 <= i < |s| ==> s[i] in " \t\n\r"
  }

  lemma SpaceJoined(a: string, b: string)
    ensures AllSpace(a + " " + b) <==> AllSpace(a) && AllSpace(b)
  {
    var s := a + " " + b;
    assert forall i :: 0 <= i < |a| ==> s[i] == a[i];
    forall i | 0 <= i < |b| ensures s[|a| + 1 + i] == b[i] {
    }
    if AllSpace(s) {
      forall i | 0 <= i < |b| ensures b[i] in " \t\n\r" {
        assert s[|a| + 1 + i] in " \t\n\r";
      }
    }
  }

  lemma {:induction false} JoinedBlank(words: seq<string>)
    ensures Blank(JoinWords(words)) <==> forall i :: 0 <= i < |words| ==> AllSpace(words[i])
  {
    AllBlank(JoinWords(words));
    if words != [] {
      JoinedBlank(words[1..]);
      AllBlank(JoinWords(words[1..]));
      SpaceJoined(words[0], JoinWords(words[1..]));
      hide Blank;
      assert forall i :: 1 <= i < |words| ==> words[i] == words[1..][i - 1];
    }
  }

  lemma TextIff(args: Arguments)
    ensures CommandText(args).Some? <==> HasText(args)
  {
    if args.command.Some? {
      AllBlank(args.command.value);
    }
    if args.argv.Some? {
      JoinedBlank(args.argv.value);
    }
    hide JoinWords, Strip;
  }

  /** The class of a call, which its record stores, in terms of the call's fields. */
  lemma ClassIs(c: ToolCall)
    ensures Classify(c) == SecretSensitive <==> SecretCall(c)
    ensures Classify(c) == Dangerous <==> !SecretCall(c) && c.tier == Destructive
    ensures Classify(c) == VerificationAction <==>
      && !SecretCall(c) && c.tier != Destructive
      && (c.actionType == Some("verification_command") || "verification." <= c.name)
    ensures Classify(c) in {GitAction, ShellAction} <==>
      && !SecretCall(c) && c.tier != Destructive && HasText(c.args)
      && c.actionType != Some("verification_command") && !("verification." <= c.name)
    ensures Classify(c) == NetworkAction ==> c.tier == Network && !HasText(c.args)
    ensures Classify(c) == WriteAction ==> c.tier == Write && !HasText(c.args)
    ensures Classify(c) == ReadAction ==> c.tier == Read && !HasText(c.args)
  {
    SecretIff(c);
    TextIff(c.args);
    hide LooksSecret, SecretCall, CommandText, HasText, Lower, FirstCommandToken;
  }

  /** A git command is told by its first word, in any letter case: that of the argument vector before the command's. */
  lemma GitIff(c: ToolCall)
    requires Classify(c) in {GitAction, ShellAction}
    ensures c.args.argv.Some? && c.args.argv.value != [] ==>
      (Classify(c) == GitAction <==> IsGit(Strip(c.args.argv.value[0])))
    ensures c.args.argv.None? && c.args.command.Some? ==>
      (Classify(c) == GitAction <==> IsGit(FirstWord(Strip(c.args.command.value))))
  {
    TextIff(c.args);
    hide LooksSecret, Strip, FirstWord, HasText;
    forall s: string ensures Lower(s) == "git" <==> IsGit(s) {
      LowerIsGit(s);
    }
  }

  predicate IsGit(s: string) {
    |s| == 3 && SameLetter(s[0], 'g') && SameLetter(s[1], 'i') && SameLetter(s[2], 't')
  }

  lemma LowerIsGit(s: string)
    ensures Lower(s) == "git" <==> IsGit(s)
  {
    if |s| == 3 {
      assert Lower(s) == [LowerChar(s[0]), LowerChar(s[1]), LowerChar(s[2])];
    }
  }
}
