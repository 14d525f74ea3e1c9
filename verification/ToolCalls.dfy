/** Tool calls and how an action is classified before the broker gates it. */
module ToolCalls {
  import opened Prelude
  import opened Text

  datatype Tier = Read | Write | Network | Destructive

  datatype ActionClass =
    | ReadAction | WriteAction | ShellAction | GitAction | NetworkAction
    | VerificationAction | Dangerous | SecretSensitive

  /** The arguments the classification looks at. */
  datatype Arguments = Arguments(command: Option<string>, argv: Option<seq<string>>, path: string)

  datatype ToolCall = ToolCall(
    name: string, tier: Tier, actionType: Option<string>, key: string,
    args: Arguments, task: string, iteration: Option<nat>)

  /** What the constructors of a call accept. */
  predicate ValidCall(c: ToolCall) {
    !Blank(c.name) && !Blank(c.key) && (c.actionType.Some? ==> !Blank(c.actionType.value))
  }

  const VERIFICATION_COMMAND := "verification_command"
  const VERIFICATION_PREFIX := "verification."

  const SECRET_MARKERS: seq<string> :=
    [".env", "auth.json", "id_rsa", "private_key", "api_key", "secret", "token=", "_token", "password"]

  function ResolvedActionType(c: ToolCall): string {
    if c.actionType.Some? then c.actionType.value else c.name
  }

  function JoinWords(words: seq<string>): string {
    if words == [] then ""
    else if |words| == 1 then words[0]
    else words[0] + " " + JoinWords(words[1..])
  }

  function CommandText(args: Arguments): Option<string> {
    if args.command.Some? && !Blank(args.command.value) then Some(Strip(args.command.value))
    else if args.argv.Some? then
      var joined := Strip(JoinWords(args.argv.value));
      if joined == "" then None else Some(joined)
    else None
  }

  function FirstWord(s: string): string {
    if s == "" || IsSpace(s[0]) then "" else [s[0]] + FirstWord(s[1..])
  }

  function FirstCommandToken(args: Arguments, text: string): string {
    if args.argv.Some? && args.argv.value != [] then Lower(Strip(args.argv.value[0]))
    else Lower(FirstWord(text))
  }

  predicate LooksSecret(c: ToolCall) {
    var text := CommandText(c.args);
    var parts := [c.name, if text.Some? then text.value else "", c.args.path];
    var haystack := Lower(JoinWords(NonEmpty(parts)));
    exists i | 0 <= i < |SECRET_MARKERS| :: Contains(haystack, SECRET_MARKERS[i])
  }

  function NonEmpty(parts: seq<string>): seq<string> {
    if parts == [] then []
    else (if parts[0] == "" then [] else [parts[0]]) + NonEmpty(parts[1..])
  }

  predicate IsVerification(c: ToolCall) {
    c.actionType == Some(VERIFICATION_COMMAND) || StartsWith(c.name, VERIFICATION_PREFIX)
  }

  /** The class of a call that is neither secret, destructive nor a verification. */
  function PlainClass(tier: Tier, args: Arguments): (r: ActionClass)
    ensures r !in {VerificationAction, Dangerous, SecretSensitive}
  {
    var text := CommandText(args);
    if text.Some? then
      if FirstCommandToken(args, text.value) == "git" then GitAction else ShellAction
    else if tier == Network then NetworkAction
    else if tier == Write then WriteAction
    else ReadAction
  }

  /** `classify_tool_action`. */
  function Classify(c: ToolCall): ActionClass {
    if LooksSecret(c) then SecretSensitive
    else if c.tier == Destructive then Dangerous
    else if IsVerification(c) then VerificationAction
    else PlainClass(c.tier, c.args)
  }

  predicate Forbidden(c: ToolCall) {
    Classify(c) in {Dangerous, SecretSensitive}
  }

  /** Every destructive call is forbidden. */
  lemma DestructiveForbidden(c: ToolCall)
    ensures c.tier == Destructive ==> Forbidden(c)
  {
  }
}
