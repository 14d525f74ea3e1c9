/** Strings as the source uses them: `strip`, `in`, `startswith`, and the decimal text of an id. */
module Text {
  predicate IsSpace(c: char) {
    c in " \t\n\r"
  }

  function TrimLeft(s: string): string {
    if s != "" && IsSpace(s[0]) then TrimLeft(s[1..]) else s
  }

  function TrimRight(s: string): string {
    if s != "" && IsSpace(s[|s| - 1]) then TrimRight(s[..|s| - 1]) else s
  }

  function Strip(s: string): string {
    TrimRight(TrimLeft(s))
  }

  /** Nothing to strip, and something left. */
  predicate Trim(s: string) {
    s != "" && !IsSpace(s[0]) && !IsSpace(s[|s| - 1])
  }

  lemma TrimIsFixed(s: string)
    requires Trim(s)
    ensures Strip(s) == s
  {
  }

  /** What is left is the stretch from the first character that is not white space to the last. */
  lemma {:induction false} StripIs(s: string) returns (i: nat, j: nat)
    ensures i <= j <= |s| && Strip(s) == s[i..j]
    ensures forall k :: 0 <= k < i || j <= k < |s| ==> s[k] in " \t\n\r"
    ensures i < j ==> s[i] !in " \t\n\r" && s[j - 1] !in " \t\n\r"
  {
    i := LeftIs(s);
    var n := RightIs(TrimLeft(s));
    j := i + n;
    assert forall k :: j <= k < |s| ==> s[k] == TrimLeft(s)[k - i];
  }

  lemma {:induction false} LeftIs(s: string) returns (i: nat)
    ensures i <= |s| && TrimLeft(s) == s[i..] && (i < |s| ==> !IsSpace(s[i]))
    ensures forall k :: 0 <= k < i ==> IsSpace(s[k])
  {
    i := 0;
    if s != "" && IsSpace(s[0]) {
      var rest := LeftIs(s[1..]);
      i := rest + 1;
      assert forall k :: 1 <= k < i ==> s[k] == s[1..][k - 1];
    }
  }

  lemma {:induction false} RightIs(s: string) returns (n: nat)
    ensures n <= |s| && TrimRight(s) == s[..n] && (n > 0 ==> !IsSpace(s[n - 1]))
    ensures forall k :: n <= k < |s| ==> IsSpace(s[k])
  {
    n := |s|;
    if s != "" && IsSpace(s[|s| - 1]) {
      n := RightIs(s[..|s| - 1]);
    }
  }

  predicate Blank(s: string) {
    Strip(s) == ""
  }

  /** A string with a character that is not white space is not blank. */
  lemma {:induction false} NotBlank(s: string, i: nat)
    requires i < |s| && !IsSpace(s[i])
    ensures !Blank(s)
  {
    TrimLeftKeeps(s, i);
    var left := TrimLeft(s);
    var k :| 0 <= k < |left| && !IsSpace(left[k]);
    TrimRightKeeps(left, k);
  }

  lemma {:induction false} TrimLeftKeeps(s: string, i: nat)
    requires i < |s| && !IsSpace(s[i])
    ensures exists k :: 0 <= k < |TrimLeft(s)| && !IsSpace(TrimLeft(s)[k])
  {
    if IsSpace(s[0]) {
      TrimLeftKeeps(s[1..], i - 1);
      assert TrimLeft(s) == TrimLeft(s[1..]);
    } else {
      assert TrimLeft(s)[i] == s[i];
    }
  }

  lemma {:induction false} TrimRightKeeps(s: string, i: nat)
    requires i < |s| && !IsSpace(s[i])
    ensures TrimRight(s) != ""
  {
    if IsSpace(s[|s| - 1]) {
      TrimRightKeeps(s[..|s| - 1], i);
    }
  }

  predicate StartsWith(s: string, prefix: string) {
    |prefix| <= |s| && s[..|prefix|] == prefix
  }

  predicate EndsWith(s: string, suffix: string) {
    |suffix| <= |s| && s[|s| - |suffix|..] == suffix
  }

  predicate OccursAt(s: string, part: string, i: int) {
    0 <= i <= |s| - |part| && s[i..i + |part|] == part
  }

  /** Python's `part in s`. */
  predicate Contains(s: string, part: string) {
    exists i | 0 <= i <= |s| :: OccursAt(s, part, i)
  }

  function LowerChar(c: char): char {
    if 'A' <= c <= 'Z' then ((c - 'A') as int + 'a' as int) as char else c
  }

  /** ASCII lower case. */
  function Lower(s: string): string {
    seq(|s|, i requires 0 <= i < |s| => LowerChar(s[i]))
  }

  /** `c` is the lower-case character `low`, or its capital. */
  predicate SameLetter(c: char, low: char) {
    c == low || ('a' <= low <= 'z' && c as int + 32 == low as int)
  }

  predicate SpelledAt(s: string, marker: string, i: nat) {
    i + |marker| <= |s| && forall k :: 0 <= k < |marker| ==> SameLetter(s[i + k], marker[k])
  }

  /** The marker occurs in the text, in any letter case. */
  ghost predicate Spells(s: string, marker: string) {
    exists i: nat :: SpelledAt(s, marker, i)
  }

  lemma ContainsIn(s: string, left: string, right: string, part: string)
    requires Contains(s, part)
    ensures Contains(left + s + right, part)
  {
    var i :| 0 <= i <= |s| && OccursAt(s, part, i);
    var k := |left| + i;
    assert (left + s + right)[k..k + |part|] == s[i..i + |part|];
    assert OccursAt(left + s + right, part, k);
  }

  predicate IsDigit(c: char) {
    '0' <= c <= '9'
  }

  function Digit(d: nat): char
    requires d < 10
  {
    ('0' as int + d) as char
  }

  /** `str(n)` for a row id. */
  function Decimal(n: nat): (s: string)
    ensures s != "" && forall i :: 0 <= i < |s| ==> IsDigit(s[i])
  {
    if n < 10 then [Digit(n)] else Decimal(n / 10) + [Digit(n % 10)]
  }

  /** The number a decimal text stands for. */
  function Value(digits: string): int {
    if digits == "" then 0
    else 10 * Value(digits[..|digits| - 1]) + digits[|digits| - 1] as int - '0' as int
  }

  /** The text of an id stands for it, with no zero in front. */
  lemma {:induction false} DecimalStands(n: nat)
    ensures Value(Decimal(n)) == n && (n > 0 ==> Decimal(n)[0] != '0')
  {
    if n >= 10 {
      DecimalStands(n / 10);
      assert Decimal(n)[..|Decimal(n)| - 1] == Decimal(n / 10);
    } else {
      assert Decimal(n)[..0] == "";
    }
  }

  /** Two ids with the same decimal text are the same id. */
  lemma {:induction false} DecimalInjective(m: nat, n: nat)
    requires Decimal(m) == Decimal(n)
    ensures m == n
  {
    var s := Decimal(m);
    assert m >= 10 <==> |s| >= 2;
    if m >= 10 && n >= 10 {
      assert s[..|s| - 1] == Decimal(m / 10) && s[..|s| - 1] == Decimal(n / 10);
      assert s[|s| - 1] == Digit(m % 10) && s[|s| - 1] == Digit(n % 10);
      DecimalInjective(m / 10, n / 10);
    }
  }

  /** A decimal tail after a `:` marks where the tail starts, so equal texts have equal tails. */
  lemma TailAfterColon(a: string, b: string, m: nat, n: nat)
    requires a + ":" + Decimal(m) == b + ":" + Decimal(n)
    ensures a == b && m == n
  {
    var s, t := a + ":" + Decimal(m), b + ":" + Decimal(n);
    assert s[|a|] == ':' && t[|b|] == ':';
    assert forall i :: |a| < i < |s| ==> s[i] == Decimal(m)[i - |a| - 1];
    assert forall i :: |b| < i < |t| ==> t[i] == Decimal(n)[i - |b| - 1];
    assert |a| == |b|;
    assert a == s[..|a|] && b == t[..|b|];
    assert Decimal(m) == s[|a| + 1..] && Decimal(n) == t[|b| + 1..];
    DecimalInjective(m, n);
  }
}
