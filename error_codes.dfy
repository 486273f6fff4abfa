/**
 * The error classification of `handleFacebookError`: which code to switch on, and
 * what each code leads to.
 */
module ErrorCodes {
  import opened Options
  import opened Notices

  predicate IsDigit(c: char) {
    '0' <= c <= '9'
  }

  predicate AllDigits(ds: string) {
    forall i :: 0 <= i < |ds| ==> IsDigit(ds[i])
  }

  /** The number a string of decimal digits denotes (PHP compares numeric strings by value). */
  function DecimalValue(ds: string): nat
    requires AllDigits(ds)
  {
    if ds == [] then 0
    else DecimalValue(ds[..|ds| - 1]) * 10 + (ds[|ds| - 1] as int - '0' as int)
  }

  /** The decimal numeral of n, as the SDK writes a code into a message. */
  function Numeral(n: nat): (ds: string)
    ensures |ds| >= 1 && AllDigits(ds)
  {
    var last := ('0' as int + n % 10) as char;
    if n < 10 then [last] else Numeral(n / 10) + [last]
  }

  lemma {:induction false} NumeralValue(n: nat)
    ensures DecimalValue(Numeral(n)) == n
  {
    var ds := Numeral(n);
    if n >= 10 {
      NumeralValue(n / 10);
      assert ds[..|ds| - 1] == Numeral(n / 10);
    }
  }

  /** Length of the maximal run of digits starting at p. */
  function DigitRun(s: string, p: nat): (n: nat)
    requires p <= |s|
    ensures p + n <= |s|
    ensures forall j :: p <= j < p + n ==> IsDigit(s[j])
    ensures p + n == |s| || !IsDigit(s[p + n])
    decreases |s| - p
  {
    if p < |s| && IsDigit(s[p]) then 1 + DigitRun(s, p + 1) else 0
  }

  /** `^\(#(?<code>\d+)\)` matches msg with a code of k digits. */
  ghost predicate CodePrefix(msg: string, k: nat) {
    && 2 + k < |msg|
    && msg[0] == '(' && msg[1] == '#'
    && 1 <= k
    && (forall j :: 2 <= j < 2 + k ==> IsDigit(msg[j]))
    && msg[2 + k] == ')'
  }

  lemma CodePrefixIsDigitRun(msg: string, k: nat)
    requires CodePrefix(msg, k)
    ensures k == DigitRun(msg, 2)
  {
  }

  /** The code captured from an exception message, or None when the pattern does not match. */
  function CodeInMessage(msg: string): (r: Option<nat>)
    ensures r.Some? <==> exists k: nat :: CodePrefix(msg, k)
    ensures forall k: nat :: CodePrefix(msg, k) ==> AllDigits(msg[2..2 + k]) && r == Some(DecimalValue(msg[2..2 + k]))
  {
    if |msg| >= 2 && msg[0] == '(' && msg[1] == '#' then
      var n := DigitRun(msg, 2);
      if 1 <= n && 2 + n < |msg| && msg[2 + n] == ')' then
        assert CodePrefix(msg, n);
        assert forall k: nat :: CodePrefix(msg, k) ==> k == n by {
          forall k: nat | CodePrefix(msg, k) ensures k == n { CodePrefixIsDigitRun(msg, k); }
        }
        Some(DecimalValue(msg[2..2 + n]))
      else
        assert forall k: nat :: !CodePrefix(msg, k) by {
          forall k: nat | CodePrefix(msg, k) ensures false { CodePrefixIsDigitRun(msg, k); }
        }
        None
    else None
  }

  /** A message that starts with `(#<numeral>)` yields that number back. */
  lemma {:induction false} CodeRoundTrip(n: nat, rest: string)
    ensures CodeInMessage("(#" + Numeral(n) + ")" + rest) == Some(n)
  {
    var ds := Numeral(n);
    var msg := "(#" + ds + ")" + rest;
    assert msg[2..2 + |ds|] == ds;
    assert CodePrefix(msg, |ds|);
    NumeralValue(n);
  }

  /**
   * The value `handleFacebookError` switches on: `getCode()` unless it is 0, in which
   * case the code in the message; None stands for PHP's null when the message has no
   * code, which matches no case label.
   */
  function EffectiveCode(e: FacebookError): (c: Option<int>)
    ensures e.code != 0 ==> c == Some(e.code)
    ensures e.code == 0 ==> (c.Some? <==> exists k: nat :: CodePrefix(e.message, k))
    ensures e.code == 0 && c.Some? ==> c.value >= 0
    ensures e.code == 0 ==> forall k: nat :: CodePrefix(e.message, k) ==>
      AllDigits(e.message[2..2 + k]) && c == Some(DecimalValue(e.message[2..2 + k]))
  {
    if e.code != 0 then Some(e.code)
    else match CodeInMessage(e.message)
      case Some(n) => Some(n)
      case None => None
  }

  /** An SDK exception with code 0 and a `(#n)` message is handled as code n. */
  lemma ZeroCodeReadsMessage(n: nat, rest: string)
    ensures EffectiveCode(FacebookError(0, "(#" + Numeral(n) + ")" + rest)) == Some(n)
  {
    CodeRoundTrip(n, rest);
  }

  /** The branches of the switch. Every one of them dequeues the notice. */
  datatype Handling = InvalidParameter | PermissionRevoked | RateLimited | Unrecognised

  function Classify(code: Option<int>): (h: Handling)
    ensures h == PermissionRevoked <==> code == Some(200) || code == Some(250)
    ensures h == InvalidParameter <==> code == Some(100)
    ensures h == RateLimited <==> code == Some(341)
    ensures code.None? ==> h == Unrecognised
  {
    match code
    case Some(100) => InvalidParameter
    case Some(200) => PermissionRevoked
    case Some(250) => PermissionRevoked
    case Some(341) => RateLimited
    case _ => Unrecognised
  }

  /** The error makes `handleFacebookError` call `disconnect`. */
  predicate Revokes(e: FacebookError) {
    Classify(EffectiveCode(e)) == PermissionRevoked
  }
}
