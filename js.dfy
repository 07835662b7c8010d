/** The few JavaScript built-ins the modelled code relies on: truthiness of request
    fields, String.prototype.trim / includes / toLowerCase / replace, Math.round and
    Number.prototype.toFixed(2), all stated on Dafny strings and exact reals. */
module Js {
  import opened Wrappers

  // ---------------------------------------------------------------------------
  // Truthiness (`!x` in the route handlers)

  /** A string request field is truthy iff it was sent and is not the empty string. */
  predicate TruthyString(f: Option<string>) {
    f.Some? && f.value != ""
  }

  /** A numeric request field is truthy iff it was sent and is not zero
      (NaN cannot arrive through JSON). */
  predicate TruthyNumber(f: Option<real>) {
    f.Some? && f.value != 0.0
  }

  // ---------------------------------------------------------------------------
  // String.prototype.trim

  /** WhiteSpace and LineTerminator code points of ECMAScript (section 12.2 and 12.3
      of ECMA-262): tab, VT, FF, space, NBSP, ZWNBSP, the Zs category, LF, CR, LS, PS. */
  predicate IsWhitespace(c: char) {
    c == '\t' || c == '\n' || c == '\U{000B}' || c == '\U{000C}' || c == '\r' || c == ' '
    || c == '\U{00A0}' || c == '\U{1680}' || ('\U{2000}' <= c <= '\U{200A}')
    || c == '\U{2028}' || c == '\U{2029}' || c == '\U{202F}' || c == '\U{205F}'
    || c == '\U{3000}' || c == '\U{FEFF}'
  }

  /** True when every character of `s` is whitespace (the empty string included). */
  predicate IsBlank(s: string) {
    forall k :: 0 <= k < |s| ==> IsWhitespace(s[k])
  }

  /** Drops the leading whitespace: the result is a suffix of `s`, does not start with
      whitespace, and everything dropped was whitespace. */
  function TrimStart(s: string): (r: string)
    ensures |r| <= |s| && r == s[|s| - |r|..]
    ensures r == [] || !IsWhitespace(r[0])
    ensures IsBlank(s[..|s| - |r|])
  {
    if s != [] && IsWhitespace(s[0]) then
      var r := TrimStart(s[1..]);
      assert s[1..][..|s| - 1 - |r|] == s[1..|s| - |r|];
      r
    else s
  }

  /** Drops the trailing whitespace: the result is a prefix of `s`, does not end with
      whitespace, and everything dropped was whitespace. */
  function TrimEnd(s: string): (r: string)
    ensures |r| <= |s| && r == s[..|r|]
    ensures r == [] || !IsWhitespace(r[|r| - 1])
    ensures IsBlank(s[|r|..])
  {
    if s != [] && IsWhitespace(s[|s| - 1]) then
      var r := TrimEnd(s[..|s| - 1]);
      assert s[..|s| - 1][|r|..] == s[|r|..|s| - 1];
      assert s[|r|..] == s[|r|..|s| - 1] + [s[|s| - 1]];
      r
    else s
  }

  /** `s.trim()`: no whitespace at either end, empty exactly when `s` is blank, and
      what is left of `s` after dropping its leading whitespace is `r` followed by
      whitespace only. */
  function Trim(s: string): (r: string)
    ensures |r| <= |s|
    ensures r <= TrimStart(s)
    ensures IsBlank(TrimStart(s)[|r|..])
    ensures r == [] || (!IsWhitespace(r[0]) && !IsWhitespace(r[|r| - 1]))
    ensures r == [] <==> IsBlank(s)
  {
    var a := TrimStart(s);
    var r := TrimEnd(a);
    if r == [] then
      assert s == s[..|s| - |a|] + a && a == a[|r|..];
      r
    else
      r
  }

  // ---------------------------------------------------------------------------
  // String.prototype.includes

  /** `sub` occurs in `s` starting at position `i`. */
  predicate OccursAt(sub: string, s: string, i: nat) {
    i + |sub| <= |s| && s[i..i + |sub|] == sub
  }

  /** `sub` occurs in `s` at some position: the meaning of `s.includes(sub)`. */
  ghost predicate OccursIn(sub: string, s: string) {
    exists i: nat :: OccursAt(sub, s, i)
  }

  /** An occurrence in the tail of `s` is an occurrence in `s` one position later. */
  lemma OccursAtTail(sub: string, s: string, i: nat)
    requires s != []
    ensures OccursAt(sub, s[1..], i) <==> OccursAt(sub, s, i + 1)
  {
    if i + 1 + |sub| <= |s| {
      assert s[1..][i..i + |sub|] == s[i + 1..i + 1 + |sub|];
    }
  }

  /** `s.includes(sub)`, computed by trying each start position from the left;
      it agrees with `OccursIn`. */
  function Includes(s: string, sub: string): (r: bool)
    ensures r <==> OccursIn(sub, s)
    decreases |s|
  {
    if |sub| > |s| then
      assert forall i: nat :: !OccursAt(sub, s, i);
      false
    else if sub <= s then
      assert OccursAt(sub, s, 0);
      true
    else
      var r := Includes(s[1..], sub);
      assert !OccursAt(sub, s, 0);
      assert r ==> OccursIn(sub, s) by {
        if r {
          var j: nat :| OccursAt(sub, s[1..], j);
          OccursAtTail(sub, s, j);
        }
      }
      assert OccursIn(sub, s) ==> r by {
        if OccursIn(sub, s) {
          var j: nat :| OccursAt(sub, s, j);
          OccursAtTail(sub, s, j - 1);
        }
      }
      r
  }

  /** Every string includes the empty string. */
  lemma IncludesEmpty(s: string)
    ensures Includes(s, "")
  {
    assert OccursAt("", s, 0);
  }

  // ---------------------------------------------------------------------------
  // String.prototype.toLowerCase (ASCII letters)

  function LowerChar(c: char): (d: char)
    ensures 'A' <= c <= 'Z' ==> 'a' <= d <= 'z'
    ensures !('A' <= c <= 'Z') ==> d == c
  {
    if 'A' <= c <= 'Z' then (c as int - 'A' as int + 'a' as int) as char else c
  }

  /** `s.toLowerCase()`: same length, upper-case ASCII letters mapped to lower case,
      every other character kept; applying it twice changes nothing more. */
  function ToLowerCase(s: string): (r: string)
    ensures |r| == |s|
    ensures forall k :: 0 <= k < |s| ==> r[k] == LowerChar(s[k])
  {
    seq(|s|, k requires 0 <= k < |s| => LowerChar(s[k]))
  }

  lemma {:induction false} ToLowerCaseIdempotent(s: string)
    ensures ToLowerCase(ToLowerCase(s)) == ToLowerCase(s)
  {
    var once := ToLowerCase(s);
    var twice := ToLowerCase(once);
    forall k | 0 <= k < |s| ensures twice[k] == once[k] {
      assert once[k] == LowerChar(s[k]);
    }
  }

  // ---------------------------------------------------------------------------
  // String.prototype.replace with a one-character string pattern

  /** Position of the first `c` in `s`, or |s| when there is none. */
  function IndexOf(s: string, c: char): (i: nat)
    ensures i <= |s|
    ensures forall k :: 0 <= k < i ==> s[k] != c
    ensures i < |s| ==> s[i] == c
  {
    if s == [] then 0 else if s[0] == c then 0 else 1 + IndexOf(s[1..], c)
  }

  /** `s.replace(from, to)` for one-character strings: only the first occurrence is
      replaced. */
  function ReplaceFirst(s: string, from: char, to: char): (r: string)
    ensures |r| == |s|
    ensures from !in s ==> r == s
    ensures from in s ==> r == s[IndexOf(s, from) := to]
  {
    var i := IndexOf(s, from);
    if i == |s| then
      assert from !in s;
      s
    else s[i := to]
  }

  /** When the first `from` is at position `i`, the replacement happens there. */
  lemma ReplaceFirstAt(s: string, from: char, to: char, i: nat)
    requires i < |s| && s[i] == from && forall k :: 0 <= k < i ==> s[k] != from
    ensures ReplaceFirst(s, from, to) == s[i := to]
  {
  }

  // ---------------------------------------------------------------------------
  // Math.round and Number.prototype.toFixed(2), on exact reals

  /** `Math.round(x)`: the nearest integer, ties towards positive infinity. */
  function Round(x: real): (n: int)
    ensures x - 0.5 < n as real <= x + 0.5
  {
    (x + 0.5).Floor
  }

  /** `Math.round(Number(amount) * 100)`: an amount in the smallest currency unit. */
  function MinorUnits(amount: real): (n: int)
    ensures amount * 100.0 - 0.5 < n as real <= amount * 100.0 + 0.5
  {
    Round(amount * 100.0)
  }

  function DigitChar(d: nat): char
    requires d < 10
  {
    "0123456789"[d]
  }

  /** Decimal digits of `n`, most significant first, no leading zero. */
  function NatToString(n: nat): (s: string)
    ensures |s| >= 1
    ensures forall k :: 0 <= k < |s| ==> '0' <= s[k] <= '9'
  {
    if n < 10 then [DigitChar(n)] else NatToString(n / 10) + [DigitChar(n % 10)]
  }

  /** `x.toFixed(2)` for |x| < 10^21: a sign for negative x, the integer part, a point
      and two decimals, rounding half away from zero. */
  function ToFixed2(x: real): (s: string)
    ensures |s| >= 4 && s[|s| - 3] == '.'
    ensures '0' <= s[|s| - 2] <= '9' && '0' <= s[|s| - 1] <= '9'
  {
    var n := ((if x < 0.0 then -x else x) * 100.0 + 0.5).Floor;
    var cents: nat := n;
    (if x < 0.0 then "-" else "") + NatToString(cents / 100) + "." + [DigitChar(cents % 100 / 10), DigitChar(cents % 10)]
  }

  /** `Number(amount).toFixed(2)` for a field that may be absent: Number(undefined) is NaN. */
  function FormatAmount(amount: Option<real>): (s: string)
    ensures amount.None? ==> s == "NaN"
    ensures amount.Some? ==> |s| >= 4 && s[|s| - 3] == '.' && '0' <= s[|s| - 2] <= '9' && '0' <= s[|s| - 1] <= '9'
  {
    match amount
    case None => "NaN"
    case Some(x) => ToFixed2(x)
  }
}
