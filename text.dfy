/** The JavaScript string operations the dashboard and the chat function rely
    on: `toLowerCase` on ASCII letters, `includes`, the regular-expression
    character classes `\s` and `\w`, `String(n)` for integers, `parseInt`,
    and `Array.prototype.join`. */
module Text {
  import opened Wrappers

  // ---------------------------------------------------------------------
  // Case

  /** `toLowerCase` on one character; only ASCII letters are mapped. */
  function LowerChar(c: char): char {
    if 'A' <= c <= 'Z' then (c as int + 32) as char else c
  }

  function Lower(s: string): string {
    seq(|s|, i requires 0 <= i < |s| => LowerChar(s[i]))
  }

  /** Two characters are equal when ASCII letter case is ignored (the `i`
      flag of a non-Unicode JavaScript regular expression on ASCII text). */
  predicate SameIgnoringCase(a: char, b: char) {
    LowerChar(a) == LowerChar(b)
  }

  predicate NoUpperAscii(s: string) {
    forall i :: 0 <= i < |s| ==> !('A' <= s[i] <= 'Z')
  }

  lemma LowerIsLower(s: string)
    ensures NoUpperAscii(Lower(s))
  {
  }

  // ---------------------------------------------------------------------
  // Substrings

  predicate StartsWith(s: string, p: string) {
    |p| <= |s| && s[..|p|] == p
  }

  /** `t` occurs in `s` starting at index `i`. */
  predicate OccursAt(s: string, t: string, i: int) {
    0 <= i && i + |t| <= |s| && s[i..i + |t|] == t
  }

  /** The three parts of a concatenation are found at their offsets. */
  lemma ConcatParts(a: string, b: string, c: string)
    ensures StartsWith(a + b + c, a)
    ensures OccursAt(a + b + c, b, |a|)
    ensures OccursAt(a + b + c, c, |a| + |b|)
  {
    var r := a + b + c;
    assert r[..|a|] == a;
    assert r[|a|..|a| + |b|] == b;
    assert r[|a| + |b|..|a| + |b| + |c|] == c;
  }

  lemma StartsWithConcat(s: string, t: string, p: string)
    requires StartsWith(s, p)
    ensures StartsWith(s + t, p)
  {
    assert (s + t)[..|p|] == s[..|p|];
  }

  /** `String.prototype.includes`: a scan from the left. */
  predicate Contains(s: string, t: string)
    decreases |s|
  {
    StartsWith(s, t) || (s != [] && Contains(s[1..], t))
  }

  /** The scan finds `t` exactly when `t` occurs somewhere in `s`. */
  lemma {:induction false} ContainsIffOccurs(s: string, t: string)
    ensures Contains(s, t) <==> exists i :: OccursAt(s, t, i)
    decreases |s|
  {
    if s != [] {
      ContainsIffOccurs(s[1..], t);
      if Contains(s[1..], t) {
        var i :| OccursAt(s[1..], t, i);
        assert s[1..][i..i + |t|] == s[i + 1..i + 1 + |t|];
        assert OccursAt(s, t, i + 1);
      }
      if i :| OccursAt(s, t, i) {
        if i > 0 {
          assert s[1..][i - 1..i - 1 + |t|] == s[i..i + |t|];
          assert OccursAt(s[1..], t, i - 1);
        } else {
          assert StartsWith(s, t);
        }
      }
    } else {
      if i :| OccursAt(s, t, i) {
        assert |t| == 0 && s[..|t|] == t;
      }
    }
    if StartsWith(s, t) {
      assert OccursAt(s, t, 0);
    }
  }

  /** Searching a lower-cased string for a lower-case needle is the same as
      searching the original string letter by letter ignoring case. */
  lemma LowerContainsIffCaseless(s: string, p: string)
    requires NoUpperAscii(p)
    ensures Contains(Lower(s), p) <==>
            exists i :: 0 <= i && i + |p| <= |s| && CaselessAt(s, p, i)
  {
    ContainsIffOccurs(Lower(s), p);
    if i :| OccursAt(Lower(s), p, i) {
      OccursInLowerIsCaseless(s, p, i);
    }
    if i :| 0 <= i && i + |p| <= |s| && CaselessAt(s, p, i) {
      CaselessOccursInLower(s, p, i);
    }
  }

  lemma OccursInLowerIsCaseless(s: string, p: string, i: int)
    requires OccursAt(Lower(s), p, i)
    ensures i + |p| <= |s| && CaselessAt(s, p, i)
  {
    var w := Lower(s)[i..i + |p|];
    forall k | 0 <= k < |p|
      ensures SameIgnoringCase(s[i + k], p[k])
    {
      assert w[k] == p[k];
    }
  }

  lemma CaselessOccursInLower(s: string, p: string, i: int)
    requires NoUpperAscii(p)
    requires 0 <= i && i + |p| <= |s| && CaselessAt(s, p, i)
    ensures OccursAt(Lower(s), p, i)
  {
    var w := Lower(s)[i..i + |p|];
    forall k | 0 <= k < |p|
      ensures w[k] == p[k]
    {
      assert SameIgnoringCase(s[i + k], p[k]);
      assert LowerChar(p[k]) == p[k];
    }
  }

  /** `p` matches `s` at `i` letter by letter, ignoring ASCII case. */
  predicate CaselessAt(s: string, p: string, i: int)
    requires 0 <= i && i + |p| <= |s|
  {
    forall k :: 0 <= k < |p| ==> SameIgnoringCase(s[i + k], p[k])
  }

  // ---------------------------------------------------------------------
  // Regular-expression character classes

  /** `\s`: ECMAScript WhiteSpace and LineTerminator characters (also the
      characters `parseInt` skips). */
  predicate IsSpace(c: char) {
    c in "\t\n\U{B}\U{C}\r \U{A0}\U{1680}\U{2028}\U{2029}\U{202F}\U{205F}\U{3000}\U{FEFF}"
    || '\U{2000}' <= c <= '\U{200A}'
  }

  /** `\w`: ASCII letters, digits and underscore. */
  predicate IsWordChar(c: char) {
    'a' <= c <= 'z' || 'A' <= c <= 'Z' || '0' <= c <= '9' || c == '_'
  }

  /** `\s` and `\w` are disjoint. */
  lemma WordCharNotSpace(c: char)
    requires IsWordChar(c)
    ensures !IsSpace(c)
  {
  }

  /** Length of the longest run of characters satisfying `p` that starts at
      `i`: what a greedy `p*` consumes. */
  function RunLength(s: string, i: nat, p: char -> bool): (n: nat)
    requires i <= |s|
    ensures i + n <= |s|
    ensures forall k :: i <= k < i + n ==> p(s[k])
    ensures i + n < |s| ==> !p(s[i + n])
    decreases |s| - i
  {
    if i < |s| && p(s[i]) then 1 + RunLength(s, i + 1, p) else 0
  }

  /** When every character from `i` on satisfies `p`, the run reaches the end. */
  lemma {:induction false} RunLengthOfAll(s: string, i: nat, p: char -> bool)
    requires i <= |s|
    requires forall k :: i <= k < |s| ==> p(s[k])
    ensures RunLength(s, i, p) == |s| - i
    decreases |s| - i
  {
    if i < |s| {
      RunLengthOfAll(s, i + 1, p);
    }
  }

  // ---------------------------------------------------------------------
  // Numbers as text

  predicate IsDecimalDigit(c: char) {
    '0' <= c <= '9'
  }

  function DigitChar(d: nat): char
    requires d < 10
  {
    "0123456789"[d]
  }

  /** `String(n)` for a non-negative integer: decimal digits without a
      leading zero. */
  function NatToString(n: nat): (s: string)
    ensures |s| >= 1
    ensures forall i :: 0 <= i < |s| ==> IsDecimalDigit(s[i])
    ensures s[0] == '0' <==> n == 0
    ensures |s| > 1 ==> n >= 10
  {
    if n < 10 then [DigitChar(n)] else NatToString(n / 10) + [DigitChar(n % 10)]
  }

  /** `String(i)` for an integer (template literals print numbers this way). */
  function IntToString(i: int): (s: string)
    ensures |s| >= 1
  {
    if i < 0 then "-" + NatToString(-i) else NatToString(i)
  }

  /** The value of a hexadecimal or decimal digit, or -1. */
  function DigitValue(c: char): int {
    if '0' <= c <= '9' then c as int - '0' as int
    else if 'a' <= c <= 'f' then c as int - 'a' as int + 10
    else if 'A' <= c <= 'F' then c as int - 'A' as int + 10
    else -1
  }

  predicate IsDigitIn(c: char, radix: nat) {
    0 <= DigitValue(c) < radix
  }

  /** The number a string of digits denotes in `radix`. */
  function DigitsValue(ds: string, radix: nat): (v: int)
    requires forall i :: 0 <= i < |ds| ==> IsDigitIn(ds[i], radix)
    ensures v >= 0
    decreases |ds|
  {
    if ds == [] then 0
    else
      assert IsDigitIn(ds[|ds| - 1], radix);
      var d := DigitValue(ds[|ds| - 1]);
      var w := DigitsValue(ds[..|ds| - 1], radix);
      assert w * radix >= 0;
      w * radix + d
  }

  /** The digits `parseInt` reads in `radix` from the start of `v`: `None`
      (`NaN`) when `v` does not start with a digit. */
  function LeadingNumber(v: string, radix: nat): Option<int> {
    var n := RunLength(v, 0, c => IsDigitIn(c, radix));
    if n == 0 then None else Some(DigitsValue(v[..n], radix))
  }

  /** The global `parseInt(s)` without a radix: skip leading white space,
      read an optional sign, read base 16 after a `0x`/`0X` prefix and base
      10 otherwise, and stop at the first non-digit. `None` is `NaN`: no
      digit was found. */
  function ParseInt(s: string): Option<int> {
    var t := s[RunLength(s, 0, IsSpace)..];
    var negative := t != [] && t[0] == '-';
    var u := if t != [] && (t[0] == '-' || t[0] == '+') then t[1..] else t;
    var hex := |u| >= 2 && u[0] == '0' && (u[1] == 'x' || u[1] == 'X');
    match LeadingNumber(if hex then u[2..] else u, if hex then 16 else 10)
    case None => None
    case Some(value) => Some(if negative then -value else value)
  }

  lemma {:induction false} DigitsOfNat(n: nat)
    ensures forall i :: 0 <= i < |NatToString(n)| ==> IsDigitIn(NatToString(n)[i], 10)
    ensures DigitsValue(NatToString(n), 10) == n
  {
    var s := NatToString(n);
    if n >= 10 {
      DigitsOfNat(n / 10);
      assert s[..|s| - 1] == NatToString(n / 10);
    }
  }

  /** `parseInt` reads all of a printed natural number. */
  lemma LeadingNumberOfNat(n: nat)
    ensures LeadingNumber(NatToString(n), 10) == Some(n)
  {
    var u := NatToString(n);
    DigitsOfNat(n);
    RunLengthOfAll(u, 0, c => IsDigitIn(c, 10));
    assert u[..|u|] == u;
  }

  lemma NoLeadingSpace(s: string)
    requires s != [] && !IsSpace(s[0])
    ensures s[RunLength(s, 0, IsSpace)..] == s
  {
  }

  /** Reading a printed integer back with `parseInt` gives the integer. */
  lemma ParseIntRoundTrip(i: int)
    ensures ParseInt(IntToString(i)) == Some(i)
  {
    var m: nat := if i < 0 then -i else i;
    var s := IntToString(i);
    assert IsDecimalDigit(NatToString(m)[0]);
    assert !IsSpace(s[0]);
    NoLeadingSpace(s);
    LeadingNumberOfNat(m);
    if i < 0 {
      assert s[1..] == NatToString(m);
    }
  }

  // ---------------------------------------------------------------------
  // Joining

  /** `Array.prototype.join(sep)`. */
  function Join(parts: seq<string>, sep: string): string
    decreases |parts|
  {
    if |parts| == 0 then ""
    else if |parts| == 1 then parts[0]
    else parts[0] + sep + Join(parts[1..], sep)
  }

  /** A join of a non-empty list starts with its first element, so it is
      non-empty when that element is. */
  lemma JoinStartsWithFirst(parts: seq<string>, sep: string)
    requires |parts| > 0
    ensures StartsWith(Join(parts, sep), parts[0])
  {
  }
}
