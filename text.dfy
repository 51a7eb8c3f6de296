/**
 * String operations of JavaScript's `String.prototype` that the model needs:
 * substring search, `split`/`join`, `trim`, ASCII case folding, integer
 * printing and parsing, and character replacement.
 */
module Text {
  import opened Wrappers

  /** `sub` occurs in `s` starting at index `i`. */
  predicate OccursAt(s: string, sub: string, i: nat) {
    i + |sub| <= |s| && s[i..i + |sub|] == sub
  }

  /** Index of the first occurrence of `sub` in `s` (`indexOf`), or None (`-1`). */
  function IndexOf(s: string, sub: string): (r: Option<nat>)
    ensures r.Some? ==> OccursAt(s, sub, r.value)
    ensures r.Some? ==> forall i: nat :: i < r.value ==> !OccursAt(s, sub, i)
    ensures r.None? ==> forall i: nat :: !OccursAt(s, sub, i)
    decreases |s|
  {
    if |s| < |sub| then
      assert forall i: nat :: !OccursAt(s, sub, i);
      None
    else if s[..|sub|] == sub then Some(0)
    else
      var rest := IndexOf(s[1..], sub);
      assert forall i: nat :: 0 < i ==> (OccursAt(s, sub, i) <==> OccursAt(s[1..], sub, i - 1)) by {
        forall i: nat | 0 < i ensures OccursAt(s, sub, i) <==> OccursAt(s[1..], sub, i - 1) {
          OccursShift(s, sub, i);
        }
      }
      if rest.Some? then Some(rest.value + 1) else None
  }

  /** An occurrence at `i > 0` is an occurrence at `i - 1` in the tail. */
  lemma OccursShift(s: string, sub: string, i: nat)
    requires 0 < i && s != []
    ensures OccursAt(s, sub, i) <==> OccursAt(s[1..], sub, i - 1)
  {
    if i + |sub| <= |s| {
      assert s[i..i + |sub|] == s[1..][i - 1..i - 1 + |sub|];
    }
  }

  /** `s.includes(sub)`. */
  predicate Contains(s: string, sub: string) {
    IndexOf(s, sub).Some?
  }

  lemma ContainsMeans(s: string, sub: string)
    ensures Contains(s, sub) <==> exists i: nat :: OccursAt(s, sub, i)
  {
  }

  /** ASCII upper case letters are mapped to lower case; every other character is kept. */
  function LowerChar(c: char): char {
    if 'A' <= c <= 'Z' then (c as int - 'A' as int + 'a' as int) as char else c
  }

  /** `s.toLowerCase()` restricted to ASCII letters. */
  function Lower(s: string): (r: string)
    ensures |r| == |s|
    ensures forall i :: 0 <= i < |s| ==> r[i] == LowerChar(s[i])
  {
    if s == [] then [] else [LowerChar(s[0])] + Lower(s[1..])
  }

  /** The characters `String.prototype.trim` removes (the Unicode space separators other than U+00A0 are left out). */
  predicate IsWhitespace(c: char) {
    c == ' ' || c == '\t' || c == '\n' || c == '\r' || c == '\U{000B}' || c == '\U{000C}'
    || c == '\U{00A0}' || c == '\U{FEFF}' || c == '\U{2028}' || c == '\U{2029}'
  }

  /** Number of whitespace characters at the start of `s`. */
  function LeadingSpace(s: string): (n: nat)
    ensures n <= |s|
    ensures forall i :: 0 <= i < n ==> IsWhitespace(s[i])
    ensures n < |s| ==> !IsWhitespace(s[n])
  {
    if s != [] && IsWhitespace(s[0]) then 1 + LeadingSpace(s[1..]) else 0
  }

  /** Number of whitespace characters at the end of `s`. */
  function TrailingSpace(s: string): (m: nat)
    ensures m <= |s|
    ensures forall i :: |s| - m <= i < |s| ==> IsWhitespace(s[i])
    ensures m < |s| ==> !IsWhitespace(s[|s| - m - 1])
  {
    if s != [] && IsWhitespace(s[|s| - 1]) then 1 + TrailingSpace(s[..|s| - 1]) else 0
  }

  /** `s.trim()`: the longest infix of `s` that neither starts nor ends with whitespace. */
  function Trim(s: string): (r: string)
    ensures exists k: nat :: OccursAt(s, r, k)
    ensures r != [] ==> !IsWhitespace(r[0]) && !IsWhitespace(r[|r| - 1])
    ensures r == [] <==> forall i :: 0 <= i < |s| ==> IsWhitespace(s[i])
  {
    var n := LeadingSpace(s);
    if n == |s| then
      assert OccursAt(s, [], 0);
      []
    else
      var m := TrailingSpace(s);
      assert |s| - m > n;
      assert OccursAt(s, s[n..|s| - m], n);
      s[n..|s| - m]
  }

  /** `parts.join(sep)`. */
  function Join(parts: seq<string>, sep: string): string {
    if parts == [] then ""
    else if |parts| == 1 then parts[0]
    else parts[0] + sep + Join(parts[1..], sep)
  }

  /** `s.split(sep)` for a non-empty separator. */
  function Split(s: string, sep: string): (r: seq<string>)
    requires sep != ""
    ensures |r| >= 1
    decreases |s|
  {
    match IndexOf(s, sep)
    case None => [s]
    case Some(q) => [s[..q]] + Split(s[q + |sep|..], sep)
  }

  /** Joining the pieces of a split with the same separator gives back the string. */
  lemma {:induction false} JoinSplit(s: string, sep: string)
    requires sep != ""
    ensures Join(Split(s, sep), sep) == s
    decreases |s|
  {
    match IndexOf(s, sep)
    case None =>
    case Some(q) =>
      var rest := s[q + |sep|..];
      var tail := Split(rest, sep);
      JoinSplit(rest, sep);
      var parts := [s[..q]] + tail;
      assert Split(s, sep) == parts;
      assert |parts| >= 2 && parts[0] == s[..q] && parts[1..] == tail;
      assert Join(parts, sep) == s[..q] + sep + Join(tail, sep);
      OccurrenceSplits(s, sep, q);
  }

  /** A string is the text before an occurrence, the occurrence and the text after it. */
  lemma OccurrenceSplits(s: string, sub: string, q: nat)
    requires OccursAt(s, sub, q)
    ensures s == s[..q] + sub + s[q + |sub|..]
  {
    assert s == s[..q] + s[q..q + |sub|] + s[q + |sub|..];
  }

  /** No piece of a split contains the separator. */
  lemma {:induction false} SplitPiecesFree(s: string, sep: string)
    requires sep != ""
    ensures forall p :: p in Split(s, sep) ==> !Contains(p, sep)
    decreases |s|
  {
    match IndexOf(s, sep)
    case None =>
    case Some(q) =>
      var head := s[..q];
      SplitPiecesFree(s[q + |sep|..], sep);
      assert Split(s, sep) == [head] + Split(s[q + |sep|..], sep);
      HeadFree(s, sep, q);
  }

  /** The text before the first occurrence of `sep` does not contain `sep`. */
  lemma HeadFree(s: string, sep: string, q: nat)
    requires sep != "" && IndexOf(s, sep) == Some(q)
    ensures !Contains(s[..q], sep)
  {
    var head := s[..q];
    if Contains(head, sep) {
      var i := IndexOf(head, sep).value;
      assert head[i..i + |sep|] == s[i..i + |sep|];
      assert OccursAt(s, sep, i);
      assert false;
    }
  }

  /** A string without the (one-character) separator splits into itself alone. */
  lemma SplitWithout(s: string, c: char)
    requires c !in s
    ensures Split(s, [c]) == [s]
  {
    forall i: nat | i + 1 <= |s| ensures !OccursAt(s, [c], i) {
      assert s[i..i + 1][0] == s[i];
    }
  }

  /** Splitting `a + [c] + b` on `c`, where `a` has no `c`, cuts at the end of `a`. */
  lemma SplitAt(a: string, c: char, b: string)
    requires c !in a
    ensures Split(a + [c] + b, [c]) == [a] + Split(b, [c])
  {
    var s := a + [c] + b;
    assert OccursAt(s, [c], |a|);
    forall i: nat | i < |a| ensures !OccursAt(s, [c], i) {
      assert s[i..i + 1][0] == s[i] == a[i];
    }
    assert IndexOf(s, [c]) == Some(|a|);
    assert s[..|a|] == a;
    assert s[|a| + 1..] == b;
  }

  /** Decimal digit of a number below ten. */
  function DigitChar(d: nat): char
    requires d < 10
  {
    ('0' as int + d) as char
  }

  predicate IsDigit(c: char) {
    '0' <= c <= '9'
  }

  function DigitValue(c: char): nat
    requires IsDigit(c)
  {
    c as int - '0' as int
  }

  /** `String(n)` for a natural number: its decimal digits, most significant first, no leading zeros. */
  function NatToString(n: nat): (r: string)
    ensures |r| >= 1
    ensures forall i :: 0 <= i < |r| ==> IsDigit(r[i])
  {
    if n < 10 then [DigitChar(n)] else NatToString(n / 10) + [DigitChar(n % 10)]
  }

  /** `String(n)` for any integer: a leading '-' for negative numbers. */
  function IntToString(n: int): string {
    if n < 0 then "-" + NatToString(-n) else NatToString(n)
  }

  /** The value of a non-empty run of decimal digits. */
  function DigitsValue(s: string): nat
    requires forall i :: 0 <= i < |s| ==> IsDigit(s[i])
  {
    if s == [] then 0 else DigitsValue(s[..|s| - 1]) * 10 + DigitValue(s[|s| - 1])
  }

  /** `parseInt(s, 10)` on a string that is entirely decimal digits; None stands for NaN. */
  function ParseNat(s: string): Option<nat> {
    if s != [] && forall i :: 0 <= i < |s| ==> IsDigit(s[i]) then Some(DigitsValue(s)) else None
  }

  /** Number of decimal digits at the start of `s`. */
  function LeadingDigits(s: string): (n: nat)
    ensures n <= |s|
    ensures forall i :: 0 <= i < n ==> IsDigit(s[i])
    ensures n < |s| ==> !IsDigit(s[n])
  {
    if s != [] && IsDigit(s[0]) then 1 + LeadingDigits(s[1..]) else 0
  }

  /**
   * `parseInt(s, 10)`: leading whitespace is skipped, one sign is read, and
   * then the longest run of digits; None stands for NaN (no digit there).
   */
  function ParseInt(s: string): (r: Option<int>)
    ensures r.Some? ==> exists i :: 0 <= i < |s| && IsDigit(s[i])
  {
    var t := s[LeadingSpace(s)..];
    var unsigned := if t != [] && (t[0] == '-' || t[0] == '+') then t[1..] else t;
    var n := LeadingDigits(unsigned);
    if n == 0 then None
    else
      assert IsDigit(s[|s| - |unsigned|]);
      var magnitude: int := DigitsValue(unsigned[..n]);
      Some(if t != [] && t[0] == '-' then -magnitude else magnitude)
  }

  /** A run of digits followed by anything that does not start with a digit reads as the run alone. */
  lemma ParseIntPrefix(digits: string, rest: string)
    requires digits != [] && forall i :: 0 <= i < |digits| ==> IsDigit(digits[i])
    requires rest == [] || !IsDigit(rest[0])
    ensures ParseInt(digits + rest) == Some(DigitsValue(digits))
  {
    var s := digits + rest;
    assert s[0] == digits[0] && IsDigit(s[0]);
    assert LeadingSpace(s) == 0;
    assert s[0..] == s;
    LeadingDigitsOf(digits, rest);
    assert s[..|digits|] == digits;
  }

  /** The leading digits of a run of digits followed by a non-digit are the run. */
  lemma {:induction false} LeadingDigitsOf(digits: string, rest: string)
    requires forall i :: 0 <= i < |digits| ==> IsDigit(digits[i])
    requires rest == [] || !IsDigit(rest[0])
    ensures LeadingDigits(digits + rest) == |digits|
  {
    if digits != [] {
      LeadingDigitsOf(digits[1..], rest);
      assert (digits + rest)[1..] == digits[1..] + rest;
    } else {
      assert digits + rest == rest;
    }
  }

  /** On a string of digits alone `parseInt` agrees with the strict reading. */
  lemma ParseIntDigits(s: string)
    requires ParseNat(s).Some?
    ensures ParseInt(s) == Some(ParseNat(s).value)
  {
    assert s + [] == s;
    ParseIntPrefix(s, []);
  }

  /** Reading back a printed number gives the number. */
  lemma {:induction false} ParseNatToString(n: nat)
    ensures ParseNat(NatToString(n)) == Some(n)
  {
    var s := NatToString(n);
    DigitsOfNat(n);
  }

  lemma {:induction false} DigitsOfNat(n: nat)
    ensures DigitsValue(NatToString(n)) == n
  {
    var s := NatToString(n);
    if n < 10 {
      assert s[..0] == [];
    } else {
      DigitsOfNat(n / 10);
      assert s[..|s| - 1] == NatToString(n / 10);
    }
  }

  /** Every occurrence of character `c` replaced by `rep` (`s.replace(/c/g, rep)`). */
  function ReplaceAll(s: string, c: char, rep: string): (r: string)
    ensures c !in s ==> r == s
  {
    if s == [] then []
    else (if s[0] == c then rep else [s[0]]) + ReplaceAll(s[1..], c, rep)
  }

  /** `s.replace(c, d)` with a one-character string pattern: only the first occurrence is replaced. */
  function ReplaceFirst(s: string, c: char, d: char): (r: string)
    ensures |r| == |s|
    ensures c !in s ==> r == s
    ensures c in s ==> exists k :: 0 <= k < |s| && s[k] == c && c !in s[..k] && r == s[..k] + [d] + s[k + 1..]
  {
    match IndexOf(s, [c])
    case None =>
      assert c !in s by {
        if c in s {
          var k :| 0 <= k < |s| && s[k] == c;
          assert OccursAt(s, [c], k);
        }
      }
      s
    case Some(k) =>
      assert s[k] == c by { assert s[k..k + 1] == [c]; }
      assert c !in s[..k] by {
        if c in s[..k] {
          var j :| 0 <= j < k && s[..k][j] == c;
          assert OccursAt(s, [c], j);
        }
      }
      s[..k] + [d] + s[k + 1..]
  }

  /** Number of occurrences of character `c` in `s`. */
  function CountChar(s: string, c: char): nat {
    if s == [] then 0 else (if s[0] == c then 1 else 0) + CountChar(s[1..], c)
  }

  lemma {:induction false} CountCharAppend(a: string, b: string, c: char)
    ensures CountChar(a + b, c) == CountChar(a, c) + CountChar(b, c)
  {
    if a != [] {
      assert (a + b)[0] == a[0];
      assert (a + b)[1..] == a[1..] + b;
      CountCharAppend(a[1..], b, c);
    } else {
      assert a + b == b;
    }
  }

  lemma {:induction false} CountCharAbsent(s: string, c: char)
    requires c !in s
    ensures CountChar(s, c) == 0
  {
    if s != [] {
      CountCharAbsent(s[1..], c);
    }
  }

  /** Concatenation of a sequence of strings. */
  function Concat(parts: seq<string>): string {
    if parts == [] then "" else Concat(parts[..|parts| - 1]) + parts[|parts| - 1]
  }

  /** Extending the parts by one appends that part. */
  lemma ConcatSnoc(parts: seq<string>, k: nat)
    requires k < |parts|
    ensures Concat(parts[..k + 1]) == Concat(parts[..k]) + parts[k]
  {
    assert parts[..k + 1][..k] == parts[..k];
  }

  /** When every part holds exactly one `c`, the concatenation holds one per part. */
  lemma {:induction false} ConcatCountOne(parts: seq<string>, c: char)
    requires forall i :: 0 <= i < |parts| ==> CountChar(parts[i], c) == 1
    ensures CountChar(Concat(parts), c) == |parts|
  {
    if parts != [] {
      var init := parts[..|parts| - 1];
      assert forall i :: 0 <= i < |init| ==> init[i] == parts[i];
      ConcatCountOne(init, c);
      CountCharAppend(Concat(init), parts[|parts| - 1], c);
    }
  }

  /** A character found in neither the parts nor the separator is not in their join. */
  lemma {:induction false} JoinAvoids(parts: seq<string>, sep: string, c: char)
    requires c !in sep
    requires forall i :: 0 <= i < |parts| ==> c !in parts[i]
    ensures c !in Join(parts, sep)
  {
    if |parts| > 1 {
      JoinAvoids(parts[1..], sep, c);
    }
  }

  /** A string occurs in any string built around it. */
  lemma ContainsInfix(a: string, b: string, c: string)
    ensures Contains(a + b + c, b)
  {
    assert OccursAt(a + b + c, b, |a|) by {
      assert (a + b + c)[|a|..|a| + |b|] == b;
    }
    ContainsMeans(a + b + c, b);
  }

  /** An occurrence survives appending text after it. */
  lemma ContainsBefore(t: string, c: string, sub: string)
    requires Contains(t, sub)
    ensures Contains(t + c, sub)
  {
    ContainsMeans(t, sub);
    var i: nat :| OccursAt(t, sub, i);
    assert (t + c)[i..i + |sub|] == t[i..i + |sub|];
    assert OccursAt(t + c, sub, i);
    ContainsMeans(t + c, sub);
  }

  /** An occurrence survives putting text in front of it. */
  lemma ContainsAfter(a: string, t: string, sub: string)
    requires Contains(t, sub)
    ensures Contains(a + t, sub)
  {
    ContainsMeans(t, sub);
    var i: nat :| OccursAt(t, sub, i);
    assert (a + t)[|a| + i..|a| + i + |sub|] == t[i..i + |sub|];
    assert OccursAt(a + t, sub, |a| + i);
    ContainsMeans(a + t, sub);
  }

  /** `acc += part` for each part in order: the accumulation loop of the string builders. */
  method AppendEach(acc: string, parts: seq<string>) returns (r: string)
    ensures r == acc + Concat(parts)
  {
    r := acc;
    var i := 0;
    while i < |parts|
      invariant 0 <= i <= |parts|
      invariant r == acc + Concat(parts[..i])
    {
      r := r + parts[i];
      ConcatSnoc(parts, i);
      i := i + 1;
    }
    assert parts[..|parts|] == parts;
  }
}
