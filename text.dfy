/**
 * The JavaScript string operations the components use: case mapping,
 * `includes`, `trim`, `parseInt`, `slice` and `Number.prototype.toString(base)`.
 * Strings are sequences of characters; case mapping covers ASCII letters only.
 */
module Text {
  import opened Wrappers

  // ---------------------------------------------------------------- whitespace

  /** The characters `String.prototype.trim` and `parseInt` skip: the
      ECMAScript WhiteSpace and LineTerminator productions. */
  predicate IsJsWhitespace(c: char) {
    || c == '\t' || c == '\n' || c == '\U{000B}' || c == '\U{000C}' || c == '\r'
    || c == ' ' || c == '\U{00A0}' || c == '\U{1680}'
    || ('\U{2000}' <= c <= '\U{200A}')
    || c == '\U{2028}' || c == '\U{2029}' || c == '\U{202F}' || c == '\U{205F}'
    || c == '\U{3000}' || c == '\U{FEFF}'
  }

  /** Drops leading whitespace: what is dropped is all whitespace and what is
      left does not start with whitespace. */
  function TrimStart(s: string): (r: string)
    ensures |r| <= |s| && r == s[|s| - |r|..]
    ensures forall i :: 0 <= i < |s| - |r| ==> IsJsWhitespace(s[i])
    ensures r == [] || !IsJsWhitespace(r[0])
    decreases |s|
  {
    if |s| > 0 && IsJsWhitespace(s[0]) then TrimStart(s[1..]) else s
  }

  /** Drops trailing whitespace, symmetrically to TrimStart. */
  function TrimEnd(s: string): (r: string)
    ensures |r| <= |s| && r == s[..|r|]
    ensures forall i :: |r| <= i < |s| ==> IsJsWhitespace(s[i])
    ensures r == [] || !IsJsWhitespace(r[|r| - 1])
    decreases |s|
  {
    if |s| > 0 && IsJsWhitespace(s[|s| - 1]) then TrimEnd(s[..|s| - 1]) else s
  }

  /** `s.trim()` */
  function Trim(s: string): string {
    TrimEnd(TrimStart(s))
  }

  /** `!s.trim()` holds exactly when every character of `s` is whitespace. */
  lemma TrimEmptyIffBlank(s: string)
    ensures Trim(s) == "" <==> forall i :: 0 <= i < |s| ==> IsJsWhitespace(s[i])
  {
    var t := TrimStart(s);
    if Trim(s) == "" {
      forall i | 0 <= i < |s| ensures IsJsWhitespace(s[i]) { }
    } else {
      var r := Trim(s);
      assert r[0] == t[0];
      assert !IsJsWhitespace(t[0]);
      assert t[0] == s[|s| - |t|];
    }
  }

  // ---------------------------------------------------------------- case mapping

  function LowerChar(c: char): char {
    if 'A' <= c <= 'Z' then (c as int + 32) as char else c
  }

  function UpperChar(c: char): char {
    if 'a' <= c <= 'z' then (c as int - 32) as char else c
  }

  /** `s.toLowerCase()` on ASCII letters. */
  function ToLowerCase(s: string): (r: string)
    ensures |r| == |s|
    ensures forall i :: 0 <= i < |s| ==> r[i] == LowerChar(s[i])
    decreases |s|
  {
    if s == [] then [] else [LowerChar(s[0])] + ToLowerCase(s[1..])
  }

  /** `s.toUpperCase()` on ASCII letters. */
  function ToUpperCase(s: string): (r: string)
    ensures |r| == |s|
    ensures forall i :: 0 <= i < |s| ==> r[i] == UpperChar(s[i])
    decreases |s|
  {
    if s == [] then [] else [UpperChar(s[0])] + ToUpperCase(s[1..])
  }

  /** Lower-casing twice is lower-casing once. */
  lemma ToLowerCaseIdempotent(s: string)
    ensures ToLowerCase(ToLowerCase(s)) == ToLowerCase(s)
  {
    var l := ToLowerCase(s);
    assert forall i :: 0 <= i < |l| ==> LowerChar(l[i]) == l[i];
  }

  /** Two strings that differ only in the case of ASCII letters upper-case alike. */
  lemma ToUpperCaseOfLower(s: string)
    ensures ToUpperCase(ToLowerCase(s)) == ToUpperCase(s)
  {
    var l := ToLowerCase(s);
    assert forall i :: 0 <= i < |s| ==> UpperChar(l[i]) == UpperChar(s[i]);
  }

  // ---------------------------------------------------------------- includes

  /** `sub` occurs in `s` starting at index `i`. */
  predicate OccursAt(s: string, sub: string, i: int) {
    0 <= i && i + |sub| <= |s| && s[i..i + |sub|] == sub
  }

  /** `s.includes(sub)`: `sub` starts at some position of `s`. */
  predicate Includes(s: string, sub: string)
    decreases |s|
  {
    sub <= s || (|s| > 0 && Includes(s[1..], sub))
  }

  /** Includes means an occurrence at some index, and every occurrence is found. */
  lemma {:induction false} IncludesIffOccurs(s: string, sub: string)
    ensures Includes(s, sub) <==> exists i :: OccursAt(s, sub, i)
    decreases |s|
  {
    if sub <= s {
      assert OccursAt(s, sub, 0);
    } else if |s| > 0 {
      IncludesIffOccurs(s[1..], sub);
      if Includes(s[1..], sub) {
        var i :| OccursAt(s[1..], sub, i);
        assert s[i + 1..i + 1 + |sub|] == s[1..][i..i + |sub|];
        assert OccursAt(s, sub, i + 1);
      }
      if exists i :: OccursAt(s, sub, i) {
        var i :| OccursAt(s, sub, i);
        assert i != 0;
        assert s[1..][i - 1..i - 1 + |sub|] == s[i..i + |sub|];
        assert OccursAt(s[1..], sub, i - 1);
      }
    }
  }

  /** Every string includes the empty string, so an empty search term matches everything. */
  lemma IncludesEmpty(s: string)
    ensures Includes(s, "")
  {
  }

  // ---------------------------------------------------------------- slice

  /** `s.slice(0, n)` for n >= 0 */
  function SliceFront(s: string, n: nat): (r: string)
    ensures |r| == if n <= |s| then n else |s|
    ensures r <= s
  {
    if n <= |s| then s[..n] else s
  }

  /** `s.slice(-n)` for n > 0: the last n characters, or all of `s` if shorter. */
  function SliceBack(s: string, n: nat): (r: string)
    ensures |r| == if n <= |s| then n else |s|
    ensures r == s[|s| - |r|..]
  {
    if n <= |s| then s[|s| - n..] else s
  }

  // ---------------------------------------------------------------- digits

  /** The digit characters of bases up to 16, lower-case as JavaScript writes them. */
  function DigitChar(d: nat): char
    requires d < 16
  {
    if d < 10 then ('0' as int + d) as char else ('a' as int + d - 10) as char
  }

  /** The value of a digit character, or -1 for any other character. */
  function DigitOf(c: char): (d: int)
    ensures -1 <= d < 16
    ensures 0 <= d ==> DigitChar(d) == c
  {
    if '0' <= c <= '9' then c as int - '0' as int
    else if 'a' <= c <= 'f' then c as int - 'a' as int + 10
    else -1
  }

  predicate IsDigit(c: char, base: nat) {
    0 <= DigitOf(c) < base
  }

  predicate AllDigits(s: string, base: nat) {
    forall i :: 0 <= i < |s| ==> IsDigit(s[i], base)
  }

  /** The number a digit string denotes, most significant digit first. */
  function ValueOf(s: string, base: nat): nat
    requires AllDigits(s, base)
    decreases |s|
  {
    if s == [] then 0 else ValueOf(s[..|s| - 1], base) * base + DigitOf(s[|s| - 1])
  }

  /** `n.toString(base)`: the digits of n, most significant first. */
  function NatToDigits(n: nat, base: nat): (r: string)
    requires 2 <= base <= 16
    ensures |r| > 0 && AllDigits(r, base)
    decreases n
  {
    if n < base then
      SingleDigit(n, base);
      [DigitChar(n)]
    else
      var front := NatToDigits(n / base, base);
      ModBound(n, base);
      AppendDigit(front, n % base, base);
      front + [DigitChar(n % base)]
  }

  /** The digits of n denote n. */
  lemma {:induction false} NatToDigitsValue(n: nat, base: nat)
    requires 2 <= base <= 16
    ensures ValueOf(NatToDigits(n, base), base) == n
    decreases n
  {
    if n < base {
      SingleDigit(n, base);
    } else {
      var front := NatToDigits(n / base, base);
      ModBound(n, base);
      assert NatToDigits(n, base) == front + [DigitChar(n % base)];
      DivModSplit(n, base);
      NatToDigitsValue(n / base, base);
      AppendLastDigit(front, n, base);
    }
  }

  /** The only digit string that starts with '0' is "0". */
  lemma {:induction false} NatToDigitsNoLeadingZero(n: nat, base: nat)
    requires 2 <= base <= 16
    ensures |NatToDigits(n, base)| > 1 ==> NatToDigits(n, base)[0] != '0'
    decreases n
  {
    if n >= base {
      var front := NatToDigits(n / base, base);
      ModBound(n, base);
      assert NatToDigits(n, base) == front + [DigitChar(n % base)];
      DivModSplit(n, base);
      if n / base < base {
        assert front == [DigitChar(n / base)];
        DigitRoundTrip(n / base);
      } else {
        NatToDigitsNoLeadingZero(n / base, base);
      }
    }
  }

  lemma DigitRoundTrip(d: nat)
    requires d < 16
    ensures DigitOf(DigitChar(d)) == d
  {
  }

  lemma ModBound(n: nat, base: nat)
    requires 2 <= base
    ensures n % base < base
  {
  }

  /** A single digit denotes itself. */
  lemma SingleDigit(d: nat, base: nat)
    requires d < base <= 16
    ensures AllDigits([DigitChar(d)], base) && ValueOf([DigitChar(d)], base) == d
  {
    AppendDigit([], d, base);
    assert [] + [DigitChar(d)] == [DigitChar(d)];
  }

  lemma DivModSplit(n: nat, base: nat)
    requires 2 <= base <= n
    ensures (n / base) * base + n % base == n
    ensures 1 <= n / base < n
  {
  }

  /** Appending the last digit of n to the digits of n / base gives the digits of n. */
  lemma AppendLastDigit(front: string, n: nat, base: nat)
    requires 2 <= base <= 16 && AllDigits(front, base) && ValueOf(front, base) == n / base
    ensures AllDigits(front + [DigitChar(n % base)], base)
    ensures ValueOf(front + [DigitChar(n % base)], base) == n
  {
    var q, r := n / base, n % base;
    ModBound(n, base);
    AppendDigit(front, r, base);
    DivModIdentity(n, base);
    assert ValueOf(front + [DigitChar(r)], base) == q * base + r;
  }

  lemma DivModIdentity(n: nat, base: nat)
    requires 2 <= base
    ensures (n / base) * base + n % base == n
  {
  }

  /** Appending a digit multiplies by the base and adds the digit. */
  lemma AppendDigit(front: string, d: nat, base: nat)
    requires d < base <= 16 && AllDigits(front, base)
    ensures AllDigits(front + [DigitChar(d)], base)
    ensures ValueOf(front + [DigitChar(d)], base) == ValueOf(front, base) * base + d
  {
    DigitRoundTrip(d);
    var r := front + [DigitChar(d)];
    assert r[..|r| - 1] == front;
  }

  /** `n.toString()` */
  function DecimalString(n: nat): string {
    NatToDigits(n, 10)
  }

  /** `n.toString(16)` */
  function HexString(n: nat): string {
    NatToDigits(n, 16)
  }

  /** The longest prefix of `s` made of digits of `base`. */
  function LeadingDigits(s: string, base: nat): (r: string)
    ensures r <= s && AllDigits(r, base)
    ensures |r| == |s| || !IsDigit(s[|r|], base)
    decreases |s|
  {
    if |s| > 0 && IsDigit(s[0], base) then [s[0]] + LeadingDigits(s[1..], base) else []
  }

  /** `parseInt(s)` with base 10: leading whitespace, an optional sign, then
      the longest run of decimal digits; None stands for NaN. */
  function ParseInt(s: string): (r: Option<int>)
    ensures r.None? <==> LeadingDigits(SignStripped(TrimStart(s)), 10) == []
  {
    var t := TrimStart(s);
    var ds := LeadingDigits(SignStripped(t), 10);
    if ds == [] then None
    else
      var v: int := ValueOf(ds, 10);
      if |t| > 0 && t[0] == '-' then Some(-v) else Some(v)
  }

  function SignStripped(t: string): string {
    if |t| > 0 && (t[0] == '-' || t[0] == '+') then t[1..] else t
  }

  /** A digit string is its own longest digit prefix. */
  lemma {:induction false} LeadingDigitsOfDigits(s: string, base: nat)
    requires AllDigits(s, base)
    ensures LeadingDigits(s, base) == s
    decreases |s|
  {
    if |s| > 0 {
      LeadingDigitsOfDigits(s[1..], base);
    }
  }

  /** A non-empty digit string parses to the number it denotes. */
  lemma ParseIntOfDigits(s: string)
    requires |s| > 0 && AllDigits(s, 10)
    ensures ParseInt(s) == Some(ValueOf(s, 10))
  {
    assert !IsJsWhitespace(s[0]) by { assert IsDigit(s[0], 10); }
    assert TrimStart(s) == s;
    assert SignStripped(s) == s;
    LeadingDigitsOfDigits(s, 10);
  }

  /** `parseInt(String(n)) == n`: the decimal text of a number reads back as that number. */
  lemma ParseIntOfDecimalString(n: nat)
    ensures ParseInt(DecimalString(n)) == Some(n)
  {
    NatToDigitsValue(n, 10);
    ParseIntOfDigits(DecimalString(n));
  }

  // ---------------------------------------------------------------- split

  /** The first index of `c` in `s`. */
  function IndexOf(s: string, c: char): (k: nat)
    requires c in s
    ensures k < |s| && s[k] == c && c !in s[..k]
  {
    if s[0] == c then 0
    else
      assert s == [s[0]] + s[1..];
      1 + IndexOf(s[1..], c)
  }

  /** `s.split(c)` for a one-character separator. */
  function Split(s: string, c: char): (parts: seq<string>)
    ensures |parts| >= 1
    ensures forall i :: 0 <= i < |parts| ==> c !in parts[i]
    decreases |s|
  {
    if c !in s then [s]
    else
      var k := IndexOf(s, c);
      [s[..k]] + Split(s[k + 1..], c)
  }

  /** `parts.join(c)` */
  function Join(parts: seq<string>, c: char): string
    requires |parts| >= 1
  {
    if |parts| == 1 then parts[0] else parts[0] + [c] + Join(parts[1..], c)
  }

  /** Joining the pieces with the separator gives back the string. */
  lemma {:induction false} SplitJoin(s: string, c: char)
    ensures Join(Split(s, c), c) == s
    decreases |s|
  {
    if c in s {
      var k := IndexOf(s, c);
      SplitJoin(s[k + 1..], c);
      assert Split(s, c)[1..] == Split(s[k + 1..], c);
      assert s == s[..k] + [c] + s[k + 1..];
    }
  }
}
