/**
 * String operations of the JavaScript runtime that the weather advisor relies on:
 * `includes`, `toLowerCase`, `trim`, `replace(/c/g, ...)` for a single character,
 * the decimal rendering of an integer and `parseInt`.
 */
module Text {

  import opened Wrappers

  /** `s.startsWith(p)`. */
  predicate StartsWith(s: string, p: string)
  {
    |p| <= |s| && s[..|p|] == p
  }

  /** `s.includes(sub)`: some suffix of `s` starts with `sub`. */
  predicate Contains(s: string, sub: string)
    decreases |s|
  {
    StartsWith(s, sub) || (|s| > 0 && Contains(s[1..], sub))
  }

  /** A string contains every string that sits between a prefix and a suffix of it. */
  lemma {:induction false} ContainsMiddle(a: string, b: string, c: string)
    ensures Contains(a + b + c, b)
    decreases |a|
  {
    if |a| == 0 {
      assert a + b + c == b + c;
      assert (b + c)[..|b|] == b;
    } else {
      assert (a + b + c)[1..] == a[1..] + b + c;
      ContainsMiddle(a[1..], b, c);
    }
  }

  lemma ContainsPrefix(a: string, b: string)
    ensures Contains(a + b, a)
  {
    ContainsMiddle([], a, b);
    assert [] + a + b == a + b;
  }

  lemma ContainsSuffix(a: string, b: string)
    ensures Contains(a + b, b)
  {
    ContainsMiddle(a, b, []);
    assert a + b + [] == a + b;
  }

  /** `includes` is transitive: a substring of a substring is a substring. */
  lemma {:induction false} ContainsTransitive(s: string, t: string, u: string)
    requires Contains(s, t) && Contains(t, u)
    ensures Contains(s, u)
    decreases |s|
  {
    if StartsWith(s, t) {
      ContainsInPrefix(s, t, u);
    } else {
      ContainsTransitive(s[1..], t, u);
    }
  }

  /** A string that contains `u` and is a prefix of `s` makes `s` contain `u`. */
  lemma {:induction false} ContainsInPrefix(s: string, t: string, u: string)
    requires StartsWith(s, t) && Contains(t, u)
    ensures Contains(s, u)
    decreases |t|
  {
    if StartsWith(t, u) {
      assert s[..|u|] == t[..|u|];
    } else {
      assert s[1..][..|t| - 1] == t[1..];
      ContainsInPrefix(s[1..], t[1..], u);
    }
  }

  /** What a string contains, it still contains with text appended. */
  lemma ContainsInLeft(s: string, t: string, u: string)
    requires Contains(s, u)
    ensures Contains(s + t, u)
  {
    ContainsPrefix(s, t);
    ContainsTransitive(s + t, s, u);
  }

  /** What a string contains, it still contains with text prepended. */
  lemma ContainsInRight(s: string, t: string, u: string)
    requires Contains(t, u)
    ensures Contains(s + t, u)
  {
    ContainsSuffix(s, t);
    ContainsTransitive(s + t, t, u);
  }

  lemma ContainsSelf(s: string)
    ensures Contains(s, s)
  {
    assert s[..|s|] == s;
  }

  /** `includes` of the empty string always holds. */
  lemma ContainsEmpty(s: string)
    ensures Contains(s, "")
  {
    assert s[..0] == "";
  }

  /** A string can only contain strings no longer than itself. */
  lemma {:induction false} ContainsLength(s: string, sub: string)
    requires Contains(s, sub)
    ensures |sub| <= |s|
    decreases |s|
  {
    if !StartsWith(s, sub) {
      ContainsLength(s[1..], sub);
    }
  }

  /** A string that has no occurrence of the character `c` contains no string holding `c`. */
  predicate Lacks(s: string, c: char)
  {
    forall i :: 0 <= i < |s| ==> s[i] != c
  }

  lemma {:induction false} LacksNotContains(s: string, c: char)
    requires Lacks(s, c)
    ensures !Contains(s, [c])
    decreases |s|
  {
    if |s| > 0 {
      assert s[..1] == [s[0]];
      LacksNotContains(s[1..], c);
    }
  }

  // ---------------------------------------------------------------- case

  /** `toLowerCase` on one character (ASCII letters; see README). */
  function LowerChar(c: char): char
  {
    if 'A' <= c <= 'Z' then (c as int + 32) as char else c
  }

  /** A lower-cased character is never an upper-case ASCII letter. */
  lemma LowerCharNotUpper(c: char)
    ensures !('A' <= LowerChar(c) <= 'Z')
  {
  }

  /** `s.toLowerCase()`. */
  function ToLower(s: string): (r: string)
    ensures |r| == |s|
    ensures forall i :: 0 <= i < |s| ==> r[i] == LowerChar(s[i])
  {
    seq(|s|, i requires 0 <= i < |s| => LowerChar(s[i]))
  }

  /** Lower-casing twice is lower-casing once. */
  lemma ToLowerIdempotent(s: string)
    ensures ToLower(ToLower(s)) == ToLower(s)
  {
    var once := ToLower(s);
    assert forall i :: 0 <= i < |s| ==> LowerChar(once[i]) == once[i];
  }

  // ---------------------------------------------------------------- trim

  /** The characters `String.prototype.trim` removes: white space and line terminators. */
  predicate IsSpace(c: char)
  {
    var n := c as int;
    n == 0x09 || n == 0x0A || n == 0x0B || n == 0x0C || n == 0x0D || n == 0x20 ||
    n == 0xA0 || n == 0x1680 || (0x2000 <= n <= 0x200A) || n == 0x2028 || n == 0x2029 ||
    n == 0x202F || n == 0x205F || n == 0x3000 || n == 0xFEFF
  }

  function TrimStart(s: string): (r: string)
    ensures |r| <= |s| && r == s[|s| - |r|..]
    ensures r == [] || !IsSpace(r[0])
    decreases |s|
  {
    if |s| > 0 && IsSpace(s[0]) then TrimStart(s[1..]) else s
  }

  function TrimEnd(s: string): (r: string)
    ensures |r| <= |s| && r == s[..|r|]
    ensures r == [] || !IsSpace(r[|r| - 1])
    decreases |s|
  {
    if |s| > 0 && IsSpace(s[|s| - 1]) then TrimEnd(s[..|s| - 1]) else s
  }

  /** `s.trim()`: the result neither starts nor ends with white space. */
  function Trim(s: string): (r: string)
    ensures r == [] || (!IsSpace(r[0]) && !IsSpace(r[|r| - 1]))
    ensures |r| <= |s|
  {
    var t := TrimStart(s);
    var r := TrimEnd(t);
    assert r != [] ==> r[0] == t[0];
    r
  }

  /** The trimmed text is a slice of the text, starting at `k`. */
  lemma TrimIsSlice(s: string) returns (k: nat)
    ensures k + |Trim(s)| <= |s| && Trim(s) == s[k..k + |Trim(s)|]
  {
    var t := TrimStart(s);
    var r := TrimEnd(t);
    k := |s| - |t|;
    assert Trim(s) == r;
    assert r == t[..|r|] && t == s[k..];
    assert s[k..][..|r|] == s[k..k + |r|];
  }

  // ---------------------------------------------------------------- replace

  /** `s.replace(/c/g, rep)` for a one-character pattern. */
  function ReplaceAll(s: string, c: char, rep: string): (r: string)
    decreases |s|
  {
    if |s| == 0 then ""
    else (if s[0] == c then rep else [s[0]]) + ReplaceAll(s[1..], c, rep)
  }

  /** After replacing every `c` by a string without `c`, no `c` is left. */
  lemma {:induction false} ReplaceAllRemoves(s: string, c: char, rep: string)
    requires Lacks(rep, c)
    ensures Lacks(ReplaceAll(s, c, rep), c)
    decreases |s|
  {
    if |s| > 0 {
      ReplaceAllRemoves(s[1..], c, rep);
    }
  }

  /** Replacing `c` by a string free of `d` adds no `d`. */
  lemma {:induction false} ReplaceAllKeepsLacking(s: string, c: char, rep: string, d: char)
    requires Lacks(s, d) && Lacks(rep, d)
    ensures Lacks(ReplaceAll(s, c, rep), d)
    decreases |s|
  {
    if |s| > 0 {
      ReplaceAllKeepsLacking(s[1..], c, rep, d);
    }
  }

  // ---------------------------------------------------------------- integers

  function DigitChar(d: nat): char
    requires d < 10
  {
    "0123456789"[d]
  }

  predicate IsDecimalDigit(c: char)
  {
    '0' <= c <= '9'
  }

  /** Decimal rendering of a natural number, as `String(n)` gives it for an integral number. */
  function NatToString(n: nat): (r: string)
    ensures |r| > 0
    ensures forall i :: 0 <= i < |r| ==> IsDecimalDigit(r[i])
    decreases n
  {
    if n < 10 then [DigitChar(n)] else NatToString(n / 10) + [DigitChar(n % 10)]
  }

  function IntToString(n: int): string
  {
    if n < 0 then "-" + NatToString(-n) else NatToString(n)
  }

  /** The value of a digit character in the given radix, or none. */
  function DigitValue(c: char, radix: nat): (r: Option<nat>)
    requires radix == 10 || radix == 16
    ensures r.Some? ==> r.value < radix
  {
    var v: int :=
      if '0' <= c <= '9' then c as int - '0' as int
      else if 'a' <= c <= 'z' then c as int - 'a' as int + 10
      else if 'A' <= c <= 'Z' then c as int - 'A' as int + 10
      else radix;
    if v < radix then Some(v) else None
  }

  /** The longest prefix of `s` made of digits of the radix. */
  function DigitPrefix(s: string, radix: nat): (r: string)
    requires radix == 10 || radix == 16
    ensures StartsWith(s, r)
    ensures forall i :: 0 <= i < |r| ==> DigitValue(r[i], radix).Some?
    ensures |r| < |s| ==> DigitValue(s[|r|], radix).None?
    decreases |s|
  {
    if |s| > 0 && DigitValue(s[0], radix).Some? then [s[0]] + DigitPrefix(s[1..], radix) else ""
  }

  /** The number a string of radix digits denotes, read most significant digit first. */
  function DigitsValue(ds: string, radix: nat): nat
    requires radix == 10 || radix == 16
    requires forall i :: 0 <= i < |ds| ==> DigitValue(ds[i], radix).Some?
    decreases |ds|
  {
    if |ds| == 0 then 0
    else DigitsValue(ds[..|ds| - 1], radix) * radix + DigitValue(ds[|ds| - 1], radix).value
  }

  /**
   * `parseInt(s)` with no radix: leading white space is skipped, one sign is read, and the
   * magnitude follows. `None` is `NaN`.
   */
  function ParseInt(s: string): (r: Option<int>)
  {
    ParseTrimmed(TrimStart(s))
  }

  /** `parseInt` after the leading white space: an optional sign, then the magnitude. */
  function ParseTrimmed(t: string): Option<int>
  {
    if |t| > 0 && t[0] == '-' then Signed(true, ParseMagnitude(t[1..]))
    else if |t| > 0 && t[0] == '+' then Signed(false, ParseMagnitude(t[1..]))
    else Signed(false, ParseMagnitude(t))
  }

  function Signed(negative: bool, m: Option<nat>): Option<int>
  {
    match m
    case None => None
    case Some(v) => Some(if negative then -(v as int) else v as int)
  }

  /** The unsigned part of `parseInt`: a `0x`/`0X` prefix selects radix 16, then the longest run of digits. */
  function ParseMagnitude(u: string): (r: Option<nat>)
  {
    var hex := |u| >= 2 && u[0] == '0' && (u[1] == 'x' || u[1] == 'X');
    var radix := if hex then 16 else 10;
    var ds := DigitPrefix(if hex then u[2..] else u, radix);
    if |ds| == 0 then None else Some(DigitsValue(ds, radix))
  }

  lemma {:induction false} DigitPrefixOfRendered(n: nat, rest: string)
    requires rest == [] || !IsDecimalDigit(rest[0])
    ensures DigitPrefix(NatToString(n) + rest, 10) == NatToString(n)
    decreases |NatToString(n)|
  {
    var ds := NatToString(n);
    var s := ds + rest;
    assert s[0] == ds[0];
    if |ds| == 1 {
      assert s[1..] == rest;
    } else {
      assert s[1..] == ds[1..] + rest;
      DigitPrefixOfDigits(ds[1..], rest);
    }
  }

  lemma {:induction false} DigitPrefixOfDigits(ds: string, rest: string)
    requires forall i :: 0 <= i < |ds| ==> IsDecimalDigit(ds[i])
    requires rest == [] || !IsDecimalDigit(rest[0])
    ensures DigitPrefix(ds + rest, 10) == ds
    decreases |ds|
  {
    if |ds| == 0 {
      assert ds + rest == rest;
    } else {
      assert (ds + rest)[1..] == ds[1..] + rest;
      DigitPrefixOfDigits(ds[1..], rest);
    }
  }

  lemma {:induction false} DigitsValueOfRendered(n: nat)
    ensures DigitsValue(NatToString(n), 10) == n
    decreases n
  {
    if n >= 10 {
      var ds := NatToString(n);
      assert ds[..|ds| - 1] == NatToString(n / 10);
      DigitsValueOfRendered(n / 10);
    }
  }

  /**
   * Round trip: `parseInt` reads back an integer rendered in decimal and followed by a
   * non-digit suffix such as a unit.
   */
  lemma ParseIntOfRendered(n: int, rest: string)
    requires rest == [] || (!IsDecimalDigit(rest[0]) && rest[0] != 'x' && rest[0] != 'X')
    ensures ParseInt(IntToString(n) + rest) == Some(n)
  {
    var s := IntToString(n) + rest;
    if n < 0 {
      var m: nat := -n;
      assert s == "-" + (NatToString(m) + rest);
      NegativeRendering(m, rest);
    } else {
      assert s == NatToString(n) + rest;
      UnsignedRendering(n, rest);
    }
  }

  lemma NegativeRendering(m: nat, rest: string)
    requires rest == [] || (!IsDecimalDigit(rest[0]) && rest[0] != 'x' && rest[0] != 'X')
    ensures ParseInt("-" + (NatToString(m) + rest)) == Some(-(m as int))
  {
    RenderedBody(m, rest);
    ParseNegative("-" + (NatToString(m) + rest), NatToString(m) + rest, m);
  }

  lemma UnsignedRendering(m: nat, rest: string)
    requires rest == [] || (!IsDecimalDigit(rest[0]) && rest[0] != 'x' && rest[0] != 'X')
    ensures ParseInt(NatToString(m) + rest) == Some(m)
  {
    RenderedBody(m, rest);
    ParseUnsigned(NatToString(m) + rest, m);
  }

  lemma ParseNegative(s: string, u: string, v: nat)
    requires s == "-" + u && ParseMagnitude(u) == Some(v)
    ensures ParseInt(s) == Some(-(v as int))
  {
    assert s[0] == '-' && s[1..] == u;
    assert TrimStart(s) == s;
    assert ParseTrimmed(s) == Signed(true, ParseMagnitude(u));
  }

  lemma ParseUnsigned(u: string, v: nat)
    requires |u| > 0 && IsDecimalDigit(u[0]) && ParseMagnitude(u) == Some(v)
    ensures ParseInt(u) == Some(v)
  {
    assert !IsSpace(u[0]);
    assert TrimStart(u) == u;
    assert ParseTrimmed(u) == Signed(false, ParseMagnitude(u));
  }

  /** What `parseInt` sees after the sign: a decimal rendering that is not a `0x` prefix. */
  lemma RenderedBody(m: nat, rest: string)
    requires rest == [] || (!IsDecimalDigit(rest[0]) && rest[0] != 'x' && rest[0] != 'X')
    ensures |NatToString(m) + rest| > 0 && IsDecimalDigit((NatToString(m) + rest)[0])
    ensures ParseMagnitude(NatToString(m) + rest) == Some(m)
  {
    var ds := NatToString(m);
    var u := ds + rest;
    assert u[0] == ds[0];
    if |u| >= 2 && u[0] == '0' {
      if m >= 10 {
        NonZeroLeading(m);
      }
      assert |ds| == 1;
      assert u[1] == rest[0];
    }
    DigitPrefixOfRendered(m, rest);
    DigitsValueOfRendered(m);
  }

  /** A positive number's rendering does not start with `0`. */
  lemma {:induction false} NonZeroLeading(n: nat)
    requires n > 0
    ensures NatToString(n)[0] != '0'
    decreases n
  {
    if n >= 10 {
      NonZeroLeading(n / 10);
    }
  }
}
