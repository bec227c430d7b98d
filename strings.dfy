/**
 * The few JavaScript string operations the tracker relies on: number-to-string
 * conversion, `parseInt(s, 10)`, `String.prototype.trim`, `toUpperCase` and
 * `replace` with a one-character pattern.
 */
module Strings {
  import opened Wrappers

  predicate IsDigit(c: char) {
    '0' <= c <= '9'
  }

  predicate AllDigits(s: string) {
    forall i :: 0 <= i < |s| ==> IsDigit(s[i])
  }

  function DigitChar(d: int): (c: char)
    requires 0 <= d < 10
    ensures IsDigit(c)
  {
    ('0' as int + d) as char
  }

  function DigitValue(c: char): (d: nat)
    requires IsDigit(c)
    ensures d < 10
  {
    c as int - '0' as int
  }

  /** Decimal digits of a natural number, most significant first, without leading zeros. */
  function NatToString(n: nat): (s: string)
    ensures |s| >= 1 && AllDigits(s)
    ensures n >= 10 ==> s[0] != '0'
    decreases n
  {
    if n < 10 then [DigitChar(n)] else NatToString(n / 10) + [DigitChar(n % 10)]
  }

  /** JavaScript's rendering of an integer value in a template literal or `toString()`. */
  function IntToString(n: int): (s: string)
    ensures |s| >= 1
    ensures n >= 0 <==> AllDigits(s)
  {
    if n < 0 then
      var s := "-" + NatToString(-n);
      assert !IsDigit(s[0]);
      s
    else NatToString(n)
  }

  /** The value of a string of decimal digits. */
  function DigitsValue(s: string): nat
    requires AllDigits(s)
  {
    if s == [] then 0 else DigitsValue(s[..|s| - 1]) * 10 + DigitValue(s[|s| - 1])
  }

  lemma {:induction false} NatToStringRoundTrip(n: nat)
    ensures DigitsValue(NatToString(n)) == n
    decreases n
  {
    if n >= 10 {
      var s := NatToString(n);
      assert s[..|s| - 1] == NatToString(n / 10);
      NatToStringRoundTrip(n / 10);
    }
  }

  /**
   * The characters removed by `trim` and skipped by `parseInt`: the ECMAScript
   * WhiteSpace (including every space separator) and LineTerminator characters.
   */
  predicate IsJsWhitespace(c: char) {
    var x := c as int;
    x == 0x09 || x == 0x0A || x == 0x0B || x == 0x0C || x == 0x0D || x == 0x20 ||
    x == 0xA0 || x == 0x1680 || (0x2000 <= x <= 0x200A) || x == 0x2028 || x == 0x2029 ||
    x == 0x202F || x == 0x205F || x == 0x3000 || x == 0xFEFF
  }

  predicate AllWhitespace(s: string) {
    forall i :: 0 <= i < |s| ==> IsJsWhitespace(s[i])
  }

  /** One step of `trimStart`: a whitespace first character joins the trimmed prefix. */
  lemma TrimStartStep(s: string, r: string)
    requires s != [] && IsJsWhitespace(s[0])
    requires |r| <= |s| - 1 && r == s[1..][|s| - 1 - |r|..] && AllWhitespace(s[1..][..|s| - 1 - |r|])
    ensures r == s[|s| - |r|..] && AllWhitespace(s[..|s| - |r|])
  {
    var p := s[..|s| - |r|];
    forall i | 0 <= i < |p| ensures IsJsWhitespace(p[i]) {
      if i > 0 {
        assert p[i] == s[1..][..|s| - 1 - |r|][i - 1];
      }
    }
  }

  /** One step of `trimEnd`: a whitespace last character joins the trimmed suffix. */
  lemma TrimEndStep(s: string, r: string)
    requires s != [] && IsJsWhitespace(s[|s| - 1])
    requires |r| <= |s| - 1 && r == s[..|s| - 1][..|r|] && AllWhitespace(s[..|s| - 1][|r|..])
    ensures r == s[..|r|] && AllWhitespace(s[|r|..])
  {
    var p := s[|r|..];
    forall i | 0 <= i < |p| ensures IsJsWhitespace(p[i]) {
      if i < |p| - 1 {
        assert p[i] == s[..|s| - 1][|r|..][i];
      }
    }
  }

  function TrimStart(s: string): (r: string)
    ensures |r| <= |s| && r == s[|s| - |r|..]
    ensures AllWhitespace(s[..|s| - |r|])
    ensures r != [] ==> !IsJsWhitespace(r[0])
  {
    if s != [] && IsJsWhitespace(s[0]) then
      var r := TrimStart(s[1..]);
      TrimStartStep(s, r);
      r
    else
      assert s[..0] == [];
      s
  }

  function TrimEnd(s: string): (r: string)
    ensures |r| <= |s| && r == s[..|r|]
    ensures AllWhitespace(s[|r|..])
    ensures r != [] ==> !IsJsWhitespace(r[|r| - 1])
  {
    if s != [] && IsJsWhitespace(s[|s| - 1]) then
      var r := TrimEnd(s[..|s| - 1]);
      TrimEndStep(s, r);
      r
    else
      assert s[|s|..] == [];
      s
  }

  /** `String.prototype.trim`. */
  function Trim(s: string): string {
    TrimEnd(TrimStart(s))
  }

  /** Trimming removes a whitespace-only prefix and suffix and nothing else, and leaves no whitespace at either end. */
  lemma TrimSplit(s: string) returns (prefix: string, suffix: string)
    ensures s == prefix + Trim(s) + suffix
    ensures AllWhitespace(prefix) && AllWhitespace(suffix)
    ensures Trim(s) != [] ==> !IsJsWhitespace(Trim(s)[0]) && !IsJsWhitespace(Trim(s)[|Trim(s)| - 1])
  {
    var t := TrimStart(s);
    prefix := s[..|s| - |t|];
    suffix := t[|Trim(s)|..];
    SplitAround(s, t, Trim(s));
  }

  /** A suffix `t` of `s` and a prefix `r` of `t` cut `s` into three pieces. */
  lemma SplitAround<T>(s: seq<T>, t: seq<T>, r: seq<T>)
    requires |t| <= |s| && t == s[|s| - |t|..]
    requires |r| <= |t| && r == t[..|r|]
    ensures s == s[..|s| - |t|] + r + t[|r|..]
    ensures r != [] ==> r[0] == t[0]
  {
    assert s == s[..|s| - |t|] + t;
    assert t == r + t[|r|..];
  }

  /** A string trims to nothing exactly when it consists of whitespace only. */
  lemma TrimEmptyIff(s: string)
    ensures Trim(s) == [] <==> AllWhitespace(s)
  {
    var prefix, suffix := TrimSplit(s);
    if Trim(s) == [] {
      assert s == prefix + suffix;
      forall i | 0 <= i < |s| ensures IsJsWhitespace(s[i]) {
        if i < |prefix| { assert s[i] == prefix[i]; } else { assert s[i] == suffix[i - |prefix|]; }
      }
    } else {
      assert s[|prefix|] == Trim(s)[0];
    }
  }

  /** Trimming twice is trimming once. */
  lemma TrimIdempotent(s: string)
    ensures Trim(Trim(s)) == Trim(s)
  {
    var t := Trim(s);
    var _, _ := TrimSplit(s);
    if t != [] {
      assert TrimStart(t) == t;
      assert TrimEnd(t) == t;
    }
  }

  /** A whitespace-only prefix is skipped by `trimStart`. */
  lemma {:induction false} TrimStartSkipsPad(pre: string, s: string)
    requires AllWhitespace(pre)
    ensures TrimStart(pre + s) == TrimStart(s)
    decreases |pre|
  {
    if pre != [] {
      assert (pre + s)[0] == pre[0];
      assert (pre + s)[1..] == pre[1..] + s;
      TrimStartSkipsPad(pre[1..], s);
    } else {
      assert pre + s == s;
    }
  }

  /** A whitespace-only suffix is dropped by `trimEnd`. */
  lemma {:induction false} TrimEndSkipsPad(s: string, post: string)
    requires AllWhitespace(post)
    ensures TrimEnd(s + post) == TrimEnd(s)
    decreases |post|
  {
    if post != [] {
      var z := s + post;
      assert z[|z| - 1] == post[|post| - 1];
      assert z[..|z| - 1] == s + post[..|post| - 1];
      TrimEndSkipsPad(s, post[..|post| - 1]);
    } else {
      assert s + post == s;
    }
  }

  /** Once `trimStart` stops inside `s`, what follows `s` is kept as it is. */
  lemma {:induction false} TrimStartAppend(s: string, t: string)
    requires TrimStart(s) != []
    ensures TrimStart(s + t) == TrimStart(s) + t
    decreases |s|
  {
    assert (s + t)[0] == s[0];
    if IsJsWhitespace(s[0]) {
      assert (s + t)[1..] == s[1..] + t;
      TrimStartAppend(s[1..], t);
    }
  }

  /** A whitespace-only string trims to nothing at its start. */
  lemma {:induction false} TrimStartOfWhitespace(z: string)
    requires AllWhitespace(z)
    ensures TrimStart(z) == []
    decreases |z|
  {
    if z != [] {
      assert IsJsWhitespace(z[0]);
      assert AllWhitespace(z[1..]) by {
        forall i | 0 <= i < |z[1..]| ensures IsJsWhitespace(z[1..][i]) {
          assert z[1..][i] == z[i + 1];
        }
      }
      TrimStartOfWhitespace(z[1..]);
    }
  }

  /** Whitespace after a string that trims to nothing leaves nothing. */
  lemma {:induction false} TrimStartOfBlankThenPad(s: string, post: string)
    requires TrimStart(s) == [] && AllWhitespace(post)
    ensures TrimStart(s + post) == []
    decreases |s|
  {
    if s == [] {
      assert s + post == post;
      TrimStartOfWhitespace(post);
    } else {
      assert IsJsWhitespace(s[0]);
      assert (s + post)[0] == s[0];
      assert (s + post)[1..] == s[1..] + post;
      TrimStartOfBlankThenPad(s[1..], post);
    }
  }

  /** Whitespace padding on either side does not change what `trim` returns. */
  lemma TrimIgnoresPadding(pre: string, s: string, post: string)
    requires AllWhitespace(pre) && AllWhitespace(post)
    ensures Trim(pre + s + post) == Trim(s)
  {
    assert pre + s + post == pre + (s + post);
    TrimStartSkipsPad(pre, s + post);
    if TrimStart(s) == [] {
      TrimStartOfBlankThenPad(s, post);
    } else {
      TrimStartAppend(s, post);
      TrimEndSkipsPad(TrimStart(s), post);
    }
  }

  /** Length of the longest prefix of decimal digits. */
  function DigitPrefixLength(s: string): (k: nat)
    ensures k <= |s| && AllDigits(s[..k])
    ensures k < |s| ==> !IsDigit(s[k])
  {
    if s != [] && IsDigit(s[0]) then
      var k := DigitPrefixLength(s[1..]);
      assert s[..k + 1] == [s[0]] + s[1..][..k];
      k + 1
    else 0
  }

  /**
   * `parseInt(s, 10)`: leading whitespace is skipped, one sign is accepted, and the
   * longest run of digits after it is read; None stands for `NaN` (no digits).
   */
  function ParseInt(s: string): Option<int> {
    var t := TrimStart(s);
    var negative := |t| > 0 && t[0] == '-';
    var rest := if |t| > 0 && (t[0] == '-' || t[0] == '+') then t[1..] else t;
    var k := DigitPrefixLength(rest);
    if k == 0 then None
    else if negative then Some(-(DigitsValue(rest[..k]) as int))
    else Some(DigitsValue(rest[..k]))
  }

  lemma {:induction false} DigitPrefixOfDigits(s: string)
    requires AllDigits(s)
    ensures DigitPrefixLength(s) == |s|
  {
    if s != [] {
      DigitPrefixOfDigits(s[1..]);
    }
  }

  /** Reading back the decimal rendering of an integer gives the integer. */
  lemma ParseIntOfIntToString(n: int)
    ensures ParseInt(IntToString(n)) == Some(n)
  {
    var s := IntToString(n);
    var m: nat := if n < 0 then -n else n;
    var digits := NatToString(m);
    assert !IsJsWhitespace(s[0]);
    assert TrimStart(s) == s;
    var rest := if n < 0 then s[1..] else s;
    assert rest == digits;
    DigitPrefixOfDigits(digits);
    assert rest[..|digits|] == digits;
    NatToStringRoundTrip(m);
  }

  /** Distinct integers have distinct renderings. */
  lemma IntToStringInjective(m: int, n: int)
    requires IntToString(m) == IntToString(n)
    ensures m == n
  {
    ParseIntOfIntToString(m);
    ParseIntOfIntToString(n);
  }

  /** `toUpperCase` on the ASCII letters. */
  function ToUpperAscii(s: string): (r: string)
    ensures |r| == |s|
    ensures forall i :: 0 <= i < |s| ==> r[i] == (if 'a' <= s[i] <= 'z' then (s[i] as int - 32) as char else s[i])
  {
    if s == [] then [] else
      var c := s[0];
      [if 'a' <= c <= 'z' then (c as int - 32) as char else c] + ToUpperAscii(s[1..])
  }

  /** `replace(from, to)` with a one-character string pattern: only the first occurrence is replaced. */
  function ReplaceFirst(s: string, from: char, to: char): (r: string)
    ensures |r| == |s|
    ensures from !in s ==> r == s
  {
    if s == [] then []
    else if s[0] == from then [to] + s[1..]
    else [s[0]] + ReplaceFirst(s[1..], from, to)
  }

  /** When the pattern occurs, exactly its first occurrence is replaced and the rest is untouched. */
  lemma {:induction false} ReplaceFirstShape(s: string, from: char, to: char) returns (i: nat)
    requires from in s
    ensures i < |s| && s[i] == from && from !in s[..i]
    ensures ReplaceFirst(s, from, to) == s[..i] + [to] + s[i + 1..]
  {
    if s[0] == from {
      i := 0;
    } else {
      assert from in s[1..];
      var j := ReplaceFirstShape(s[1..], from, to);
      i := j + 1;
      assert s[..i] == [s[0]] + s[1..][..j];
      assert s[i + 1..] == s[1..][j + 1..];
    }
  }
}
