/** Character and string helpers shared by the services and the front end:
    decimal rendering of naturals, ASCII case folding, substring search,
    Python's `str.strip` and JavaScript's `padStart`. */
module Text {

  predicate IsDigit(c: char) { '0' <= c <= '9' }

  predicate AllDigits(s: string) { forall i :: 0 <= i < |s| ==> IsDigit(s[i]) }

  function DigitValue(c: char): (d: nat)
    requires IsDigit(c)
    ensures d < 10
  {
    c as int - '0' as int
  }

  function DigitChar(d: nat): (c: char)
    requires d < 10
    ensures IsDigit(c) && DigitValue(c) == d
  {
    ('0' as int + d) as char
  }

  /** The number a non-empty string of decimal digits denotes (most significant first). */
  function DecimalValue(s: string): nat
    requires AllDigits(s)
  {
    if s == [] then 0 else DecimalValue(s[..|s| - 1]) * 10 + DigitValue(s[|s| - 1])
  }

  /** How JavaScript renders a non-negative integer: shortest decimal, no leading zero. */
  function NatToString(n: nat): (s: string)
    ensures |s| >= 1 && AllDigits(s)
    ensures |s| > 1 ==> s[0] != '0'
    ensures n < 10 <==> |s| == 1
  {
    if n < 10 then [DigitChar(n)]
    else
      var prefix := NatToString(n / 10);
      var s := prefix + [DigitChar(n % 10)];
      assert s[..|s| - 1] == prefix;
      s
  }

  /** Reading the rendering back gives the number again. */
  lemma {:induction false} NatToStringReadsBack(n: nat)
    ensures DecimalValue(NatToString(n)) == n
  {
    if n >= 10 {
      var s := NatToString(n);
      NatToStringReadsBack(n / 10);
      assert s[..|s| - 1] == NatToString(n / 10);
    }
  }

  /** Distinct numbers render differently: the rendering is injective. */
  lemma NatToStringInjective(a: nat, b: nat)
    requires NatToString(a) == NatToString(b)
    ensures a == b
  {
    NatToStringReadsBack(a);
    NatToStringReadsBack(b);
  }

  /** ASCII case folding, as `toLowerCase` / `lower` act on ASCII letters. */
  function LowerChar(c: char): char
  {
    if 'A' <= c <= 'Z' then (c as int - 'A' as int + 'a' as int) as char else c
  }

  function ToLower(s: string): (r: string)
    ensures |r| == |s|
    ensures forall i :: 0 <= i < |s| ==> r[i] == LowerChar(s[i])
  {
    seq(|s|, i requires 0 <= i < |s| => LowerChar(s[i]))
  }

  lemma ToLowerIdempotent(s: string)
    ensures ToLower(ToLower(s)) == ToLower(s)
  {
  }

  lemma ToLowerEmpty(s: string)
    ensures ToLower(s) == [] <==> s == []
  {
  }

  /** `needle` occurs in `hay` at some position (`String.prototype.includes`, and
      pandas `str.contains` on a pattern with no regular-expression metacharacters). */
  predicate Contains(hay: string, needle: string)
  {
    exists i :: 0 <= i <= |hay| && OccursAt(hay, needle, i)
  }

  predicate OccursAt(hay: string, needle: string, i: nat)
  {
    i + |needle| <= |hay| && hay[i..i + |needle|] == needle
  }

  lemma ContainsEmpty(hay: string)
    ensures Contains(hay, "")
  {
    assert OccursAt(hay, "", 0);
  }

  /** The whitespace `str.strip()` removes, restricted to ASCII:
      tab, line feed, vertical tab, form feed, carriage return, the four
      information separators and space. */
  predicate IsSpace(c: char)
  {
    9 <= c as int <= 13 || 28 <= c as int <= 32
  }

  predicate AllSpace(s: string) { forall i :: 0 <= i < |s| ==> IsSpace(s[i]) }

  function TrimStart(s: string): (r: string)
    ensures |r| <= |s| && r == s[|s| - |r|..]
    ensures AllSpace(s[..|s| - |r|])
    ensures r == [] || !IsSpace(r[0])
  {
    if s != [] && IsSpace(s[0]) then
      var r := TrimStart(s[1..]);
      assert s[..|s| - |r|] == [s[0]] + s[1..][..|s[1..]| - |r|];
      r
    else s
  }

  function TrimEnd(s: string): (r: string)
    ensures |r| <= |s| && r == s[..|r|]
    ensures AllSpace(s[|r|..])
    ensures r == [] || !IsSpace(r[|r| - 1])
  {
    if s != [] && IsSpace(s[|s| - 1]) then
      var r := TrimEnd(s[..|s| - 1]);
      assert s[|r|..] == s[..|s| - 1][|r|..] + [s[|s| - 1]];
      r
    else s
  }

  /** Python's `str.strip()`: `s` with leading and trailing whitespace removed.
      The result is a contiguous piece of `s` surrounded only by whitespace, and
      neither starts nor ends with whitespace. */
  function Trim(s: string): (r: string)
    ensures exists i, j :: 0 <= i <= j <= |s| && r == s[i..j] && AllSpace(s[..i]) && AllSpace(s[j..])
    ensures r == [] || (!IsSpace(r[0]) && !IsSpace(r[|r| - 1]))
  {
    var a := TrimStart(s);
    var r := TrimEnd(a);
    var i, j := |s| - |a|, |s| - |a| + |r|;
    assert r == s[i..j];
    assert s[j..] == a[|r|..];
    r
  }

  /** Stripping leaves nothing exactly when the string is all whitespace. */
  lemma TrimEmptyIff(s: string)
    ensures Trim(s) == [] <==> AllSpace(s)
  {
    var a := TrimStart(s);
    var r := TrimEnd(a);
    assert Trim(s) == r;
    if r == [] {
      assert s[..|s| - |a|] == s;
    }
  }

  lemma LowerCharSpace(c: char)
    ensures IsSpace(LowerChar(c)) <==> IsSpace(c)
  {
  }

  lemma {:induction false} TrimStartLower(s: string)
    ensures TrimStart(ToLower(s)) == ToLower(TrimStart(s))
  {
    if s != [] {
      LowerCharSpace(s[0]);
      assert ToLower(s)[1..] == ToLower(s[1..]);
      TrimStartLower(s[1..]);
    }
  }

  lemma {:induction false} TrimEndLower(s: string)
    ensures TrimEnd(ToLower(s)) == ToLower(TrimEnd(s))
  {
    if s != [] {
      LowerCharSpace(s[|s| - 1]);
      assert ToLower(s)[..|s| - 1] == ToLower(s[..|s| - 1]);
      TrimEndLower(s[..|s| - 1]);
    }
  }

  /** Lower-casing never creates or removes whitespace, so it commutes with stripping. */
  lemma TrimLower(s: string)
    ensures Trim(ToLower(s)) == ToLower(Trim(s))
  {
    TrimStartLower(s);
    TrimEndLower(TrimStart(s));
  }

  lemma {:induction false} TrimStartAppend(s: string, p: string)
    ensures TrimStart(s + p) == if TrimStart(s) == [] then TrimStart(p) else TrimStart(s) + p
  {
    if s != [] {
      assert (s + p)[1..] == s[1..] + p;
      TrimStartAppend(s[1..], p);
    } else {
      assert s + p == p;
    }
  }

  lemma {:induction false} TrimEndPrepend(p: string, s: string)
    ensures TrimEnd(p + s) == if TrimEnd(s) == [] then TrimEnd(p) else p + TrimEnd(s)
  {
    if s != [] {
      assert (p + s)[..|p + s| - 1] == p + s[..|s| - 1];
      TrimEndPrepend(p, s[..|s| - 1]);
    } else {
      assert p + s == p;
    }
  }

  lemma {:induction false} TrimStartOfSpace(s: string)
    requires AllSpace(s)
    ensures TrimStart(s) == []
  {
    if s != [] { TrimStartOfSpace(s[1..]); }
  }

  lemma {:induction false} TrimEndOfSpace(s: string)
    requires AllSpace(s)
    ensures TrimEnd(s) == []
  {
    if s != [] { TrimEndOfSpace(s[..|s| - 1]); }
  }

  /** Whitespace added on either side is stripped again. */
  lemma TrimPadded(s: string, padding: string)
    requires AllSpace(padding)
    ensures Trim(padding + s + padding) == Trim(s)
  {
    TrimStartOfSpace(padding);
    TrimEndOfSpace(padding);
    assert padding + s + padding == padding + (s + padding);
    TrimStartAppend(padding, s + padding);
    TrimStartAppend(s, padding);
    var a := TrimStart(s);
    if a != [] {
      TrimEndPrepend(a, padding);
    }
  }

  /** JavaScript's `s.padStart(2, "0")`. */
  function PadStart2(s: string): (r: string)
    ensures |r| == if |s| < 2 then 2 else |s|
    ensures r[|r| - |s|..] == s
    ensures forall i :: 0 <= i < |r| - |s| ==> r[i] == '0'
  {
    if |s| == 0 then "00" else if |s| == 1 then "0" + s else s
  }
}
