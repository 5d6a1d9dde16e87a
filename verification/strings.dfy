/**
 * Character and string helpers with the meaning JavaScript gives them: the `\d` class of
 * regular expressions, decimal rendering of integers, `Array.prototype.join`,
 * `String.prototype.split` and `String.prototype.trim`.
 */
module Strings {

  /** The regular-expression class `\d`: the ten ASCII decimal digits and nothing else. */
  predicate IsDigit(c: char) {
    '0' <= c <= '9'
  }

  predicate AllDigits(s: string) {
    forall i :: 0 <= i < |s| ==> IsDigit(s[i])
  }

  function DigitValue(c: char): (d: nat)
    requires IsDigit(c)
    ensures d < 10
  {
    (c as int - '0' as int) as nat
  }

  function DigitChar(d: nat): (c: char)
    requires d < 10
    ensures IsDigit(c) && DigitValue(c) == d
  {
    ('0' as int + d) as char
  }

  /** Decimal rendering of a natural number without leading zeros (`n.toString()`). */
  function ShowNat(n: nat): (r: string)
    ensures |r| >= 1 && AllDigits(r)
    ensures r[0] == '0' ==> n == 0
  {
    if n < 10 then [DigitChar(n)] else ShowNat(n / 10) + [DigitChar(n % 10)]
  }

  /** Decimal rendering of an integer: a minus sign precedes the magnitude of a negative number. */
  function ShowInt(i: int): (r: string)
    ensures |r| >= 1
    ensures (i < 0) == (r[0] == '-')
  {
    if i < 0 then "-" + ShowNat(-i) else ShowNat(i)
  }

  /** The value of a run of decimal digits, most significant first. */
  function DigitsValue(s: string): nat
    requires AllDigits(s)
  {
    if |s| == 0 then 0 else DigitsValue(s[..|s| - 1]) * 10 + DigitValue(s[|s| - 1])
  }

  /** Reading back the rendering of a natural number gives the number. */
  lemma {:induction false} ShowNatRoundTrip(n: nat)
    ensures DigitsValue(ShowNat(n)) == n
  {
    if n >= 10 {
      var s := ShowNat(n);
      assert s[..|s| - 1] == ShowNat(n / 10);
      ShowNatRoundTrip(n / 10);
    }
  }

  /** Two-digit, zero-padded rendering of a number below one hundred. */
  function Pad2(n: nat): (r: string)
    requires n < 100
    ensures |r| == 2 && AllDigits(r) && DigitsValue(r) == n
  {
    var r := [DigitChar(n / 10), DigitChar(n % 10)];
    assert r[..1] == [DigitChar(n / 10)] && r[..1][..0] == [];
    assert DigitsValue(r[..1]) == n / 10;
    assert DigitsValue(r) == (n / 10) * 10 + n % 10;
    r
  }

  predicate Contains(s: string, c: char) {
    exists i :: 0 <= i < |s| && s[i] == c
  }

  /** `s.slice(0, n)` for a non-negative `n`: at most the first `n` characters. */
  function Take(s: string, n: nat): (r: string)
    ensures |r| == if |s| < n then |s| else n
    ensures r == s[..|r|]
  {
    if |s| <= n then s else s[..n]
  }

  /** `parts.join(sep)` over parts that are already strings. */
  function Join(parts: seq<string>, sep: string): string
  {
    if |parts| == 0 then ""
    else if |parts| == 1 then parts[0]
    else parts[0] + sep + Join(parts[1..], sep)
  }

  /** `sep` occurs in `s` starting at index `k`. */
  predicate OccursAt(s: string, sep: string, k: int) {
    0 <= k && k + |sep| <= |s| && s[k..k + |sep|] == sep
  }

  lemma OccursAtTail(s: string, sep: string, k: int)
    requires |s| > 0 && k >= 1
    ensures OccursAt(s, sep, k) == OccursAt(s[1..], sep, k - 1)
  {
    if k + |sep| <= |s| {
      assert s[k..k + |sep|] == s[1..][k - 1..k - 1 + |sep|];
    }
  }

  /** `s.indexOf(sep)`: the index of the first occurrence of `sep` in `s`, or -1. */
  function IndexOf(s: string, sep: string): (r: int)
    requires |sep| > 0
    ensures r == -1 || OccursAt(s, sep, r)
    ensures forall k :: 0 <= k && (r == -1 || k < r) ==> !OccursAt(s, sep, k)
    decreases |s|
  {
    if |s| < |sep| then -1
    else if s[..|sep|] == sep then 0
    else
      var k := IndexOf(s[1..], sep);
      assert forall j :: 1 <= j ==> (OccursAt(s, sep, j) == OccursAt(s[1..], sep, j - 1)) by {
        forall j | 1 <= j ensures OccursAt(s, sep, j) == OccursAt(s[1..], sep, j - 1) {
          OccursAtTail(s, sep, j);
        }
      }
      if k == -1 then -1 else k + 1
  }

  /** `s.split(sep)` for a non-empty separator. */
  function Split(s: string, sep: string): (r: seq<string>)
    requires |sep| > 0
    ensures |r| >= 1
    decreases |s|
  {
    var k := IndexOf(s, sep);
    if k == -1 then [s] else [s[..k]] + Split(s[k + |sep|..], sep)
  }

  /** The separator the system uses when it joins a list of messages. */
  const Bar: string := " | "

  /** Splitting a bar-joined list gives the list back, provided no part contains a `|`. */
  lemma {:induction false} SplitJoinBar(parts: seq<string>)
    requires |parts| >= 1
    requires forall i :: 0 <= i < |parts| ==> !Contains(parts[i], '|')
    ensures Split(Join(parts, Bar), Bar) == parts
  {
    if |parts| == 1 {
      NoBarNoIndex(parts[0]);
    } else {
      var p := parts[0];
      var rest := Join(parts[1..], Bar);
      var s := p + Bar + rest;
      assert Join(parts, Bar) == s;
      FirstBarAt(p, rest);
      assert s[|p| + |Bar|..] == rest;
      assert s[..|p|] == p;
      SplitJoinBar(parts[1..]);
      assert parts == [p] + parts[1..];
    }
  }

  lemma NoBarNoIndex(p: string)
    requires !Contains(p, '|')
    ensures IndexOf(p, Bar) == -1
  {
    var k := IndexOf(p, Bar);
    if k >= 0 {
      BarInside(p, k);
      assert false;
    }
  }

  lemma BarInside(p: string, k: int)
    requires OccursAt(p, Bar, k)
    ensures Contains(p, '|')
  {
    assert p[k..k + 3][1] == p[k + 1];
  }

  lemma FirstBarAt(p: string, rest: string)
    requires !Contains(p, '|')
    ensures IndexOf(p + Bar + rest, Bar) == |p|
  {
    var s := p + Bar + rest;
    assert OccursAt(s, Bar, |p|) by {
      assert s[|p|..|p| + 3] == Bar;
    }
    forall k | 0 <= k < |p|
      ensures !OccursAt(s, Bar, k)
    {
      if k + 1 < |p| {
        assert s[k + 1] == p[k + 1];
      } else {
        assert s[k + 1] == ' ';
        assert s[k..k + 3][1] == ' ';
      }
    }
  }

  /**
   * The characters `String.prototype.trim` removes: the ECMAScript WhiteSpace code points
   * (tab, vertical tab, form feed, the byte-order mark and the space separators of Unicode
   * category Zs) and the LineTerminator code points.
   */
  predicate IsJsSpace(c: char) {
    || c == '\t' || c == '\U{000B}' || c == '\U{000C}' || c == ' ' || c == '\U{00A0}'
    || c == '\U{FEFF}' || c == '\U{1680}' || ('\U{2000}' <= c <= '\U{200A}')
    || c == '\U{202F}' || c == '\U{205F}' || c == '\U{3000}'
    || c == '\n' || c == '\r' || c == '\U{2028}' || c == '\U{2029}'
  }

  function TrimStart(s: string): (r: string)
    ensures |r| <= |s| && r == s[|s| - |r|..]
    ensures forall i :: 0 <= i < |s| - |r| ==> IsJsSpace(s[i])
    ensures |r| > 0 ==> !IsJsSpace(r[0])
  {
    if |s| > 0 && IsJsSpace(s[0]) then TrimStart(s[1..]) else s
  }

  function TrimEnd(s: string): (r: string)
    ensures |r| <= |s| && r == s[..|r|]
    ensures forall i :: |r| <= i < |s| ==> IsJsSpace(s[i])
    ensures |r| > 0 ==> !IsJsSpace(r[|r| - 1])
  {
    if |s| > 0 && IsJsSpace(s[|s| - 1]) then TrimEnd(s[..|s| - 1]) else s
  }

  /** `s.trim()`. */
  function Trim(s: string): string
  {
    TrimEnd(TrimStart(s))
  }

  /**
   * `trim` removes exactly a white-space prefix and a white-space suffix: the result is the
   * infix `s[i..j]`, nothing outside it is kept unless it is white space, and the result
   * neither starts nor ends with white space.
   */
  lemma TrimIsInfix(s: string)
    ensures var r := Trim(s);
      exists i, j :: 0 <= i <= j <= |s| && r == s[i..j]
        && (forall k :: 0 <= k < i ==> IsJsSpace(s[k]))
        && (forall k :: j <= k < |s| ==> IsJsSpace(s[k]))
        && (|r| > 0 ==> !IsJsSpace(r[0]) && !IsJsSpace(r[|r| - 1]))
  {
    var t := TrimStart(s);
    var r := TrimEnd(t);
    var i := |s| - |t|;
    var j := i + |r|;
    assert r == s[i..j];
  }

  /** A text that neither starts nor ends with white space is its own trim. */
  lemma TrimUnspaced(s: string)
    requires |s| > 0 && !IsJsSpace(s[0]) && !IsJsSpace(s[|s| - 1])
    ensures Trim(s) == s
  {
    assert TrimStart(s) == s;
    assert TrimEnd(s) == s;
  }

  /** A non-empty run of digits has no white space to trim. */
  lemma TrimDigits(s: string)
    requires |s| > 0 && AllDigits(s)
    ensures Trim(s) == s
  {
    assert !IsJsSpace(s[0]) by {
      assert IsDigit(s[0]);
    }
    assert TrimStart(s) == s;
    assert !IsJsSpace(s[|s| - 1]) by {
      assert IsDigit(s[|s| - 1]);
    }
    assert TrimEnd(s) == s;
  }

  /** Trimming twice is trimming once. */
  lemma TrimIdempotent(s: string)
    ensures Trim(Trim(s)) == Trim(s)
  {
  }

  /** `s.replace(/\D/g, "")`: the digits of `s`, in order. */
  function DigitsOf(s: string): (r: string)
    ensures AllDigits(r) && |r| <= |s|
  {
    if |s| == 0 then ""
    else if IsDigit(s[0]) then [s[0]] + DigitsOf(s[1..])
    else DigitsOf(s[1..])
  }

  /** Removing non-digits distributes over concatenation. */
  lemma {:induction false} DigitsOfAppend(a: string, b: string)
    ensures DigitsOf(a + b) == DigitsOf(a) + DigitsOf(b)
  {
    if |a| > 0 {
      assert (a + b)[1..] == a[1..] + b;
      DigitsOfAppend(a[1..], b);
    } else {
      assert a + b == b;
    }
  }

  /** Removing non-digits changes a string exactly when it holds a non-digit. */
  lemma {:induction false} DigitsOfFixpoint(s: string)
    ensures DigitsOf(s) == s <==> AllDigits(s)
  {
    if |s| > 0 {
      DigitsOfFixpoint(s[1..]);
      if !IsDigit(s[0]) {
        assert |DigitsOf(s)| < |s|;
      }
    }
  }
}
