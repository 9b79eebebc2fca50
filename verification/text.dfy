/**
 * The string operations of Python the pipeline relies on: `str.isspace`,
 * `str.strip`, `str.find`, `str.rfind`, the `in` test on strings and `s[:n]`.
 */
module Text {

  /** Python's `str.isspace` for one character. */
  predicate IsSpace(c: char) {
    var n := c as int;
    || n == 0x20 || 0x09 <= n <= 0x0D || 0x1C <= n <= 0x1F
    || n == 0x85 || n == 0xA0 || n == 0x1680 || 0x2000 <= n <= 0x200A
    || n == 0x2028 || n == 0x2029 || n == 0x202F || n == 0x205F || n == 0x3000
  }

  /** A text with nothing but whitespace: `not s.strip()`. */
  predicate Blank(s: string) {
    forall i | 0 <= i < |s| :: IsSpace(s[i])
  }

  /** A concatenation is blank exactly when both parts are. */
  lemma BlankConcat(a: string, b: string)
    ensures Blank(a + b) <==> Blank(a) && Blank(b)
  {
    if Blank(a + b) {
      forall i | 0 <= i < |a| ensures IsSpace(a[i]) {
        assert (a + b)[i] == a[i];
      }
      forall i | 0 <= i < |b| ensures IsSpace(b[i]) {
        assert (a + b)[|a| + i] == b[i];
      }
    }
  }

  /** Number of whitespace characters at the start of `s`. */
  function LeadingSpaces(s: string): (n: nat)
    ensures n <= |s|
    ensures forall i | 0 <= i < n :: IsSpace(s[i])
    ensures n < |s| ==> !IsSpace(s[n])
  {
    if s == [] || !IsSpace(s[0]) then 0 else 1 + LeadingSpaces(s[1..])
  }

  /** Number of whitespace characters at the end of `s`. */
  function TrailingSpaces(s: string): (n: nat)
    ensures n <= |s|
    ensures forall i | |s| - n <= i < |s| :: IsSpace(s[i])
    ensures n < |s| ==> !IsSpace(s[|s| - 1 - n])
  {
    if s == [] || !IsSpace(s[|s| - 1]) then 0 else 1 + TrailingSpaces(s[..|s| - 1])
  }

  /**
   * `s.strip()`: `s` is blank + result + blank, and the result neither starts
   * nor ends with whitespace; it is empty exactly when `s` is blank.
   */
  function Strip(s: string): (r: string)
    ensures |r| <= |s|
    ensures LeadingSpaces(s) + |r| <= |s|
    ensures r == s[LeadingSpaces(s)..LeadingSpaces(s) + |r|]
    ensures Blank(s[..LeadingSpaces(s)]) && Blank(s[LeadingSpaces(s) + |r|..])
    ensures r != [] ==> !IsSpace(r[0]) && !IsSpace(r[|r| - 1])
    ensures r == [] <==> Blank(s)
  {
    var a := LeadingSpaces(s);
    var t := s[a..];
    var b := TrailingSpaces(t);
    StripTailBlank(s, a, b);
    StripEmptyIffBlank(s, a, b);
    t[..|t| - b]
  }

  /** What `TrailingSpaces` cut off is blank. */
  lemma StripTailBlank(s: string, a: nat, b: nat)
    requires a == LeadingSpaces(s) && b == TrailingSpaces(s[a..])
    ensures Blank(s[a + (|s| - a - b)..])
  {
    var t := s[a..];
    var tail := s[a + (|t| - b)..];
    forall i | 0 <= i < |tail| ensures IsSpace(tail[i]) {
      assert tail[i] == t[|t| - b + i];
    }
  }

  /** What is left after cutting both ends is empty exactly when `s` is blank. */
  lemma StripEmptyIffBlank(s: string, a: nat, b: nat)
    requires a == LeadingSpaces(s) && b == TrailingSpaces(s[a..])
    ensures s[a..][..|s| - a - b] == [] <==> Blank(s)
  {
    var t := s[a..];
    if a < |s| {
      assert t[0] == s[a] && !IsSpace(t[0]);
      assert !Blank(s);
      assert b < |t|;
      assert |t[..|t| - b]| == |t| - b > 0;
    } else {
      assert t == [];
      assert Blank(s) by {
        forall i | 0 <= i < |s| ensures IsSpace(s[i]) {
          assert i < a;
        }
      }
    }
  }

  /** Stripping leaves a text alone when it neither starts nor ends with whitespace. */
  lemma StripUntrimmed(s: string)
    requires s != [] && !IsSpace(s[0]) && !IsSpace(s[|s| - 1])
    ensures Strip(s) == s
  {
    var r := Strip(s);
    assert LeadingSpaces(s) == 0;
    forall k | 0 <= k < |s| ensures !Blank(s[k..]) {
      assert s[k..][|s| - 1 - k] == s[|s| - 1];
    }
  }

  /** Stripping keeps the first character of a text that does not start with whitespace. */
  lemma StripKeepsFirst(s: string)
    requires s != [] && !IsSpace(s[0])
    ensures Strip(s) != [] && Strip(s)[0] == s[0]
  {
    assert LeadingSpaces(s) == 0;
    assert !Blank(s);
  }

  /** `s.find(c)`: the first index of `c`, or -1. */
  function FindChar(s: string, c: char): (i: int)
    ensures -1 <= i < |s|
    ensures i == -1 <==> c !in s
    ensures i >= 0 ==> s[i] == c && c !in s[..i]
  {
    if s == [] then -1
    else if s[0] == c then 0
    else
      var j := FindChar(s[1..], c);
      assert s == [s[0]] + s[1..];
      if j == -1 then -1
      else
        assert s[..j + 1] == [s[0]] + s[1..][..j];
        j + 1
  }

  lemma FindCharAt(s: string, c: char, i: nat)
    requires i < |s| && s[i] == c && c !in s[..i]
    ensures FindChar(s, c) == i
  {
    var d := FindChar(s, c);
    assert d >= 0 by { assert c in s; }
    forall k | 0 <= k < i ensures s[k] != c {
      assert s[k] == s[..i][k];
    }
    forall k | 0 <= k < d ensures s[k] != c {
      assert s[k] == s[..d][k];
    }
  }

  /** `s.rfind(c)`: the last index of `c`, or -1. */
  function RFindChar(s: string, c: char): (i: int)
    ensures -1 <= i < |s|
    ensures i == -1 <==> c !in s
    ensures i >= 0 ==> s[i] == c && c !in s[i + 1..]
  {
    if s == [] then -1
    else if s[|s| - 1] == c then |s| - 1
    else
      var j := RFindChar(s[..|s| - 1], c);
      assert s == s[..|s| - 1] + [s[|s| - 1]];
      if j == -1 then -1
      else
        assert s[j + 1..] == s[..|s| - 1][j + 1..] + [s[|s| - 1]];
        j
  }

  /** `sub in s` for strings. */
  predicate Contains(s: string, sub: string)
    decreases |s|
  {
    |sub| <= |s| && (s[..|sub|] == sub || (s != [] && Contains(s[1..], sub)))
  }

  lemma {:induction false} ContainsInside(a: string, sub: string, b: string)
    ensures Contains(a + sub + b, sub)
    decreases |a|
  {
    var s := a + sub + b;
    if a == [] {
      assert s[..|sub|] == sub;
    } else {
      ContainsInside(a[1..], sub, b);
      assert s[1..] == a[1..] + sub + b;
    }
  }

  /** `s[:n]`: the first min(n, |s|) characters. */
  function Take(s: string, n: nat): (r: string)
    ensures |r| == if |s| <= n then |s| else n
    ensures r <= s
  {
    if |s| <= n then s else s[..n]
  }
}
