/**
 * `safe_decimal`: Python's `Decimal(str(value))` on the values a decoded record
 * can hold, with every failure turned into zero. Numerals are read exactly;
 * the special values NaN, sNaN and Infinity are read as such.
 */
module Decimals {
  import opened Values
  import opened Text

  /** What a `Decimal` holds: a finite number, an infinity, or a quiet or signalling NaN. */
  datatype Dec = Finite(value: real) | Infinite(negative: bool) | NotANumber(signalling: bool)

  predicate IsDigit(c: char) {
    '0' <= c <= '9'
  }

  predicate AllDigits(s: string) {
    forall i | 0 <= i < |s| :: IsDigit(s[i])
  }

  function DigitValue(c: char): nat
    requires IsDigit(c)
  {
    c as int - '0' as int
  }

  /** The number a run of decimal digits denotes (0 for no digits). */
  function DigitsValue(s: string): nat
    requires AllDigits(s)
  {
    if s == [] then 0 else 10 * DigitsValue(s[..|s| - 1]) + DigitValue(s[|s| - 1])
  }

  function Pow10(e: nat): (p: nat)
    ensures p >= 1
  {
    if e == 0 then 1 else 10 * Pow10(e - 1)
  }

  /** v * 10^e */
  function Scale(v: real, e: int): real {
    if e >= 0 then v * Pow10(e) as real else v / Pow10(-e) as real
  }

  /** Index of the first exponent marker, 'e' or 'E', or -1. */
  function ExponentIndex(s: string): (i: int)
    ensures -1 <= i < |s|
    ensures i >= 0 ==> s[i] == 'e' || s[i] == 'E'
    ensures forall k | 0 <= k < |s| && (i == -1 || k < i) :: s[k] != 'e' && s[k] != 'E'
  {
    if s == [] then -1
    else if s[0] == 'e' || s[0] == 'E' then 0
    else
      var j := ExponentIndex(s[1..]);
      if j == -1 then -1 else j + 1
  }

  /** `ddd`, `ddd.`, `.ddd` or `ddd.ddd`: at least one digit, at most one point. */
  function ParseMantissa(s: string): Option<real> {
    var d := FindChar(s, '.');
    if d < 0 then
      if s != [] && AllDigits(s) then Some(DigitsValue(s) as real) else None
    else
      var whole := s[..d];
      var frac := s[d + 1..];
      if AllDigits(whole) && AllDigits(frac) && |whole| + |frac| > 0 then
        Some(PointValue(whole, frac))
      else
        None
  }

  /** The value of the digits after a decimal point: `.frac`. */
  function FractionValue(frac: string): real
    requires AllDigits(frac)
  {
    if frac == [] then 0.0 else (DigitValue(frac[0]) as real + FractionValue(frac[1..])) / 10.0
  }

  /** The value of the numeral `whole.frac`. */
  function PointValue(whole: string, frac: string): real
    requires AllDigits(whole) && AllDigits(frac)
  {
    DigitsValue(whole) as real + FractionValue(frac)
  }

  /** An optionally signed run of digits after the exponent marker. */
  function ParseExponent(s: string): Option<int> {
    var signed := |s| > 0 && (s[0] == '+' || s[0] == '-');
    var digits := if signed then s[1..] else s;
    if digits != [] && AllDigits(digits) then
      Some(if signed && s[0] == '-' then -(DigitsValue(digits) as int) else DigitsValue(digits))
    else
      None
  }

  function ParseUnsigned(s: string): Option<real> {
    var e := ExponentIndex(s);
    if e < 0 then
      ParseMantissa(s)
    else
      match (ParseMantissa(s[..e]), ParseExponent(s[e + 1..]))
      case (Some(m), Some(x)) => Some(Scale(m, x))
      case _ => None
  }

  /** ASCII lower case: the constructor ignores the case of the letters it reads. */
  function Lower(c: char): char {
    if 'A' <= c <= 'Z' then (c as int + 32) as char else c
  }

  /** The text with its underscores dropped: the constructor ignores them wherever they stand. */
  function WithoutUnderscores(s: string): (r: string)
    ensures |r| <= |s|
  {
    if s == [] then [] else (if s[0] == '_' then [] else [s[0]]) + WithoutUnderscores(s[1..])
  }

  /** `Inf` or `Infinity`, in any letter case. */
  predicate IsInfinityWord(s: string) {
    && (|s| == 3 || |s| == 8)
    && Lower(s[0]) == 'i' && Lower(s[1]) == 'n' && Lower(s[2]) == 'f'
    && (|s| == 8 ==>
          Lower(s[3]) == 'i' && Lower(s[4]) == 'n' && Lower(s[5]) == 'i'
          && Lower(s[6]) == 't' && Lower(s[7]) == 'y')
  }

  /** `NaN` or `sNaN` in any letter case, followed by optional diagnostic digits. */
  predicate IsNaNWord(s: string) {
    || (|s| >= 3 && Lower(s[0]) == 'n' && Lower(s[1]) == 'a' && Lower(s[2]) == 'n' && AllDigits(s[3..]))
    || (|s| >= 4 && Lower(s[0]) == 's' && Lower(s[1]) == 'n' && Lower(s[2]) == 'a' && Lower(s[3]) == 'n'
        && AllDigits(s[4..]))
  }

  /** A stripped numeric string: an optional sign, then an infinity, a NaN or a numeral. */
  function ReadNumeric(t: string): Option<Dec> {
    var signed := |t| > 0 && (t[0] == '+' || t[0] == '-');
    var negative := signed && t[0] == '-';
    var body := if signed then t[1..] else t;
    if IsInfinityWord(body) then Some(Infinite(negative))
    else if IsNaNWord(body) then Some(NotANumber(Lower(body[0]) == 's'))
    else
      match ParseUnsigned(body)
      case Some(v) => Some(Finite(if negative then -v else v))
      case None => None
  }

  /**
   * `Decimal(text)`: surrounding whitespace is stripped and underscores are
   * dropped before the text is read; None where the constructor raises. A blank
   * text is rejected.
   */
  function ParseDecimal(text: string): (r: Option<Dec>)
    ensures r.Some? ==> WithoutUnderscores(Strip(text)) != []
  {
    ReadNumeric(WithoutUnderscores(Strip(text)))
  }

  /**
   * `safe_decimal(value)`: None is 0, a number is itself, a string is read by
   * the constructor, and anything it rejects is 0. A bool, list or dict is
   * rejected because its str() is not a numeral (RenderedBoolsAreNotNumerals,
   * RenderedContainersAreNotNumerals). It never raises, and only a text can
   * yield an infinity or a NaN.
   */
  function SafeDecimal(v: Json): (d: Dec)
    ensures v.JNull? ==> d == Finite(0.0)
    ensures v.JNum? ==> d == Finite(v.n)
    ensures !d.Finite? ==> v.JStr? && ParseDecimal(v.s) == Some(d)
    ensures v.JStr? && ParseDecimal(v.s).None? ==> d == Finite(0.0)
    ensures v.JStr? && ParseDecimal(v.s).Some? ==> d == ParseDecimal(v.s).value
    ensures v.JBool? || v.JArr? || v.JObj? ==> d == Finite(0.0)
  {
    match v
    case JNum(n) => Finite(n)
    case JStr(s) => (match ParseDecimal(s) case Some(d) => d case None => Finite(0.0))
    case _ => Finite(0.0)
  }

  function DigitChar(d: nat): (c: char)
    requires d < 10
    ensures IsDigit(c) && DigitValue(c) == d
  {
    ('0' as int + d) as char
  }

  /** The decimal text of a natural number, as str() writes it. */
  function NatText(n: nat): (s: string)
    ensures s != [] && AllDigits(s)
  {
    if n < 10 then [DigitChar(n)] else NatText(n / 10) + [DigitChar(n % 10)]
  }

  lemma {:induction false} DigitsValueOfNatText(n: nat)
    ensures DigitsValue(NatText(n)) == n
  {
    if n >= 10 {
      var s := NatText(n);
      assert s[..|s| - 1] == NatText(n / 10);
      DigitsValueOfNatText(n / 10);
    }
  }

  /** A text drops no character but its underscores. */
  lemma {:induction false} NoUnderscoresKept(s: string)
    requires forall k | 0 <= k < |s| :: s[k] != '_'
    ensures WithoutUnderscores(s) == s
  {
    if s != [] {
      NoUnderscoresKept(s[1..]);
    }
  }

  /** What is left after dropping the underscores is made of the text's other characters. */
  lemma {:induction false} UnderscoresDropped(s: string)
    ensures forall c | c in WithoutUnderscores(s) :: c in s && c != '_'
  {
    if s != [] {
      UnderscoresDropped(s[1..]);
    }
  }

  lemma FirstKept(s: string)
    requires s != [] && s[0] != '_'
    ensures WithoutUnderscores(s) != [] && WithoutUnderscores(s)[0] == s[0]
  {
  }

  /** Every special word starts with an i, an n or an s, in either case. */
  lemma NotSpecialByFirst(s: string)
    requires s != [] && Lower(s[0]) != 'i' && Lower(s[0]) != 'n' && Lower(s[0]) != 's'
    ensures !IsInfinityWord(s) && !IsNaNWord(s)
  {
  }

  /** A letter or digit once lowered is neither whitespace nor an underscore. */
  lemma LoweredPlain(c: char)
    requires 'a' <= Lower(c) <= 'z' || IsDigit(Lower(c))
    ensures !IsSpace(c) && c != '_'
  {
  }

  /** A special word neither starts nor ends with whitespace. */
  lemma SpecialWordEnds(word: string)
    requires IsInfinityWord(word) || IsNaNWord(word)
    ensures word != [] && !IsSpace(word[0]) && !IsSpace(word[|word| - 1])
  {
    var n := |word|;
    LoweredPlain(word[0]);
    if !IsInfinityWord(word) {
      if Lower(word[0]) == 'n' && n > 3 {
        assert word[n - 1] == word[3..][n - 4];
      } else if Lower(word[0]) == 's' && n > 4 {
        assert word[n - 1] == word[4..][n - 5];
      }
    }
    LoweredPlain(word[n - 1]);
  }

  /** A special word holds no underscore. */
  lemma SpecialWordNoUnderscore(word: string)
    requires IsInfinityWord(word) || IsNaNWord(word)
    ensures forall k | 0 <= k < |word| :: word[k] != '_'
  {
    forall k | 0 <= k < |word| ensures word[k] != '_' {
      if !IsInfinityWord(word) {
        if Lower(word[0]) == 'n' && k >= 3 {
          assert word[k] == word[3..][k - 3];
        } else if Lower(word[0]) == 's' && k >= 4 {
          assert word[k] == word[4..][k - 4];
        }
      }
    }
  }

  /** A sign and a special word need no stripping. */
  lemma SignedSpecialStripped(sign: string, word: string)
    requires sign == "" || sign == "+" || sign == "-"
    requires IsInfinityWord(word) || IsNaNWord(word)
    ensures Strip(sign + word) == sign + word
  {
    var t := sign + word;
    SpecialWordEnds(word);
    assert t[|t| - 1] == word[|word| - 1];
    assert t[0] == if sign == "" then word[0] else sign[0];
    StripUntrimmed(t);
  }

  /** A sign and a special word hold no underscore. */
  lemma SignedSpecialNoUnderscore(sign: string, word: string)
    requires sign == "" || sign == "+" || sign == "-"
    requires IsInfinityWord(word) || IsNaNWord(word)
    ensures WithoutUnderscores(sign + word) == sign + word
  {
    var t := sign + word;
    SpecialWordNoUnderscore(word);
    forall k | 0 <= k < |t| ensures t[k] != '_' {
      if k >= |sign| {
        assert t[k] == word[k - |sign|];
      }
    }
    NoUnderscoresKept(t);
  }

  /** An optional sign and a special word are read as they stand. */
  lemma SignedSpecialRead(sign: string, word: string)
    requires sign == "" || sign == "+" || sign == "-"
    requires IsInfinityWord(word) || IsNaNWord(word)
    ensures ParseDecimal(sign + word) == ReadNumeric(sign + word)
  {
    SignedSpecialStripped(sign, word);
    SignedSpecialNoUnderscore(sign, word);
  }

  /** The numeral reader takes an optional sign, then a special word. */
  lemma SpecialValueNumeric(sign: string, word: string)
    requires sign == "" || sign == "+" || sign == "-"
    requires IsInfinityWord(word) || IsNaNWord(word)
    ensures IsInfinityWord(word) ==> ReadNumeric(sign + word) == Some(Infinite(sign == "-"))
    ensures IsNaNWord(word) ==> ReadNumeric(sign + word) == Some(NotANumber(Lower(word[0]) == 's'))
  {
    var t := sign + word;
    if sign == "" {
      assert t == word;
      LoweredPlain(word[0]);
    } else {
      assert t[0] == sign[0] && t[1..] == word;
    }
  }

  /**
   * `Decimal` reads an infinity or a NaN, in any letter case and after an
   * optional sign; `sNaN` is the signalling NaN.
   */
  lemma SpecialValuesRead(sign: string, word: string)
    requires sign == "" || sign == "+" || sign == "-"
    requires IsInfinityWord(word) || IsNaNWord(word)
    ensures IsInfinityWord(word) ==> ParseDecimal(sign + word) == Some(Infinite(sign == "-"))
    ensures IsNaNWord(word) ==> ParseDecimal(sign + word) == Some(NotANumber(Lower(word[0]) == 's'))
  {
    SignedSpecialRead(sign, word);
    SpecialValueNumeric(sign, word);
  }

  /** "Infinity" is read as positive infinity, not as 0. */
  lemma InfinityAccepted()
    ensures ParseDecimal("Infinity") == Some(Infinite(false))
  {
    SpecialValuesRead("", "Infinity");
    assert "" + "Infinity" == "Infinity";
  }

  /** "NaN" is read as a quiet NaN, not as 0. */
  lemma NaNAccepted()
    ensures ParseDecimal("NaN") == Some(NotANumber(false))
  {
    SpecialValuesRead("", "NaN");
    assert "" + "NaN" == "NaN";
  }

  /** Without whitespace, a text reads as it does once its underscores are removed. */
  lemma UnderscoresIgnored(text: string)
    requires forall k | 0 <= k < |text| :: !IsSpace(text[k])
    ensures ParseDecimal(text) == ParseDecimal(WithoutUnderscores(text))
  {
    var t := WithoutUnderscores(text);
    UnderscoresDropped(text);
    if text != [] {
      StripUntrimmed(text);
    }
    assert forall k | 0 <= k < |t| :: t[k] in t;
    if t != [] {
      StripUntrimmed(t);
    }
    NoUnderscoresKept(t);
  }

  /** Grouped digits: "1_000" reads as 1000. */
  lemma GroupedThousandsRead()
    ensures ParseDecimal("1_000") == Some(Finite(1000.0))
  {
    ThousandRead();
    ThousandGrouped();
    UnderscoresIgnored("1_000");
  }

  lemma ThousandRead()
    ensures ParseDecimal("1000") == Some(Finite(1000.0))
  {
    assert NatText(1000) == "1000";
    ParseDecimalOfNatText(1000);
  }

  lemma ThousandGrouped()
    ensures WithoutUnderscores("1_000") == "1000"
    ensures forall k | 0 <= k < |"1_000"| :: !IsSpace("1_000"[k])
  {
  }

  lemma NoMarkersInDigits(s: string)
    requires AllDigits(s)
    ensures '.' !in s && ExponentIndex(s) == -1 && WithoutUnderscores(s) == s
  {
    assert forall k | 0 <= k < |s| :: s[k] != 'e' && s[k] != 'E' && s[k] != '.' && s[k] != '_';
    NoUnderscoresKept(s);
  }

  /**
   * A stripped text with no underscore and no exponent that starts with a
   * digit or a point is read as a plain mantissa.
   */
  lemma ReadsAsMantissa(t: string, v: real)
    requires t != [] && Strip(t) == t && WithoutUnderscores(t) == t
    requires IsDigit(t[0]) || t[0] == '.'
    requires ExponentIndex(t) == -1 && ParseMantissa(t) == Some(v)
    ensures ParseDecimal(t) == Some(Finite(v))
  {
    NotSpecialByFirst(t);
    UnsignedRead(t, v);
  }

  /** An unsigned text that is no special word is read by the numeral grammar. */
  lemma UnsignedRead(t: string, v: real)
    requires t != [] && t[0] != '+' && t[0] != '-'
    requires !IsInfinityWord(t) && !IsNaNWord(t)
    requires ParseUnsigned(t) == Some(v)
    ensures ReadNumeric(t) == Some(Finite(v))
  {
  }

  lemma MantissaOfDigits(s: string)
    requires s != [] && AllDigits(s)
    ensures ParseMantissa(s) == Some(DigitsValue(s) as real)
  {
    NoMarkersInDigits(s);
  }

  lemma {:induction false} MantissaOfAmount(whole: string, f: string)
    requires AllDigits(whole) && whole != [] && AllDigits(f)
    ensures ParseMantissa(whole + "." + f) == Some(PointValue(whole, f))
  {
    var s := whole + "." + f;
    NoMarkersInDigits(whole);
    assert s[..|whole|] == whole && s[|whole| + 1..] == f;
    assert s[|whole|] == '.';
    FindCharAt(s, '.', |whole|);
  }

  lemma {:induction false} AmountHasNoExponent(whole: string, f: string)
    requires AllDigits(whole) && AllDigits(f)
    ensures ExponentIndex(whole + "." + f) == -1
    ensures WithoutUnderscores(whole + "." + f) == whole + "." + f
  {
    var s := whole + "." + f;
    forall k | 0 <= k < |s| ensures s[k] != 'e' && s[k] != 'E' && s[k] != '_' {
      if k < |whole| {
        assert s[k] == whole[k];
      } else if k > |whole| {
        assert s[k] == f[k - |whole| - 1];
      }
    }
    NoUnderscoresKept(s);
  }

  /** Reading back the text of a whole number yields that number. */
  lemma {:induction false} ParseDecimalOfNatText(n: nat)
    ensures ParseDecimal(NatText(n)) == Some(Finite(n as real))
  {
    var s := NatText(n);
    StripUntrimmed(s);
    NoMarkersInDigits(s);
    MantissaOfDigits(s);
    ReadsAsMantissa(s, DigitsValue(s) as real);
    DigitsValueOfNatText(n);
  }

  /** Reading back an amount `w.f` (as in "25.00") yields w + 0.f. */
  lemma {:induction false} ParseDecimalOfAmount(w: nat, f: string)
    requires AllDigits(f)
    ensures ParseDecimal(NatText(w) + "." + f) == Some(Finite(w as real + FractionValue(f)))
  {
    DigitsValueOfNatText(w);
    MantissaOfAmountValue(NatText(w), w, f);
    AmountReadsAsMantissa(NatText(w), f, w as real + FractionValue(f));
  }

  lemma {:induction false} MantissaOfAmountValue(whole: string, w: nat, f: string)
    requires AllDigits(whole) && whole != [] && AllDigits(f) && DigitsValue(whole) == w
    ensures ParseMantissa(whole + "." + f) == Some(w as real + FractionValue(f))
  {
    MantissaOfAmount(whole, f);
    AmountValue(whole, w, f);
  }

  lemma {:induction false} AmountValue(whole: string, w: nat, f: string)
    requires AllDigits(whole) && AllDigits(f) && DigitsValue(whole) == w
    ensures PointValue(whole, f) == w as real + FractionValue(f)
  {
  }

  lemma {:induction false} AmountReadsAsMantissa(whole: string, f: string, v: real)
    requires AllDigits(whole) && whole != [] && AllDigits(f)
    requires ParseMantissa(whole + "." + f) == Some(v)
    ensures ParseDecimal(whole + "." + f) == Some(Finite(v))
  {
    var s := whole + "." + f;
    assert s[0] == whole[0];
    assert s[|s| - 1] == if f == [] then '.' else f[|f| - 1];
    StripUntrimmed(s);
    AmountHasNoExponent(whole, f);
    ReadsAsMantissa(s, v);
  }

  lemma MantissaRejects(m: string)
    requires m == [] || (!IsDigit(m[0]) && m[0] != '.')
    ensures ParseMantissa(m) == None
  {
    var d := FindChar(m, '.');
    if d > 0 {
      assert m[..d][0] == m[0];
    }
  }

  lemma UnsignedRejects(t: string)
    requires t != [] && !IsDigit(t[0]) && t[0] != '.'
    ensures ParseUnsigned(t) == None
  {
    var e := ExponentIndex(t);
    if e < 0 {
      MantissaRejects(t);
    } else if e == 0 {
      MantissaRejects(t[..0]);
    } else {
      assert t[..e][0] == t[0];
      MantissaRejects(t[..e]);
    }
  }

  /**
   * A stripped text `Decimal` cannot read: neither a sign, a digit nor a point
   * starts it, and it is no infinity and no NaN.
   */
  predicate NonNumeral(t: string) {
    && t != [] && !IsDigit(t[0]) && t[0] != '.' && t[0] != '+' && t[0] != '-'
    && !IsInfinityWord(t) && !IsNaNWord(t)
  }

  /** A text that is a non-numeral once stripped and rid of underscores is rejected. */
  lemma NonNumeralRejected(text: string)
    requires NonNumeral(WithoutUnderscores(Strip(text)))
    ensures ParseDecimal(text) == None
  {
    UnsignedRejects(WithoutUnderscores(Strip(text)));
  }

  /** A text whose first character starts no numeral and no special word is rejected. */
  lemma PlainWordRejected(text: string)
    requires text != [] && !IsSpace(text[0]) && text[0] != '_'
    requires !IsDigit(text[0]) && text[0] != '.' && text[0] != '+' && text[0] != '-'
    requires Lower(text[0]) != 'i' && Lower(text[0]) != 'n' && Lower(text[0]) != 's'
    ensures ParseDecimal(text) == None
  {
    StripKeepsFirst(text);
    FirstKept(Strip(text));
    NotSpecialByFirst(WithoutUnderscores(Strip(text)));
    NonNumeralRejected(text);
  }

  /**
   * str(True), str(False) and the str() of any list or dict are not
   * numerals, so safe_decimal turns those values into 0.
   */
  lemma RenderedBoolsAreNotNumerals()
    ensures ParseDecimal("True") == None && ParseDecimal("False") == None
  {
    PlainWordRejected("True");
    PlainWordRejected("False");
  }

  lemma RenderedContainersAreNotNumerals(rest: string)
    ensures ParseDecimal("[" + rest) == None && ParseDecimal("{" + rest) == None
  {
    PlainWordRejected("[" + rest);
    PlainWordRejected("{" + rest);
  }

  /** safe_decimal reads an amount written as text ("135.00") as that amount. */
  lemma {:induction false} SafeDecimalOfAmountText(w: nat, f: string)
    requires AllDigits(f)
    ensures SafeDecimal(JStr(NatText(w) + "." + f)) == Finite(w as real + FractionValue(f))
  {
    ParseDecimalOfAmount(w, f);
  }

  /**
   * safe_decimal turns a word Decimal cannot read, such as "N/A" or "TBD",
   * into 0 instead of raising.
   */
  lemma SafeDecimalOfWord(text: string)
    requires NonNumeral(WithoutUnderscores(Strip(text)))
    ensures SafeDecimal(JStr(text)) == Finite(0.0)
  {
    NonNumeralRejected(text);
  }

  /** "N/A" starts like "NaN" but is no NaN, so safe_decimal reads it as 0. */
  lemma NotApplicableIsZero()
    ensures SafeDecimal(JStr("N/A")) == Finite(0.0)
  {
    NotApplicableIsNonNumeral();
    SafeDecimalOfWord("N/A");
  }

  lemma NotApplicableIsNonNumeral()
    ensures NonNumeral(WithoutUnderscores(Strip("N/A")))
  {
    var text := "N/A";
    StripUntrimmed(text);
    NoUnderscoresKept(text);
  }
}
