/** The JavaScript number conversions the page scripts rely on: `parseInt`,
    `Number(string)`, `Number.prototype.toString(radix)` on non-negative
    integers and `padStart`. Numbers are mathematical (no rounding to
    double precision). */
module JsNumber {
  import opened Wrappers
  import opened Text

  /** A JavaScript number: NaN, an infinity, or a finite value. */
  datatype JsNum = NaN | Infinite(positive: bool) | Finite(value: real) {
    predicate IsFinite() { Finite? }
  }

  /** The lower-case digit character for `d`. */
  function DigitChar(d: nat): (c: char)
    requires d < 36
    ensures DigitValue(c) == Some(d)
  {
    if d < 10 then ('0' as int + d) as char else ('a' as int + d - 10) as char
  }

  /** The value of `c` as a digit in any radix up to 36 (either case). */
  function DigitValue(c: char): (r: Option<nat>)
    ensures r.Some? ==> r.value < 36
  {
    if '0' <= c <= '9' then Some(c as int - '0' as int)
    else if 'a' <= c <= 'z' then Some(c as int - 'a' as int + 10)
    else if 'A' <= c <= 'Z' then Some(c as int - 'A' as int + 10)
    else None
  }

  predicate IsDigitIn(c: char, radix: nat) {
    DigitValue(c).Some? && DigitValue(c).value < radix
  }

  /** The value of a string of radix digits, most significant first. */
  function FromDigits(ds: string, radix: nat): nat
    requires forall i :: 0 <= i < |ds| ==> IsDigitIn(ds[i], radix)
  {
    if ds == [] then 0
    else
      assert IsDigitIn(ds[|ds| - 1], radix);
      var high := FromDigits(ds[..|ds| - 1], radix);
      ProductOfNats(high, radix);
      high * radix + DigitValue(ds[|ds| - 1]).value
  }

  lemma ProductOfNats(a: nat, b: nat)
    ensures a * b >= 0
  {
  }

  /** `n.toString(radix)` for a non-negative integer: lower-case digits, no
      leading zeros. */
  function ToRadix(n: nat, radix: nat): (r: string)
    requires 2 <= radix <= 36
    ensures |r| >= 1
    ensures forall i :: 0 <= i < |r| ==> IsDigitIn(r[i], radix)
    ensures n < radix <==> |r| == 1
    decreases n
  {
    if n < radix then [DigitChar(n)]
    else
      DivShrinks(n, radix);
      ToRadix(n / radix, radix) + [DigitChar(n % radix)]
  }

  lemma DivShrinks(n: nat, radix: nat)
    requires 2 <= radix <= n
    ensures 1 <= n / radix < n
  {
  }

  /** Reading back what `toString(radix)` wrote gives the number again. */
  lemma {:induction false} FromToRadix(n: nat, radix: nat)
    requires 2 <= radix <= 36
    ensures FromDigits(ToRadix(n, radix), radix) == n
    decreases n
  {
    if n >= radix {
      DivShrinks(n, radix);
      var q, d := n / radix, n % radix;
      var prefix := ToRadix(q, radix);
      FromToRadix(q, radix);
      FromDigitsSnoc(prefix, DigitChar(d), radix);
      DivMod(n, radix);
    }
  }

  lemma FromDigitsSnoc(ds: string, c: char, radix: nat)
    requires forall i :: 0 <= i < |ds| ==> IsDigitIn(ds[i], radix)
    requires IsDigitIn(c, radix)
    ensures FromDigits(ds + [c], radix) == FromDigits(ds, radix) * radix + DigitValue(c).value
  {
    assert (ds + [c])[..|ds|] == ds;
  }

  lemma DivMod(n: nat, radix: nat)
    requires radix >= 2
    ensures (n / radix) * radix + n % radix == n
  {
  }

  function Decimal(n: nat): string { ToRadix(n, 10) }

  /** `Number.prototype.toString()` of an integer. */
  function IntToString(i: int): string {
    if i < 0 then "-" + Decimal(-i) else Decimal(i)
  }

  /** `s.padStart(width, fill)`. */
  function PadStart(s: string, width: nat, fill: char): (r: string)
    ensures |r| == if |s| >= width then |s| else width
    ensures r[|r| - |s|..] == s
    ensures forall i :: 0 <= i < |r| - |s| ==> r[i] == fill
  {
    if |s| >= width then s else seq(width - |s|, _ => fill) + s
  }

  /** Length of the longest prefix of `s` made of radix digits. */
  function DigitPrefixLength(s: string, radix: nat): (k: nat)
    ensures k <= |s|
    ensures k < |s| ==> !IsDigitIn(s[k], radix)
  {
    if s == [] || !IsDigitIn(s[0], radix) then 0
    else 1 + DigitPrefixLength(s[1..], radix)
  }

  /** The prefix `DigitPrefixLength` measures is all digits. */
  lemma {:induction false} DigitPrefixDigits(s: string, radix: nat)
    ensures AllDigits(s[..DigitPrefixLength(s, radix)], radix)
    decreases |s|
  {
    if s != [] && IsDigitIn(s[0], radix) {
      DigitPrefixDigits(s[1..], radix);
      var k := DigitPrefixLength(s, radix);
      assert s[..k] == [s[0]] + s[1..][..k - 1];
    }
  }

  predicate HasHexPrefix(s: string) {
    |s| >= 2 && s[0] == '0' && (s[1] == 'x' || s[1] == 'X')
  }

  /** `parseInt(s, radix)`; a radix argument of 0 stands for an absent one.
      `None` is NaN. Leading whitespace and a sign are skipped, radix 16
      (given or absent) accepts a `0x` prefix, and the longest digit prefix
      is read; no digit at all is NaN. */
  function ParseInt(s: string, radix: int): (r: Option<int>)
    ensures radix != 0 && (radix < 2 || radix > 36) ==> r == None
  {
    if radix != 0 && (radix < 2 || radix > 36) then None
    else SignedPrefix(TrimStart(s), radix)
  }

  /** `parseInt` after the leading whitespace: an optional sign, then the
      unsigned part; a minus sign negates it. */
  function SignedPrefix(t: string, radix: int): (r: Option<int>)
    requires radix == 0 || 2 <= radix <= 36
  {
    var negative := t != [] && t[0] == '-';
    var u := if t != [] && (t[0] == '-' || t[0] == '+') then t[1..] else t;
    match UnsignedPrefix(u, radix)
    case None => None
    case Some(v) => Some(if negative then 0 - v else v)
  }

  /** The radix `parseInt` reads digits in once any `0x` prefix is known. */
  function EffectiveRadix(u: string, radix: int): (base: nat)
    requires radix == 0 || 2 <= radix <= 36
    ensures 2 <= base <= 36
  {
    if (radix == 0 || radix == 16) && HasHexPrefix(u) then 16
    else if radix == 0 then 10
    else radix
  }

  /** The unsigned part of `parseInt`: skip a `0x` prefix when the radix is
      16 or absent, then read the longest digit prefix; none is NaN. */
  function UnsignedPrefix(u: string, radix: int): (r: Option<nat>)
    requires radix == 0 || 2 <= radix <= 36
  {
    var body := if (radix == 0 || radix == 16) && HasHexPrefix(u) then u[2..] else u;
    var base := EffectiveRadix(u, radix);
    var k := DigitPrefixLength(body, base);
    DigitPrefixDigits(body, base);
    if k == 0 then None else Some(FromDigits(body[..k], base))
  }

  /** A nonempty string of digits of the radix in use (and no `0x` prefix
      when that radix would skip one) is read in full. */
  lemma UnsignedOfDigits(d: string, radix: int)
    requires radix == 0 || 2 <= radix <= 36
    requires !((radix == 0 || radix == 16) && HasHexPrefix(d))
    requires |d| > 0 && AllDigits(d, EffectiveRadix(d, radix))
    ensures UnsignedPrefix(d, radix) == Some(FromDigits(d, EffectiveRadix(d, radix)))
  {
    var base := EffectiveRadix(d, radix);
    assert IsDigitIn(d[0], base);
    DigitPrefixAll(d, base);
    assert d[..|d|] == d;
  }

  /** A string made only of radix digits (and not starting with a `0x`
      prefix that radix 16 would skip) parses to its digit value. */
  lemma ParseIntOfDigits(s: string, radix: nat)
    requires 2 <= radix <= 36
    requires |s| > 0 && AllDigits(s, radix)
    requires radix == 16 ==> !HasHexPrefix(s)
    ensures ParseInt(s, radix) == Some(FromDigits(s, radix))
  {
    assert IsDigitIn(s[0], radix);
    assert TrimStart(s) == s;
    UnsignedOfDigits(s, radix);
  }

  /** `parseInt(String(n))` and `parseInt(String(n), 10)` give back `n`. */
  lemma ParseIntDecimal(n: int)
    ensures ParseInt(IntToString(n), 10) == Some(n)
    ensures ParseInt(IntToString(n), 0) == Some(n)
  {
    var m: nat := if n < 0 then -n else n;
    var d := Decimal(m);
    FromToRadix(m, 10);
    assert IsDigitIn(d[0], 10);
    UnsignedNumeral(d, 10);
    ParseIntOfNumeral(IntToString(n), d, 10, n < 0, m);
    UnsignedNumeral(d, 0);
    ParseIntOfNumeral(IntToString(n), d, 0, n < 0, m);
  }

  /** A numeral that does not start with a sign or a space, possibly after
      a minus sign, parses to the value of its unsigned part. */
  lemma ParseIntOfNumeral(t: string, d: string, radix: int, negative: bool, value: nat)
    requires radix == 0 || radix == 10
    requires d != [] && '0' <= d[0] <= '9'
    requires UnsignedPrefix(d, radix) == Some(value)
    requires t == if negative then "-" + d else d
    ensures ParseInt(t, radix) == Some(if negative then 0 - value else value)
  {
    assert TrimStart(t) == t by {
      assert t[0] == '-' || t[0] == d[0];
    }
    if negative {
      NegatedNumeral(t, d, radix, UnsignedPrefix(d, radix));
    } else {
      PlainNumeral(t, radix, UnsignedPrefix(d, radix));
    }
  }

  lemma PlainNumeral(t: string, radix: int, v: Option<nat>)
    requires radix == 0 || radix == 10
    requires t != [] && t[0] != '-' && t[0] != '+' && v == UnsignedPrefix(t, radix) && v.Some?
    ensures SignedPrefix(t, radix) == Some(v.value as int)
  {
  }

  lemma NegatedNumeral(t: string, d: string, radix: int, v: Option<nat>)
    requires radix == 0 || radix == 10
    requires t == "-" + d && v == UnsignedPrefix(d, radix) && v.Some?
    ensures SignedPrefix(t, radix) == Some(0 - v.value)
  {
    assert t[0] == '-' && t[1..] == d;
  }

  lemma UnsignedNumeral(d: string, radix: int)
    requires radix == 0 || radix == 10
    requires |d| > 0 && AllDigits(d, 10)
    ensures UnsignedPrefix(d, radix) == Some(FromDigits(d, 10))
  {
    assert IsDigitIn(d[|d| - 1], 10);
    assert !HasHexPrefix(d);
    assert EffectiveRadix(d, radix) == 10;
    UnsignedOfDigits(d, radix);
  }

  lemma {:induction false} DigitPrefixAll(s: string, radix: nat)
    requires forall i :: 0 <= i < |s| ==> IsDigitIn(s[i], radix)
    ensures DigitPrefixLength(s, radix) == |s|
    decreases |s|
  {
    if s != [] {
      DigitPrefixAll(s[1..], radix);
    }
  }

  // ---- Number(string) ----

  function Pow10(e: nat): (r: real)
    ensures r >= 1.0
  {
    if e == 0 then 1.0 else 10.0 * Pow10(e - 1)
  }

  predicate AllDigits(s: string, radix: nat) {
    forall i :: 0 <= i < |s| ==> IsDigitIn(s[i], radix)
  }

  /** The digits before and after an optional '.', at least one in all;
      `None` when `s` is not of that form. */
  function Mantissa(s: string): Option<real> {
    var dot := IndexOfChar(s, '.');
    var whole := if dot < 0 then s else s[..dot];
    var frac := if dot < 0 then [] else s[dot + 1..];
    if !AllDigits(whole, 10) || !AllDigits(frac, 10) || |whole| + |frac| == 0 then None
    else Some(DecimalValue(whole, frac))
  }

  /** The value of the digits `whole` followed by the fraction digits `frac`. */
  function DecimalValue(whole: string, frac: string): real
    requires AllDigits(whole, 10) && AllDigits(frac, 10)
  {
    FromDigits(whole, 10) as real + FromDigits(frac, 10) as real / Pow10(|frac|)
  }

  /** An optionally signed run of at least one decimal digit. */
  function Exponent(x: string): Option<int> {
    var digits := if x != [] && (x[0] == '-' || x[0] == '+') then x[1..] else x;
    if digits == [] || !AllDigits(digits, 10) then None
    else if x[0] == '-' then Some(0 - FromDigits(digits, 10))
    else Some(FromDigits(digits, 10))
  }

  /** An unsigned decimal numeral with optional fraction and exponent
      (`12`, `1.5`, `.5`, `3.`, `2e-3`); `None` when `s` is not one. */
  function UnsignedDecimal(s: string): Option<real> {
    var e := FirstOf(s, 'e', 'E');
    if e < 0 then Mantissa(s)
    else match (Mantissa(s[..e]), Exponent(s[e + 1..]))
      case (Some(m), Some(x)) => Some(if x < 0 then m / Pow10(-x) else m * Pow10(x))
      case _ => None
  }

  /** The first index holding `a` or `b`, or -1. */
  function FirstOf(s: string, a: char, b: char): (r: int)
    ensures -1 <= r < |s|
    ensures r >= 0 ==> s[r] == a || s[r] == b
  {
    if s == [] then -1
    else if s[0] == a || s[0] == b then 0
    else
      var k := FirstOf(s[1..], a, b);
      if k < 0 then -1 else k + 1
  }

  /** `Number(s)` for a string: surrounding whitespace is ignored, the empty
      string is 0, `0x`/`0o`/`0b` literals are unsigned integers, otherwise
      an optionally signed decimal numeral or `Infinity`; anything else is
      NaN. */
  function StringToNumber(s: string): (r: JsNum)
    ensures Trim(s) == [] ==> r == Finite(0.0)
  {
    TrimmedToNumber(Trim(s))
  }

  /** `Number` of a string without surrounding whitespace. */
  function TrimmedToNumber(t: string): JsNum {
    if t == [] then Finite(0.0)
    else if |t| >= 2 && t[0] == '0' && t[1] in "xXoObB" then
      var radix := if t[1] in "xX" then 16 else if t[1] in "oO" then 8 else 2;
      var ds := t[2..];
      if ds != [] && AllDigits(ds, radix) then Finite(FromDigits(ds, radix) as real) else NaN
    else
      var negative := t[0] == '-';
      var body := if t[0] == '-' || t[0] == '+' then t[1..] else t;
      if body == "Infinity" then Infinite(!negative)
      else match UnsignedDecimal(body)
        case None => NaN
        case Some(v) => Finite(if negative then -v else v)
  }

  /** `Number(s)` reads back a non-negative decimal integer. */
  lemma StringToNumberDecimal(n: nat)
    ensures StringToNumber(Decimal(n)) == Finite(n as real)
  {
    StringToNumberOfDigits(Decimal(n));
    FromToRadix(n, 10);
  }

  lemma StringToNumberOfDigits(d: string)
    requires |d| > 0 && AllDigits(d, 10)
    ensures StringToNumber(d) == Finite(FromDigits(d, 10) as real)
  {
    assert IsDigitIn(d[0], 10) && IsDigitIn(d[|d| - 1], 10);
    TrimOfTrimmed(d);
    TrimmedToNumberOfDigits(d);
  }

  lemma TrimmedToNumberOfDigits(d: string)
    requires |d| > 0 && AllDigits(d, 10)
    ensures TrimmedToNumber(d) == Finite(FromDigits(d, 10) as real)
  {
    assert IsDigitIn(d[0], 10);
    assert !(|d| >= 2 && d[0] == '0' && d[1] in "xXoObB") by {
      if |d| >= 2 {
        assert IsDigitIn(d[1], 10);
      }
    }
    assert d != "Infinity" by {
      assert "Infinity"[0] == 'I';
    }
    NoLetterIn(d, 10);
    assert UnsignedDecimal(d) == Mantissa(d);
    MantissaOfDigits(d);
  }

  lemma MantissaOfDigits(d: string)
    requires |d| > 0 && AllDigits(d, 10)
    ensures Mantissa(d) == Some(FromDigits(d, 10) as real)
  {
  }

  lemma {:induction false} NoLetterIn(s: string, radix: nat)
    requires radix <= 10
    requires AllDigits(s, radix)
    ensures FirstOf(s, 'e', 'E') == -1
    decreases |s|
  {
    if s != [] {
      NoLetterIn(s[1..], radix);
    }
  }

  /** `Number(s)` reads back a decimal with a fraction, `w.f`. */
  lemma StringToNumberOfFraction(w: string, f: string)
    requires |w| > 0 && |f| > 0 && AllDigits(w, 10) && AllDigits(f, 10)
    ensures StringToNumber(w + "." + f) ==
      Finite(DecimalValue(w, f))
  {
    var t := w + "." + f;
    assert IsDigitIn(t[0], 10) && IsDigitIn(t[|t| - 1], 10) by {
      assert t[0] == w[0] && t[|t| - 1] == f[|f| - 1];
    }
    TrimOfTrimmed(t);
    TrimmedToNumberOfFraction(t, w, f);
  }

  lemma TrimmedToNumberOfFraction(t: string, w: string, f: string)
    requires |w| > 0 && |f| > 0 && AllDigits(w, 10) && AllDigits(f, 10)
    requires t == w + "." + f
    ensures TrimmedToNumber(t) == Finite(DecimalValue(w, f))
  {
    assert IsDigitIn(w[0], 10) && t[0] == w[0];
    assert !(|t| >= 2 && t[0] == '0' && t[1] in "xXoObB") by {
      assert t[1] == '.' || (t[1] == w[1] && IsDigitIn(w[1], 10));
    }
    assert t != "Infinity" by {
      assert "Infinity"[0] == 'I';
    }
    UnsignedDecimalOfFraction(w, f);
  }

  /** `Number(String(n) + ".0")` is `n`. */
  lemma StringToNumberPointZero(n: nat)
    ensures StringToNumber(Decimal(n) + ".0") == Finite(n as real)
  {
    var d := Decimal(n);
    FromToRadix(n, 10);
    assert AllDigits("0", 10) by {
      assert IsDigitIn("0"[0], 10);
    }
    StringToNumberOfFraction(d, "0");
    assert d + "." + "0" == d + ".0";
    ZeroFraction(d);
  }

  /** A fraction of one zero adds nothing. */
  lemma ZeroFraction(w: string)
    requires AllDigits(w, 10) && AllDigits("0", 10)
    ensures DecimalValue(w, "0") == FromDigits(w, 10) as real
  {
    assert "0"[..0] == [];
    assert FromDigits("0", 10) == 0;
  }

  lemma UnsignedDecimalOfFraction(w: string, f: string)
    requires |w| > 0 && |f| > 0 && AllDigits(w, 10) && AllDigits(f, 10)
    ensures UnsignedDecimal(w + "." + f) ==
      Some(DecimalValue(w, f))
  {
    var t := w + "." + f;
    forall i | 0 <= i < |t|
      ensures t[i] != 'e' && t[i] != 'E'
    {
      if i < |w| {
        assert t[i] == w[i] && IsDigitIn(w[i], 10);
      } else if i > |w| {
        assert t[i] == f[i - |w| - 1] && IsDigitIn(f[i - |w| - 1], 10);
      }
    }
    NoExponentLetter(t);
    MantissaOfFraction(w, f);
  }

  lemma MantissaOfFraction(w: string, f: string)
    requires AllDigits(w, 10) && AllDigits(f, 10) && |w| + |f| > 0
    ensures Mantissa(w + "." + f) ==
      Some(DecimalValue(w, f))
  {
    var t := w + "." + f;
    var dot := IndexOfChar(t, '.');
    assert t[|w|] == '.';
    assert forall i :: 0 <= i < |w| ==> t[i] == w[i] && IsDigitIn(w[i], 10);
    var whole, frac := t[..dot], t[dot + 1..];
    assert whole == w && frac == f;
    assert AllDigits(whole, 10) && AllDigits(frac, 10);
    assert Mantissa(t) == Some(DecimalValue(w, f));
  }

  lemma {:induction false} NoExponentLetter(s: string)
    requires forall i :: 0 <= i < |s| ==> s[i] != 'e' && s[i] != 'E'
    ensures FirstOf(s, 'e', 'E') == -1
    decreases |s|
  {
    if s != [] {
      NoExponentLetter(s[1..]);
    }
  }
}
