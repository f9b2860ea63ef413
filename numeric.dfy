/** Decimal digit strings, the `parseInt` / `parseFloat` calls of the exporters,
    the None-absorbing sums they feed, and the rendering of a number as text
    (template interpolation `${n}`).

    Parsing is strict: an optional sign followed by decimal digits (and for
    `parseFloat` an optional fraction). Anything else is NaN, i.e. `None`. */
module Numeric {
  import opened Common

  predicate IsDigit(c: char) { '0' <= c <= '9' }

  predicate AllDigits(s: string)
  {
    forall i :: 0 <= i < |s| ==> IsDigit(s[i])
  }

  function DigitChar(d: nat): (c: char)
    requires d < 10
    ensures IsDigit(c)
  {
    ('0' as int + d) as char
  }

  function DigitValue(c: char): (d: nat)
    requires IsDigit(c)
    ensures d < 10 && DigitChar(d) == c
  {
    c as int - '0' as int
  }

  /** The number a digit string denotes, most significant digit first. */
  function DigitsValue(s: string): nat
    requires AllDigits(s)
  {
    if |s| == 0 then 0 else DigitsValue(s[..|s| - 1]) * 10 + DigitValue(s[|s| - 1])
  }

  function Pow10(n: nat): (p: nat)
    ensures p >= 1
  {
    if n == 0 then 1 else 10 * Pow10(n - 1)
  }

  /** The shortest decimal representation of a natural number, as
      `n.toString()` writes it: it reads back as `n` and starts with `0` only
      when it is `0` itself. */
  function NatToDigits(n: nat): (s: string)
    ensures |s| >= 1 && AllDigits(s)
    ensures DigitsValue(s) == n
    ensures n < 10 <==> |s| == 1
    ensures s[0] == '0' <==> n == 0
  {
    if n < 10 then [DigitChar(n)]
    else
      var prefix := NatToDigits(n / 10);
      var s := prefix + [DigitChar(n % 10)];
      assert s[..|s| - 1] == prefix && s[0] == prefix[0];
      s
  }

  /** Decimal text is unique: a digit string that starts with `0` only when it
      is `0` itself is the text `NatToDigits` gives for its value. */
  lemma {:induction false} NatToDigitsUnique(s: string)
    requires |s| >= 1 && AllDigits(s) && (s[0] == '0' ==> |s| == 1)
    ensures s == NatToDigits(DigitsValue(s))
    decreases |s|
  {
    var n := DigitsValue(s);
    var last := s[|s| - 1];
    var p := s[..|s| - 1];
    if |s| == 1 {
      assert p == "" && s == [last];
    } else {
      assert p[0] == s[0];
      assert AllDigits(p) by {
        forall i | 0 <= i < |p| ensures IsDigit(p[i]) { assert p[i] == s[i]; }
      }
      NatToDigitsUnique(p);
      var m, d := DigitsValue(p), DigitValue(last);
      assert m != 0;
      assert n == m * 10 + d && d < 10;
      assert n / 10 == m && n % 10 == d;
      assert s == p + [last];
    }
  }

  /** `n.toString()` for an integer: the digits of its magnitude, with no
      leading zero, after a `-` exactly when it is negative. It parses back
      as `n`. */
  function IntToString(n: int): (s: string)
    ensures |s| >= 1 && (s[0] == '-' <==> n < 0)
    ensures var digits := if n < 0 then s[1..] else s;
      |digits| >= 1 && AllDigits(digits) && (digits[0] == '0' <==> n == 0)
    ensures ParseInt(s) == Some(n)
  {
    if n >= 0 then
      var s := NatToDigits(n);
      assert IsDigit(s[0]);
      s
    else
      var s := "-" + NatToDigits(-n);
      assert s[1..] == NatToDigits(-n);
      s
  }

  /** `parseInt(s)` read strictly: an optional sign followed by at least one
      digit. A digit string reads as its value, a `-` negates it, and any
      other text is NaN. */
  function ParseInt(s: string): (r: Option<int>)
    ensures r.Some? ==> |s| >= 1 && forall i :: 0 < i < |s| ==> IsDigit(s[i])
    ensures r.Some? ==> IsDigit(s[0]) || ((s[0] == '-' || s[0] == '+') && |s| >= 2)
    ensures |s| >= 1 && AllDigits(s) ==> r == Some(DigitsValue(s))
    ensures |s| >= 2 && s[0] == '-' && AllDigits(s[1..]) ==> r == Some(-(DigitsValue(s[1..]) as int))
  {
    if |s| >= 2 && (s[0] == '-' || s[0] == '+') && AllDigits(s[1..]) then
      assert forall i :: 0 < i < |s| ==> s[i] == s[1..][i - 1];
      Some(if s[0] == '-' then -(DigitsValue(s[1..]) as int) else DigitsValue(s[1..]))
    else if |s| >= 1 && AllDigits(s) then
      Some(DigitsValue(s))
    else
      None
  }

  /** The empty field never reaches `parseInt`: `s || '0'` turns it into "0". */
  lemma ParseIntOfEmptyField()
    ensures ParseInt(Or("", "0")) == Some(0)
  {
    assert DigitsValue("0") == 0 by { assert "0"[..0] == ""; }
  }

  /** The value of a digit string is additive over concatenation. */
  lemma {:induction false} DigitsValueAppend(a: string, b: string)
    requires AllDigits(a) && AllDigits(b)
    ensures AllDigits(a + b)
    ensures DigitsValue(a + b) == DigitsValue(a) * Pow10(|b|) + DigitsValue(b)
    decreases |b|
  {
    if |b| > 0 {
      var b' := b[..|b| - 1];
      assert (a + b)[..|a + b| - 1] == a + b';
      DigitsValueAppend(a, b');
      var last := DigitValue(b[|b| - 1]);
      assert (a + b)[|a + b| - 1] == b[|b| - 1];
      calc {
        DigitsValue(a + b);
        DigitsValue(a + b') * 10 + last;
        (DigitsValue(a) * Pow10(|b'|) + DigitsValue(b')) * 10 + last;
        { MulAssoc(DigitsValue(a), Pow10(|b'|), 10); }
        DigitsValue(a) * (Pow10(|b'|) * 10) + (DigitsValue(b') * 10 + last);
        DigitsValue(a) * Pow10(|b|) + DigitsValue(b);
      }
    } else {
      assert a + b == a;
    }
  }

  // ---- Decimal numbers ------------------------------------------------------

  /** The exact number `units / 10^scale`. Weights and volumes are decimal
      strings in the forms, so their parsed values and sums are decimals. */
  datatype Decimal = Decimal(units: int, scale: nat)
  {
    function Value(): real
    {
      units as real / Pow10(scale) as real
    }
  }

  function Zero(): Decimal { Decimal(0, 0) }

  function Max(a: nat, b: nat): nat { if a < b then b else a }

  lemma MulAssoc(x: int, y: int, z: int)
    ensures (x * y) * z == x * (y * z)
  {
  }

  lemma Pow10Add(m: nat, n: nat)
    ensures Pow10(m + n) == Pow10(m) * Pow10(n)
  {
    if m > 0 { Pow10Add(m - 1, n); }
  }

  lemma CancelFactor(u: int, p: nat, f: nat)
    requires p > 0 && f > 0
    ensures (u * f) as real / (p * f) as real == u as real / p as real
  {
    var U, P, F := u as real, p as real, f as real;
    assert (u * f) as real == U * F;
    assert (p * f) as real == P * F;
    assert (U * F) / (P * F) == U / P;
  }

  /** Rewriting a decimal to a finer scale keeps its value. */
  function Rescale(d: Decimal, s: nat): (r: Decimal)
    requires d.scale <= s
    ensures r.scale == s && r.Value() == d.Value()
  {
    var k := s - d.scale;
    Pow10Add(d.scale, k);
    CancelFactor(d.units, Pow10(d.scale), Pow10(k));
    Decimal(d.units * Pow10(k), s)
  }

  lemma AddFractions(u: int, v: int, p: nat)
    requires p > 0
    ensures (u + v) as real / p as real == u as real / p as real + v as real / p as real
  {
  }

  /** Exact decimal addition (JavaScript's `+` on numbers, without rounding). */
  function Add(a: Decimal, b: Decimal): (r: Decimal)
    ensures r.Value() == a.Value() + b.Value()
  {
    var s := Max(a.scale, b.scale);
    var a', b' := Rescale(a, s), Rescale(b, s);
    AddFractions(a'.units, b'.units, Pow10(s));
    Decimal(a'.units + b'.units, s)
  }

  function IndexOf(s: string, c: char): (k: nat)
    ensures k <= |s|
    ensures k < |s| ==> s[k] == c
    ensures forall i :: 0 <= i < k ==> s[i] != c
  {
    if |s| == 0 then 0 else if s[0] == c then 0 else 1 + IndexOf(s[1..], c)
  }

  /** An unsigned decimal: digits, optionally a point and more digits, with at
      least one digit in all. Every character but the first point is a digit,
      a digit string reads as its value, and the result is never negative. */
  function ParseUnsignedDecimal(s: string): (r: Option<Decimal>)
    ensures r.Some? ==> |s| >= 1 && r.value.units >= 0
    ensures r.Some? ==> forall i :: 0 <= i < |s| && i != IndexOf(s, '.') ==> IsDigit(s[i])
    ensures |s| >= 1 && AllDigits(s) ==> r == Some(Decimal(DigitsValue(s), 0))
  {
    var k := IndexOf(s, '.');
    if k == |s| then
      if |s| >= 1 && AllDigits(s) then Some(Decimal(DigitsValue(s), 0)) else None
    else
      var whole, frac := s[..k], s[k + 1..];
      if |s| >= 2 && AllDigits(whole) && AllDigits(frac) then
        PointedDigits(s, k);
        Some(Decimal(DigitsValue(whole + frac), |frac|))
      else None
  }

  /** Digits on both sides of position `k` make every other character a digit. */
  lemma PointedDigits(s: string, k: nat)
    requires k < |s| && AllDigits(s[..k]) && AllDigits(s[k + 1..])
    ensures forall i :: 0 <= i < |s| && i != k ==> IsDigit(s[i])
  {
    assert forall i :: k < i < |s| ==> s[i] == s[k + 1..][i - k - 1];
    assert forall i :: 0 <= i < k ==> s[i] == s[..k][i];
  }

  /** `parseFloat(s)` read strictly: an optional sign followed by an unsigned
      decimal, which is the only text it accepts. A digit string reads as its
      value, and a number read after a `-` is never positive. */
  function ParseFloat(s: string): (r: Option<Decimal>)
    ensures r.Some? ==> |s| >= 1 && forall i :: 0 < i < |s| ==> IsDigit(s[i]) || s[i] == '.'
    ensures r.Some? ==> IsDigit(s[0]) || s[0] == '.' || s[0] == '-' || s[0] == '+'
    ensures r.Some? <==> if |s| >= 1 && (s[0] == '-' || s[0] == '+') then ParseUnsignedDecimal(s[1..]).Some?
                         else ParseUnsignedDecimal(s).Some?
    ensures |s| >= 1 && AllDigits(s) ==> r == Some(Decimal(DigitsValue(s), 0))
    ensures r.Some? && s[0] == '-' ==> r.value.Value() <= 0.0
  {
    if |s| >= 1 && (s[0] == '-' || s[0] == '+') then
      assert forall i :: 0 < i < |s| ==> s[i] == s[1..][i - 1];
      match ParseUnsignedDecimal(s[1..])
      case None => None
      case Some(d) => Some(if s[0] == '-' then Decimal(-d.units, d.scale) else d)
    else
      ParseUnsignedDecimal(s)
  }

  lemma ParseFloatOfEmptyField()
    ensures ParseFloat(Or("", "0")) == Some(Zero())
  {
    assert DigitsValue("0") == 0 by { assert "0"[..0] == ""; }
  }

  // ---- None-absorbing sums ---------------------------------------------------

  /** `a + b` where NaN absorbs. */
  function AddInt(a: Option<int>, b: Option<int>): Option<int>
  {
    if a.Some? && b.Some? then Some(a.value + b.value) else None
  }

  function AddDecimal(a: Option<Decimal>, b: Option<Decimal>): Option<Decimal>
  {
    if a.Some? && b.Some? then Some(Add(a.value, b.value)) else None
  }

  /** `xs.reduce((sum, x) => sum + x, 0)` on parsed integers. */
  function SumInts(xs: seq<Option<int>>): Option<int>
  {
    if |xs| == 0 then Some(0) else AddInt(xs[0], SumInts(xs[1..]))
  }

  /** `xs.reduce((sum, x) => sum + x, 0)` on parsed decimals. */
  function SumDecimals(xs: seq<Option<Decimal>>): Option<Decimal>
  {
    if |xs| == 0 then Some(Zero()) else AddDecimal(xs[0], SumDecimals(xs[1..]))
  }

  /** Plain sum of integers, the reference for `SumInts`. */
  function Total(xs: seq<int>): int
  {
    if |xs| == 0 then 0 else xs[0] + Total(xs[1..])
  }

  /** Plain sum of reals, the reference for `SumDecimals`. */
  function TotalReal(xs: seq<real>): real
  {
    if |xs| == 0 then 0.0 else xs[0] + TotalReal(xs[1..])
  }

  /** A sum is NaN exactly when one of its terms is, and otherwise it is the
      arithmetic sum of the terms. */
  lemma {:induction false} SumIntsMeaning(xs: seq<Option<int>>)
    ensures SumInts(xs).None? <==> exists i :: 0 <= i < |xs| && xs[i].None?
    ensures SumInts(xs).Some? ==>
      SumInts(xs).value == Total(seq(|xs|, i requires 0 <= i < |xs| => xs[i].value))
  {
    if |xs| > 0 {
      SumIntsMeaning(xs[1..]);
      if SumInts(xs).Some? {
        var vs := seq(|xs|, i requires 0 <= i < |xs| => xs[i].value);
        assert vs[1..] == seq(|xs[1..]|, i requires 0 <= i < |xs[1..]| => xs[1..][i].value);
      }
      if xs[0].Some? && SumInts(xs[1..]).None? {
        var i :| 0 <= i < |xs[1..]| && xs[1..][i].None?;
        assert xs[i + 1].None?;
      }
    }
  }

  lemma {:induction false} SumDecimalsMeaning(xs: seq<Option<Decimal>>)
    ensures SumDecimals(xs).None? <==> exists i :: 0 <= i < |xs| && xs[i].None?
    ensures SumDecimals(xs).Some? ==>
      SumDecimals(xs).value.Value() == TotalReal(seq(|xs|, i requires 0 <= i < |xs| => xs[i].value.Value()))
  {
    if |xs| > 0 {
      SumDecimalsMeaning(xs[1..]);
      if SumDecimals(xs).Some? {
        var vs := seq(|xs|, i requires 0 <= i < |xs| => xs[i].value.Value());
        assert vs[1..] == seq(|xs[1..]|, i requires 0 <= i < |xs[1..]| => xs[1..][i].value.Value());
      }
      if xs[0].Some? && SumDecimals(xs[1..]).None? {
        var i :| 0 <= i < |xs[1..]| && xs[1..][i].None?;
        assert xs[i + 1].None?;
      }
    }
  }

  lemma {:induction false} SumIntsAppend(a: seq<Option<int>>, b: seq<Option<int>>)
    ensures SumInts(a + b) == AddInt(SumInts(a), SumInts(b))
  {
    if |a| > 0 {
      assert (a + b)[1..] == a[1..] + b;
      SumIntsAppend(a[1..], b);
    } else {
      assert a + b == b;
    }
  }

  lemma {:induction false} SumDecimalsAppendValue(a: seq<Option<Decimal>>, b: seq<Option<Decimal>>)
    ensures SumDecimals(a + b).None? <==> SumDecimals(a).None? || SumDecimals(b).None?
    ensures SumDecimals(a + b).Some? ==>
      SumDecimals(a + b).value.Value() == SumDecimals(a).value.Value() + SumDecimals(b).value.Value()
  {
    if |a| > 0 {
      assert (a + b)[1..] == a[1..] + b;
      SumDecimalsAppendValue(a[1..], b);
    } else {
      assert a + b == b;
    }
  }

  // ---- Numbers as text --------------------------------------------------------

  /** The characters a rendered number is made of. */
  predicate NumberChars(s: string)
  {
    forall i :: 0 <= i < |s| ==> IsDigit(s[i]) || s[i] == '-' || s[i] == '.'
  }

  /** `${n}` for an integer sum: NaN prints as "NaN". */
  function IntText(n: Option<int>): (s: string)
    ensures n.Some? ==> NumberChars(s) && ParseInt(s) == n
    ensures n.None? ==> s == "NaN"
  {
    match n
    case None => "NaN"
    case Some(v) => IntToString(v)
  }

  /** `d` with trailing zero digits of the fraction removed; same value. */
  function Normalize(d: Decimal): (r: Decimal)
    ensures r.Value() == d.Value()
    ensures r.scale <= d.scale
    ensures r.scale == 0 || r.units % 10 != 0
    decreases d.scale
  {
    if d.scale > 0 && d.units % 10 == 0 then
      var d' := Decimal(d.units / 10, d.scale - 1);
      assert d'.Value() == d.Value() by {
        var p := Pow10(d.scale - 1) as real;
        assert Pow10(d.scale) as real == 10.0 * p;
        assert d.units as real == 10.0 * (d.units / 10) as real;
      }
      Normalize(d')
    else d
  }

  /** The `k`-digit decimal text of `n`, with leading zeros. */
  function PadDigits(n: nat, k: nat): (s: string)
    requires n < Pow10(k)
    ensures |s| == k && AllDigits(s)
    ensures DigitsValue(s) == n
  {
    if k == 0 then ""
    else
      var prefix := PadDigits(n / 10, k - 1);
      var s := prefix + [DigitChar(n % 10)];
      assert s[..|s| - 1] == prefix;
      s
  }

  function Abs(n: int): nat { if n < 0 then -n else n }

  /** The plain decimal text of `a / 10^scale`, with a point only when there
      is a fraction. */
  function UnsignedText(a: nat, scale: nat): (s: string)
    ensures |s| >= 1 && IsDigit(s[0])
    ensures NumberChars(s)
  {
    var p := Pow10(scale);
    ModBelow(a, p);
    var whole := NatToDigits(a / p);
    if scale == 0 then whole else whole + "." + PadDigits(a % p, scale)
  }

  lemma ModBelow(a: nat, p: nat)
    requires p >= 1
    ensures a % p < p && a / p >= 0
    ensures (a / p) * p + a % p == a
  {
  }

  /** `${x}` for a finite number that is a decimal: the shortest plain
      notation, as JavaScript prints numbers between 1e-6 and 1e21. */
  function DecimalToString(d: Decimal): (s: string)
    ensures NumberChars(s)
  {
    var n := Normalize(d);
    (if n.units < 0 then "-" else "") + UnsignedText(Abs(n.units), n.scale)
  }

  function DecimalText(d: Option<Decimal>): (s: string)
    ensures d.Some? ==> NumberChars(s)
    ensures d.None? ==> s == "NaN"
  {
    match d
    case None => "NaN"
    case Some(v) => DecimalToString(v)
  }

  lemma UnsignedTextReadsBack(a: nat, scale: nat)
    ensures ParseUnsignedDecimal(UnsignedText(a, scale)) == Some(Decimal(a, scale))
  {
    var p := Pow10(scale);
    ModBelow(a, p);
    var whole := NatToDigits(a / p);
    var u := UnsignedText(a, scale);
    if scale == 0 {
      assert u == whole;
      assert forall i :: 0 <= i < |u| ==> u[i] != '.' by { assert AllDigits(u); }
      assert a / p == a;
    } else {
      var frac := PadDigits(a % p, scale);
      assert u == whole + "." + frac;
      assert IndexOf(u, '.') == |whole| by {
        assert u[|whole|] == '.';
        forall i | 0 <= i < |whole| ensures u[i] != '.' {
          assert u[i] == whole[i];
          assert IsDigit(whole[i]);
        }
      }
      assert u[..|whole|] == whole;
      assert u[|whole| + 1..] == frac;
      DigitsValueAppend(whole, frac);
      assert DigitsValue(whole + frac) == a;
    }
  }

  /** Reading the text of a decimal back gives a decimal of the same value. */
  lemma DecimalToStringReadsBack(d: Decimal)
    ensures ParseFloat(DecimalToString(d)).Some?
    ensures ParseFloat(DecimalToString(d)).value.Value() == d.Value()
  {
    var n := Normalize(d);
    var a := Abs(n.units);
    var u := UnsignedText(a, n.scale);
    var text := DecimalToString(d);
    UnsignedTextReadsBack(a, n.scale);
    if n.units < 0 {
      assert text == "-" + u;
      assert text[1..] == u;
      assert ParseFloat(text) == Some(Decimal(-(a as int), n.scale));
    } else {
      assert text == u;
      assert !(text[0] == '-' || text[0] == '+');
      assert ParseFloat(text) == Some(Decimal(a, n.scale));
    }
  }
}
