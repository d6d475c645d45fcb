/** The numeric inputs of the batch, evaluation and comparison tabs store
    `parseInt(e.target.value) || 1`. This module models JavaScript's
    `parseInt` with no radix argument, and the `|| 1` that follows it. */
module NumberInput {
  import opened Common

  /** The value of `c` as a digit of the given radix, if it is one. */
  function DigitValue(c: char, radix: nat): Option<nat>
  {
    var d :=
      if '0' <= c <= '9' then (c as int) - ('0' as int)
      else if 'a' <= c <= 'z' then (c as int) - ('a' as int) + 10
      else if 'A' <= c <= 'Z' then (c as int) - ('A' as int) + 10
      else radix;
    if d < radix then Some(d) else None
  }

  predicate IsDigit(c: char, radix: nat)
  {
    DigitValue(c, radix).Some?
  }

  /** The longest prefix of `s` made of digits of the radix. */
  function DigitRun(s: string, radix: nat): (r: string)
    ensures |r| <= |s| && r == s[..|r|]
    ensures forall i :: 0 <= i < |r| ==> IsDigit(r[i], radix)
    ensures |r| < |s| ==> !IsDigit(s[|r|], radix)
  {
    if s != [] && IsDigit(s[0], radix) then [s[0]] + DigitRun(s[1..], radix) else []
  }

  /** Arithmetic helper: a product of naturals is a natural. */
  lemma MulNat(a: nat, b: nat)
    ensures a * b >= 0
  {
  }

  /** The number a run of digits denotes, most significant digit first. */
  function Value(ds: string, radix: nat): nat
    requires forall i :: 0 <= i < |ds| ==> IsDigit(ds[i], radix)
  {
    if ds == [] then 0
    else
      assert IsDigit(ds[|ds| - 1], radix);
      var high: nat := Value(ds[..|ds| - 1], radix);
      assert high * radix >= 0 by { MulNat(high, radix); }
      high * radix + DigitValue(ds[|ds| - 1], radix).value
  }

  /** The unsigned part of `parseInt`: radix 16 after a `0x`/`0X` prefix,
      else 10, then the longest run of digits. `None` is `NaN` (no digit
      at all). */
  function Magnitude(u: string): Option<nat>
  {
    if HexPrefix(u) then Digits(u[2..], 16) else Digits(u, 10)
  }

  predicate HexPrefix(u: string)
  {
    |u| >= 2 && u[0] == '0' && (u[1] == 'x' || u[1] == 'X')
  }

  /** The value of the longest run of digits at the start of `u`. */
  function Digits(u: string, radix: nat): Option<nat>
  {
    var ds := DigitRun(u, radix);
    if ds == [] then None else Some(Value(ds, radix))
  }

  /** `parseInt` once leading whitespace is gone: an optional sign, then
      the magnitude. */
  function Signed(t: string): Option<int>
  {
    if t != [] && (t[0] == '-' || t[0] == '+') then
      match Magnitude(t[1..])
      case None => None
      case Some(v) =>
        var k: int := v;
        Some(if t[0] == '-' then -k else k)
    else
      match Magnitude(t)
      case None => None
      case Some(v) => Some(v as int)
  }

  /** `parseInt(s)`: skip leading whitespace, read an optional sign, then
      the magnitude. */
  function ParseInt(s: string): Option<int>
  {
    Signed(StripStart(Js, s))
  }

  /** `parseInt(raw) || 1`: `NaN`, `0` and `-0` are falsy and become 1;
      every other parsed integer is kept, negative or beyond the field's
      `max` attribute. */
  function CoerceCount(raw: string): (n: int)
    ensures n != 0
    ensures ParseInt(raw).None? ==> n == 1
    ensures ParseInt(raw).Some? ==> n == (if ParseInt(raw).value == 0 then 1 else ParseInt(raw).value)
  {
    match ParseInt(raw)
    case None => 1
    case Some(k) => if k == 0 then 1 else k
  }

  // ---------------------------------------------------------------------
  // The field shows its state as `String(n)`; reading it back gives n.

  function DigitChar(d: nat): (c: char)
    requires d < 10
    ensures DigitValue(c, 10) == Some(d)
  {
    (('0' as int) + d) as char
  }

  /** The decimal numeral of a natural number, without leading zeros. */
  function ShowNat(n: nat): (s: string)
    ensures s != []
    ensures forall i :: 0 <= i < |s| ==> '0' <= s[i] <= '9'
  {
    if n < 10 then [DigitChar(n)] else ShowNat(n / 10) + [DigitChar(n % 10)]
  }

  /** `String(n)` for an integer. */
  function ShowInt(n: int): string
  {
    if n < 0 then "-" + ShowNat(-n) else ShowNat(n)
  }

  lemma {:induction false} ValueOfShowNat(n: nat)
    ensures forall i :: 0 <= i < |ShowNat(n)| ==> IsDigit(ShowNat(n)[i], 10)
    ensures Value(ShowNat(n), 10) == n
  {
    var s := ShowNat(n);
    forall i | 0 <= i < |s| ensures IsDigit(s[i], 10) {
      assert '0' <= s[i] <= '9';
    }
    if n >= 10 {
      ValueOfShowNat(n / 10);
      assert s[..|s| - 1] == ShowNat(n / 10);
    }
  }

  lemma {:induction false} DigitRunOfDigits(s: string, radix: nat)
    requires forall i :: 0 <= i < |s| ==> IsDigit(s[i], radix)
    ensures DigitRun(s, radix) == s
  {
    if s != [] {
      assert IsDigit(s[0], radix);
      DigitRunOfDigits(s[1..], radix);
      assert s == [s[0]] + s[1..];
    }
  }

  lemma DecimalDigit(c: char)
    requires '0' <= c <= '9'
    ensures IsDigit(c, 10)
  {
  }

  /** A run of decimal digits is read in radix 10 to its value. */
  lemma MagnitudeOfDigits(ds: string)
    requires ds != [] && forall i :: 0 <= i < |ds| ==> '0' <= ds[i] <= '9'
    ensures forall i :: 0 <= i < |ds| ==> IsDigit(ds[i], 10)
    ensures Magnitude(ds) == Some(Value(ds, 10))
  {
    forall i | 0 <= i < |ds|
      ensures IsDigit(ds[i], 10)
    {
      DecimalDigit(ds[i]);
    }
    assert !HexPrefix(ds) by {
      assert |ds| >= 2 ==> '0' <= ds[1] <= '9';
    }
    DigitRunOfDigits(ds, 10);
  }

  /** Nothing is skipped before a character that is not whitespace. */
  lemma NothingToStrip(s: string)
    requires s != [] && !JsSpace(s[0])
    ensures StripStart(Js, s) == s
  {
  }

  /** A string starting with a digit has nothing to skip and no sign. */
  lemma ParseUnsigned(s: string)
    requires s != [] && '0' <= s[0] <= '9'
    ensures ParseInt(s) == Magnitude(s)
  {
    NothingToStrip(s);
  }

  /** A leading minus negates the magnitude that follows it. */
  lemma ParseMinus(ds: string, v: nat)
    requires Magnitude(ds) == Some(v)
    ensures ParseInt("-" + ds) == Some(-(v as int))
  {
    var s := "-" + ds;
    NothingToStrip(s);
    assert s[0] == '-' && s[1..] == ds;
  }

  /** A numeral shown by `ShowNat` is read back to its number. */
  lemma MagnitudeOfShowNat(m: nat)
    ensures Magnitude(ShowNat(m)) == Some(m)
  {
    ValueOfShowNat(m);
    MagnitudeOfDigits(ShowNat(m));
  }

  /** A shown natural number parses back to itself. */
  lemma ParseShowNat(n: int)
    requires n >= 0
    ensures ParseInt(ShowInt(n)) == Some(n)
  {
    assert ShowInt(n) == ShowNat(n);
    MagnitudeOfShowNat(n);
    ParseUnsigned(ShowNat(n));
  }

  /** A shown negative number parses back to itself. */
  lemma ParseShowNegative(n: int)
    requires n < 0
    ensures ParseInt(ShowInt(n)) == Some(n)
  {
    assert ShowInt(n) == "-" + ShowNat(-n);
    MagnitudeOfShowNat(-n);
    ParseMinus(ShowNat(-n), -n);
  }

  /** What the field displays parses back to the stored number. */
  lemma ParseShowInt(n: int)
    ensures ParseInt(ShowInt(n)) == Some(n)
  {
    if n < 0 {
      ParseShowNegative(n);
    } else {
      ParseShowNat(n);
    }
  }

  /** So a stored count that is not zero survives a re-read of the field,
      and clearing the field (or typing `0`) stores 1. */
  lemma CoerceShownCount(n: int)
    ensures CoerceCount(ShowInt(n)) == if n == 0 then 1 else n
  {
    ParseShowInt(n);
  }

  /** An empty or non-numeric field stores 1. */
  lemma CoerceNonNumeric()
    ensures CoerceCount("") == 1
    ensures CoerceCount("abc") == 1
  {
    assert ParseInt("") == None;
    var s := "abc";
    assert !JsSpace(s[0]) && !HexPrefix(s) && s[0] != '-' && s[0] != '+';
    NothingToStrip(s);
    assert DigitRun(s, 10) == [];
    assert Signed(s) == None;
  }

  /** A negative entry is kept as it is, below the field's `min`. */
  lemma CoerceKeepsNegative()
    ensures CoerceCount("-3") == -3
  {
    assert ShowInt(-3) == "-3";
    CoerceShownCount(-3);
  }

  /** Reading digits stops at the decimal point. */
  lemma DigitsStopAtPoint()
    ensures Digits("7.9", 10) == Some(7)
  {
    assert DigitRun("7.9", 10) == "7" by {
      assert "7.9"[1..] == ".9";
      assert DigitRun(".9", 10) == [];
    }
    assert Value("7", 10) == 7;
  }

  /** A fractional entry is cut at the point. */
  lemma CoerceTruncatesFraction()
    ensures CoerceCount("7.9") == 7
  {
    ParseUnsigned("7.9");
    assert !HexPrefix("7.9");
    DigitsStopAtPoint();
  }
}
