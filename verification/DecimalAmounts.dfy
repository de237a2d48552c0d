/** The printer and the parser of decimal amounts in the buy API. */
module DecimalAmounts {
  import opened Wrappers
  import opened Digits

  /** The parts of a string around its first dot. */
  function SplitDot(s: string): (parts: (string, Option<string>))
    ensures parts.1.None? ==> parts.0 == s && '.' !in s
    ensures parts.1.Some? ==> s == parts.0 + "." + parts.1.value && '.' !in parts.0
  {
    if s == "" then (s, None)
    else if s[0] == '.' then ("", Some(s[1..]))
    else
      var rest := SplitDot(s[1..]);
      ([s[0]] + rest.0, rest.1)
  }

  /** The pattern `^\d+(\.\d{1,k})?$`; the API asks for k = 8. */
  predicate Accepted(s: string, k: nat) {
    var (whole, frac) := SplitDot(s);
    && whole != "" && AllDigits(whole)
    && (frac.Some? ==> 1 <= |frac.value| <= k && AllDigits(frac.value))
  }

  /** `(frac + "000…").slice(0, k)`. */
  function PadEnd(s: string, k: nat): string {
    (s + Zeros(k))[..k]
  }

  /** `fairAmountToSats`, with k = 8. */
  function Parse(s: string, k: nat): nat
    requires Accepted(s, k)
  {
    var (whole, frac) := SplitDot(s);
    var padded := PadEnd(if frac.Some? then frac.value else "", k);
    ToNat(whole) * Pow10(k) + ToNat(padded)
  }

  function Quotient(x: nat, d: nat): (q: nat)
    requires d > 0
  {
    DivBelow(x, d);
    x / d
  }

  function Remainder(x: nat, d: nat): (r: nat)
    requires d > 0
    ensures r < d
  {
    x % d
  }

  /** `formatPaymentAmount`. */
  function Format(value: nat, decimals: int): string {
    if decimals <= 0 then Print(value)
    else FormatParts(Quotient(value, Pow10(decimals)), Remainder(value, Pow10(decimals)), decimals)
  }

  function FormatParts(whole: nat, frac: nat, decimals: nat): string {
    if frac == 0 then Print(whole)
    else Print(whole) + "." + StripTrailing(PadStart(Print(frac), decimals))
  }

  /** An accepted string without redundant zeros at either end. */
  function Canonical(s: string): string {
    var (whole, frac) := SplitDot(s);
    var kept := if frac.Some? then StripTrailing(frac.value) else "";
    StripLeading(whole) + (if kept == "" then "" else "." + kept)
  }

  // ---- arithmetic and string facts -----------------------------------------

  lemma DivBelow(x: nat, d: nat)
    requires d > 0
    ensures 0 <= x / d && x == (x / d) * d + x % d
  {
  }

  lemma {:induction false} SmallMultiple(z: nat, d: nat)
    requires z * d < d
    ensures z == 0
  {
    if z > 1 { SmallMultiple(z - 1, d); }
  }

  lemma DivModOf(w: nat, v: nat, d: nat)
    requires v < d
    ensures Quotient(w * d + v, d) == w && Remainder(w * d + v, d) == v
  {
    var x := w * d + v;
    DivBelow(x, d);
    var z := w - x / d;
    assert z * d == w * d - (x / d) * d == x % d - v;
    assert (-z) * d == -(z * d);
    SmallMultiple(if z >= 0 then z else -z, d);
  }

  lemma {:induction false} SplitJoined(whole: string, frac: string)
    requires '.' !in whole
    ensures SplitDot(whole + "." + frac) == (whole, Some(frac))
    ensures SplitDot(whole) == (whole, None)
  {
    var s := whole + "." + frac;
    if whole == "" {
      assert s[0] == '.' && s[1..] == frac;
    } else {
      SplitJoined(whole[1..], frac);
      assert s[1..] == whole[1..] + "." + frac && s[0] == whole[0];
      assert whole == [whole[0]] + whole[1..];
    }
  }

  lemma DigitsHaveNoDot(s: string)
    requires AllDigits(s)
    ensures '.' !in s
  {
  }

  /** One more zero behind a string. */
  lemma OneMoreZero(s: string, m: nat)
    requires m > 0
    ensures s + Zeros(m) == s + Zeros(m - 1) + ['0']
  {
    assert Zeros(m) == Zeros(m - 1) + ['0'];
    assert s + (Zeros(m - 1) + ['0']) == s + Zeros(m - 1) + ['0'];
  }

  /** A zero put behind a string is stripped again. */
  lemma StripOneZero(s: string)
    ensures StripTrailing(s + ['0']) == StripTrailing(s)
  {
    assert (s + ['0'])[..|s|] == s;
  }

  /** Zeros put behind a string are stripped again. */
  lemma {:induction false} StripTrailingZeros(s: string, m: nat)
    ensures StripTrailing(s + Zeros(m)) == StripTrailing(s)
  {
    if m == 0 {
      assert s + Zeros(0) == s;
    } else {
      StripTrailingZeros(s, m - 1);
      OneMoreZero(s, m);
      StripOneZero(s + Zeros(m - 1));
    }
  }

  lemma StripTrailingEmpty(s: string)
    ensures StripTrailing(s) == "" <==> AllZeros(s)
  {
  }

  lemma PadEndIs(s: string, k: nat)
    requires |s| <= k
    ensures PadEnd(s, k) == s + Zeros(k - |s|)
  {
  }

  lemma PadEndDigits(s: string, k: nat)
    requires |s| <= k && AllDigits(s)
    ensures |PadEnd(s, k)| == k && AllDigits(PadEnd(s, k)) && ToNat(PadEnd(s, k)) < Pow10(k)
  {
    BelowPow(PadEnd(s, k));
  }

  // ---- the two directions --------------------------------------------------

  /** A padded print reads back as its value. */
  lemma PaddedReadsBack(v: nat, k: nat)
    requires v < Pow10(k) && k >= 1
    ensures var q := PadStart(Print(v), k);
      |q| == k && AllDigits(q) && ToNat(q) == v
  {
    PrintIsShort(v, k);
    PrintThenRead(v);
    PaddingDoesNotCount(Print(v), k);
  }

  lemma PaddingDoesNotCount(s: string, k: nat)
    requires AllDigits(s) && |s| <= k
    ensures var q := PadStart(s, k);
      |q| == k && AllDigits(q) && ToNat(q) == ToNat(s)
  {
    assert PadStart(s, k) == Zeros(k - |s|) + s;
    LeadingZerosDoNotCount(k - |s|, s);
  }

  /** Stripping the trailing zeros of a number other than zero is undone by padding. */
  lemma StrippedPadsBack(q: string, k: nat)
    requires |q| == k && AllDigits(q) && ToNat(q) > 0
    ensures var f := StripTrailing(q);
      1 <= |f| <= k && AllDigits(f) && PadEnd(f, k) == q
  {
    ZeroIffAllZeros(q);
    StripTrailingEmpty(q);
    PadEndIs(StripTrailing(q), k);
  }

  /** The fraction printed for a value reads back as that value. */
  lemma FractionReadsBack(v: nat, k: nat)
    requires k >= 1 && 0 < v < Pow10(k)
    ensures var f := StripTrailing(PadStart(Print(v), k));
      1 <= |f| <= k && AllDigits(f) && |PadEnd(f, k)| == k && AllDigits(PadEnd(f, k)) && ToNat(PadEnd(f, k)) == v
  {
    PaddedReadsBack(v, k);
    StrippedPadsBack(PadStart(Print(v), k), k);
  }

  lemma PartsReadBack(whole: nat, frac: nat, k: nat)
    requires k >= 1 && frac < Pow10(k)
    ensures var s := FormatParts(whole, frac, k);
      Accepted(s, k) && Parse(s, k) == whole * Pow10(k) + frac
  {
    PrintThenRead(whole);
    DigitsHaveNoDot(Print(whole));
    if frac == 0 {
      SplitJoined(Print(whole), "");
      PadEndDigits("", k);
      ZeroIffAllZeros(PadEnd("", k));
    } else {
      FractionReadsBack(frac, k);
      SplitJoined(Print(whole), StripTrailing(PadStart(Print(frac), k)));
    }
  }

  /** What the printer prints is accepted, and the parser reads it as the value. */
  lemma FormatThenParse(n: nat, k: nat)
    requires k >= 1
    ensures Accepted(Format(n, k), k) && Parse(Format(n, k), k) == n
  {
    DivBelow(n, Pow10(k));
    PartsReadBack(Quotient(n, Pow10(k)), Remainder(n, Pow10(k)), k);
  }

  /** A fraction of at most k digits, padded and printed again. */
  lemma FractionPrintsBack(f: string, k: nat)
    requires k >= 1 && |f| <= k && AllDigits(f)
    ensures |PadEnd(f, k)| == k && AllDigits(PadEnd(f, k))
    ensures var v := ToNat(PadEnd(f, k));
      && (v == 0 <==> StripTrailing(f) == "")
      && StripTrailing(PadStart(Print(v), k)) == StripTrailing(f)
  {
    var p := PadEnd(f, k);
    PadEndIs(f, k);
    PadEndDigits(f, k);
    ReadThenPrint(p);
    PadRestores(p);
    StripTrailingZeros(f, k - |f|);
    ZeroIffAllZeros(p);
    StripTrailingEmpty(p);
  }

  lemma PartsPrintBack(whole: string, f: string, k: nat)
    requires k >= 1 && whole != "" && AllDigits(whole) && |f| <= k && AllDigits(f)
    ensures |PadEnd(f, k)| == k && AllDigits(PadEnd(f, k))
    ensures FormatParts(ToNat(whole), ToNat(PadEnd(f, k)), k) ==
      StripLeading(whole) + (if StripTrailing(f) == "" then "" else "." + StripTrailing(f))
  {
    FractionPrintsBack(f, k);
    ReadThenPrint(whole);
  }

  /** What the parser reads, the printer prints as the same string without
      redundant zeros. */
  lemma ParseThenFormat(s: string, k: nat)
    requires k >= 1 && Accepted(s, k)
    ensures Format(Parse(s, k), k) == Canonical(s)
  {
    var (whole, frac) := SplitDot(s);
    var f := if frac.Some? then frac.value else "";
    PartsPrintBack(whole, f, k);
    PadEndDigits(f, k);
    DivModOf(ToNat(whole), ToNat(PadEnd(f, k)), Pow10(k));
  }

  /** Two accepted strings are the same amount exactly when they differ only in
      redundant zeros. */
  lemma SameAmountIff(s: string, t: string, k: nat)
    requires k >= 1 && Accepted(s, k) && Accepted(t, k)
    ensures Parse(s, k) == Parse(t, k) <==> Canonical(s) == Canonical(t)
  {
    ParseThenFormat(s, k);
    ParseThenFormat(t, k);
    FormatThenParse(Parse(s, k), k);
    FormatThenParse(Parse(t, k), k);
  }
}
