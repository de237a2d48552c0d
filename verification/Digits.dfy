/** Decimal digit strings and the numbers they stand for. */
module Digits {
  predicate IsDigit(c: char) { '0' <= c <= '9' }

  predicate AllDigits(s: string) { forall i :: 0 <= i < |s| ==> IsDigit(s[i]) }

  function Pow10(k: nat): (p: nat)
    ensures p >= 1
  {
    if k == 0 then 1 else 10 * Pow10(k - 1)
  }

  function Value(c: char): (v: nat)
    requires IsDigit(c)
    ensures v < 10
  {
    (c - '0') as nat
  }

  function DigitOf(v: nat): (c: char)
    requires v < 10
    ensures IsDigit(c) && Value(c) == v
  {
    '0' + v as char
  }

  /** `BigInt(s)` of a digit string; 0 for the empty one. */
  function ToNat(s: string): nat
    requires AllDigits(s)
  {
    if s == "" then 0 else 10 * ToNat(s[..|s| - 1]) + Value(s[|s| - 1])
  }

  /** `n.toString()`. */
  function Print(n: nat): (s: string)
    ensures s != "" && AllDigits(s) && (s[0] == '0' ==> n == 0)
  {
    if n < 10 then [DigitOf(n)] else Print(n / 10) + [DigitOf(n % 10)]
  }

  function Zeros(k: nat): (s: string)
    ensures |s| == k && forall i :: 0 <= i < k ==> s[i] == '0'
  {
    seq(k, _ => '0')
  }

  /** `s.padStart(k, "0")`. */
  function PadStart(s: string, k: nat): string {
    if |s| >= k then s else Zeros(k - |s|) + s
  }

  /** Without redundant zeros in front: at least one digit stays. */
  function StripLeading(s: string): string {
    if |s| > 1 && s[0] == '0' then StripLeading(s[1..]) else s
  }

  /** `s.replace(/0+$/, "")`. */
  function StripTrailing(s: string): (t: string)
    ensures t <= s && (t != "" ==> t[|t| - 1] != '0')
    ensures forall i :: |t| <= i < |s| ==> s[i] == '0'
  {
    if s != "" && s[|s| - 1] == '0' then StripTrailing(s[..|s| - 1]) else s
  }

  predicate AllZeros(s: string) { forall i :: 0 <= i < |s| ==> s[i] == '0' }

  lemma {:induction false} PrintThenRead(n: nat)
    ensures ToNat(Print(n)) == n
  {
    if n >= 10 {
      PrintThenRead(n / 10);
      assert Print(n)[..|Print(n)| - 1] == Print(n / 10);
    }
  }

  lemma {:induction false} ZeroIffAllZeros(s: string)
    requires AllDigits(s)
    ensures ToNat(s) == 0 <==> AllZeros(s)
  {
    if s != "" {
      ZeroIffAllZeros(s[..|s| - 1]);
      assert s == s[..|s| - 1] + [s[|s| - 1]];
      assert forall i :: 0 <= i < |s| - 1 ==> s[i] == s[..|s| - 1][i];
    }
  }

  lemma {:induction false} StripLeadingAppend(s: string, c: char)
    requires s != ""
    ensures StripLeading(s + [c]) == if AllZeros(s) then [c] else StripLeading(s) + [c]
  {
    var t := s + [c];
    if s[0] == '0' {
      assert t[1..] == s[1..] + [c];
      if |s| > 1 {
        StripLeadingAppend(s[1..], c);
        assert AllZeros(s) <==> AllZeros(s[1..]) by {
          assert forall i :: 1 <= i < |s| ==> s[i] == s[1..][i - 1];
        }
      } else {
        assert t[1..] == [c];
      }
    }
  }

  lemma PrintAppend(m: nat, c: char)
    requires IsDigit(c)
    ensures Print(10 * m + Value(c)) == if m == 0 then [c] else Print(m) + [c]
  {
    assert (10 * m + Value(c)) / 10 == m && (10 * m + Value(c)) % 10 == Value(c);
  }

  /** Reading a digit string and printing the number drops the redundant leading
      zeros and nothing else. */
  lemma {:induction false} ReadThenPrint(s: string)
    requires s != "" && AllDigits(s)
    ensures Print(ToNat(s)) == StripLeading(s)
  {
    var front, c := s[..|s| - 1], s[|s| - 1];
    assert s == front + [c];
    PrintAppend(ToNat(front), c);
    if front == "" {
      assert s == [c];
    } else {
      ReadThenPrint(front);
      ZeroIffAllZeros(front);
      StripLeadingAppend(front, c);
    }
  }

  lemma {:induction false} PadRestores(s: string)
    requires s != "" && AllDigits(s)
    ensures |StripLeading(s)| <= |s| && PadStart(StripLeading(s), |s|) == s
  {
    if |s| > 1 && s[0] == '0' {
      PadRestores(s[1..]);
      assert s == ['0'] + s[1..];
      assert PadStart(StripLeading(s), |s|) == ['0'] + PadStart(StripLeading(s[1..]), |s| - 1);
    }
  }

  lemma {:induction false} BelowPow(s: string)
    requires AllDigits(s)
    ensures ToNat(s) < Pow10(|s|)
  {
    if s != "" { BelowPow(s[..|s| - 1]); }
  }

  lemma {:induction false} PrintIsShort(n: nat, k: nat)
    requires k >= 1 && n < Pow10(k)
    ensures |Print(n)| <= k
  {
    if n >= 10 { PrintIsShort(n / 10, k - 1); }
  }

  lemma {:induction false} LeadingZerosDoNotCount(m: nat, s: string)
    requires AllDigits(s)
    ensures ToNat(Zeros(m) + s) == ToNat(s)
  {
    if s == "" {
      assert Zeros(m) + s == Zeros(m);
      ZeroIffAllZeros(Zeros(m));
    } else {
      var front := s[..|s| - 1];
      LeadingZerosDoNotCount(m, front);
      assert (Zeros(m) + s)[..m + |s| - 1] == Zeros(m) + front;
    }
  }
}
