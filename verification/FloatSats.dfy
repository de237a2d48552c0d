/** The conversions between sats and floating-point FAIR, under the standard model
    of rounding: each operation is off by a relative error of at most 2^-53
    (round to nearest, section 4.3 of IEEE 754-2019, without overflow and
    underflow). */
module FloatSats {
  const SATS_PER_FAIR: int := 100_000_000
  const UNIT_ROUNDOFF: real := 1.0 / 9_007_199_254_740_992.0

  /** Fifteen million FAIR; above 2^50 sats. */
  const LIMIT: int := 1_500_000_000_000_000

  function Abs(x: real): real { if x < 0.0 then -x else x }

  /** `y` is `x` up to one rounding. */
  predicate Near(y: real, x: real) { Abs(y - x) <= UNIT_ROUNDOFF * Abs(x) }

  /** A rounding: any function within the relative error. */
  ghost predicate Rounds(fl: real -> real) { forall x :: Near(fl(x), x) }

  /** `satsToFair`: the two integer parts are below 2^53 and so exact; the division
      and the sum are rounded. */
  function SatsToFair(fl: real -> real, sats: nat): real {
    fl((sats / SATS_PER_FAIR) as real + fl((sats % SATS_PER_FAIR) as real / SATS_PER_FAIR as real))
  }

  /** `Math.round`: the nearest integer, and the greater of two. */
  function MathRound(x: real): (n: int)
    ensures n as real - 0.5 <= x < n as real + 0.5
  {
    (x + 0.5).Floor
  }

  /** `fairToSats` and `fairValueToSats`: the product is rounded, then the result
      taken to the nearest integer. */
  function FairToSats(fl: real -> real, fair: real): int {
    MathRound(fl(fair * SATS_PER_FAIR as real))
  }

  /** An amount in FAIR is this many sats, but for two roundings. */
  predicate IsAbout(fair: real, sats: real) {
    Abs(fair * SATS_PER_FAIR as real - sats) <= 2.0000001 * UNIT_ROUNDOFF * sats
  }

  lemma RoundsToNearest(x: real, n: int)
    requires Abs(x - n as real) < 0.5
    ensures MathRound(x) == n
  {
  }

  /** The error of a rounded value, scaled from FAIR to sats. */
  lemma ScaledError(x: real, y: real, scaled: real)
    requires Near(y, x) && x >= 0.0 && scaled == x * SATS_PER_FAIR as real
    ensures Abs(y * SATS_PER_FAIR as real - scaled) <= UNIT_ROUNDOFF * scaled
  {
  }

  /** A third rounding, and the result is still nearest to its own integer. */
  lemma ThirdRounding(p: real, y: real, sats: nat)
    requires sats <= LIMIT && Near(y, p)
    requires Abs(p - sats as real) <= 2.0000001 * UNIT_ROUNDOFF * sats as real
    ensures MathRound(y) == sats
  {
    assert Abs(p) <= 1.001 * sats as real;
    assert Abs(y - sats as real) <= 3.000001 * UNIT_ROUNDOFF * sats as real;
    RoundsToNearest(y, sats);
  }

  lemma AboutIsExact(fl: real -> real, fair: real, sats: nat)
    requires Rounds(fl) && sats <= LIMIT && IsAbout(fair, sats as real)
    ensures FairToSats(fl, fair) == sats
  {
    var p := fair * SATS_PER_FAIR as real;
    ThirdRounding(p, fl(p), sats);
  }

  /** The division's error and the sum's error, in sats. */
  lemma PiecesError(w: real, r: real, q: real, q': real, f: real)
    requires w >= 0.0 && r >= 0.0 && q >= 0.0 && q * SATS_PER_FAIR as real == r
    requires Near(q', q) && Near(f, w + q')
    ensures IsAbout(f, w * SATS_PER_FAIR as real + r)
  {
    ScaledError(q, q', r);
    assert q' >= 0.0;
    var t := w + q';
    ScaledError(t, f, t * SATS_PER_FAIR as real);
  }

  lemma SumError(fl: real -> real, w: real, r: real, q: real)
    requires Rounds(fl) && w >= 0.0 && r >= 0.0 && q >= 0.0 && q * SATS_PER_FAIR as real == r
    ensures IsAbout(fl(w + fl(q)), w * SATS_PER_FAIR as real + r)
  {
    PiecesError(w, r, q, fl(q), fl(w + fl(q)));
  }

  lemma Parts(sats: nat)
    ensures (sats / SATS_PER_FAIR) as real * SATS_PER_FAIR as real + (sats % SATS_PER_FAIR) as real == sats as real
  {
    assert sats == (sats / SATS_PER_FAIR) * SATS_PER_FAIR + sats % SATS_PER_FAIR;
  }

  lemma Quotient(r: nat) returns (q: real)
    ensures q == r as real / SATS_PER_FAIR as real && q >= 0.0 && q * SATS_PER_FAIR as real == r as real
  {
    q := r as real / SATS_PER_FAIR as real;
  }

  /** Sats survive the way to FAIR and back, for every rounding within the error. */
  lemma SatsRoundTrip(fl: real -> real, sats: nat)
    requires Rounds(fl) && sats <= LIMIT
    ensures FairToSats(fl, SatsToFair(fl, sats)) == sats
  {
    Parts(sats);
    var q := Quotient(sats % SATS_PER_FAIR);
    SumError(fl, (sats / SATS_PER_FAIR) as real, (sats % SATS_PER_FAIR) as real, q);
    AboutIsExact(fl, SatsToFair(fl, sats), sats);
  }

  /** An amount that the node reports as a decimal of FAIR, rounded when it is
      read, is taken as exactly its sats. */
  lemma ReportedAmountIsExact(fl: real -> real, sats: nat)
    requires Rounds(fl) && sats <= LIMIT
    ensures FairToSats(fl, fl(sats as real / SATS_PER_FAIR as real)) == sats
  {
    var x := Quotient(sats);
    ScaledError(x, fl(x), sats as real);
    AboutIsExact(fl, fl(x), sats);
  }
}
