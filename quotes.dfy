/**
 * Quotes and the arithmetic shared by every variant of the pipeline: the seven instrument
 * keys, buy ("compra") and sell ("venta") amounts as exact reals, `abs`, `round(x, 2)` and the
 * zero-baseline percentage guard.
 */
module Quotes {
  import opened Wrappers

  /** The instrument keys, in the order every report lists them. */
  const DOLAR_TYPES: seq<string> := ["oficial", "blue", "mep", "ccl", "tarjeta", "cripto", "mayorista"]

  /** A parsed buy/sell pair. */
  datatype Quote = Quote(compra: real, venta: real)

  /**
   * A rate as found in a loaded or fetched dict: each field is absent (or not a number, so that
   * `float(...)` or the arithmetic on it fails) or a number.
   */
  datatype RawQuote = RawQuote(compra: Option<real>, venta: Option<real>)

  /** The stored form of a parsed pair, `{"compra": c, "venta": v}`. */
  function Stored(q: Quote): RawQuote {
    RawQuote(Some(q.compra), Some(q.venta))
  }

  /** `float(info["compra"])`, `float(info["venta"])`: a pair, or None when either conversion fails. */
  function Parse(raw: RawQuote): (q: Option<Quote>)
    ensures q.Some? <==> raw.compra.Some? && raw.venta.Some?
    ensures q.Some? ==> Stored(q.value) == raw
  {
    if raw.compra.Some? && raw.venta.Some? then Some(Quote(raw.compra.value, raw.venta.value)) else None
  }

  function Abs(x: real): (r: real)
    ensures r >= 0.0 && (r == x || r == -x)
  {
    if x < 0.0 then -x else x
  }

  /** `x` is a whole number of hundredths. */
  predicate IsHundredths(x: real) {
    (x * 100.0).Floor as real == x * 100.0
  }

  /**
   * Python's `round(x, 2)` on the exact value: to the nearest hundredth, a tie going to the even
   * hundredth.
   */
  function Round2(x: real): real {
    var y := x * 100.0;
    var f := y.Floor;
    var frac := y - f as real;
    var n := if frac < 0.5 then f else if frac > 0.5 then f + 1 else if f % 2 == 0 then f else f + 1;
    n as real / 100.0
  }

  /** `round(x, 2)` lies within half a hundredth of `x` and is a whole number of hundredths. */
  lemma Round2Bounds(x: real)
    ensures -1.0 / 200.0 <= Round2(x) - x <= 1.0 / 200.0
    ensures IsHundredths(Round2(x))
  {
    var y := x * 100.0;
    var f := y.Floor;
    var frac := y - f as real;
    var n := if frac < 0.5 then f else if frac > 0.5 then f + 1 else if f % 2 == 0 then f else f + 1;
    assert 0.0 <= frac < 1.0;
    assert -0.5 <= n as real - y <= 0.5;
    assert (n as real / 100.0) * 100.0 == n as real;
    assert (n as real).Floor == n;
  }

  /** A value already in hundredths is left as it is; so rounding twice is rounding once. */
  lemma RoundHundredths(x: real)
    requires IsHundredths(x)
    ensures Round2(x) == x
  {
  }

  lemma RoundIdempotent(x: real)
    ensures Round2(Round2(x)) == Round2(x)
  {
    Round2Bounds(x);
    RoundHundredths(Round2(x));
  }

  lemma RoundZero()
    ensures Round2(0.0) == 0.0
  {
    RoundHundredths(0.0);
  }

  /**
   * `round((diff / base) * 100, 2) if base else 0`: the percentage change against `base`, and 0
   * when the base is 0, so no division by zero happens.
   */
  function Pct(diff: real, base: real): real {
    if base != 0.0 then Round2(diff / base * 100.0) else 0.0
  }

  /** The percentage is 0 over a zero base, and otherwise within half a hundredth of the exact one. */
  lemma PctBounds(diff: real, base: real)
    ensures base == 0.0 ==> Pct(diff, base) == 0.0
    ensures base != 0.0 ==> -1.0 / 200.0 <= Pct(diff, base) - diff / base * 100.0 <= 1.0 / 200.0
  {
    if base != 0.0 {
      Round2Bounds(diff / base * 100.0);
    }
  }

  lemma PctOfNoChange(base: real)
    ensures Pct(0.0, base) == 0.0
  {
    if base != 0.0 {
      assert 0.0 / base * 100.0 == 0.0;
      RoundZero();
    }
  }

  /** `abs(diff_compra) >= threshold or abs(diff_venta) >= threshold`. */
  predicate Significant(diffCompra: real, diffVenta: real, threshold: real) {
    Abs(diffCompra) >= threshold || Abs(diffVenta) >= threshold
  }
}
