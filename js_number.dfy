/**
 * JavaScript Number arithmetic, restricted to what the modelled code reaches.
 *
 * Finite numbers are modelled as mathematical reals (no binary floating-point
 * rounding). The non-finite values appear only where the code divides by a
 * quantity that can be zero: NaN from 0/0 and an infinity from x/0 with x != 0.
 */
module JsNumber {

  datatype Number = Finite(value: real) | NaN | Infinity(negative: bool)

  /** `Math.round(x * 100) / 100` on a finite value: Math.round rounds halves towards +infinity. */
  function Round2(x: real): (r: real)
    ensures x - 1.0 / 200.0 < r <= x + 1.0 / 200.0
    ensures OnGrid(r)
  {
    var n := (100.0 * x + 0.5).Floor;
    assert n as real <= 100.0 * x + 0.5 < n as real + 1.0;
    n as real / 100.0
  }

  /** x is a whole number of hundredths (a value Round2 leaves as it is). */
  predicate OnGrid(x: real) {
    (100.0 * x).Floor as real == 100.0 * x
  }

  /** `Math.round(v * 100) / 100` on any Number: NaN and the infinities pass through. */
  function RoundNumber2(v: Number): (r: Number)
    ensures r.Finite? <==> v.Finite?
    ensures r.NaN? <==> v.NaN?
    ensures v.Infinity? ==> r == v
  {
    match v
    case Finite(x) => Finite(Round2(x))
    case NaN => NaN
    case Infinity(neg) => Infinity(neg)
  }

  /** IEEE division of two finite values. */
  function Divide(a: real, b: real): (r: Number)
    ensures b != 0.0 ==> r == Finite(a / b)
    ensures r.NaN? <==> a == 0.0 && b == 0.0
    ensures r.Infinity? <==> a != 0.0 && b == 0.0
    ensures r.Infinity? ==> (r.negative <==> a < 0.0)
  {
    if b != 0.0 then Finite(a / b)
    else if a == 0.0 then NaN
    else Infinity(a < 0.0)
  }

  /** `v * k` for a finite positive constant k: NaN and the infinities pass through. */
  function Scale(v: Number, k: real): Number
    requires k > 0.0
  {
    if v.Finite? then Finite(v.value * k) else v
  }

  /** The comparison `v > 0`: false for NaN. */
  predicate IsPositive(v: Number) {
    match v
    case Finite(x) => x > 0.0
    case NaN => false
    case Infinity(neg) => !neg
  }

  /** `Math.max(a, b)` on finite values. */
  function Max(a: real, b: real): (r: real)
    ensures r >= a && r >= b
    ensures r == a || r == b
  {
    if a >= b then a else b
  }

  /** `Math.abs(x)` on a finite value. */
  function Abs(x: real): (r: real)
    ensures r >= 0.0
    ensures r == x || r == -x
  {
    if x < 0.0 then -x else x
  }

  /** Rounding is the identity exactly on the hundredths grid. */
  lemma {:induction false} Round2OnGrid(x: real)
    ensures OnGrid(x) <==> Round2(x) == x
  {
    if OnGrid(x) {
      var n := (100.0 * x).Floor;
      assert (100.0 * x + 0.5).Floor == n;
    }
  }

  /** Rounding is monotone. */
  lemma {:induction false} Round2Monotone(x: real, y: real)
    requires x <= y
    ensures Round2(x) <= Round2(y)
  {
    assert (100.0 * x + 0.5).Floor <= (100.0 * y + 0.5).Floor;
  }

  /** Rounding keeps a value inside any interval whose ends are on the grid. */
  lemma {:induction false} Round2Within(x: real, lo: real, hi: real)
    requires OnGrid(lo) && OnGrid(hi)
    requires lo <= x <= hi
    ensures lo <= Round2(x) <= hi
  {
    Round2Monotone(lo, x);
    Round2Monotone(x, hi);
    Round2OnGrid(lo);
    Round2OnGrid(hi);
  }

  /** Math.round rounds halves up: -0.025 becomes -0.02 and 0.025 becomes 0.03. */
  lemma {:induction false} Round2HalvesUp()
    ensures Round2(-0.025) == -0.02
    ensures Round2(0.025) == 0.03
  {
    assert (100.0 * -0.025 + 0.5).Floor == -2;
    assert (100.0 * 0.025 + 0.5).Floor == 3;
  }
}
