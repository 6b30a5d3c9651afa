/** Shared vocabulary: optional values, draws of `Math.random()` and the two
    ways the animation code turns a draw into a quantity. */
module Common {

  datatype Option<T> = None | Some(value: T)

  /** One result of `Math.random()`: a real in [0, 1). Random draws are
      inputs of the model, never behaviour. */
  type Unit = r: real | 0.0 <= r < 1.0

  /** 2 * Math.PI, the double the source multiplies phase draws by. */
  const TwoPi: real := 6.283185307179586

  /** `Math.random() * span + lo`: a value in [lo, lo + span). */
  function Scale(r: Unit, span: real, lo: real): (v: real)
    ensures span >= 0.0 ==> lo <= v <= lo + span
    ensures span > 0.0 ==> v < lo + span
  {
    UnitProductBounds(r, span);
    r * span + lo
  }

  /** `(Math.random() - 0.5) * span`: a velocity in [-span/2, span/2). */
  function Centered(r: Unit, span: real): (v: real)
    ensures span >= 0.0 ==> -span / 2.0 <= v <= span / 2.0
    ensures span > 0.0 ==> v < span / 2.0
  {
    UnitProductBounds(r, span);
    (r - 0.5) * span
  }

  lemma UnitProductBounds(r: Unit, span: real)
    ensures span >= 0.0 ==> 0.0 <= r * span <= span
    ensures span > 0.0 ==> r * span < span
  {
    if span >= 0.0 {
      assert span - r * span == (1.0 - r) * span;
    }
  }
}
