/** `Math.random()`, injected: a stream of draws the caller supplies, so every
    generator in this model is a deterministic function of its draws. */
module Random {

  /** One value of `Math.random()`: a real in [0, 1). */
  type Unit = r: real | 0.0 <= r < 1.0

  /** The k-th call of `Math.random()` returns `rnd(k)`. */
  type Stream = nat -> Unit

  /** `Math.floor(Math.random() * n)`: an index below n. */
  function Pick(u: Unit, n: nat): (k: nat)
    requires n > 0
    ensures k < n
  {
    assert (1.0 - u) * n as real > 0.0;
    (u * n as real).Floor
  }
}
