/** Clock readings in nanoseconds, and the tokens that time earns. */
module TokenClock {

  const SECOND := 1_000_000_000

  // The tokens `ns` nanoseconds earn at `rate` a second.
  function Gain(rate: real, ns: int): real {
    ns as real / SECOND as real * rate
  }

  function Min(a: real, b: real): real {
    if a < b then a else b
  }

  lemma GainAdds(rate: real, a: int, b: int)
    ensures Gain(rate, a) + Gain(rate, b) == Gain(rate, a + b)
  {
    var x, y := a as real / SECOND as real, b as real / SECOND as real;
    assert (a + b) as real / SECOND as real == x + y;
    assert x * rate + y * rate == (x + y) * rate;
  }

  lemma GainGrows(rate: real, a: int, b: int)
    requires rate > 0.0 && a <= b
    ensures Gain(rate, a) <= Gain(rate, b)
  {
    var x, y := a as real / SECOND as real, b as real / SECOND as real;
    assert x <= y;
    assert (y - x) * rate >= 0.0;
    assert (y - x) * rate == y * rate - x * rate;
  }
}
