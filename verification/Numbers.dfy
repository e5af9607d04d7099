/** Machine numbers of the metrics: signed 64-bit integers with wrap-around and
    64-bit floats as far as the repository tells them apart. */
module Numbers {

  const TWO_63: int := 0x8000_0000_0000_0000
  const TWO_64: int := 0x1_0000_0000_0000_0000

  type Int64 = x: int | -TWO_63 <= x < TWO_63

  /** The int64 that x becomes: the only one congruent to x modulo 2^64. */
  function Wrap64(x: int): (w: Int64)
    ensures (x - w) % TWO_64 == 0
  {
    (x + TWO_63) % TWO_64 - TWO_63
  }

  lemma WrapIsTheOnly(x: int, w: Int64)
    requires (x - w) % TWO_64 == 0
    ensures w == Wrap64(x)
  {
    var k := (x - w) / TWO_64;
    assert x == w + k * TWO_64;
  }

  lemma WrapInRange(x: int)
    ensures Wrap64(x) == x <==> -9223372036854775808 <= x <= 9223372036854775807
  {
  }

  /** Adding after a wrap-around is the same as wrapping once at the end. */
  lemma WrapAbsorbs(a: int, b: int)
    ensures Wrap64(Wrap64(a) + b) == Wrap64(a + b)
  {
    var w := Wrap64(a);
    var v := Wrap64(w + b);
    var j := (a - w) / TWO_64;
    var k := (w + b - v) / TWO_64;
    assert a + b - v == (j + k) * TWO_64;
    WrapIsTheOnly(a + b, v);
  }

  /** A float64. A finite value is known by the real number it denotes. */
  datatype Float64 = Finite(r: real) | NaN | PosInf | NegInf
}
