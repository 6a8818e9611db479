/**
 * Go's `int64`: a 64-bit two's-complement integer whose arithmetic wraps
 * silently on overflow. Dafny's `int` is unbounded, so wrap-around is written
 * out with `Wrap`.
 */
module Int64 {

  const Modulus: int := 0x1_0000_0000_0000_0000
  const Min: int := -0x8000_0000_0000_0000
  const Max: int := 0x7fff_ffff_ffff_ffff

  newtype int64 = x: int | -0x8000_0000_0000_0000 <= x < 0x8000_0000_0000_0000

  predicate InRange(x: int) {
    Min <= x <= Max
  }

  /** `x` and `y` denote the same 64-bit pattern. */
  predicate Congruent(x: int, y: int) {
    (x - y) % Modulus == 0
  }

  /** The int64 that a Go expression of exact value `x` evaluates to. */
  function Wrap(x: int): (r: int64)
    ensures Congruent(r as int, x)
    ensures InRange(x) ==> r as int == x
  {
    var k := (x - Min) / Modulus;
    assert x - Min == k * Modulus + (x - Min) % Modulus;
    assert (x - Min) % Modulus + Min - x == -k * Modulus;
    MultipleIsCongruent(-k);
    ((x - Min) % Modulus + Min) as int64
  }

  lemma MultipleIsCongruent(k: int)
    ensures (k * Modulus) % Modulus == 0
  {
  }

  /** Congruence is an equivalence relation. */
  lemma {:induction false} CongruentTrans(x: int, y: int, z: int)
    requires Congruent(x, y) && Congruent(y, z)
    ensures Congruent(x, z)
  {
    var a, b := (x - y) / Modulus, (y - z) / Modulus;
    assert x - y == a * Modulus;
    assert y - z == b * Modulus;
    assert x - z == (a + b) * Modulus;
    MultipleIsCongruent(a + b);
  }

  lemma CongruentSym(x: int, y: int)
    requires Congruent(x, y)
    ensures Congruent(y, x)
  {
    var a := (x - y) / Modulus;
    assert x - y == a * Modulus;
    assert y - x == (-a) * Modulus;
    MultipleIsCongruent(-a);
  }

  /** Two in-range values with the same bit pattern are equal. */
  lemma CongruentInRangeEqual(x: int, y: int)
    requires InRange(x) && InRange(y) && Congruent(x, y)
    ensures x == y
  {
    var a := (x - y) / Modulus;
    assert x - y == a * Modulus;
  }

  /** Wrapping depends only on the bit pattern. */
  lemma WrapCongruent(x: int, y: int)
    requires Congruent(x, y)
    ensures Wrap(x) == Wrap(y)
  {
    CongruentTrans(Wrap(x) as int, x, y);
    CongruentSym(Wrap(y) as int, y);
    CongruentTrans(Wrap(x) as int, y, Wrap(y) as int);
    CongruentInRangeEqual(Wrap(x) as int, Wrap(y) as int);
  }

  /** An accumulator that wraps at every step ends where one wrap at the end would. */
  lemma WrapAdd(a: int, b: int)
    ensures Wrap(Wrap(a) as int + b) == Wrap(a + b)
  {
    var w := Wrap(a) as int;
    var k := (w - a) / Modulus;
    assert w - a == k * Modulus;
    assert (w + b) - (a + b) == k * Modulus;
    MultipleIsCongruent(k);
    WrapCongruent(w + b, a + b);
  }
}
