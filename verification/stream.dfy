/** The single pseudorandom stream that every draw of the generator consumes.

    The Mersenne-Twister behind `random.Random` is not modelled. A `Source`
    says, for every stream position, what each kind of draw yields there, and
    is known only by the range of each draw. An `Rng` is a source together with
    the next position to read; every draw reads one position and returns the
    stream advanced by exactly one, so the order of draws is visible in the
    code structure and reproducibility holds by construction. */
module Stream {

  /** A value of `random()`: a real in [0, 1). */
  type Unit = r: real | 0.0 <= r < 1.0

  /** What the stream yields at each position for each kind of draw. */
  datatype Source = Source(
    uniform: nat -> Unit,      // random()
    gaussian: nat -> real,     // the standard normal deviate behind gauss(mu, sigma)
    below: nat -> nat,         // the raw value behind randint
    bits: nat -> bv128,        // getrandbits(128)
    exp: real -> real)         // math.exp, left uninterpreted

  /** A stream handle: a source and the next position to read. */
  datatype Rng = Rng(source: Source, pos: nat)

  /** The same stream `k` draws further on. */
  function Ahead(rng: Rng, k: nat): Rng {
    Rng(rng.source, rng.pos + k)
  }

  /** `random()`: one uniform draw in [0, 1). */
  function NextUniform(rng: Rng): (r: (real, Rng))
    ensures 0.0 <= r.0 < 1.0
    ensures r.0 == rng.source.uniform(rng.pos)
    ensures r.1 == Rng(rng.source, rng.pos + 1)
  {
    (rng.source.uniform(rng.pos), Rng(rng.source, rng.pos + 1))
  }

  /** `uniform(a, b)`, which Python computes as `a + (b - a) * random()`. */
  function NextBetween(rng: Rng, a: real, b: real): (r: (real, Rng))
    requires a <= b
    ensures a <= r.0 && (a < b ==> r.0 < b)
    ensures r.1 == Rng(rng.source, rng.pos + 1)
  {
    var (u, next) := NextUniform(rng);
    var width := b - a;
    var offset := width * u;
    ScaleUnit(width, u);
    (a + offset, next)
  }

  /** The value of `uniform(a, b)` is the `random()` draw at this position
      scaled into [a, b]; on an empty width it is exactly `a`. */
  lemma NextBetweenValue(rng: Rng, a: real, b: real)
    requires a <= b
    ensures NextBetween(rng, a, b).0 == a + (b - a) * rng.source.uniform(rng.pos)
    ensures a == b ==> NextBetween(rng, a, b).0 == a
  {
  }

  /** Scaling a non-negative width by a `random()` value stays below it. */
  lemma ScaleUnit(width: real, u: real)
    requires 0.0 <= width && 0.0 <= u < 1.0
    ensures 0.0 <= width * u <= width && width * u == u * width
    ensures 0.0 < width ==> width * u < width
  {
    assert width * u <= width * 1.0;
  }

  /** `randint(lo, hi)`: one integer draw in [lo, hi]. Python raises on an
      empty range, which the precondition excludes. */
  function NextInt(rng: Rng, lo: int, hi: int): (r: (int, Rng))
    requires lo <= hi
    ensures lo <= r.0 <= hi
    ensures r.1 == Rng(rng.source, rng.pos + 1)
  {
    (lo + rng.source.below(rng.pos) % (hi - lo + 1), Rng(rng.source, rng.pos + 1))
  }

  /** `gauss(mu, sigma)`: the deviate at this position, scaled and shifted. */
  function NextGauss(rng: Rng, mu: real, sigma: real): (r: (real, Rng))
    ensures r.0 - mu == sigma * rng.source.gaussian(rng.pos)
    ensures r.1 == Rng(rng.source, rng.pos + 1)
  {
    (mu + sigma * rng.source.gaussian(rng.pos), Rng(rng.source, rng.pos + 1))
  }

  /** `getrandbits(128)`. */
  function NextBits128(rng: Rng): (r: (bv128, Rng))
    ensures r.0 == rng.source.bits(rng.pos)
    ensures r.1 == Rng(rng.source, rng.pos + 1)
  {
    (rng.source.bits(rng.pos), Rng(rng.source, rng.pos + 1))
  }
}
