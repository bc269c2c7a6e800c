/**
 * The `NoiseGenerator` of app/components/FireworkOrbs.tsx: a two-dimensional
 * gradient noise in the style of Perlin's improved noise, read from a
 * 512-entry table of bytes. Coordinates are `real`s; the table is a `seq<int>`.
 */
module Noise {
  import opened Wrappers

  /** The table `p` the generator indexes: 512 entries, each in 0..255. */
  predicate ValidTable(p: seq<int>) {
    |p| == 512 && forall i :: 0 <= i < |p| ==> 0 <= p[i] <= 255
  }

  function Abs(x: real): (r: real)
    ensures r >= 0.0 && (r == x || r == -x)
  {
    if x < 0.0 then -x else x
  }

  /** `x - Math.floor(x)`: the position inside the lattice cell. */
  function Frac(x: real): (r: real)
    ensures 0.0 <= r < 1.0
    ensures x == x.Floor as real + r
  {
    x - x.Floor as real
  }

  /** `Math.floor(x) & 255`. The bitwise and keeps the low byte of the two's
      complement integer, which is its Euclidean remainder modulo 256. */
  function Cell(x: real): (r: int)
    ensures 0 <= r < 256
    ensures (x.Floor - r) % 256 == 0
  {
    x.Floor % 256
  }

  /** The fade curve `6t^5 - 15t^4 + 10t^3`, in the source's Horner form. */
  function Fade(t: real): (r: real)
    ensures t == 0.0 ==> r == 0.0
    ensures t == 1.0 ==> r == 1.0
    ensures t == 0.5 ==> r == 0.5
  {
    t * t * t * (t * (t * 6.0 - 15.0) + 10.0)
  }

  /** Linear interpolation from `a` (at `t = 0`) to `b` (at `t = 1`). */
  function Lerp(t: real, a: real, b: real): (r: real)
    ensures t == 0.0 ==> r == a
    ensures t == 1.0 ==> r == b
    ensures a == b ==> r == a
  {
    a + t * (b - a)
  }

  /** `grad2D`: only the two low bits of the hash matter (`hash & 3`), and the
      four values of `h` select only three gradients, `h = 1` and `h = 2` both
      giving `y - x`. */
  function Grad2D(hash: int, x: real, y: real): (r: real)
    ensures hash % 4 == 0 ==> r == x + y
    ensures hash % 4 == 1 || hash % 4 == 2 ==> r == y - x
    ensures hash % 4 == 3 ==> r == -x - y
    ensures Abs(r) <= Abs(x) + Abs(y)
  {
    var h := hash % 4;
    var u := if h < 2 then x else y;
    var v := if h < 2 then y else x;
    (if h % 2 == 0 then u else -u) + (if (h / 2) % 2 == 0 then v else -v)
  }

  /** The indices `a = p[X] + Y` and `b = p[X + 1] + Y`: both, and both plus one,
      stay inside the table. */
  function HashIndices(p: seq<int>, X: int, Y: int): (r: (int, int))
    requires ValidTable(p)
    requires 0 <= X < 256 && 0 <= Y < 256
    ensures 0 <= r.0 <= 510 && 0 <= r.1 <= 510
    ensures r.0 + 1 < |p| && r.1 + 1 < |p|
  {
    (p[X] + Y, p[X + 1] + Y)
  }

  /** The noise inside lattice cell `(X, Y)` at offset `(fx, fy)` from its corner. */
  function CellNoise(p: seq<int>, X: int, Y: int, fx: real, fy: real): (r: real)
    requires ValidTable(p)
    requires 0 <= X < 256 && 0 <= Y < 256
    ensures fx == 0.0 && fy == 0.0 ==> r == 0.0
  {
    var u := Fade(fx);
    var v := Fade(fy);
    var (a, b) := HashIndices(p, X, Y);
    Lerp(v,
      Lerp(u, Grad2D(p[a], fx, fy), Grad2D(p[b], fx - 1.0, fy)),
      Lerp(u, Grad2D(p[a + 1], fx, fy - 1.0), Grad2D(p[b + 1], fx - 1.0, fy - 1.0))
    ) * 2.0
  }

  /** `noise2D(x, y)`. It is zero at every lattice point. */
  function Noise2D(p: seq<int>, x: real, y: real): (r: real)
    requires ValidTable(p)
    ensures x == x.Floor as real && y == y.Floor as real ==> r == 0.0
  {
    CellNoise(p, Cell(x), Cell(y), Frac(x), Frac(y))
  }

  // ---------------------------------------------------------------------------
  // Properties of the helpers and of the noise

  /** The fade curve is symmetric about `(1/2, 1/2)`. */
  lemma FadeSymmetric(t: real)
    ensures Fade(1.0 - t) == 1.0 - Fade(t)
  {
    var s := 1.0 - t;
    var t2 := t * t;
    var t3 := t2 * t;
    assert s * s == 1.0 - 2.0 * t + t2;
    var s3 := s * s * s;
    assert s3 == 1.0 - 3.0 * t + 3.0 * t2 - t3;
    var q := s * (s * 6.0 - 15.0) + 10.0;
    assert q == 6.0 * t2 + 3.0 * t + 1.0;
    assert t2 * t2 == t3 * t;
    assert s3 * q == 1.0 - 10.0 * t3 + 15.0 * t3 * t - 6.0 * t3 * t2;
    assert t * t * t * (t * (t * 6.0 - 15.0) + 10.0) == 10.0 * t3 - 15.0 * t3 * t + 6.0 * t3 * t2;
  }

  lemma MulNonNegative(a: real, b: real)
    requires a >= 0.0 && b >= 0.0
    ensures a * b >= 0.0
  {
  }

  /** The factor `6t^2 - 15t + 10` has no real root, so the fade curve has the sign of `t^3`. */
  lemma FadeNonNegative(t: real)
    requires 0.0 <= t
    ensures Fade(t) >= 0.0
  {
    var q := t * (t * 6.0 - 15.0) + 10.0;
    var d := t - 1.25;
    assert q == 6.0 * (d * d) + 0.625;
    MulNonNegative(t, t);
    MulNonNegative(t * t, t);
    MulNonNegative(t * t * t, q);
  }

  /** The fade curve maps the unit interval into itself. */
  lemma FadeInUnit(t: real)
    requires 0.0 <= t <= 1.0
    ensures 0.0 <= Fade(t) <= 1.0
  {
    FadeNonNegative(t);
    FadeNonNegative(1.0 - t);
    FadeSymmetric(t);
  }

  /** For `t` in the unit interval, `Lerp` stays between its end points. */
  lemma LerpBetween(t: real, a: real, b: real)
    requires 0.0 <= t <= 1.0
    ensures a <= b ==> a <= Lerp(t, a, b) <= b
    ensures b <= a ==> b <= Lerp(t, a, b) <= a
  {
    if a <= b {
      MulNonNegative(t, b - a);
      MulNonNegative(1.0 - t, b - a);
    } else {
      MulNonNegative(t, a - b);
      MulNonNegative(1.0 - t, a - b);
    }
  }

  /** Inside a cell every corner gradient is at most 2 in size, so the noise lies in [-4, 4]. */
  lemma CellNoiseBounded(p: seq<int>, X: int, Y: int, fx: real, fy: real)
    requires ValidTable(p)
    requires 0 <= X < 256 && 0 <= Y < 256
    requires 0.0 <= fx <= 1.0 && 0.0 <= fy <= 1.0
    ensures -4.0 <= CellNoise(p, X, Y, fx, fy) <= 4.0
  {
    var u := Fade(fx);
    var v := Fade(fy);
    FadeInUnit(fx);
    FadeInUnit(fy);
    var (a, b) := HashIndices(p, X, Y);
    var g00 := Grad2D(p[a], fx, fy);
    var g10 := Grad2D(p[b], fx - 1.0, fy);
    var g01 := Grad2D(p[a + 1], fx, fy - 1.0);
    var g11 := Grad2D(p[b + 1], fx - 1.0, fy - 1.0);
    assert -2.0 <= g00 <= 2.0 && -2.0 <= g10 <= 2.0 && -2.0 <= g01 <= 2.0 && -2.0 <= g11 <= 2.0;
    var lower := Lerp(u, g00, g10);
    var upper := Lerp(u, g01, g11);
    LerpBetween(u, g00, g10);
    LerpBetween(u, g01, g11);
    LerpBetween(v, lower, upper);
  }

  /** `noise2D` always lies in [-4, 4]. */
  lemma NoiseBounded(p: seq<int>, x: real, y: real)
    requires ValidTable(p)
    ensures -4.0 <= Noise2D(p, x, y) <= 4.0
  {
    CellNoiseBounded(p, Cell(x), Cell(y), Frac(x), Frac(y));
  }

  /** Shifting by a whole period leaves the cell index and the offset unchanged. */
  lemma ShiftByPeriod(x: real)
    ensures Cell(x + 256.0) == Cell(x) && Frac(x + 256.0) == Frac(x)
  {
    var k := x.Floor;
    assert k as real <= x < k as real + 1.0;
    assert (x + 256.0).Floor == k + 256;
  }

  /** Because the cell index is taken modulo 256, the noise repeats every 256 units on both axes. */
  lemma NoisePeriodic(p: seq<int>, x: real, y: real)
    requires ValidTable(p)
    ensures Noise2D(p, x + 256.0, y) == Noise2D(p, x, y)
    ensures Noise2D(p, x, y + 256.0) == Noise2D(p, x, y)
  {
    ShiftByPeriod(x);
    ShiftByPeriod(y);
  }

  // ---------------------------------------------------------------------------
  // Building the table, and continuity across cell edges

  /** One table entry from a sine value: `floor(frac(sine * 10000) * 256)`. */
  function HashByte(sine: real): (r: int)
    ensures 0 <= r <= 255
  {
    var hash := sine * 10000.0;
    ((hash - hash.Floor as real) * 256.0).Floor
  }

  /** Entry `i` of the table, computed from the value the `seed` field holds when the
      entry is computed: `floor(frac(sin(seed + i) * 10000) * 256)`. While the field is
      still `undefined` (`None`), `seed + i` is NaN and every later step stays NaN; the
      result `None` is that NaN. */
  function TableEntry(seedField: Option<real>, i: int, sin: real -> real): (r: Option<int>)
    ensures r.None? <==> seedField.None?
    ensures r.Some? ==> 0 <= r.value <= 255
  {
    match seedField
    case None => None
    case Some(seed) => Some(HashByte(sin(seed + i as real)))
  }

  /** The 512-entry table built from the `seed` field's value at that moment.
      A NaN entry stands in as 0. The program's NaN table and the all-zero table lead
      every lookup to the same gradient hash 0: with NaN entries, `p[X] + Y` is NaN,
      `p[NaN]` is `undefined` and `undefined & 3` is 0; with zero entries, `p[X] + Y`
      is `Y` and `p[Y]` is 0. */
  function BuildTable(seedField: Option<real>, sin: real -> real): (p: seq<int>)
    ensures ValidTable(p)
    ensures seedField.None? ==> forall i :: 0 <= i < |p| ==> p[i] == 0
    ensures seedField.Some? ==> forall i :: 0 <= i < |p| ==> p[i] == HashByte(sin(seedField.value + i as real))
  {
    seq(512, i requires 0 <= i < 512 => TableEntry(seedField, i, sin).GetOr(0))
  }

  /** A generator: its `seed` field and its table `p`. */
  datatype NoiseGenerator = NoiseGenerator(seed: real, p: seq<int>)

  /** `new NoiseGenerator(seed)` as written. The field initialiser of `p` runs before the
      constructor body assigns `this.seed`, so the table is built from an undefined
      seed. Every generator gets the same table, whatever its seed. */
  function NewNoiseGenerator(seed: real, sin: real -> real): (g: NoiseGenerator)
    ensures g.seed == seed && ValidTable(g.p)
    ensures forall i :: 0 <= i < |g.p| ==> g.p[i] == 0
  {
    var p := BuildTable(None, sin);
    NoiseGenerator(seed, p)
  }

  /** The intended table, with the seed assigned before the table is built: entry `i` is
      hashed from `sin(seed + i)`, all 512 independently. `sin` stands for `Math.sin`. */
  function MakeTable(seed: real, sin: real -> real): (p: seq<int>)
    ensures ValidTable(p)
    ensures forall i :: 0 <= i < |p| ==> p[i] == HashByte(sin(seed + i as real))
  {
    BuildTable(Some(seed), sin)
  }

  /** With the seed assigned first, two seeds whose sines hash differently at some entry
      get different tables. */
  lemma SeedSelectsTable(s1: real, s2: real, sin: real -> real, i: int)
    requires 0 <= i < 512
    requires HashByte(sin(s1 + i as real)) != HashByte(sin(s2 + i as real))
    ensures MakeTable(s1, sin) != MakeTable(s2, sin)
  {
    assert MakeTable(s1, sin)[i] != MakeTable(s2, sin)[i];
  }

  /** As written, every gradient is `x + y`, and the noise collapses to a closed form
      in the offsets inside the unit cell. */
  lemma AsWrittenClosedForm(seed: real, sin: real -> real, x: real, y: real)
    ensures var fx, fy := Frac(x), Frac(y);
      Noise2D(NewNoiseGenerator(seed, sin).p, x, y) == 2.0 * (fx - Fade(fx)) + 2.0 * (fy - Fade(fy))
  {
    var p := NewNoiseGenerator(seed, sin).p;
    var X, Y, fx, fy := Cell(x), Cell(y), Frac(x), Frac(y);
    var (a, b) := HashIndices(p, X, Y);
    assert p[a] == 0 && p[b] == 0 && p[a + 1] == 0 && p[b + 1] == 0;
    var u, v := Fade(fx), Fade(fy);
    assert Lerp(u, fx + fy, fx - 1.0 + fy) == fx + fy - u;
    assert Lerp(u, fx + fy - 1.0, fx - 1.0 + fy - 1.0) == fx + fy - 1.0 - u;
    assert Lerp(v, fx + fy - u, fx + fy - 1.0 - u) == fx + fy - u - v;
  }

  /** As written, generators with different seeds produce the same noise. */
  lemma AsWrittenIgnoresSeed(s1: real, s2: real, sin: real -> real, x: real, y: real)
    ensures Noise2D(NewNoiseGenerator(s1, sin).p, x, y) == Noise2D(NewNoiseGenerator(s2, sin).p, x, y)
  {
    AsWrittenClosedForm(s1, sin, x, y);
    AsWrittenClosedForm(s2, sin, x, y);
  }

  /** As written, the noise repeats every unit along x and along y. */
  lemma AsWrittenUnitPeriod(seed: real, sin: real -> real, x: real, y: real)
    ensures var p := NewNoiseGenerator(seed, sin).p;
      Noise2D(p, x + 1.0, y) == Noise2D(p, x, y) && Noise2D(p, x, y + 1.0) == Noise2D(p, x, y)
  {
    assert Frac(x + 1.0) == Frac(x) by {
      assert (x + 1.0).Floor == x.Floor + 1;
    }
    assert Frac(y + 1.0) == Frac(y) by {
      assert (y + 1.0).Floor == y.Floor + 1;
    }
    AsWrittenClosedForm(seed, sin, x, y);
    AsWrittenClosedForm(seed, sin, x + 1.0, y);
    AsWrittenClosedForm(seed, sin, x, y + 1.0);
  }

  /** A sine whose values hash to 3 everywhere. */
  function ConstantSine(z: real): real {
    0.0000013
  }

  /** With the seed assigned first, the table reaches the gradients: for a sine whose values
      all hash to 3, every gradient is `-x - y`, and the noise at (0.25, 0.25) is the
      negation of the as-written value. */
  lemma SeededTableReachesGradients(seed: real)
    ensures Noise2D(MakeTable(seed, ConstantSine), 0.25, 0.25) == -0.5859375
    ensures Noise2D(NewNoiseGenerator(seed, ConstantSine).p, 0.25, 0.25) == 0.5859375
  {
    assert HashByte(0.0000013) == 3 by {
      var hash := 0.0000013 * 10000.0;
      assert hash == 0.013 && hash.Floor == 0;
      assert (0.013 * 256.0).Floor == 3;
    }
    var p := MakeTable(seed, ConstantSine);
    assert Cell(0.25) == 0 && Frac(0.25) == 0.25 by {
      assert 0.25.Floor == 0;
    }
    var (a, b) := HashIndices(p, 0, 0);
    assert p[a] == 3 && p[b] == 3 && p[a + 1] == 3 && p[b + 1] == 3;
    assert Fade(0.25) == 0.103515625;
    AsWrittenClosedForm(seed, ConstantSine, 0.25, 0.25);
  }

  /** Cell `X` and the next cell along x agree on their shared edge. Since the
      noise inside a cell is a polynomial, this is continuity across that edge. */
  predicate SeamX(p: seq<int>, X: int, Y: int, fy: real)
    requires ValidTable(p)
    requires 0 <= X < 256 && 0 <= Y < 256
  {
    CellNoise(p, X, Y, 1.0, fy) == CellNoise(p, (X + 1) % 256, Y, 0.0, fy)
  }

  /** The same along y. */
  predicate SeamY(p: seq<int>, X: int, Y: int, fx: real)
    requires ValidTable(p)
    requires 0 <= X < 256 && 0 <= Y < 256
  {
    CellNoise(p, X, Y, fx, 1.0) == CellNoise(p, X, (Y + 1) % 256, fx, 0.0)
  }

  /** With any table, an edge along x that does not wrap is seamless. */
  lemma SeamXInsideTable(p: seq<int>, X: int, Y: int, fy: real)
    requires ValidTable(p)
    requires 0 <= X < 255 && 0 <= Y < 256
    ensures SeamX(p, X, Y, fy)
  {
    var (_, b) := HashIndices(p, X, Y);
    var (a', _) := HashIndices(p, X + 1, Y);
    assert a' == b;
  }

  /** With any table, an edge along y that does not wrap is seamless. */
  lemma SeamYInsideTable(p: seq<int>, X: int, Y: int, fx: real)
    requires ValidTable(p)
    requires 0 <= X < 256 && 0 <= Y < 255
    ensures SeamY(p, X, Y, fx)
  {
    var (a, b) := HashIndices(p, X, Y);
    var (a', b') := HashIndices(p, X, Y + 1);
    assert a' == a + 1 && b' == b + 1;
  }

  /** A valid table whose entry 256 differs from entry 0. */
  const WrapWitness: seq<int> := seq(512, i => if i == 1 then 3 else if i == 256 then 1 else 0)

  /** A sine whose values at 1 and 256 hash to 3 and 1, and whose other values hash to 0. */
  function WitnessSine(z: real): real {
    if z == 1.0 then 0.0000013 else if z == 256.0 then 0.0000005 else 0.0
  }

  /** The witness table is one the seeded construction builds, from seed 0 and `WitnessSine`. */
  lemma WrapWitnessIsSeeded()
    ensures MakeTable(0.0, WitnessSine) == WrapWitness
  {
    assert HashByte(0.0000013) == 3 by {
      assert (0.0000013 * 10000.0).Floor == 0;
      assert (0.013 * 256.0).Floor == 3;
    }
    assert HashByte(0.0000005) == 1 by {
      assert (0.0000005 * 10000.0).Floor == 0;
      assert (0.005 * 256.0).Floor == 1;
    }
    assert HashByte(0.0) == 0;
    var p := MakeTable(0.0, WitnessSine);
    forall i | 0 <= i < 512
      ensures p[i] == WrapWitness[i]
    {
      assert p[i] == HashByte(WitnessSine(0.0 + i as real));
    }
  }

  /** With the seed assigned first, the table has independent entries 256 and 0, and the
      edge where the cell index wraps from 255 back to 0 is a jump:
      just left of x = 256 the noise is close to -1, at x = 256 it is 1. */
  lemma WrapSeamBroken()
    ensures ValidTable(WrapWitness)
    ensures !SeamX(WrapWitness, 255, 0, 0.5)
    ensures CellNoise(WrapWitness, 255, 0, 1.0, 0.5) == -1.0
    ensures Noise2D(WrapWitness, 255.99, 0.5) < -0.99
    ensures Noise2D(WrapWitness, 256.0, 0.5) == 1.0
  {
    var p := WrapWitness;
    assert ValidTable(p);
    assert p[0] == 0 && p[1] == 3 && p[2] == 0 && p[255] == 0 && p[256] == 1;
    assert Fade(0.5) == 0.5;
    assert Cell(255.99) == 255 && Frac(255.99) == 0.99 by {
      assert 255.99.Floor == 255;
    }
    assert Cell(256.0) == 0 && Frac(256.0) == 0.0 by {
      assert 256.0.Floor == 256;
    }
    assert Cell(0.5) == 0 && Frac(0.5) == 0.5 by {
      assert 0.5.Floor == 0;
    }
  }

  /** The intended table: 256 hashed entries, repeated, so that `p[i + 256] == p[i]`. */
  predicate DoubledTable(p: seq<int>) {
    ValidTable(p) && forall i :: 0 <= i < 256 ==> p[i + 256] == p[i]
  }

  /** The corrected construction: hash 256 entries and repeat them. */
  function MakeDoubledTable(seed: real, sin: real -> real): (p: seq<int>)
    ensures DoubledTable(p)
  {
    var half := seq(256, i requires 0 <= i < 256 => HashByte(sin(seed + i as real)));
    half + half
  }

  lemma DoubledSeamX(p: seq<int>, X: int, Y: int, fy: real)
    requires DoubledTable(p)
    requires 0 <= X < 256 && 0 <= Y < 256
    ensures SeamX(p, X, Y, fy)
  {
    if X == 255 {
      assert p[256] == p[0];
    } else {
      SeamXInsideTable(p, X, Y, fy);
    }
  }

  lemma DoubledSeamY(p: seq<int>, X: int, Y: int, fx: real)
    requires DoubledTable(p)
    requires 0 <= X < 256 && 0 <= Y < 256
    ensures SeamY(p, X, Y, fx)
  {
    if Y == 255 {
      var (a, b) := HashIndices(p, X, Y);
      var (a', b') := HashIndices(p, X, 0);
      assert a + 1 == a' + 256 && b + 1 == b' + 256;
      assert p[a + 1] == p[a'] && p[b + 1] == p[b'];
    } else {
      SeamYInsideTable(p, X, Y, fx);
    }
  }

  /** With a doubled table every edge is seamless, the wrapping ones included. */
  lemma DoubledTableSeamless(p: seq<int>, X: int, Y: int, fx: real, fy: real)
    requires DoubledTable(p)
    requires 0 <= X < 256 && 0 <= Y < 256
    ensures SeamX(p, X, Y, fy)
    ensures SeamY(p, X, Y, fx)
  {
    DoubledSeamX(p, X, Y, fy);
    DoubledSeamY(p, X, Y, fx);
  }

  /** As written there is no seam: the all-zero table is trivially doubled, so every edge
      agrees, the wrapping ones included. */
  lemma AsWrittenSeamless(seed: real, sin: real -> real, X: int, Y: int, fx: real, fy: real)
    requires 0 <= X < 256 && 0 <= Y < 256
    ensures SeamX(NewNoiseGenerator(seed, sin).p, X, Y, fy)
    ensures SeamY(NewNoiseGenerator(seed, sin).p, X, Y, fx)
  {
    var p := NewNoiseGenerator(seed, sin).p;
    assert DoubledTable(p);
    DoubledTableSeamless(p, X, Y, fx, fy);
  }
}
