/**
 * The per-orb configuration of the `FireworkOrbs` component in
 * app/components/FireworkOrbs.tsx: how many orbs a particle density asks for,
 * and the size, colour, opacity, noise seed, speed and amplitude of orb `i`.
 * Sizes are in rem; intensities are the percentage the orb's opacity is scaled by.
 */
module FireworkOrbs {
  import opened Wrappers
  import Noise

  /** The component's props (`density`, `velocity`, `colors`, `intensity`, `frequency`, `turbulence`). */
  datatype OrbProps = OrbProps(
    density: real,
    velocity: real,
    colors: seq<string>,
    intensity: real,
    frequency: real,
    turbulence: real)

  /** The defaults the component falls back to when it is rendered without props. */
  const DefaultProps := OrbProps(20.0, 3.0, ["#3b82f6", "#8b5cf6"], 0.3, 4000.0, 1.0)

  /** `Math.floor(density / 10) + 2`, before clamping. */
  function RequestedOrbs(density: real): (n: int)
    ensures (n - 2) as real * 10.0 <= density < (n - 1) as real * 10.0
  {
    (density / 10.0).Floor + 2
  }

  /** `orbCount`: the requested number clamped into [6, 12]. */
  function OrbCount(density: real): (n: int)
    ensures 6 <= n <= 12
    ensures 6 <= RequestedOrbs(density) <= 12 ==> n == RequestedOrbs(density)
    ensures RequestedOrbs(density) < 6 ==> n == 6
    ensures RequestedOrbs(density) > 12 ==> n == 12
  {
    var requested := RequestedOrbs(density);
    if 12 <= requested then 12 else if requested <= 6 then 6 else requested
  }

  /** A denser profile never gets fewer orbs. */
  lemma OrbCountMonotone(d1: real, d2: real)
    requires d1 <= d2
    ensures OrbCount(d1) <= OrbCount(d2)
  {
    assert d1 / 10.0 <= d2 / 10.0;
    assert (d1 / 10.0).Floor <= (d2 / 10.0).Floor;
  }

  /** `0.5 + (i % 3) * 0.3`: one of 0.5, 0.8 and 1.1. */
  function BaseSpeed(i: nat): (r: real)
    ensures 0.5 <= r <= 1.1
  {
    0.5 + (i % 3) as real * 0.3
  }

  /** `110 + (i % 4) * 30`: one of 110, 140, 170 and 200. */
  function BaseAmplitude(i: nat): (r: real)
    ensures 110.0 <= r <= 200.0
  {
    110.0 + (i % 4) as real * 30.0
  }

  /** `baseSpeed * (0.8 + turbulence * 0.4)`. */
  function WeatherSpeed(i: nat, turbulence: real): (r: real)
    ensures turbulence == 1.0 ==> r == 1.2 * BaseSpeed(i)
    ensures turbulence >= -2.0 ==> r >= 0.0
  {
    BaseSpeed(i) * (0.8 + turbulence * 0.4)
  }

  /** `baseAmplitude * turbulence`. */
  function WeatherAmplitude(i: nat, turbulence: real): (r: real)
    ensures turbulence == 1.0 ==> r == BaseAmplitude(i)
    ensures turbulence >= 0.0 ==> r >= 0.0
  {
    var amplitude := BaseAmplitude(i) * turbulence;
    assert turbulence >= 0.0 ==> amplitude >= 0.0 by {
      if turbulence >= 0.0 {
        Noise.MulNonNegative(BaseAmplitude(i), turbulence);
      }
    }
    amplitude
  }

  /** More turbulence never makes an orb slower or its movement narrower. */
  lemma WeatherMonotone(i: nat, t1: real, t2: real)
    requires t1 <= t2
    ensures WeatherSpeed(i, t1) <= WeatherSpeed(i, t2)
    ensures WeatherAmplitude(i, t1) <= WeatherAmplitude(i, t2)
  {
    var s, a := BaseSpeed(i), BaseAmplitude(i);
    var f1, f2 := 0.8 + t1 * 0.4, 0.8 + t2 * 0.4;
    Noise.MulNonNegative(s, f2 - f1);
    assert s * (f2 - f1) == s * f2 - s * f1;
    Noise.MulNonNegative(a, t2 - t1);
    assert a * (t2 - t1) == a * t2 - a * t1;
  }

  /** For a turbulence in [1, 3] (any non-negative wind speed) the speed lies in
      [0.6, 2.2] and the amplitude in [110, 600]. */
  lemma WeatherRange(i: nat, turbulence: real)
    requires 1.0 <= turbulence <= 3.0
    ensures 0.6 <= WeatherSpeed(i, turbulence) <= 2.2
    ensures 110.0 <= WeatherAmplitude(i, turbulence) <= 600.0
  {
    WeatherMonotone(i, 1.0, turbulence);
    WeatherMonotone(i, turbulence, 3.0);
  }

  datatype OrbConfig = OrbConfig(
    size: int,
    colorIdx: Option<nat>,
    intensity: int,
    seed: real,
    speed: real,
    amplitude: real)

  /** `i % colors.length`; with no colours the remainder is NaN, modelled as `None`. */
  function ColorIdx(i: nat, colorCount: nat): (r: Option<nat>)
    ensures r.None? <==> colorCount == 0
    ensures r.Some? ==> r.value < colorCount
    ensures colorCount > 0 && i < colorCount ==> r == Some(i)
  {
    if colorCount == 0 then None else Some(i % colorCount)
  }

  /** The configuration of orb `i` (positions, which use cosine and sine, are not modelled). */
  function OrbAt(i: nat, colors: seq<string>, turbulence: real): (o: OrbConfig)
    ensures 24 <= o.size <= 36
    ensures 55 <= o.intensity <= 95
    ensures |colors| > 0 ==> o.colorIdx.Some? && o.colorIdx.value < |colors|
    ensures o.seed == (i + 1) as real * 0.1
    ensures o.speed == WeatherSpeed(i, turbulence) && o.amplitude == WeatherAmplitude(i, turbulence)
  {
    OrbConfig(
      24 + (i % 5) * 3,
      ColorIdx(i, |colors|),
      55 + (i % 6) * 8,
      (i + 1) as real * 0.1,
      WeatherSpeed(i, turbulence),
      WeatherAmplitude(i, turbulence))
  }

  /** `orbs`: one configuration per orb. Every orb gets its own noise seed, and a
      non-empty palette is always indexed in range. */
  function Orbs(density: real, colors: seq<string>, turbulence: real): (orbs: seq<OrbConfig>)
    ensures 6 <= |orbs| <= 12 && |orbs| == OrbCount(density)
    ensures forall i :: 0 <= i < |orbs| ==> orbs[i] == OrbAt(i, colors, turbulence)
    ensures forall i, j :: 0 <= i < j < |orbs| ==> orbs[i].seed < orbs[j].seed
    ensures |colors| > 0 ==> forall i :: 0 <= i < |orbs| ==>
      orbs[i].colorIdx.Some? && orbs[i].colorIdx.value < |colors|
  {
    seq(OrbCount(density), i requires 0 <= i => OrbAt(i, colors, turbulence))
  }

  /** `colors[orb.colorIdx] || colors[0]`: a missing index or an empty colour string
      falls back to the first colour, which is itself missing when there are no colours. */
  function OrbColor(colors: seq<string>, colorIdx: Option<nat>): (r: Option<string>)
    ensures r.None? <==> |colors| == 0
    ensures r.Some? ==> r.value in colors
    ensures colorIdx.Some? && colorIdx.value < |colors| && colors[colorIdx.value] != "" ==>
      r == Some(colors[colorIdx.value])
  {
    if colorIdx.Some? && colorIdx.value < |colors| && colors[colorIdx.value] != "" then
      Some(colors[colorIdx.value])
    else if |colors| > 0 then
      Some(colors[0])
    else
      None
  }
}
