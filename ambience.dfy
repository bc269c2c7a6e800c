/**
 * The atmospheric data interpreter of app/lib/ambience.ts: a weather reading
 * (WMO weather interpretation code, wind speed, temperature, wind direction)
 * is turned into the visual profile that drives the hero animation.
 * JavaScript numbers are modelled as `real`; the condition code as `int`.
 */
module Ambience {
  import opened Wrappers

  /** One weather snapshot: thermal reading, condition code, wind speed, wind bearing. */
  datatype AmbienceData = AmbienceData(t: real, c: int, w: real, d: real)

  datatype VisualProfile = VisualProfile(
    particleDensity: real,
    particleVelocity: real,
    colorTemp: seq<string>,
    orbIntensity: real,
    burstFrequency: real,
    turbulence: real)

  /** `Partial<VisualProfile>`: a field that is `None` is absent from the object. */
  datatype PartialProfile = PartialProfile(
    particleDensity: Option<real>,
    particleVelocity: Option<real>,
    colorTemp: Option<seq<string>>,
    orbIntensity: Option<real>,
    burstFrequency: Option<real>,
    turbulence: Option<real>)

  /** The empty object `{}`. */
  const EmptyPartial := PartialProfile(None, None, None, None, None, None)

  /** A table row: the five fields every entry of the table lists. */
  function Row(density: real, velocity: real, colors: seq<string>, intensity: real, frequency: real): (r: PartialProfile)
    ensures r.turbulence == None
  {
    PartialProfile(Some(density), Some(velocity), Some(colors), Some(intensity), Some(frequency), None)
  }

  /** `CONDITION_PROFILES`, keyed by WMO weather interpretation code. */
  const ConditionProfiles: map<int, PartialProfile> := map[
    // clear
    0 := Row(15.0, 2.5, ["#3b82f6", "#8b5cf6"], 0.3, 4000.0),
    1 := Row(18.0, 2.8, ["#60a5fa", "#a78bfa"], 0.28, 4200.0),
    2 := Row(22.0, 3.0, ["#93c5fd", "#c4b5fd"], 0.25, 4500.0),
    3 := Row(25.0, 3.2, ["#bfdbfe", "#ddd6fe"], 0.22, 5000.0),
    // fog
    45 := Row(40.0, 1.5, ["#94a3b8", "#cbd5e1"], 0.15, 6000.0),
    48 := Row(45.0, 1.2, ["#64748b", "#94a3b8"], 0.12, 6500.0),
    // drizzle
    51 := Row(35.0, 4.0, ["#0ea5e9", "#6366f1"], 0.25, 3000.0),
    53 := Row(42.0, 4.5, ["#0284c7", "#4f46e5"], 0.28, 2800.0),
    55 := Row(50.0, 5.0, ["#0369a1", "#4338ca"], 0.32, 2500.0),
    // rain
    61 := Row(55.0, 5.5, ["#0c4a6e", "#3730a3"], 0.35, 2200.0),
    63 := Row(65.0, 6.5, ["#082f49", "#312e81"], 0.4, 2000.0),
    65 := Row(75.0, 7.5, ["#0c4a6e", "#1e1b4b"], 0.45, 1800.0),
    // snow
    71 := Row(60.0, 2.0, ["#e0f2fe", "#dbeafe"], 0.2, 3500.0),
    73 := Row(70.0, 2.5, ["#bae6fd", "#bfdbfe"], 0.18, 3200.0),
    75 := Row(85.0, 3.0, ["#7dd3fc", "#93c5fd"], 0.15, 3000.0),
    // thunderstorm
    95 := Row(90.0, 8.0, ["#7c3aed", "#ec4899"], 0.5, 1500.0),
    96 := Row(95.0, 9.0, ["#6d28d9", "#db2777"], 0.55, 1300.0),
    99 := Row(100.0, 10.0, ["#5b21b6", "#be185d"], 0.6, 1000.0)
  ]

  /** `DEFAULT_PROFILE`, used when there is no reading. */
  const DefaultProfile := VisualProfile(20.0, 3.0, ["#3b82f6", "#8b5cf6"], 0.3, 4000.0, 1.0)

  function Min(a: real, b: real): (r: real)
    ensures r <= a && r <= b && (r == a || r == b)
  {
    if a <= b then a else b
  }

  function Max(a: real, b: real): (r: real)
    ensures r >= a && r >= b && (r == a || r == b)
  {
    if a >= b then a else b
  }

  /** `CONDITION_PROFILES[c] || {}`: the row for a known code, otherwise the empty object. */
  function BaseProfile(c: int): (r: PartialProfile)
    ensures r.turbulence.None?
    ensures c in ConditionProfiles ==> r == ConditionProfiles[c] && CompleteRow(r)
    ensures c !in ConditionProfiles ==> r == EmptyPartial
  {
    if c in ConditionProfiles then
      TableRowsComplete(c);
      ConditionProfiles[c]
    else
      EmptyPartial
  }

  /** Object spread `{...base, ...patch}`: each field present in `patch` wins. */
  function Overlay(base: VisualProfile, patch: PartialProfile): (r: VisualProfile)
    ensures patch == EmptyPartial ==> r == base
    ensures r.particleDensity == if patch.particleDensity.Some? then patch.particleDensity.value else base.particleDensity
    ensures r.particleVelocity == if patch.particleVelocity.Some? then patch.particleVelocity.value else base.particleVelocity
    ensures r.colorTemp == if patch.colorTemp.Some? then patch.colorTemp.value else base.colorTemp
    ensures r.orbIntensity == if patch.orbIntensity.Some? then patch.orbIntensity.value else base.orbIntensity
    ensures r.burstFrequency == if patch.burstFrequency.Some? then patch.burstFrequency.value else base.burstFrequency
    ensures r.turbulence == if patch.turbulence.Some? then patch.turbulence.value else base.turbulence
  {
    VisualProfile(
      patch.particleDensity.GetOr(base.particleDensity),
      patch.particleVelocity.GetOr(base.particleVelocity),
      patch.colorTemp.GetOr(base.colorTemp),
      patch.orbIntensity.GetOr(base.orbIntensity),
      patch.burstFrequency.GetOr(base.burstFrequency),
      patch.turbulence.GetOr(base.turbulence))
  }

  /** Wind speed normalised over 0..50 km/h: `1.0 + Math.min(w / 25, 2.0)`. */
  function Turbulence(w: real): (r: real)
    ensures r <= 3.0
    ensures w >= 0.0 ==> r >= 1.0
    ensures w >= 50.0 ==> r == 3.0
    ensures w <= 50.0 ==> r == 1.0 + w / 25.0
  {
    1.0 + Min(w / 25.0, 2.0)
  }

  /**
   * The temperature factor `max(0.5, min(1.5, 1 - (t - 10) / 30))`. The source
   * computes it and never reads it, so it has no effect on the profile.
   */
  function TempFactor(t: real): (r: real)
    ensures 0.5 <= r <= 1.5
    ensures 0.5 < r < 1.5 ==> r == 1.0 - (t - 10.0) / 30.0
  {
    Max(0.5, Min(1.5, 1.0 - (t - 10.0) / 30.0))
  }

  /** `computeVisualProfile`: `None` is the `null` reading after a failed fetch. */
  function ComputeVisualProfile(data: Option<AmbienceData>): (r: VisualProfile)
    ensures data.None? ==> r == DefaultProfile
    ensures data.Some? ==> r.turbulence == 1.0 + Min(data.value.w / 25.0, 2.0)
    ensures data.Some? && data.value.c !in ConditionProfiles ==>
      r == DefaultProfile.(turbulence := r.turbulence)
  {
    match data
    case None => DefaultProfile
    case Some(reading) =>
      var baseProfile := BaseProfile(reading.c);
      var turbulence := Turbulence(reading.w);
      var _ := TempFactor(reading.t);
      Overlay(Overlay(DefaultProfile, baseProfile), EmptyPartial.(turbulence := Some(turbulence)))
  }

  // ---------------------------------------------------------------------------
  // Properties of the mapping

  predicate IsHexDigit(ch: char) {
    '0' <= ch <= '9' || 'a' <= ch <= 'f'
  }

  /** A CSS colour `#rrggbb` in lower-case hex, the form the orbs append an alpha byte to. */
  predicate IsHexColor(s: string) {
    |s| == 7 && s[0] == '#' && forall i :: 1 <= i < 7 ==> IsHexDigit(s[i])
  }

  /** A two-colour palette of `#rrggbb` colours. */
  predicate IsPalette(colors: seq<string>) {
    |colors| == 2 && IsHexColor(colors[0]) && IsHexColor(colors[1])
  }

  /** The ranges every table row and the default stay within. */
  predicate InRange(density: real, velocity: real, colors: seq<string>, intensity: real, frequency: real) {
    && 15.0 <= density <= 100.0
    && 1.2 <= velocity <= 10.0
    && IsPalette(colors)
    && 0.12 <= intensity <= 0.6
    && 1000.0 <= frequency <= 6500.0
  }

  /** A table row that sets all five fields, each within range, and leaves turbulence alone. */
  predicate CompleteRow(row: PartialProfile) {
    && row.particleDensity.Some? && row.particleVelocity.Some? && row.colorTemp.Some?
    && row.orbIntensity.Some? && row.burstFrequency.Some? && row.turbulence.None?
    && InRange(row.particleDensity.value, row.particleVelocity.value, row.colorTemp.value,
               row.orbIntensity.value, row.burstFrequency.value)
  }

  /** A profile the renderer can be handed: fields in range, turbulence at most 3. */
  predicate WellFormed(p: VisualProfile) {
    InRange(p.particleDensity, p.particleVelocity, p.colorTemp, p.orbIntensity, p.burstFrequency)
    && p.turbulence <= 3.0
  }

  /** The WMO codes the table covers: clear (0-3), fog (45, 48), drizzle (51-55),
      rain (61-65), snow (71-75) and thunderstorm (95-99). */
  lemma TableCodes()
    ensures ConditionProfiles.Keys == {0, 1, 2, 3, 45, 48, 51, 53, 55, 61, 63, 65, 71, 73, 75, 95, 96, 99}
  {
  }

  /** Every entry of the table lists all five fields, with values in range. */
  lemma TableRowsComplete(c: int)
    requires c in ConditionProfiles
    ensures CompleteRow(ConditionProfiles[c])
  {
    TableCodes();
    assert c in {0, 1, 2, 3, 45, 48, 51, 53, 55, 61, 63, 65, 71, 73, 75, 95, 96, 99};
    var colors := ConditionProfiles[c].colorTemp.value;
    forall k | 0 <= k < 2
      ensures IsHexColor(colors[k])
    {
      var s := colors[k];
      assert |s| == 7 && s[0] == '#';
      forall i | 1 <= i < 7 ensures IsHexDigit(s[i]) {}
    }
  }

  /** For a code in the table, the five fields are exactly that row's literals. */
  lemma KnownCodeUsesRow(data: AmbienceData)
    requires data.c in ConditionProfiles
    ensures var r := ComputeVisualProfile(Some(data)); var row := ConditionProfiles[data.c];
      && r.particleDensity == row.particleDensity.value
      && r.particleVelocity == row.particleVelocity.value
      && r.colorTemp == row.colorTemp.value
      && r.orbIntensity == row.orbIntensity.value
      && r.burstFrequency == row.burstFrequency.value
      && r.turbulence == Turbulence(data.w)
  {
    TableRowsComplete(data.c);
  }

  /** A reading with an unknown code and no wind gives exactly the default profile. */
  lemma UnknownCalmIsDefault(data: AmbienceData)
    requires data.c !in ConditionProfiles && data.w == 0.0
    ensures ComputeVisualProfile(Some(data)) == DefaultProfile
  {
  }

  /** WMO codes for freezing drizzle and rain, snow grains and showers are absent from the
      table: the lookup is exact, so they fall back to the default (only turbulence varies). */
  lemma ShowersFallBack(data: AmbienceData)
    requires data.c in {56, 57, 66, 67, 77, 80, 81, 82, 85, 86}
    ensures ComputeVisualProfile(Some(data)) == DefaultProfile.(turbulence := Turbulence(data.w))
  {
    var c := data.c;
    assert c !in ConditionProfiles by {
      if c == 56 {} else if c == 57 {} else if c == 66 {} else if c == 67 {} else if c == 77 {}
      else if c == 80 {} else if c == 81 {} else if c == 82 {} else if c == 85 {} else {}
    }
  }

  /** More wind never means less turbulence. */
  lemma TurbulenceMonotone(w1: real, w2: real)
    requires w1 <= w2
    ensures Turbulence(w1) <= Turbulence(w2)
  {
  }

  /** Temperature and wind direction do not influence the profile. */
  lemma IgnoresTemperatureAndDirection(a: AmbienceData, b: AmbienceData)
    requires a.c == b.c && a.w == b.w
    ensures ComputeVisualProfile(Some(a)) == ComputeVisualProfile(Some(b))
  {
  }

  /** Every profile the function can return is well formed; with a non-negative wind
      speed (or no reading) its turbulence is at least 1. */
  lemma ProfileWellFormed(data: Option<AmbienceData>)
    ensures WellFormed(ComputeVisualProfile(data))
    ensures (data.None? || data.value.w >= 0.0) ==> 1.0 <= ComputeVisualProfile(data).turbulence <= 3.0
  {
    assert IsHexColor(DefaultProfile.colorTemp[0]) && IsHexColor(DefaultProfile.colorTemp[1]);
    if data.Some? && data.value.c in ConditionProfiles {
      KnownCodeUsesRow(data.value);
      TableRowsComplete(data.value.c);
    }
  }
}
