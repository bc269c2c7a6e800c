/**
 * How the hero section of app/components/Hero.tsx feeds the computed profile
 * into `FireworkOrbs`, and what that guarantees about the orbs drawn.
 */
module Hero {
  import opened Wrappers
  import opened Ambience
  import opened FireworkOrbs

  /** The props the hero passes: the profile's fields when it has one, otherwise none,
      so that the component's own defaults apply. */
  function PropsOf(profile: Option<VisualProfile>): (props: OrbProps)
    ensures profile.None? ==> props == DefaultProps
    ensures profile.Some? ==>
      && props.density == profile.value.particleDensity
      && props.colors == profile.value.colorTemp
      && props.turbulence == profile.value.turbulence
  {
    match profile
    case None => DefaultProps
    case Some(p) =>
      OrbProps(p.particleDensity, p.particleVelocity, p.colorTemp, p.orbIntensity, p.burstFrequency, p.turbulence)
  }

  /** Before the first reading arrives and after a failed fetch the orbs get the same props:
      the component's defaults are the default profile. */
  lemma FailedFetchLooksLikeFirstRender()
    ensures PropsOf(Some(ComputeVisualProfile(None))) == PropsOf(None)
  {
  }

  /** For every reading with a non-negative wind speed (and for no reading): the upper
      clamp of the orb count never binds, every orb is drawn in palette colour `i % 2`,
      and its speed and amplitude stay within the ranges turbulence 1..3 allows. */
  lemma RenderedOrbs(data: Option<AmbienceData>)
    requires data.None? || data.value.w >= 0.0
    ensures var props := PropsOf(Some(ComputeVisualProfile(data)));
      var orbs := Orbs(props.density, props.colors, props.turbulence);
      && |orbs| == (if RequestedOrbs(props.density) < 6 then 6 else RequestedOrbs(props.density))
      && forall i :: 0 <= i < |orbs| ==>
        && OrbColor(props.colors, orbs[i].colorIdx) == Some(props.colors[i % 2])
        && 0.6 <= orbs[i].speed <= 2.2
        && 110.0 <= orbs[i].amplitude <= 600.0
  {
    var profile := ComputeVisualProfile(data);
    ProfileWellFormed(data);
    var props := PropsOf(Some(profile));
    var orbs := Orbs(props.density, props.colors, props.turbulence);
    assert props.density <= 100.0;
    assert RequestedOrbs(props.density) <= 12 by {
      assert props.density / 10.0 <= 10.0;
    }
    forall i | 0 <= i < |orbs|
      ensures OrbColor(props.colors, orbs[i].colorIdx) == Some(props.colors[i % 2])
      ensures 0.6 <= orbs[i].speed <= 2.2
      ensures 110.0 <= orbs[i].amplitude <= 600.0
    {
      assert orbs[i] == OrbAt(i, props.colors, props.turbulence);
      assert IsHexColor(props.colors[i % 2]);
      WeatherRange(i, props.turbulence);
    }
  }
}
