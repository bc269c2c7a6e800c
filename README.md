# sml-home ambience and orb model

A Dafny model of the two deterministic pieces behind the animated hero section of the
sml-home portfolio site:

- **The ambience interpreter** (`app/lib/ambience.ts`). A weather reading `{t, c, w, d}`
  holds a temperature, a WMO weather interpretation code, a wind speed and a wind
  direction. It is mapped to a visual profile: particle density, particle velocity, a
  two-colour palette, orb intensity, burst frequency and turbulence. The code is looked
  up in a static table (`CONDITION_PROFILES`). The fields of the table row are spread
  over `DEFAULT_PROFILE`, and turbulence is recomputed from the wind. A `null` reading
  (a failed fetch) gives the default profile.
- **The orb configuration and gradient noise** (`app/components/FireworkOrbs.tsx`). The
  number of orbs is clamped from the density. Each orb `i` gets a size, a colour index,
  an intensity, a noise seed, a speed and an amplitude. The `NoiseGenerator` is a 2D
  gradient noise over a 512-entry table `p`. It has a fade curve, `lerp` and a
  four-way gradient selector. The noise functions are proved over any table of bytes.
  The table the program actually builds is modelled separately: the field initialiser of
  `p` runs before the constructor assigns `seed`, so every entry is NaN (see Findings).
- **The wiring** in `app/components/Hero.tsx`: which profile fields become the orbs' props.

Modules: `Wrappers` (Option, standing for `null`/`undefined`), `Ambience`, `Noise`,
`FireworkOrbs` and `Hero`. JavaScript numbers are `real`s, and the condition code is an
`int`. `Math.floor(x) & 255` is `x.Floor % 256`, because the bitwise and keeps the low
byte of the two's complement integer, which is its Euclidean remainder. `hash & 3` is
`hash % 4`. The permutation table's `Math.sin` is passed in as a function parameter.

Where comments and code disagree, the model follows the code:
- The comment at `app/lib/ambience.ts:73` says "closest" profile, but the lookup is
  exact. Codes missing from the table (showers, freezing rain, snow grains) fall back to
  the default (`Ambience.ShowersFallBack`).
- `tempFactor` is computed and never used, so temperature has no effect, although the
  comment says it shifts the colours (`Ambience.IgnoresTemperatureAndDirection`).
- The comment at `app/components/FireworkOrbs.tsx:30` promises "continuous,
  non-repeating" noise. The cell index is taken modulo 256, so any table gives noise that
  repeats every 256 units (`Noise.NoisePeriodic`). The table as built makes it repeat
  every unit (`Noise.AsWrittenUnitPeriod`).
- An unknown code gives the default profile only when there is no wind. Turbulence is
  always recomputed from `w` (`Ambience.UnknownCalmIsDefault`).

## Model

| member | source | states |
|---|---|---|
| `Ambience.BaseProfile` | app/lib/ambience.ts:74 | the base never sets turbulence; for a known code it is that code's row, which sets all five other fields within the table's ranges; for any other code it is the empty object, so every field comes from the default |
| `Ambience.Overlay` | app/lib/ambience.ts:83-87 | object spread: a field present in the patch wins, an absent one keeps the base value; an empty patch changes nothing |
| `Ambience.Turbulence` | app/lib/ambience.ts:77 | turbulence is at most 3, at least 1 for non-negative wind, exactly 3 from 50 km/h on, and `1 + w/25` below that |
| `Ambience.TempFactor` | app/lib/ambience.ts:81 | the unused temperature factor is clamped into [0.5, 1.5] and is linear in between |
| `Ambience.ComputeVisualProfile` | app/lib/ambience.ts:70-88 | a null reading gives exactly the default profile; otherwise turbulence is `1 + min(w/25, 2)`, and an unknown code gives the default in every other field |
| `Ambience.TableCodes` | app/lib/ambience.ts:23-53 | the table covers exactly the WMO codes 0-3, 45, 48, 51, 53, 55, 61, 63, 65, 71, 73, 75, 95, 96, 99 |
| `Ambience.TableRowsComplete` | app/lib/ambience.ts:23-53 | every row sets all five fields and no turbulence: density in [15, 100], velocity in [1.2, 10], two `#rrggbb` colours, intensity in [0.12, 0.6], frequency in [1000, 6500] |
| `Ambience.KnownCodeUsesRow` | app/lib/ambience.ts:74-87 | for a code in the table, the five fields equal that row's literals and turbulence comes from the wind |
| `Ambience.UnknownCalmIsDefault` | app/lib/ambience.ts:74-87 | an unknown code with zero wind gives exactly the default profile |
| `Ambience.ShowersFallBack` | app/lib/ambience.ts:73-74 | WMO codes 56, 57, 66, 67, 77, 80-82, 85, 86 miss the table and give the default profile apart from turbulence |
| `Ambience.TurbulenceMonotone` | app/lib/ambience.ts:77 | turbulence is non-decreasing in wind speed |
| `Ambience.IgnoresTemperatureAndDirection` | app/lib/ambience.ts:79-87 | two readings that differ only in temperature and direction give equal profiles |
| `Ambience.ProfileWellFormed` | app/lib/ambience.ts:56-63 | every reachable profile has its fields in the table's ranges, a two-colour hex palette and turbulence at most 3, and turbulence in [1, 3] when the wind is non-negative |
| `Noise.Cell` | app/components/FireworkOrbs.tsx:32-33 | the lattice cell index lies in 0..255 and is congruent to `floor(x)` modulo 256 |
| `Noise.Frac` | app/components/FireworkOrbs.tsx:35-36 | the offset inside the cell lies in [0, 1) and adds back up to `x` |
| `Noise.Fade` | app/components/FireworkOrbs.tsx:50-52 | `fade(0) = 0`, `fade(1/2) = 1/2`, `fade(1) = 1` |
| `Noise.Lerp` | app/components/FireworkOrbs.tsx:54-56 | `lerp(0, a, b) = a`, `lerp(1, a, b) = b`, and equal end points give that value |
| `Noise.Grad2D` | app/components/FireworkOrbs.tsx:58-63 | only `hash & 3` matters: 0 gives `x+y`, 1 and 2 both give `y-x`, 3 gives `-x-y`; so the result is at most `abs(x) + abs(y)` in size |
| `Noise.HashIndices` | app/components/FireworkOrbs.tsx:41-46 | with a valid table, `a` and `b` are at most 510, so `a+1` and `b+1` index inside the 512 entries |
| `Noise.Noise2D` | app/components/FireworkOrbs.tsx:31-48 | the noise is zero at every lattice point; every table read is in bounds (the function verifies only under that proof) |
| `Noise.FadeSymmetric` | app/components/FireworkOrbs.tsx:50-52 | `fade(1 - t) = 1 - fade(t)` |
| `Noise.FadeNonNegative` | app/components/FireworkOrbs.tsx:50-52 | `fade(t) >= 0` for `t >= 0` |
| `Noise.FadeInUnit` | app/components/FireworkOrbs.tsx:50-52 | fade maps [0, 1] into [0, 1] |
| `Noise.LerpBetween` | app/components/FireworkOrbs.tsx:54-56 | for `t` in [0, 1], lerp stays between its end points |
| `Noise.CellNoise` | app/components/FireworkOrbs.tsx:38-47 | the noise of one cell is zero at the cell's corner; its bound is `Noise.CellNoiseBounded` |
| `Noise.CellNoiseBounded` | app/components/FireworkOrbs.tsx:38-47 | inside a cell the noise lies in [-4, 4] |
| `Noise.NoiseBounded` | app/components/FireworkOrbs.tsx:31-48 | `noise2D` lies in [-4, 4] everywhere |
| `Noise.ShiftByPeriod` | app/components/FireworkOrbs.tsx:32-36 | shifting by 256 keeps the cell index and the offset |
| `Noise.NoisePeriodic` | app/components/FireworkOrbs.tsx:31-48 | `noise2D` repeats every 256 units along x and along y |
| `Noise.HashByte` | app/components/FireworkOrbs.tsx:66-67 | one table entry `floor(frac(sin * 10000) * 256)` lies in 0..255 |
| `Noise.TableEntry` | app/components/FireworkOrbs.tsx:65-68 | an entry computed while the `seed` field is undefined is NaN; one computed from an assigned seed is a byte |
| `Noise.BuildTable` | app/components/FireworkOrbs.tsx:65-68 | the table has 512 byte entries; built from an undefined seed, every lookup behaves as hash 0; built from a seed, entry `i` is the hash of `sin(seed + i)` |
| `Noise.NewNoiseGenerator` | app/components/FireworkOrbs.tsx:23-28 | as written, the table is built before `this.seed` is assigned, so every generator gets the same table with all lookups at hash 0, whatever its seed |
| `Noise.AsWrittenClosedForm` | app/components/FireworkOrbs.tsx:31-48 | as built, `noise2D(x, y) = 2(fx - fade(fx)) + 2(fy - fade(fy))`, where fx and fy are the offsets inside the cell |
| `Noise.AsWrittenIgnoresSeed` | app/components/FireworkOrbs.tsx:26-28 | as built, generators with different seeds give the same noise everywhere |
| `Noise.AsWrittenUnitPeriod` | app/components/FireworkOrbs.tsx:31-48 | as built, the noise repeats every unit along x and along y |
| `Noise.AsWrittenSeamless` | app/components/FireworkOrbs.tsx:41-46 | as built, every cell edge is seamless, the wrapping ones included |
| `Noise.MakeTable` | app/components/FireworkOrbs.tsx:65-68 | intended construction, with the seed assigned first: 512 byte entries, entry `i` hashed from `sin(seed + i)` |
| `Noise.SeedSelectsTable` | app/components/FireworkOrbs.tsx:65-68 | with the seed assigned first, two seeds whose sines hash differently at some entry get different tables |
| `Noise.SeededTableReachesGradients` | app/components/FireworkOrbs.tsx:41-46 | with the seed assigned first, the table reaches the gradients: for a sine that hashes to 3 everywhere, the noise at (0.25, 0.25) is -0.5859375, where the as-built generator gives 0.5859375 |
| `Noise.SeamXInsideTable` | app/components/FireworkOrbs.tsx:41-46 | with any table, neighbouring cells along x agree on their shared edge unless the index wraps from 255 to 0 |
| `Noise.SeamYInsideTable` | app/components/FireworkOrbs.tsx:41-46 | the same along y |
| `Noise.WrapWitnessIsSeeded` | app/components/FireworkOrbs.tsx:65-68 | the seeded construction builds the witness table from seed 0 and a sine whose values at 1 and 256 hash to 3 and 1, and whose other values hash to 0 |
| `Noise.WrapSeamBroken` | app/components/FireworkOrbs.tsx:41-46 | with that seeded table, noise2D is near -1 just left of x = 256 and exactly 1 at x = 256 |
| `Noise.MakeDoubledTable` | app/components/FireworkOrbs.tsx:65-68 | corrected construction: 256 hashed entries repeated, so `p[i + 256] = p[i]` |
| `Noise.DoubledSeamX` | app/components/FireworkOrbs.tsx:41-46 | with a doubled table, every edge along x is seamless, the wrapping one included |
| `Noise.DoubledSeamY` | app/components/FireworkOrbs.tsx:41-46 | with a doubled table, every edge along y is seamless, the wrapping one included |
| `Noise.DoubledTableSeamless` | app/components/FireworkOrbs.tsx:30-48 | with a doubled table the noise is continuous across every cell edge |
| `FireworkOrbs.RequestedOrbs` | app/components/FireworkOrbs.tsx:178 | the requested count `n` satisfies `10(n - 2) <= density < 10(n - 1)`; its clamp is stated by `FireworkOrbs.OrbCount` |
| `FireworkOrbs.OrbCount` | app/components/FireworkOrbs.tsx:178 | the orb count lies in [6, 12] and equals `floor(density/10) + 2` whenever that is already in range |
| `FireworkOrbs.OrbCountMonotone` | app/components/FireworkOrbs.tsx:177-178 | a higher density never gives fewer orbs |
| `FireworkOrbs.BaseSpeed` | app/components/FireworkOrbs.tsx:184 | the base speed lies in [0.5, 1.1] |
| `FireworkOrbs.BaseAmplitude` | app/components/FireworkOrbs.tsx:185 | the base amplitude lies in [110, 200] |
| `FireworkOrbs.WeatherSpeed` | app/components/FireworkOrbs.tsx:188 | at turbulence 1 the speed is 1.2 times the base speed, and it is non-negative from turbulence -2 up; monotonicity and range are in `WeatherMonotone` and `WeatherRange` |
| `FireworkOrbs.WeatherAmplitude` | app/components/FireworkOrbs.tsx:189 | at turbulence 1 the amplitude is the base amplitude, and it is non-negative for non-negative turbulence; monotonicity and range are in `WeatherMonotone` and `WeatherRange` |
| `FireworkOrbs.WeatherMonotone` | app/components/FireworkOrbs.tsx:187-189 | speed and amplitude are non-decreasing in turbulence |
| `FireworkOrbs.WeatherRange` | app/components/FireworkOrbs.tsx:184-189 | for turbulence in [1, 3] the speed lies in [0.6, 2.2] and the amplitude in [110, 600] |
| `FireworkOrbs.ColorIdx` | app/components/FireworkOrbs.tsx:214 | the colour index is missing (NaN) exactly when there are no colours, and otherwise lies inside the palette |
| `FireworkOrbs.OrbAt` | app/components/FireworkOrbs.tsx:182-220 | orb `i` has a size in [24, 36] rem, an intensity in [55, 95], a palette-valid colour index, seed `(i+1) * 0.1`, and the weather-scaled speed and amplitude |
| `FireworkOrbs.Orbs` | app/components/FireworkOrbs.tsx:182-220 | there are `OrbCount(density)` orbs, orb `i` is configured as `OrbAt(i)`, the seeds strictly increase, and a non-empty palette is indexed in range |
| `FireworkOrbs.OrbColor` | app/components/FireworkOrbs.tsx:274 | an orb's colour comes from the palette; it is the indexed colour when that is present and non-empty, and there is none only for an empty palette |
| `Hero.PropsOf` | app/components/Hero.tsx:46-56 | with a profile, the orbs get its density, colours and turbulence; without one, they get the component's defaults |
| `Hero.FailedFetchLooksLikeFirstRender` | app/components/Hero.tsx:46-56 | the component's default props equal those from the default profile, so a failed fetch looks like the first render |
| `Hero.RenderedOrbs` | app/components/Hero.tsx:46-55 | for any reading with non-negative wind, the upper clamp on the orb count never binds, orb `i` is drawn in palette colour `i % 2`, and the speed and amplitude stay in [0.6, 2.2] and [110, 600] |

## Findings

| source | as written | input that shows it | evidently intended | confidence | as-written member | corrected member |
|---|---|---|---|---|---|---|
| app/components/FireworkOrbs.tsx:65-68 | The table `p` is a field initialiser, and it runs before the constructor body assigns `this.seed` (line 27). `Math.sin(undefined + i)` is NaN, so all 512 entries are NaN, every lookup ends as hash 0 and every gradient is `x + y`. The noise is `2(fx - fade(fx)) + 2(fy - fade(fy))` whatever the seed, so every orb follows the same pattern, which repeats every unit. | `new NoiseGenerator(100)` and `new NoiseGenerator(2000)` give the same noise everywhere. With a sine that hashes to 3 everywhere, the seeded table gives -0.5859375 at (0.25, 0.25), while both as-built generators give 0.5859375. | A table hashed from `sin(seed + i)`, so that each orb's generators differ, as the per-orb seeds at lines 82-85 intend. | high; not executed | `Noise.AsWrittenIgnoresSeed` | `Noise.MakeTable` |
| app/components/FireworkOrbs.tsx:65-68 | This defect appears only once the seed is assigned first; as built the table is all NaN and has no seam (`Noise.AsWrittenSeamless`). The seeded table's 512 entries are hashed independently, so `p[256..511]` does not repeat `p[0..255]`. Cell 255 reads `p[256]` on its right edge, while cell 0 reads `p[0]` on its left edge, so the noise jumps wherever x or y crosses a multiple of 256. | Build the seeded table from seed 0 and a sine that hashes to 3 at 1, to 1 at 256 and to 0 elsewhere. Then `p[1] = 3`, `p[256] = 1` and every other entry is 0. At y = 0.5, `noise2D(255.99, 0.5)` is about -0.99998 and `noise2D(256, 0.5)` is 1. | Continuous noise, as the comment at line 30 says. Perlin's reference noise gets this from a doubled table, `p[i + 256] = p[i]`. | medium; not executed | `Noise.WrapSeamBroken` | `Noise.DoubledTableSeamless` |

## Left out

- `fetchAmbienceData` and the `GET` proxy in `app/api/ambience/route.ts` are left out. They are network I/O, JSON parsing and HTTP status handling. A failed fetch is modelled as the `None` reading.
- `Math.sin` is not modelled. The table construction takes it as a function parameter `sin: real -> real`.
- Floating point is not modelled. Numbers are exact reals, and the infinities do not arise. NaN is modelled in two places only. `i % 0` is a missing colour index. The NaN table entries of an as-built generator are a missing entry, read as hash 0.
- The condition code is an `int`. A non-integer code, which misses the table in JavaScript too, cannot be expressed.
- The per-frame orb physics in the `useAnimationFrame` callback is left out. It covers the velocity and damping integration, the offset drift and the `Math.random` start offsets. It is time-stepped float code driven by the animation library.
- The burst scheduling and particle add/remove (`setTimeout` chains, `Math.random`, React state) are left out, and so are the particle trajectories.
- The orb positioning is left out because it uses `Math.cos` and `Math.sin`. The CSS strings that append a hex alpha byte to a colour are left out as presentation formatting.
- The per-orb noise generator seeds (`config.seed * 1000` and the like) are left out. As written they reach nothing: the table ignores the seed (`Noise.AsWrittenIgnoresSeed`).
- Object identity is not modelled. `DEFAULT_PROFILE` itself is returned, and spread copies share the colour arrays. The model works on values.
- The other components and the page are declarative UI with no stateable logic: `EnhancedScene3D`, `TechShowcase`, `AnimatedBackground`, `CodeBlock`, `TechStack`, `SocialLinks`, `InteractiveText` and `page.tsx`.
