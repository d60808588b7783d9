# Procedural star systems

This project models the star system generator of a procedurally generated
universe. The sky is split into sectors. The sector at coordinate (x, y) is
turned into a 32-bit seed, and a small pseudo-random generator is started
from that seed. The `cStarSystem` object then draws, always in the same order:

- whether the sector holds a star;
- the star's diameter and colour (from a palette of eight);
- on request, a full system of planets. Each planet has a distance,
  diameter, temperature, composition shares, population, ring flag and moons.

So the same sector always yields the same system.

The model has three modules:

- `Prng` (`prng.dfy`) holds the pure parts of the generator:
  - seed packing;
  - the accumulator step (adding 0xe120fc15 modulo 2^32);
  - the two multiply-and-fold mixing rounds (on 64-bit bit-vectors);
  - the reduction of a draw to an integer range, with C++ unsigned conversions;
  - the scaling of a draw to a real range.
- `Recipe` (`recipe.dfy`) defines the whole generation as a function,
  `Generate`. It threads the accumulator through every draw. Lemmas state
  what the recipe guarantees: which draw feeds which field, the bounds, the
  planet ordering, draw counts and determinism.
- `StarSystems` (`star_system.dfy`) is the object itself: the class
  `StarSystem` with the fields of `cStarSystem`. Its `Rnd`, `RndInt` and
  `RndDouble` methods advance the private accumulator in place. Its
  constructor fills the fields step by step, with the planet loop and the
  moon loop. The constructor is proved to leave the object equal to
  `Generate(x, y, generateFullSystem)`, so every lemma about `Generate`
  describes the object the constructor builds.

The datatype `Recipe.Planet` is the `sPlanet` record (lines 12-24), with
population as an `int` and each composition share as a `Fraction`. The
constant `Recipe.Palette` is `g_starColours` (lines 6-10).
`Recipe.StarSystemValue` holds every field of `cStarSystem`, the private
accumulator included.
A planet's distance is the running distance before its increment is added
(lines 46-47); the first planet therefore sits at the initial distance draw.

Unsigned 32-bit values are the integer newtype `u32`. Every wrap-around is
written out as a reduction modulo 2^32. Doubles are exact reals.

## Model

| member | source | states |
|---|---|---|
| `Prng.Seed` | UniverseProceduralGeneration/SDL_UniverseProceduralGeneration.cpp:31 | the high 16 bits of the seed are the low 16 bits of x, and the low 16 bits are the low 16 bits of y |
| `Prng.SeedLowHalves` | UniverseProceduralGeneration/SDL_UniverseProceduralGeneration.cpp:31 | two sectors share a seed if and only if their low halves agree, so packing is injective on the low halves |
| `Prng.SeedOrderSensitive` | UniverseProceduralGeneration/SDL_UniverseProceduralGeneration.cpp:31 | swapping coordinates whose low halves differ changes the seed |
| `Prng.Next` | UniverseProceduralGeneration/SDL_UniverseProceduralGeneration.cpp:105 | one draw adds 0xe120fc15 to the accumulator; the sum loses 2^32 exactly when it reaches 2^32 |
| `Prng.Fold` | UniverseProceduralGeneration/SDL_UniverseProceduralGeneration.cpp:107-110 | one mixing round keeps the low 32 bits of the 64-bit product shifted right by 32 and xored with itself, which is the xor of the product's high and low halves |
| `Prng.MixBits` | UniverseProceduralGeneration/SDL_UniverseProceduralGeneration.cpp:106-111 | defines the two mixing rounds: widen to 64 bits, multiply by 0x4a39b70d, fold, then multiply by 0x12fad5c9 and fold again (no contract; `OriginFirstDrawValue` pins one value) |
| `Prng.Mix` | UniverseProceduralGeneration/SDL_UniverseProceduralGeneration.cpp:103-111 | defines the value returned by `rnd()` for an already advanced accumulator, by applying `MixBits` to its 32 bits (no contract) |
| `Prng.StateAfter` | UniverseProceduralGeneration/SDL_UniverseProceduralGeneration.cpp:105 | defines the accumulator after k draws; `StateAfterClosedForm` and `StateAfterAdd` state its properties (no contract) |
| `Prng.Draw` | UniverseProceduralGeneration/SDL_UniverseProceduralGeneration.cpp:103-111 | defines the value returned by the k-th call of `rnd()`, as the mix of the accumulator after k draws (no contract) |
| `Prng.StateAfterClosedForm` | UniverseProceduralGeneration/SDL_UniverseProceduralGeneration.cpp:105 | after k draws the accumulator is seed + k * 0xe120fc15 modulo 2^32 |
| `Prng.StateAfterAdd` | UniverseProceduralGeneration/SDL_UniverseProceduralGeneration.cpp:103-112 | j draws followed by k draws leave the same accumulator as j + k draws |
| `Prng.ToUnsigned` | UniverseProceduralGeneration/SDL_UniverseProceduralGeneration.cpp:100 | the unsigned result is congruent to the int modulo 2^32; in-range values are kept, and a value one period below or above the range moves by 2^32 once |
| `Prng.ToSigned` | UniverseProceduralGeneration/SDL_UniverseProceduralGeneration.cpp:100 | converting back to int gives a 32-bit int whose unsigned conversion is the original value |
| `Prng.RndIntOf` | UniverseProceduralGeneration/SDL_UniverseProceduralGeneration.cpp:98-101 | with the unsigned remainder and wrapping addition, the result lies in [min, max) and equals min + draw mod (max - min) |
| `Prng.RndDoubleOf` | UniverseProceduralGeneration/SDL_UniverseProceduralGeneration.cpp:93-96 | the result is never below min, and stays at or below max for draws below 2^31 |
| `Prng.RndDoubleOvershoots` | UniverseProceduralGeneration/SDL_UniverseProceduralGeneration.cpp:95 | because the divisor is 2^31 - 1, the top draws land above max (above 2 when the range is [0, 1)) |
| `Prng.OriginSeed` | UniverseProceduralGeneration/SDL_UniverseProceduralGeneration.cpp:31 | sector (0, 0) has seed 0 |
| `Prng.OriginFirstState` | UniverseProceduralGeneration/SDL_UniverseProceduralGeneration.cpp:105 | the first accumulator drawn from seed 0 is 0xe120fc15 |
| `Prng.OriginFirstDraw` | UniverseProceduralGeneration/SDL_UniverseProceduralGeneration.cpp:107-110 | on 32-bit bit-vectors, the two mixing rounds turn 0xe120fc15 into 0x1322d6d0, and that value reduced to [0, 20) is 0 |
| `Prng.OriginFirstDrawValue` | UniverseProceduralGeneration/SDL_UniverseProceduralGeneration.cpp:103-111 | the first draw from seed 0 is 0x1322d6d0 |
| `Recipe.PaletteColours` | UniverseProceduralGeneration/SDL_UniverseProceduralGeneration.cpp:6-10 | the palette lists the eight colours of `g_starColours` in order; they are distinct and fully opaque, and the first is the default white |
| `Recipe.Max` | UniverseProceduralGeneration/SDL_UniverseProceduralGeneration.cpp:63 | `std::max` returns one of its arguments and is at least both |
| `Recipe.Scaled` | UniverseProceduralGeneration/SDL_UniverseProceduralGeneration.cpp:57-61 | a renormalised share is NaN exactly when the raw sum is zero, and otherwise lies in [0, 1] |
| `Recipe.Moons` | UniverseProceduralGeneration/SDL_UniverseProceduralGeneration.cpp:68-71 | n moons consume exactly n draws, and every moon size is at least 1 |
| `Recipe.MoonsDrawOrder` | UniverseProceduralGeneration/SDL_UniverseProceduralGeneration.cpp:70 | the i-th moon is the (i + 1)-th draw scaled to [1, 5) |
| `Recipe.GenPlanet` | UniverseProceduralGeneration/SDL_UniverseProceduralGeneration.cpp:45-73 | defines one iteration of the planet loop as the reference that `StarSystem.NewPlanet` is proved equal to: the fields of `sPlanet` (lines 12-24) in the order the loop body fills them, the accumulator afterwards, and the next running distance (no contract; see the `Planet…` lemmas) |
| `Recipe.Planets` | UniverseProceduralGeneration/SDL_UniverseProceduralGeneration.cpp:43-74 | the planet loop yields exactly n planets |
| `Recipe.PlanetDrawCount` | UniverseProceduralGeneration/SDL_UniverseProceduralGeneration.cpp:45-73 | a planet consumes ten draws plus one per moon |
| `Recipe.PlanetDrawOrder` | UniverseProceduralGeneration/SDL_UniverseProceduralGeneration.cpp:46-70 | draw 1 is the distance increment, draw 2 the diameter, draw 3 the temperature and draw 8 the population; the ring is present iff draw 9 is 1 modulo 10; there are max(draw 10 mod 10 - 5, 0) moons; draws 11 onward are the moon sizes |
| `Recipe.PlanetWithinBounds` | UniverseProceduralGeneration/SDL_UniverseProceduralGeneration.cpp:46-70 | the planet records the running distance before the increment, and the next distance is at least 20 further; diameter >= 4, temperature >= -200, population >= 0, fewer than 5 moons, each at least 1 |
| `Recipe.PlanetShareOrder` | UniverseProceduralGeneration/SDL_UniverseProceduralGeneration.cpp:52-61 | draws 4, 5, 6 and 7 are the raw foliage, minerals, gases and water shares; each stored share is its own raw share times the reciprocal of the sum of all four |
| `Recipe.PlanetComposition` | UniverseProceduralGeneration/SDL_UniverseProceduralGeneration.cpp:52-61 | the four shares are non-negative and sum to exactly 1, or are all NaN, and they are NaN iff draws 4 to 7 are all zero |
| `Recipe.ZeroDraw` | UniverseProceduralGeneration/SDL_UniverseProceduralGeneration.cpp:95 | a draw scaled to [0, 1) is zero iff the draw is zero |
| `Recipe.PlanetsDistances` | UniverseProceduralGeneration/SDL_UniverseProceduralGeneration.cpp:41-47 | the first planet sits at the initial distance, and each later planet lies at least 20 beyond every earlier one |
| `Recipe.PlanetsBounded` | UniverseProceduralGeneration/SDL_UniverseProceduralGeneration.cpp:43-74 | every planet of the loop is within bounds and has renormalised shares |
| `Recipe.PlanetsDrawCount` | UniverseProceduralGeneration/SDL_UniverseProceduralGeneration.cpp:43-74 | the planet loop consumes ten draws per planet plus one per moon |
| `Recipe.Generate` | UniverseProceduralGeneration/SDL_UniverseProceduralGeneration.cpp:29-75 | defines the whole constructor as the reference that `StarSystem.constructor` is proved equal to: seed, existence draw, early return, diameter and colour, early return, first distance, planet count and the planet loop (no contract; see the lemmas below) |
| `Recipe.AbsentStar` | UniverseProceduralGeneration/SDL_UniverseProceduralGeneration.cpp:33-34 | a star exists iff the first draw is 1 modulo 20; without a star, one draw is consumed and diameter 0, colour 0xFFFFFFFF and no planets remain |
| `Recipe.StarFromPalette` | UniverseProceduralGeneration/SDL_UniverseProceduralGeneration.cpp:36-37 | an existing star has diameter at least 10 and a colour taken from the eight-entry palette |
| `Recipe.StarDrawOrder` | UniverseProceduralGeneration/SDL_UniverseProceduralGeneration.cpp:36-42 | with a star, draw 2 scaled to [10, 40) is the diameter and draw 3 modulo 8 indexes the colour; with full generation, the planets are the planet loop started after five draws, at draw 4 scaled to [60, 200), with draw 5 modulo 10 planets |
| `Recipe.CheapPath` | UniverseProceduralGeneration/SDL_UniverseProceduralGeneration.cpp:39 | without full generation there are no planets, and an existing star consumes exactly three draws |
| `Recipe.ExpansionExtendsProbe` | UniverseProceduralGeneration/SDL_UniverseProceduralGeneration.cpp:33-39 | full generation agrees with the cheap probe on existence, diameter and colour |
| `Recipe.FullExpansion` | UniverseProceduralGeneration/SDL_UniverseProceduralGeneration.cpp:41-74 | with a star: fewer than 10 planets; the first at the fourth draw scaled to [60, 200); distances increasing by at least 20; every planet bounded and renormalised; 5 + 10 per planet + 1 per moon draws consumed |
| `Recipe.OriginHasNoStar` | UniverseProceduralGeneration/SDL_UniverseProceduralGeneration.cpp:31-34 | sector (0, 0) has no star, with or without full generation |
| `Recipe.Deterministic` | UniverseProceduralGeneration/SDL_UniverseProceduralGeneration.cpp:29-75 | sectors that agree on the low 16 bits of both coordinates generate identical objects |
| `StarSystems.StarSystem.Rnd` | UniverseProceduralGeneration/SDL_UniverseProceduralGeneration.cpp:103-112 | the accumulator advances by one step in place, and the result is the mix of its new value |
| `StarSystems.StarSystem.RndInt` | UniverseProceduralGeneration/SDL_UniverseProceduralGeneration.cpp:98-101 | consumes one draw and returns it reduced to [min, max) |
| `StarSystems.StarSystem.RndDouble` | UniverseProceduralGeneration/SDL_UniverseProceduralGeneration.cpp:93-96 | consumes one draw and returns it scaled from min |
| `StarSystems.StarSystem.constructor` | UniverseProceduralGeneration/SDL_UniverseProceduralGeneration.cpp:29-75 | the constructed object's fields, accumulator included, equal `Generate(x, y, generateFullSystem)` |
| `StarSystems.StarSystem.NewPlanet` | UniverseProceduralGeneration/SDL_UniverseProceduralGeneration.cpp:45-73 | one iteration of the planet loop builds the planet the recipe prescribes and leaves the recipe's accumulator and next distance |
| `StarSystems.StarSystem.NewMoons` | UniverseProceduralGeneration/SDL_UniverseProceduralGeneration.cpp:67-71 | the moon loop produces the recipe's moon sizes and accumulator |

## Left out

- The rendering and input code is not part of this model. This covers the
  galaxy view, the selected-star panel and the frame loop after line 113
  of `SDL_UniverseProceduralGeneration.cpp`, and the framework header
  `SDL_Framework.h`. It drives the generator with screen coordinates and
  draws the results.
- Floating point: doubles are exact reals. IEEE rounding is not modelled.
  So the composition shares are proved to sum to exactly 1 and the moon and
  distance bounds hold exactly. In binary floating point they hold only up
  to rounding.
- The NaN produced by `0 * (1 / 0)` is a separate `Fraction` value, not an
  IEEE NaN. The model does not prove that the all-zero case cannot occur.
- Prng.RndDoubleOf: the upper bound `v <= max` is stated only for draws
  below 2^31. Because the divisor is 2^31 - 1 rather than 2^32 - 1, larger
  draws exceed `max` (`Prng.RndDoubleOvershoots`). No upper bound is claimed
  for them.
- Recipe.PlanetsBounded: the stated bounds are lower bounds only (diameter at
  least 4, temperature at least -200, moons at least 1). Upper bounds fail for
  the same reason as in `RndDoubleOf`.
- Population is a `double` in the source. It holds the integer
  `std::max(rndInt(...), 0)`, so the model stores it as an `int`.
- StarSystems.StarSystem.NewPlanet: the source fills a local `sPlanet`
  field by field, and rescales the four shares in place with `*=`. The model
  computes the same values into locals and builds the `Planet` value once.
  The loop body is a separate method so that each proof stays small.
- StarSystems.StarSystem.Rnd: the two mixing rounds are taken from
  `Prng.Mix`, which writes them on 64-bit bit-vectors exactly as lines
  107-110 do. They are not repeated statement by statement in the method.
- The default argument `bGenerateFullSystem = false` is an explicit
  parameter.
- The destructor and the public/private split are not modelled.
- Prng.Seed: the seed is stated on integers (the high half times 2^16 plus
  the low half). The model does not prove that this equals the masked,
  shifted and or-ed 32-bit expression of line 31.
