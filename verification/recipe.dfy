/**
  The generation recipe of a star system, as a function of the sector
  coordinate and of whether the full system is requested. Each step consumes
  the pseudo-random stream of module Prng in a fixed order: existence, star
  diameter, star colour, then (for a full system) the first orbital distance,
  the planet count and, per planet, ten draws plus one per moon.

  The class StarSystem (module StarSystems) builds the same values step by
  step; the lemmas here state what the recipe guarantees.
 */
module Recipe {
  import opened Prng

  /** The eight star colours, packed ARGB with the alpha byte most significant. */
  const Palette: seq<u32> := [
    0xFFFFFFFF, 0xFFD9FFFF, 0xFFA3FFFF, 0xFFFFC8C8,
    0xFFFFCB9D, 0xFF9F9FFF, 0xFF415EFF, 0xFF28199D
  ]

  /** The colour of a star system before (or without) a star. */
  const DefaultColour: u32 := 0xFFFFFFFF

  /**
    The palette has eight distinct colours, all fully opaque (alpha byte
    0xFF), and its first entry is the default white.
   */
  lemma PaletteColours()
    ensures |Palette| == 8 && Palette[0] == DefaultColour
    ensures forall i :: 0 <= i < 8 ==> Palette[i] as int / 0x100_0000 == 0xFF
    ensures forall i, j :: 0 <= i < j < 8 ==> Palette[i] != Palette[j]
  {
  }

  /** A renormalised composition share: a real, or NaN when all four raw shares were zero. */
  datatype Fraction = Frac(value: real) | NaN

  datatype Planet = Planet(
    distance: real,
    diameter: real,
    foliage: Fraction,
    minerals: Fraction,
    water: Fraction,
    gases: Fraction,
    temperature: real,
    population: int,
    ring: bool,
    moons: seq<real>)

  /** Every field of a star system object, the private accumulator included. */
  datatype StarSystemValue = StarSystemValue(
    starExists: bool,
    starDiameter: real,
    starColour: u32,
    planets: seq<Planet>,
    procGen: u32)

  /** `std::max` on two `int`s. */
  function Max(a: int, b: int): (m: int)
    ensures m >= a && m >= b && (m == a || m == b)
  {
    if a < b then b else a
  }

  /**
    One composition share multiplied by the reciprocal of the sum of the four
    raw shares. When the sum is zero every share is zero, and 0 * (1 / 0) is
    NaN in IEEE arithmetic.
   */
  function Scaled(v: real, sum: real): (f: Fraction)
    requires 0.0 <= v <= sum
    ensures f.NaN? <==> sum == 0.0
    ensures f.Frac? ==> 0.0 <= f.value <= 1.0
  {
    if sum == 0.0 then NaN else Frac(v * (1.0 / sum))
  }

  /** `n` moon sizes drawn from accumulator `s`, and the accumulator afterwards. */
  function Moons(s: u32, n: nat): (r: (seq<real>, u32))
    ensures |r.0| == n && r.1 == StateAfter(s, n)
    ensures forall i :: 0 <= i < n ==> 1.0 <= r.0[i]
  {
    if n == 0 then ([], s)
    else
      var (sizes, t) := Moons(s, n - 1);
      (sizes + [RndDoubleOf(Mix(Next(t)), 1.0, 5.0)], Next(t))
  }

  /** The `i`-th moon is the size drawn by the `(i + 1)`-th draw. */
  lemma {:induction false} MoonsDrawOrder(s: u32, n: nat)
    ensures forall i :: 0 <= i < n ==> Moons(s, n).0[i] == RndDoubleOf(Draw(s, i + 1), 1.0, 5.0)
  {
    hide Mix, RndDoubleOf, RndIntOf;
    if n > 0 {
      MoonsDrawOrder(s, n - 1);
      var (sizes, t) := Moons(s, n - 1);
      var last := RndDoubleOf(Mix(Next(t)), 1.0, 5.0);
      assert Moons(s, n).0 == sizes + [last];
      assert Draw(s, n) == Mix(Next(t));
    }
  }

  /**
    One planet generated from accumulator `s` at running distance `distance`:
    the planet, the accumulator afterwards and the next running distance.
   */
  function GenPlanet(s: u32, distance: real): (r: (Planet, u32, real)) {
    var s1 := Next(s);
    var nextDistance := distance + RndDoubleOf(Mix(s1), 20.0, 200.0);
    var s2 := Next(s1);
    var diameter := RndDoubleOf(Mix(s2), 4.0, 20.0);
    var s3 := Next(s2);
    var temperature := RndDoubleOf(Mix(s3), -200.0, 300.0);
    var s4 := Next(s3);
    var foliage := RndDoubleOf(Mix(s4), 0.0, 1.0);
    var s5 := Next(s4);
    var minerals := RndDoubleOf(Mix(s5), 0.0, 1.0);
    var s6 := Next(s5);
    var gases := RndDoubleOf(Mix(s6), 0.0, 1.0);
    var s7 := Next(s6);
    var water := RndDoubleOf(Mix(s7), 0.0, 1.0);
    var sum := foliage + minerals + gases + water;
    var s8 := Next(s7);
    var population := Max(RndIntOf(Mix(s8), -5000000, 20000000), 0);
    var s9 := Next(s8);
    var ring := RndIntOf(Mix(s9), 0, 10) == 1;
    var s10 := Next(s9);
    var nMoons := Max(RndIntOf(Mix(s10), -5, 5), 0);
    var (moons, t) := Moons(s10, nMoons);
    (Planet(distance, diameter, Scaled(foliage, sum), Scaled(minerals, sum), Scaled(water, sum),
            Scaled(gases, sum), temperature, population, ring, moons),
     t, nextDistance)
  }

  /** The first `n` planets generated from accumulator `s` at running distance `d`. */
  function Planets(s: u32, d: real, n: nat): (r: (seq<Planet>, u32, real))
    ensures |r.0| == n
  {
    if n == 0 then ([], s, d)
    else
      var (ps, t, e) := Planets(s, d, n - 1);
      var (p, t', e') := GenPlanet(t, e);
      (ps + [p], t', e')
  }

  /** The star system object for sector (x, y). */
  function Generate(x: u32, y: u32, generateFullSystem: bool): (g: StarSystemValue) {
    var s1 := Next(Seed(x, y));
    var starExists := RndIntOf(Mix(s1), 0, 20) == 1;
    if !starExists then StarSystemValue(false, 0.0, DefaultColour, [], s1)
    else
      var s2 := Next(s1);
      var diameter := RndDoubleOf(Mix(s2), 10.0, 40.0);
      var s3 := Next(s2);
      var colour := Palette[RndIntOf(Mix(s3), 0, 8)];
      if !generateFullSystem then StarSystemValue(true, diameter, colour, [], s3)
      else
        var s4 := Next(s3);
        var firstDistance := RndDoubleOf(Mix(s4), 60.0, 200.0);
        var s5 := Next(s4);
        var nPlanets := RndIntOf(Mix(s5), 0, 10);
        var (planets, t, _) := Planets(s5, firstDistance, nPlanets);
        StarSystemValue(true, diameter, colour, planets, t)
  }

  // ---------------------------------------------------------------------------
  // What one planet consumes and guarantees

  /** The number of draws a list of planets consumes: ten per planet plus one per moon. */
  function PlanetDraws(ps: seq<Planet>): nat {
    if ps == [] then 0 else PlanetDraws(ps[..|ps| - 1]) + 10 + |ps[|ps| - 1].moons|
  }

  /** The bounds every generated planet satisfies. */
  predicate PlanetBounded(p: Planet) {
    && 4.0 <= p.diameter
    && -200.0 <= p.temperature
    && p.population >= 0
    && |p.moons| < 5
    && (forall i :: 0 <= i < |p.moons| ==> 1.0 <= p.moons[i])
  }

  /** The four shares are all NaN, or all non-negative reals summing to exactly 1. */
  predicate Normalised(p: Planet) {
    || (p.foliage.NaN? && p.minerals.NaN? && p.water.NaN? && p.gases.NaN?)
    || (&& p.foliage.Frac? && p.minerals.Frac? && p.water.Frac? && p.gases.Frac?
        && 0.0 <= p.foliage.value && 0.0 <= p.minerals.value
        && 0.0 <= p.water.value && 0.0 <= p.gases.value
        && p.foliage.value + p.minerals.value + p.gases.value + p.water.value == 1.0)
  }

  /** A planet consumes ten draws plus one per moon. */
  lemma PlanetDrawCount(s: u32, distance: real)
    ensures var (p, t, _) := GenPlanet(s, distance);
      t == StateAfter(s, 10 + |p.moons|)
  {
    hide Mix, RndDoubleOf, RndIntOf;
    var (p, t, _) := GenPlanet(s, distance);
    StepsOfPlanet(s);
    StateAfterAdd(s, 10, |p.moons|);
  }

  /** The draws a planet consumes, in the source's order: which draw gives which field. */
  lemma PlanetDrawOrder(s: u32, distance: real)
    ensures var (p, t, next) := GenPlanet(s, distance);
      && t == StateAfter(s, 10 + |p.moons|)
      && next == distance + RndDoubleOf(Draw(s, 1), 20.0, 200.0)
      && p.diameter == RndDoubleOf(Draw(s, 2), 4.0, 20.0)
      && p.temperature == RndDoubleOf(Draw(s, 3), -200.0, 300.0)
      && p.population == Max(RndIntOf(Draw(s, 8), -5000000, 20000000), 0)
      && (p.ring <==> Draw(s, 9) as int % 10 == 1)
      && |p.moons| == Max(Draw(s, 10) as int % 10 - 5, 0)
      && (forall i :: 0 <= i < |p.moons| ==> p.moons[i] == RndDoubleOf(Draw(s, 11 + i), 1.0, 5.0))
  {
    hide Mix, RndDoubleOf, RndIntOf, Scaled, Max;
    var (p, t, next) := GenPlanet(s, distance);
    StepsOfPlanet(s);
    StateAfterAdd(s, 10, |p.moons|);
    MoonsDrawOrder(StateAfter(s, 10), |p.moons|);
    forall i | 0 <= i < |p.moons|
      ensures p.moons[i] == RndDoubleOf(Draw(s, 11 + i), 1.0, 5.0)
    {
      StateAfterAdd(s, 10, i + 1);
    }
  }

  /**
    Draws 4 to 7 are the raw foliage, minerals, gases and water shares, in
    that order; each stored share is its own raw share renormalised by the
    sum of all four.
   */
  lemma PlanetShareOrder(s: u32, distance: real)
    ensures var p := GenPlanet(s, distance).0;
      var f, m, g, w := RndDoubleOf(Draw(s, 4), 0.0, 1.0), RndDoubleOf(Draw(s, 5), 0.0, 1.0),
                        RndDoubleOf(Draw(s, 6), 0.0, 1.0), RndDoubleOf(Draw(s, 7), 0.0, 1.0);
      && p.foliage == Scaled(f, f + m + g + w)
      && p.minerals == Scaled(m, f + m + g + w)
      && p.gases == Scaled(g, f + m + g + w)
      && p.water == Scaled(w, f + m + g + w)
  {
    hide Mix, RndDoubleOf, RndIntOf, Scaled, Max, Moons;
    StepsOfPlanet(s);
  }

  /** The accumulators a planet's ten fixed draws pass through. */
  lemma StepsOfPlanet(s: u32)
    ensures StateAfter(s, 1) == Next(s)
    ensures StateAfter(s, 2) == Next(Next(s))
    ensures StateAfter(s, 3) == Next(Next(Next(s)))
    ensures StateAfter(s, 4) == Next(StateAfter(s, 3))
    ensures StateAfter(s, 5) == Next(StateAfter(s, 4))
    ensures StateAfter(s, 6) == Next(StateAfter(s, 5))
    ensures StateAfter(s, 7) == Next(StateAfter(s, 6))
    ensures StateAfter(s, 8) == Next(StateAfter(s, 7))
    ensures StateAfter(s, 9) == Next(StateAfter(s, 8))
    ensures StateAfter(s, 10) == Next(StateAfter(s, 9))
  {
  }

  /** Every generated planet is within bounds, and its next running distance is at least 20 further. */
  lemma PlanetWithinBounds(s: u32, distance: real)
    ensures var (p, _, next) := GenPlanet(s, distance);
      p.distance == distance && distance + 20.0 <= next && PlanetBounded(p)
  {
    hide Mix, RndDoubleOf, RndIntOf;
  }

  /** The composition shares are renormalised; they are NaN exactly when all four raw draws are zero. */
  lemma PlanetComposition(s: u32, distance: real)
    ensures var (p, _, _) := GenPlanet(s, distance);
      && Normalised(p)
      && (p.foliage.NaN? <==> Draw(s, 4) == 0 && Draw(s, 5) == 0 && Draw(s, 6) == 0 && Draw(s, 7) == 0)
  {
    hide Mix;
    var (p, _, _) := GenPlanet(s, distance);
    StepsOfPlanet(s);
    var f := RndDoubleOf(Draw(s, 4), 0.0, 1.0);
    var m := RndDoubleOf(Draw(s, 5), 0.0, 1.0);
    var g := RndDoubleOf(Draw(s, 6), 0.0, 1.0);
    var w := RndDoubleOf(Draw(s, 7), 0.0, 1.0);
    ZeroDraw(Draw(s, 4));
    ZeroDraw(Draw(s, 5));
    ZeroDraw(Draw(s, 6));
    ZeroDraw(Draw(s, 7));
    if f + m + g + w != 0.0 {
      SharesSumToOne(f, m, g, w);
    }
  }

  /** A draw scaled to [0, 1) is zero exactly when the draw is zero. */
  lemma ZeroDraw(r: u32)
    ensures RndDoubleOf(r, 0.0, 1.0) == 0.0 <==> r == 0
  {
  }

  /** Four non-negative shares with a positive sum, each multiplied by the sum's reciprocal, add to 1. */
  lemma SharesSumToOne(f: real, m: real, g: real, w: real)
    requires 0.0 <= f && 0.0 <= m && 0.0 <= g && 0.0 <= w
    requires f + m + g + w != 0.0
    ensures var k := 1.0 / (f + m + g + w);
      f * k + m * k + g * k + w * k == 1.0
  {
    var sum := f + m + g + w;
    var k := 1.0 / sum;
    assert sum * k == 1.0;
    assert f * k + m * k + g * k + w * k == sum * k;
  }

  // ---------------------------------------------------------------------------
  // The planet list

  /**
    Distances along the planet list: each planet's distance is the running
    distance before its increment, so the first planet sits at `d` and every
    later planet lies at least 20 beyond every earlier one.
   */
  lemma {:induction false} PlanetsDistances(s: u32, d: real, n: nat)
    ensures var (ps, _, e) := Planets(s, d, n);
      && (n > 0 ==> ps[0].distance == d)
      && (forall i, j :: 0 <= i < j < n ==> ps[i].distance + 20.0 <= ps[j].distance)
      && (forall i :: 0 <= i < n ==> ps[i].distance + 20.0 <= e)
      && d <= e
  {
    hide Mix, RndDoubleOf, RndIntOf, GenPlanet;
    if n > 0 {
      PlanetsDistances(s, d, n - 1);
      var (ps, t, e) := Planets(s, d, n - 1);
      PlanetWithinBounds(t, e);
      var (p, _, e') := GenPlanet(t, e);
      var qs := ps + [p];
      assert Planets(s, d, n).0 == qs && Planets(s, d, n).2 == e';
      assert forall i :: 0 <= i < n - 1 ==> qs[i] == ps[i];
    }
  }

  /** Every planet of the list is within bounds and has a renormalised composition. */
  lemma {:induction false} PlanetsBounded(s: u32, d: real, n: nat)
    ensures forall i :: 0 <= i < n ==>
      PlanetBounded(Planets(s, d, n).0[i]) && Normalised(Planets(s, d, n).0[i])
  {
    hide Mix, RndDoubleOf, RndIntOf, GenPlanet, PlanetBounded, Normalised;
    if n > 0 {
      PlanetsBounded(s, d, n - 1);
      var prev := Planets(s, d, n - 1);
      PlanetWithinBounds(prev.1, prev.2);
      PlanetComposition(prev.1, prev.2);
      var p := GenPlanet(prev.1, prev.2).0;
      var qs := Planets(s, d, n).0;
      assert qs == prev.0 + [p];
      forall i | 0 <= i < n
        ensures PlanetBounded(qs[i]) && Normalised(qs[i])
      {
        if i < n - 1 {
          assert qs[i] == prev.0[i];
        } else {
          assert qs[i] == p;
        }
      }
    }
  }

  /** The planet list consumes exactly `PlanetDraws` draws. */
  lemma {:induction false} PlanetsDrawCount(s: u32, d: real, n: nat)
    ensures var (ps, t, _) := Planets(s, d, n);
      t == StateAfter(s, PlanetDraws(ps))
  {
    hide Mix, RndDoubleOf, RndIntOf, GenPlanet;
    if n > 0 {
      PlanetsDrawCount(s, d, n - 1);
      var (ps, t, e) := Planets(s, d, n - 1);
      PlanetDrawCount(t, e);
      var (p, t', _) := GenPlanet(t, e);
      var qs := ps + [p];
      assert Planets(s, d, n).0 == qs && Planets(s, d, n).1 == t';
      assert qs[..|qs| - 1] == ps;
      assert PlanetDraws(qs) == PlanetDraws(ps) + 10 + |p.moons|;
      StateAfterAdd(s, PlanetDraws(ps), 10 + |p.moons|);
    }
  }

  // ---------------------------------------------------------------------------
  // The star system

  /**
    The star exists exactly when the first draw reduced modulo 20 is 1. When it
    does not, one draw has been consumed and the other fields keep their defaults.
   */
  lemma AbsentStar(x: u32, y: u32, generateFullSystem: bool)
    ensures var g := Generate(x, y, generateFullSystem);
      && (g.starExists <==> Draw(Seed(x, y), 1) as int % 20 == 1)
      && (!g.starExists ==>
            && g.procGen == StateAfter(Seed(x, y), 1)
            && g.planets == []
            && g.starDiameter == 0.0
            && g.starColour == DefaultColour)
  {
    hide Mix, RndDoubleOf, RndIntOf;
    StepsOfPlanet(Seed(x, y));
  }

  /** An existing star has a diameter of at least 10 and a colour from the palette. */
  lemma StarFromPalette(x: u32, y: u32, generateFullSystem: bool)
    ensures var g := Generate(x, y, generateFullSystem);
      g.starExists ==>
        && 10.0 <= g.starDiameter
        && exists i :: 0 <= i < 8 && g.starColour == Palette[i]
  {
    hide Mix, RndDoubleOf, RndIntOf;
    var g := Generate(x, y, generateFullSystem);
    if g.starExists {
      var s3 := Next(Next(Next(Seed(x, y))));
      var i := RndIntOf(Mix(s3), 0, 8);
      assert g.starColour == Palette[i];
    }
  }

  /**
    The star-level draws in the source's order: draw 2 is the diameter, draw 3
    the colour index, draw 4 the first orbital distance and draw 5 the planet
    count; the planet loop starts from the accumulator after those five draws.
   */
  lemma StarDrawOrder(x: u32, y: u32, generateFullSystem: bool)
    ensures var s, g := Seed(x, y), Generate(x, y, generateFullSystem);
      && (g.starExists ==>
            && g.starDiameter == RndDoubleOf(Draw(s, 2), 10.0, 40.0)
            && g.starColour == Palette[Draw(s, 3) as int % 8])
      && (generateFullSystem && g.starExists ==>
            g.planets == Planets(StateAfter(s, 5), RndDoubleOf(Draw(s, 4), 60.0, 200.0),
                                 Draw(s, 5) as int % 10).0)
  {
    hide Mix, RndDoubleOf, RndIntOf, Planets;
    StepsOfPlanet(Seed(x, y));
  }

  /** Without full expansion there are no planets, and an existing star consumes exactly three draws. */
  lemma CheapPath(x: u32, y: u32)
    ensures var g := Generate(x, y, false);
      && g.planets == []
      && (g.starExists ==> g.procGen == StateAfter(Seed(x, y), 3))
  {
    hide Mix, RndDoubleOf, RndIntOf;
    StepsOfPlanet(Seed(x, y));
  }

  /** The full expansion agrees with the cheap probe on existence, diameter and colour. */
  lemma ExpansionExtendsProbe(x: u32, y: u32)
    ensures var full, probe := Generate(x, y, true), Generate(x, y, false);
      && full.starExists == probe.starExists
      && full.starDiameter == probe.starDiameter
      && full.starColour == probe.starColour
  {
    hide Mix, RndDoubleOf, RndIntOf;
  }

  /**
    A full expansion has fewer than 10 planets; the first lies at the initial
    distance draw, each later one at least 20 beyond every earlier one (so the
    distances strictly increase); every planet is within bounds with a
    renormalised composition; and the whole system consumes five draws plus
    ten per planet plus one per moon.
   */
  lemma FullExpansion(x: u32, y: u32)
    ensures var g := Generate(x, y, true);
      g.starExists ==>
        && |g.planets| < 10
        && (|g.planets| > 0 ==> g.planets[0].distance == RndDoubleOf(Draw(Seed(x, y), 4), 60.0, 200.0))
        && (forall i, j :: 0 <= i < j < |g.planets| ==> g.planets[i].distance + 20.0 <= g.planets[j].distance)
        && (forall i :: 0 <= i < |g.planets| ==> PlanetBounded(g.planets[i]) && Normalised(g.planets[i]))
        && g.procGen == StateAfter(Seed(x, y), 5 + PlanetDraws(g.planets))
  {
    hide Mix, RndDoubleOf, RndIntOf;
    var g := Generate(x, y, true);
    if g.starExists {
      var s := Seed(x, y);
      StepsOfPlanet(s);
      var s5 := StateAfter(s, 5);
      var n := RndIntOf(Mix(s5), 0, 10);
      var d := RndDoubleOf(Draw(s, 4), 60.0, 200.0);
      PlanetsDistances(s5, d, n);
      PlanetsBounded(s5, d, n);
      PlanetsDrawCount(s5, d, n);
      StateAfterAdd(s, 5, PlanetDraws(g.planets));
    }
  }

  /** Sector (0, 0) has no star, with or without full generation. */
  lemma OriginHasNoStar(generateFullSystem: bool)
    ensures !Generate(0, 0, generateFullSystem).starExists
  {
    hide Mix, MixBits, RndIntOf, RndDoubleOf, Generate, Draw, Seed;
    AbsentStar(0, 0, generateFullSystem);
    OriginSeed();
    OriginFirstDrawValue();
  }

  /** The generated object depends only on the low 16 bits of each coordinate and on the flag. */
  lemma Deterministic(x: u32, y: u32, x': u32, y': u32, generateFullSystem: bool)
    requires x as int % 0x1_0000 == x' as int % 0x1_0000 && y as int % 0x1_0000 == y' as int % 0x1_0000
    ensures Generate(x, y, generateFullSystem) == Generate(x', y', generateFullSystem)
  {
    hide Mix, RndDoubleOf, RndIntOf;
    SeedLowHalves(x, y, x', y');
  }
}
