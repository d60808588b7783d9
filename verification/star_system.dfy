/**
  The star system object: its public fields, the private accumulator and the
  three private draw operations, and the constructor that fills the fields by
  consuming draws in the order of the recipe in module Recipe. The
  constructor is proved to leave the object equal to `Generate`, so every
  lemma proved there about `Generate` holds of the object it builds.
 */
module StarSystems {
  import opened Prng
  import opened Recipe

  class StarSystem {
    var planets: seq<Planet>
    var starExists: bool
    var starDiameter: real
    var starColour: u32
    /** The private accumulator of the pseudo-random stream. */
    var procGen: u32

    /** Every field of the object, as a value. */
    function Value(): StarSystemValue
      reads this
    {
      StarSystemValue(starExists, starDiameter, starColour, planets, procGen)
    }

    /**
      Advances the accumulator by the fixed increment (wrapping modulo 2^32)
      and returns the two mixing rounds of its new value.
     */
    method Rnd() returns (r: u32)
      modifies this`procGen
      ensures procGen == Next(old(procGen))
      ensures r == Mix(procGen)
    {
      procGen := ((procGen as int + 0xe120fc15) % 0x1_0000_0000) as u32;
      r := Mix(procGen);
    }

    /** One draw reduced to the integer range [min, max). */
    method RndInt(min: int, max: int) returns (v: int)
      requires IsInt32(min) && IsInt32(max) && min < max && IsInt32(max - min)
      modifies this`procGen
      ensures procGen == Next(old(procGen))
      ensures v == RndIntOf(Mix(procGen), min, max)
      ensures min <= v < max
    {
      var r := Rnd();
      v := RndIntOf(r, min, max);
    }

    /** One draw scaled to the real range from `min` (draws of 2^31 and more overshoot `max`). */
    method RndDouble(min: real, max: real) returns (v: real)
      modifies this`procGen
      ensures procGen == Next(old(procGen))
      ensures v == RndDoubleOf(Mix(procGen), min, max)
      ensures min <= max ==> min <= v
    {
      var r := Rnd();
      v := RndDoubleOf(r, min, max);
    }

    /**
      Builds the star system of sector (x, y): the seed from the low halves of
      the coordinate, the existence draw, then star diameter and colour, and,
      for a full system, the planets with their moons.
     */
    constructor (x: u32, y: u32, generateFullSystem: bool)
      ensures Value() == Generate(x, y, generateFullSystem)
    {
      planets := [];
      starExists := false;
      starDiameter := 0.0;
      starColour := DefaultColour;
      procGen := Seed(x, y);
      new;
      hide Mix, RndDoubleOf, RndIntOf, GenPlanet;
      var e := RndInt(0, 20);
      starExists := e == 1;
      if !starExists {
        return;
      }
      starDiameter := RndDouble(10.0, 40.0);
      var c := RndInt(0, 8);
      starColour := Palette[c];
      if !generateFullSystem {
        return;
      }
      ghost var diameter0, colour0 := starDiameter, starColour;
      var distance := RndDouble(60.0, 200.0);
      ghost var s4 := procGen;
      ghost var d0 := distance;
      var nPlanets := RndInt(0, 10);
      var i := 0;
      while i < nPlanets
        invariant 0 <= i <= nPlanets
        invariant (planets, procGen, distance) == Planets(Next(s4), d0, i)
        invariant starExists && starDiameter == diameter0 && starColour == colour0
      {
        var p, next := NewPlanet(distance);
        planets := planets + [p];
        distance := next;
        i := i + 1;
      }
    }

    /**
      The body of the constructor's planet loop: one planet at running
      distance `distance`, its composition renormalised, its moons drawn last,
      and the running distance for the next planet.
     */
    method NewPlanet(distance: real) returns (p: Planet, next: real)
      modifies this`procGen
      ensures (p, procGen, next) == GenPlanet(old(procGen), distance)
    {
      hide Mix, RndDoubleOf, RndIntOf;
      var step := RndDouble(20.0, 200.0);
      next := distance + step;
      var diameter := RndDouble(4.0, 20.0);
      var temperature := RndDouble(-200.0, 300.0);
      var foliage := RndDouble(0.0, 1.0);
      var minerals := RndDouble(0.0, 1.0);
      var gases := RndDouble(0.0, 1.0);
      var water := RndDouble(0.0, 1.0);
      var sum := foliage + minerals + gases + water;
      var population := RndInt(-5000000, 20000000);
      population := Max(population, 0);
      var ringDraw := RndInt(0, 10);
      var nMoons := RndInt(-5, 5);
      nMoons := Max(nMoons, 0);
      var moons := NewMoons(nMoons);
      p := Planet(distance, diameter, Scaled(foliage, sum), Scaled(minerals, sum),
                  Scaled(water, sum), Scaled(gases, sum), temperature, population,
                  ringDraw == 1, moons);
    }

    /** The inner loop of the constructor: `n` moon sizes, one draw each. */
    method NewMoons(n: nat) returns (moons: seq<real>)
      modifies this`procGen
      ensures (moons, procGen) == Moons(old(procGen), n)
    {
      hide Mix, RndDoubleOf, RndIntOf;
      ghost var s := procGen;
      moons := [];
      var k := 0;
      while k < n
        invariant 0 <= k <= n
        invariant (moons, procGen) == Moons(s, k)
      {
        var size := RndDouble(1.0, 5.0);
        moons := moons + [size];
        k := k + 1;
      }
    }
  }
}
