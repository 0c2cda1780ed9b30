/**
 * The brewing arithmetic of recipes/recipes.go: grain weight, strike
 * temperature, mash and sparge volumes, and the fixed 37-step brew-day
 * method built from them. Weights are in pounds, volumes in gallons and
 * temperatures in degrees Fahrenheit.
 */
module Recipes {
  import opened Wrappers

  datatype Fermentable = Fermentable(name: string, amount: real, color: int, unit: string)
  datatype Hop = Hop(name: string, amount: real, alpha: real, beta: real, time: real)
  datatype Yeast = Yeast(name: string, attenuation: real)
  datatype MashStep = MashStep(temperature: real, metric: bool, time: real)

  datatype Recipe = Recipe(
    name: string,
    batchSize: real,
    boilSize: real,
    boilTime: real,
    efficiency: real,
    strikeFactor: real,
    fermentables: seq<Fermentable>,
    waterRatio: real,
    hops: seq<Hop>,
    yeasts: seq<Yeast>,
    mashSteps: seq<MashStep>)

  /**
   * What getMash computes. Go's strike temperature is infinite or NaN when
   * the water ratio is 0; None stands for that here.
   */
  datatype Mash = Mash(
    volume: real,
    strikeTemperature: Option<real>,
    time: real,
    spargeVolume: real,
    secondSpargeVolume: real)

  /** The options New accepts: `WaterRatio(wr)` and `StrikeFactor(f)`. */
  datatype RecipeOption = SetWaterRatio(wr: real) | SetStrikeFactor(f: real)

  /** The sum of the fermentables' amounts. */
  function GrainWeight(fs: seq<Fermentable>): real {
    if fs == [] then 0.0 else GrainWeight(fs[..|fs| - 1]) + fs[|fs| - 1].amount
  }

  /** Adding grain bills adds their weights. */
  lemma {:induction false} GrainWeightAppend(a: seq<Fermentable>, b: seq<Fermentable>)
    ensures GrainWeight(a + b) == GrainWeight(a) + GrainWeight(b)
    decreases |b|
  {
    if b != [] {
      var b' := b[..|b| - 1];
      assert (a + b)[..|a + b| - 1] == a + b';
      GrainWeightAppend(a, b');
    } else {
      assert a + b == a;
    }
  }

  /** No grain weighs nothing, and amounts that are never negative give a weight that is not negative. */
  lemma {:induction false} GrainWeightBounds(fs: seq<Fermentable>)
    ensures fs == [] ==> GrainWeight(fs) == 0.0
    ensures (forall i :: 0 <= i < |fs| ==> 0.0 <= fs[i].amount) ==> 0.0 <= GrainWeight(fs)
  {
    if fs != [] && forall i :: 0 <= i < |fs| ==> 0.0 <= fs[i].amount {
      var init := fs[..|fs| - 1];
      assert forall i :: 0 <= i < |init| ==> init[i] == fs[i];
      GrainWeightBounds(init);
    }
  }

  /** getGrainWeight: the accumulator loop over the fermentables. */
  method GetGrainWeight(r: Recipe) returns (weight: real)
    ensures weight == GrainWeight(r.fermentables)
  {
    weight := 0.0;
    for i := 0 to |r.fermentables|
      invariant weight == GrainWeight(r.fermentables[..i])
    {
      assert r.fermentables[..i + 1][..i] == r.fermentables[..i];
      weight := weight + r.fermentables[i].amount;
    }
    assert r.fermentables[..|r.fermentables|] == r.fermentables;
  }

  /** targetTemperature: the first mash step's temperature, else 154 F. */
  function TargetTemperature(r: Recipe): (t: real)
    ensures |r.mashSteps| > 0 ==> t == r.mashSteps[0].temperature
    ensures r.mashSteps == [] ==> t == 154.0
  {
    if |r.mashSteps| > 0 then r.mashSteps[0].temperature else 154.0
  }

  /** mashTime: the first mash step's time, else 45 minutes. */
  function MashTime(r: Recipe): (t: real)
    ensures |r.mashSteps| > 0 ==> t == r.mashSteps[0].time
    ensures r.mashSteps == [] ==> t == 45.0
  {
    if |r.mashSteps| > 0 then r.mashSteps[0].time else 45.0
  }

  /**
   * strikeTemperature: the water is heated past the target by
   * strikeFactor/WaterRatio times the gap between the target and the grain.
   */
  function StrikeTemperature(r: Recipe, grainTemperature: real): (t: Option<real>)
    ensures t.None? <==> r.waterRatio == 0.0
    ensures t.Some? ==>
      (t.value - TargetTemperature(r)) * r.waterRatio == r.strikeFactor * (TargetTemperature(r) - grainTemperature)
  {
    if r.waterRatio == 0.0 then None
    else
      var target := TargetTemperature(r);
      Some((r.strikeFactor / r.waterRatio) * (target - grainTemperature) + target)
  }

  /**
   * Grain already at the target needs no extra heat, and with a positive
   * strike factor and water ratio colder grain needs hotter water.
   */
  lemma StrikeTemperatureOrder(r: Recipe, cold: real, warm: real)
    requires 0.0 < r.strikeFactor && 0.0 < r.waterRatio && cold <= warm
    ensures StrikeTemperature(r, TargetTemperature(r)) == Some(TargetTemperature(r))
    ensures StrikeTemperature(r, warm).value <= StrikeTemperature(r, cold).value
  {
    var c := r.strikeFactor / r.waterRatio;
    assert 0.0 < c && c * (TargetTemperature(r) - TargetTemperature(r)) == 0.0;
    assert StrikeTemperature(r, TargetTemperature(r)).value
      == c * (TargetTemperature(r) - TargetTemperature(r)) + TargetTemperature(r);
    assert c * (TargetTemperature(r) - warm) <= c * (TargetTemperature(r) - cold);
  }

  /** mashVolume: WaterRatio quarts of water per pound of grain, in gallons. */
  function MashVolume(r: Recipe, grainWeight: real): (v: real)
    ensures 4.0 * v == r.waterRatio * grainWeight
  {
    (r.waterRatio * grainWeight) / 4.0
  }

  /**
   * spargeVolume: enough water to bring the first runnings up to half the
   * boil size, never less than nothing, counted on top of the mash volume.
   */
  function SpargeVolume(r: Recipe, mashVolume: real, grainWeight: real): (v: real)
    ensures mashVolume <= v
    ensures r.boilSize / 2.0 + grainWeight * 0.1 <= v
    ensures v == mashVolume || v == r.boilSize / 2.0 + grainWeight * 0.1
  {
    var absorption := grainWeight * 0.1;
    var targetVolume := r.boilSize / 2.0;
    var drainVolume := mashVolume - absorption;
    var volume := targetVolume - drainVolume;
    (if volume < 0.0 then 0.0 else volume) + mashVolume
  }

  /** getMash: everything the method needs, from one grain weight. */
  function GetMash(r: Recipe, grainTemperature: real): (m: Mash)
    ensures m.volume == MashVolume(r, GrainWeight(r.fermentables))
    ensures m.strikeTemperature == StrikeTemperature(r, grainTemperature)
    ensures m.time == MashTime(r)
    ensures m.spargeVolume == SpargeVolume(r, m.volume, GrainWeight(r.fermentables))
    ensures m.volume <= m.spargeVolume
    ensures m.secondSpargeVolume == r.boilSize / 2.0
  {
    var grainWeight := GrainWeight(r.fermentables);
    var mashVolume := MashVolume(r, grainWeight);
    Mash(mashVolume, StrikeTemperature(r, grainTemperature), MashTime(r),
         SpargeVolume(r, mashVolume, grainWeight), r.boilSize / 2.0)
  }

  /**
   * One line of the method: fixed text, or text followed by a quantity and
   * its units (Go formats the quantity with %f; None is a non-finite one).
   */
  datatype Step = Say(text: string) | Amount(text: string, amount: Option<real>, units: string)

  /** Heating the strike water and mashing in. */
  function MashInSteps(mash: Mash): (steps: seq<Step>)
    ensures |steps| == 6
    ensures steps[0] == Say("fill hlt to 7.0 gallons")
    ensures steps[1] == Amount("heat hlt to", mash.strikeTemperature, "F")
    ensures steps[3] == Amount("fill tun to", Some(mash.volume), "gallons")
  {
    [ Say("fill hlt to 7.0 gallons"),
      Amount("heat hlt to", mash.strikeTemperature, "F"),
      Amount("wait for hlt temperature >=", mash.strikeTemperature, "F"),
      Amount("fill tun to", Some(mash.volume), "gallons"),
      Amount("wait for tun volume >=", Some(mash.volume), "gallons"),
      Say("wait for user to add grains") ]
  }

  /** The mash rest, the first sparge and the first runnings. */
  function SpargeSteps(mash: Mash): (steps: seq<Step>)
    ensures |steps| == 11
    ensures steps[0] == Say("fill hlt to 7.0 gallons")
    ensures steps[2] == Amount("wait for", Some(mash.time), "minutes")
  {
    [ Say("fill hlt to 7.0 gallons"),
      Say("heat hlt to 185 F"),
      Amount("wait for", Some(mash.time), "minutes"),
      Amount("fill tun to", Some(mash.spargeVolume), "gallons"),
      Say("wait for 10 minutes"),
      Say("wait for user ready to recirculate"),
      Say("fill boiler"),
      Say("wait for user to finish recirculating"),
      Amount("fill boiler to", Some(mash.spargeVolume), "gallons"),
      Say("heat boiler to 190 F"),
      Amount("wait for boiler volume >=", Some(mash.spargeVolume), "gallons") ]
  }

  /** The second sparge and the second runnings. */
  function SecondSpargeSteps(mash: Mash): (steps: seq<Step>)
    ensures |steps| == 8
    ensures steps[0] == Amount("fill tun to", Some(mash.secondSpargeVolume), "gallons")
  {
    [ Amount("fill tun to", Some(mash.secondSpargeVolume), "gallons"),
      Amount("wait for tun volume >=", Some(mash.secondSpargeVolume), "gallons"),
      Say("stop heating hlt"),
      Say("wait for 2 minutes"),
      Say("wait for user ready to recirculate"),
      Say("fill boiler"),
      Say("wait for user to finish recirculating"),
      Amount("fill boiler to", Some(mash.secondSpargeVolume + mash.spargeVolume), "gallons") ]
  }

  /** The boil, the chill and the transfer to the carboy. */
  function BoilSteps(boilTime: real): (steps: seq<Step>)
    ensures |steps| == 12
    ensures steps[2] == Amount("wait for", Some(boilTime), "minutes")
    ensures steps[11] == Say("stop filling carboy")
  {
    [ Say("heat boiler to 204 F"),
      Say("turn on brewery fan"),
      Amount("wait for", Some(boilTime), "minutes"),
      Say("stop heating boiler"),
      Say("turn off brewery fan"),
      Say("wait for 5 minutes"),
      Say("cool boiler to 80 F"),
      Say("wait for boiler temperature <= 80 F"),
      Say("wait for user to open ball valve"),
      Say("fill carboy"),
      Say("wait for user to confirm boiler empty"),
      Say("stop filling carboy") ]
  }

  /** Method: the 37 steps of a brew day, in order. */
  function Method(r: Recipe, grainTemperature: real): (steps: seq<Step>)
    ensures |steps| == 37
    ensures steps[0] == Say("fill hlt to 7.0 gallons") && steps[6] == steps[0]
    ensures steps[1] == Amount("heat hlt to", StrikeTemperature(r, grainTemperature), "F")
    ensures steps[3] == Amount("fill tun to", Some(MashVolume(r, GrainWeight(r.fermentables))), "gallons")
    ensures steps[8] == Amount("wait for", Some(MashTime(r)), "minutes")
    ensures steps[17] == Amount("fill tun to", Some(r.boilSize / 2.0), "gallons")
    ensures steps[27] == Amount("wait for", Some(r.boilTime), "minutes")
    ensures steps[36] == Say("stop filling carboy")
  {
    var mash := GetMash(r, grainTemperature);
    MashInSteps(mash) + SpargeSteps(mash) + SecondSpargeSteps(mash) + BoilSteps(r.boilTime)
  }

  /** The recipe New starts from, before the options and the JSON decoding. */
  const Defaults: Recipe := Recipe("", 0.0, 0.0, 0.0, 0.0, 0.2, [], 1.25, [], [], [])

  /** The water ratio after the options: the last SetWaterRatio wins. */
  function WaterRatioAfter(opts: seq<RecipeOption>, ratio: real): real {
    if opts == [] then ratio
    else if opts[|opts| - 1].SetWaterRatio? then opts[|opts| - 1].wr
    else WaterRatioAfter(opts[..|opts| - 1], ratio)
  }

  /** The strike factor after the options: the last SetStrikeFactor wins. */
  function StrikeFactorAfter(opts: seq<RecipeOption>, factor: real): real {
    if opts == [] then factor
    else if opts[|opts| - 1].SetStrikeFactor? then opts[|opts| - 1].f
    else StrikeFactorAfter(opts[..|opts| - 1], factor)
  }

  /** An option that no later option of its kind overrides decides the value. */
  lemma {:induction false} LastOptionWins(opts: seq<RecipeOption>, i: nat, ratio: real, factor: real)
    requires i < |opts|
    ensures opts[i].SetWaterRatio? && (forall j :: i < j < |opts| ==> !opts[j].SetWaterRatio?) ==>
      WaterRatioAfter(opts, ratio) == opts[i].wr
    ensures opts[i].SetStrikeFactor? && (forall j :: i < j < |opts| ==> !opts[j].SetStrikeFactor?) ==>
      StrikeFactorAfter(opts, factor) == opts[i].f
    decreases |opts|
  {
    if i < |opts| - 1 {
      var init := opts[..|opts| - 1];
      assert init[i] == opts[i];
      assert forall j :: i < j < |init| ==> init[j] == opts[j];
      LastOptionWins(init, i, ratio, factor);
    }
  }

  /**
   * New: the defaults (water ratio 1.25, strike factor 0.2), then each
   * option in order. Only the two option fields change.
   */
  method New(opts: seq<RecipeOption>) returns (r: Recipe)
    ensures r.waterRatio == WaterRatioAfter(opts, 1.25)
    ensures r.strikeFactor == StrikeFactorAfter(opts, 0.2)
    ensures r == Defaults.(waterRatio := r.waterRatio, strikeFactor := r.strikeFactor)
  {
    r := Defaults;
    for i := 0 to |opts|
      invariant r.waterRatio == WaterRatioAfter(opts[..i], 1.25)
      invariant r.strikeFactor == StrikeFactorAfter(opts[..i], 0.2)
      invariant r == Defaults.(waterRatio := r.waterRatio, strikeFactor := r.strikeFactor)
    {
      assert opts[..i + 1][..i] == opts[..i];
      match opts[i] {
        case SetWaterRatio(wr) => r := r.(waterRatio := wr);
        case SetStrikeFactor(f) => r := r.(strikeFactor := f);
      }
    }
    assert opts[..|opts|] == opts;
  }
}
