/**
 * The Mash gauge of brewgadgets/mash.go: while the mash tun valve is open,
 * a monitor reports the litres that have drained from the hlt into the tun
 * since the valve opened, on top of what earlier fills had already put in.
 */
module BrewgadgetsMash {
  import opened Wrappers
  import opened Gadgets
  import opened Torricelli

  class Mash {
    var volume: real
    var previousVolume: real
    const units: string
    var hltVolume: real
    const k: real
    const x: real
    const tankArea: real
    const valveArea: real
    const root: real -> real
    var valveStatus: bool
    /** What monitor captured when it started: the hlt volume in cm^3. */
    var startVolume: real
    /** Everything sent on the output channel, in order. */
    var out: seq<Reading>

    /**
     * NewMash: the same k as getK, computed inline. A zero valve area or
     * coefficient would give Go an infinite k; the model asks for a real valve.
     */
    constructor (tankRadius: real, valveRadius: real, coefficient: real, pi: real, root: real -> real)
      requires ValveFlow(valveRadius, coefficient, pi) != 0.0
      ensures tankArea == pi * tankRadius * tankRadius && valveArea == pi * valveRadius * valveRadius
      ensures x == root(2.0 / Gravity)
      ensures k * valveArea * coefficient == tankArea * x
      ensures units == "L" && this.root == root
      ensures volume == 0.0 && previousVolume == 0.0 && hltVolume == 0.0 && !valveStatus && out == []
    {
      var fit := GetK(tankRadius, valveRadius, coefficient, pi, root);
      assert fit.Some?;
      var orifice := fit.value;
      tankArea := orifice.area;
      valveArea := pi * valveRadius * valveRadius;
      x := root(2.0 / Gravity);
      k := orifice.k;
      units := "L";
      this.root := root;
      volume, previousVolume, hltVolume := 0.0, 0.0, 0.0;
      valveStatus := false;
      startVolume := 0.0;
      out := [];
    }

    /** GetValue: the current volume in the gauge's units. */
    function GetValue(): (r: Reading)
      reads this`volume
      ensures r.value == volume && r.units == units
    {
      Reading(volume, units)
    }

    /** getHeight: the height (cm) of `volume` cm^3 in the hlt. */
    function GetHeight(volume: real): (h: real)
      requires tankArea != 0.0
    {
      Height(tankArea, volume)
    }

    /** GetVolume: the litres drained `elapsed` seconds after the valve opened on `start` cm^3. */
    function GetVolume(start: real, elapsed: real): (litres: real)
      ensures 0.0 <= tankArea ==> 0.0 <= litres
      ensures elapsed == 0.0 ==> litres == 0.0
    {
      Drained(tankArea, k, root, start, elapsed)
    }

    /**
     * GetDrainTime: the seconds it takes to drain `litres` from an hlt that
     * holds `startLitres`. None stands for the NaN or infinity Go computes
     * when a height is negative or the tank has no area.
     */
    function GetDrainTime(startLitres: real, litres: real): Option<real>
    {
      DrainTime(tankArea, k, root, startLitres * 1000.0, 1000.0 * litres)
    }

    /**
     * GetCoefficient: the discharge coefficient that explains draining
     * `litres` from `startLitres` in `drainTime` seconds. None stands for
     * Go's NaN or infinity.
     */
    function GetCoefficient(startLitres: real, litres: real, drainTime: real): (c: Option<real>)
      ensures tankArea == 0.0 || valveArea == 0.0 || drainTime == 0.0 ==> c == None
      ensures c.Some? ==> 0.0 <= GetHeight(startLitres * 1000.0) - GetHeight(litres * 1000.0)
      ensures c.Some? ==>
        c.value * valveArea * drainTime
        == tankArea * x * (root(GetHeight(startLitres * 1000.0))
                           - root(GetHeight(startLitres * 1000.0) - GetHeight(litres * 1000.0)))
    {
      if tankArea == 0.0 || valveArea == 0.0 || drainTime == 0.0 then None
      else
        var hi := GetHeight(startLitres * 1000.0);
        var dh := GetHeight(litres * 1000.0);
        var hf := hi - dh;
        if hi < 0.0 || hf < 0.0 then None
        else
          CalibratedSolves(tankArea, valveArea, x, root(hi) - root(hf), drainTime);
          Some(Calibrated(tankArea, valveArea, x, root(hi) - root(hf), drainTime))
    }

    /** sendCurrentVolume: the earlier fills plus what this one has drained so far. */
    method SendCurrentVolume(start: real, elapsed: real)
      modifies this`volume, this`out
      ensures volume == previousVolume + GetVolume(start, elapsed)
      ensures 0.0 <= tankArea ==> previousVolume <= volume
      ensures out == old(out) + [Reading(volume, units)]
    {
      volume := previousVolume + GetVolume(start, elapsed);
      out := out + [Reading(volume, units)];
    }

    /** A tick of monitor while the valve is open. */
    method Tick(elapsed: real)
      requires valveStatus
      modifies this`volume, this`out
      ensures volume == previousVolume + GetVolume(startVolume, elapsed)
      ensures out == old(out) + [GetValue()]
    {
      SendCurrentVolume(startVolume, elapsed);
    }

    /**
     * readMessage. Only the sender is looked at; an "hlt volume" message
     * must carry a number, or Go's type assertion panics.
     */
    method ReadMessage(msg: Message)
      requires msg.sender == "hlt volume" ==> msg.value.Number?
      modifies this`valveStatus, this`startVolume, this`previousVolume, this`volume, this`hltVolume, this`out
      ensures msg.sender != "hlt volume" ==> hltVolume == old(hltVolume)
      ensures !(msg.sender == "mash tun valve" && msg.value == Flag(true)) ==> startVolume == old(startVolume)
      ensures msg.sender == "mash tun valve" && msg.value == Flag(true) ==>
        valveStatus && startVolume == hltVolume * 1000.0
        && volume == old(volume) && previousVolume == old(previousVolume) && out == old(out)
      ensures msg.sender == "mash tun valve" && msg.value == Flag(false) && old(valveStatus) ==>
        !valveStatus && previousVolume == old(volume) && volume == old(volume) && out == old(out)
      ensures msg.sender == "mash tun valve" && msg.value == Flag(false) && !old(valveStatus) ==>
        !valveStatus && previousVolume == old(previousVolume) && volume == old(volume) && out == old(out)
      ensures msg.sender == "mash tun valve" && !msg.value.Flag? ==>
        valveStatus == old(valveStatus) && startVolume == old(startVolume)
        && previousVolume == old(previousVolume) && volume == old(volume) && out == old(out)
      ensures msg.sender == "hlt volume" ==>
        hltVolume == msg.value.x && volume == old(volume) && previousVolume == old(previousVolume)
        && valveStatus == old(valveStatus) && out == old(out)
      ensures msg.sender == "boiler volume" ==>
        volume == 0.0 && previousVolume == 0.0 && valveStatus == old(valveStatus)
        && out == old(out) + [Reading(0.0, units)]
      ensures msg.sender != "mash tun valve" && msg.sender != "hlt volume" && msg.sender != "boiler volume" ==>
        volume == old(volume) && previousVolume == old(previousVolume) && hltVolume == old(hltVolume)
        && valveStatus == old(valveStatus) && out == old(out)
    {
      if msg.sender == "mash tun valve" {
        if msg.value == Flag(true) {
          valveStatus := true;
          startVolume := hltVolume * 1000.0;
        } else if msg.value == Flag(false) && valveStatus {
          valveStatus := false;
          previousVolume := volume;
        }
      } else if msg.sender == "hlt volume" {
        hltVolume := msg.value.x;
      } else if msg.sender == "boiler volume" {
        previousVolume := 0.0;
        volume := 0.0;
        out := out + [GetValue()];
      }
    }

    /**
     * GetDrainTime inverts GetVolume: draining for the time it gives takes
     * exactly the asked-for litres out of the hlt.
     */
    lemma DrainTimeInvertsGetVolume(startLitres: real, litres: real)
      requires IsSqrt(root) && 0.0 < tankArea && k != 0.0 && 0.0 <= litres <= startLitres
      ensures GetDrainTime(startLitres, litres).Some?
      ensures GetVolume(startLitres * 1000.0, GetDrainTime(startLitres, litres).value) == litres
    {
      var t := DrainTimeInverse(tankArea, k, root, startLitres * 1000.0, 1000.0 * litres);
      assert 1000.0 * litres / 1000.0 == litres;
    }

    /** A calibrated coefficient that NewMash's formula turns back into this gauge's k. */
    predicate RecoversK(c: Option<real>) {
      valveArea != 0.0 && c.Some? && c.value * k == (tankArea * x) / valveArea
    }

    /**
     * Calibrating with a drain time the model predicts gives back a
     * coefficient that NewMash turns into this gauge's own k.
     */
    lemma CalibrationRecoversK(startLitres: real, litres: real)
      requires IsSqrt(root) && valveArea != 0.0 && 0.0 < tankArea && k != 0.0 && 0.0 < litres <= startLitres
      ensures GetDrainTime(startLitres, litres).Some?
      ensures RecoversK(GetCoefficient(startLitres, litres, GetDrainTime(startLitres, litres).value))
    {
      var t := DrainTimeValue(tankArea, k, root, startLitres * 1000.0, 1000.0 * litres);
      var d := RootsDiffer(tankArea, root, startLitres * 1000.0, 1000.0 * litres);
      assert 1000.0 * litres == litres * 1000.0;
      assert GetDrainTime(startLitres, litres) == Some(t);
      assert t == d * k;
      CoefficientAt(startLitres, litres, d, t);
    }

    /** GetCoefficient where both heights are valid, at the drain time d k. */
    lemma CoefficientAt(startLitres: real, litres: real, d: real, t: real)
      requires 0.0 < tankArea && valveArea != 0.0 && k != 0.0 && d != 0.0 && t == d * k
      requires 0.0 <= Height(tankArea, litres * 1000.0) <= Height(tankArea, startLitres * 1000.0)
      requires d == root(Height(tankArea, startLitres * 1000.0))
        - root(Height(tankArea, startLitres * 1000.0) - Height(tankArea, litres * 1000.0))
      ensures RecoversK(GetCoefficient(startLitres, litres, t))
    {
      assert GetCoefficient(startLitres, litres, t) == Some(Calibrated(tankArea, valveArea, x, d, t));
      CoefficientTimesK(GetCoefficient(startLitres, litres, t), tankArea, valveArea, x, d, k, t);
    }
  }

  /** Draining a positive volume lowers the level's square root. */
  lemma RootsDiffer(area: real, root: real -> real, start: real, drained: real) returns (d: real)
    requires IsSqrt(root) && 0.0 < area && 0.0 < drained <= start
    ensures 0.0 <= Height(area, start) - Height(area, drained) <= Height(area, start)
    ensures d == root(Height(area, start)) - root(Height(area, start) - Height(area, drained)) && d != 0.0
  {
    var h, dh := HeightsOrdered(area, start, drained);
    assert 0.0 < dh;
    var s, s2 := root(h), root(h - dh);
    assert s * s == h && s2 * s2 == h - dh;
    d := s - s2;
  }

  /** GetCoefficient's formula: (A_tank x / A_valve) times the drop in sqrt(height), over the drain time. */
  function Calibrated(tankArea: real, valveArea: real, x: real, rootDrop: real, drainTime: real): real
    requires valveArea != 0.0 && drainTime != 0.0
  {
    ((tankArea * x) / valveArea) * rootDrop / drainTime
  }

  /** Calibrated solves coefficient A_valve t = A_tank x (drop in sqrt(height)) for the coefficient. */
  lemma CalibratedSolves(tankArea: real, valveArea: real, x: real, rootDrop: real, drainTime: real)
    requires valveArea != 0.0 && drainTime != 0.0
    ensures Calibrated(tankArea, valveArea, x, rootDrop, drainTime) * valveArea * drainTime == tankArea * x * rootDrop
  {
    var a := (tankArea * x) / valveArea;
    assert a * valveArea == tankArea * x;
    assert (a * rootDrop / drainTime) * drainTime == a * rootDrop;
  }

  /** A coefficient computed by Calibrated at the drain time d k turns back into the k it came from. */
  lemma CoefficientTimesK(c: Option<real>, tankArea: real, valveArea: real, x: real, d: real, k: real, t: real)
    requires valveArea != 0.0 && d != 0.0 && k != 0.0 && t == d * k
    requires c == Some(Calibrated(tankArea, valveArea, x, d, t))
    ensures c.Some? && c.value * k == (tankArea * x) / valveArea
  {
    CalibratedCancels(tankArea, valveArea, x, d, k);
  }

  lemma CalibratedCancels(tankArea: real, valveArea: real, x: real, d: real, k: real)
    requires valveArea != 0.0 && d != 0.0 && k != 0.0
    ensures d * k != 0.0
    ensures Calibrated(tankArea, valveArea, x, d, d * k) * k == (tankArea * x) / valveArea
  {
    var a := (tankArea * x) / valveArea;
    assert a * d / (d * k) == a / k;
  }
}
