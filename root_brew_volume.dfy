/**
 * The field-based BrewVolume of brew_volume.go, an older generation of the
 * ledger: four volume fields in litres, a Torricelli drain from the hlt
 * into the mash tun, a timed transfer from the tun into the boiler and a
 * pump transfer from the boiler into the carboy.
 *
 * The goroutines become step methods: MashTick is a tick of
 * updateMashTunVolume, BoilerTimerFires the end of updateBoilerVolume's
 * wait, FloatSwitch the reading that waitForFloatSwitch hands to Start.
 */
module RootBrewVolume {
  import opened Gadgets
  import opened Units
  import opened Torricelli

  /**
   * calculateVolumes as written passes the start litres straight to newVolume,
   * which is `Drained` on the raw litres. A 100 cm^2 tank holding 4 L with
   * k = 1: as written, 0.004 L have left it
   * after 0.2 s and only 0.003 L after 0.3 s, so the hlt appears to refill
   * while nearly all of its water is still in it. With the litres converted
   * first, the drained volume grows over the same interval.
   */
  lemma AsWrittenDrainRunsBackwards(root: real -> real)
    requires IsSqrt(root)
    ensures Drained(100.0, 1.0, root, 4.0, 0.2) == 0.004
    ensures Drained(100.0, 1.0, root, 4.0, 0.3) == 0.003
    ensures DrainedLitres(100.0, 1.0, root, 4.0, 0.2) <= DrainedLitres(100.0, 1.0, root, 4.0, 0.3)
  {
    SqrtIs(root, 0.04, 0.2);
    assert Height(100.0, 4.0) == 0.04;
    SqrtAtLeast(root, 40.0, 0.3);
    assert Height(100.0, 4000.0) == 40.0;
    DrainedGrowsUntilEmpty(100.0, 1.0, root, 4000.0, 0.2, 0.3);
  }

  /** The branches of readMessage, in the order the code tries them. */
  datatype Event = UpdateAll | OpenHlt | OpenTun | CloseTun | OpenBoiler | CloseBoiler | PumpOff | Ignored

  function Classify(msg: Message, listening: bool): (e: Event)
    ensures IsCommand(msg, "update") <==> e == UpdateAll
    ensures e == CloseBoiler ==> listening
    ensures IsSwitch(msg, "boiler valve", false) && !listening ==> e == Ignored
    ensures IsSwitch(msg, "tun valve", false) ==> e == CloseTun
    ensures msg.typ != "update" && !IsCommand(msg, "update") ==> e == Ignored
  {
    if IsCommand(msg, "update") then UpdateAll
    else if IsSwitch(msg, "hlt valve", true) then OpenHlt
    else if IsSwitch(msg, "tun valve", true) then OpenTun
    else if IsSwitch(msg, "tun valve", false) then CloseTun
    else if IsSwitch(msg, "boiler valve", true) then OpenBoiler
    else if IsSwitch(msg, "boiler valve", false) && listening then CloseBoiler
    else if IsSwitch(msg, "carboy pump", false) then PumpOff
    else Ignored
  }

  predicate IsVessel(loc: string) {
    loc == "hlt" || loc == "tun" || loc == "boiler" || loc == "carboy"
  }

  class BrewVolume {
    var hltVolume: real
    var tunVolume: real
    var boilerVolume: real
    var carboyVolume: real
    const hltCapacity: real
    const mashArea: real
    const k: real
    const root: real -> real
    const boilerFillTime: int
    var listening: bool
    /** updateMashTunVolume is running, with the snapshot it took. */
    var draining: bool
    var startHlt: real
    var startTun: real
    /** waitForFloatSwitch goroutines still blocked on the poller. */
    ghost var floatWaits: nat
    /**
     * Start's loop is stuck on `b.mashStop <- true` because no fill is
     * listening; it never handles another message or float-switch reading.
     */
    var blocked: bool
    /** Everything sent on the output channel, in order. */
    var out: seq<Message>

    /** NewBrewVolume, with getK already applied to the configuration. */
    constructor (hltCapacity: real, orifice: Orifice, root: real -> real, boilerFillTime: int)
      ensures hltVolume == 0.0 && tunVolume == 0.0 && boilerVolume == 0.0 && carboyVolume == 0.0
      ensures this.hltCapacity == hltCapacity && mashArea == orifice.area && k == orifice.k
      ensures this.root == root && this.boilerFillTime == boilerFillTime
      ensures !listening && !draining && !blocked && floatWaits == 0 && out == []
    {
      hltVolume, tunVolume, boilerVolume, carboyVolume := 0.0, 0.0, 0.0, 0.0;
      this.hltCapacity := hltCapacity;
      mashArea, k := orifice.area, orifice.k;
      this.root := root;
      this.boilerFillTime := boilerFillTime;
      listening, draining, blocked := false, false, false;
      startHlt, startTun := 0.0, 0.0;
      floatWaits := 0;
      out := [];
    }

    /** The getter that `volumes[loc]` holds. */
    function Volume(loc: string): real
      reads this`hltVolume, this`tunVolume, this`boilerVolume, this`carboyVolume
      requires IsVessel(loc)
    {
      if loc == "hlt" then hltVolume
      else if loc == "tun" then tunVolume
      else if loc == "boiler" then boilerVolume
      else carboyVolume
    }

    function Total(): real
      reads this`hltVolume, this`tunVolume, this`boilerVolume, this`carboyVolume
    {
      hltVolume + tunVolume + boilerVolume + carboyVolume
    }

    /** sendUpdate(loc, "volume", ...): the vessel's litres reported in gallons. */
    function Report(loc: string): (m: Message)
      reads this`hltVolume, this`tunVolume, this`boilerVolume, this`carboyVolume
      requires IsVessel(loc)
      ensures m.sender == loc + " volume" && m.location == loc && m.name == "volume" && m.typ == "update"
      ensures m.value == Number(Volume(loc) * LitresToGallons) && m.units == "gallons"
    {
      Update(loc + " volume", loc, "volume", Volume(loc) * LitresToGallons, "gallons")
    }

    /** What sendUpdates(tanks) puts on the output channel. */
    function Reports(tanks: seq<string>): (r: seq<Message>)
      reads this`hltVolume, this`tunVolume, this`boilerVolume, this`carboyVolume
      requires forall i :: 0 <= i < |tanks| ==> IsVessel(tanks[i])
      ensures |r| == |tanks| && forall i :: 0 <= i < |tanks| ==> r[i] == Report(tanks[i])
    {
      if |tanks| == 0 then [] else Reports(tanks[..|tanks| - 1]) + [Report(tanks[|tanks| - 1])]
    }

    /** Nothing of the ledger state changed between the two states. */
    twostate predicate VolumesKept()
      reads this
    {
      hltVolume == old(hltVolume) && tunVolume == old(tunVolume)
      && boilerVolume == old(boilerVolume) && carboyVolume == old(carboyVolume)
    }

    method SendUpdates(tanks: seq<string>)
      requires forall i :: 0 <= i < |tanks| ==> IsVessel(tanks[i])
      modifies this`out
      ensures out == old(out) + Reports(tanks)
    {
      for i := 0 to |tanks|
        invariant out == old(out) + Reports(tanks[..i])
      {
        assert tanks[..i + 1][..i] == tanks[..i];
        out := out + [Report(tanks[i])];
      }
      assert tanks[..|tanks|] == tanks;
    }

    /** Start, before its select loop: report all four vessels. */
    method Start()
      modifies this`out
      ensures out == old(out) + Reports(All)
    {
      SendUpdates(All);
    }

    /** calculateVolumes: both vessels from the snapshot, with the litres converted before the height is taken. */
    method CalculateVolumes(elapsed: real)
      modifies this`hltVolume, this`tunVolume
      ensures tunVolume == startTun + DrainedLitres(mashArea, k, root, startHlt, elapsed)
      ensures hltVolume + tunVolume == startHlt + startTun
      ensures elapsed == 0.0 ==> hltVolume == startHlt && tunVolume == startTun
      ensures 0.0 <= mashArea ==> hltVolume <= startHlt && startTun <= tunVolume
    {
      var v := DrainedLitres(mashArea, k, root, startHlt, elapsed);
      hltVolume := startHlt - v;
      tunVolume := startTun + v;
    }

    /** getNewVolumes: recompute, then report the hlt and the tun. */
    method GetNewVolumes(elapsed: real)
      modifies this`hltVolume, this`tunVolume, this`out
      ensures tunVolume == startTun + DrainedLitres(mashArea, k, root, startHlt, elapsed)
      ensures hltVolume + tunVolume == startHlt + startTun
      ensures out == old(out) + [Report("hlt"), Report("tun")]
    {
      CalculateVolumes(elapsed);
      out := out + [Report("hlt"), Report("tun")];
    }

    /** A 100 ms tick of updateMashTunVolume, `elapsed` seconds after it began. */
    method MashTick(elapsed: real)
      requires draining
      modifies this`hltVolume, this`tunVolume, this`out
      ensures tunVolume == startTun + DrainedLitres(mashArea, k, root, startHlt, elapsed)
      ensures hltVolume + tunVolume == startHlt + startTun
      ensures boilerVolume == old(boilerVolume) && carboyVolume == old(carboyVolume)
      ensures out == old(out) + [Report("hlt"), Report("tun")]
    {
      GetNewVolumes(elapsed);
    }

    /** The wait of updateBoilerVolume ran out: everything in the tun is now in the boiler. */
    method BoilerTimerFires()
      requires listening
      modifies this`boilerVolume, this`tunVolume, this`listening, this`out
      ensures !listening
      ensures boilerVolume == old(tunVolume) && tunVolume == 0.0
      ensures hltVolume == old(hltVolume) && carboyVolume == old(carboyVolume)
      ensures Total() == old(Total()) - old(boilerVolume)
      ensures out == old(out) + Reports(["tun", "boiler"])
    {
      boilerVolume := tunVolume;
      tunVolume := 0.0;
      SendUpdates(["tun", "boiler"]);
      listening := false;
    }

    /** updateCarboyVolume: the pump has emptied the boiler into the carboy. */
    method UpdateCarboyVolume()
      modifies this`carboyVolume, this`boilerVolume, this`out
      ensures carboyVolume == old(boilerVolume) && boilerVolume == 0.0
      ensures Total() == old(Total()) - old(carboyVolume)
      ensures out == old(out) + Reports(["boiler", "carboy"])
    {
      carboyVolume := boilerVolume;
      boilerVolume := 0.0;
      SendUpdates(["boiler", "carboy"]);
    }

    /** updateHLTVolume: only a full reading changes anything. */
    method UpdateHLTVolume(full: bool)
      modifies this`hltVolume, this`out
      ensures !full ==> hltVolume == old(hltVolume) && out == old(out)
      ensures full ==> hltVolume == hltCapacity && out == old(out) + [Report("hlt")]
    {
      if !full {
        return;
      }
      hltVolume := hltCapacity;
      out := out + [Report("hlt")];
    }

    /** The float switch answered a pending wait; Start handles the reading unless it is blocked. */
    method FloatSwitch(full: bool)
      requires floatWaits > 0
      modifies this`hltVolume, this`out, this`floatWaits
      ensures blocked ==> hltVolume == old(hltVolume) && out == old(out) && floatWaits == old(floatWaits)
      ensures !blocked ==> floatWaits == old(floatWaits) - 1
      ensures !blocked && !full ==> hltVolume == old(hltVolume) && out == old(out)
      ensures !blocked && full ==> hltVolume == hltCapacity && out == old(out) + [Report("hlt")]
    {
      if !blocked {
        floatWaits := floatWaits - 1;
        UpdateHLTVolume(full);
      }
    }

    /** readMessage; `elapsed` is the time since the fill began, for the recompute a stop triggers. */
    method ReadMessage(msg: Message, elapsed: real)
      modifies this`hltVolume, this`tunVolume, this`boilerVolume, this`carboyVolume
      modifies this`listening, this`draining, this`startHlt, this`startTun
      modifies this`floatWaits, this`blocked, this`out
      ensures old(blocked) ==>
        blocked && VolumesKept() && out == old(out) && listening == old(listening) && draining == old(draining)
      ensures old(blocked) || Classify(msg, old(listening)) != OpenTun ==>
        startHlt == old(startHlt) && startTun == old(startTun)
      ensures old(blocked) || (Classify(msg, old(listening)) != OpenTun && Classify(msg, old(listening)) != CloseTun) ==>
        draining == old(draining)
      ensures old(blocked) || (Classify(msg, old(listening)) != OpenBoiler && Classify(msg, old(listening)) != CloseBoiler) ==>
        listening == old(listening)
      ensures old(blocked) || Classify(msg, old(listening)) != OpenHlt ==> floatWaits == old(floatWaits)
      ensures !old(blocked) && Classify(msg, old(listening)) == UpdateAll ==>
        VolumesKept() && out == old(out) + Reports(All) && !blocked
      ensures !old(blocked) && Classify(msg, old(listening)) == OpenHlt ==>
        VolumesKept() && out == old(out) && floatWaits == old(floatWaits) + 1 && !blocked
      ensures !old(blocked) && Classify(msg, old(listening)) == OpenTun ==>
        VolumesKept() && out == old(out) && draining && !blocked
        && startHlt == hltVolume && startTun == tunVolume
      ensures !old(blocked) && Classify(msg, old(listening)) == CloseTun && old(draining) ==>
        !draining && !blocked && startHlt == old(startHlt) && startTun == old(startTun)
        && tunVolume == startTun + DrainedLitres(mashArea, k, root, startHlt, elapsed)
        && hltVolume + tunVolume == startHlt + startTun
        && boilerVolume == old(boilerVolume) && carboyVolume == old(carboyVolume)
        && out == old(out) + [Report("hlt"), Report("tun")]
      ensures !old(blocked) && Classify(msg, old(listening)) == CloseTun && !old(draining) ==>
        blocked && VolumesKept() && out == old(out)
      ensures !old(blocked) && Classify(msg, old(listening)) == OpenBoiler ==>
        listening && VolumesKept() && out == old(out) && !blocked
      ensures !old(blocked) && Classify(msg, old(listening)) == CloseBoiler ==>
        !listening && VolumesKept() && out == old(out) && !blocked
      ensures !old(blocked) && Classify(msg, old(listening)) == PumpOff ==>
        carboyVolume == old(boilerVolume) && boilerVolume == 0.0
        && hltVolume == old(hltVolume) && tunVolume == old(tunVolume)
        && out == old(out) + Reports(["boiler", "carboy"]) && !blocked
      ensures !old(blocked) && Classify(msg, old(listening)) == Ignored ==>
        VolumesKept() && out == old(out) && listening == old(listening) && draining == old(draining) && !blocked
    {
      if blocked {
        return;
      }
      match Classify(msg, listening)
      case UpdateAll =>
        SendUpdates(All);
      case OpenHlt =>
        floatWaits := floatWaits + 1;
      case OpenTun =>
        draining := true;
        startHlt, startTun := hltVolume, tunVolume;
      case CloseTun =>
        if draining {
          draining := false;
          GetNewVolumes(elapsed);
        } else {
          blocked := true;
        }
      case OpenBoiler =>
        listening := true;
      case CloseBoiler =>
        listening := false;
      case PumpOff =>
        UpdateCarboyVolume();
      case Ignored =>
    }
  }

  /** The "update" command reports hlt, tun, boiler and carboy, in that order. */
  lemma UpdateReportsEveryVessel(b: BrewVolume)
    ensures b.Reports(All) == [b.Report("hlt"), b.Report("tun"), b.Report("boiler"), b.Report("carboy")]
  {
  }
}
