/**
 * The three-vessel BrewVolume of brewgadgets/brew_volume.go: hlt, mash tun
 * and boiler in litres, with the Torricelli drain from the hlt into the mash
 * tun. Its newVolume is the code of brew_volume.go, so
 * RootBrewVolume.AsWrittenDrainRunsBackwards applies to it as well; the
 * model uses the corrected DrainedLitres.
 *
 * NewBrewVolume never sets the poller, so an opened hlt valve makes
 * waitForFloatSwitch call Wait on a nil interface; the panic ends the
 * program, which the model records as `crashed`.
 */
module BrewgadgetsBrewVolume {
  import opened Gadgets
  import opened Units
  import opened Torricelli

  /** sendUpdate(sender, value): only the sender, the type and the gallons are filled in. */
  function Report(sender: string, litres: real): (m: Message)
    ensures m.sender == sender && m.typ == "update" && m.location == "" && m.name == ""
    ensures m.value == Number(litres * LitresToGallons) && m.units == "gallons"
  {
    Message(sender, "", "", "update", "", Number(litres * LitresToGallons), "gallons")
  }

  datatype Event = UpdateAll | OpenHlt | OpenMash | CloseMash | Ignored

  function Classify(msg: Message): (e: Event)
    ensures IsCommand(msg, "update") <==> e == UpdateAll
    ensures IsSwitch(msg, "mash tun valve", false) ==> e == CloseMash
    ensures IsUpdateFrom(msg, "boiler valve") || IsUpdateFrom(msg, "carboy pump") ==> e == Ignored
  {
    if IsCommand(msg, "update") then UpdateAll
    else if IsSwitch(msg, "hlt valve", true) then OpenHlt
    else if IsSwitch(msg, "mash tun valve", true) then OpenMash
    else if IsSwitch(msg, "mash tun valve", false) then CloseMash
    else Ignored
  }

  class BrewVolume {
    const hltCapacity: real
    var hltVolume: real
    var mashVolume: real
    /** No handler of this file ever writes the boiler volume, so it keeps Go's zero value. */
    const boilerVolume: real := 0.0
    const mashArea: real
    const k: real
    const root: real -> real
    var draining: bool
    var startHlt: real
    var startMash: real
    ghost var floatWaits: nat
    /** Start's loop is stuck on an unreceived `b.mashStop <- true`. */
    var blocked: bool
    /** Whether the struct's poller field is set. */
    const hasPoller: bool
    /** A waitForFloatSwitch goroutine called Wait on the nil poller and the program stopped. */
    var crashed: bool
    var out: seq<Message>

    /** The struct that NewBrewVolume builds, with getK already applied and no poller. */
    constructor (hltCapacity: real, orifice: Orifice, root: real -> real)
      ensures hltVolume == 0.0 && mashVolume == 0.0
      ensures this.hltCapacity == hltCapacity && mashArea == orifice.area && k == orifice.k && this.root == root
      ensures !hasPoller && !crashed
      ensures !draining && !blocked && floatWaits == 0 && out == []
    {
      this.hltCapacity := hltCapacity;
      hltVolume, mashVolume := 0.0, 0.0;
      mashArea, k := orifice.area, orifice.k;
      this.root := root;
      hasPoller, crashed := false, false;
      draining, blocked := false, false;
      startHlt, startMash := 0.0, 0.0;
      floatWaits := 0;
      out := [];
    }

    /** A BrewVolume struct literal of the package that does set the poller. */
    constructor WithPoller(hltCapacity: real, orifice: Orifice, root: real -> real)
      ensures hltVolume == 0.0 && mashVolume == 0.0
      ensures this.hltCapacity == hltCapacity && mashArea == orifice.area && k == orifice.k && this.root == root
      ensures hasPoller && !crashed
      ensures !draining && !blocked && floatWaits == 0 && out == []
    {
      this.hltCapacity := hltCapacity;
      hltVolume, mashVolume := 0.0, 0.0;
      mashArea, k := orifice.area, orifice.k;
      this.root := root;
      hasPoller, crashed := true, false;
      draining, blocked := false, false;
      startHlt, startMash := 0.0, 0.0;
      floatWaits := 0;
      out := [];
    }

    /** sendUpdates: hlt, mash tun, boiler, in that order. */
    method SendUpdates()
      modifies this`out
      ensures out == old(out) + [Report("hlt volume", hltVolume), Report("mash tun volume", mashVolume),
                                 Report("boiler volume", 0.0)]
    {
      out := out + [Report("hlt volume", hltVolume)];
      out := out + [Report("mash tun volume", mashVolume)];
      out := out + [Report("boiler volume", boilerVolume)];
    }

    /** calculateVolumes: recompute both vessels from the snapshot, litres converted first. */
    method CalculateVolumes(elapsed: real)
      modifies this`hltVolume, this`mashVolume
      ensures mashVolume == startMash + DrainedLitres(mashArea, k, root, startHlt, elapsed)
      ensures hltVolume + mashVolume == startHlt + startMash
      ensures 0.0 <= mashArea ==> hltVolume <= startHlt && startMash <= mashVolume
    {
      var v := DrainedLitres(mashArea, k, root, startHlt, elapsed);
      hltVolume := startHlt - v;
      mashVolume := startMash + v;
    }

    /** getNewVolumes: recompute, then report the hlt and then the mash tun. */
    method GetNewVolumes(elapsed: real)
      modifies this`hltVolume, this`mashVolume, this`out
      ensures mashVolume == startMash + DrainedLitres(mashArea, k, root, startHlt, elapsed)
      ensures hltVolume + mashVolume == startHlt + startMash
      ensures out == old(out) + [Report("hlt volume", hltVolume), Report("mash tun volume", mashVolume)]
    {
      CalculateVolumes(elapsed);
      out := out + [Report("hlt volume", hltVolume), Report("mash tun volume", mashVolume)];
    }

    /** A 100 ms tick of updateMashTunVolume. */
    method MashTick(elapsed: real)
      requires draining
      modifies this`hltVolume, this`mashVolume, this`out
      ensures mashVolume == startMash + DrainedLitres(mashArea, k, root, startHlt, elapsed)
      ensures hltVolume + mashVolume == startHlt + startMash
      ensures out == old(out) + [Report("hlt volume", hltVolume), Report("mash tun volume", mashVolume)]
    {
      GetNewVolumes(elapsed);
    }

    /** updateHLTVolume: a false reading changes nothing, a true one fills the hlt. */
    method UpdateHLTVolume(full: bool)
      modifies this`hltVolume, this`out
      ensures !full ==> hltVolume == old(hltVolume) && out == old(out)
      ensures full ==> hltVolume == hltCapacity && out == old(out) + [Report("hlt volume", hltCapacity)]
    {
      if !full {
        return;
      }
      hltVolume := hltCapacity;
      out := out + [Report("hlt volume", hltVolume)];
    }

    method FloatSwitch(full: bool)
      requires floatWaits > 0
      modifies this`hltVolume, this`out, this`floatWaits
      ensures blocked || crashed ==> hltVolume == old(hltVolume) && out == old(out) && floatWaits == old(floatWaits)
      ensures !blocked && !crashed ==> floatWaits == old(floatWaits) - 1
      ensures !blocked && !crashed && !full ==> hltVolume == old(hltVolume) && out == old(out)
      ensures !blocked && !crashed && full ==> hltVolume == hltCapacity && out == old(out) + [Report("hlt volume", hltCapacity)]
    {
      if !blocked && !crashed {
        floatWaits := floatWaits - 1;
        UpdateHLTVolume(full);
      }
    }

    method ReadMessage(msg: Message, elapsed: real)
      modifies this`hltVolume, this`mashVolume, this`draining, this`startHlt, this`startMash
      modifies this`floatWaits, this`blocked, this`crashed, this`out
      ensures old(blocked) || old(crashed) ==>
        blocked == old(blocked) && crashed == old(crashed) && draining == old(draining)
        && hltVolume == old(hltVolume) && mashVolume == old(mashVolume) && out == old(out)
      ensures Classify(msg) != OpenHlt ==> crashed == old(crashed)
      ensures old(blocked) || old(crashed) || Classify(msg) != OpenMash ==>
        startHlt == old(startHlt) && startMash == old(startMash)
      ensures old(blocked) || old(crashed) || (Classify(msg) != OpenMash && Classify(msg) != CloseMash) ==>
        draining == old(draining)
      ensures old(blocked) || old(crashed) || Classify(msg) != OpenHlt ==> floatWaits == old(floatWaits)
      ensures !old(blocked) && !old(crashed) && Classify(msg) == UpdateAll ==>
        hltVolume == old(hltVolume) && mashVolume == old(mashVolume) && !blocked
        && out == old(out) + [Report("hlt volume", hltVolume), Report("mash tun volume", mashVolume),
                              Report("boiler volume", 0.0)]
      ensures !old(blocked) && !old(crashed) && Classify(msg) == OpenHlt ==>
        hltVolume == old(hltVolume) && mashVolume == old(mashVolume) && out == old(out) && !blocked
        && (hasPoller ==> floatWaits == old(floatWaits) + 1 && !crashed)
        && (!hasPoller ==> floatWaits == old(floatWaits) && crashed)
      ensures !old(blocked) && !old(crashed) && Classify(msg) == OpenMash ==>
        hltVolume == old(hltVolume) && mashVolume == old(mashVolume) && out == old(out)
        && draining && startHlt == hltVolume && startMash == mashVolume && !blocked
      ensures !old(blocked) && !old(crashed) && Classify(msg) == CloseMash && old(draining) ==>
        !draining && !blocked && startHlt == old(startHlt) && startMash == old(startMash)
        && mashVolume == startMash + DrainedLitres(mashArea, k, root, startHlt, elapsed)
        && hltVolume + mashVolume == startHlt + startMash
        && out == old(out) + [Report("hlt volume", hltVolume), Report("mash tun volume", mashVolume)]
      ensures !old(blocked) && !old(crashed) && Classify(msg) == CloseMash && !old(draining) ==>
        blocked && hltVolume == old(hltVolume) && mashVolume == old(mashVolume) && out == old(out)
      ensures !old(blocked) && !old(crashed) && Classify(msg) == Ignored ==>
        hltVolume == old(hltVolume) && mashVolume == old(mashVolume) && out == old(out)
        && draining == old(draining) && !blocked
    {
      if blocked || crashed {
        return;
      }
      match Classify(msg)
      case UpdateAll =>
        SendUpdates();
      case OpenHlt =>
        if hasPoller {
          floatWaits := floatWaits + 1;
        } else {
          crashed := true;
        }
      case OpenMash =>
        draining := true;
        startHlt, startMash := hltVolume, mashVolume;
      case CloseMash =>
        if draining {
          draining := false;
          GetNewVolumes(elapsed);
        } else {
          blocked := true;
        }
      case Ignored =>
    }
  }
}
