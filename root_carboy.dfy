/**
 * The map-based BrewVolume of carboy.go: the same ledger as brew_volume.go
 * with the four volumes (litres) in one map, and every status message sent
 * as "brew volume". Its readMessage tries the same branches in the same
 * order, so it shares RootBrewVolume.Classify; its newVolume is the same
 * code, so RootBrewVolume.AsWrittenDrainRunsBackwards applies to it too.
 */
module RootCarboy {
  import opened Gadgets
  import opened Units
  import opened Torricelli
  import Ledger
  import RootBrewVolume

  class BrewVolume {
    var volumes: map<string, real>
    const hltCapacity: real
    const mashArea: real
    const k: real
    const root: real -> real
    const boilerFillTime: int
    var listening: bool
    var draining: bool
    var startHlt: real
    var startTun: real
    ghost var floatWaits: nat
    /** Start's loop is stuck on an unreceived `b.mashStop <- true`. */
    var blocked: bool
    var out: seq<Message>

    /** NewBrewVolume: all four vessels start empty. */
    constructor (hltCapacity: real, orifice: Orifice, root: real -> real, boilerFillTime: int)
      ensures volumes == map["hlt" := 0.0, "tun" := 0.0, "boiler" := 0.0, "carboy" := 0.0]
      ensures forall loc :: Ledger.Vol(volumes, loc) == 0.0
      ensures this.hltCapacity == hltCapacity && mashArea == orifice.area && k == orifice.k
      ensures this.root == root && this.boilerFillTime == boilerFillTime
      ensures !listening && !draining && !blocked && floatWaits == 0 && out == []
    {
      volumes := map["hlt" := 0.0, "tun" := 0.0, "boiler" := 0.0, "carboy" := 0.0];
      this.hltCapacity := hltCapacity;
      mashArea, k := orifice.area, orifice.k;
      this.root := root;
      this.boilerFillTime := boilerFillTime;
      listening, draining, blocked := false, false, false;
      startHlt, startTun := 0.0, 0.0;
      floatWaits := 0;
      out := [];
    }

    /** sendUpdate(location): every report comes from "brew volume". */
    function Report(loc: string): (m: Message)
      reads this`volumes
      ensures m.sender == "brew volume" && m.location == loc && m.name == "volume" && m.typ == "update"
      ensures m.value == Number(Ledger.Vol(volumes, loc) * LitresToGallons) && m.units == "gallons"
    {
      Update("brew volume", loc, "volume", Ledger.Vol(volumes, loc) * LitresToGallons, "gallons")
    }

    function Reports(tanks: seq<string>): (r: seq<Message>)
      reads this`volumes
      ensures |r| == |tanks| && forall i :: 0 <= i < |tanks| ==> r[i] == Report(tanks[i])
    {
      if |tanks| == 0 then [] else Reports(tanks[..|tanks| - 1]) + [Report(tanks[|tanks| - 1])]
    }

    method SendUpdates(tanks: seq<string>)
      modifies this`out
      ensures out == old(out) + Reports(tanks)
    {
      for i := 0 to |tanks|
        invariant out == old(out) + Reports(tanks[..i])
      {
        assert tanks[..i + 1][..i] == tanks[..i];
        out := out + [Report(tanks[i])];
      }
      assert tanks[..|tanks|] == tanks;
    }

    method Start()
      modifies this`out
      ensures out == old(out) + Reports(All)
    {
      SendUpdates(All);
    }

    /** calculateVolumes: the hlt and the tun recomputed from the snapshot, litres converted first. */
    method CalculateVolumes(elapsed: real)
      modifies this`volumes
      ensures volumes == Ledger.Recomputed(old(volumes), startHlt, startTun, DrainedLitres(mashArea, k, root, startHlt, elapsed))
      ensures Ledger.Vol(volumes, "hlt") + Ledger.Vol(volumes, "tun") == startHlt + startTun
      ensures forall loc :: loc != "hlt" && loc != "tun" ==> Ledger.Vol(volumes, loc) == Ledger.Vol(old(volumes), loc)
    {
      var v := DrainedLitres(mashArea, k, root, startHlt, elapsed);
      volumes := volumes["hlt" := startHlt - v]["tun" := startTun + v];
    }

    /** getNewVolumes: recompute, then report the hlt and the tun. */
    method GetNewVolumes(elapsed: real)
      modifies this`volumes, this`out
      ensures volumes == Ledger.Recomputed(old(volumes), startHlt, startTun, DrainedLitres(mashArea, k, root, startHlt, elapsed))
      ensures out == old(out) + [Report("hlt"), Report("tun")]
    {
      CalculateVolumes(elapsed);
      out := out + [Report("hlt"), Report("tun")];
    }

    method MashTick(elapsed: real)
      requires draining
      modifies this`volumes, this`out
      ensures volumes == Ledger.Recomputed(old(volumes), startHlt, startTun, DrainedLitres(mashArea, k, root, startHlt, elapsed))
      ensures out == old(out) + [Report("hlt"), Report("tun")]
    {
      GetNewVolumes(elapsed);
    }

    /** updateBoilerVolume's wait ran out: the tun's litres move to the boiler. */
    method BoilerTimerFires()
      requires listening
      modifies this`volumes, this`listening, this`out
      ensures !listening
      ensures volumes == Ledger.Moved(old(volumes), "tun", "boiler")
      ensures Ledger.Total(volumes) == Ledger.Total(old(volumes)) - Ledger.Vol(old(volumes), "boiler")
      ensures out == old(out) + Reports(["tun", "boiler"])
    {
      volumes := volumes["boiler" := Ledger.Vol(volumes, "tun")]["tun" := 0.0];
      SendUpdates(["tun", "boiler"]);
      listening := false;
    }

    /** updateCarboyVolume: the boiler's litres move to the carboy. */
    method UpdateCarboyVolume()
      modifies this`volumes, this`out
      ensures volumes == Ledger.Moved(old(volumes), "boiler", "carboy")
      ensures Ledger.Total(volumes) == Ledger.Total(old(volumes)) - Ledger.Vol(old(volumes), "carboy")
      ensures out == old(out) + Reports(["boiler", "carboy"])
    {
      volumes := volumes["carboy" := Ledger.Vol(volumes, "boiler")]["boiler" := 0.0];
      SendUpdates(["boiler", "carboy"]);
    }

    /** updateHLTVolume: a false reading is ignored, a true one fills the hlt to capacity. */
    method UpdateHLTVolume(full: bool)
      modifies this`volumes, this`out
      ensures !full ==> volumes == old(volumes) && out == old(out)
      ensures full ==> volumes == old(volumes)["hlt" := hltCapacity] && out == old(out) + [Report("hlt")]
    {
      if !full {
        return;
      }
      volumes := volumes["hlt" := hltCapacity];
      out := out + [Report("hlt")];
    }

    method FloatSwitch(full: bool)
      requires floatWaits > 0
      modifies this`volumes, this`out, this`floatWaits
      ensures blocked ==> volumes == old(volumes) && out == old(out) && floatWaits == old(floatWaits)
      ensures !blocked ==> floatWaits == old(floatWaits) - 1
      ensures !blocked && !full ==> volumes == old(volumes) && out == old(out)
      ensures !blocked && full ==> volumes == old(volumes)["hlt" := hltCapacity] && out == old(out) + [Report("hlt")]
    {
      if !blocked {
        floatWaits := floatWaits - 1;
        UpdateHLTVolume(full);
      }
    }

    method ReadMessage(msg: Message, elapsed: real)
      modifies this`volumes, this`listening, this`draining, this`startHlt, this`startTun
      modifies this`floatWaits, this`blocked, this`out
      ensures old(blocked) ==>
        blocked && volumes == old(volumes) && out == old(out) && listening == old(listening) && draining == old(draining)
      ensures old(blocked) || RootBrewVolume.Classify(msg, old(listening)) != RootBrewVolume.OpenTun ==>
        startHlt == old(startHlt) && startTun == old(startTun)
      ensures old(blocked) || (RootBrewVolume.Classify(msg, old(listening)) != RootBrewVolume.OpenTun && RootBrewVolume.Classify(msg, old(listening)) != RootBrewVolume.CloseTun) ==>
        draining == old(draining)
      ensures old(blocked) || (RootBrewVolume.Classify(msg, old(listening)) != RootBrewVolume.OpenBoiler && RootBrewVolume.Classify(msg, old(listening)) != RootBrewVolume.CloseBoiler) ==>
        listening == old(listening)
      ensures old(blocked) || RootBrewVolume.Classify(msg, old(listening)) != RootBrewVolume.OpenHlt ==> floatWaits == old(floatWaits)
      ensures !old(blocked) && RootBrewVolume.Classify(msg, old(listening)) == RootBrewVolume.UpdateAll ==>
        volumes == old(volumes) && out == old(out) + Reports(All) && !blocked
      ensures !old(blocked) && RootBrewVolume.Classify(msg, old(listening)) == RootBrewVolume.OpenHlt ==>
        volumes == old(volumes) && out == old(out) && floatWaits == old(floatWaits) + 1 && !blocked
      ensures !old(blocked) && RootBrewVolume.Classify(msg, old(listening)) == RootBrewVolume.OpenTun ==>
        volumes == old(volumes) && out == old(out) && draining && !blocked
        && startHlt == Ledger.Vol(volumes, "hlt") && startTun == Ledger.Vol(volumes, "tun")
      ensures !old(blocked) && RootBrewVolume.Classify(msg, old(listening)) == RootBrewVolume.CloseTun && old(draining) ==>
        !draining && !blocked && startHlt == old(startHlt) && startTun == old(startTun)
        && volumes == Ledger.Recomputed(old(volumes), startHlt, startTun, DrainedLitres(mashArea, k, root, startHlt, elapsed))
        && out == old(out) + [Report("hlt"), Report("tun")]
      ensures !old(blocked) && RootBrewVolume.Classify(msg, old(listening)) == RootBrewVolume.CloseTun && !old(draining) ==>
        blocked && volumes == old(volumes) && out == old(out)
      ensures !old(blocked) && RootBrewVolume.Classify(msg, old(listening)) == RootBrewVolume.OpenBoiler ==>
        listening && volumes == old(volumes) && out == old(out) && !blocked
      ensures !old(blocked) && RootBrewVolume.Classify(msg, old(listening)) == RootBrewVolume.CloseBoiler ==>
        !listening && volumes == old(volumes) && out == old(out) && !blocked
      ensures !old(blocked) && RootBrewVolume.Classify(msg, old(listening)) == RootBrewVolume.PumpOff ==>
        volumes == Ledger.Moved(old(volumes), "boiler", "carboy")
        && out == old(out) + Reports(["boiler", "carboy"]) && !blocked
      ensures !old(blocked) && RootBrewVolume.Classify(msg, old(listening)) == RootBrewVolume.Ignored ==>
        volumes == old(volumes) && out == old(out) && listening == old(listening) && draining == old(draining) && !blocked
    {
      if blocked {
        return;
      }
      match RootBrewVolume.Classify(msg, listening)
      case UpdateAll =>
        SendUpdates(All);
      case OpenHlt =>
        floatWaits := floatWaits + 1;
      case OpenTun =>
        draining := true;
        startHlt, startTun := Ledger.Vol(volumes, "hlt"), Ledger.Vol(volumes, "tun");
      case CloseTun =>
        if draining {
          draining := false;
          GetNewVolumes(elapsed);
        } else {
          blocked := true;
        }
      case OpenBoiler =>
        listening := true;
      case CloseBoiler =>
        listening := false;
      case PumpOff =>
        UpdateCarboyVolume();
      case Ignored =>
    }
  }
}
