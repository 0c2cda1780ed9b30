/**
 * The Tun gauge of tun.go: it tracks the hlt and the mash tun in mL, learns
 * the hlt volume from "hlt volume" updates, and while the tun valve is open
 * recomputes the tun on every 100 ms tick from the snapshot taken when the
 * fill began, reporting only on every tenth tick.
 */
module RootTun {
  import opened Gadgets
  import opened Units
  import opened Torricelli
  import Ledger

  /**
   * getNewVolume as written adds newVolume of the start mL, which is
   * `Drained` on the raw mL and comes out in litres, to the tun's mL. A
   * 250 cm^2 hlt holding 1000 mL with k = 1 is empty after 2 s. As written
   * the tun has then gained 1 mL; with the result converted to mL it has
   * gained the full 1000 mL.
   */
  lemma AsWrittenTunGainsLitresAsMillilitres(root: real -> real)
    requires IsSqrt(root)
    ensures EmptyTime(250.0, 1.0, root, 1000.0) == 2.0
    ensures Drained(250.0, 1.0, root, 1000.0, 2.0) == 1.0
    ensures DrainedMillilitres(250.0, 1.0, root, 1000.0, 2.0) == 1000.0
  {
    assert Height(250.0, 1000.0) == 4.0;
    SqrtIs(root, 4.0, 2.0);
    DrainedMillilitresEmptiesTank(250.0, 1.0, root, 1000.0);
  }

  /** How many of the ticks numbered 0 .. n-1 report: those whose number is a multiple of 10. */
  function ReportCount(n: nat): nat {
    if n == 0 then 0 else ReportCount(n - 1) + (if (n - 1) % 10 == 0 then 1 else 0)
  }

  /** n ticks of a fill produce ceil(n / 10) reports, the first tick included. */
  lemma {:induction false} TicksReportOneInTen(n: nat)
    ensures ReportCount(n) == (n + 9) / 10
  {
    if n > 0 {
      TicksReportOneInTen(n - 1);
    }
  }

  class Tun {
    var volumes: map<string, real>
    const hltArea: real
    const k: real
    const root: real -> real
    const after: Ledger.Clock
    const timer: Ledger.Clock
    var filling: bool
    /** The snapshot `v` that fill takes when it starts. */
    var startHlt: real
    var startTun: real
    /** fill's tick counter `i`. */
    var ticks: nat
    var out: seq<Message>

    /** NewTun: both vessels empty; the system clock unless one is injected. */
    constructor (orifice: Orifice, root: real -> real, after: Ledger.Clock, timer: Ledger.Clock)
      ensures volumes == map["hlt" := 0.0, "tun" := 0.0]
      ensures hltArea == orifice.area && k == orifice.k && this.root == root
      ensures this.after == after && this.timer == timer
      ensures !filling && ticks == 0 && out == []
    {
      volumes := map["hlt" := 0.0, "tun" := 0.0];
      hltArea, k := orifice.area, orifice.k;
      this.root := root;
      this.after, this.timer := after, timer;
      filling := false;
      startHlt, startTun := 0.0, 0.0;
      ticks := 0;
      out := [];
    }

    /** sendUpdate: the tun's mL reported in gallons. */
    function Status(): (m: Message)
      reads this`volumes
      ensures m.sender == "tun volume" && m.location == "tun" && m.name == "volume" && m.typ == "update"
      ensures m.value == Number(ToGallons(Ledger.Vol(volumes, "tun"))) && m.units == "gallons"
    {
      Update("tun volume", "tun", "volume", ToGallons(Ledger.Vol(volumes, "tun")), "gallons")
    }

    method SendUpdate()
      modifies this`out
      ensures out == old(out) + [Status()]
    {
      out := out + [Status()];
    }

    /** Start, before its receive loop: report the tun. */
    method Start()
      modifies this`out
      ensures out == old(out) + [Status()]
    {
      SendUpdate();
    }

    /** fill, up to its loop: raise the flag, take the snapshot, start the timer. */
    method StartFill()
      modifies this`filling, this`startHlt, this`startTun, this`ticks
      ensures filling && ticks == 0
      ensures startHlt == Ledger.Vol(volumes, "hlt") && startTun == Ledger.Vol(volumes, "tun")
    {
      filling := true;
      startHlt, startTun := Ledger.Vol(volumes, "hlt"), Ledger.Vol(volumes, "tun");
      ticks := 0;
    }

    /**
     * getNewVolume(v, i): the tun is the snapshot plus the mL drained so far;
     * the hlt is left as it is. Only a counter that is a multiple of 10 reports.
     */
    method GetNewVolume(i: nat, elapsed: real)
      modifies this`volumes, this`out
      ensures volumes == old(volumes)["tun" := startTun + DrainedMillilitres(hltArea, k, root, startHlt, elapsed)]
      ensures Ledger.Vol(volumes, "hlt") == Ledger.Vol(old(volumes), "hlt")
      ensures i % 10 == 0 ==> out == old(out) + [Status()]
      ensures i % 10 != 0 ==> out == old(out)
    {
      var v := DrainedMillilitres(hltArea, k, root, startHlt, elapsed);
      volumes := volumes["tun" := startTun + v];
      if i % 10 == 0 {
        SendUpdate();
      }
    }

    /** A tick of fill's loop, `elapsed` seconds after the timer started. */
    method Tick(elapsed: real)
      requires filling
      modifies this`volumes, this`out, this`ticks
      ensures ticks == old(ticks) + 1
      ensures volumes == old(volumes)["tun" := startTun + DrainedMillilitres(hltArea, k, root, startHlt, elapsed)]
      ensures old(ticks) % 10 == 0 ==> out == old(out) + [Status()]
      ensures old(ticks) % 10 != 0 ==> out == old(out)
    {
      GetNewVolume(ticks, elapsed);
      ticks := ticks + 1;
    }

    /**
     * fill's loop over a run of ticks: the tun ends at the value of the last
     * reading, and every tenth tick (counting from the first) reported it.
     */
    method RunTicks(readings: seq<real>)
      requires filling && |readings| > 0
      modifies this`volumes, this`out, this`ticks
      ensures ticks == old(ticks) + |readings|
      ensures volumes == old(volumes)["tun" := startTun + DrainedMillilitres(hltArea, k, root, startHlt, readings[|readings| - 1])]
      ensures |out| == |old(out)| + ReportCount(ticks) - ReportCount(old(ticks))
      ensures old(out) <= out
      ensures forall j :: |old(out)| <= j < |out| ==> out[j].sender == "tun volume" && out[j].location == "tun"
    {
      ghost var out0 := out;
      ghost var ticks0 := ticks;
      for n := 0 to |readings|
        invariant ticks == ticks0 + n
        invariant n > 0 ==> volumes == old(volumes)["tun" := startTun + DrainedMillilitres(hltArea, k, root, startHlt, readings[n - 1])]
        invariant n == 0 ==> volumes == old(volumes)
        invariant |out| == |out0| + ReportCount(ticks) - ReportCount(ticks0)
        invariant ReportCount(ticks0) <= ReportCount(ticks)
        invariant out0 <= out
        invariant forall j :: |out0| <= j < |out| ==> out[j].sender == "tun volume" && out[j].location == "tun"
      {
        Tick(readings[n]);
      }
    }

    /** The stop case of fill's loop: clear the flag and recompute once more, always reporting. */
    method StopFill(elapsed: real)
      requires filling
      modifies this`filling, this`volumes, this`out
      ensures !filling
      ensures volumes == old(volumes)["tun" := startTun + DrainedMillilitres(hltArea, k, root, startHlt, elapsed)]
      ensures out == old(out) + [Status()]
    {
      filling := false;
      GetNewVolume(0, elapsed);
    }

    /** readMessage; `elapsed` is the timer reading at which a stop recomputes. */
    method ReadMessage(msg: Message, elapsed: real)
      requires IsUpdateFrom(msg, "hlt volume") ==> msg.value.Number?
      modifies this`volumes, this`out, this`filling, this`startHlt, this`startTun, this`ticks
      ensures !IsSwitch(msg, "tun valve", true) ==>
        ticks == old(ticks) && startHlt == old(startHlt) && startTun == old(startTun)
      ensures !IsUpdateFrom(msg, "tun valve") ==> filling == old(filling)
      ensures IsCommand(msg, "update") ==>
        volumes == old(volumes) && out == old(out) + [Status()] && filling == old(filling)
      ensures IsSwitch(msg, "tun valve", true) ==>
        volumes == old(volumes) && out == old(out) && filling && ticks == 0
        && startHlt == Ledger.Vol(volumes, "hlt") && startTun == Ledger.Vol(volumes, "tun")
      ensures IsSwitch(msg, "tun valve", false) && old(filling) ==>
        !filling && out == old(out) + [Status()]
        && volumes == old(volumes)["tun" := startTun + DrainedMillilitres(hltArea, k, root, startHlt, elapsed)]
      ensures IsSwitch(msg, "tun valve", false) && !old(filling) ==>
        volumes == old(volumes) && out == old(out) && !filling
      ensures IsUpdateFrom(msg, "hlt volume") ==>
        volumes == old(volumes)["hlt" := ToMillilitres(msg.value.x)] && out == old(out) && filling == old(filling)
      ensures IsUpdateFrom(msg, "boiler volume") ==>
        volumes == old(volumes)["tun" := 0.0] && out == old(out) + [Status()] && filling == old(filling)
      ensures !IsCommand(msg, "update") && msg.typ != "update" ==>
        volumes == old(volumes) && out == old(out) && filling == old(filling)
      ensures msg.typ == "update" && msg.sender != "tun valve" && msg.sender != "hlt volume" && msg.sender != "boiler volume" ==>
        volumes == old(volumes) && out == old(out) && filling == old(filling) && ticks == old(ticks)
        && startHlt == old(startHlt) && startTun == old(startTun)
      ensures IsUpdateFrom(msg, "tun valve") && !msg.value.Flag? ==>
        volumes == old(volumes) && out == old(out) && filling == old(filling) && ticks == old(ticks)
        && startHlt == old(startHlt) && startTun == old(startTun)
    {
      if IsCommand(msg, "update") {
        SendUpdate();
      } else if IsSwitch(msg, "tun valve", true) {
        StartFill();
      } else if IsSwitch(msg, "tun valve", false) && filling {
        StopFill(elapsed);
      } else if IsUpdateFrom(msg, "hlt volume") {
        volumes := volumes["hlt" := ToMillilitres(msg.value.x)];
      } else if IsUpdateFrom(msg, "boiler volume") {
        volumes := volumes["tun" := 0.0];
        SendUpdate();
      }
    }
  }
}
