/**
 * The Boiler gauge of brewgadgets/boiler.go. Grain in the tun makes the flow
 * into the boiler unpredictable, so the gauge does not compute it: opening
 * the boiler valve starts a fixed wait, and when the wait ends the last
 * volume reported by the tun is added to the boiler.
 *
 * Each `go b.wait(...)` is a pending wait; `WaitEnds` is the moment one of
 * them wakes and Start's select receives the total it computed.
 */
module BrewgadgetsBoiler {
  import opened Gadgets

  class Boiler {
    var volume: real
    const units: string
    /** The last volume the tun reported. */
    var mashVolume: real
    /** How long a wait lasts, in seconds. */
    const waitTime: real
    /** Waits started by opening the valve that have not ended yet. */
    ghost var waits: nat
    /** Everything sent on the output channel, in order. */
    var out: seq<Reading>

    /** NewBoiler: an empty boiler measured in litres, with a five-minute wait. */
    constructor ()
      ensures volume == 0.0 && mashVolume == 0.0 && units == "L" && waitTime == 300.0
      ensures waits == 0 && out == []
    {
      volume, mashVolume := 0.0, 0.0;
      units := "L";
      waitTime := 60.0 * 5.0;
      waits := 0;
      out := [];
    }

    /** GetValue: the current volume in the gauge's units. */
    function GetValue(): (r: Reading)
      reads this`volume
      ensures r.value == volume && r.units == units
    {
      Reading(volume, units)
    }

    /**
     * readMessage. The message type is not looked at. A "tun volume" message
     * must carry a number, or Go's type assertion panics.
     */
    method ReadMessage(msg: Message)
      requires msg.sender == "tun volume" ==> msg.value.Number?
      modifies this`mashVolume, this`waits
      ensures msg.sender == "tun volume" ==> mashVolume == msg.value.x && waits == old(waits)
      ensures msg.sender == "boiler valve" && msg.value == Flag(true) ==>
        mashVolume == old(mashVolume) && waits == old(waits) + 1
      ensures msg.sender != "tun volume" && !(msg.sender == "boiler valve" && msg.value == Flag(true)) ==>
        mashVolume == old(mashVolume) && waits == old(waits)
    {
      if msg.sender == "tun volume" {
        mashVolume := msg.value.x;
      } else if msg.sender == "boiler valve" && msg.value == Flag(true) {
        waits := waits + 1;
      }
    }

    /**
     * A wait ends: the tun's last report is added to what the boiler
     * already held, and Start reports the new total.
     */
    method WaitEnds()
      requires 0 < waits
      modifies this`volume, this`waits, this`out
      ensures volume == old(volume) + mashVolume
      ensures waits == old(waits) - 1
      ensures out == old(out) + [Reading(volume, units)] && out[|out| - 1] == GetValue()
    {
      var total := mashVolume + volume;
      waits := waits - 1;
      volume := total;
      out := out + [GetValue()];
    }
  }
}
