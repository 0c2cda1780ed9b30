/**
 * The hot-liquor tank gauge of gadgets/hlt.go: the same latch as
 * brewgadgets/hlt.go, with a Start loop that answers the "update" and
 * "shutdown" commands. A high float switch re-sends the gauge's current
 * volume; a low one sends 0.
 *
 * Every pass of Start's loop starts a fresh `go h.wait(...)` before it
 * selects; `waits` counts those goroutines that have not delivered yet.
 */
module GadgetsHlt {
  import opened Wrappers
  import opened Gadgets
  import Latches = BrewgadgetsHlt

  /** What Start's select can receive: a message, or the outcome of a poll. */
  datatype Input = Msg(msg: Message) | Sensor(p: Poll)

  /** The input that ends Start's loop. */
  predicate Stops(i: Input) {
    i.Msg? && IsCommand(i.msg, "shutdown")
  }

  /** A message readMessage can take without a failed type assertion. */
  predicate Readable(msg: Message) {
    !IsCommand(msg, "shutdown") && !IsCommand(msg, "update") && msg.typ == "update" && msg.body == "mash volume"
    ==> msg.value.Number?
  }

  /** No input before position j ends Start's loop, so Start reaches input j. */
  predicate NoStopBefore(inputs: seq<Input>, j: int) {
    forall i :: 0 <= i < j && i < |inputs| ==> !Stops(inputs[i])
  }

  /** How many of the inputs are poll outcomes. */
  function SensorCount(inputs: seq<Input>): (n: nat)
    ensures n <= |inputs|
  {
    if inputs == [] then 0
    else SensorCount(inputs[..|inputs| - 1]) + (if inputs[|inputs| - 1].Sensor? then 1 else 0)
  }

  class Hlt {
    var volume: real
    var startVolume: real
    const units: string
    ghost var waits: nat
    /** Everything sent on the output channel, in order. */
    var out: seq<Reading>

    constructor (volume: real, units: string)
      ensures this.volume == volume && this.units == units
      ensures startVolume == 0.0 && waits == 0 && out == []
    {
      this.volume, this.units := volume, units;
      startVolume := 0.0;
      waits := 0;
      out := [];
    }

    /**
     * readMessage: "shutdown" stops the gauge, "update" re-sends the volume,
     * and an update whose body is "mash volume" moves the latch.
     */
    method ReadMessage(msg: Message) returns (keepGoing: bool)
      requires Readable(msg)
      modifies this`startVolume, this`volume, this`out
      ensures keepGoing <==> !IsCommand(msg, "shutdown")
      ensures IsCommand(msg, "shutdown") ==>
        startVolume == old(startVolume) && volume == old(volume) && out == old(out)
      ensures IsCommand(msg, "update") ==>
        startVolume == old(startVolume) && volume == old(volume) && out == old(out) + [Reading(volume, units)]
      ensures !IsCommand(msg, "shutdown") && !IsCommand(msg, "update") && msg.typ == "update" && msg.body == "mash volume" ==>
        Latches.Latch(startVolume, volume)
          == Latches.AfterMashVolume(Latches.Latch(old(startVolume), old(volume)), msg.value.x)
        && out == old(out) + [Reading(volume, units)]
      ensures !IsCommand(msg, "shutdown") && !IsCommand(msg, "update") && !(msg.typ == "update" && msg.body == "mash volume") ==>
        startVolume == old(startVolume) && volume == old(volume) && out == old(out)
    {
      keepGoing := true;
      if IsCommand(msg, "shutdown") {
        keepGoing := false;
      } else if IsCommand(msg, "update") {
        out := out + [Reading(volume, units)];
      } else if msg.typ == "update" && msg.body == "mash volume" {
        if startVolume == 0.0 {
          startVolume := volume;
        }
        volume := startVolume - msg.value.x;
        out := out + [Reading(volume, units)];
      }
    }

    /**
     * One wait delivers: a high level sends the volume the gauge holds, a low
     * one 0, and Start clears the latch and stores what it received. An error
     * is only logged.
     */
    method SensorReading(p: Poll)
      requires 0 < waits
      modifies this`startVolume, this`volume, this`out, this`waits
      ensures waits == old(waits) - 1
      ensures p.PollError? ==>
        startVolume == old(startVolume) && volume == old(volume) && out == old(out)
      ensures p == Level(true) ==>
        startVolume == 0.0 && volume == old(volume) && out == old(out) + [Reading(old(volume), units)]
      ensures p == Level(false) ==>
        startVolume == 0.0 && volume == 0.0 && out == old(out) + [Reading(0.0, units)]
    {
      waits := waits - 1;
      if p.Level? {
        var val := if p.high then volume else 0.0;
        startVolume := 0.0;
        volume := val;
        out := out + [Reading(volume, units)];
      }
    }

    /**
     * Start's loop over the inputs it receives, in order: it takes inputs up
     * to and including the first "shutdown" command, and each pass leaves
     * one more wait behind unless a poll outcome used it up.
     */
    method Start(inputs: seq<Input>) returns (consumed: nat)
      requires forall j :: 0 <= j < |inputs| && inputs[j].Msg? && NoStopBefore(inputs, j) ==> Readable(inputs[j].msg)
      modifies this`startVolume, this`volume, this`out, this`waits
      ensures consumed <= |inputs|
      ensures forall j :: 0 <= j < consumed && Stops(inputs[j]) ==> j == consumed - 1
      ensures consumed < |inputs| ==> 0 < consumed && Stops(inputs[consumed - 1])
      ensures waits == old(waits) + consumed - SensorCount(inputs[..consumed])
      ensures old(out) <= out
    {
      consumed := 0;
      var keepGoing := true;
      while keepGoing && consumed < |inputs|
        invariant consumed <= |inputs|
        invariant forall j :: 0 <= j < consumed && Stops(inputs[j]) ==> j == consumed - 1
        invariant keepGoing <==> !(0 < consumed && Stops(inputs[consumed - 1]))
        invariant waits == old(waits) + consumed - SensorCount(inputs[..consumed])
        invariant old(out) <= out
        decreases |inputs| - consumed
      {
        assert NoStopBefore(inputs, consumed);
        waits := waits + 1;
        match inputs[consumed] {
          case Msg(msg) =>
            keepGoing := ReadMessage(msg);
          case Sensor(p) =>
            SensorReading(p);
        }
        assert inputs[..consumed + 1][..consumed] == inputs[..consumed];
        consumed := consumed + 1;
      }
    }
  }

  /**
   * NewHLT: the GPIO for the pin is opened first (`gpioOk` is whether that
   * worked); on success the pin's value is the starting volume. The value
   * must be a number, or Go's type assertion panics.
   */
  method NewHLT(pin: Latches.Pin, gpioOk: bool) returns (r: Result<Hlt, Latches.Error>)
    requires gpioOk ==> pin.value.Number?
    ensures r.Success? <==> gpioOk
    ensures r.Success? ==> fresh(r.value) && r.value.volume == pin.value.x && r.value.units == pin.units
    ensures r.Success? ==> r.value.startVolume == 0.0 && r.value.waits == 0 && r.value.out == []
  {
    if !gpioOk {
      return Failure(Latches.GpioError);
    }
    var h := new Hlt(pin.value.x, pin.units);
    return Success(h);
  }
}
