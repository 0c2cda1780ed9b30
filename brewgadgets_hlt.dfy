/**
 * The hot-liquor tank gauge of brewgadgets/hlt.go. A float switch says when
 * the tank is full; while the mash tun fills, the gauge subtracts the volume
 * the tun reports from the volume the hlt held when the fill began.
 *
 * The `wait` goroutine loops forever on the poller; `Poll` is one of its
 * iterations together with Start's select receiving what it sent.
 */
module BrewgadgetsHlt {
  import opened Wrappers
  import opened Gadgets

  /** The two numbers readMessage keeps: the latched start volume and the current volume. */
  datatype Latch = Latch(start: real, volume: real)

  /**
   * A "mash volume" report of `drained`: a zero start volume means that no
   * fill is under way, so the current volume is latched first; the new
   * volume is always measured from the latch.
   */
  function AfterMashVolume(l: Latch, drained: real): (r: Latch)
    ensures l.start != 0.0 ==> r.start == l.start
    ensures l.start == 0.0 ==> r.start == l.volume
    ensures r.volume + drained == r.start
  {
    var start := if l.start == 0.0 then l.volume else l.start;
    Latch(start, start - drained)
  }

  /**
   * Reports during one fill are absolute: once a non-zero volume is latched,
   * the latest report alone decides the volume, whatever came before it.
   */
  lemma LatchIsAbsolute(l: Latch, first: real, second: real)
    requires AfterMashVolume(l, first).start != 0.0
    ensures AfterMashVolume(AfterMashVolume(l, first), second) == AfterMashVolume(l, second)
  {
  }

  /**
   * Zero doubles as "no fill under way", so an hlt that reads 0 when the
   * tun starts filling latches nothing on the first report: the second
   * report is then measured from the first one's result, and the two add up.
   */
  lemma EmptyHltAccumulates()
    ensures AfterMashVolume(AfterMashVolume(Latch(0.0, 0.0), 1.0), 2.0) == Latch(-1.0, -3.0)
    ensures AfterMashVolume(Latch(0.0, 0.0), 2.0) == Latch(0.0, -2.0)
  {
  }

  /** pin.Value when the pin holds a number: what NewHLT would store as the full volume. */
  datatype Pin = Pin(value: Value, units: string)

  datatype Error = GpioError

  class Hlt {
    /** The volume of a full tank (the float switch's pin value). */
    const value: real
    const units: string
    var volume: real
    var startVolume: real
    /** Everything sent on the output channel, in order. */
    var out: seq<Reading>

    constructor (value: real, units: string)
      ensures this.value == value && this.units == units
      ensures volume == 0.0 && startVolume == 0.0 && out == []
    {
      this.value, this.units := value, units;
      volume, startVolume := 0.0, 0.0;
      out := [];
    }

    /** GetValue: the current volume in the gauge's units. */
    function GetValue(): (r: Reading)
      reads this`volume
      ensures r.value == volume && r.units == units
    {
      Reading(volume, units)
    }

    /** wait: a high level sends the full volume, a low one 0, an error is only logged. */
    function WaitSends(p: Poll): (r: Option<real>)
      ensures r.None? <==> p.PollError?
      ensures p == Level(true) ==> r == Some(value)
      ensures p == Level(false) ==> r == Some(0.0)
    {
      match p
      case Level(high) => if high then Some(value) else Some(0.0)
      case PollError => None
    }

    /** Start receiving a value: the latch is cleared and the value becomes the volume. */
    method Received(val: real)
      modifies this`startVolume, this`volume, this`out
      ensures startVolume == 0.0 && volume == val
      ensures out == old(out) + [Reading(val, units)]
    {
      startVolume := 0.0;
      volume := val;
      out := out + [GetValue()];
    }

    /** One poll of the float switch and Start's handling of its outcome. */
    method Poll(p: Poll)
      modifies this`startVolume, this`volume, this`out
      ensures p.PollError? ==>
        startVolume == old(startVolume) && volume == old(volume) && out == old(out)
      ensures p.Level? ==> startVolume == 0.0
      ensures p == Level(true) ==> volume == value && out == old(out) + [Reading(value, units)]
      ensures p == Level(false) ==> volume == 0.0 && out == old(out) + [Reading(0.0, units)]
    {
      var sent := WaitSends(p);
      if sent.Some? {
        Received(sent.value);
      }
    }

    /**
     * readMessage: only reports from "mash volume" are looked at, whatever
     * their type; they must carry a number, or Go's type assertion panics.
     */
    method ReadMessage(msg: Message)
      requires msg.sender == "mash volume" ==> msg.value.Number?
      modifies this`startVolume, this`volume, this`out
      ensures msg.sender == "mash volume" ==>
        Latch(startVolume, volume) == AfterMashVolume(Latch(old(startVolume), old(volume)), msg.value.x)
        && out == old(out) + [Reading(volume, units)]
      ensures msg.sender != "mash volume" ==>
        startVolume == old(startVolume) && volume == old(volume) && out == old(out)
    {
      if msg.sender == "mash volume" {
        if startVolume == 0.0 {
          startVolume := volume;
        }
        volume := startVolume - msg.value.x;
        out := out + [GetValue()];
      }
    }
  }

  /**
   * NewHLT: the GPIO for the pin is opened first (`gpioOk` is whether that
   * worked); on success the pin's value becomes the full volume. The pin's
   * value must be a number, or Go's type assertion panics.
   */
  method NewHLT(pin: Pin, gpioOk: bool) returns (r: Result<Hlt, Error>)
    requires gpioOk ==> pin.value.Number?
    ensures r.Success? <==> gpioOk
    ensures r.Success? ==> fresh(r.value) && r.value.value == pin.value.x && r.value.units == pin.units
    ensures r.Success? ==> r.value.volume == 0.0 && r.value.startVolume == 0.0 && r.value.out == []
  {
    if !gpioOk {
      return Failure(GpioError);
    }
    var h := new Hlt(pin.value.x, pin.units);
    return Success(h);
  }
}
