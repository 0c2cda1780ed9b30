/**
 * The message envelope of the gadget framework that carries events between
 * the valves, pumps and volume gauges. Only the fields the volume code reads
 * or writes are kept; the UUID, the timestamp and the Info block are dropped.
 */
module Gadgets {

  /** The dynamic payload of a message: Go's `interface{}` inside gogadgets.Value. */
  datatype Value = Flag(on: bool) | Number(x: real) | Blank

  datatype Message = Message(
    sender: string,
    location: string,
    name: string,
    typ: string,
    body: string,
    value: Value,
    units: string)

  /** The `gogadgets.Value` that the older input devices send on their output channel. */
  datatype Reading = Reading(value: real, units: string)

  /** What one `Wait()` on a float switch's poller gives: the pin's level, or an error. */
  datatype Poll = Level(high: bool) | PollError

  /** `msg.Type == "command" && msg.Body == body` */
  predicate IsCommand(msg: Message, body: string) {
    msg.typ == "command" && msg.body == body
  }

  /**
   * `msg.Type == "update" && msg.Sender == sender && msg.Value.Value == on`: in Go
   * the comparison of an interface with a boolean holds only for a boolean payload.
   */
  predicate IsSwitch(msg: Message, sender: string, on: bool) {
    msg.typ == "update" && msg.sender == sender && msg.value == Flag(on)
  }

  /** `msg.Type == "update" && msg.Sender == sender` */
  predicate IsUpdateFrom(msg: Message, sender: string) {
    msg.typ == "update" && msg.sender == sender
  }

  /** A status message of type "update" that carries a number. */
  function Update(sender: string, location: string, name: string, x: real, units: string): Message {
    Message(sender, location, name, "update", "", Number(x), units)
  }
}
