/** Types shared by the command link and the two control pages: the drone command
    record that every producer builds and the option type used for absent values. */
module Protocol {

  datatype Option<+T> = None | Some(value: T)

  /** A flight intent: thrust in percent, roll and pitch in degrees, yaw in degrees per second.
      The source's JavaScript numbers are modelled as reals. */
  datatype Command = Command(thrust: real, roll: real, pitch: real, yaw: real)

  /** The neutral command `{ thrust: 0, roll: 0, pitch: 0, yaw: 0 }`. */
  const ZeroCommand := Command(0.0, 0.0, 0.0, 0.0)

  /** `commandsEqual`: field-by-field strict equality of two commands. */
  function CommandsEqual(a: Command, b: Command): (r: bool)
    ensures r <==> a == b
  {
    a.thrust == b.thrust && a.roll == b.roll && a.pitch == b.pitch && a.yaw == b.yaw
  }

  /** The `queueMode` tag a client puts on a `command` message. */
  datatype QueueMode = Normal | Flush

  function Min(a: real, b: real): (r: real)
    ensures r <= a && r <= b && (r == a || r == b)
  {
    if a <= b then a else b
  }

  function Max(a: real, b: real): (r: real)
    ensures r >= a && r >= b && (r == a || r == b)
  {
    if a >= b then a else b
  }

  function Abs(x: real): (r: real)
    ensures r >= 0.0 && (r == x || r == -x)
  {
    if x < 0.0 then -x else x
  }
}
