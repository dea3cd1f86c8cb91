/** The manual-control page: stick values in [-1, 1] (thrust in [0, 1]) move one step per
    animation frame according to the pressed keys, are mapped to a command in degrees and
    percent, and are sent when they change; a command that is all zeros is a stop, always
    sent, and marked for the link's flush path. */
module ManualControl {
  import opened Protocol

  const CONTROL_STEP := 0.05
  const CONTROL_DECAY := 0.95
  const CONTROL_THRESHOLD := 0.01
  const MAX_CONTROL := 1.0
  const DEFAULT_PITCH_RATE := 30.0
  const DEFAULT_YAW_RATE := 200.0

  /** The page's `roundToThreshold`: magnitudes below CONTROL_THRESHOLD become 0. */
  function RoundToThreshold(v: real): (r: real)
    ensures r == 0.0 <==> Abs(v) < CONTROL_THRESHOLD
    ensures r != 0.0 ==> r == v
  {
    if Abs(v) < CONTROL_THRESHOLD then 0.0 else v
  }

  /** `calculateThrust`: stick to percent, nothing below zero, at most 100. */
  function CalculateThrust(control: real): (r: real)
    ensures 0.0 <= r <= 100.0
    ensures control * 100.0 < CONTROL_THRESHOLD ==> r == 0.0
    ensures control * 100.0 >= CONTROL_THRESHOLD && control <= 1.0 ==> r == control * 100.0
    ensures control >= 1.0 ==> r == 100.0
  {
    var thrust := if control > 0.0 then Min(control * 100.0, 100.0) else 0.0;
    if Abs(thrust) < CONTROL_THRESHOLD then 0.0 else thrust
  }

  /** `calculateRoll`: stick to degrees at DEFAULT_PITCH_RATE, snapped near 0. */
  function CalculateRoll(control: real): (r: real)
    ensures r == 0.0 <==> Abs(control * DEFAULT_PITCH_RATE) < CONTROL_THRESHOLD
    ensures r != 0.0 ==> r == control * DEFAULT_PITCH_RATE
    ensures -1.0 <= control <= 1.0 ==> -30.0 <= r <= 30.0
  {
    var roll := control * DEFAULT_PITCH_RATE;
    if Abs(roll) < CONTROL_THRESHOLD then 0.0 else roll
  }

  /** `calculatePitch`: the same mapping as roll. */
  function CalculatePitch(control: real): (r: real)
    ensures r == 0.0 <==> Abs(control * DEFAULT_PITCH_RATE) < CONTROL_THRESHOLD
    ensures r != 0.0 ==> r == control * DEFAULT_PITCH_RATE
    ensures -1.0 <= control <= 1.0 ==> -30.0 <= r <= 30.0
  {
    var pitch := control * DEFAULT_PITCH_RATE;
    if Abs(pitch) < CONTROL_THRESHOLD then 0.0 else pitch
  }

  /** `calculateYaw`: stick to degrees per second at DEFAULT_YAW_RATE, snapped near 0. */
  function CalculateYaw(control: real): (r: real)
    ensures r == 0.0 <==> Abs(control * DEFAULT_YAW_RATE) < CONTROL_THRESHOLD
    ensures r != 0.0 ==> r == control * DEFAULT_YAW_RATE
    ensures -1.0 <= control <= 1.0 ==> -200.0 <= r <= 200.0
  {
    var yaw := control * DEFAULT_YAW_RATE;
    if Abs(yaw) < CONTROL_THRESHOLD then 0.0 else yaw
  }

  /** The stick positions the page animates. */
  datatype ControlState = ControlState(thrust: real, yaw: real, pitch: real, roll: real)

  predicate InRange(s: ControlState)
  {
    0.0 <= s.thrust <= MAX_CONTROL
    && -MAX_CONTROL <= s.yaw <= MAX_CONTROL
    && -MAX_CONTROL <= s.pitch <= MAX_CONTROL
    && -MAX_CONTROL <= s.roll <= MAX_CONTROL
  }

  /** The command the page hands to `sendControlCommand` whenever the sticks move. */
  function ControlCommand(s: ControlState): (cmd: Command)
    ensures InRange(s) ==>
      && 0.0 <= cmd.thrust <= 100.0
      && -30.0 <= cmd.roll <= 30.0 && -30.0 <= cmd.pitch <= 30.0
      && -200.0 <= cmd.yaw <= 200.0
    ensures s == ControlState(0.0, 0.0, 0.0, 0.0) ==> cmd == ZeroCommand
  {
    Command(CalculateThrust(s.thrust), CalculateRoll(s.roll), CalculatePitch(s.pitch),
            CalculateYaw(s.yaw))
  }

  // ---------------------------------------------------------------------------
  // Sending

  /** The command after `roundToThreshold` on every field: each field is kept, or 0 when
      its magnitude is below CONTROL_THRESHOLD. */
  function Rounded(cmd: Command): (r: Command)
    ensures r.thrust == 0.0 <==> Abs(cmd.thrust) < CONTROL_THRESHOLD
    ensures r.roll == 0.0 <==> Abs(cmd.roll) < CONTROL_THRESHOLD
    ensures r.pitch == 0.0 <==> Abs(cmd.pitch) < CONTROL_THRESHOLD
    ensures r.yaw == 0.0 <==> Abs(cmd.yaw) < CONTROL_THRESHOLD
    ensures r.thrust != 0.0 ==> r.thrust == cmd.thrust
    ensures r.roll != 0.0 ==> r.roll == cmd.roll
    ensures r.pitch != 0.0 ==> r.pitch == cmd.pitch
    ensures r.yaw != 0.0 ==> r.yaw == cmd.yaw
  {
    Command(RoundToThreshold(cmd.thrust), RoundToThreshold(cmd.roll),
            RoundToThreshold(cmd.pitch), RoundToThreshold(cmd.yaw))
  }

  /** A stop: every field of the command is zero. */
  predicate IsStop(cmd: Command)
    ensures IsStop(cmd) <==> cmd == ZeroCommand
  {
    cmd.thrust == 0.0 && cmd.roll == 0.0 && cmd.pitch == 0.0 && cmd.yaw == 0.0
  }

  /** A `command` message as the page writes it. */
  datatype Outgoing = Outgoing(command: Command, mode: QueueMode)

  /** What `sendControlCommand` does with `command` when `last` was sent before: nothing,
      or the command to remember and send with its queue mode. */
  function SendDecision(last: Command, command: Command): (d: Option<Outgoing>)
    ensures var rc := Rounded(command);
            d.Some? <==> IsStop(rc) || rc != last
    ensures d.Some? ==> (d.value.mode == Flush <==> IsStop(Rounded(command)))
    ensures d.Some? && d.value.mode == Flush ==> d.value.command == ZeroCommand
    ensures d.Some? ==> 0.0 <= d.value.command.thrust <= 100.0
    ensures d.Some? && Rounded(command).thrust > 100.0 ==> d.value.command.thrust == 100.0
    ensures d.Some? && Rounded(command).thrust < 0.0 ==> d.value.command.thrust == 0.0
    ensures d.Some? ==> Rounded(command).thrust != d.value.command.thrust ==>
      Rounded(command).thrust < 0.0 || Rounded(command).thrust > 100.0
    ensures d.Some? ==> var c := d.value.command; var rc := Rounded(command);
      c.roll == rc.roll && c.pitch == rc.pitch && c.yaw == rc.yaw
  {
    var rc := Rounded(command);
    var isStop := IsStop(rc);
    if isStop || !CommandsEqual(rc, last) then
      Some(Outgoing(rc.(thrust := Max(0.0, Min(100.0, rc.thrust))), if isStop then Flush else Normal))
    else None
  }

  /** The page's sending side: the `lastSentValues` ref and the socket it writes to. */
  class ManualSender {
    var lastSentValues: Command
    /** The `command` messages written to the WebSocket, oldest first. */
    var sent: seq<Outgoing>

    constructor ()
      ensures lastSentValues == ZeroCommand && sent == []
    {
      lastSentValues := ZeroCommand;
      sent := [];
    }

    /** `sendControlCommand`. The remembered thrust stays within [0, 100]. */
    method SendControlCommand(command: Command, socketOpen: bool)
      modifies this
      ensures SendDecision(old(lastSentValues), command).None? ==>
        lastSentValues == old(lastSentValues) && sent == old(sent)
      ensures SendDecision(old(lastSentValues), command).Some? ==>
        var out := SendDecision(old(lastSentValues), command).value;
        lastSentValues == out.command && sent == old(sent) + (if socketOpen then [out] else [])
      ensures 0.0 <= old(lastSentValues.thrust) <= 100.0 ==> 0.0 <= lastSentValues.thrust <= 100.0
    {
      var roundedCommand := Rounded(command);
      var isStopCommand := IsStop(roundedCommand);
      if isStopCommand || !CommandsEqual(roundedCommand, lastSentValues) {
        roundedCommand := roundedCommand.(thrust := Max(0.0, Min(100.0, roundedCommand.thrust)));
        lastSentValues := roundedCommand;
        if socketOpen {
          sent := sent + [Outgoing(roundedCommand, if isStopCommand then Flush else Normal)];
        }
      }
    }
  }

  /** A stop is sent every time, even right after the same stop. */
  lemma StopAlwaysSent(last: Command, command: Command)
    requires IsStop(Rounded(command))
    ensures SendDecision(last, command) == Some(Outgoing(ZeroCommand, Flush))
  {
  }

  /** A non-stop command equal to the last one sent is dropped. */
  lemma RepeatDropped(command: Command)
    requires !IsStop(Rounded(command)) && 0.0 <= Rounded(command).thrust <= 100.0
    ensures SendDecision(Rounded(command), command) == None
  {
  }

  /** The change check compares the unclamped thrust with the clamped one remembered, so a
      command whose thrust is above 100 is sent again every time it is repeated. */
  lemma OverRangeThrustNeverDeduplicated(command: Command)
    requires Rounded(command).thrust > 100.0
    ensures var first := SendDecision(ZeroCommand, command);
            first.Some? && SendDecision(first.value.command, command).Some?
  {
  }

  /** Commands built from in-range sticks are never over range, so they are deduplicated. */
  lemma StickCommandsDeduplicated(s: ControlState)
    requires InRange(s) && !IsStop(Rounded(ControlCommand(s)))
    ensures SendDecision(Rounded(ControlCommand(s)), ControlCommand(s)) == None
  {
  }

  // ---------------------------------------------------------------------------
  // One animation frame of `updateControls`

  /** A step toward +MAX_CONTROL: the gap to the maximum shrinks by CONTROL_STEP. */
  function StepUp(v: real): (r: real)
    ensures -MAX_CONTROL <= v <= MAX_CONTROL ==> v <= r <= MAX_CONTROL
  {
    Min(v + CONTROL_STEP * (1.0 - v), MAX_CONTROL)
  }

  /** A step toward -MAX_CONTROL. */
  function StepDown(v: real): (r: real)
    ensures -MAX_CONTROL <= v <= MAX_CONTROL ==> -MAX_CONTROL <= r <= v
  {
    Max(v - CONTROL_STEP * (1.0 + v), -MAX_CONTROL)
  }

  /** With neither key of a channel held: decay toward 0, snapping to 0 near it. */
  function Decay(v: real): (r: real)
    ensures Abs(v * CONTROL_DECAY) >= CONTROL_THRESHOLD ==> r == v * CONTROL_DECAY
    ensures Abs(v * CONTROL_DECAY) < CONTROL_THRESHOLD ==> r == 0.0
    ensures Abs(r) <= CONTROL_DECAY * Abs(v)
    ensures 0.0 <= v ==> 0.0 <= r
  {
    var d := v * CONTROL_DECAY;
    if Abs(d) < CONTROL_THRESHOLD then 0.0 else d
  }

  /** The thrust channel: `w` raises it toward MAX_CONTROL, `s` lowers it by CONTROL_STEP of
      itself, otherwise it decays. */
  function ThrustChannel(v: real, raise: bool, lower: bool): (r: real)
    ensures 0.0 <= v <= MAX_CONTROL ==> 0.0 <= r <= MAX_CONTROL
  {
    if raise then StepUp(v)
    else if lower then Max(0.0, v - CONTROL_STEP * v)
    else Decay(v)
  }

  /** A centred channel: the first key moves it toward -MAX_CONTROL, the second toward
      +MAX_CONTROL, otherwise it decays. */
  function CentredChannel(v: real, negative: bool, positive: bool): (r: real)
    ensures -MAX_CONTROL <= v <= MAX_CONTROL ==> -MAX_CONTROL <= r <= MAX_CONTROL
  {
    if negative then StepDown(v)
    else if positive then StepUp(v)
    else Decay(v)
  }

  /** The `setControlState` updater: `w`/`s` for thrust, `a`/`d` for yaw, the up and down
      arrows for pitch, the left and right arrows for roll; the first key of a pair wins. */
  function UpdateControls(prev: ControlState, keys: set<string>): (next: ControlState)
    ensures InRange(prev) ==> InRange(next)
  {
    ControlState(
      ThrustChannel(prev.thrust, "w" in keys, "s" in keys),
      CentredChannel(prev.yaw, "a" in keys, "d" in keys),
      CentredChannel(prev.pitch, "ArrowUp" in keys, "ArrowDown" in keys),
      CentredChannel(prev.roll, "ArrowLeft" in keys, "ArrowRight" in keys))
  }

  /** Each channel reads only its own two keys, and of a held pair the first one wins. */
  lemma KeyPrecedence(prev: ControlState, keys: set<string>)
    ensures UpdateControls(prev, keys).thrust == UpdateControls(prev, keys * {"w", "s"}).thrust
    ensures UpdateControls(prev, keys).yaw == UpdateControls(prev, keys * {"a", "d"}).yaw
    ensures UpdateControls(prev, keys).pitch == UpdateControls(prev, keys * {"ArrowUp", "ArrowDown"}).pitch
    ensures UpdateControls(prev, keys).roll == UpdateControls(prev, keys * {"ArrowLeft", "ArrowRight"}).roll
    ensures "w" in keys ==> UpdateControls(prev, keys).thrust == UpdateControls(prev, {"w"}).thrust
    ensures "a" in keys ==> UpdateControls(prev, keys).yaw == UpdateControls(prev, {"a"}).yaw
    ensures "ArrowUp" in keys ==> UpdateControls(prev, keys).pitch == UpdateControls(prev, {"ArrowUp"}).pitch
    ensures "ArrowLeft" in keys ==> UpdateControls(prev, keys).roll == UpdateControls(prev, {"ArrowLeft"}).roll
  {
  }

  /** Holding a key closes the gap to its end of the range by CONTROL_STEP per frame. */
  lemma HeldKeyApproaches(prev: ControlState, keys: set<string>)
    requires InRange(prev)
    ensures "w" in keys ==>
      MAX_CONTROL - UpdateControls(prev, keys).thrust == CONTROL_DECAY * (MAX_CONTROL - prev.thrust)
    ensures "a" in keys ==>
      UpdateControls(prev, keys).yaw + MAX_CONTROL == CONTROL_DECAY * (prev.yaw + MAX_CONTROL)
    ensures "s" in keys && "w" !in keys ==>
      UpdateControls(prev, keys).thrust == CONTROL_DECAY * prev.thrust
    ensures "d" in keys && "a" !in keys ==>
      MAX_CONTROL - UpdateControls(prev, keys).yaw == CONTROL_DECAY * (MAX_CONTROL - prev.yaw)
    ensures "ArrowUp" in keys ==>
      UpdateControls(prev, keys).pitch + MAX_CONTROL == CONTROL_DECAY * (prev.pitch + MAX_CONTROL)
    ensures "ArrowDown" in keys && "ArrowUp" !in keys ==>
      MAX_CONTROL - UpdateControls(prev, keys).pitch == CONTROL_DECAY * (MAX_CONTROL - prev.pitch)
    ensures "ArrowLeft" in keys ==>
      UpdateControls(prev, keys).roll + MAX_CONTROL == CONTROL_DECAY * (prev.roll + MAX_CONTROL)
    ensures "ArrowRight" in keys && "ArrowLeft" !in keys ==>
      MAX_CONTROL - UpdateControls(prev, keys).roll == CONTROL_DECAY * (MAX_CONTROL - prev.roll)
  {
  }

  /** A released channel is multiplied by CONTROL_DECAY each frame and snaps to exactly 0
      once below the threshold. */
  lemma ReleasedChannelDecays(prev: ControlState)
    ensures var next := UpdateControls(prev, {});
            && Abs(next.thrust) <= CONTROL_DECAY * Abs(prev.thrust)
            && Abs(next.yaw) <= CONTROL_DECAY * Abs(prev.yaw)
            && Abs(next.pitch) <= CONTROL_DECAY * Abs(prev.pitch)
            && Abs(next.roll) <= CONTROL_DECAY * Abs(prev.roll)
            && (Abs(prev.thrust * CONTROL_DECAY) < CONTROL_THRESHOLD ==> next.thrust == 0.0)
            && (Abs(prev.yaw * CONTROL_DECAY) < CONTROL_THRESHOLD ==> next.yaw == 0.0)
            && (Abs(prev.pitch * CONTROL_DECAY) < CONTROL_THRESHOLD ==> next.pitch == 0.0)
            && (Abs(prev.roll * CONTROL_DECAY) < CONTROL_THRESHOLD ==> next.roll == 0.0)
            && (Abs(prev.thrust * CONTROL_DECAY) >= CONTROL_THRESHOLD ==> next.thrust == prev.thrust * CONTROL_DECAY)
            && (Abs(prev.yaw * CONTROL_DECAY) >= CONTROL_THRESHOLD ==> next.yaw == prev.yaw * CONTROL_DECAY)
            && (Abs(prev.pitch * CONTROL_DECAY) >= CONTROL_THRESHOLD ==> next.pitch == prev.pitch * CONTROL_DECAY)
            && (Abs(prev.roll * CONTROL_DECAY) >= CONTROL_THRESHOLD ==> next.roll == prev.roll * CONTROL_DECAY)
  {
  }
}
