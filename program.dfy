/** The flight-program page: the default step palette, the list edits the page makes on
    its program (insert before Land, remove unless special, merge an update into one
    step), and the normalisation and de-duplication applied before a step's command
    is sent to the link. */
module FlightProgram {
  import opened Protocol

  /** The `advanced` block of a step: a thrust and, for some steps, a pitch or a yaw. */
  datatype Advanced = Advanced(thrust: real, pitch: Option<real>, yaw: Option<real>)

  /** A `CommandConfig`. An absent `isSpecial` reads as false. */
  datatype Step = Step(name: string, duration: real, command: Command, isSpecial: bool,
                       advanced: Option<Advanced>)

  const DEFAULT_COMMANDS: seq<Step> := [
    Step("Take Off", 500.0, Command(75.0, 0.0, 0.0, 0.0), true, Some(Advanced(75.0, None, None))),
    Step("Move Forward", 1000.0, Command(60.0, 0.0, -10.0, 0.0), false, Some(Advanced(60.0, Some(-10.0), None))),
    Step("Move Backward", 1000.0, Command(60.0, 0.0, 10.0, 0.0), false, Some(Advanced(60.0, Some(10.0), None))),
    Step("Rotate Left", 1000.0, Command(60.0, 0.0, 0.0, -20.0), false, Some(Advanced(60.0, None, Some(-20.0)))),
    Step("Rotate Right", 1000.0, Command(60.0, 0.0, 0.0, 20.0), false, Some(Advanced(60.0, None, Some(20.0)))),
    Step("Land", 2000.0, Command(0.0, 0.0, 0.0, 0.0), true, None)
  ]

  predicate IsTakeOff(s: Step)
  {
    s.name == "Take Off" && s.isSpecial
  }

  predicate IsLand(s: Step)
  {
    s.name == "Land" && s.isSpecial
  }

  /** A program that starts with Take Off and ends with Land. */
  predicate Framed(p: seq<Step>)
  {
    |p| >= 2 && IsTakeOff(p[0]) && IsLand(p[|p| - 1])
  }

  /** The program the page starts with: the first and the last default step. */
  function InitialProgram(): (p: seq<Step>)
    ensures |p| == 2 && Framed(p)
    ensures p[0] == DEFAULT_COMMANDS[0] && p[1] == DEFAULT_COMMANDS[|DEFAULT_COMMANDS| - 1]
  {
    [DEFAULT_COMMANDS[0], DEFAULT_COMMANDS[|DEFAULT_COMMANDS| - 1]]
  }

  /** `addCommand`: a copy of `step` goes in just before the last step
      (`splice(length - 1, 0, step)`; on an empty program the index clamps to 0). */
  function AddCommand(p: seq<Step>, step: Step): (r: seq<Step>)
    ensures |r| == |p| + 1
    ensures |p| > 0 ==> r[|p| - 1] == step && r[|p|] == p[|p| - 1]
    ensures forall i :: 0 <= i < |p| - 1 ==> r[i] == p[i]
    ensures |p| == 0 ==> r == [step]
  {
    if |p| == 0 then [step] else p[..|p| - 1] + [step] + [p[|p| - 1]]
  }

  /** `removeCommand`: a special step stays; any other step at `index` is dropped and the
      rest keep their order. */
  function RemoveCommand(p: seq<Step>, index: nat): (r: seq<Step>)
    requires index < |p|
    ensures p[index].isSpecial ==> r == p
    ensures !p[index].isSpecial ==> |r| == |p| - 1
    ensures !p[index].isSpecial ==> forall i :: 0 <= i < index ==> r[i] == p[i]
    ensures !p[index].isSpecial ==> forall i :: index <= i < |r| ==> r[i] == p[i + 1]
    ensures multiset(r) <= multiset(p)
  {
    if p[index].isSpecial then p
    else
      assert p == p[..index] + [p[index]] + p[index + 1..];
      p[..index] + p[index + 1..]
  }

  /** A `Partial<CommandConfig>`: the fields the update sets. */
  datatype StepUpdate = StepUpdate(name: Option<string>, duration: Option<real>,
                                   command: Option<Command>, isSpecial: Option<bool>,
                                   advanced: Option<Advanced>)

  function Pick<T>(update: Option<T>, current: T): T
  {
    if update.Some? then update.value else current
  }

  /** `{ ...step, ...update }`: each field the update sets wins, the others are kept. */
  function Merge(s: Step, u: StepUpdate): (r: Step)
    ensures u.name.Some? ==> r.name == u.name.value
    ensures u.name.None? ==> r.name == s.name
    ensures u.duration.Some? ==> r.duration == u.duration.value
    ensures u.duration.None? ==> r.duration == s.duration
    ensures u.command.Some? ==> r.command == u.command.value
    ensures u.command.None? ==> r.command == s.command
    ensures u.isSpecial.Some? ==> r.isSpecial == u.isSpecial.value
    ensures u.isSpecial.None? ==> r.isSpecial == s.isSpecial
    ensures u.advanced.Some? ==> r.advanced == u.advanced
    ensures u.advanced.None? ==> r.advanced == s.advanced
  {
    Step(Pick(u.name, s.name), Pick(u.duration, s.duration), Pick(u.command, s.command),
         Pick(u.isSpecial, s.isSpecial), if u.advanced.Some? then u.advanced else s.advanced)
  }

  /** `updateCommand`: only the step at `index` changes, to the merge of the update over it. */
  function UpdateCommand(p: seq<Step>, index: nat, u: StepUpdate): (r: seq<Step>)
    requires index < |p|
    ensures |r| == |p| && r[index] == Merge(p[index], u)
    ensures forall i :: 0 <= i < |p| && i != index ==> r[i] == p[i]
  {
    p[index := Merge(p[index], u)]
  }

  /** One edit the page can make to its program. */
  datatype Edit = Add(step: Step) | Remove(index: nat) | Update(index: nat, update: StepUpdate)

  predicate Applicable(p: seq<Step>, e: Edit)
  {
    match e
    case Add(_) => true
    case Remove(i) => i < |p|
    case Update(i, _) => i < |p|
  }

  /** The edits the page's controls make: duration and advanced settings, never a name
      or the special flag. */
  predicate KeepsIdentity(e: Edit)
  {
    e.Update? ==> e.update.name.None? && e.update.isSpecial.None?
  }

  function ApplyEdit(p: seq<Step>, e: Edit): seq<Step>
    requires Applicable(p, e)
  {
    match e
    case Add(s) => AddCommand(p, s)
    case Remove(i) => RemoveCommand(p, i)
    case Update(i, u) => UpdateCommand(p, i, u)
  }

  /** The program after a sequence of edits, or None if one names a missing index. */
  function ApplyEdits(p: seq<Step>, edits: seq<Edit>): Option<seq<Step>>
    decreases |edits|
  {
    if edits == [] then Some(p)
    else if !Applicable(p, edits[0]) then None
    else ApplyEdits(ApplyEdit(p, edits[0]), edits[1..])
  }

  lemma EditKeepsFrame(p: seq<Step>, e: Edit)
    requires Framed(p) && Applicable(p, e) && KeepsIdentity(e)
    ensures Framed(ApplyEdit(p, e))
  {
  }

  /** Take Off stays first and Land stays last through any sequence of adds, removes and
      updates that leave names and special flags alone. */
  lemma {:induction false} EditsKeepFrame(p: seq<Step>, edits: seq<Edit>)
    requires Framed(p)
    requires forall i :: 0 <= i < |edits| ==> KeepsIdentity(edits[i])
    ensures ApplyEdits(p, edits).Some? ==> Framed(ApplyEdits(p, edits).value)
    decreases |edits|
  {
    if edits != [] && Applicable(p, edits[0]) {
      EditKeepsFrame(p, edits[0]);
      EditsKeepFrame(ApplyEdit(p, edits[0]), edits[1..]);
    }
  }

  lemma InitialProgramStaysFramed(edits: seq<Edit>)
    requires forall i :: 0 <= i < |edits| ==> KeepsIdentity(edits[i])
    ensures ApplyEdits(InitialProgram(), edits).Some? ==>
            Framed(ApplyEdits(InitialProgram(), edits).value)
  {
    EditsKeepFrame(InitialProgram(), edits);
  }

  // ---------------------------------------------------------------------------
  // Command normalisation before sending

  const CONTROL_THRESHOLD := 5.0

  /** The page's `roundToThreshold`: values within +-100 are read as thrust and snap to 0
      below 1; larger ones snap to 0 below CONTROL_THRESHOLD, which none of them is. */
  function RoundToThreshold(v: real): (r: real)
    ensures r == 0.0 || r == v
    ensures r == 0.0 <==> Abs(v) < 1.0
  {
    if Abs(v) <= 100.0 then (if Abs(v) < 1.0 then 0.0 else v)
    else if Abs(v) < CONTROL_THRESHOLD then 0.0 else v
  }

  /** The command `sendControlCommand` compares and sends: thrust below 1 and angles below
      5 in magnitude become 0, then thrust is clamped to [0, 100]. */
  function Normalise(cmd: Command): (r: Command)
    ensures r.thrust == 0.0 || 1.0 <= r.thrust <= 100.0
    ensures cmd.thrust < 1.0 ==> r.thrust == 0.0
    ensures cmd.thrust >= 1.0 ==> r.thrust == Min(cmd.thrust, 100.0)
    ensures Abs(cmd.roll) < CONTROL_THRESHOLD ==> r.roll == 0.0
    ensures Abs(cmd.roll) >= CONTROL_THRESHOLD ==> r.roll == cmd.roll
    ensures Abs(cmd.pitch) < CONTROL_THRESHOLD ==> r.pitch == 0.0
    ensures Abs(cmd.pitch) >= CONTROL_THRESHOLD ==> r.pitch == cmd.pitch
    ensures Abs(cmd.yaw) < CONTROL_THRESHOLD ==> r.yaw == 0.0
    ensures Abs(cmd.yaw) >= CONTROL_THRESHOLD ==> r.yaw == cmd.yaw
  {
    var processed := Command(
      if Abs(cmd.thrust) < 1.0 then 0.0 else cmd.thrust,
      if Abs(cmd.roll) < CONTROL_THRESHOLD then 0.0 else cmd.roll,
      if Abs(cmd.pitch) < CONTROL_THRESHOLD then 0.0 else cmd.pitch,
      if Abs(cmd.yaw) < CONTROL_THRESHOLD then 0.0 else cmd.yaw);
    var rounded := Command(
      RoundToThreshold(processed.thrust), RoundToThreshold(processed.roll),
      RoundToThreshold(processed.pitch), RoundToThreshold(processed.yaw));
    rounded.(thrust := Max(0.0, Min(100.0, rounded.thrust)))
  }

  /** Normalising twice changes nothing more. */
  lemma NormaliseIdempotent(cmd: Command)
    ensures Normalise(Normalise(cmd)) == Normalise(cmd)
  {
  }

  /** The page's sending side: the `lastSentValues` ref and the socket it writes to. */
  class ProgramSender {
    var lastSentValues: Command
    /** The commands written to the WebSocket, oldest first (all with queue mode `normal`). */
    var sent: seq<Command>

    constructor ()
      ensures lastSentValues == ZeroCommand && sent == []
    {
      lastSentValues := ZeroCommand;
      sent := [];
    }

    /** `sendControlCommand`: a normalised command equal to the last one is dropped; any
        other is remembered, even when the socket is closed, and written only when open. */
    method SendControlCommand(command: Command, socketOpen: bool) returns (result: bool)
      modifies this
      ensures Normalise(command) == old(lastSentValues) ==>
        !result && lastSentValues == old(lastSentValues) && sent == old(sent)
      ensures Normalise(command) != old(lastSentValues) ==>
        && lastSentValues == Normalise(command)
        && result == socketOpen
        && sent == old(sent) + (if socketOpen then [Normalise(command)] else [])
      ensures lastSentValues.thrust == old(lastSentValues.thrust) || 0.0 <= lastSentValues.thrust <= 100.0
    {
      var roundedCommand := Normalise(command);
      result := false;
      if !CommandsEqual(roundedCommand, lastSentValues) {
        lastSentValues := roundedCommand;
        if socketOpen {
          sent := sent + [roundedCommand];
          result := true;
        }
      }
    }
  }
}
