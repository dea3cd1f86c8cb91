# wovendrone command link — a Dafny model

wovendrone is a desktop app (Electron, Next.js) for flying a small UDP-controlled drone.
Its main process keeps one connection to the drone. It streams the current flight command
as a 16-byte packet every 50 ms and watches for silence with a watchdog. It reconnects
once after a loss and reports the connection state to its WebSocket clients. Two renderer
pages produce commands:

- the manual-control page turns held keys into stick positions, then into a command;
- the program page runs a list of timed steps.

Both normalise a command and drop repeats before sending it. The home page has a
Konami-code shortcut, and a small badge shows the version and build number.

The model has eight modules:

- `Protocol` (`protocol.dfy`): the command record, its equality, and `Option`.
- `Packet` (`packet.dfy`): the command-packet encoder as an array loop, the checksum, the
  thrust scaling and the two probe packets.
- `CommandLink` (`link_spec.dfy`): the main process's module-level state as a value
  `LinkState`. Each callback of the process is one transition function. On top of these
  sit an event relation (`Enabled`, `Next`, `Run`), the link invariant `Valid` proved for
  every run, and the behaviours the code has.
- `LinkServer` (`link_server.dfy`): the same state as the class `DroneLink`, whose fields
  the callbacks update in place. Each callback is a method proved to move the object
  exactly as the matching `CommandLink` transition does, keeping `Valid`.
- `FlightProgram` (`program.dfy`): the default steps, the initial program, the add,
  remove and update edits, and the program page's command normalisation and sender.
- `ManualControl` (`manual_control.dfy`): the stick-to-command mappings, one animation
  frame of the stick update, and the manual page's sender with its stop and flush rule.
- `Konami` (`konami.dfy`): the ten-key sliding window and its case-insensitive match.
- `BuildInfo` (`build_info.dfy`): the version fallback, `split('.')`, the build number
  and the shown version.

Time, the network and the platform are inputs rather than effects:

- Every callback receives the current time `now`, read once per callback.
- A UDP send that throws synchronously is `Dispatch.Threw`; otherwise it is
  `Dispatch.Queued`.
- The callback's outcome is `Completion` (`Delivered`, `Unreachable` for `ENETUNREACH`,
  or `OtherError`). For a probe it is a boolean.
- `Buffer.writeFloatLE` is a parameter `f32` of type `Float32LE`: any function that
  gives four bytes per number.
- Sends and probes that were dispatched but whose callback has not run are kept in
  `pendingSends` and `pendingProbes`. Scheduled reconnect retries are kept in
  `retryTimers`. `outbox` records every `connection_status` message sent to clients.

Some behaviours of the code are easy to miss, and each is stated as a lemma:

- A reconnect retry scheduled by the watchdog is never cancelled. A `disconnect` that
  arrives before the retry fires is undone when the retry's probe succeeds
  (`CommandLink.RetrySurvivesDisconnect`).
- A `flush` command clears the in-flight guard. A second packet can therefore be on the
  wire while the first has not completed (`CommandLink.FlushOverlapsInFlightSend`).
- A flush does not bypass the connected check or the 25 ms gap since the last
  successful send (`CommandLink.FlushRespectsGap`).
- The gap is measured from the last successful send, not the last attempt. A tick right
  after a failed attempt may dispatch again (`CommandLink.GapFromLastSuccess`).
- After a success, `lastSentCommand` is the command current when the callback runs.
  That need not be the command the packet was built from
  (`CommandLink.LastSentIsCurrentCommand`).
- The 16-byte retry probe is itself a valid command packet: the neutral command's packet
  (`Packet.RetryProbeIsNeutralCommand`).

## Model

| member | source | states |
|---|---|---|
| Protocol.CommandsEqual | main/background.ts:30-35 | true exactly when the two commands agree on thrust, roll, pitch and yaw |
| Packet.ThrustScaled | main/background.ts:163 | the wire thrust is within [0, 65535]; 0 for thrust at or below 0, 65535 at or above 100; in between it is the floor of thrust/100·65535 |
| Packet.U16LE | main/background.ts:168 | two bytes, low byte first, that decode back to the value |
| Packet.CommandPacket | main/background.ts:160-174 | 16 bytes: header 0x30, roll, pitch and yaw as four bytes each at offsets 1, 5 and 9, the scaled thrust at 13–14, and a checksum that makes the packet well-formed |
| Packet.WriteAt | main/background.ts:165-168 | the buffer afterwards is the old buffer with the bytes written at the offset and nothing else changed |
| Packet.EncodeCommand | main/background.ts:160-174 | the buffer filled field by field, with the checksum loop over bytes 0–14, is exactly the command packet |
| Packet.ProbePacket | main/background.ts:95 | a probe is the header, zeros, and a trailing 0x30 |
| Packet.ConnectProbe | main/background.ts:286 | the connect probe has 14 bytes and is not a well-formed command packet |
| Packet.RetryProbe | main/background.ts:95 | the retry probe has 16 bytes |
| Packet.Sum | main/background.ts:170-173 | over bytes, the checksum accumulator lies between 0 and 255 times the number of bytes |
| Packet.Checksum | main/background.ts:174 | the checksum byte is the one byte congruent to the accumulator modulo 256, as its low eight bits |
| Packet.SumUpdate | main/background.ts:170-173 | replacing one byte changes the checksum accumulator by exactly the difference of the two bytes |
| Packet.SingleByteCorruptionDetected | main/background.ts:170-174 | changing any single one of the fifteen checksummed bytes changes the checksum byte |
| Packet.ThrustHalfScale | main/background.ts:163-168 | thrust 50 goes on the wire as 0xFF, 0x7F |
| Packet.ThrustRecovered | main/background.ts:163-168 | decoding the thrust field and rescaling gives the thrust back to within 100/65535 percent, never above it |
| Packet.RetryProbeIsNeutralCommand | main/background.ts:95 | when 0.0 is written as four zero bytes, the retry probe equals the neutral command's packet and so is well-formed |
| CommandLink.Initial | main/background.ts:37-45 | at start-up: not connected, no stream, not sending, neutral current and last-sent command, both send clocks at now, no watchdog, fallback or retry timer, and no pending send, probe or outgoing status |
| CommandLink.RemoveAt | main/background.ts:177 | the pending entry whose callback runs is removed; the others keep their order |
| CommandLink.ResetWatchdog | main/background.ts:55-60 | any pending watchdog check is replaced by one due in 1000 ms; nothing else changes |
| CommandLink.StartCommandInterval | main/background.ts:223-244 | the stream runs, both send clocks restart at now, the watchdog is due 1000 ms later, the guard and its fallback timer are cleared; connection, commands and pending work unchanged |
| CommandLink.StopCommandInterval | main/background.ts:246-268 | stream, watchdog and send timeout are cancelled and the guard cleared; everything else unchanged |
| CommandLink.Broadcast | main/background.ts:80-88 | one connection_status to every open client is appended; nothing else changes |
| CommandLink.Reply | main/background.ts:290 | one connection_status to the requesting client is appended; nothing else changes |
| CommandLink.ClearGuard | main/background.ts:132-136 | the in-flight guard is cleared and its fallback timer cancelled; nothing else changes |
| CommandLink.LinkDown | main/background.ts:76-88 | the link is down, the stream, watchdog and guard are cancelled, and every client gets one false status with the given reason; commands, both send times, retries and pending work are kept |
| CommandLink.LinkUp | main/background.ts:100-101 | the link is up and streaming with the watchdog due 1000 ms later, the guard and its fallback timer cleared, both send clocks at now; the command and pending work are kept |
| CommandLink.BeginSend | main/background.ts:146-158 | a send attempt sets the guard, arms the 500 ms fallback, records the attempt time and re-arms the watchdog; nothing else changes |
| CommandLink.Transmit | main/background.ts:146-220 | the attempt time is now and the watchdog is re-armed whatever the socket does; a queued send appends the packet of the current command behind a set guard, a throwing send leaves the guard clear and nothing queued; nothing else changes |
| CommandLink.SendLastCommand | main/background.ts:124-221 | disconnected, or a send in flight for at most 500 ms: no change; a stuck send is forgotten; within 25 ms of the last success nothing is sent; otherwise the attempt is marked, the watchdog re-armed, and the packet of the current command queued with a 500 ms fallback (or the guard cleared if the send throws) |
| CommandLink.CompleteSend | main/background.ts:177-211 | the guard is always cleared; success records the dispatch time and the current command and re-arms the watchdog, keeping the connection, the stream and the attempt time; unreachable disconnects, stops the stream and tells every client, with no retry, keeping both send times and the last-sent command; other errors change nothing else |
| CommandLink.SendTimeoutFires | main/background.ts:151-155 | the fallback clears only the guard and its timer |
| CommandLink.WatchdogFires | main/background.ts:60-119 | without 2000 ms of silence nothing changes but the expired check; with it the guard is cleared, and if connected the link goes down, the stream, watchdog and fallback are cancelled, every client is told the connection was lost and exactly one retry is scheduled 1000 ms later, both send times kept; the command is never changed |
| CommandLink.RetryFires | main/background.ts:91-117 | the retry expires; only while still disconnected does it queue a probe, whose bytes are the 16-byte retry probe |
| CommandLink.CompleteProbe | main/background.ts:97-112 | a successful probe connects and starts the stream with both clocks at now, the guard and fallback clear and the watchdog due 1000 ms later; a connect probe resets the command to neutral and answers its client, a retry probe keeps the command and tells every client; a failed probe only answers a connect request |
| CommandLink.ClientConnects | main/background.ts:274-276 | a new client is told the current connection state; nothing else changes |
| CommandLink.HandleMessage | main/background.ts:278-340 | connect queues a probe whose bytes are the 14-byte connect probe (or answers false if the send throws); a normal command replaces the current command only; a flush command clears the guard, replaces the command and makes exactly the send attempt of a tick with a clear guard, keeping connection, stream, retries, probes and statuses; disconnect goes down, stops the stream and fallback, resets the command and answers false, keeping both send times and the pending work; anything malformed changes nothing; no message records a command as sent or takes back a status |
| CommandLink.SocketError | main/background.ts:353-362 | a socket error disconnects, stops the stream, cancels the watchdog, guard and fallback, and tells every client; commands, both send times, scheduled retries and pending sends and probes are kept |
| CommandLink.InitialValid | main/background.ts:37-49 | the start-up state satisfies the link invariant |
| CommandLink.SendLastCommandValid | main/background.ts:124-221 | a send attempt keeps the link invariant |
| CommandLink.CompleteSendValid | main/background.ts:177-211 | a send callback keeps the link invariant |
| CommandLink.WatchdogFiresValid | main/background.ts:60-119 | the watchdog check keeps the link invariant |
| CommandLink.CompleteProbeValid | main/background.ts:97-112 | a probe callback keeps the link invariant |
| CommandLink.HandleMessageValid | main/background.ts:278-340 | every WebSocket message keeps the link invariant |
| CommandLink.Next | main/background.ts:55-362 | one callback, enabled only when it can run (a timer once pending and due, a callback for a pending send or probe, a tick while the interval is set): status messages already sent are never taken back, only a client message or a connect probe changes the flown command, and only a send callback changes the command recorded as sent |
| CommandLink.Run | main/background.ts:55-362 | a run of callbacks from a state only ever appends status messages; the empty run changes nothing |
| CommandLink.NextValid | main/background.ts:55-362 | every callback keeps the link invariant `Valid`: the stream runs exactly while connected, the guard and its timer go together, are due 500 ms after the attempt and have a send behind them, every queued packet is a well-formed command packet, and every queued probe carries the literal bytes of its purpose |
| CommandLink.RunValid | main/background.ts:55-362 | every state reachable by any sequence of callbacks satisfies the invariant |
| CommandLink.RemoveLast | main/background.ts:287 | the callback of the newest pending entry removes exactly that entry |
| CommandLink.StopIdempotent | main/background.ts:246-268 | stopping the stream twice is the same as stopping it once |
| CommandLink.ConnectProbeFails | main/background.ts:284-290 | a failed connect answers only the requesting client with false and changes nothing else |
| CommandLink.ConnectProbeSucceeds | main/background.ts:284-297 | a successful connect leaves the link up, streaming the neutral command, with the client told true, and keeps the invariant |
| CommandLink.UnreachableIsFinal | main/background.ts:189-201 | an unreachable destination disconnects at once, cancels stream, watchdog and timeout, sends one false status, and schedules no retry |
| CommandLink.WatchdogSchedulesOneRetry | main/background.ts:63-117 | a silent connected link gets exactly one retry 1000 ms later, and neither the watchdog nor the stream can fire again |
| CommandLink.RetryReconnects | main/background.ts:91-108 | a retry whose probe succeeds reconnects, restarts the stream and the watchdog, tells every client, and keeps the command being flown |
| CommandLink.RetrySkippedWhenConnected | main/background.ts:92 | a retry that finds the link up only expires |
| CommandLink.RetrySurvivesDisconnect | main/background.ts:91-117 | a disconnect does not cancel a pending retry, and the retry's successful probe reconnects and restarts the stream |
| CommandLink.FlushOverlapsInFlightSend | main/background.ts:308-320 | while a send is in flight a periodic tick sends nothing, but a flush queues a second packet |
| CommandLink.FlushRespectsGap | main/background.ts:143-144 | a flush while disconnected or within 25 ms of the last success keeps the new command but sends nothing |
| CommandLink.GapFromLastSuccess | main/background.ts:143-205 | after a failed attempt the last success time is unchanged, so the next tick may dispatch 1 ms later |
| CommandLink.SendTimeoutNotEarly | main/background.ts:147-155 | the stuck-send fallback is not due before 500 ms after the attempt that set the guard |
| CommandLink.RetryProbeOnWireIsNeutral | main/background.ts:91-97 | when 0.0 is written as four zero bytes, the probe a retry queues is the neutral command's packet |
| CommandLink.LastSentIsCurrentCommand | main/background.ts:205-206 | a success records the command current at completion, even when the packet carried an earlier one |
| LinkServer.DroneLink.constructor | main/background.ts:37-45 | the object starts in the start-up state and satisfies the invariant |
| LinkServer.DroneLink.ResetWatchdog | main/background.ts:55-121 | the object moves exactly as CommandLink.ResetWatchdog |
| LinkServer.DroneLink.Broadcast | main/background.ts:80-88 | the object moves exactly as CommandLink.Broadcast |
| LinkServer.DroneLink.Reply | main/background.ts:290 | the object moves exactly as CommandLink.Reply |
| LinkServer.DroneLink.ClearGuard | main/background.ts:132-136 | the object moves exactly as CommandLink.ClearGuard |
| LinkServer.DroneLink.LinkUp | main/background.ts:100-101 | the object moves exactly as CommandLink.LinkUp |
| LinkServer.DroneLink.LinkDown | main/background.ts:76-88 | the object moves exactly as CommandLink.LinkDown |
| LinkServer.DroneLink.StartCommandInterval | main/background.ts:223-244 | the object moves exactly as CommandLink.StartCommandInterval |
| LinkServer.DroneLink.StopCommandInterval | main/background.ts:246-268 | the object moves exactly as CommandLink.StopCommandInterval |
| LinkServer.DroneLink.BeginSend | main/background.ts:146-158 | the object moves exactly as CommandLink.BeginSend |
| LinkServer.DroneLink.Transmit | main/background.ts:146-220 | the object moves exactly as CommandLink.Transmit, building the packet with the buffer encoder |
| LinkServer.DroneLink.SendLastCommand | main/background.ts:124-221 | the object moves exactly as CommandLink.SendLastCommand |
| LinkServer.DroneLink.OnCommandInterval | main/background.ts:231 | a tick moves the object as the tick event of the link and keeps the invariant |
| LinkServer.DroneLink.OnSendComplete | main/background.ts:177-211 | a send callback moves the object as its event and keeps the invariant |
| LinkServer.DroneLink.OnSendTimeout | main/background.ts:151-155 | the fallback timer, once due, moves the object as its event and keeps the invariant |
| LinkServer.DroneLink.OnWatchdog | main/background.ts:60-120 | the watchdog check moves the object as its event and keeps the invariant |
| LinkServer.DroneLink.OnRetry | main/background.ts:91-117 | a retry, once due, builds the 16-byte probe, moves the object as its event and keeps the invariant |
| LinkServer.DroneLink.OnProbeComplete | main/background.ts:97-112 | a probe callback moves the object as its event and keeps the invariant |
| LinkServer.DroneLink.OnClientConnected | main/background.ts:274-276 | a new client moves the object as its event and keeps the invariant |
| LinkServer.DroneLink.HandleConnect | main/background.ts:284-303 | a connect request builds the 14-byte probe and moves the object exactly as CommandLink.HandleMessage does for it |
| LinkServer.DroneLink.HandleCommand | main/background.ts:305-324 | a command message carrying an object moves the object exactly as CommandLink.HandleMessage does for it |
| LinkServer.DroneLink.HandleDisconnect | main/background.ts:330-335 | a disconnect request moves the object exactly as CommandLink.HandleMessage does for it |
| LinkServer.DroneLink.OnMessage | main/background.ts:278-340 | a WebSocket message moves the object as its event and keeps the invariant |
| LinkServer.DroneLink.OnSocketError | main/background.ts:353-362 | a socket error moves the object as its event and keeps the invariant |
| FlightProgram.InitialProgram | renderer/pages/program.tsx:90-93 | the page starts with two steps, Take Off and Land, the first and last default steps |
| FlightProgram.AddCommand | renderer/pages/program.tsx:359-366 | the new step goes in just before the last step, the others keep their places; on an empty program it is the only step |
| FlightProgram.RemoveCommand | renderer/pages/program.tsx:368-374 | a special step is never removed; any other step at the index is dropped and the rest keep their order |
| FlightProgram.Merge | renderer/pages/program.tsx:379 | each field the update sets wins and every other field of the step is kept |
| FlightProgram.UpdateCommand | renderer/pages/program.tsx:376-382 | only the step at the index changes, to the update merged over it |
| FlightProgram.EditKeepsFrame | renderer/pages/program.tsx:359-382 | one add, remove or update that leaves names and special flags alone keeps Take Off first and Land last |
| FlightProgram.EditsKeepFrame | renderer/pages/program.tsx:359-382 | any sequence of such edits keeps Take Off first and Land last |
| FlightProgram.InitialProgramStaysFramed | renderer/pages/program.tsx:90-93 | the initial program stays framed by Take Off and Land under any sequence of such edits |
| FlightProgram.RoundToThreshold | renderer/pages/program.tsx:165-172 | the value is kept or becomes 0, and it becomes 0 exactly when its magnitude is below 1 |
| FlightProgram.Normalise | renderer/pages/program.tsx:177-193 | thrust below 1 becomes 0, otherwise it is capped at 100; each angle below 5 in magnitude becomes 0 and is kept otherwise |
| FlightProgram.NormaliseIdempotent | renderer/pages/program.tsx:177-193 | normalising a normalised command changes nothing |
| FlightProgram.ProgramSender.constructor | renderer/pages/program.tsx:102-107 | the page starts with nothing sent and the neutral command remembered |
| FlightProgram.ProgramSender.SendControlCommand | renderer/pages/program.tsx:175-215 | a normalised command equal to the last one is dropped and false returned; any other is remembered, sent only when the socket is open, and true returned exactly then |
| ManualControl.RoundToThreshold | renderer/components/DroneControl.tsx:85-87 | a value becomes 0 exactly when its magnitude is below 0.01 and is kept otherwise |
| ManualControl.CalculateThrust | renderer/components/DroneControl.tsx:61-65 | the thrust percent is within [0, 100]: the stick times 100 above the threshold and up to a full stick, 100 beyond it, 0 near or below zero |
| ManualControl.CalculateRoll | renderer/components/DroneControl.tsx:67-71 | roll degrees are the stick times 30, or 0 exactly when that is below 0.01 in magnitude; within ±30 for an in-range stick |
| ManualControl.CalculatePitch | renderer/components/DroneControl.tsx:73-77 | pitch degrees are the stick times 30, or 0 exactly when that is below 0.01 in magnitude; within ±30 for an in-range stick |
| ManualControl.CalculateYaw | renderer/components/DroneControl.tsx:79-83 | yaw rate is the stick times 200, or 0 exactly when that is below 0.01 in magnitude; within ±200 for an in-range stick |
| ManualControl.ControlCommand | renderer/components/DroneControl.tsx:266-277 | in-range sticks give a command within the documented ranges, and centred sticks give the neutral command |
| ManualControl.Rounded | renderer/components/DroneControl.tsx:91-96 | each field becomes 0 exactly when its magnitude is below 0.01 and is kept otherwise |
| ManualControl.IsStop | renderer/components/DroneControl.tsx:99-102 | a command is a stop exactly when it is the neutral command |
| ManualControl.SendDecision | renderer/components/DroneControl.tsx:89-127 | a command is sent exactly when it is a stop or differs from the last one; stops and only stops are flushed and are the neutral command; thrust is clamped to [0, 100] (100 above, 0 below) and the angles are sent as rounded |
| ManualControl.ManualSender.constructor | renderer/components/DroneControl.tsx:130-135 | the page starts with nothing sent and the neutral command remembered |
| ManualControl.ManualSender.SendControlCommand | renderer/components/DroneControl.tsx:89-127 | remembers and, when the socket is open, writes exactly what the send decision says, and nothing otherwise; the remembered thrust stays within [0, 100] |
| ManualControl.StopAlwaysSent | renderer/components/DroneControl.tsx:96-107 | a stop is sent with flush every time, even right after the same stop |
| ManualControl.RepeatDropped | renderer/components/DroneControl.tsx:103-107 | a non-stop command equal to the last one sent is dropped |
| ManualControl.OverRangeThrustNeverDeduplicated | renderer/components/DroneControl.tsx:103-113 | a thrust above 100 is compared unclamped against the clamped value remembered, so it is sent again on every repeat |
| ManualControl.StickCommandsDeduplicated | renderer/components/DroneControl.tsx:266-277 | commands built from in-range sticks are deduplicated |
| ManualControl.StepUp | renderer/components/DroneControl.tsx:207 | from a stick in range, a step toward +1 never moves down and never passes 1 |
| ManualControl.StepDown | renderer/components/DroneControl.tsx:219 | from a stick in range, a step toward -1 never moves up and never passes -1 |
| ManualControl.Decay | renderer/components/DroneControl.tsx:212-213 | a released stick becomes exactly 95% of itself, or 0 when that is below 0.01 in magnitude; so it never grows and a non-negative stick stays non-negative |
| ManualControl.ThrustChannel | renderer/components/DroneControl.tsx:203-214 | the thrust stick stays within [0, 1] |
| ManualControl.CentredChannel | renderer/components/DroneControl.tsx:217-253 | a centred stick stays within [-1, 1] |
| ManualControl.UpdateControls | renderer/components/DroneControl.tsx:199-256 | one frame keeps every stick within range |
| ManualControl.KeyPrecedence | renderer/components/DroneControl.tsx:203-253 | each channel reads only its own two keys, and of a held pair the first key wins |
| ManualControl.HeldKeyApproaches | renderer/components/DroneControl.tsx:203-250 | each of `w`, `a`, `d` and the four arrow keys, when it decides its channel, closes the gap to its end of the range by 5% per frame; `s` shrinks thrust by 5% |
| ManualControl.ReleasedChannelDecays | renderer/components/DroneControl.tsx:210-252 | every released channel becomes exactly 95% of itself per frame and snaps to exactly 0 below the threshold |
| Konami.ToLower | renderer/pages/home.tsx:25 | the lower-cased string has the same length with each ASCII letter lower-cased |
| Konami.LastN | renderer/pages/home.tsx:17-19 | the last n keys, or all of them when there are fewer |
| Konami.PushKey | renderer/pages/home.tsx:15-20 | from a window of at most ten keys, the new window is the last ten keys including this one, ending with it |
| Konami.HandleKeyDown | renderer/pages/home.tsx:14-28 | the window is updated by PushKey, and the page navigates exactly when the new window holds ten keys matching the code up to case |
| Konami.WindowIsLastKeys | renderer/pages/home.tsx:14-22 | after any sequence of keys from an empty window, the window holds the last ten keys (or all, if fewer) in order |
| Konami.LastTenMatch | renderer/pages/home.tsx:24-25 | the window matches exactly when the key history ends with the code |
| Konami.NavigatesExactlyOnCode | renderer/pages/home.tsx:11-28 | a key press navigates exactly when it completes the code as the last ten keys pressed, up to case |
| Konami.UpperCaseLettersMatch | renderer/pages/home.tsx:25 | the code ending in upper-case B, A also matches |
| BuildInfo.EffectiveVersion | renderer/components/BuildInfo.tsx:10 | the package version when it is a non-empty string, `0.1.1` otherwise; never empty |
| BuildInfo.Split | renderer/components/BuildInfo.tsx:13 | at least one part, no part contains a dot, and joining the parts with dots gives the string back |
| BuildInfo.SplitAfterPiece | renderer/components/BuildInfo.tsx:13 | a dot-free piece, a dot and a rest split into that piece followed by the rest's parts |
| BuildInfo.SplitWithoutDot | renderer/components/BuildInfo.tsx:13 | a string without dots splits into itself |
| BuildInfo.Join | renderer/components/BuildInfo.tsx:17 | the first part starts the joined string and is followed by a dot when there are more parts |
| BuildInfo.BuildNumber | renderer/components/BuildInfo.tsx:13 | the build number is never empty and has no dot |
| BuildInfo.FewerThanThree | renderer/components/BuildInfo.tsx:13 | a version of one or two components has build `1` |
| BuildInfo.MoreThanThree | renderer/components/BuildInfo.tsx:13 | with four or more components the build number is still the third, or `1` when it is empty |
| BuildInfo.DisplayVersion | renderer/components/BuildInfo.tsx:17 | the shown version is a prefix of the version that splits back into its first two components, and the whole version when it has at most one dot |
| BuildInfo.ThreeComponents | renderer/components/BuildInfo.tsx:13-17 | `M.m.b` shows as `M.m` with build `b`, or build `1` when `b` is empty |
| BuildInfo.DefaultVersionDisplay | renderer/components/BuildInfo.tsx:10-17 | with no package version the badge shows `0.1` and build `1` |

## Left out

- The IEEE 754 binary32 encoding of `writeFloatLE` is a parameter (`Float32LE`), and JavaScript numbers are reals, so floating-point rounding and NaN are not modelled.
- Packet.RetryProbeIsNeutralCommand: assumes of the parameter what binary32 gives for +0.0, four zero bytes.
- Sockets, the WebSocket server, the Electron window, the IPC handler and the app lifecycle (main/background.ts:1-20, 344-351, 364-393) are outside the model. Only their effects on the link state and the status messages are kept. The bind callback, which logs and enables broadcast on the socket, and the handler that logs incoming UDP datagrams do not touch the link state.
- The exact timing of the 50 ms interval is not modelled. A tick may happen at any time while the interval is set. The watchdog, the stuck-send fallback and the reconnect retry fire only once due, in any order among those due. Successive callbacks are not required to read increasing times, so the invariant is proved for a superset of the runs the event loop produces. `Date.now()` is an input read once per callback; the source reads it more than once within `sendLastCommand` and `startCommandInterval`.
- Which WebSocket clients are open is not modelled: a broadcast is one `EveryOpenClient` status message.
- CommandLink.HandleMessage: a `command` payload that is an object is taken to hold four numeric fields. The source also stores any other truthy object (an array, an object with missing or non-numeric fields) as the current command and, in flush mode, sends it with NaN fields on the wire; such payloads are outside the model. `NotAnObject` stands only for a missing or non-object payload, and `Unparsable` for a `JSON.parse` error.
- FlightProgram.RemoveCommand: requires an index inside the program. The source reads `prev[index].isSpecial` and throws on a missing step; the page only calls it with the index of a rendered step.
- FlightProgram.UpdateCommand: requires an index inside the program. The source would extend the array with a partial step; the page only calls it with the index of a rendered step.
- The program page's run loop, step timer and connection handling (renderer/pages/program.tsx:218-357) and all JSX rendering are not part of this model.
- The manual page's WebSocket connection, key listeners and `requestAnimationFrame` scheduling are not part of this model. `UpdateControls` is one frame over a given set of held keys, and `socketOpen` stands for the socket's ready state.
- Konami.ToLower: lower-cases ASCII letters only, where JavaScript's `toLowerCase` also folds other Unicode letters.
- Konami.HandleKeyDown: React re-registers the handler on every window change, so each key sees the latest window; stale closures are not modelled.
- renderer/pages/debug.tsx, renderer/components/ProgrammingBlocks.tsx, scripts/increment-build.js and the static pages are not part of this model.
