/** The drone command link of the main process, as a state and one transition per
    event-loop callback: the rate-limited transmitter, the stuck-send fallback, the
    one-shot watchdog with its single reconnect retry, the client message dispatcher
    and the UDP socket error handler. Times are the millisecond clock readings the
    callbacks take; network outcomes are parameters. */
module CommandLink {
  import opened Protocol
  import opened Packet

  const MIN_SEND_INTERVAL_MS := 25
  const WATCHDOG_TIMEOUT_MS := 2000
  /** The watchdog checks at half its timeout. */
  const WATCHDOG_CHECK_MS := WATCHDOG_TIMEOUT_MS / 2
  const SEND_TIMEOUT_MS := 500
  const RETRY_DELAY_MS := 1000

  const LOST_MESSAGE := "Connection lost. Attempting to reconnect."
  const UNREACHABLE_MESSAGE := "Network unreachable. Drone IP not accessible."

  /** Who receives a `connection_status` message: the client that asked, or every open client. */
  datatype Recipient = Requester(client: nat) | EveryOpenClient

  /** A `{ type: 'connection_status', connected, error? }` message. */
  datatype Status = Status(to: Recipient, connected: bool, error: Option<string>)

  /** A probe whose send callback has not run yet, with the bytes it put on the wire. */
  datatype Probe = ForConnect(client: nat, packet: seq<Byte>) | ForRetry(packet: seq<Byte>)

  /** A command packet whose send callback has not run yet, with the time it was dispatched. */
  datatype Send = Send(at: int, packet: seq<Byte>)

  /** What `udpClient.send` does when called: queue the datagram, or throw synchronously. */
  datatype Dispatch = Queued | Threw

  /** The error argument of a command send's callback. */
  datatype Completion = Delivered | Unreachable | OtherError

  /** The `command` field of a `command` message. */
  datatype Payload = CommandObject(command: Command) | NotAnObject

  /** A client message after `JSON.parse`. */
  datatype Message =
    | Connect
    | CommandMessage(payload: Payload, mode: QueueMode)
    | Disconnect
    | UnknownType
    | Unparsable

  /** The module-level state of the link. A timer field holds the time at which a
      pending one-shot timer fires, or None when it is not pending. */
  datatype LinkState = LinkState(
    isConnected: bool,
    lastCommand: Command,
    lastSentCommand: Command,
    isSending: bool,
    lastSendTime: int,
    lastSendAttemptTime: int,
    commandInterval: bool,
    watchdogTimer: Option<int>,
    sendTimeout: Option<int>,
    retryTimers: seq<int>,
    pendingSends: seq<Send>,
    pendingProbes: seq<Probe>,
    outbox: seq<Status>)

  /** The state when the main process starts at time `now`. */
  function Initial(now: int): (s: LinkState)
    ensures !s.isConnected && !s.isSending && !s.commandInterval
    ensures s.lastCommand == ZeroCommand && s.lastSentCommand == ZeroCommand
    ensures s.lastSendTime == now && s.lastSendAttemptTime == now
    ensures s.watchdogTimer == None && s.sendTimeout == None && s.retryTimers == []
    ensures s.pendingSends == [] && s.pendingProbes == [] && s.outbox == []
  {
    LinkState(false, ZeroCommand, ZeroCommand, false, now, now, false, None, None, [], [], [], [])
  }

  function RemoveAt<T>(xs: seq<T>, k: nat): (r: seq<T>)
    requires k < |xs|
    ensures |r| == |xs| - 1
    ensures forall i :: 0 <= i < k ==> r[i] == xs[i]
    ensures forall i :: k <= i < |r| ==> r[i] == xs[i + 1]
  {
    xs[..k] + xs[k + 1..]
  }

  /** `resetWatchdog`: replaces any pending watchdog check by one due in WATCHDOG_CHECK_MS. */
  function ResetWatchdog(s: LinkState, now: int): (r: LinkState)
    ensures r.watchdogTimer == Some(now + WATCHDOG_CHECK_MS)
    ensures r == s.(watchdogTimer := r.watchdogTimer)
  {
    s.(watchdogTimer := Some(now + WATCHDOG_CHECK_MS))
  }

  /** `startCommandInterval`: the periodic transmitter runs, both send clocks restart at
      `now`, the watchdog is armed and the in-flight guard is cleared. */
  function StartCommandInterval(s: LinkState, now: int): (r: LinkState)
    ensures r.commandInterval && r.watchdogTimer == Some(now + WATCHDOG_CHECK_MS)
    ensures !r.isSending && r.sendTimeout == None
    ensures r.lastSendTime == now && r.lastSendAttemptTime == now
    ensures r.isConnected == s.isConnected && r.lastCommand == s.lastCommand
    ensures r.lastSentCommand == s.lastSentCommand && r.outbox == s.outbox
    ensures r.pendingSends == s.pendingSends && r.pendingProbes == s.pendingProbes
    ensures r.retryTimers == s.retryTimers
  {
    ClearGuard(ResetWatchdog(s.(lastSendTime := now, lastSendAttemptTime := now, commandInterval := true), now))
  }

  /** `stopCommandInterval`: every timer the stream owns is cancelled and the guard cleared. */
  function StopCommandInterval(s: LinkState): (r: LinkState)
    ensures !r.commandInterval && r.watchdogTimer == None && r.sendTimeout == None && !r.isSending
    ensures r.isConnected == s.isConnected && r.lastCommand == s.lastCommand
    ensures r.lastSentCommand == s.lastSentCommand && r.outbox == s.outbox
    ensures r.lastSendTime == s.lastSendTime && r.lastSendAttemptTime == s.lastSendAttemptTime
    ensures r.pendingSends == s.pendingSends && r.pendingProbes == s.pendingProbes
    ensures r.retryTimers == s.retryTimers
  {
    s.(commandInterval := false, watchdogTimer := None, sendTimeout := None, isSending := false)
  }

  /** Sends `connection_status` to every open client. */
  function Broadcast(s: LinkState, connected: bool, error: Option<string>): (r: LinkState)
    ensures r.outbox == s.outbox + [Status(EveryOpenClient, connected, error)]
    ensures r == s.(outbox := r.outbox)
  {
    s.(outbox := s.outbox + [Status(EveryOpenClient, connected, error)])
  }

  /** Sends `connection_status` to one client. */
  function Reply(s: LinkState, client: nat, connected: bool): (r: LinkState)
    ensures r.outbox == s.outbox + [Status(Requester(client), connected, None)]
    ensures r == s.(outbox := r.outbox)
  {
    s.(outbox := s.outbox + [Status(Requester(client), connected, None)])
  }

  /** Clears the in-flight guard and cancels its fallback timer. */
  function ClearGuard(s: LinkState): (r: LinkState)
    ensures !r.isSending && r.sendTimeout == None
    ensures r == s.(isSending := r.isSending, sendTimeout := r.sendTimeout)
  {
    s.(isSending := false, sendTimeout := None)
  }

  /** The link goes down: the stream stops and every open client is told, with `error`
      as the reason. The watchdog, an unreachable destination and a socket error all end
      the link this way. */
  function LinkDown(s: LinkState, error: Option<string>): (r: LinkState)
    ensures !r.isConnected && !r.commandInterval && r.watchdogTimer == None
    ensures !r.isSending && r.sendTimeout == None
    ensures r.outbox == s.outbox + [Status(EveryOpenClient, false, error)]
    ensures r.lastCommand == s.lastCommand && r.lastSentCommand == s.lastSentCommand
    ensures r.lastSendTime == s.lastSendTime && r.lastSendAttemptTime == s.lastSendAttemptTime
    ensures r.retryTimers == s.retryTimers
    ensures r.pendingSends == s.pendingSends && r.pendingProbes == s.pendingProbes
  {
    Broadcast(StopCommandInterval(s.(isConnected := false)), false, error)
  }

  /** A probe succeeded: the link is up and the command stream starts. */
  function LinkUp(s: LinkState, now: int): (r: LinkState)
    ensures r.isConnected && r.commandInterval && r.watchdogTimer == Some(now + WATCHDOG_CHECK_MS)
    ensures !r.isSending && r.sendTimeout == None
    ensures r.lastSendTime == now && r.lastSendAttemptTime == now
    ensures r.lastCommand == s.lastCommand && r.lastSentCommand == s.lastSentCommand
    ensures r.outbox == s.outbox
    ensures r.retryTimers == s.retryTimers && r.pendingSends == s.pendingSends
    ensures r.pendingProbes == s.pendingProbes
  {
    StartCommandInterval(s.(isConnected := true), now)
  }

  /** The in-flight guard lets a send through: none is in flight, or the one in flight
      was attempted more than SEND_TIMEOUT_MS ago. */
  predicate GuardOpen(s: LinkState, now: int)
  {
    !s.isSending || now - s.lastSendAttemptTime > SEND_TIMEOUT_MS
  }

  /** `sendLastCommand` dispatches a packet exactly when connected, past the guard, and at
      least MIN_SEND_INTERVAL_MS after the last successful send. */
  predicate MayDispatch(s: LinkState, now: int)
  {
    s.isConnected && GuardOpen(s, now) && now - s.lastSendTime >= MIN_SEND_INTERVAL_MS
  }

  /** A send attempt starts: the guard is set, the fallback timer armed, the watchdog
      re-armed. */
  function BeginSend(s: LinkState, now: int): (r: LinkState)
    ensures r.isSending && r.sendTimeout == Some(now + SEND_TIMEOUT_MS)
    ensures r.lastSendAttemptTime == now && r.watchdogTimer == Some(now + WATCHDOG_CHECK_MS)
    ensures r == s.(isSending := r.isSending, sendTimeout := r.sendTimeout,
                    lastSendAttemptTime := r.lastSendAttemptTime, watchdogTimer := r.watchdogTimer)
  {
    ResetWatchdog(s.(isSending := true, lastSendAttemptTime := now,
                     sendTimeout := Some(now + SEND_TIMEOUT_MS)), now)
  }

  /** The transmitting half of `sendLastCommand`: start the attempt and hand the packet of
      the current command to the socket. */
  function Transmit(s: LinkState, now: int, f32: Float32LE, dispatch: Dispatch): (r: LinkState)
    ensures r.lastSendAttemptTime == now && r.watchdogTimer == Some(now + WATCHDOG_CHECK_MS)
    // the packet of the current command is queued behind a set guard, unless the send throws
    ensures dispatch == Queued ==>
      && r.isSending && r.sendTimeout == Some(now + SEND_TIMEOUT_MS)
      && r.pendingSends == s.pendingSends + [Send(now, CommandPacket(s.lastCommand, f32))]
    ensures dispatch == Threw ==> !r.isSending && r.sendTimeout == None && r.pendingSends == s.pendingSends
    ensures r == s.(isSending := r.isSending, sendTimeout := r.sendTimeout, pendingSends := r.pendingSends,
                    lastSendAttemptTime := r.lastSendAttemptTime, watchdogTimer := r.watchdogTimer)
  {
    var s1 := BeginSend(s, now);
    match dispatch
    case Threw => ClearGuard(s1)
    case Queued => s1.(pendingSends := s1.pendingSends + [Send(now, CommandPacket(s1.lastCommand, f32))])
  }

  /** `sendLastCommand`, up to the dispatch of the packet. Its callback is CompleteSend. */
  function SendLastCommand(s: LinkState, now: int, f32: Float32LE, dispatch: Dispatch): (r: LinkState)
    // disconnected, or a send in flight for at most SEND_TIMEOUT_MS: nothing changes
    ensures !s.isConnected || !GuardOpen(s, now) ==> r == s
    // within the gap since the last success: nothing changes
    ensures s.isConnected && !s.isSending && !MayDispatch(s, now) ==> r == s
    // a stuck send is forgotten even when the gap then stops the send
    ensures s.isConnected && s.isSending && GuardOpen(s, now) && !MayDispatch(s, now) ==>
      r == s.(isSending := false, sendTimeout := None)
    // a dispatch marks the attempt and re-arms the watchdog, whatever the send then does
    ensures MayDispatch(s, now) ==>
      r.lastSendAttemptTime == now && r.watchdogTimer == Some(now + WATCHDOG_CHECK_MS)
    ensures MayDispatch(s, now) && dispatch == Queued ==>
      && r.isSending && r.sendTimeout == Some(now + SEND_TIMEOUT_MS)
      && r.pendingSends == s.pendingSends + [Send(now, CommandPacket(s.lastCommand, f32))]
    ensures MayDispatch(s, now) && dispatch == Threw ==>
      !r.isSending && r.sendTimeout == None && r.pendingSends == s.pendingSends
    ensures !MayDispatch(s, now) ==>
      r.pendingSends == s.pendingSends && r.lastSendAttemptTime == s.lastSendAttemptTime
      && r.watchdogTimer == s.watchdogTimer
    // never touched by a send attempt
    ensures r.isConnected == s.isConnected && r.lastCommand == s.lastCommand
    ensures r.lastSentCommand == s.lastSentCommand && r.lastSendTime == s.lastSendTime
    ensures r.commandInterval == s.commandInterval && r.outbox == s.outbox
    ensures r.retryTimers == s.retryTimers && r.pendingProbes == s.pendingProbes
  {
    if !s.isConnected then s
    else if s.isSending && now - s.lastSendAttemptTime <= SEND_TIMEOUT_MS then s
    else
      var s1 := if s.isSending then ClearGuard(s) else s;
      if now - s1.lastSendTime < MIN_SEND_INTERVAL_MS then s1
      else Transmit(s1, now, f32, dispatch)
  }

  /** The send callback of pending command packet `k`, run at time `now`. */
  function CompleteSend(s: LinkState, k: nat, outcome: Completion, now: int): (r: LinkState)
    requires k < |s.pendingSends|
    // the guard and its fallback timer are always cleared
    ensures !r.isSending && r.sendTimeout == None
    ensures r.pendingSends == RemoveAt(s.pendingSends, k)
    ensures outcome == Delivered ==>
      && r.lastSendTime == s.pendingSends[k].at
      && r.lastSentCommand == s.lastCommand
      && r.watchdogTimer == Some(now + WATCHDOG_CHECK_MS)
      && r.isConnected == s.isConnected && r.outbox == s.outbox
      && r.commandInterval == s.commandInterval && r.lastSendAttemptTime == s.lastSendAttemptTime
    ensures outcome == Unreachable ==>
      && !r.isConnected && !r.commandInterval && r.watchdogTimer == None
      && r.outbox == s.outbox + [Status(EveryOpenClient, false, Some(UNREACHABLE_MESSAGE))]
      && r.lastSendTime == s.lastSendTime && r.lastSentCommand == s.lastSentCommand
      && r.lastSendAttemptTime == s.lastSendAttemptTime
    ensures outcome == OtherError ==>
      r == s.(isSending := false, sendTimeout := None, pendingSends := r.pendingSends)
    // no outcome schedules a retry, starts a probe or changes the current command
    ensures r.retryTimers == s.retryTimers && r.pendingProbes == s.pendingProbes
    ensures r.lastCommand == s.lastCommand && s.outbox <= r.outbox
  {
    var at := s.pendingSends[k].at;
    var s1 := ClearGuard(s.(pendingSends := RemoveAt(s.pendingSends, k)));
    match outcome
    case OtherError => s1
    case Unreachable => LinkDown(s1, Some(UNREACHABLE_MESSAGE))
    case Delivered =>
      ResetWatchdog(s1.(lastSendTime := at, lastSentCommand := s1.lastCommand), now)
  }

  /** The stuck-send fallback timer fires: only the guard is cleared. */
  function SendTimeoutFires(s: LinkState): (r: LinkState)
    requires s.sendTimeout.Some?
    ensures !r.isSending && r.sendTimeout == None
    ensures r == s.(isSending := false, sendTimeout := None)
  {
    ClearGuard(s)
  }

  /** The link has been silent for longer than the watchdog allows. */
  predicate Silent(s: LinkState, now: int)
  {
    now - s.lastSendTime > WATCHDOG_TIMEOUT_MS
  }

  /** The watchdog timer fires at time `now`. It does not re-arm itself. */
  function WatchdogFires(s: LinkState, now: int): (r: LinkState)
    requires s.watchdogTimer.Some? && now >= s.watchdogTimer.value
    ensures r.watchdogTimer == None
    // a recent success: the check does nothing
    ensures !Silent(s, now) ==> r == s.(watchdogTimer := None)
    // silence: the guard is cleared in any case
    ensures Silent(s, now) ==> !r.isSending && r.sendTimeout == None
    // silence while connected: disconnect, stop the stream, tell everyone, one retry
    ensures Silent(s, now) && s.isConnected ==>
      && !r.isConnected && !r.commandInterval
      && r.outbox == s.outbox + [Status(EveryOpenClient, false, Some(LOST_MESSAGE))]
      && r.retryTimers == s.retryTimers + [now + RETRY_DELAY_MS]
      && r.sendTimeout == None && !r.isSending && r.watchdogTimer == None
      && r.lastSendTime == s.lastSendTime && r.lastSendAttemptTime == s.lastSendAttemptTime
    ensures Silent(s, now) && !s.isConnected ==>
      r == s.(watchdogTimer := None, isSending := false, sendTimeout := None)
    // the watchdog never changes the command being flown
    ensures r.lastCommand == s.lastCommand && r.lastSentCommand == s.lastSentCommand
    ensures s.outbox <= r.outbox
    ensures r.pendingSends == s.pendingSends && r.pendingProbes == s.pendingProbes
  {
    var s0 := s.(watchdogTimer := None);
    if now - s0.lastSendTime > WATCHDOG_TIMEOUT_MS then
      var s1 := ClearGuard(s0);
      if s1.isConnected then
        var s2 := LinkDown(s1, Some(LOST_MESSAGE));
        s2.(retryTimers := s2.retryTimers + [now + RETRY_DELAY_MS])
      else s1
    else s0
  }

  /** Reconnect retry `k` fires. It probes with the 16-byte probe only when the link is
      still down. */
  function RetryFires(s: LinkState, k: nat, dispatch: Dispatch): (r: LinkState)
    requires k < |s.retryTimers|
    ensures r.retryTimers == RemoveAt(s.retryTimers, k)
    ensures !s.isConnected && dispatch == Queued ==>
      r.pendingProbes == s.pendingProbes + [ForRetry(RetryProbe())]
    ensures s.isConnected || dispatch == Threw ==> r.pendingProbes == s.pendingProbes
    ensures r == s.(retryTimers := r.retryTimers, pendingProbes := r.pendingProbes)
  {
    var s0 := s.(retryTimers := RemoveAt(s.retryTimers, k));
    if s0.isConnected then s0
    else match dispatch
      case Threw => s0
      case Queued => s0.(pendingProbes := s0.pendingProbes + [ForRetry(RetryProbe())])
  }

  /** The send callback of pending probe `k`, run at time `now`; `ok` when no error. */
  function CompleteProbe(s: LinkState, k: nat, ok: bool, now: int): (r: LinkState)
    requires k < |s.pendingProbes|
    ensures r.pendingProbes == RemoveAt(s.pendingProbes, k)
    ensures ok ==> r.isConnected && r.commandInterval && !r.isSending && r.sendTimeout == None
    ensures ok ==> r.watchdogTimer == Some(now + WATCHDOG_CHECK_MS)
    ensures ok ==> r.lastSendTime == now && r.lastSendAttemptTime == now
    // an explicit connect starts from the neutral command; a reconnect keeps the old one
    ensures ok && s.pendingProbes[k].ForConnect? ==> r.lastCommand == ZeroCommand
    ensures ok && s.pendingProbes[k].ForRetry? ==> r.lastCommand == s.lastCommand
    // a connect probe answers only its client; a retry success is broadcast
    ensures s.pendingProbes[k].ForConnect? ==>
      r.outbox == s.outbox + [Status(Requester(s.pendingProbes[k].client), ok, None)]
    ensures s.pendingProbes[k].ForRetry? && ok ==>
      r.outbox == s.outbox + [Status(EveryOpenClient, true, None)]
    // a failed probe changes nothing but the reply
    ensures !ok ==> r == s.(pendingProbes := r.pendingProbes, outbox := r.outbox)
    ensures !ok && s.pendingProbes[k].ForRetry? ==> r.outbox == s.outbox
    ensures r.retryTimers == s.retryTimers && r.pendingSends == s.pendingSends
    ensures r.lastSentCommand == s.lastSentCommand && s.outbox <= r.outbox
  {
    var s0 := s.(pendingProbes := RemoveAt(s.pendingProbes, k));
    match s.pendingProbes[k]
    case ForConnect(client, _) =>
      if ok then
        Reply(LinkUp(s0.(lastCommand := ZeroCommand), now), client, true)
      else Reply(s0, client, false)
    case ForRetry(_) =>
      if ok then Broadcast(LinkUp(s0, now), true, None)
      else s0
  }

  /** A client opens a WebSocket: it is told the current connection state at once. */
  function ClientConnects(s: LinkState, client: nat): (r: LinkState)
    ensures r.outbox == s.outbox + [Status(Requester(client), s.isConnected, None)]
    ensures r == s.(outbox := r.outbox)
  {
    Reply(s, client, s.isConnected)
  }

  /** A message from `client` arrives at time `now`; `dispatch` is what the UDP send it may
      make does. */
  function HandleMessage(s: LinkState, client: nat, msg: Message, now: int, f32: Float32LE,
                         dispatch: Dispatch): (r: LinkState)
    // connect: the 14-byte probe is sent, or the client is told at once that it failed
    ensures msg == Connect && dispatch == Queued ==>
      r == s.(pendingProbes := s.pendingProbes + [ForConnect(client, ConnectProbe())])
    ensures msg == Connect && dispatch == Threw ==>
      r == s.(outbox := s.outbox + [Status(Requester(client), false, None)])
    // a normal command only replaces the current command
    ensures msg.CommandMessage? && msg.payload.CommandObject? && msg.mode == Normal ==>
      r == s.(lastCommand := msg.payload.command)
    // a flush command clears the guard, replaces the command and runs one send attempt
    ensures msg.CommandMessage? && msg.payload.CommandObject? && msg.mode == Flush ==>
      && r.lastCommand == msg.payload.command
      && (MayDispatch(s.(isSending := false), now) && dispatch == Queued ==>
            r.pendingSends == s.pendingSends + [Send(now, CommandPacket(msg.payload.command, f32))])
      && (!MayDispatch(s.(isSending := false), now) ==> !r.isSending && r.sendTimeout == None)
      && r.isConnected == s.isConnected && r.commandInterval == s.commandInterval
      && r.retryTimers == s.retryTimers && r.pendingProbes == s.pendingProbes && r.outbox == s.outbox
    // ... and that send attempt is the one the interval would make with a clear guard
    ensures msg.CommandMessage? && msg.payload.CommandObject? && msg.mode == Flush ==>
      r == SendLastCommand(s.(isSending := false, sendTimeout := None, lastCommand := msg.payload.command),
                           now, f32, dispatch)
    // disconnect: down, stream stopped, neutral command, the client is told
    ensures msg == Disconnect ==>
      && !r.isConnected && !r.commandInterval && r.watchdogTimer == None && !r.isSending
      && r.lastCommand == ZeroCommand
      && r.outbox == s.outbox + [Status(Requester(client), false, None)]
      && r.sendTimeout == None && r.retryTimers == s.retryTimers
      && r.lastSendTime == s.lastSendTime && r.lastSendAttemptTime == s.lastSendAttemptTime
      && r.pendingSends == s.pendingSends && r.pendingProbes == s.pendingProbes
    // anything malformed is dropped
    ensures msg in {UnknownType, Unparsable} || (msg.CommandMessage? && msg.payload == NotAnObject) ==>
      r == s
    // no message records a command as sent or takes back a status message
    ensures r.lastSentCommand == s.lastSentCommand && s.outbox <= r.outbox
  {
    match msg
    case Connect =>
      (match dispatch
       case Queued => s.(pendingProbes := s.pendingProbes + [ForConnect(client, ConnectProbe())])
       case Threw => Reply(s, client, false))
    case CommandMessage(payload, mode) =>
      (match payload
       case NotAnObject => s
       case CommandObject(cmd) =>
         if mode == Flush then
           SendLastCommand(ClearGuard(s).(lastCommand := cmd), now, f32, dispatch)
         else s.(lastCommand := cmd))
    case Disconnect =>
      Reply(StopCommandInterval(s.(isConnected := false)).(lastCommand := ZeroCommand), client, false)
    case UnknownType => s
    case Unparsable => s
  }

  /** The UDP socket reports an error: the link goes down and every client is told. */
  function SocketError(s: LinkState): (r: LinkState)
    ensures !r.isConnected && !r.commandInterval && r.watchdogTimer == None
    ensures !r.isSending && r.sendTimeout == None
    ensures r.outbox == s.outbox + [Status(EveryOpenClient, false, None)]
    ensures r.lastCommand == s.lastCommand && r.lastSentCommand == s.lastSentCommand
    ensures r.lastSendTime == s.lastSendTime && r.lastSendAttemptTime == s.lastSendAttemptTime
    ensures r.retryTimers == s.retryTimers
    ensures r.pendingSends == s.pendingSends && r.pendingProbes == s.pendingProbes
  {
    LinkDown(s, None)
  }

  // ---------------------------------------------------------------------------
  // Events, runs and the link invariant

  /** One event-loop callback with the inputs it observes. */
  datatype Event =
    | IntervalTick(now: int, dispatch: Dispatch)
    | SendCompleted(k: nat, outcome: Completion, now: int)
    | SendTimeoutFired(now: int)
    | WatchdogFired(now: int)
    | RetryFired(k: nat, now: int, dispatch: Dispatch)
    | ProbeCompleted(k: nat, ok: bool, now: int)
    | ClientJoined(client: nat)
    | MessageReceived(client: nat, msg: Message, now: int, dispatch: Dispatch)
    | SocketFailed

  /** Whether the event can happen: a timer fires only while pending and not before its
      time, the interval ticks only while set, a callback runs only for a pending send. */
  predicate Enabled(s: LinkState, e: Event)
  {
    match e
    case IntervalTick(_, _) => s.commandInterval
    case SendCompleted(k, _, _) => k < |s.pendingSends|
    case SendTimeoutFired(now) => s.sendTimeout.Some? && now >= s.sendTimeout.value
    case WatchdogFired(now) => s.watchdogTimer.Some? && now >= s.watchdogTimer.value
    case RetryFired(k, now, _) => k < |s.retryTimers| && now >= s.retryTimers[k]
    case ProbeCompleted(k, _, _) => k < |s.pendingProbes|
    case ClientJoined(_) => true
    case MessageReceived(_, _, _, _) => true
    case SocketFailed => true
  }

  /** The state after one enabled callback. Status messages already sent are never taken
      back; only a client message or a connect probe changes the command being flown, and
      only a send callback changes the command recorded as sent. */
  function Next(s: LinkState, e: Event, f32: Float32LE): (r: LinkState)
    requires Enabled(s, e)
    ensures s.outbox <= r.outbox
    ensures r.lastCommand != s.lastCommand ==>
      e.MessageReceived? || (e.ProbeCompleted? && s.pendingProbes[e.k].ForConnect?)
    ensures r.lastSentCommand != s.lastSentCommand ==> e.SendCompleted?
  {
    match e
    case IntervalTick(now, d) => SendLastCommand(s, now, f32, d)
    case SendCompleted(k, c, now) => CompleteSend(s, k, c, now)
    case SendTimeoutFired(_) => SendTimeoutFires(s)
    case WatchdogFired(now) => WatchdogFires(s, now)
    case RetryFired(k, _, d) => RetryFires(s, k, d)
    case ProbeCompleted(k, ok, now) => CompleteProbe(s, k, ok, now)
    case ClientJoined(c) => ClientConnects(s, c)
    case MessageReceived(c, m, now, d) => HandleMessage(s, c, m, now, f32, d)
    case SocketFailed => SocketError(s)
  }

  /** The state after a sequence of events, or None if one of them cannot happen. */
  function Run(s: LinkState, events: seq<Event>, f32: Float32LE): (r: Option<LinkState>)
    ensures events == [] ==> r == Some(s)
    ensures r.Some? ==> s.outbox <= r.value.outbox
    decreases |events|
  {
    if events == [] then Some(s)
    else if !Enabled(s, events[0]) then None
    else Run(Next(s, events[0], f32), events[1..], f32)
  }

  /** A connect request probes with 14 bytes, a reconnect retry with 16. */
  predicate ProbeIntact(p: Probe)
  {
    p.packet == if p.ForConnect? then ConnectProbe() else RetryProbe()
  }

  /** What holds between callbacks. */
  ghost predicate Valid(s: LinkState)
  {
    // the command stream runs exactly while connected, so no tick survives a disconnect
    && (s.commandInterval <==> s.isConnected)
    // the in-flight guard and its fallback timer are set and cleared together
    && (s.isSending <==> s.sendTimeout.Some?)
    && (s.isSending ==> s.sendTimeout == Some(s.lastSendAttemptTime + SEND_TIMEOUT_MS))
    // a set guard always has a send behind it
    && (s.isSending ==> |s.pendingSends| > 0)
    // every packet put on the wire is a well-formed 16-byte command packet
    && (forall i :: 0 <= i < |s.pendingSends| ==> WellFormed(s.pendingSends[i].packet))
    // every probe on the wire is the literal probe of its purpose
    && (forall i :: 0 <= i < |s.pendingProbes| ==> ProbeIntact(s.pendingProbes[i]))
  }

  lemma InitialValid(now: int)
    ensures Valid(Initial(now))
  {
  }

  lemma SendLastCommandValid(s: LinkState, now: int, f32: Float32LE, d: Dispatch)
    requires Valid(s)
    ensures Valid(SendLastCommand(s, now, f32, d))
  {
  }

  lemma CompleteSendValid(s: LinkState, k: nat, c: Completion, now: int)
    requires Valid(s) && k < |s.pendingSends|
    ensures Valid(CompleteSend(s, k, c, now))
  {
  }

  lemma WatchdogFiresValid(s: LinkState, now: int)
    requires Valid(s) && s.watchdogTimer.Some? && now >= s.watchdogTimer.value
    ensures Valid(WatchdogFires(s, now))
  {
  }

  lemma CompleteProbeValid(s: LinkState, k: nat, ok: bool, now: int)
    requires Valid(s) && k < |s.pendingProbes|
    ensures Valid(CompleteProbe(s, k, ok, now))
  {
  }

  lemma HandleMessageValid(s: LinkState, c: nat, m: Message, now: int, f32: Float32LE, d: Dispatch)
    requires Valid(s)
    ensures Valid(HandleMessage(s, c, m, now, f32, d))
  {
    if m.CommandMessage? && m.payload.CommandObject? && m.mode == Flush {
      SendLastCommandValid(ClearGuard(s).(lastCommand := m.payload.command), now, f32, d);
    }
  }

  /** Every callback keeps the invariant. */
  lemma NextValid(s: LinkState, e: Event, f32: Float32LE)
    requires Valid(s) && Enabled(s, e)
    ensures Valid(Next(s, e, f32))
  {
    match e
    case IntervalTick(now, d) => SendLastCommandValid(s, now, f32, d);
    case SendCompleted(k, c, now) => CompleteSendValid(s, k, c, now);
    case WatchdogFired(now) => WatchdogFiresValid(s, now);
    case ProbeCompleted(k, ok, now) => CompleteProbeValid(s, k, ok, now);
    case MessageReceived(c, m, now, d) => HandleMessageValid(s, c, m, now, f32, d);
    case _ =>
  }

  /** Every state reachable from a valid one satisfies the invariant. */
  lemma {:induction false} RunValid(s: LinkState, events: seq<Event>, f32: Float32LE)
    requires Valid(s)
    ensures Run(s, events, f32).Some? ==> Valid(Run(s, events, f32).value)
    decreases |events|
  {
    if events != [] && Enabled(s, events[0]) {
      NextValid(s, events[0], f32);
      RunValid(Next(s, events[0], f32), events[1..], f32);
    }
  }

  // ---------------------------------------------------------------------------
  // Scenarios and consequences

  lemma RemoveLast<T>(xs: seq<T>, x: T)
    ensures RemoveAt(xs + [x], |xs|) == xs
  {
    assert (xs + [x])[..|xs|] == xs;
  }

  /** Stopping the stream twice is the same as stopping it once. */
  lemma StopIdempotent(s: LinkState)
    ensures StopCommandInterval(StopCommandInterval(s)) == StopCommandInterval(s)
  {
  }

  /** A `connect` whose probe fails: the requesting client alone gets one
      `connected: false`, and nothing else changes. */
  lemma ConnectProbeFails(s: LinkState, client: nat, now: int, later: int, f32: Float32LE)
    ensures var s1 := HandleMessage(s, client, Connect, now, f32, Queued);
            var s2 := CompleteProbe(s1, |s.pendingProbes|, false, later);
            s2 == s.(outbox := s.outbox + [Status(Requester(client), false, None)])
  {
    RemoveLast(s.pendingProbes, ForConnect(client, ConnectProbe()));
  }

  /** A `connect` whose probe succeeds: connected, streaming from the neutral command,
      and the requesting client is told. */
  lemma ConnectProbeSucceeds(s: LinkState, client: nat, now: int, later: int, f32: Float32LE)
    ensures var s1 := HandleMessage(s, client, Connect, now, f32, Queued);
            var s2 := CompleteProbe(s1, |s.pendingProbes|, true, later);
            && s2.isConnected && s2.commandInterval && s2.lastCommand == ZeroCommand
            && s2.outbox == s.outbox + [Status(Requester(client), true, None)]
            && (Valid(s) ==> Valid(s2))
  {
    RemoveLast(s.pendingProbes, ForConnect(client, ConnectProbe()));
  }

  /** An unreachable destination on a later send: down at once, the stream and the
      watchdog cancelled, every client told, and no retry scheduled. */
  lemma UnreachableIsFinal(s: LinkState, k: nat, now: int)
    requires k < |s.pendingSends|
    ensures var r := CompleteSend(s, k, Unreachable, now);
            && !r.isConnected && !r.commandInterval && r.watchdogTimer == None
            && r.sendTimeout == None && r.retryTimers == s.retryTimers
            && r.pendingProbes == s.pendingProbes
            && |r.outbox| == |s.outbox| + 1 && !r.outbox[|s.outbox|].connected
  {
  }

  /** The watchdog finds the link silent while connected: it goes down once, schedules
      exactly one retry, and cannot fire again because it is no longer pending. */
  lemma WatchdogSchedulesOneRetry(s: LinkState, now: int)
    requires s.watchdogTimer.Some? && now >= s.watchdogTimer.value
    requires s.isConnected && Silent(s, now)
    ensures var r := WatchdogFires(s, now);
            && |r.retryTimers| == |s.retryTimers| + 1
            && r.retryTimers[|s.retryTimers|] == now + RETRY_DELAY_MS
            && !Enabled(r, WatchdogFired(now)) && !Enabled(r, IntervalTick(now, Queued))
  {
  }

  /** The scheduled retry succeeds: connected again, the stream and the watchdog restarted,
      every client told, and the command that was being flown kept. */
  lemma RetryReconnects(s: LinkState, k: nat, later: int)
    requires k < |s.retryTimers| && !s.isConnected
    ensures var s1 := RetryFires(s, k, Queued);
            var s2 := CompleteProbe(s1, |s1.pendingProbes| - 1, true, later);
            && s2.isConnected && s2.commandInterval && s2.watchdogTimer.Some?
            && s2.outbox == s.outbox + [Status(EveryOpenClient, true, None)]
            && s2.lastCommand == s.lastCommand
  {
  }

  /** A retry that finds the link already up does nothing but expire. */
  lemma RetrySkippedWhenConnected(s: LinkState, k: nat, d: Dispatch)
    requires k < |s.retryTimers| && s.isConnected
    ensures RetryFires(s, k, d) == s.(retryTimers := RemoveAt(s.retryTimers, k))
  {
  }

  /** The retry timer is never cancelled: a `disconnect` sent while a retry is pending is
      undone when the retry's probe succeeds, and the stream restarts. */
  lemma RetrySurvivesDisconnect(s: LinkState, client: nat, k: nat, now: int, later: int, f32: Float32LE)
    requires k < |s.retryTimers|
    ensures var s1 := HandleMessage(s, client, Disconnect, now, f32, Queued);
            var s2 := RetryFires(s1, k, Queued);
            var s3 := CompleteProbe(s2, |s2.pendingProbes| - 1, true, later);
            && !s1.isConnected && s1.retryTimers == s.retryTimers
            && s3.isConnected && s3.commandInterval
  {
  }

  /** The flush path clears the guard, so a flush can put a second packet on the wire
      while the first is still in flight, where a periodic tick would have waited. */
  lemma FlushOverlapsInFlightSend(s: LinkState, cmd: Command, now: int, f32: Float32LE)
    requires Valid(s) && s.isConnected && s.isSending
    requires now - s.lastSendAttemptTime <= SEND_TIMEOUT_MS
    requires now - s.lastSendTime >= MIN_SEND_INTERVAL_MS
    ensures SendLastCommand(s, now, f32, Queued) == s
    ensures |HandleMessage(s, 0, CommandMessage(CommandObject(cmd), Flush), now, f32, Queued).pendingSends|
            == |s.pendingSends| + 1 >= 2
  {
  }

  /** The flush path still obeys the connected check and the minimum gap: within
      MIN_SEND_INTERVAL_MS of the last success nothing is sent, though the command is kept. */
  lemma FlushRespectsGap(s: LinkState, cmd: Command, now: int, f32: Float32LE, d: Dispatch)
    requires !s.isConnected || now - s.lastSendTime < MIN_SEND_INTERVAL_MS
    ensures var r := HandleMessage(s, 0, CommandMessage(CommandObject(cmd), Flush), now, f32, d);
            r.pendingSends == s.pendingSends && r.lastCommand == cmd && !r.isSending
  {
  }

  /** A success records the command current when the callback runs, which need not be the
      command the packet was encoded from. */
  lemma LastSentIsCurrentCommand(s: LinkState, first: Command, second: Command, now: int,
                                 later: int, f32: Float32LE)
    requires MayDispatch(s.(lastCommand := first), now)
    ensures var s1 := SendLastCommand(s.(lastCommand := first), now, f32, Queued);
            var s2 := HandleMessage(s1, 0, CommandMessage(CommandObject(second), Normal), now, f32, Queued);
            var s3 := CompleteSend(s2, |s2.pendingSends| - 1, Delivered, later);
            && s2.pendingSends[|s2.pendingSends| - 1].packet == CommandPacket(first, f32)
            && s3.lastSentCommand == second && s3.lastSendTime == now
  {
  }

  /** The gap is measured from the last successful send, not the last attempt: after an
      attempt that fails, the next tick may dispatch again at once. */
  lemma GapFromLastSuccess(s: LinkState, now: int, f32: Float32LE)
    requires MayDispatch(s, now)
    ensures var s1 := SendLastCommand(s, now, f32, Queued);
            var s2 := CompleteSend(s1, |s1.pendingSends| - 1, OtherError, now + 1);
            && s2.lastSendTime == s.lastSendTime && s2.lastSendAttemptTime == now
            && MayDispatch(s2, now + 1)
  {
  }

  /** The stuck-send fallback cannot fire before SEND_TIMEOUT_MS have passed since the
      attempt that set the guard. */
  lemma SendTimeoutNotEarly(s: LinkState, now: int)
    requires Valid(s) && now < s.lastSendAttemptTime + SEND_TIMEOUT_MS
    ensures !Enabled(s, SendTimeoutFired(now))
  {
  }

  /** The probe a reconnect retry puts on the wire is the neutral command's packet
      whenever 0.0 is written as four zero bytes, as binary32 does for +0.0. */
  lemma RetryProbeOnWireIsNeutral(s: LinkState, k: nat, f32: Float32LE)
    requires k < |s.retryTimers| && !s.isConnected
    requires f32(0.0) == [0, 0, 0, 0]
    ensures var r := RetryFires(s, k, Queued);
            r.pendingProbes[|r.pendingProbes| - 1].packet == CommandPacket(ZeroCommand, f32)
  {
    var r := RetryFires(s, k, Queued);
    assert r.pendingProbes[|r.pendingProbes| - 1] == ForRetry(RetryProbe());
    RetryProbeIsNeutralCommand(f32);
  }
}
