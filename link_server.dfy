/** The command link of the main process as the source holds it: module-level variables
    changed in place by timer, socket and WebSocket callbacks. Each callback is a method
    whose effect is pinned to the matching transition of CommandLink. */
module LinkServer {
  import opened Protocol
  import opened Packet
  import L = CommandLink

  class DroneLink {
    /** The platform's `writeFloatLE`. */
    const f32: Float32LE

    var isConnected: bool
    var lastCommand: Command
    var lastSentCommand: Command
    /** Whether the periodic `sendLastCommand` interval is set. */
    var commandInterval: bool
    /** When the one-shot watchdog check fires, if pending. */
    var watchdogTimer: Option<int>
    var isSending: bool
    /** When the stuck-send fallback fires, if pending. */
    var sendTimeout: Option<int>
    var lastSendTime: int
    var lastSendAttemptTime: int
    /** When each scheduled reconnect retry fires; the source keeps no handle to them. */
    var retryTimers: seq<int>
    /** Command packets handed to the socket whose callback has not run yet. */
    var pendingSends: seq<L.Send>
    /** Probes handed to the socket whose callback has not run yet. */
    var pendingProbes: seq<L.Probe>
    /** Every `connection_status` message sent to clients, oldest first. */
    var outbox: seq<L.Status>

    function Model(): L.LinkState
      reads this
    {
      L.LinkState(isConnected, lastCommand, lastSentCommand, isSending, lastSendTime,
                  lastSendAttemptTime, commandInterval, watchdogTimer, sendTimeout,
                  retryTimers, pendingSends, pendingProbes, outbox)
    }

    ghost predicate Valid()
      reads this
    {
      L.Valid(Model())
    }

    /** Module initialisation at time `now`. */
    constructor (now: int, f32: Float32LE)
      ensures Model() == L.Initial(now) && this.f32 == f32
      ensures Valid()
    {
      this.f32 := f32;
      isConnected := false;
      lastCommand := ZeroCommand;
      lastSentCommand := ZeroCommand;
      commandInterval := false;
      watchdogTimer := None;
      isSending := false;
      sendTimeout := None;
      lastSendTime := now;
      lastSendAttemptTime := now;
      retryTimers := [];
      pendingSends := [];
      pendingProbes := [];
      outbox := [];
    }

    method ResetWatchdog(now: int)
      modifies this
      ensures Model() == L.ResetWatchdog(old(Model()), now)
    {
      watchdogTimer := Some(now + L.WATCHDOG_CHECK_MS);
    }

    method Broadcast(connected: bool, error: Option<string>)
      modifies this
      ensures Model() == L.Broadcast(old(Model()), connected, error)
    {
      outbox := outbox + [L.Status(L.EveryOpenClient, connected, error)];
    }

    method Reply(client: nat, connected: bool)
      modifies this
      ensures Model() == L.Reply(old(Model()), client, connected)
    {
      outbox := outbox + [L.Status(L.Requester(client), connected, None)];
    }

    method ClearGuard()
      modifies this
      ensures Model() == L.ClearGuard(old(Model()))
    {
      isSending := false;
      sendTimeout := None;
    }

    method LinkUp(now: int)
      modifies this
      ensures Model() == L.LinkUp(old(Model()), now)
    {
      isConnected := true;
      StartCommandInterval(now);
    }

    method LinkDown(error: Option<string>)
      modifies this
      ensures Model() == L.LinkDown(old(Model()), error)
    {
      isConnected := false;
      StopCommandInterval();
      Broadcast(false, error);
    }

    method StartCommandInterval(now: int)
      modifies this
      ensures Model() == L.StartCommandInterval(old(Model()), now)
    {
      lastSendTime := now;
      lastSendAttemptTime := now;
      commandInterval := true;
      ResetWatchdog(now);
      ClearGuard();
    }

    method StopCommandInterval()
      modifies this
      ensures Model() == L.StopCommandInterval(old(Model()))
    {
      commandInterval := false;
      watchdogTimer := None;
      sendTimeout := None;
      isSending := false;
    }

    method BeginSend(now: int)
      modifies this
      ensures Model() == L.BeginSend(old(Model()), now)
    {
      isSending := true;
      lastSendAttemptTime := now;
      sendTimeout := Some(now + L.SEND_TIMEOUT_MS);
      ResetWatchdog(now);
    }

    /** Builds the packet of the current command in a buffer and hands it to the socket. */
    method Transmit(now: int, dispatch: L.Dispatch)
      modifies this
      ensures Model() == L.Transmit(old(Model()), now, f32, dispatch)
    {
      BeginSend(now);
      var packet := EncodeCommand(lastCommand, f32);
      match dispatch {
        case Queued => pendingSends := pendingSends + [L.Send(now, packet)];
        case Threw => ClearGuard();
      }
    }

    method SendLastCommand(now: int, dispatch: L.Dispatch)
      modifies this
      ensures Model() == L.SendLastCommand(old(Model()), now, f32, dispatch)
    {
      if !isConnected {
        return;
      }
      if isSending {
        if now - lastSendAttemptTime > L.SEND_TIMEOUT_MS {
          ClearGuard();
        } else {
          return;
        }
      }
      if now - lastSendTime < L.MIN_SEND_INTERVAL_MS {
        return;
      }
      Transmit(now, dispatch);
    }

    /** A periodic tick of the command interval. */
    method OnCommandInterval(now: int, dispatch: L.Dispatch)
      requires Valid() && commandInterval
      modifies this
      ensures Valid()
      ensures Model() == L.Next(old(Model()), L.IntervalTick(now, dispatch), f32)
    {
      ghost var before := Model();
      SendLastCommand(now, dispatch);
      L.NextValid(before, L.IntervalTick(now, dispatch), f32);
    }

    /** The callback of pending command send `k`. */
    method OnSendComplete(k: nat, outcome: L.Completion, now: int)
      requires Valid() && k < |pendingSends|
      modifies this
      ensures Valid()
      ensures Model() == L.Next(old(Model()), L.SendCompleted(k, outcome, now), f32)
    {
      ghost var before := Model();
      var at := pendingSends[k].at;
      pendingSends := L.RemoveAt(pendingSends, k);
      ClearGuard();
      match outcome {
        case OtherError =>
        case Unreachable => LinkDown(Some(L.UNREACHABLE_MESSAGE));
        case Delivered =>
          lastSendTime := at;
          lastSentCommand := lastCommand;
          ResetWatchdog(now);
      }
      L.NextValid(before, L.SendCompleted(k, outcome, now), f32);
    }

    /** The stuck-send fallback timer fires at time `now`. */
    method OnSendTimeout(now: int)
      requires Valid() && sendTimeout.Some? && now >= sendTimeout.value
      modifies this
      ensures Valid()
      ensures Model() == L.Next(old(Model()), L.SendTimeoutFired(now), f32)
    {
      ClearGuard();
    }

    /** The watchdog check fires at time `now`. */
    method OnWatchdog(now: int)
      requires Valid() && watchdogTimer.Some? && now >= watchdogTimer.value
      modifies this
      ensures Valid()
      ensures Model() == L.Next(old(Model()), L.WatchdogFired(now), f32)
    {
      ghost var before := Model();
      watchdogTimer := None;
      if now - lastSendTime > L.WATCHDOG_TIMEOUT_MS {
        ClearGuard();
        if isConnected {
          LinkDown(Some(L.LOST_MESSAGE));
          retryTimers := retryTimers + [now + L.RETRY_DELAY_MS];
        }
      }
      L.NextValid(before, L.WatchdogFired(now), f32);
    }

    /** Scheduled reconnect retry `k` fires at time `now`. */
    method OnRetry(k: nat, now: int, dispatch: L.Dispatch)
      requires Valid() && k < |retryTimers| && now >= retryTimers[k]
      modifies this
      ensures Valid()
      ensures Model() == L.Next(old(Model()), L.RetryFired(k, now, dispatch), f32)
    {
      retryTimers := L.RemoveAt(retryTimers, k);
      if !isConnected {
        var testPacket := RetryProbe();
        match dispatch {
          case Threw =>
          case Queued => pendingProbes := pendingProbes + [L.ForRetry(testPacket)];
        }
      }
    }

    /** The callback of pending probe `k`; `ok` when the send reported no error. */
    method OnProbeComplete(k: nat, ok: bool, now: int)
      requires Valid() && k < |pendingProbes|
      modifies this
      ensures Valid()
      ensures Model() == L.Next(old(Model()), L.ProbeCompleted(k, ok, now), f32)
    {
      ghost var before := Model();
      var probe := pendingProbes[k];
      pendingProbes := L.RemoveAt(pendingProbes, k);
      match probe {
        case ForConnect(client, _) =>
          if ok {
            lastCommand := ZeroCommand;
            LinkUp(now);
            Reply(client, true);
          } else {
            Reply(client, false);
          }
        case ForRetry(_) =>
          if ok {
            LinkUp(now);
            Broadcast(true, None);
          }
      }
      L.NextValid(before, L.ProbeCompleted(k, ok, now), f32);
    }

    /** A WebSocket client connects. */
    method OnClientConnected(client: nat)
      requires Valid()
      modifies this
      ensures Valid()
      ensures Model() == L.Next(old(Model()), L.ClientJoined(client), f32)
    {
      Reply(client, isConnected);
    }

    /** The `connect` request: the 14-byte probe goes out, or the client is told at once
        that it failed. */
    method HandleConnect(client: nat, now: int, dispatch: L.Dispatch)
      modifies this
      ensures Model() == L.HandleMessage(old(Model()), client, L.Connect, now, f32, dispatch)
    {
      var testPacket := ConnectProbe();
      match dispatch {
        case Queued => pendingProbes := pendingProbes + [L.ForConnect(client, testPacket)];
        case Threw => Reply(client, false);
      }
    }

    /** A `command` message carrying an object: it replaces the current command; in flush
        mode the guard is cleared first and one send attempt runs at once. */
    method HandleCommand(client: nat, cmd: Command, mode: QueueMode, now: int, dispatch: L.Dispatch)
      modifies this
      ensures Model() == L.HandleMessage(old(Model()), client, L.CommandMessage(L.CommandObject(cmd), mode),
                                         now, f32, dispatch)
    {
      if mode == Flush {
        ClearGuard();
        lastCommand := cmd;
        SendLastCommand(now, dispatch);
      } else {
        lastCommand := cmd;
      }
    }

    /** The `disconnect` request. */
    method HandleDisconnect(client: nat, now: int, dispatch: L.Dispatch)
      modifies this
      ensures Model() == L.HandleMessage(old(Model()), client, L.Disconnect, now, f32, dispatch)
    {
      isConnected := false;
      StopCommandInterval();
      lastCommand := ZeroCommand;
      Reply(client, false);
    }

    /** A WebSocket message from `client` arrives. */
    method OnMessage(client: nat, msg: L.Message, now: int, dispatch: L.Dispatch)
      requires Valid()
      modifies this
      ensures Valid()
      ensures Model() == L.Next(old(Model()), L.MessageReceived(client, msg, now, dispatch), f32)
    {
      ghost var before := Model();
      match msg {
        case Connect => HandleConnect(client, now, dispatch);
        case CommandMessage(payload, mode) =>
          match payload {
            case NotAnObject =>
            case CommandObject(cmd) => HandleCommand(client, cmd, mode, now, dispatch);
          }
        case Disconnect => HandleDisconnect(client, now, dispatch);
        case UnknownType =>
        case Unparsable =>
      }
      L.NextValid(before, L.MessageReceived(client, msg, now, dispatch), f32);
    }

    /** The UDP socket's `error` event. */
    method OnSocketError()
      requires Valid()
      modifies this
      ensures Valid()
      ensures Model() == L.Next(old(Model()), L.SocketFailed, f32)
    {
      LinkDown(None);
    }
  }
}
