/** The link as an object: handlers that assign fields, change the set of armed timers and push
    effects, each proved to be the step of Protocol. */
module LinkObject {
  import opened Wrappers
  import P = Protocol

  class Link {
    var socket: P.Socket
    var socketAttempts: nat
    var status: Option<bool>
    var device: (int, int)
    var version: Option<string>
    var visible: bool
    var paused: bool
    var stream: P.Stream
    var streamAttempts: nat
    var streamReason: string
    var ice: string
    var connection: P.Connection
    var armed: set<P.Name>
    var effects: seq<P.Effect>

    ghost function Model(): P.Link
      reads this
    {
      P.Link.Link(socket, socketAttempts, status, device, version, visible, paused,
                  stream, streamAttempts, streamReason, ice, connection, armed, effects)
    }

    constructor ()
      ensures Model() == P.INITIAL && P.LinkInv(Model())
    {
      socket, socketAttempts, status, device, version := P.SocketIdle, 0, None, (1080, 1920), None;
      visible, paused, stream, streamAttempts, streamReason := true, false, P.Idle, 0, "";
      ice, connection, armed, effects := "new", P.New, {}, [];
    }

    method Push(e: P.Effect)
      modifies this`effects
      ensures Model() == P.Emit(old(Model()), e)
    {
      effects := effects + [e];
    }

    method Arm(name: P.Name, ms: int)
      modifies this`effects, this`armed
      ensures Model() == P.Arm(old(Model()), name, ms)
    {
      armed := armed + {name};
      Push(P.SetTimer(name, ms));
    }

    method Cancel(name: P.Name)
      modifies this`effects, this`armed
      ensures Model() == P.Cancel(old(Model()), name)
    {
      if name in armed {
        armed := armed - {name};
        Push(P.CancelTimer(name));
      } else {
        assert armed - {name} == armed;
        assert effects + [] == effects;
      }
    }

    method DropStreamTimers()
      modifies this`effects, this`armed
      ensures Model() == P.DropStreamTimers(old(Model()))
    {
      Cancel(P.Negotiate);
      Cancel(P.IceDisconnected);
      Cancel(P.Stable);
    }

    method EndStream()
      modifies this`effects, this`armed, this`stream, this`streamAttempts, this`ice, this`connection
      ensures Model() == P.EndStream(old(Model()))
    {
      if stream != P.Idle {
        Push(P.ClosePeer);
      }
      DropStreamTimers();
      Cancel(P.StreamRetry);
      stream := P.Idle;
      streamAttempts := 0;
      ice, connection := "new", P.New;
    }

    method ScheduleStream(random: real)
      modifies this`effects, this`armed, this`streamAttempts
      ensures Model() == P.ScheduleStream(old(Model()), random)
    {
      var delay := P.BackoffDelay(streamAttempts, random);
      streamAttempts := streamAttempts + 1;
      Arm(P.StreamRetry, delay);
    }

    method Fail(reason: string, random: real)
      modifies this`effects, this`armed, this`stream, this`streamAttempts, this`streamReason, this`ice, this`connection
      ensures Model() == P.Fail(old(Model()), reason, random)
    {
      Push(P.ClosePeer);
      DropStreamTimers();
      ghost var dropped := Model();
      streamReason := reason;
      stream := P.Retrying;
      ice, connection := "new", P.New;
      assert Model() == dropped.(streamReason := reason, stream := P.Retrying, ice := "new", connection := P.New);
      ScheduleStream(random);
    }

    method DropSocketTimers()
      modifies this`effects, this`armed
      ensures Model() == P.DropSocketTimers(old(Model()))
    {
      Cancel(P.Ping);
      Cancel(P.Silence);
      Cancel(P.SocketStable);
    }

    method ScheduleDial(random: real)
      modifies this`effects, this`armed, this`socketAttempts
      ensures Model() == P.ScheduleDial(old(Model()), random)
    {
      var delay := P.BackoffDelay(socketAttempts, random);
      socketAttempts := socketAttempts + 1;
      Arm(P.SocketRetry, delay);
    }

    method SocketLost(wasOpen: bool, random: real)
      modifies this
      ensures Model() == P.LoseSocket(old(Model()), wasOpen, random)
    {
      socket, status := P.Closed, None;
      ghost var lost := old(Model()).(socket := P.Closed, status := None);
      assert Model() == lost;
      EndStream();
      assert Model() == P.EndStream(lost);
      DropSocketTimers();
      ScheduleDial(random);
      if !wasOpen {
        Push(P.CheckAuth);
      }
    }

    method Dial()
      modifies this`effects, this`socket
      ensures Model() == P.Dial(old(Model()))
    {
      socket := P.Connecting;
      Push(P.OpenSocket);
    }

    method Retry()
      modifies this
      ensures Model() == P.OnRetry(old(Model()))
    {
      if socket == P.Closed {
        Cancel(P.SocketRetry);
        socketAttempts := 0;
        Dial();
      } else if socket == P.Open && stream != P.Idle {
        EndStream();
      }
    }

    method GoLive()
      modifies this`effects, this`armed, this`stream, this`streamReason
      ensures Model() == P.GoLive(old(Model()))
    {
      stream, streamReason := P.Live, "";
      Cancel(P.Negotiate);
      Cancel(P.IceDisconnected);
      Arm(P.Stable, P.STABLE_MS);
    }

    method PeerChanged(newIce: string, newConnection: P.Connection, random: real)
      modifies this
      ensures Model() == P.OnPeer(old(Model()), newIce, newConnection, random)
    {
      ice, connection := newIce, newConnection;
      if stream != P.Negotiating && stream != P.Live {
        return;
      }
      if newConnection == P.Connected {
        GoLive();
      } else if newConnection == P.Disconnected {
        if P.IceDisconnected !in armed {
          Arm(P.IceDisconnected, P.DISCONNECTED_MS);
        }
      } else if newConnection == P.Broken {
        Fail("The video connection failed.", random);
      }
    }

    method Message(m: P.Message, random: real)
      modifies this
      ensures Model() == P.OnMessage(old(Model()), m, random)
    {
      match m
      case Status(running, v) =>
        status := Some(running);
        if v.Some? {
          version := v;
        }
      case Hello(width, height, v) =>
        if width > 0 && height > 0 {
          device := (width, height);
        }
        if v.Some? {
          version := v;
        }
      case StreamStarting =>
        if stream == P.Requested {
          stream := P.Starting;
        }
      case StreamConfigured(config) =>
        if stream == P.Requested || stream == P.Starting {
          stream := P.Negotiating;
          Push(P.OpenPeer(config));
        }
      case StreamEnded(reason) =>
        if P.IsActive(stream) {
          Fail(if reason != "" then "The stream ended: " + reason else "The stream ended.", random);
        }
      case Jsep(data) =>
        if P.HasPeer(stream) {
          Push(P.SignalPeer(data));
        }
      case Error(text) =>
        if stream == P.Requested || stream == P.Starting || stream == P.Negotiating {
          Fail(if text != "" then text else "The server refused the stream.", random);
        }
      case OtherMessage =>
    }

    method Fired(name: P.Name, random: real)
      modifies this
      ensures Model() == P.OnTimer(old(Model()), name, random)
    {
      match name
      case Ping =>
        Push(P.SendPing);
        Arm(P.Ping, P.PING_EVERY_MS);
      case Silence =>
        Push(P.CloseSocket);
        SocketLost(true, random);
      case SocketStable => socketAttempts := 0;
      case SocketRetry =>
        if socket == P.Closed {
          Dial();
        }
      case StreamRetry =>
        if stream == P.Retrying {
          stream := P.Idle;
        }
      case Negotiate => Fail("The video connection timed out.", random);
      case IceDisconnected => Fail("The video connection was lost.", random);
      case Stable => streamAttempts := 0;
      case Hidden => paused := true;
    }

    method SocketOpened()
      modifies this`effects, this`armed, this`socket
      ensures Model() == P.OnEvent(old(Model()), P.SocketOpen, 0.0)
    {
      socket := P.Open;
      Arm(P.Ping, P.PING_EVERY_MS);
      Arm(P.Silence, P.SILENCE_MS);
      Arm(P.SocketStable, P.STABLE_MS);
    }

    method VisibilityChanged(nowVisible: bool)
      modifies this`effects, this`armed, this`visible, this`paused
      ensures Model() == P.OnEvent(old(Model()), P.Visibility(nowVisible), 0.0)
    {
      visible := nowVisible;
      if nowVisible {
        Cancel(P.Hidden);
        paused := false;
      } else {
        Arm(P.Hidden, P.HIDDEN_AFTER_MS);
      }
    }

    method On(event: P.Event, random: real)
      modifies this
      ensures Model() == P.OnEvent(old(Model()), event, random)
    {
      match event
      case Start => Dial();
      case SocketOpen => SocketOpened();
      case SocketClose(wasOpen) => SocketLost(wasOpen, random);
      case Receive(m) =>
        if socket == P.Open {
          Arm(P.Silence, P.SILENCE_MS);
        }
        Message(m, random);
      case Timer(name) =>
        armed := armed - {name};
        Fired(name, random);
      case Peer(newIce, newConnection) => PeerChanged(newIce, newConnection, random);
      case Froze =>
        if P.IsActive(stream) {
          Fail("The video froze.", random);
        }
      case Visibility(nowVisible) => VisibilityChanged(nowVisible);
      case Retry => Retry();
    }

    method Reconcile()
      modifies this
      ensures Model() == P.Reconcile(old(Model()))
    {
      if !(socket == P.Open && status == Some(true) && !paused) {
        if stream == P.Idle {
          return;
        }
        if socket == P.Open && status == Some(true) {
          Push(P.SendStream(false));
        }
        EndStream();
      } else if stream == P.Idle {
        stream := P.Requested;
        Push(P.SendStream(true));
        Arm(P.Negotiate, P.NEGOTIATE_MS);
      }
    }

    /** Handles one event; the effects for the page are in `effects`. */
    method Handle(event: P.Event, random: real)
      requires P.LinkInv(Model()) && P.Sensible(Model(), event)
      modifies this
      ensures Model() == P.Handle(old(Model()), event, random)
      ensures P.LinkInv(Model())
    {
      P.HandleInv(Model(), event, random);
      effects := [];
      On(event, random);
      Reconcile();
    }
  }
}
