/** What the link says to the server, to its socket and to its peer: event by event, and over runs what the
    server was last asked for. */
module Requests {
  import opened Wrappers
  import opened Protocol
  import D = Dashboard

  /** Timers and the closing of a peer stay on the page; the rest is said to somebody. */
  predicate IsSaid(e: Effect) {
    !e.SetTimer? && !e.CancelTimer? && !e.ClosePeer?
  }

  function Said(effects: seq<Effect>): seq<Effect>
    decreases |effects|
  {
    if effects == [] then []
    else (if IsSaid(effects[0]) then [effects[0]] else []) + Said(effects[1..])
  }

  /** All that is said after an event: the socket is dialled at the start and after a loss, a signal goes to the
      open peer, and the server hears "start" when a stream becomes wanted or is tried again, "stop" only when
      the tab was hidden for too long. */
  function Due(l: Link, event: Event): seq<Effect> {
    match event
    case Start => [OpenSocket]
    case SocketOpen => if l.status == Some(true) && !l.paused then [SendStream(true)] else []
    case SocketClose(wasOpen) => if wasOpen then [] else [CheckAuth]
    case Receive(Jsep(data)) => if HasPeer(l.stream) then [SignalPeer(data)] else []
    case Receive(StreamConfigured(config)) =>
      if l.stream == Requested || l.stream == Starting then [OpenPeer(config)] else []
    case Receive(Status(running, _)) =>
      if running && l.socket == Open && !l.paused && l.status != Some(true) then [SendStream(true)] else []
    case Timer(Ping) => [SendPing]
    case Timer(Silence) => [CloseSocket]
    case Timer(SocketRetry) => [OpenSocket]
    case Timer(StreamRetry) => [SendStream(true)]
    case Timer(Hidden) => if Wants(l) then [SendStream(false)] else []
    case Visibility(visible) =>
      if visible && l.paused && l.socket == Open && l.status == Some(true) then [SendStream(true)] else []
    case Retry => if l.socket == Closed then [OpenSocket] else if Wants(l) then [SendStream(true)] else []
    case _ => []
  }

  lemma {:induction false} SaidAppend(first: seq<Effect>, second: seq<Effect>)
    ensures Said(first + second) == Said(first) + Said(second)
    decreases |first|
  {
    if first == [] {
      assert first + second == second;
    } else {
      var head := if IsSaid(first[0]) then [first[0]] else [];
      var rest := first[1..];
      SaidAppend(rest, second);
      assert Said(first + second) == head + Said(rest + second) by {
        assert (first + second)[1..] == rest + second;
      }
      assert head + (Said(rest) + Said(second)) == (head + Said(rest)) + Said(second);
    }
  }

  lemma SaidOne(e: Effect)
    ensures Said([e]) == if IsSaid(e) then [e] else []
  {
    assert [e][1..] == [];
  }

  lemma EmitSays(l: Link, e: Effect)
    ensures Said(Emit(l, e).effects) == Said(l.effects) + if IsSaid(e) then [e] else []
  {
    SaidAppend(l.effects, [e]);
    SaidOne(e);
  }

  lemma CancelSaysNothing(l: Link, name: Name)
    ensures Said(Cancel(l, name).effects) == Said(l.effects)
  {
    SaidAppend(l.effects, [CancelTimer(name)]);
    SaidOne(CancelTimer(name));
    assert l.effects + [] == l.effects;
  }

  lemma ArmSaysNothing(l: Link, name: Name, ms: int)
    ensures Said(Arm(l, name, ms).effects) == Said(l.effects)
  {
    EmitSays(l.(armed := l.armed + {name}), SetTimer(name, ms));
  }

  lemma DropSaysNothing(l: Link)
    ensures Said(DropStreamTimers(l).effects) == Said(l.effects)
  {
    CancelSaysNothing(l, Negotiate);
    CancelSaysNothing(Cancel(l, Negotiate), IceDisconnected);
    CancelSaysNothing(Cancel(Cancel(l, Negotiate), IceDisconnected), Stable);
  }

  lemma EndStreamSaysNothing(l: Link)
    ensures Said(EndStream(l).effects) == Said(l.effects)
  {
    var a := if l.stream != Idle then Emit(l, ClosePeer) else l;
    EmitSays(l, ClosePeer);
    DropSaysNothing(a);
    CancelSaysNothing(DropStreamTimers(a), StreamRetry);
  }

  lemma FailSaysNothing(l: Link, reason: string, random: real)
    ensures Said(Fail(l, reason, random).effects) == Said(l.effects)
  {
    var a := Emit(l, ClosePeer);
    EmitSays(l, ClosePeer);
    DropSaysNothing(a);
    var b := DropStreamTimers(a).(streamReason := reason, stream := Retrying, ice := "new", connection := New);
    ArmSaysNothing(b.(streamAttempts := b.streamAttempts + 1), StreamRetry, BackoffDelay(b.streamAttempts, random));
  }

  lemma LoseSocketSays(l: Link, wasOpen: bool, random: real)
    ensures Said(LoseSocket(l, wasOpen, random).effects) == Said(l.effects) + if wasOpen then [] else [CheckAuth]
  {
    var a := EndStream(l.(socket := Closed, status := None));
    EndStreamSaysNothing(l.(socket := Closed, status := None));
    CancelSaysNothing(a, Ping);
    CancelSaysNothing(Cancel(a, Ping), Silence);
    CancelSaysNothing(Cancel(Cancel(a, Ping), Silence), SocketStable);
    var b := DropSocketTimers(a);
    ArmSaysNothing(b.(socketAttempts := b.socketAttempts + 1), SocketRetry, BackoffDelay(b.socketAttempts, random));
    EmitSays(ScheduleDial(b, random), CheckAuth);
  }

  /** What reconciling says, from the state it finds. */
  function Asks(l: Link): seq<Effect> {
    if Wants(l) && l.stream == Idle then [SendStream(true)]
    else if l.stream != Idle && l.paused && l.socket == Open && l.status == Some(true) then [SendStream(false)]
    else []
  }

  lemma ReconcileSays(l: Link)
    ensures Said(Reconcile(l).effects) == Said(l.effects) + Asks(l)
  {
    if !Wants(l) {
      EmitSays(l, SendStream(false));
      EndStreamSaysNothing(l);
      EndStreamSaysNothing(Emit(l, SendStream(false)));
    } else {
      var a := l.(stream := Requested);
      EmitSays(a, SendStream(true));
      ArmSaysNothing(Emit(a, SendStream(true)), Negotiate, NEGOTIATE_MS);
    }
  }

  lemma OpenSaysNothing(l: Link)
    ensures Said(OnEvent(l, SocketOpen, 0.0).effects) == Said(l.effects)
  {
    var a := l.(socket := Open);
    var b := Arm(a, Ping, PING_EVERY_MS);
    ArmSaysNothing(a, Ping, PING_EVERY_MS);
    ArmSaysNothing(b, Silence, SILENCE_MS);
    ArmSaysNothing(Arm(b, Silence, SILENCE_MS), SocketStable, STABLE_MS);
  }

  lemma PeerSaysNothing(l: Link, ice: string, connection: Connection, random: real)
    ensures Said(OnPeer(l, ice, connection, random).effects) == Said(l.effects)
  {
    var m := l.(ice := ice, connection := connection);
    if HasPeer(l.stream) {
      match connection
      case Connected =>
        var a := m.(stream := Live, streamReason := "");
        CancelSaysNothing(a, Negotiate);
        CancelSaysNothing(Cancel(a, Negotiate), IceDisconnected);
        ArmSaysNothing(Cancel(Cancel(a, Negotiate), IceDisconnected), Stable, STABLE_MS);
      case Disconnected => ArmSaysNothing(m, IceDisconnected, DISCONNECTED_MS);
      case Broken => FailSaysNothing(m, "The video connection failed.", random);
      case _ =>
    }
  }

  lemma MessageSays(l: Link, m: Message, random: real)
    ensures Said(OnMessage(l, m, random).effects) == Said(l.effects) +
      match m
      case Jsep(data) => (if HasPeer(l.stream) then [SignalPeer(data)] else [])
      case StreamConfigured(config) => (if l.stream == Requested || l.stream == Starting then [OpenPeer(config)] else [])
      case _ => []
  {
    match m
    case StreamConfigured(config) => EmitSays(l.(stream := Negotiating), OpenPeer(config));
    case StreamEnded(reason) => FailSaysNothing(l, if reason != "" then "The stream ended: " + reason else "The stream ended.", random);
    case Jsep(data) => EmitSays(l, SignalPeer(data));
    case Error(text) => FailSaysNothing(l, if text != "" then text else "The server refused the stream.", random);
    case _ =>
  }

  lemma TimerSays(l: Link, name: Name, random: real)
    ensures Said(OnTimer(l, name, random).effects) == Said(l.effects) +
      match name
      case Ping => [SendPing]
      case Silence => [CloseSocket]
      case SocketRetry => (if l.socket == Closed then [OpenSocket] else [])
      case _ => []
  {
    match name
    case Ping =>
      EmitSays(l, SendPing);
      ArmSaysNothing(Emit(l, SendPing), Ping, PING_EVERY_MS);
    case Silence =>
      EmitSays(l, CloseSocket);
      LoseSocketSays(Emit(l, CloseSocket), true, random);
    case SocketRetry => EmitSays(l.(socket := Connecting), OpenSocket);
    case Negotiate => FailSaysNothing(l, "The video connection timed out.", random);
    case IceDisconnected => FailSaysNothing(l, "The video connection was lost.", random);
    case _ =>
  }

  lemma RetrySays(l: Link)
    ensures Said(OnRetry(l).effects) == Said(l.effects) + if l.socket == Closed then [OpenSocket] else []
  {
    if l.socket == Closed {
      CancelSaysNothing(l, SocketRetry);
      EmitSays(Cancel(l, SocketRetry).(socketAttempts := 0, socket := Connecting), OpenSocket);
    } else {
      EndStreamSaysNothing(l);
    }
  }

  lemma VisibilitySaysNothing(l: Link, visible: bool)
    ensures Said(OnEvent(l, Visibility(visible), 0.0).effects) == Said(l.effects)
  {
    CancelSaysNothing(l.(visible := true), Hidden);
    ArmSaysNothing(l.(visible := false), Hidden, HIDDEN_AFTER_MS);
  }

  /** The part of what is due that is no request for a stream. */
  function Own(l: Link, event: Event): seq<Effect> {
    if Due(l, event) != [] && Due(l, event)[0].SendStream? then [] else Due(l, event)
  }

  function Requests(l: Link, event: Event): seq<Effect> {
    if Due(l, event) != [] && Due(l, event)[0].SendStream? then Due(l, event) else []
  }

  lemma ReceiveSays(l: Link, m: Message, random: real)
    requires l.effects == [] && SocketTimed(l) && Sensible(l, Receive(m))
    ensures Said(OnEvent(l, Receive(m), random).effects) == Own(l, Receive(m))
  {
    ArmSaysNothing(l, Silence, SILENCE_MS);
    MessageSays(if l.socket == Open then Arm(l, Silence, SILENCE_MS) else l, m, random);
  }

  lemma FiredSays(l: Link, name: Name, random: real)
    requires l.effects == [] && SocketTimed(l) && Sensible(l, Timer(name))
    ensures Said(OnEvent(l, Timer(name), random).effects) == Own(l, Timer(name))
  {
    TimerSays(l.(armed := l.armed - {name}), name, random);
  }

  lemma EventSays(l: Link, event: Event, random: real)
    requires l.effects == [] && SocketTimed(l) && Sensible(l, event)
    ensures Said(OnEvent(l, event, random).effects) == Own(l, event)
  {
    match event
    case Start => EmitSays(l.(socket := Connecting), OpenSocket);
    case SocketOpen => OpenSaysNothing(l);
    case SocketClose(wasOpen) => LoseSocketSays(l, wasOpen, random);
    case Receive(m) => ReceiveSays(l, m, random);
    case Timer(name) => FiredSays(l, name, random);
    case Peer(ice, connection) => PeerSaysNothing(l, ice, connection, random);
    case Froze => FailSaysNothing(l, "The video froze.", random);
    case Visibility(visible) => VisibilitySaysNothing(l, visible);
    case Retry => RetrySays(l);
  }

  lemma MessageRequests(l: Link, m: Message, random: real)
    requires LinkInv(l) && Sensible(l, Receive(m))
    ensures Asks(OnEvent(l, Receive(m), random)) == Requests(l, Receive(m))
  {
  }

  lemma TimerRequests(l: Link, name: Name, random: real)
    requires LinkInv(l) && Sensible(l, Timer(name))
    ensures Asks(OnEvent(l, Timer(name), random)) == Requests(l, Timer(name))
  {
  }

  lemma EventRequests(l: Link, event: Event, random: real)
    requires LinkInv(l) && Sensible(l, event)
    ensures Asks(OnEvent(l, event, random)) == Requests(l, event)
  {
    match event
    case Receive(m) => MessageRequests(l, m, random);
    case Timer(name) => TimerRequests(l, name, random);
    case SocketClose(wasOpen) => LossKnows(l, wasOpen, random);
    case Peer(ice, connection) => PeerKnows(l, ice, connection, random);
    case _ =>
  }

  lemma DueIsBoth(l: Link, event: Event)
    ensures Own(l, event) + Requests(l, event) == Due(l, event) == Due(l.(effects := []), event)
  {
    var due := Due(l, event);
    assert [] + due == due && due + [] == due;
  }

  /** After every event the link says exactly what is due. */
  lemma SaysWhatIsDue(l: Link, event: Event, random: real)
    requires LinkInv(l) && Sensible(l, event)
    ensures Said(Handle(l, event, random).effects) == Due(l, event)
  {
    var quiet := l.(effects := []);
    var heard := OnEvent(quiet, event, random);
    calc {
      Said(Handle(l, event, random).effects);
      { ReconcileSays(heard); }
      Said(heard.effects) + Asks(heard);
      { EventSays(quiet, event, random); EventRequests(quiet, event, random); }
      Own(quiet, event) + Requests(quiet, event);
      { DueIsBoth(quiet, event); DueIsBoth(l, event); }
      Due(l, event);
    }
  }

  // What the server was last asked for

  /** Android's stop ends the streams of the server, and a new socket is a new session there. */
  function AskedBefore(asked: bool, event: Event): bool {
    match event
    case SocketOpen => false
    case Receive(Status(running, _)) => running && asked
    case _ => asked
  }

  /** The last request among the effects, if there is one. */
  function AskedAfter(asked: bool, effects: seq<Effect>): bool
    decreases |effects|
  {
    if effects == [] then asked
    else AskedAfter(if effects[0].SendStream? then effects[0].start else asked, effects[1..])
  }

  lemma {:induction false} OnlyWhatIsSaidCounts(asked: bool, effects: seq<Effect>)
    ensures AskedAfter(asked, effects) == AskedAfter(asked, Said(effects))
    decreases |effects|
  {
    if effects != [] {
      var now := if effects[0].SendStream? then effects[0].start else asked;
      OnlyWhatIsSaidCounts(now, effects[1..]);
      if IsSaid(effects[0]) {
        assert ([effects[0]] + Said(effects[1..]))[1..] == Said(effects[1..]);
      } else {
        assert [] + Said(effects[1..]) == Said(effects[1..]);
      }
    }
  }

  function Asked(asked: bool, d: D.Dash, events: seq<(Event, real)>): bool
    decreases |events|
  {
    if events == [] then asked
    else
      var next := D.Dispatch(d, events[0].0, events[0].1);
      Asked(AskedAfter(AskedBefore(asked, events[0].0), next.link.effects), next, events[1..])
  }

  /** The server knows whether a stream is wanted, as far as it can be told. */
  predicate Agreed(asked: bool, l: Link) {
    l.socket == Open ==> (asked <==> l.stream != Idle)
  }

  /** Whether the socket is open after an event, and whether a stream is wanted then. */
  predicate OpenAfter(l: Link, event: Event) {
    match event
    case SocketOpen => true
    case SocketClose(_) => false
    case Timer(Silence) => false
    case _ => l.socket == Open
  }

  predicate WantedAfter(l: Link, event: Event) {
    OpenAfter(l, event) &&
    match event
    case Receive(Status(running, _)) => running && !l.paused
    case Timer(Hidden) => false
    case Visibility(true) => l.status == Some(true)
    case _ => l.status == Some(true) && !l.paused
  }

  lemma MessageWants(l: Link, m: Message, random: real)
    ensures (OnMessage(l, m, random).socket == Open) == OpenAfter(l, Receive(m))
    ensures Wants(OnMessage(l, m, random)) == WantedAfter(l, Receive(m))
  {
  }

  lemma TimerWants(l: Link, name: Name, random: real)
    ensures (OnTimer(l, name, random).socket == Open) == OpenAfter(l, Timer(name))
    ensures Wants(OnTimer(l, name, random)) == WantedAfter(l, Timer(name))
  {
  }

  lemma EventWants(l: Link, event: Event, random: real)
    requires SocketTimed(l) && Sensible(l, event)
    ensures (OnEvent(l, event, random).socket == Open) == OpenAfter(l, event)
    ensures Wants(OnEvent(l, event, random)) == WantedAfter(l, event)
  {
    match event
    case Receive(m) => MessageWants(if l.socket == Open then Arm(l, Silence, SILENCE_MS) else l, m, random);
    case Timer(name) => TimerWants(l.(armed := l.armed - {name}), name, random);
    case SocketClose(wasOpen) => LossKnows(l, wasOpen, random);
    case Peer(ice, connection) => PeerKnows(l, ice, connection, random);
    case _ =>
  }

  lemma ReconcileKeepsWants(l: Link)
    ensures Reconcile(l).socket == l.socket && Wants(Reconcile(l)) == Wants(l)
  {
  }

  lemma HandleWants(l: Link, event: Event, random: real)
    requires LinkInv(l) && Sensible(l, event)
    ensures (Handle(l, event, random).socket == Open) == OpenAfter(l, event)
    ensures (Handle(l, event, random).stream != Idle) == WantedAfter(l, event)
  {
    var quiet := l.(effects := []);
    EventWants(quiet, event, random);
    ReconcileKeepsWants(OnEvent(quiet, event, random));
    HandleInv(l, event, random);
  }

  lemma DueTells(asked: bool, l: Link, event: Event)
    requires LinkInv(l) && Sensible(l, event) && Agreed(asked, l)
    ensures OpenAfter(l, event) ==> AskedAfter(AskedBefore(asked, event), Due(l, event)) == WantedAfter(l, event)
  {
    var due := Due(l, event);
    if due != [] {
      assert due == [due[0]] && due[1..] == [];
    }
  }

  lemma DueKeepsAgreed(asked: bool, l: Link, event: Event, random: real)
    requires LinkInv(l) && Sensible(l, event) && Agreed(asked, l)
    ensures Agreed(AskedAfter(AskedBefore(asked, event), Due(l, event)), Handle(l, event, random))
  {
    HandleWants(l, event, random);
    DueTells(asked, l, event);
  }

  lemma DispatchKeepsAgreed(asked: bool, d: D.Dash, event: Event, random: real)
    requires D.DashInv(d) && D.Deliverable(d, event) && Agreed(asked, d.link)
    ensures
      var next := D.Dispatch(d, event, random);
      Agreed(AskedAfter(AskedBefore(asked, event), next.link.effects), next.link)
  {
    SaysWhatIsDue(d.link, event, random);
    OnlyWhatIsSaidCounts(AskedBefore(asked, event), Handle(d.link, event, random).effects);
    DueKeepsAgreed(asked, d.link, event, random);
  }

  /** Over every run, while the socket is open: the server was last asked to start exactly while a stream is
      under way here, and that is exactly while one is wanted. */
  lemma {:induction false} ServerKnowsWhatIsWanted(asked: bool, d: D.Dash, events: seq<(Event, real)>, r: D.Dash)
    requires D.DashInv(d) && Agreed(asked, d.link) && D.Run(d, events, r)
    ensures r.link.socket == Open ==>
      && (Asked(asked, d, events) <==> r.link.stream != Idle)
      && (Asked(asked, d, events) <==> r.link.status == Some(true) && !r.link.paused)
    decreases |events|
  {
    if events == [] {
    } else {
      var next := D.Dispatch(d, events[0].0, events[0].1);
      D.DispatchInv(d, events[0].0, events[0].1);
      DispatchKeepsAgreed(asked, d, events[0].0, events[0].1);
      ServerKnowsWhatIsWanted(AskedAfter(AskedBefore(asked, events[0].0), next.link.effects), next, events[1..], r);
    }
  }

  // What moves a stream

  /** The reasons for which a stream that is wanted is given up for now. */
  predicate Fails(l: Link, event: Event) {
    match event
    case Froze => IsActive(l.stream)
    case Receive(StreamEnded(_)) => IsActive(l.stream)
    case Receive(Error(_)) => l.stream == Requested || l.stream == Starting || l.stream == Negotiating
    case Timer(Negotiate) => true
    case Timer(IceDisconnected) => true
    case Peer(_, connection) => HasPeer(l.stream) && connection == Broken
    case _ => false
  }

  /** Where a stream is after an event, of those that go on wanting it. */
  function Moved(l: Link, event: Event): Stream {
    if Fails(l, event) then Retrying
    else match event
      case Receive(StreamStarting) => if l.stream == Requested then Starting else l.stream
      case Receive(StreamConfigured(_)) => if l.stream == Requested || l.stream == Starting then Negotiating else l.stream
      case Peer(_, connection) => if l.stream == Negotiating && connection == Connected then Live else l.stream
      case _ => l.stream
  }

  predicate Begins(l: Link, event: Event) {
    Due(l, event) == [SendStream(true)]
  }

  lemma ReconcileMoves(l: Link)
    ensures Wants(l) ==> Reconcile(l).stream == if l.stream == Idle then Requested else l.stream
  {
  }

  lemma MessageMoves(l: Link, m: Message, random: real)
    requires LinkInv(l) && Sensible(l, Receive(m)) && WantedAfter(l, Receive(m))
    ensures OnEvent(l, Receive(m), random).stream == if Begins(l, Receive(m)) then Idle else Moved(l, Receive(m))
  {
  }

  lemma TimerMoves(l: Link, name: Name, random: real)
    requires LinkInv(l) && Sensible(l, Timer(name)) && WantedAfter(l, Timer(name))
    ensures OnEvent(l, Timer(name), random).stream == if Begins(l, Timer(name)) then Idle else Moved(l, Timer(name))
  {
  }

  lemma EventMoves(l: Link, event: Event, random: real)
    requires LinkInv(l) && Sensible(l, event) && WantedAfter(l, event)
    ensures OnEvent(l, event, random).stream == if Begins(l, event) then Idle else Moved(l, event)
  {
    match event
    case Receive(m) => MessageMoves(l, m, random);
    case Timer(name) => TimerMoves(l, name, random);
    case _ =>
  }

  /** A stream that is not wanted is idle. One that begins is requested, whatever it was; any other moves forward
      with the server's messages and the peer's connection, or fails and waits for its next try. */
  lemma StreamsMove(l: Link, event: Event, random: real)
    requires LinkInv(l) && Sensible(l, event)
    ensures Handle(l, event, random).stream ==
      if !WantedAfter(l, event) then Idle else if Begins(l, event) then Requested else Moved(l, event)
  {
    var quiet := l.(effects := []);
    HandleWants(l, event, random);
    if WantedAfter(l, event) {
      EventWants(quiet, event, random);
      EventMoves(quiet, event, random);
      ReconcileMoves(OnEvent(quiet, event, random));
      assert Moved(quiet, event) == Moved(l, event) && Begins(quiet, event) == Begins(l, event);
    }
  }

  lemma FailWaits(l: Link, reason: string, random: real)
    ensures SetTimer(StreamRetry, BackoffDelay(l.streamAttempts, random)) in Fail(l, reason, random).effects
    ensures Fail(l, reason, random).streamAttempts == l.streamAttempts + 1
  {
    var effects := Fail(l, reason, random).effects;
    assert effects[|effects| - 1] == SetTimer(StreamRetry, BackoffDelay(l.streamAttempts, random));
  }

  lemma EventFails(l: Link, event: Event, random: real) returns (reason: string, failing: Link)
    requires LinkInv(l) && Sensible(l, event) && Fails(l, event)
    ensures OnEvent(l, event, random) == Fail(failing, reason, random) && failing.streamAttempts == l.streamAttempts
  {
    match event
    case Froze => reason, failing := "The video froze.", l;
    case Receive(StreamEnded(text)) =>
      reason := if text != "" then "The stream ended: " + text else "The stream ended.";
      failing := if l.socket == Open then Arm(l, Silence, SILENCE_MS) else l;
    case Receive(Error(text)) =>
      reason := if text != "" then text else "The server refused the stream.";
      failing := if l.socket == Open then Arm(l, Silence, SILENCE_MS) else l;
    case Timer(Negotiate) => reason, failing := "The video connection timed out.", l.(armed := l.armed - {Negotiate});
    case Timer(_) => reason, failing := "The video connection was lost.", l.(armed := l.armed - {IceDisconnected});
    case Peer(ice, connection) => reason, failing := "The video connection failed.", l.(ice := ice, connection := connection);
  }

  /** A failed stream waits for its next try, longer for each failure in a row. */
  lemma FailedStreamWaits(l: Link, event: Event, random: real)
    requires LinkInv(l) && Sensible(l, event) && WantedAfter(l, event) && Fails(l, event)
    ensures Handle(l, event, random).streamAttempts == l.streamAttempts + 1
    ensures SetTimer(StreamRetry, BackoffDelay(l.streamAttempts, random)) in Handle(l, event, random).effects
  {
    var quiet := l.(effects := []);
    var reason, failing := EventFails(quiet, event, random);
    FailWaits(failing, reason, random);
    EventWants(quiet, event, random);
    assert Handle(l, event, random) == Reconcile(Fail(failing, reason, random)) == Fail(failing, reason, random);
  }

  /** The count of failures starts anew only when the stream was stable, ended, or is tried again by hand. */
  lemma FailuresAreCounted(l: Link, event: Event, random: real)
    requires LinkInv(l) && Sensible(l, event) && WantedAfter(l, event) && !Fails(l, event) && Wants(l)
    ensures Handle(l, event, random).streamAttempts ==
      if event == Timer(Stable) || event == Retry then 0 else l.streamAttempts
  {
    match event
    case Receive(m) => MessageKeepsCount(l, m, random);
    case Timer(name) => TimerKeepsCount(l, name, random);
    case _ =>
  }

  lemma MessageKeepsCount(l: Link, m: Message, random: real)
    requires LinkInv(l) && WantedAfter(l, Receive(m)) && !Fails(l, Receive(m)) && Wants(l)
    ensures Handle(l, Receive(m), random).streamAttempts == l.streamAttempts
  {
  }

  lemma TimerKeepsCount(l: Link, name: Name, random: real)
    requires LinkInv(l) && name in l.armed && WantedAfter(l, Timer(name)) && !Fails(l, Timer(name)) && Wants(l)
    ensures Handle(l, Timer(name), random).streamAttempts == if name == Stable then 0 else l.streamAttempts
  {
  }

  // What the link knows

  predicate LosesSocket(event: Event) {
    event.SocketClose? || event == Timer(Silence)
  }

  /** A lost socket is dialled again after a wait that grows with each loss in a row; a socket that held for a while,
      or a retry by hand, starts the count anew. */
  lemma LossesAreCounted(l: Link, event: Event, random: real)
    requires LinkInv(l) && Sensible(l, event)
    ensures Handle(l, event, random).socketAttempts ==
      if LosesSocket(event) then l.socketAttempts + 1
      else if event == Timer(SocketStable) || (event == Retry && l.socket == Closed) then 0
      else l.socketAttempts
  {
    var quiet := l.(effects := []);
    ReconcileKeepsKnown(OnEvent(quiet, event, random));
    match event
    case Receive(m) => MessageKnows(if l.socket == Open then Arm(quiet, Silence, SILENCE_MS) else quiet, m, random);
    case Timer(name) => TimerKnows(quiet.(armed := quiet.armed - {name}), name, random);
    case SocketClose(wasOpen) => LossKnows(quiet, wasOpen, random);
    case Peer(ice, connection) => PeerKnows(quiet, ice, connection, random);
    case _ =>
  }

  lemma LossWaits(l: Link, wasOpen: bool, random: real)
    ensures SetTimer(SocketRetry, BackoffDelay(l.socketAttempts, random)) in LoseSocket(l, wasOpen, random).effects
  {
    var dropped := DropSocketTimers(EndStream(l.(socket := Closed, status := None)));
    assert dropped.socketAttempts == l.socketAttempts;
    var scheduled := ScheduleDial(dropped, random).effects;
    assert scheduled[|scheduled| - 1] == SetTimer(SocketRetry, BackoffDelay(l.socketAttempts, random));
  }

  lemma LostSocketWaits(l: Link, event: Event, random: real)
    requires LinkInv(l) && Sensible(l, event) && LosesSocket(event)
    ensures SetTimer(SocketRetry, BackoffDelay(l.socketAttempts, random)) in Handle(l, event, random).effects
  {
    var quiet := l.(effects := []);
    if event.SocketClose? {
      LossWaits(quiet, event.wasOpen, random);
    } else {
      LossWaits(Emit(quiet.(armed := quiet.armed - {Silence}), CloseSocket), true, random);
    }
    var heard := OnEvent(quiet, event, random);
    assert heard.stream == Idle && !Wants(heard);
  }

  /** What the server and the browser said last: the state of Android on this socket, the size of the device, the
      version, whether the tab is visible, and whether it was hidden for too long. */
  datatype Known = Known(status: Option<bool>, device: (int, int), version: Option<string>, visible: bool, paused: bool)

  function Newer(version: Option<string>, last: Option<string>): Option<string> {
    if version.Some? then version else last
  }

  function KnownAfter(k: Known, event: Event): Known {
    match event
    case SocketClose(_) => k.(status := None)
    case Timer(Silence) => k.(status := None)
    case Receive(Status(running, version)) => k.(status := Some(running), version := Newer(version, k.version))
    case Receive(Hello(width, height, version)) =>
      k.(device := if width > 0 && height > 0 then (width, height) else k.device, version := Newer(version, k.version))
    case Timer(Hidden) => k.(paused := true)
    case Visibility(visible) => k.(visible := visible, paused := k.paused && !visible)
    case _ => k
  }

  function KnownAfterAll(k: Known, events: seq<(Event, real)>): Known
    decreases |events|
  {
    if events == [] then k else KnownAfterAll(KnownAfter(k, events[0].0), events[1..])
  }

  function KnownTo(l: Link): Known {
    Known(l.status, l.device, l.version, l.visible, l.paused)
  }

  lemma ReconcileKeepsKnown(l: Link)
    ensures KnownTo(Reconcile(l)) == KnownTo(l) && Reconcile(l).socketAttempts == l.socketAttempts
    ensures Reconcile(l).streamReason == l.streamReason
  {
  }

  lemma MessageKnows(l: Link, m: Message, random: real)
    ensures KnownTo(OnMessage(l, m, random)) == KnownAfter(KnownTo(l), Receive(m))
    ensures OnMessage(l, m, random).socketAttempts == l.socketAttempts
  {
  }

  lemma TimerKnows(l: Link, name: Name, random: real)
    ensures KnownTo(OnTimer(l, name, random)) == KnownAfter(KnownTo(l), Timer(name))
    ensures OnTimer(l, name, random).socketAttempts ==
      if name == Silence then l.socketAttempts + 1 else if name == SocketStable then 0 else l.socketAttempts
  {
  }

  lemma LossKnows(l: Link, wasOpen: bool, random: real)
    ensures KnownTo(LoseSocket(l, wasOpen, random)) == KnownTo(l).(status := None)
    ensures LoseSocket(l, wasOpen, random).socketAttempts == l.socketAttempts + 1
    ensures LoseSocket(l, wasOpen, random).socket == Closed && LoseSocket(l, wasOpen, random).stream == Idle
  {
  }

  lemma PeerKnows(l: Link, ice: string, connection: Connection, random: real)
    ensures KnownTo(OnPeer(l, ice, connection, random)) == KnownTo(l)
    ensures OnPeer(l, ice, connection, random).socketAttempts == l.socketAttempts
    ensures OnPeer(l, ice, connection, random).socket == l.socket
    ensures (OnPeer(l, ice, connection, random).stream == Idle) == (l.stream == Idle)
  {
  }

  lemma EventKnows(l: Link, event: Event, random: real)
    ensures KnownTo(OnEvent(l, event, random)) == KnownAfter(KnownTo(l), event)
  {
    match event
    case SocketClose(wasOpen) => LossKnows(l, wasOpen, random);
    case Peer(ice, connection) => PeerKnows(l, ice, connection, random);
    case Receive(m) => MessageKnows(if l.socket == Open then Arm(l, Silence, SILENCE_MS) else l, m, random);
    case Timer(name) => TimerKnows(l.(armed := l.armed - {name}), name, random);
    case _ =>
  }

  /** Over every run the link knows exactly what was said last. */
  lemma {:induction false} LinkKnowsTheLatest(d: D.Dash, events: seq<(Event, real)>, r: D.Dash)
    requires D.Run(d, events, r)
    ensures KnownTo(r.link) == KnownAfterAll(KnownTo(d.link), events)
    decreases |events|
  {
    if events == [] {
    } else {
      var (event, random) := events[0];
      var quiet := d.link.(effects := []);
      EventKnows(quiet, event, random);
      ReconcileKeepsKnown(OnEvent(quiet, event, random));
      LinkKnowsTheLatest(D.Dispatch(d, event, random), events[1..], r);
    }
  }

  /** The viewer reads why a stream failed, in the server's words if it has any, until video flows again. */
  lemma ReasonIsShown(l: Link, event: Event, random: real)
    requires LinkInv(l) && Sensible(l, event)
    ensures
      var reason := Handle(l, event, random).streamReason;
      && (Fails(l, event) ==> reason != "")
      && (Fails(l, event) && event.Receive? && event.message.Error? && event.message.text != "" ==> reason == event.message.text)
      && (Fails(l, event) && event.Receive? && event.message.StreamEnded? && event.message.reason != "" ==>
            reason == "The stream ended: " + event.message.reason)
      && (!Fails(l, event) ==>
            reason == if HasPeer(l.stream) && event.Peer? && event.connection == Connected then "" else l.streamReason)
  {
    var quiet := l.(effects := []);
    ReconcileKeepsKnown(OnEvent(quiet, event, random));
    match event
    case Receive(m) => MessageReason(if l.socket == Open then Arm(quiet, Silence, SILENCE_MS) else quiet, m, random);
    case Timer(name) => TimerReason(quiet.(armed := quiet.armed - {name}), name, random);
    case _ =>
  }

  lemma MessageReason(l: Link, m: Message, random: real)
    ensures
      var reason := OnMessage(l, m, random).streamReason;
      if Fails(l, Receive(m)) then
        reason != "" && (m.Error? && m.text != "" ==> reason == m.text)
        && (m.StreamEnded? && m.reason != "" ==> reason == "The stream ended: " + m.reason)
      else
        reason == l.streamReason
  {
  }

  lemma TimerReason(l: Link, name: Name, random: real)
    ensures
      var reason := OnTimer(l, name, random).streamReason;
      if name == Negotiate || name == IceDisconnected then reason != "" else reason == l.streamReason
  {
  }
}
