/** The dashboard's side of the session protocol: events in, effects out. */
module Protocol {
  import opened Wrappers

  const HIDDEN_AFTER_MS := 60000
  const PING_EVERY_MS := 10000
  const SILENCE_MS := 25000
  const NEGOTIATE_MS := 15000
  const DISCONNECTED_MS := 4000
  const STABLE_MS := 8000
  const MIN_DELAY := 500
  const MAX_DELAY := 10000

  datatype Name = Ping | Silence | SocketStable | SocketRetry | StreamRetry | Negotiate | IceDisconnected | Stable | Hidden

  datatype Socket = SocketIdle | Connecting | Open | Closed

  datatype Stream = Idle | Requested | Starting | Negotiating | Live | Retrying

  datatype Connection = New | Connected | Disconnected | Broken | OtherConnection

  /** A status names the state of Android; only "running" matters here. */
  datatype Message =
    | Status(running: bool, version: Option<string>)
    | Hello(width: int, height: int, version: Option<string>)
    | StreamStarting | StreamConfigured(config: string) | StreamEnded(reason: string)
    | Jsep(data: string)
    | Error(text: string)
    | OtherMessage

  datatype Event =
    | Start | SocketOpen | SocketClose(wasOpen: bool) | Receive(message: Message) | Timer(name: Name)
    | Peer(ice: string, connection: Connection) | Froze | Visibility(visible: bool) | Retry

  datatype Effect =
    | OpenSocket | CloseSocket | SendStream(start: bool) | SendPing
    | SetTimer(name: Name, ms: int) | CancelTimer(name: Name)
    | OpenPeer(config: string) | SignalPeer(data: string) | ClosePeer
    | CheckAuth

  /** `state`, `#armed` and the effects of the event at hand. */
  datatype Link = Link(
    socket: Socket, socketAttempts: nat, status: Option<bool>, device: (int, int), version: Option<string>,
    visible: bool, paused: bool,
    stream: Stream, streamAttempts: nat, streamReason: string, ice: string, connection: Connection,
    armed: set<Name>, effects: seq<Effect>)

  const INITIAL := Link(SocketIdle, 0, None, (1080, 1920), None, true, false, Idle, 0, "", "new", New, {}, [])

  predicate Wants(l: Link) {
    l.socket == Open && l.status == Some(true) && !l.paused
  }

  predicate IsActive(stream: Stream) {
    stream == Starting || stream == Negotiating || stream == Live
  }

  predicate HasPeer(stream: Stream) {
    stream == Negotiating || stream == Live
  }

  function Power2(n: nat): nat {
    if n == 0 then 1 else 2 * Power2(n - 1)
  }

  /** Exponential with a jitter; `random` lies in [0, 1). */
  function BackoffDelay(attempt: nat, random: real): int {
    var base := if MIN_DELAY * Power2(attempt) < MAX_DELAY then MIN_DELAY * Power2(attempt) else MAX_DELAY;
    var delay := base as real * (1.0 + 0.25 * (2.0 * random - 1.0));
    var clipped := if delay < MIN_DELAY as real then MIN_DELAY as real else if delay > MAX_DELAY as real then MAX_DELAY as real else delay;
    (clipped + 0.5).Floor
  }

  lemma BackoffIsBounded(attempt: nat, random: real)
    ensures MIN_DELAY <= BackoffDelay(attempt, random) <= MAX_DELAY
  {
  }

  /** The delay doubles with each failed try up to ten seconds, give or take a quarter and half a millisecond. */
  lemma BackoffDoubles(attempt: nat, random: real)
    requires 0.0 <= random < 1.0
    ensures
      var base := if Power2(attempt) < 20 then 500.0 * Power2(attempt) as real else 10000.0;
      0.75 * base - 0.5 <= BackoffDelay(attempt, random) as real <= 1.25 * base + 0.5
  {
    var base := if Power2(attempt) < 20 then 500.0 * Power2(attempt) as real else 10000.0;
    var share := 1.0 + 0.25 * (2.0 * random - 1.0);
    assert 0.75 <= share <= 1.25;
    assert 0.75 * base <= base * share <= 1.25 * base;
  }

  function Emit(l: Link, e: Effect): Link {
    l.(effects := l.effects + [e])
  }

  function Arm(l: Link, name: Name, ms: int): Link {
    Emit(l.(armed := l.armed + {name}), SetTimer(name, ms))
  }

  function Cancel(l: Link, name: Name): Link {
    l.(armed := l.armed - {name}, effects := l.effects + if name in l.armed then [CancelTimer(name)] else [])
  }

  function DropStreamTimers(l: Link): Link {
    Cancel(Cancel(Cancel(l, Negotiate), IceDisconnected), Stable)
  }

  /** The link forgets the stream; no message goes out. */
  function EndStream(l: Link): Link {
    var l := if l.stream != Idle then Emit(l, ClosePeer) else l;
    var l := Cancel(DropStreamTimers(l), StreamRetry);
    l.(stream := Idle, streamAttempts := 0, ice := "new", connection := New)
  }

  function ScheduleStream(l: Link, random: real): Link {
    Arm(l.(streamAttempts := l.streamAttempts + 1), StreamRetry, BackoffDelay(l.streamAttempts, random))
  }

  function Fail(l: Link, reason: string, random: real): Link {
    var l := DropStreamTimers(Emit(l, ClosePeer));
    ScheduleStream(l.(streamReason := reason, stream := Retrying, ice := "new", connection := New), random)
  }

  function DropSocketTimers(l: Link): Link {
    Cancel(Cancel(Cancel(l, Ping), Silence), SocketStable)
  }

  function ScheduleDial(l: Link, random: real): Link {
    Arm(l.(socketAttempts := l.socketAttempts + 1), SocketRetry, BackoffDelay(l.socketAttempts, random))
  }

  function LoseSocket(l: Link, wasOpen: bool, random: real): Link {
    var l := ScheduleDial(DropSocketTimers(EndStream(l.(socket := Closed, status := None))), random);
    if !wasOpen then Emit(l, CheckAuth) else l
  }

  function Dial(l: Link): Link {
    Emit(l.(socket := Connecting), OpenSocket)
  }

  function OnRetry(l: Link): Link {
    if l.socket == Closed then Dial(Cancel(l, SocketRetry).(socketAttempts := 0))
    else if l.socket == Open && l.stream != Idle then EndStream(l)
    else l
  }

  function GoLive(l: Link): Link {
    Arm(Cancel(Cancel(l.(stream := Live, streamReason := ""), Negotiate), IceDisconnected), Stable, STABLE_MS)
  }

  function OnPeer(l: Link, ice: string, connection: Connection, random: real): Link {
    var l := l.(ice := ice, connection := connection);
    if !HasPeer(l.stream) then l
    else match connection
      case Connected => GoLive(l)
      case Disconnected => if IceDisconnected in l.armed then l else Arm(l, IceDisconnected, DISCONNECTED_MS)
      case Broken => Fail(l, "The video connection failed.", random)
      case _ => l
  }

  function OnMessage(l: Link, m: Message, random: real): Link {
    match m
    case Status(running, version) => l.(status := Some(running), version := if version.Some? then version else l.version)
    case Hello(width, height, version) =>
      l.(device := if width > 0 && height > 0 then (width, height) else l.device, version := if version.Some? then version else l.version)
    case StreamStarting => if l.stream == Requested then l.(stream := Starting) else l
    case StreamConfigured(config) =>
      if l.stream == Requested || l.stream == Starting then Emit(l.(stream := Negotiating), OpenPeer(config)) else l
    case StreamEnded(reason) =>
      if IsActive(l.stream) then Fail(l, if reason != "" then "The stream ended: " + reason else "The stream ended.", random) else l
    case Jsep(data) => if HasPeer(l.stream) then Emit(l, SignalPeer(data)) else l
    case Error(text) =>
      if l.stream == Requested || l.stream == Starting || l.stream == Negotiating then
        Fail(l, if text != "" then text else "The server refused the stream.", random)
      else
        l
    case OtherMessage => l
  }

  function OnTimer(l: Link, name: Name, random: real): Link {
    match name
    case Ping => Arm(Emit(l, SendPing), Ping, PING_EVERY_MS)
    case Silence => LoseSocket(Emit(l, CloseSocket), true, random)
    case SocketStable => l.(socketAttempts := 0)
    case SocketRetry => if l.socket == Closed then Dial(l) else l
    case StreamRetry => if l.stream == Retrying then l.(stream := Idle) else l
    case Negotiate => Fail(l, "The video connection timed out.", random)
    case IceDisconnected => Fail(l, "The video connection was lost.", random)
    case Stable => l.(streamAttempts := 0)
    case Hidden => l.(paused := true)
  }

  function OnEvent(l: Link, event: Event, random: real): Link {
    match event
    case Start => Dial(l)
    case SocketOpen =>
      Arm(Arm(Arm(l.(socket := Open), Ping, PING_EVERY_MS), Silence, SILENCE_MS), SocketStable, STABLE_MS)
    case SocketClose(wasOpen) => LoseSocket(l, wasOpen, random)
    case Receive(m) => OnMessage(if l.socket == Open then Arm(l, Silence, SILENCE_MS) else l, m, random)
    case Timer(name) => OnTimer(l.(armed := l.armed - {name}), name, random)
    case Peer(ice, connection) => OnPeer(l, ice, connection, random)
    case Froze => if IsActive(l.stream) then Fail(l, "The video froze.", random) else l
    case Visibility(visible) =>
      if visible then Cancel(l.(visible := true), Hidden).(paused := false)
      else Arm(l.(visible := false), Hidden, HIDDEN_AFTER_MS)
    case Retry => OnRetry(l)
  }

  function Reconcile(l: Link): Link {
    if !Wants(l) then
      if l.stream == Idle then l
      else EndStream(if l.socket == Open && l.status == Some(true) then Emit(l, SendStream(false)) else l)
    else if l.stream == Idle then
      Arm(Emit(l.(stream := Requested), SendStream(true)), Negotiate, NEGOTIATE_MS)
    else
      l
  }

  function Handle(l: Link, event: Event, random: real): Link {
    Reconcile(OnEvent(l.(effects := []), event, random))
  }

  // What the timers say about the state

  predicate SocketTimed(l: Link) {
    && (Ping in l.armed <==> l.socket == Open)
    && (Silence in l.armed <==> l.socket == Open)
    && (SocketRetry in l.armed <==> l.socket == Closed)
    && (SocketStable in l.armed ==> l.socket == Open)
  }

  predicate StreamTimed(l: Link) {
    && (Negotiate in l.armed <==> l.stream == Requested || l.stream == Starting || l.stream == Negotiating)
    && (StreamRetry in l.armed <==> l.stream == Retrying)
    && (Stable in l.armed ==> l.stream == Live)
    && (IceDisconnected in l.armed ==> HasPeer(l.stream))
  }

  predicate HiddenTimed(l: Link) {
    Hidden in l.armed || l.paused <==> !l.visible
  }

  predicate Timed(l: Link) {
    SocketTimed(l) && StreamTimed(l) && HiddenTimed(l)
  }

  predicate LinkInv(l: Link) {
    Timed(l) && (l.stream == Idle <==> !Wants(l))
  }

  /** The events that main.js can deliver, given the state of the link. */
  predicate Sensible(l: Link, event: Event) {
    match event
    case Start => l.socket == SocketIdle
    case SocketOpen => l.socket == Connecting
    case SocketClose(wasOpen) => l.socket == (if wasOpen then Open else Connecting)
    case Receive(m) => l.socket == Open || (m.Status? && l.socket != SocketIdle)
    case Timer(name) => name in l.armed
    case _ => l.socket != SocketIdle
  }

  // The shared pieces put the stream timers right, whatever they were

  lemma EndStreamTimed(l: Link)
    requires SocketTimed(l) && HiddenTimed(l)
    ensures Timed(EndStream(l)) && EndStream(l).stream == Idle
    ensures EndStream(l).socket == l.socket && EndStream(l).status == l.status && EndStream(l).paused == l.paused
  {
  }

  lemma FailTimed(l: Link, reason: string, random: real)
    requires SocketTimed(l) && HiddenTimed(l)
    ensures Timed(Fail(l, reason, random))
  {
  }

  lemma LoseSocketTimed(l: Link, wasOpen: bool, random: real)
    requires HiddenTimed(l)
    ensures Timed(LoseSocket(l, wasOpen, random))
  {
  }

  lemma MessageTimed(l: Link, m: Message, random: real)
    requires Timed(l)
    ensures Timed(OnMessage(l, m, random))
  {
    match m
    case StreamEnded(reason) => FailTimed(l, if reason != "" then "The stream ended: " + reason else "The stream ended.", random);
    case Error(text) => FailTimed(l, if text != "" then text else "The server refused the stream.", random);
    case _ =>
  }

  lemma TimerTimed(l: Link, name: Name, random: real)
    requires Timed(l) && name in l.armed
    ensures Timed(OnTimer(l.(armed := l.armed - {name}), name, random))
  {
    var fired := l.(armed := l.armed - {name});
    match name
    case Silence => LoseSocketTimed(Emit(fired, CloseSocket), true, random);
    case Negotiate => FailTimed(fired, "The video connection timed out.", random);
    case IceDisconnected => FailTimed(fired, "The video connection was lost.", random);
    case _ =>
  }

  lemma PeerTimed(l: Link, ice: string, connection: Connection, random: real)
    requires Timed(l)
    ensures Timed(OnPeer(l, ice, connection, random))
  {
    var changed := l.(ice := ice, connection := connection);
    assert Timed(changed);
    if HasPeer(l.stream) && connection == Broken {
      FailTimed(changed, "The video connection failed.", random);
    } else if HasPeer(l.stream) && connection == Connected {
      assert Timed(GoLive(changed));
    }
  }

  lemma OnEventTimed(l: Link, event: Event, random: real)
    requires Timed(l) && Sensible(l, event)
    ensures Timed(OnEvent(l, event, random))
  {
    match event
    case Receive(m) => MessageTimed(if l.socket == Open then Arm(l, Silence, SILENCE_MS) else l, m, random);
    case Timer(name) => TimerTimed(l, name, random);
    case Peer(ice, connection) => PeerTimed(l, ice, connection, random);
    case Retry => EndStreamTimed(l);
    case SocketClose(wasOpen) => LoseSocketTimed(l, wasOpen, random);
    case Froze => FailTimed(l, "The video froze.", random);
    case _ =>
  }

  lemma ReconcileInv(l: Link)
    requires Timed(l)
    ensures LinkInv(Reconcile(l))
  {
    EndStreamTimed(l);
    EndStreamTimed(Emit(l, SendStream(false)));
  }

  /** After every event a stream is under way exactly when it is wanted, and the armed timers
      follow the state. */
  lemma HandleInv(l: Link, event: Event, random: real)
    requires LinkInv(l) && Sensible(l, event)
    ensures LinkInv(Handle(l, event, random))
  {
    OnEventTimed(l.(effects := []), event, random);
    ReconcileInv(OnEvent(l.(effects := []), event, random));
  }
}
