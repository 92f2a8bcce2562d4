/** main.js around the link: the timers of the page, its socket and its peer connection. Whatever
    the events, running the effects in their order keeps the page and the link in step. */
module Dashboard {
  import opened Wrappers
  import opened Protocol

  datatype Session = NoSession | Dialing | Up

  /** The keys of the `timers` map, the socket of `openSession`, and whether a peer is open. */
  datatype Page = Page(timers: set<Name>, session: Session, peer: bool)

  const BLANK := Page({}, NoSession, false)

  function Do(p: Page, e: Effect): Page {
    match e
    case OpenSocket => p.(session := Dialing)
    case CloseSocket => p.(session := NoSession)
    case SetTimer(name, _) => p.(timers := p.timers + {name})
    case CancelTimer(name) => p.(timers := p.timers - {name})
    case OpenPeer(_) => p.(peer := true)
    case ClosePeer => p.(peer := false)
    case _ => p
  }

  /** Each timer runs for its own time; the two retries wait between half a second and ten seconds. */
  predicate Proper(name: Name, ms: int) {
    match name
    case Ping => ms == 10000
    case Silence => ms == 25000
    case SocketStable => ms == 8000
    case Stable => ms == 8000
    case Negotiate => ms == 15000
    case IceDisconnected => ms == 4000
    case Hidden => ms == 60000
    case SocketRetry => 500 <= ms <= 10000
    case StreamRetry => 500 <= ms <= 10000
  }

  /** No second socket, no second peer, no signal without a peer, nothing sent into the void. */
  predicate Fits(p: Page, e: Effect) {
    match e
    case OpenSocket => p.session == NoSession
    case CloseSocket => p.session == Up
    case SendStream(_) => p.session == Up
    case SendPing => p.session == Up
    case OpenPeer(_) => !p.peer
    case SignalPeer(_) => p.peer
    case SetTimer(name, ms) => Proper(name, ms)
    case CancelTimer(name) => name in p.timers
    case _ => true
  }

  function Play(p: Page, effects: seq<Effect>): Page
    decreases |effects|
  {
    if effects == [] then p else Play(Do(p, effects[0]), effects[1..])
  }

  predicate AllFit(p: Page, effects: seq<Effect>)
    decreases |effects|
  {
    effects == [] || (Fits(p, effects[0]) && AllFit(Do(p, effects[0]), effects[1..]))
  }

  lemma {:induction false} PlayAppend(p: Page, first: seq<Effect>, second: seq<Effect>)
    ensures Play(p, first + second) == Play(Play(p, first), second)
    ensures AllFit(p, first + second) <==> AllFit(p, first) && AllFit(Play(p, first), second)
    decreases |first|
  {
    if first == [] {
      assert first + second == second;
    } else {
      assert (first + second)[1..] == first[1..] + second;
      PlayAppend(Do(p, first[0]), first[1..], second);
    }
  }

  function SessionOf(socket: Socket): Session {
    match socket
    case Connecting => Dialing
    case Open => Up
    case _ => NoSession
  }

  /** The page that `p` has become after the effects so far. */
  function Now(p: Page, l: Link): Page {
    Play(p, l.effects)
  }

  predicate InStep(p: Page, l: Link) {
    AllFit(p, l.effects) && Now(p, l) == Page(l.armed, SessionOf(l.socket), HasPeer(l.stream))
  }

  lemma EmitPlays(p: Page, l: Link, e: Effect)
    ensures Now(p, Emit(l, e)) == Do(Now(p, l), e)
    ensures AllFit(p, Emit(l, e).effects) <==> AllFit(p, l.effects) && Fits(Now(p, l), e)
  {
    PlayAppend(p, l.effects, [e]);
    assert [e][1..] == [];
  }

  lemma ArmPlays(p: Page, l: Link, name: Name, ms: int)
    ensures Now(p, Arm(l, name, ms)) == Do(Now(p, l), SetTimer(name, ms))
    ensures AllFit(p, Arm(l, name, ms).effects) <==> AllFit(p, l.effects) && Proper(name, ms)
  {
    EmitPlays(p, l.(armed := l.armed + {name}), SetTimer(name, ms));
  }

  lemma CancelPlays(p: Page, l: Link, name: Name)
    requires AllFit(p, l.effects) && Now(p, l).timers == l.armed
    ensures AllFit(p, Cancel(l, name).effects)
    ensures Now(p, Cancel(l, name)) == Now(p, l).(timers := Cancel(l, name).armed)
  {
    if name in l.armed {
      EmitPlays(p, l.(armed := l.armed - {name}), CancelTimer(name));
    } else {
      assert l.effects + [] == l.effects;
      assert l.armed - {name} == l.armed;
    }
  }

  lemma DropPlays(p: Page, l: Link)
    requires AllFit(p, l.effects) && Now(p, l).timers == l.armed
    ensures AllFit(p, DropStreamTimers(l).effects)
    ensures Now(p, DropStreamTimers(l)) == Now(p, l).(timers := DropStreamTimers(l).armed)
  {
    var b := Cancel(l, Negotiate);
    CancelPlays(p, l, Negotiate);
    CancelPlays(p, b, IceDisconnected);
    CancelPlays(p, Cancel(b, IceDisconnected), Stable);
  }

  lemma EndStreamPlays(p: Page, l: Link)
    requires AllFit(p, l.effects) && Now(p, l).timers == l.armed && Now(p, l).peer == HasPeer(l.stream)
    ensures AllFit(p, EndStream(l).effects)
    ensures Now(p, EndStream(l)) == Page(EndStream(l).armed, Now(p, l).session, false)
  {
    EmitPlays(p, l, ClosePeer);
    var a := if l.stream != Idle then Emit(l, ClosePeer) else l;
    DropPlays(p, a);
    CancelPlays(p, DropStreamTimers(a), StreamRetry);
  }

  lemma FailPlays(p: Page, l: Link, reason: string, random: real)
    requires InStep(p, l)
    ensures InStep(p, Fail(l, reason, random))
  {
    var a := Emit(l, ClosePeer);
    EmitPlays(p, l, ClosePeer);
    DropPlays(p, a);
    var e := DropStreamTimers(a).(streamReason := reason, stream := Retrying, ice := "new", connection := New);
    BackoffIsBounded(e.streamAttempts, random);
    ArmPlays(p, e.(streamAttempts := e.streamAttempts + 1), StreamRetry, BackoffDelay(e.streamAttempts, random));
  }

  lemma SocketTimersPlay(p: Page, l: Link)
    requires InStep(p, l)
    ensures InStep(p, DropSocketTimers(l)) && SessionOf(DropSocketTimers(l).socket) == SessionOf(l.socket)
  {
    var a := Cancel(l, Ping);
    CancelPlays(p, l, Ping);
    CancelPlays(p, a, Silence);
    CancelPlays(p, Cancel(a, Silence), SocketStable);
  }

  lemma SchedulePlays(p: Page, l: Link, random: real)
    requires InStep(p, l)
    ensures InStep(p, ScheduleDial(l, random))
  {
    BackoffIsBounded(l.socketAttempts, random);
    ArmPlays(p, l.(socketAttempts := l.socketAttempts + 1), SocketRetry, BackoffDelay(l.socketAttempts, random));
  }

  lemma LoseSocketPlays(p: Page, l: Link, wasOpen: bool, random: real)
    requires AllFit(p, l.effects) && Now(p, l) == Page(l.armed, NoSession, HasPeer(l.stream))
    ensures InStep(p, LoseSocket(l, wasOpen, random))
  {
    var a := EndStream(l.(socket := Closed, status := None));
    EndStreamPlays(p, l.(socket := Closed, status := None));
    assert InStep(p, a);
    SocketTimersPlay(p, a);
    SchedulePlays(p, DropSocketTimers(a), random);
    EmitPlays(p, ScheduleDial(DropSocketTimers(a), random), CheckAuth);
  }

  lemma DialPlays(p: Page, l: Link)
    requires InStep(p, l) && SessionOf(l.socket) == NoSession
    ensures InStep(p, Dial(l))
  {
    EmitPlays(p, l.(socket := Connecting), OpenSocket);
  }

  lemma RetryPlays(p: Page, l: Link)
    requires InStep(p, l)
    ensures InStep(p, OnRetry(l))
  {
    CancelPlays(p, l, SocketRetry);
    if l.socket == Closed {
      DialPlays(p, Cancel(l, SocketRetry).(socketAttempts := 0));
    } else if l.socket == Open && l.stream != Idle {
      EndStreamPlays(p, l);
    }
  }

  lemma PeerPlays(p: Page, l: Link, ice: string, connection: Connection, random: real)
    requires InStep(p, l)
    ensures InStep(p, OnPeer(l, ice, connection, random))
  {
    var m := l.(ice := ice, connection := connection);
    if HasPeer(l.stream) {
      match connection
      case Connected =>
        var a := m.(stream := Live, streamReason := "");
        var b := Cancel(a, Negotiate);
        CancelPlays(p, a, Negotiate);
        CancelPlays(p, b, IceDisconnected);
        ArmPlays(p, Cancel(b, IceDisconnected), Stable, STABLE_MS);
      case Disconnected => ArmPlays(p, m, IceDisconnected, DISCONNECTED_MS);
      case Broken => FailPlays(p, m, "The video connection failed.", random);
      case _ =>
    }
  }

  lemma MessagePlays(p: Page, l: Link, m: Message, random: real)
    requires InStep(p, l)
    ensures InStep(p, OnMessage(l, m, random))
  {
    match m
    case StreamConfigured(config) => EmitPlays(p, l.(stream := Negotiating), OpenPeer(config));
    case StreamEnded(reason) => FailPlays(p, l, if reason != "" then "The stream ended: " + reason else "The stream ended.", random);
    case Jsep(data) => EmitPlays(p, l, SignalPeer(data));
    case Error(text) => FailPlays(p, l, if text != "" then text else "The server refused the stream.", random);
    case _ =>
  }

  lemma TimerPlays(p: Page, l: Link, name: Name, random: real)
    requires InStep(p, l) && Timed(l.(armed := l.armed + {name}))
    ensures InStep(p, OnTimer(l, name, random))
  {
    match name
    case Ping =>
      EmitPlays(p, l, SendPing);
      ArmPlays(p, Emit(l, SendPing), Ping, PING_EVERY_MS);
    case Silence =>
      EmitPlays(p, l, CloseSocket);
      LoseSocketPlays(p, Emit(l, CloseSocket), true, random);
    case SocketRetry => DialPlays(p, l);
    case Negotiate => FailPlays(p, l, "The video connection timed out.", random);
    case IceDisconnected => FailPlays(p, l, "The video connection was lost.", random);
    case _ =>
  }

  lemma ReconcilePlays(p: Page, l: Link)
    requires InStep(p, l)
    ensures InStep(p, Reconcile(l))
  {
    if !Wants(l) {
      EmitPlays(p, l, SendStream(false));
      EndStreamPlays(p, if l.socket == Open && l.status == Some(true) then Emit(l, SendStream(false)) else l);
    } else if l.stream == Idle {
      var a := l.(stream := Requested);
      EmitPlays(p, a, SendStream(true));
      ArmPlays(p, Emit(a, SendStream(true)), Negotiate, NEGOTIATE_MS);
    }
  }

  // main.js

  datatype Dash = Dash(link: Link, page: Page)

  const OPENED := Dash(Protocol.INITIAL, BLANK)

  /** What the browser can deliver: a timer that is set, the events of the socket that it has, a
      status that answers a command, and at any time the rest. */
  predicate Deliverable(d: Dash, event: Event) {
    match event
    case Start => d.link.socket == SocketIdle
    case SocketOpen => d.page.session == Dialing
    case SocketClose(wasOpen) => d.page.session == (if wasOpen then Up else Dialing)
    case Receive(m) => d.page.session == Up || (m.Status? && d.link.socket != SocketIdle)
    case Timer(name) => name in d.page.timers
    case _ => d.link.socket != SocketIdle
  }

  /** What the page does before it calls the link. */
  function Prepare(p: Page, event: Event): Page {
    match event
    case SocketOpen => p.(session := Up)
    case SocketClose(_) => p.(session := NoSession)
    case Timer(name) => p.(timers := p.timers - {name})
    case _ => p
  }

  function Dispatch(d: Dash, event: Event, random: real): Dash {
    var l := Handle(d.link, event, random);
    Dash(l, Play(Prepare(d.page, event), l.effects))
  }

  ghost predicate DashInv(d: Dash) {
    LinkInv(d.link) && d.page == Page(d.link.armed, SessionOf(d.link.socket), HasPeer(d.link.stream))
  }

  lemma SocketOpenPlays(p: Page, l: Link)
    requires l.effects == [] && p == Page(l.armed, Up, HasPeer(l.stream))
    ensures InStep(p, OnEvent(l, SocketOpen, 0.0))
  {
    var a := l.(socket := Open);
    var b := Arm(a, Ping, PING_EVERY_MS);
    ArmPlays(p, a, Ping, PING_EVERY_MS);
    ArmPlays(p, b, Silence, SILENCE_MS);
    ArmPlays(p, Arm(b, Silence, SILENCE_MS), SocketStable, STABLE_MS);
  }

  lemma VisibilityPlays(p: Page, l: Link, visible: bool)
    requires InStep(p, l)
    ensures InStep(p, OnEvent(l, Visibility(visible), 0.0))
  {
    CancelPlays(p, l.(visible := true), Hidden);
    ArmPlays(p, l.(visible := false), Hidden, HIDDEN_AFTER_MS);
  }

  lemma OnEventPlays(d: Dash, event: Event, random: real)
    requires DashInv(d) && Deliverable(d, event) && d.link.effects == []
    ensures InStep(Prepare(d.page, event), OnEvent(d.link, event, random))
  {
    var l, p := d.link, Prepare(d.page, event);
    match event {
      case Start => DialPlays(p, l);
      case SocketOpen => SocketOpenPlays(p, l);
      case SocketClose(wasOpen) => LoseSocketPlays(p, l, wasOpen, random);
      case Receive(m) =>
        ArmPlays(p, l, Silence, SILENCE_MS);
        MessagePlays(p, if l.socket == Open then Arm(l, Silence, SILENCE_MS) else l, m, random);
      case Timer(name) =>
        assert l.armed - {name} + {name} == l.armed;
        TimerPlays(p, l.(armed := l.armed - {name}), name, random);
      case Peer(ice, connection) => PeerPlays(p, l, ice, connection, random);
      case Froze => FailPlays(p, l, "The video froze.", random);
      case Visibility(visible) => VisibilityPlays(p, l, visible);
      case Retry => RetryPlays(p, l);
    }
  }

  /** One dispatch: every effect fits when its turn comes, and page and link are in step again. */
  lemma DispatchInv(d: Dash, event: Event, random: real)
    requires DashInv(d) && Deliverable(d, event)
    ensures DashInv(Dispatch(d, event, random))
    ensures AllFit(Prepare(d.page, event), Dispatch(d, event, random).link.effects)
  {
    var start := d.(link := d.link.(effects := []));
    assert Sensible(d.link, event);
    HandleInv(d.link, event, random);
    OnEventPlays(start, event, random);
    ReconcilePlays(Prepare(d.page, event), OnEvent(start.link, event, random));
  }

  ghost predicate Run(d: Dash, events: seq<(Event, real)>, r: Dash)
    decreases |events|
  {
    if events == [] then r == d
    else Deliverable(d, events[0].0) && Run(Dispatch(d, events[0].0, events[0].1), events[1..], r)
  }

  /** Over every run: the timers of the page are the armed ones, a peer is open exactly while the
      stream negotiates or is live, a stream is under way exactly when it is wanted. */
  lemma {:induction false} PageFollowsLink(d: Dash, events: seq<(Event, real)>, r: Dash)
    requires DashInv(d) && Run(d, events, r)
    ensures r.page.timers == r.link.armed
    ensures r.page.peer <==> HasPeer(r.link.stream)
    ensures r.page.session == Up <==> r.link.socket == Open
    ensures r.link.stream != Idle <==> Wants(r.link)
    ensures DashInv(r)
    decreases |events|
  {
    if events != [] {
      DispatchInv(d, events[0].0, events[0].1);
      PageFollowsLink(Dispatch(d, events[0].0, events[0].1), events[1..], r);
    }
  }

  lemma OpenedInv()
    ensures DashInv(OPENED)
  {
  }
}
