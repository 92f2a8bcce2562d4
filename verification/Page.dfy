/** main.js as an object: the variables of the page that the effects change, and dispatch, which runs the
    effects of an event in their order. */
module PageObject {
  import P = Protocol
  import D = Dashboard
  import L = LinkObject

  class Page {
    const link: L.Link
    var timers: set<P.Name>
    var session: D.Session
    var peer: bool

    ghost function Now(): D.Page
      reads this
    {
      D.Page.Page(timers, session, peer)
    }

    ghost function Model(): D.Dash
      reads this, link
    {
      D.Dash.Dash(link.Model(), Now())
    }

    constructor ()
      ensures D.DashInv(Model()) && Model() == D.OPENED && fresh(link)
    {
      link := new L.Link();
      timers, session, peer := {}, D.NoSession, false;
    }

    /** One entry of the table of effects. Each runs only where it makes sense: no second socket or peer, no
        signal without a peer, nothing sent without a socket. */
    method RunEffect(e: P.Effect)
      requires D.Fits(Now(), e)
      modifies this`timers, this`session, this`peer
      ensures Now() == D.Do(old(Now()), e)
    {
      match e
      case OpenSocket => session := D.Dialing;
      case CloseSocket => session := D.NoSession;
      case SetTimer(name, _) => timers := timers + {name};
      case CancelTimer(name) => timers := timers - {name};
      case OpenPeer(_) => peer := true;
      case ClosePeer => peer := false;
      case SendStream(_) =>
      case SendPing =>
      case SignalPeer(_) =>
      case CheckAuth =>
    }

    method RunAll(effects: seq<P.Effect>)
      requires D.AllFit(Now(), effects)
      modifies this`timers, this`session, this`peer
      ensures Now() == D.Play(old(Now()), effects)
    {
      for i := 0 to |effects|
        invariant D.AllFit(Now(), effects[i..])
        invariant D.Play(Now(), effects[i..]) == D.Play(old(Now()), effects)
      {
        assert effects[i..][1..] == effects[i + 1..];
        RunEffect(effects[i]);
      }
    }

    /** What the callbacks of the socket and of a timer do before they dispatch. */
    method Before(event: P.Event)
      modifies this`timers, this`session
      ensures Now() == D.Prepare(old(Now()), event)
    {
      match event
      case SocketOpen => session := D.Up;
      case SocketClose(_) => session := D.NoSession;
      case Timer(name) => timers := timers - {name};
      case Start =>
      case Receive(_) =>
      case Peer(_, _) =>
      case Froze =>
      case Visibility(_) =>
      case Retry =>
    }

    method Dispatch(event: P.Event, random: real)
      requires D.DashInv(Model()) && D.Deliverable(Model(), event)
      modifies this`timers, this`session, this`peer, link
      ensures Model() == D.Dispatch(old(Model()), event, random) && D.DashInv(Model())
    {
      D.DispatchInv(Model(), event, random);
      Before(event);
      link.Handle(event, random);
      RunAll(link.effects);
    }
  }
}
