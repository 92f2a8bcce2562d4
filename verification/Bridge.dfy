/** The signaling bridge and the serial control lane of the sessions: request, pump, release and
    close race for every stream.

    Each step is the code between two awaits. The lane of a session runs one job at a time, so a
    stream is closed during its request only by cancelling the lane. */
module Bridge {
  import opened Wrappers

  const MAX_STREAMS := 4
  const MAX_RELEASING := 8

  /** The call that asks the emulator for the stream. `Broken` is an error outside GRPC_ERRORS; `Cancelled`
      means that the call itself was cancelled, as by a channel that closes. */
  datatype Request = Asked | Granted | Refused | Broken | Cancelled

  /** `_let_go_late` does not catch these ends of a request. */
  predicate Uncaught(request: Request) {
    request.Broken? || request.Cancelled?
  }

  datatype Pump = NoPump | Pumping | PumpEnded

  /** The task that gets rid of a stream whose viewer left: waiting for the id of the stream, or
      waiting for the emulator to let go of it. */
  datatype Release = NoRelease | Late | LettingGo | Released

  /** What concerns the viewer, in order. */
  datatype Event = Begun | Configured | Relayed | Closed | Over

  datatype Stream = Stream(
    owner: nat,         // the session
    live: bool,
    held: bool,         // the bridge knows it
    request: Request,
    pump: Pump,
    pumpCancelled: bool,
    release: Release,
    answered: bool,
    events: seq<Event>)

  datatype Lane = Idle | Opening(x: nat) | Sending(x: nat) | Gone

  datatype Session = Session(stream: Option<nat>, lane: Lane)

  datatype Hub = Hub(streams: seq<Stream>, sessions: seq<Session>)

  const EMPTY := Hub([], [])

  // One stream

  function NewStream(owner: nat): Stream {
    Stream(owner, true, true, Asked, NoPump, false, NoRelease, false, [Begun])
  }

  /** `Stream.close` */
  function CloseStream(st: Stream): Stream {
    if !st.live then st else
    var st := st.(live := false, events := st.events + [Closed]);
    if st.pump.Pumping? then st.(release := LettingGo)
    else if st.request.Asked? then st
    else st.(held := false)
  }

  /** The end of a successful `open`, and the message of the session that follows at once. */
  function OpenStream(st: Stream): Stream {
    var st := st.(pump := Pumping);
    if st.live then st.(events := st.events + [Configured]) else st.(release := LettingGo)
  }

  /** `open` is cancelled while the emulator creates the stream. */
  function AbandonStream(st: Stream): Stream {
    st.(live := false, release := Late, events := if st.live then st.events + [Closed] else st.events)
  }

  function RunLate(st: Stream): Stream {
    match st.request
    case Granted => st.(pump := Pumping, release := LettingGo)
    case Refused => st.(held := false, release := Released)
    case _ => st.(release := Released)
  }

  /** The `finally` of `_let_go`. */
  function EndLetGo(st: Stream): Stream {
    st.(release := Released, pumpCancelled := st.pumpCancelled || st.pump.Pumping?, held := false)
  }

  function Forward(st: Stream): Stream {
    if st.live then st.(events := st.events + [Relayed]) else st
  }

  /** The emulator ended the stream: the viewer hears about it if it is still there. */
  function EndPump(st: Stream): Stream {
    st.(pump := PumpEnded, held := false, live := false, events := if st.live then st.events + [Over] else st.events)
  }

  function CancelPump(st: Stream): Stream {
    st.(pump := PumpEnded, held := false)
  }

  // The hub

  function Live(streams: seq<Stream>): nat {
    if streams == [] then 0
    else Live(streams[..|streams| - 1]) + if streams[|streams| - 1].held && streams[|streams| - 1].live then 1 else 0
  }

  function Held(streams: seq<Stream>): nat {
    if streams == [] then 0
    else Held(streams[..|streams| - 1]) + if streams[|streams| - 1].held then 1 else 0
  }

  function SetStream(h: Hub, x: nat, st: Stream): Hub
    requires x < |h.streams|
  {
    h.(streams := h.streams[x := st])
  }

  function SetSession(h: Hub, k: nat, s: Session): Hub
    requires k < |h.sessions|
  {
    h.(sessions := h.sessions[k := s])
  }

  /** `Session._drop_stream` */
  function DropStream(h: Hub, k: nat): Hub
    requires k < |h.sessions|
  {
    var x := h.sessions[k].stream;
    var h := SetSession(h, k, h.sessions[k].(stream := None));
    if x.Some? && x.value < |h.streams| then SetStream(h, x.value, CloseStream(h.streams[x.value])) else h
  }

  /** `Bridge.create` refuses a stream above either limit. */
  predicate MayCreate(h: Hub) {
    Live(h.streams) < MAX_STREAMS && Held(h.streams) - Live(h.streams) < MAX_RELEASING
  }

  /** `_start_stream`; `served` when Android and the TURN server run. */
  function StartStream(h: Hub, k: nat, served: bool): Hub
    requires k < |h.sessions|
  {
    var h := DropStream(h, k);
    if !served || !MayCreate(h) then h else
    h.(streams := h.streams + [NewStream(k)], sessions := h.sessions[k := Session(Some(|h.streams|), Opening(|h.streams|))])
  }

  datatype Step =
    | NewSession
    // jobs of a lane
    | Start(k: nat, served: bool) | Stop(k: nat) | Relay(k: nat)
    | OpenReturns(k: nat) | SendReturns(k: nat, answer: bool)
    // the end of a session
    | CancelLane(k: nat) | FinishClose(k: nat)
    // tasks of a stream, and the emulator
    | RequestEnds(x: nat, outcome: Request) | LateRuns(x: nat) | LetGoEnds(x: nat)
    | PumpRelays(x: nat) | PumpEnds(x: nat) | PumpStops(x: nat)

  predicate Enabled(h: Hub, step: Step) {
    match step
    case NewSession => true
    case Start(k, _) => k < |h.sessions| && h.sessions[k].lane == Idle
    case Stop(k) => k < |h.sessions| && h.sessions[k].lane == Idle
    case Relay(k) =>
      && k < |h.sessions| && h.sessions[k].lane == Idle && h.sessions[k].stream.Some?
      && h.sessions[k].stream.value < |h.streams| && h.streams[h.sessions[k].stream.value].pump.Pumping?
    case OpenReturns(k) =>
      && k < |h.sessions| && h.sessions[k].lane.Opening?
      && h.sessions[k].lane.x < |h.streams| && !h.streams[h.sessions[k].lane.x].request.Asked?
    case SendReturns(k, _) => k < |h.sessions| && h.sessions[k].lane.Sending? && h.sessions[k].lane.x < |h.streams|
    case CancelLane(k) =>
      && k < |h.sessions| && h.sessions[k].lane != Gone
      && (h.sessions[k].lane.Opening? ==> h.sessions[k].lane.x < |h.streams|)
    case FinishClose(k) => k < |h.sessions| && h.sessions[k].lane == Gone
    case RequestEnds(x, outcome) => x < |h.streams| && h.streams[x].request.Asked? && !outcome.Asked?
    case LateRuns(x) => x < |h.streams| && h.streams[x].release.Late? && !h.streams[x].request.Asked?
    case LetGoEnds(x) => x < |h.streams| && h.streams[x].release.LettingGo?
    case PumpRelays(x) => x < |h.streams| && h.streams[x].pump.Pumping? && !h.streams[x].pumpCancelled
    case PumpEnds(x) => x < |h.streams| && h.streams[x].pump.Pumping? && !h.streams[x].pumpCancelled && h.streams[x].owner < |h.sessions|
    case PumpStops(x) => x < |h.streams| && h.streams[x].pump.Pumping? && h.streams[x].pumpCancelled
  }

  /** `open` comes back in the lane of session `k`. */
  function ReturnOpen(h: Hub, k: nat): Hub
    requires Enabled(h, OpenReturns(k))
  {
    var x := h.sessions[k].lane.x;
    var r := SetSession(h, k, h.sessions[k].(lane := if h.streams[x].request.Cancelled? then Gone else Idle));
    match h.streams[x].request
    case Granted => SetStream(r, x, OpenStream(h.streams[x]))
    case Refused => DropStream(r, k)
    case Cancelled => SetStream(r, x, AbandonStream(h.streams[x])) // and the lane ends with it
    case _ => r // the lane logs the error
  }

  function Apply(h: Hub, step: Step): Hub
    requires Enabled(h, step)
  {
    match step
    case NewSession => h.(sessions := h.sessions + [Session(None, Idle)])
    case Start(k, served) => StartStream(h, k, served)
    case Stop(k) => DropStream(h, k)
    case Relay(k) => SetSession(h, k, h.sessions[k].(lane := Sending(h.sessions[k].stream.value)))
    case OpenReturns(k) => ReturnOpen(h, k)
    case SendReturns(k, answer) =>
      var x := h.sessions[k].lane.x;
      SetStream(SetSession(h, k, h.sessions[k].(lane := Idle)), x, h.streams[x].(answered := h.streams[x].answered || answer))
    case CancelLane(k) =>
      var r := SetSession(h, k, h.sessions[k].(lane := Gone));
      if h.sessions[k].lane.Opening? then
        SetStream(r, h.sessions[k].lane.x, AbandonStream(h.streams[h.sessions[k].lane.x]))
      else
        r
    case FinishClose(k) => DropStream(h, k)
    case RequestEnds(x, outcome) => SetStream(h, x, h.streams[x].(request := outcome))
    case LateRuns(x) => SetStream(h, x, RunLate(h.streams[x]))
    case LetGoEnds(x) => SetStream(h, x, EndLetGo(h.streams[x]))
    case PumpRelays(x) => SetStream(h, x, Forward(h.streams[x]))
    case PumpEnds(x) =>
      var st := h.streams[x];
      var r := SetStream(h, x, EndPump(st));
      if st.live then SetSession(r, st.owner, h.sessions[st.owner].(stream := None)) else r
    case PumpStops(x) => SetStream(h, x, CancelPump(h.streams[x]))
  }

  // The invariant

  /** What a viewer hears: the beginning, the configuration, messages, and one end at most. */
  datatype Stage = Before | Waiting | Flowing | Finished | Wrong

  function After(stage: Stage, e: Event): Stage {
    match e
    case Begun => if stage == Before then Waiting else Wrong
    case Configured => if stage == Waiting then Flowing else Wrong
    case Relayed => if stage == Flowing then Flowing else Wrong
    case Closed => if stage == Waiting || stage == Flowing then Finished else Wrong
    case Over => if stage == Flowing then Finished else Wrong
  }

  function StageOf(events: seq<Event>): Stage {
    if events == [] then Before else After(StageOf(events[..|events| - 1]), events[|events| - 1])
  }

  /** A task that is going to forget the stream. */
  predicate WillBeForgotten(st: Stream) {
    st.pump.Pumping? || st.release.Late? || st.release.LettingGo?
  }

  /** The one way to lose a stream: it was left to `_let_go_late`, and its request ended in a way that
      `_let_go_late` does not catch. */
  predicate LeftInUncaughtRequest(st: Stream) {
    st.release.Released? && Uncaught(st.request) && st.pump.NoPump?
  }

  predicate StreamInv(st: Stream) {
    && StageOf(st.events) == (if !st.live then Finished else if st.pump.NoPump? then Waiting else Flowing)
    && (st.live ==> st.held && st.release.NoRelease? && !st.pumpCancelled && !st.pump.PumpEnded?)
    && (!st.pump.NoPump? ==> st.request.Granted?)
    && (st.pumpCancelled ==> !st.held)
    && (st.release.Late? ==> st.pump.NoPump? && st.held)
    && (st.release.LettingGo? ==> !st.pump.NoPump?)
    && (st.held && !st.live ==> WillBeForgotten(st) || LeftInUncaughtRequest(st))
    && (EmulatorHolds(st) ==> st.held)
    && (st.held && !st.live && st.pump.Pumping? ==> st.release.LettingGo?)
  }

  /** As far as the daemon can know, the emulator has the stream, or is making it: it was asked for it, and has
      neither ended it nor run out of the time that a release gives it. */
  predicate EmulatorHolds(st: Stream) {
    st.request.Asked? || (st.request.Granted? && !st.pump.PumpEnded? && !st.release.Released?)
  }

  predicate OwnerInv(x: nat, st: Stream, sessions: seq<Session>) {
    && st.owner < |sessions|
    && (st.live ==> sessions[st.owner].stream == Some(x))
    && (st.live && st.pump.NoPump? ==> sessions[st.owner].lane == Opening(x) || st.request.Broken?)
  }

  predicate SessionInv(k: nat, s: Session, streams: seq<Stream>) {
    && (s.stream.Some? ==> s.stream.value < |streams| && streams[s.stream.value].owner == k
                           && (streams[s.stream.value].live || s.lane == Gone))
    && (s.lane.Opening? ==> s.stream == Some(s.lane.x) && streams[s.lane.x].live && streams[s.lane.x].pump.NoPump?)
    && (s.lane.Sending? ==> s.lane.x < |streams|)
  }

  ghost predicate Inv(h: Hub) {
    && (forall x :: 0 <= x < |h.streams| ==> StreamInv(h.streams[x]) && OwnerInv(x, h.streams[x], h.sessions))
    && (forall k :: 0 <= k < |h.sessions| ==> SessionInv(k, h.sessions[k], h.streams))
    && Live(h.streams) <= MAX_STREAMS
    && Held(h.streams) <= MAX_STREAMS + MAX_RELEASING - 1
  }

  // Counting

  predicate Fades(st: Stream, r: Stream) {
    (r.held ==> st.held) && (r.held && r.live ==> st.held && st.live)
  }

  lemma {:induction false} CountsFade(streams: seq<Stream>, x: nat, r: Stream)
    requires x < |streams| && Fades(streams[x], r)
    ensures Live(streams[x := r]) <= Live(streams) && Held(streams[x := r]) <= Held(streams)
  {
    var last := |streams| - 1;
    if x < last {
      assert streams[x := r][..last] == streams[..last][x := r];
      CountsFade(streams[..last], x, r);
    } else {
      assert streams[x := r][..last] == streams[..last];
    }
  }

  lemma CountsPush(streams: seq<Stream>, st: Stream)
    ensures Live(streams + [st]) == Live(streams) + (if st.held && st.live then 1 else 0)
    ensures Held(streams + [st]) == Held(streams) + (if st.held then 1 else 0)
  {
    assert (streams + [st])[..|streams|] == streams;
  }

  lemma StagePush(events: seq<Event>, e: Event)
    ensures StageOf(events + [e]) == After(StageOf(events), e)
  {
    assert (events + [e])[..|events|] == events;
  }

  // Steps

  lemma CloseStreamInv(st: Stream)
    requires StreamInv(st) && (st.live && st.pump.NoPump? ==> !st.request.Asked? && !st.request.Granted?)
    ensures StreamInv(CloseStream(st)) && Fades(st, CloseStream(st)) && !CloseStream(st).live && CloseStream(st).owner == st.owner
  {
    StagePush(st.events, Closed);
  }

  /** A change of a session together with the stream that it shows. */
  lemma OwnStreamInv(h: Hub, k: nat, s: Session, x: nat, r: Stream)
    requires Inv(h) && k < |h.sessions| && h.sessions[k].stream == Some(x) && x < |h.streams|
    requires StreamInv(r) && Fades(h.streams[x], r) && r.owner == k
    requires OwnerInv(x, r, h.sessions[k := s]) && SessionInv(k, s, h.streams[x := r])
    ensures Inv(Hub(h.streams[x := r], h.sessions[k := s]))
  {
    CountsFade(h.streams, x, r);
    var q := Hub(h.streams[x := r], h.sessions[k := s]);
    forall y | 0 <= y < |q.streams| ensures StreamInv(q.streams[y]) && OwnerInv(y, q.streams[y], q.sessions) {
      assert OwnerInv(y, h.streams[y], h.sessions);
    }
    forall j | 0 <= j < |q.sessions| ensures SessionInv(j, q.sessions[j], q.streams) {
      assert SessionInv(j, h.sessions[j], h.streams);
    }
  }

  /** A session without an open request turns to another job, or ends. */
  lemma LaneInv(h: Hub, k: nat, lane: Lane)
    requires Inv(h) && k < |h.sessions| && !h.sessions[k].lane.Opening? && !lane.Opening?
    requires (h.sessions[k].lane == Gone ==> lane == Gone) && (lane.Sending? ==> lane.x < |h.streams|)
    ensures Inv(SetSession(h, k, h.sessions[k].(lane := lane)))
  {
    var q := SetSession(h, k, h.sessions[k].(lane := lane));
    forall y | 0 <= y < |q.streams| ensures OwnerInv(y, q.streams[y], q.sessions) {
      assert OwnerInv(y, h.streams[y], h.sessions);
    }
  }

  lemma DropStreamInv(h: Hub, k: nat, lane: Lane)
    requires Inv(h) && k < |h.sessions| && !lane.Opening? && !lane.Sending? && (h.sessions[k].lane == Gone ==> lane == Gone)
    requires h.sessions[k].lane.Opening? ==> h.streams[h.sessions[k].lane.x].request.Refused?
    ensures Inv(DropStream(SetSession(h, k, h.sessions[k].(lane := lane)), k))
  {
    assert SessionInv(k, h.sessions[k], h.streams);
    if h.sessions[k].stream.Some? {
      var x := h.sessions[k].stream.value;
      assert OwnerInv(x, h.streams[x], h.sessions);
      CloseStreamInv(h.streams[x]);
      OwnStreamInv(h, k, Session(None, lane), x, CloseStream(h.streams[x]));
      assert DropStream(SetSession(h, k, h.sessions[k].(lane := lane)), k)
          == Hub(h.streams[x := CloseStream(h.streams[x])], h.sessions[k := Session(None, lane)]);
    } else {
      LaneInv(h, k, lane);
      var q := SetSession(h, k, h.sessions[k].(lane := lane));
      assert DropStream(q, k) == q;
    }
  }

  lemma DropSameInv(h: Hub, k: nat)
    requires Inv(h) && k < |h.sessions| && (h.sessions[k].lane == Idle || h.sessions[k].lane == Gone)
    ensures Inv(DropStream(h, k))
  {
    DropStreamInv(h, k, h.sessions[k].lane);
    assert SetSession(h, k, h.sessions[k]) == h;
  }

  /** A step of one stream that neither revives it nor changes its session. */
  lemma StreamStepInv(h: Hub, x: nat, r: Stream)
    requires Inv(h) && x < |h.streams| && StreamInv(r) && Fades(h.streams[x], r) && r.owner == h.streams[x].owner
    requires r.live == h.streams[x].live || h.sessions[r.owner].lane == Gone
    requires r.live ==> h.streams[x].live && (r.pump == h.streams[x].pump)
    requires r.pump.NoPump? || r.pump == h.streams[x].pump || !r.live
    requires h.sessions[r.owner].lane != Opening(x) || (r.live && r.pump.NoPump?)
    requires r.request == h.streams[x].request || h.streams[x].request.Asked?
    ensures Inv(SetStream(h, x, r))
  {
    CountsFade(h.streams, x, r);
  }

  lemma StartStreamInv(h: Hub, k: nat, served: bool)
    requires Inv(h) && Enabled(h, Start(k, served))
    ensures Inv(StartStream(h, k, served))
  {
    DropSameInv(h, k);
    var d := DropStream(h, k);
    if served && MayCreate(d) {
      CreateInv(d, k);
    }
  }

  lemma CreateKeepsOwners(d: Hub, q: Hub, k: nat)
    requires Inv(d) && k < |d.sessions| && d.sessions[k] == Session(None, Idle)
    requires q == Hub(d.streams + [NewStream(k)], d.sessions[k := Session(Some(|d.streams|), Opening(|d.streams|))])
    ensures forall y :: 0 <= y < |d.streams| ==> StreamInv(q.streams[y]) && OwnerInv(y, q.streams[y], q.sessions)
    ensures forall j :: 0 <= j < |q.sessions| ==> SessionInv(j, q.sessions[j], q.streams)
  {
    forall y | 0 <= y < |d.streams| ensures StreamInv(q.streams[y]) && OwnerInv(y, q.streams[y], q.sessions) {
      assert OwnerInv(y, d.streams[y], d.sessions);
    }
    forall j | 0 <= j < |q.sessions| ensures SessionInv(j, q.sessions[j], q.streams) {
      assert SessionInv(j, d.sessions[j], d.streams);
    }
  }

  lemma CreateInv(d: Hub, k: nat)
    requires Inv(d) && k < |d.sessions| && d.sessions[k] == Session(None, Idle) && MayCreate(d)
    ensures Inv(Hub(d.streams + [NewStream(k)], d.sessions[k := Session(Some(|d.streams|), Opening(|d.streams|))]))
  {
    CountsPush(d.streams, NewStream(k));
    StagePush([], Begun);
    var q := Hub(d.streams + [NewStream(k)], d.sessions[k := Session(Some(|d.streams|), Opening(|d.streams|))]);
    CreateKeepsOwners(d, q, k);
  }

  lemma ReturnOpenInv(h: Hub, k: nat)
    requires Inv(h) && Enabled(h, OpenReturns(k))
    ensures Inv(ReturnOpen(h, k))
  {
    var x := h.sessions[k].lane.x;
    assert SessionInv(k, h.sessions[k], h.streams);
    var st := h.streams[x];
    if st.request.Refused? {
      DropStreamInv(h, k, Idle);
    } else if st.request.Granted? {
      StagePush(st.events, Configured);
      OwnStreamInv(h, k, h.sessions[k].(lane := Idle), x, OpenStream(st));
    } else if st.request.Cancelled? {
      StagePush(st.events, Closed);
      OwnStreamInv(h, k, h.sessions[k].(lane := Gone), x, AbandonStream(st));
    } else {
      OwnStreamInv(h, k, h.sessions[k].(lane := Idle), x, st);
      assert h.streams[x := st] == h.streams;
    }
  }

  lemma CancelLaneInv(h: Hub, k: nat)
    requires Inv(h) && Enabled(h, CancelLane(k))
    ensures Inv(Apply(h, CancelLane(k)))
  {
    if h.sessions[k].lane.Opening? {
      var x := h.sessions[k].lane.x;
      assert SessionInv(k, h.sessions[k], h.streams);
      StagePush(h.streams[x].events, Closed);
      OwnStreamInv(h, k, h.sessions[k].(lane := Gone), x, AbandonStream(h.streams[x]));
    } else {
      LaneInv(h, k, Gone);
    }
  }

  lemma PumpEndsInv(h: Hub, x: nat)
    requires Inv(h) && Enabled(h, PumpEnds(x))
    ensures Inv(Apply(h, PumpEnds(x)))
  {
    var st := h.streams[x];
    StagePush(st.events, Over);
    assert OwnerInv(x, st, h.sessions);
    if st.live {
      assert SessionInv(st.owner, h.sessions[st.owner], h.streams);
      OwnStreamInv(h, st.owner, h.sessions[st.owner].(stream := None), x, EndPump(st));
    } else {
      StreamStepInv(h, x, EndPump(st));
    }
  }

  lemma StreamTaskInv(h: Hub, step: Step)
    requires Inv(h) && Enabled(h, step)
    requires step.RequestEnds? || step.LateRuns? || step.LetGoEnds? || step.PumpRelays? || step.PumpStops?
    ensures Inv(Apply(h, step))
  {
    var x := step.x;
    var st := h.streams[x];
    StagePush(st.events, Relayed);
    StreamStepInv(h, x, Apply(h, step).streams[x]);
  }

  lemma NewSessionInv(h: Hub)
    requires Inv(h)
    ensures Inv(Apply(h, NewSession))
  {
    var q := Apply(h, NewSession);
    forall y | 0 <= y < |q.streams| ensures OwnerInv(y, q.streams[y], q.sessions) {
      assert OwnerInv(y, h.streams[y], h.sessions);
    }
  }

  lemma SendReturnsInv(h: Hub, k: nat, answer: bool)
    requires Inv(h) && Enabled(h, SendReturns(k, answer))
    ensures Inv(Apply(h, SendReturns(k, answer)))
  {
    var x := h.sessions[k].lane.x;
    var r := h.streams[x].(answered := h.streams[x].answered || answer);
    StreamStepInv(h, x, r);
    LaneInv(SetStream(h, x, r), k, Idle);
  }

  /** Every step that can happen keeps the invariant. */
  lemma StepInv(h: Hub, step: Step)
    requires Inv(h) && Enabled(h, step)
    ensures Inv(Apply(h, step))
  {
    match step {
      case Start(k, served) => StartStreamInv(h, k, served);
      case Stop(k) => DropSameInv(h, k);
      case FinishClose(k) => DropSameInv(h, k);
      case OpenReturns(k) => ReturnOpenInv(h, k);
      case CancelLane(k) => CancelLaneInv(h, k);
      case PumpEnds(x) => PumpEndsInv(h, x);
      case NewSession => NewSessionInv(h);
      case Relay(k) => LaneInv(h, k, Sending(h.sessions[k].stream.value));
      case SendReturns(k, answer) => SendReturnsInv(h, k, answer);
      case RequestEnds(_, _) => StreamTaskInv(h, step);
      case LateRuns(_) => StreamTaskInv(h, step);
      case LetGoEnds(_) => StreamTaskInv(h, step);
      case PumpRelays(_) => StreamTaskInv(h, step);
      case PumpStops(_) => StreamTaskInv(h, step);
    }
  }

  // Whole runs

  ghost predicate Run(h: Hub, steps: seq<Step>, r: Hub)
    decreases |steps|
  {
    if steps == [] then r == h else Enabled(h, steps[0]) && Run(Apply(h, steps[0]), steps[1..], r)
  }

  lemma {:induction false} RunInv(h: Hub, steps: seq<Step>, r: Hub)
    requires Inv(h) && Run(h, steps, r)
    ensures Inv(r)
    decreases |steps|
  {
    if steps != [] {
      StepInv(h, steps[0]);
      RunInv(Apply(h, steps[0]), steps[1..], r);
    }
  }

  /** A stream that the bridge counts for ever. */
  predicate Orphan(st: Stream) {
    st.held && !st.live && !WillBeForgotten(st)
  }

  /** What holds in every reachable state: the two limits, no orphan but the one kind, a stream that
      the bridge forgot is not live, and every viewer has one stream at most, which is served. */
  lemma StreamsAreAccountedFor(steps: seq<Step>, r: Hub)
    requires Run(EMPTY, steps, r)
    ensures Live(r.streams) <= 4 && Held(r.streams) <= 11
    ensures forall x :: 0 <= x < |r.streams| && Orphan(r.streams[x]) ==> LeftInUncaughtRequest(r.streams[x])
    ensures forall x :: 0 <= x < |r.streams| && r.streams[x].live ==> r.streams[x].held
    ensures forall x, y | 0 <= x < |r.streams| && 0 <= y < |r.streams| && r.streams[x].live && r.streams[y].live ::
              r.streams[x].owner == r.streams[y].owner ==> x == y
    ensures forall x :: 0 <= x < |r.streams| && r.streams[x].live && !r.streams[x].request.Broken? ==>
              r.streams[x].pump.Pumping? || Opens(r, x)
  {
    RunInv(EMPTY, steps, r);
    forall x | 0 <= x < |r.streams| ensures OwnerInv(x, r.streams[x], r.sessions) && StreamInv(r.streams[x]) {
    }
    forall x | 0 <= x < |r.streams| && r.streams[x].live && !r.streams[x].request.Broken?
      ensures r.streams[x].pump.Pumping? || Opens(r, x)
    {
      assert OwnerInv(x, r.streams[x], r.sessions);
    }
  }

  predicate Opens(h: Hub, x: nat) {
    x < |h.streams| && h.streams[x].owner < |h.sessions| && h.sessions[h.streams[x].owner].lane == Opening(x)
  }

  /** The exact condition: the late release leaves an orphan if and only if the request ended in a way that it
      does not catch. */
  lemma OrphanIffUncaught(h: Hub, x: nat)
    requires Inv(h) && Enabled(h, LateRuns(x))
    ensures Orphan(Apply(h, LateRuns(x)).streams[x]) <==> Uncaught(h.streams[x].request)
  {
    assert StreamInv(h.streams[x]);
  }

  /** Such an orphan is never forgotten, and it counts against the limit for ever. */
  lemma {:induction false} OrphansStay(h: Hub, steps: seq<Step>, r: Hub, x: nat)
    requires Inv(h) && Run(h, steps, r) && x < |h.streams| && Orphan(h.streams[x])
    ensures x < |r.streams| && Orphan(r.streams[x])
    decreases |steps|
  {
    if steps != [] {
      StepInv(h, steps[0]);
      OrphanStays(h, steps[0], x);
      OrphansStay(Apply(h, steps[0]), steps[1..], r, x);
    }
  }

  lemma OrphanStays(h: Hub, step: Step, x: nat)
    requires Inv(h) && Enabled(h, step) && x < |h.streams| && Orphan(h.streams[x])
    ensures x < |Apply(h, step).streams| && Orphan(Apply(h, step).streams[x])
  {
    assert StreamInv(h.streams[x]);
    if step.OpenReturns? || step.CancelLane? {
      assert SessionInv(step.k, h.sessions[step.k], h.streams);
    }
  }

  /** The step is one of the stream's own tasks or calls; a message that it relays does not count. */
  predicate Own(step: Step, x: nat) {
    && (step.RequestEnds? || step.LateRuns? || step.LetGoEnds? || step.PumpEnds? || step.PumpStops?)
    && step.x == x
  }

  function OwnSteps(steps: seq<Step>, x: nat): nat {
    if steps == [] then 0 else (if Own(steps[0], x) then 1 else 0) + OwnSteps(steps[1..], x)
  }

  /** The own steps after which a stream whose viewer left is forgotten, or an orphan, at the latest. */
  function StepsLeft(st: Stream): nat {
    if !st.held || Orphan(st) then 0
    else if !st.release.Late? then 1
    else if st.request.Asked? then 3
    else 2
  }

  lemma OwnStepsLeftFall(h: Hub, step: Step, x: nat)
    requires Inv(h) && Enabled(h, step) && x < |h.streams| && !h.streams[x].live && Own(step, x)
    ensures var r := Apply(h, step);
            && x < |r.streams| && !r.streams[x].live
            && StepsLeft(r.streams[x]) <= if StepsLeft(h.streams[x]) > 0 then StepsLeft(h.streams[x]) - 1 else 0
  {
    assert StreamInv(h.streams[x]);
  }

  lemma OtherStepsChangeNothing(h: Hub, step: Step, x: nat)
    requires Inv(h) && Enabled(h, step) && x < |h.streams| && !h.streams[x].live && !Own(step, x)
    ensures var r := Apply(h, step);
            x < |r.streams| && !r.streams[x].live && StepsLeft(r.streams[x]) == StepsLeft(h.streams[x])
  {
    if step.OpenReturns? || step.CancelLane? {
      assert SessionInv(step.k, h.sessions[step.k], h.streams);
    }
  }

  /** Whatever else happens and in whatever order: a stream whose viewer left has at most three steps of its
      own before the bridge forgets it or it is an orphan. */
  lemma {:induction false} EveryScheduleForgets(h: Hub, steps: seq<Step>, r: Hub, x: nat)
    requires Inv(h) && Run(h, steps, r) && x < |h.streams| && !h.streams[x].live
    ensures x < |r.streams| && !r.streams[x].live && StepsLeft(r.streams[x]) <= StepsLeft(h.streams[x]) <= 3
    ensures OwnSteps(steps, x) >= StepsLeft(h.streams[x]) ==> !r.streams[x].held || Orphan(r.streams[x])
    ensures StepsLeft(r.streams[x]) == 0 || StepsLeft(r.streams[x]) + OwnSteps(steps, x) <= StepsLeft(h.streams[x])
    decreases |steps|
  {
    if steps != [] {
      StepInv(h, steps[0]);
      if Own(steps[0], x) {
        OwnStepsLeftFall(h, steps[0], x);
      } else {
        OtherStepsChangeNothing(h, steps[0], x);
      }
      EveryScheduleForgets(Apply(h, steps[0]), steps[1..], r, x);
    }
  }

  /** And as long as it is neither, one of its own steps can happen. */
  lemma OwnStepCanHappen(h: Hub, x: nat)
    requires Inv(h) && x < |h.streams| && !h.streams[x].live && StepsLeft(h.streams[x]) > 0
    ensures exists step :: Own(step, x) && Enabled(h, step)
  {
    var st := h.streams[x];
    assert StreamInv(st) && OwnerInv(x, st, h.sessions);
    var step := if st.release.LettingGo? then LetGoEnds(x)
                else if !st.release.Late? then PumpEnds(x)
                else if st.request.Asked? then RequestEnds(x, Refused)
                else LateRuns(x);
    assert Own(step, x) && Enabled(h, step);
  }

  /** Unless its request ends uncaught, two steps are enough to forget such a stream. */
  lemma LeftStreamIsForgotten(h: Hub, x: nat) returns (steps: seq<Step>, r: Hub)
    requires Inv(h) && x < |h.streams| && h.streams[x].held && !h.streams[x].live && !Orphan(h.streams[x])
    requires !Uncaught(h.streams[x].request)
    ensures Run(h, steps, r) && |steps| <= 2 && x < |r.streams| && !r.streams[x].held
  {
    var st := h.streams[x];
    assert StreamInv(st) && OwnerInv(x, st, h.sessions);
    var step := if st.release.LettingGo? then LetGoEnds(x)
                else if !st.release.Late? then PumpEnds(x)
                else if st.request.Asked? then RequestEnds(x, Refused)
                else LateRuns(x);
    r := Apply(h, step);
    steps := [step];
    if r.streams[x].held {
      var last := if r.streams[x].release.LettingGo? then LetGoEnds(x) else LateRuns(x);
      steps := [step, last];
      assert steps[1..] == [last];
      r := Apply(r, last);
    }
  }

  /** In every reachable state the bridge knows every stream that the emulator holds, and so counts it against
      its limits; one whose viewer left is being released. */
  lemma NothingIsForgottenTooEarly(steps: seq<Step>, r: Hub, x: nat)
    requires Run(EMPTY, steps, r) && x < |r.streams|
    ensures EmulatorHolds(r.streams[x]) ==> r.streams[x].held
    ensures EmulatorHolds(r.streams[x]) && !r.streams[x].live ==> r.streams[x].release.Late? || r.streams[x].release.LettingGo?
  {
    RunInv(EMPTY, steps, r);
    assert StreamInv(r.streams[x]);
  }

  function OnEmulator(streams: seq<Stream>): nat {
    if streams == [] then 0
    else OnEmulator(streams[..|streams| - 1]) + if EmulatorHolds(streams[|streams| - 1]) then 1 else 0
  }

  lemma {:induction false} OnEmulatorIsHeld(streams: seq<Stream>)
    requires forall x :: 0 <= x < |streams| ==> StreamInv(streams[x])
    ensures OnEmulator(streams) <= Held(streams)
  {
    if streams != [] {
      OnEmulatorIsHeld(streams[..|streams| - 1]);
    }
  }

  /** So the emulator never holds more than eleven streams. */
  lemma EmulatorLoadIsBounded(steps: seq<Step>, r: Hub)
    requires Run(EMPTY, steps, r)
    ensures OnEmulator(r.streams) <= 11
  {
    RunInv(EMPTY, steps, r);
    OnEmulatorIsHeld(r.streams);
  }

  // The viewer

  /** While the viewer is there, it gets every message of the emulator, and is told of the end. */
  lemma ViewersHearEverything(h: Hub, x: nat)
    requires Inv(h) && x < |h.streams| && h.streams[x].live
    ensures Enabled(h, PumpRelays(x)) ==> Apply(h, PumpRelays(x)).streams[x].events == h.streams[x].events + [Relayed]
    ensures Enabled(h, PumpEnds(x)) ==>
              var r := Apply(h, PumpEnds(x));
              && r.streams[x].events == h.streams[x].events + [Over] && !r.streams[x].live
              && r.sessions[h.streams[x].owner].stream == None
  {
    assert StreamInv(h.streams[x]) && OwnerInv(x, h.streams[x], h.sessions);
  }

  /** A start closes the stream that the session had, and brings a new one exactly when Android and TURN run and
      the limits, after that close, leave room. */
  lemma WhatAStartDoes(h: Hub, k: nat, served: bool)
    requires Inv(h) && Enabled(h, Start(k, served))
    ensures var r := Apply(h, Start(k, served));
            && (h.sessions[k].stream.Some? ==> !r.streams[h.sessions[k].stream.value].live)
            && (|r.streams| == |h.streams| || |r.streams| == |h.streams| + 1)
            && (|r.streams| > |h.streams| <==> served && MayCreate(Hub(r.streams[..|h.streams|], r.sessions)))
            && (|r.streams| > |h.streams| ==> r.sessions[k].stream == Some(|h.streams|) && r.streams[|h.streams|].live)
            && (|r.streams| == |h.streams| ==> r.sessions[k].stream == None)
  {
    assert SessionInv(k, h.sessions[k], h.streams);
    var d := DropStream(h, k);
    assert |d.streams| == |h.streams|;
    assert (d.streams + [NewStream(k)])[..|h.streams|] == d.streams;
    assert d.streams[..|h.streams|] == d.streams;
  }

  /** A stop, and the end of a session, close its stream: the viewer is gone for it. */
  lemma WhatAStopDoes(h: Hub, k: nat, step: Step)
    requires Inv(h) && Enabled(h, step) && (step == Stop(k) || step == FinishClose(k))
    ensures var r := Apply(h, step);
            && r.sessions[k].stream == None
            && (h.sessions[k].stream.Some? ==> !r.streams[h.sessions[k].stream.value].live)
  {
    assert SessionInv(k, h.sessions[k], h.streams);
  }

  /** `live` never becomes true again. */
  lemma LiveNeverReturns(h: Hub, step: Step, x: nat)
    requires Inv(h) && Enabled(h, step) && x < |h.streams| && !h.streams[x].live
    ensures x < |Apply(h, step).streams| && !Apply(h, step).streams[x].live
    ensures Apply(h, step).streams[x].events == h.streams[x].events
  {
    assert StreamInv(h.streams[x]);
    if step.OpenReturns? || step.CancelLane? {
      assert SessionInv(step.k, h.sessions[step.k], h.streams);
    }
  }

  /** Nothing reaches a viewer after it left or after its stream ended. */
  lemma {:induction false} SilenceAfterTheEnd(h: Hub, steps: seq<Step>, r: Hub, x: nat)
    requires Inv(h) && Run(h, steps, r) && x < |h.streams| && !h.streams[x].live
    ensures x < |r.streams| && r.streams[x].events == h.streams[x].events
    decreases |steps|
  {
    if steps != [] {
      StepInv(h, steps[0]);
      LiveNeverReturns(h, steps[0], x);
      SilenceAfterTheEnd(Apply(h, steps[0]), steps[1..], r, x);
    }
  }

  /** The viewer hears "starting", then "configured", then messages, then one end at most. */
  ghost predicate InOrder(events: seq<Event>) {
    forall i :: 0 <= i < |events| ==>
      && (events[i].Begun? <==> i == 0)
      && (events[i].Configured? ==> i == 1)
      && (events[i].Relayed? ==> i >= 2 && events[1].Configured?)
      && (events[i].Closed? || events[i].Over? ==> i == |events| - 1)
      && (events[i].Over? ==> i >= 2 && events[1].Configured?)
  }

  lemma {:induction false} StagesInOrder(events: seq<Event>)
    requires StageOf(events) != Wrong
    ensures InOrder(events)
    ensures StageOf(events) == Before <==> events == []
    ensures StageOf(events) == Waiting ==> events == [Begun]
    ensures StageOf(events) == Flowing ==>
              |events| >= 2 && events[1].Configured? && !events[|events| - 1].Closed? && !events[|events| - 1].Over?
    ensures StageOf(events) == Finished ==> |events| >= 2 && (events[|events| - 1].Closed? || events[|events| - 1].Over?)
  {
    if events != [] {
      var init := events[..|events| - 1];
      StagesInOrder(init);
      assert forall i :: 0 <= i < |init| ==> init[i] == events[i];
    }
  }

  lemma ViewersHearInOrder(steps: seq<Step>, r: Hub, x: nat)
    requires Run(EMPTY, steps, r) && x < |r.streams|
    ensures InOrder(r.streams[x].events)
  {
    RunInv(EMPTY, steps, r);
    assert StreamInv(r.streams[x]);
    StagesInOrder(r.streams[x].events);
  }

  /** A message of the viewer takes the lane until the emulator has it; nothing but the answer is remembered of it. */
  lemma MessagesTakeTheLane(h: Hub, k: nat, answer: bool)
    requires Inv(h) && Enabled(h, Relay(k))
    ensures
      var sent := Apply(h, Relay(k));
      var x := h.sessions[k].stream.value;
      && !Enabled(sent, Relay(k)) && !Enabled(sent, Stop(k)) && !Enabled(sent, Start(k, true))
      && Enabled(sent, SendReturns(k, answer))
      && Apply(sent, SendReturns(k, answer)) ==
           h.(streams := h.streams[x := h.streams[x].(answered := h.streams[x].answered || answer)])
  {
    var sent := Apply(h, Relay(k));
    assert sent.sessions[k := h.sessions[k]] == h.sessions;
  }
}
