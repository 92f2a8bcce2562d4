/** The streams and the bridge as objects: the fields that `Stream` and `Bridge` update in place,
    with the set of the streams that the bridge holds. */
module Streams {
  import opened Wrappers
  import B = Bridge

  class Stream {
    const owner: nat
    var request: B.Request
    var pump: B.Pump
    var pumpCancelled: bool
    var release: B.Release
    var answered: bool
    var live: bool
    ghost var events: seq<B.Event>

    /** The value of the stream, `held` when the bridge has it in its set. */
    ghost function View(held: bool): B.Stream
      reads this
    {
      B.Stream.Stream(owner, live, held, request, pump, pumpCancelled, release, answered, events)
    }

    constructor (owner: nat)
      ensures View(true) == B.NewStream(owner)
    {
      this.owner := owner;
      request, pump, release := B.Asked, B.NoPump, B.NoRelease;
      pumpCancelled, answered, live := false, false, true;
      events := [B.Begun];
    }

    method Close(bridge: Bridge)
      modifies this, bridge
      ensures View(this in bridge.streams) == B.CloseStream(old(View(this in bridge.streams)))
      ensures bridge.streams == old(bridge.streams) || bridge.streams == old(bridge.streams) - {this}
    {
      if !live {
        return;
      }
      live := false;
      events := events + [B.Closed];
      if pump.Pumping? {
        release := B.LettingGo;
      } else if request.Asked? {
        // `open` releases the stream once the emulator answers.
      } else {
        bridge.Forget(this);
      }
    }

    method Opened()
      modifies this
      ensures forall held :: View(held) == B.OpenStream(old(View(held)))
    {
      pump := B.Pumping;
      if live {
        events := events + [B.Configured];
      } else {
        release := B.LettingGo;
      }
    }

    method OpenCancelled()
      modifies this
      ensures forall held :: View(held) == B.AbandonStream(old(View(held)))
    {
      if live {
        events := events + [B.Closed];
      }
      live := false;
      release := B.Late;
    }

    method LetGoLate(bridge: Bridge)
      modifies this, bridge
      ensures View(this in bridge.streams) == B.RunLate(old(View(this in bridge.streams)))
      ensures bridge.streams == old(bridge.streams) || bridge.streams == old(bridge.streams) - {this}
    {
      match request
      case Granted =>
        pump := B.Pumping;
        release := B.LettingGo;
      case Refused =>
        bridge.Forget(this);
        release := B.Released;
      case _ =>
        release := B.Released;
    }

    method LetGoEnds(bridge: Bridge)
      modifies this, bridge
      ensures View(this in bridge.streams) == B.EndLetGo(old(View(this in bridge.streams)))
      ensures bridge.streams == old(bridge.streams) - {this}
    {
      if pump.Pumping? {
        pumpCancelled := true;
      }
      bridge.Forget(this);
      release := B.Released;
    }

    method Forward()
      modifies this
      ensures forall held :: View(held) == B.Forward(old(View(held)))
    {
      if live {
        events := events + [B.Relayed];
      }
    }

    /** Returns whether `on_end` is called. */
    method Ended(bridge: Bridge) returns (tells: bool)
      modifies this, bridge
      ensures View(this in bridge.streams) == B.EndPump(old(View(this in bridge.streams)))
      ensures bridge.streams == old(bridge.streams) - {this}
      ensures tells == old(live)
    {
      tells := live;
      if live {
        live := false;
        events := events + [B.Over];
      }
      bridge.Forget(this);
      pump := B.PumpEnded;
    }
  }

  class Bridge {
    var streams: set<Stream>

    ghost function LiveStreams(): set<Stream>
      reads this, streams
    {
      set s | s in streams && s.live
    }

    /** The limits that `create` keeps. */
    ghost predicate Bounded()
      reads this, streams
    {
      |LiveStreams()| <= B.MAX_STREAMS && |streams| <= B.MAX_STREAMS + B.MAX_RELEASING - 1
    }

    constructor ()
      ensures streams == {} && Bounded()
    {
      streams := {};
    }

    method Forget(stream: Stream)
      modifies this
      ensures streams == old(streams) - {stream}
    {
      streams := streams - {stream};
    }

    method CountLive() returns (live: nat)
      ensures live == |LiveStreams()|
    {
      live := 0;
      var rest := streams;
      ghost var seen: set<Stream> := {};
      while rest != {}
        invariant rest <= streams && seen == LiveStreams() - rest && live == |seen|
        decreases rest
      {
        var s :| s in rest;
        rest := rest - {s};
        if s.live {
          live := live + 1;
          seen := seen + {s};
        }
      }
      assert seen == LiveStreams();
    }

    /** A new stream, or None above a limit. */
    method Create(owner: nat) returns (r: Option<Stream>)
      requires Bounded()
      modifies this
      ensures Bounded()
      ensures r.Some? <==> old(|LiveStreams()|) < B.MAX_STREAMS && old(|streams| - |LiveStreams()|) < B.MAX_RELEASING
      ensures r.None? ==> streams == old(streams) && LiveStreams() == old(LiveStreams())
      ensures r.Some? ==> |streams| - |LiveStreams()| < B.MAX_RELEASING
      ensures r.Some? ==> fresh(r.value) && streams == old(streams) + {r.value} && r.value.View(true) == B.NewStream(owner)
    {
      var live := CountLive();
      if live >= B.MAX_STREAMS || |streams| - live >= B.MAX_RELEASING {
        assert LiveStreams() == old(LiveStreams());
        return None;
      }
      var stream := new Stream(owner);
      ghost var before := LiveStreams();
      streams := streams + {stream};
      assert LiveStreams() == before + {stream};
      return Some(stream);
    }
  }

  /** The part of a session that has the stream: its control lane runs these one after another. */
  class Viewer {
    const owner: nat
    const bridge: Bridge
    var stream: Stream?

    constructor (owner: nat, bridge: Bridge)
      ensures stream == null && this.owner == owner && this.bridge == bridge
    {
      this.owner, this.bridge, stream := owner, bridge, null;
    }

    ghost function Mine(): set<Stream>
      reads this
    {
      if stream == null then {} else {stream}
    }

    /** The stream, if there is one, is closed and no longer the session's. */
    method DropStream()
      requires bridge.Bounded()
      modifies this, Mine(), bridge
      ensures stream == null && bridge.Bounded()
      ensures old(stream) != null ==>
                old(stream).View(old(stream) in bridge.streams) ==
                B.CloseStream(old(stream.View(stream in bridge.streams)))
      ensures bridge.streams <= old(bridge.streams) && old(bridge.streams) - old(Mine()) <= bridge.streams
    {
      var mine := stream;
      stream := null;
      if mine != null {
        ghost var live := bridge.LiveStreams();
        ghost var all := bridge.streams;
        mine.Close(bridge);
        Fewer(bridge.LiveStreams(), live);
        Fewer(bridge.streams, all);
      }
    }

    /** A start replaces the stream that runs; above a limit, or without Android and a TURN server, there
        is none afterwards. Returns whether the request to the emulator follows. */
    method StartStream(served: bool) returns (opening: bool)
      requires bridge.Bounded()
      modifies this, Mine(), bridge
      ensures bridge.Bounded()
      ensures opening <==> stream != null
      ensures opening ==> served && fresh(stream) && stream in bridge.streams && stream.View(true) == B.NewStream(owner)
      ensures opening ==> |bridge.streams| - |bridge.LiveStreams()| < B.MAX_RELEASING
      ensures served && !opening ==>
                |bridge.LiveStreams()| >= B.MAX_STREAMS || |bridge.streams| - |bridge.LiveStreams()| >= B.MAX_RELEASING
      ensures old(stream) != null ==> !old(stream).live
    {
      DropStream();
      if !served {
        return false;
      }
      var created := bridge.Create(owner);
      if created.None? {
        return false;
      }
      stream := created.value;
      opening := true;
    }

    /** `_on_end`: the emulator ended the stream. */
    method HearEnd()
      modifies this
      ensures stream == null
    {
      stream := null;
    }
  }

  lemma Fewer<T>(a: set<T>, b: set<T>)
    requires a <= b
    ensures |a| <= |b|
  {
    assert |b| == |a| + |b - a|;
  }
}
