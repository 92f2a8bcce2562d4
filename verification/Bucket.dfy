/** The token bucket that limits a session's messages and errors, over a clock that never goes back.
    The proofs measure time in tokens earned; the results are about seconds and the rate. */
module Bucket {
  /** A call of take, and whether it was granted. */
  datatype Call = Call(time: real, granted: bool)

  function Min(x: real, y: real): real {
    if x < y then x else y
  }

  // Time in tokens earned

  /** The tokens after the calls. */
  function Tokens(burst: real, calls: seq<Call>): real
    decreases |calls|, 0
  {
    if calls == [] then burst else
    var n := |calls| - 1;
    Refilled(burst, calls[..n], calls[n].time) - if calls[n].granted then 1.0 else 0.0
  }

  /** The tokens that a call finds at `now`. */
  function Refilled(burst: real, calls: seq<Call>, now: real): real
    decreases |calls|, 1
  {
    if calls == [] then burst else Min(burst, Tokens(burst, calls) + now - calls[|calls| - 1].time)
  }

  predicate After(calls: seq<Call>, now: real) {
    calls != [] ==> calls[|calls| - 1].time <= now
  }

  /** The clock did not go back, and exactly the calls that found a token were granted. */
  predicate History(burst: real, calls: seq<Call>)
    decreases |calls|
  {
    calls == [] ||
    var n := |calls| - 1;
    && History(burst, calls[..n]) && After(calls[..n], calls[n].time)
    && (calls[n].granted <==> Refilled(burst, calls[..n], calls[n].time) >= 1.0)
  }

  lemma {:induction false} HistoryPrefix(burst: real, calls: seq<Call>, n: nat)
    requires History(burst, calls) && n <= |calls|
    ensures History(burst, calls[..n])
    decreases |calls|
  {
    if n < |calls| {
      assert calls[..|calls| - 1][..n] == calls[..n];
      HistoryPrefix(burst, calls[..|calls| - 1], n);
    } else {
      assert calls[..n] == calls;
    }
  }

  lemma {:induction false} TokensStayInRange(burst: real, calls: seq<Call>)
    requires History(burst, calls) && burst >= 0.0
    ensures 0.0 <= Tokens(burst, calls) <= burst
    decreases |calls|
  {
    if calls != [] {
      TokensStayInRange(burst, calls[..|calls| - 1]);
    }
  }

  /** How many of the calls from `i` on were granted. */
  function Granted(calls: seq<Call>, i: nat): nat
    decreases |calls|
  {
    if |calls| <= i then 0 else
    var n := |calls| - 1;
    Granted(calls[..n], i) + if calls[n].granted then 1 else 0
  }

  /** What the window from call `i` to `now` still allows: its share less what it granted. */
  function Room(burst: real, calls: seq<Call>, i: nat, now: real): real
    requires i < |calls|
  {
    burst + now - calls[i].time - Granted(calls, i) as real
  }

  /** No window ever has less room than the bucket has tokens. */
  lemma {:induction false} RefillFitsEveryWindow(burst: real, calls: seq<Call>, i: nat, now: real)
    requires History(burst, calls) && burst >= 0.0 && i < |calls| && After(calls, now)
    ensures Refilled(burst, calls, now) <= Room(burst, calls, i, now)
    decreases |calls|
  {
    var n := |calls| - 1;
    if i == n {
      assert Granted(calls[..n], n) == 0;
    } else {
      RefillFitsEveryWindow(burst, calls[..n], i, calls[n].time);
    }
  }

  /** The bucket is full, or some window has no more room than it has tokens. */
  lemma {:induction false} SomeWindowIsTight(burst: real, calls: seq<Call>, now: real) returns (i: nat)
    requires History(burst, calls) && After(calls, now)
    ensures i <= |calls|
    ensures Refilled(burst, calls, now) == if i == |calls| then burst else Room(burst, calls, i, now)
    decreases |calls|
  {
    i := |calls|;
    if calls != [] && Refilled(burst, calls, now) != burst {
      var n := |calls| - 1;
      i := SomeWindowIsTight(burst, calls[..n], calls[n].time);
      if i == n {
        assert Granted(calls[..n], n) == 0;
      }
    }
  }

  // Seconds

  function InTokens(rate: real, c: Call): Call {
    Call(c.time * rate, c.granted)
  }

  function Earned(rate: real, calls: seq<Call>): (e: seq<Call>)
    ensures |e| == |calls| && forall i :: 0 <= i < |calls| ==> e[i] == InTokens(rate, calls[i])
  {
    seq(|calls|, i requires 0 <= i < |calls| => InTokens(rate, calls[i]))
  }

  lemma {:induction false} EarnedGrants(rate: real, calls: seq<Call>, i: nat)
    ensures Granted(Earned(rate, calls), i) == Granted(calls, i)
    decreases |calls|
  {
    if |calls| > i {
      assert Earned(rate, calls)[..|calls| - 1] == Earned(rate, calls[..|calls| - 1]);
      EarnedGrants(rate, calls[..|calls| - 1], i);
    }
  }

  /** The most that the bucket may grant in `time` seconds. */
  function Share(rate: real, burst: real, time: real): real {
    burst + time * rate
  }

  lemma ShareIsEarned(rate: real, burst: real, from: real, to: real)
    ensures Share(rate, burst, to - from) == burst + to * rate - from * rate
  {
  }

  /** In every interval of length t at most burst + rate * t calls are granted. */
  lemma EveryWindowIsBounded(rate: real, burst: real, calls: seq<Call>, i: nat, j: nat)
    requires burst >= 0.0 && History(burst, Earned(rate, calls)) && i <= j < |calls|
    ensures Granted(calls[..j + 1], i) as real <= Share(rate, burst, calls[j].time - calls[i].time)
  {
    var e := Earned(rate, calls);
    var c := e[..j + 1];
    HistoryPrefix(burst, e, j + 1);
    TokensStayInRange(burst, c);
    RefillFitsEveryWindow(burst, c, i, e[j].time);
    assert c == Earned(rate, calls[..j + 1]);
    EarnedGrants(rate, calls[..j + 1], i);
    ShareIsEarned(rate, burst, calls[i].time, calls[j].time);
  }

  /** One more grant at `now` keeps every window that ends now, and the empty one, within its share. */
  ghost predicate Allowed(rate: real, burst: real, calls: seq<Call>, now: real) {
    && burst >= 1.0
    && forall i :: 0 <= i < |calls| ==> Granted(calls, i) as real + 1.0 <= Share(rate, burst, now - calls[i].time)
  }

  lemma RoomIsShare(rate: real, burst: real, calls: seq<Call>, i: nat, now: real, earned: real)
    requires i < |calls| && earned == now * rate
    ensures Room(burst, Earned(rate, calls), i, earned) == Share(rate, burst, now - calls[i].time) - Granted(calls, i) as real
  {
    var start := calls[i].time * rate;
    EarnedGrants(rate, calls, i);
    ShareIsEarned(rate, burst, calls[i].time, now);
    EarnedTime(rate, calls, i, start);
    RoomOf(burst, Earned(rate, calls), i, earned, start);
  }

  lemma EarnedTime(rate: real, calls: seq<Call>, i: nat, at: real)
    requires i < |calls| && at == calls[i].time * rate
    ensures Earned(rate, calls)[i].time == at
  {
    assert Earned(rate, calls)[i] == InTokens(rate, calls[i]);
  }

  lemma RoomOf(burst: real, calls: seq<Call>, i: nat, now: real, start: real)
    requires i < |calls| && calls[i].time == start
    ensures Room(burst, calls, i, now) == burst + now - start - Granted(calls, i) as real
  {
  }

  /** Every window that ends now, and the empty one, has room for one more. */
  ghost predicate HasRoom(burst: real, calls: seq<Call>, now: real) {
    burst >= 1.0 && forall i :: 0 <= i < |calls| ==> Room(burst, calls, i, now) >= 1.0
  }

  lemma FullIffRoom(burst: real, calls: seq<Call>, now: real)
    requires burst >= 0.0 && History(burst, calls) && After(calls, now)
    ensures Refilled(burst, calls, now) >= 1.0 <==> HasRoom(burst, calls, now)
  {
    var k := SomeWindowIsTight(burst, calls, now);
    forall i | 0 <= i < |calls| ensures Room(burst, calls, i, now) >= Refilled(burst, calls, now) {
      RefillFitsEveryWindow(burst, calls, i, now);
    }
  }

  /** A call finds a token exactly when no window would then have more than its share. */
  lemma GrantedIffAllowed(rate: real, burst: real, calls: seq<Call>, now: real)
    requires burst >= 0.0 && History(burst, Earned(rate, calls)) && After(Earned(rate, calls), now * rate)
    ensures Refilled(burst, Earned(rate, calls), now * rate) >= 1.0 <==> Allowed(rate, burst, calls, now)
  {
    var e := Earned(rate, calls);
    FullIffRoom(burst, e, now * rate);
    forall i | 0 <= i < |calls|
      ensures Room(burst, e, i, now * rate) >= 1.0 <==> Granted(calls, i) as real + 1.0 <= Share(rate, burst, now - calls[i].time)
    {
      RoomIsShare(rate, burst, calls, i, now, now * rate);
    }
  }

  lemma HistoryGrows(burst: real, calls: seq<Call>, c: Call)
    requires burst >= 0.0 && History(burst, calls) && After(calls, c.time)
    requires c.granted <==> Refilled(burst, calls, c.time) >= 1.0
    ensures History(burst, calls + [c])
    ensures Tokens(burst, calls + [c]) == Refilled(burst, calls, c.time) - if c.granted then 1.0 else 0.0
    ensures 0.0 <= Tokens(burst, calls + [c]) <= burst
  {
    assert (calls + [c])[..|calls|] == calls;
    TokensStayInRange(burst, calls + [c]);
  }

  /** Seconds that pass earn tokens. */
  lemma TimeEarns(rate: real, from: real, to: real)
    requires rate >= 0.0 && from <= to
    ensures (to - from) * rate == to * rate - from * rate
    ensures (to - from) * rate >= 0.0
  {
  }

  lemma RefillEarned(burst: real, calls: seq<Call>, tokens: real, from: real, to: real, earned: real)
    requires tokens == Tokens(burst, calls) && earned == to - from && earned >= 0.0
    requires calls != [] ==> calls[|calls| - 1].time == from
    ensures Min(burst, tokens + earned) == Refilled(burst, calls, to) && After(calls, to)
  {
  }

  /** One call of take on the fields: the refill, and the history with the call. */
  lemma OneTake(rate: real, burst: real, calls: seq<Call>, tokens: real, time: real, now: real, at: real, refilled: real)
    requires Sound(rate, burst, calls, tokens, time) && time <= now && at == now * rate
    requires refilled == Min(burst, tokens + (now - time) * rate)
    ensures refilled >= 1.0 <==> HasRoom(burst, calls, at)
    ensures refilled >= 1.0 ==> Sound(rate, burst, calls + [Call(at, true)], refilled - 1.0, now)
    ensures refilled < 1.0 ==> Sound(rate, burst, calls + [Call(at, false)], refilled, now)
    ensures 0.0 <= refilled <= burst
  {
    var from := time * rate;
    var earned := (now - time) * rate;
    assert earned == at - from && earned >= 0.0 by {
      TimeEarns(rate, time, now);
    }
    RefillEarned(burst, calls, tokens, from, at, earned);
    FullIffRoom(burst, calls, at);
    TokensStayInRange(burst, calls);
    HistoryGrows(burst, calls, Call(at, refilled >= 1.0));
  }

  /** The fields are those of a bucket with this history. */
  ghost predicate Sound(rate: real, burst: real, calls: seq<Call>, tokens: real, time: real) {
    && rate >= 0.0 && burst >= 0.0 && History(burst, calls) && tokens == Tokens(burst, calls)
    && (calls != [] ==> calls[|calls| - 1].time == time * rate)
  }

  class Bucket {
    const rate: real
    const burst: real
    var tokens: real
    var time: real
    /** The calls, each at its time in tokens earned. */
    ghost var calls: seq<Call>

    ghost predicate Valid()
      reads this
    {
      Sound(rate, burst, calls, tokens, time)
    }

    constructor (rate: real, burst: real, now: real)
      requires rate >= 0.0 && burst >= 0.0
      ensures Valid() && calls == [] && this.rate == rate && this.burst == burst && time == now
    {
      this.rate, this.burst := rate, burst;
      tokens, time, calls := burst, now, [];
    }

    method Take(now: real) returns (granted: bool)
      requires Valid() && time <= now
      modifies this
      ensures Valid() && time == now && calls == old(calls) + [Call(now * rate, granted)]
      ensures granted <==> HasRoom(burst, old(calls), now * rate)
      ensures 0.0 <= tokens <= burst
    {
      ghost var at := now * rate;
      var refilled := Min(burst, tokens + (now - time) * rate);
      OneTake(rate, burst, calls, tokens, time, now, at, refilled);
      tokens, time := refilled, now;
      granted := !(tokens < 1.0);
      if granted {
        tokens := tokens - 1.0;
      }
      calls := calls + [Call(at, granted)];
    }
  }
}
