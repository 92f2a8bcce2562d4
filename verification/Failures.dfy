/** Failed logins of a client (auth.py): a deque of at most five times, against the full history. The
    clock never goes back. */
module Failures {
  const MAX_FAILURES := 5
  const FAILURE_WINDOW := 60.0
  const MAX_CLIENTS := 10000

  predicate Rising(times: seq<real>) {
    forall i, j :: 0 <= i <= j < |times| ==> times[i] <= times[j]
  }

  /** How many of the times are at or after `start`. */
  function Recent(times: seq<real>, start: real): nat {
    if times == [] then 0 else (if times[0] >= start then 1 else 0) + Recent(times[1..], start)
  }

  function Capped(n: nat): nat {
    if n < MAX_FAILURES then n else MAX_FAILURES
  }

  /** For every window that begins now or later the deque and the whole history agree, up to five. */
  ghost predicate Keeps(deque: seq<real>, history: seq<real>, seen: real) {
    && Rising(deque) && |deque| <= MAX_FAILURES && (deque != [] ==> deque[|deque| - 1] <= seen)
    && forall start :: start >= seen - FAILURE_WINDOW ==> Capped(Recent(history, start)) == Recent(deque, start)
  }

  /** collections.deque(maxlen=5).append. */
  function Append(deque: seq<real>, time: real): seq<real> {
    var all := deque + [time];
    if |all| > MAX_FAILURES then all[1..] else all
  }

  lemma {:induction false} RecentIsCount(times: seq<real>, start: real)
    ensures Recent(times, start) <= |times|
    ensures (forall i :: 0 <= i < |times| ==> times[i] >= start) ==> Recent(times, start) == |times|
  {
    if times != [] {
      RecentIsCount(times[1..], start);
    }
  }

  lemma {:induction false} RecentAppend(times: seq<real>, time: real, start: real)
    ensures Recent(times + [time], start) == Recent(times, start) + if time >= start then 1 else 0
  {
    if times != [] {
      assert (times + [time])[1..] == times[1..] + [time];
      RecentAppend(times[1..], time, start);
    }
  }

  lemma AppendKeeps(deque: seq<real>, history: seq<real>, seen: real, now: real)
    requires Keeps(deque, history, seen) && seen <= now
    ensures Keeps(Append(deque, now), history + [now], now)
  {
    forall start | start >= now - FAILURE_WINDOW
      ensures Capped(Recent(history + [now], start)) == Recent(Append(deque, now), start)
    {
      AppendAgrees(deque, history, seen, now, start);
    }
  }

  lemma AppendAgrees(deque: seq<real>, history: seq<real>, seen: real, now: real, start: real)
    requires Keeps(deque, history, seen) && seen <= now && start >= seen - FAILURE_WINDOW
    ensures Capped(Recent(history + [now], start)) == Recent(Append(deque, now), start)
  {
    RecentAppend(history, now, start);
    RecentAppend(deque, now, start);
    RecentIsCount(deque, start);
    if |deque| == MAX_FAILURES {
      var all := deque + [now];
      assert Recent(all, start) == (if deque[0] >= start then 1 else 0) + Recent(all[1..], start);
      RecentIsCount(deque[1..], start);
      if deque[0] >= start {
        assert forall i :: 0 <= i < |deque| ==> deque[i] >= deque[0];
        assert now >= start;
      }
    }
  }

  /** Dropping an old front changes nothing that counts. */
  lemma PopKeeps(deque: seq<real>, history: seq<real>, seen: real, now: real)
    requires Keeps(deque, history, seen) && seen <= now && deque != [] && deque[0] < now - FAILURE_WINDOW
    ensures Keeps(deque[1..], history, now)
  {
  }

  lemma TimePasses(deque: seq<real>, history: seq<real>, seen: real, now: real)
    requires Keeps(deque, history, seen) && seen <= now
    ensures Keeps(deque, history, now)
  {
  }

  /** With no old front left, the deque is full exactly when five failures of the whole history are recent. */
  lemma FullIffFiveRecent(deque: seq<real>, history: seq<real>, seen: real)
    requires Keeps(deque, history, seen) && (deque != [] ==> deque[0] >= seen - FAILURE_WINDOW)
    ensures |deque| >= MAX_FAILURES <==> Recent(history, seen - FAILURE_WINDOW) >= MAX_FAILURES
  {
    RecentIsCount(deque, seen - FAILURE_WINDOW);
  }

  ghost predicate AllKeep(failures: map<string, seq<real>>, history: map<string, seq<real>>, seen: real) {
    failures.Keys == history.Keys && forall c :: c in failures ==> Keeps(failures[c], history[c], seen)
  }

  lemma PutKeeps(failures: map<string, seq<real>>, history: map<string, seq<real>>, seen: real,
                 client: string, deque: seq<real>, times: seq<real>)
    requires AllKeep(failures, history, seen) && Keeps(deque, times, seen)
    ensures AllKeep(failures[client := deque], history[client := times], seen)
  {
  }

  lemma ClockAdvances(failures: map<string, seq<real>>, history: map<string, seq<real>>, seen: real, now: real)
    requires AllKeep(failures, history, seen) && seen <= now
    ensures AllKeep(failures, history, now)
  {
    forall c | c in failures ensures Keeps(failures[c], history[c], now) {
      TimePasses(failures[c], history[c], seen, now);
    }
  }

  class Failures {
    var failures: map<string, seq<real>>
    /** Every failure of a client since the table was last cleared. */
    ghost var history: map<string, seq<real>>
    ghost var seen: real

    ghost predicate Valid()
      reads this
    {
      AllKeep(failures, history, seen)
    }

    ghost function HistoryOf(client: string): seq<real>
      reads this
    {
      if client in history then history[client] else []
    }

    constructor (now: real)
      ensures Valid() && failures == map[] && seen == now
    {
      failures, history, seen := map[], map[], now;
    }

    /** `clock` are the readings of the clock, one for each turn of the loop; `at` is the last one used. */
    method Blocked(client: string, clock: seq<real>) returns (blocked: bool, at: real)
      requires Valid() && Rising(clock) && |clock| > MAX_FAILURES && clock[0] >= seen
      modifies this
      ensures Valid() && history == old(history) && at in clock && seen == at
      ensures blocked <==> Recent(HistoryOf(client), at - 60.0) >= 5
    {
      at := clock[0];
      Advance(at);
      if client !in failures {
        return false, at;
      }
      var deque;
      deque, at := DropOld(failures[client], history[client], clock);
      ghost var times := history[client];
      Advance(at);
      PutKeeps(failures, history, at, client, deque, times);
      assert history[client := times] == history;
      failures := failures[client := deque];
      FullIffFiveRecent(deque, times, at);
      blocked := |deque| >= MAX_FAILURES;
    }

    /** The loop that drops old failures from the front; it reads the clock at every turn. */
    static method DropOld(deque: seq<real>, ghost times: seq<real>, clock: seq<real>) returns (rest: seq<real>, at: real)
      requires Rising(clock) && |clock| > MAX_FAILURES && Keeps(deque, times, clock[0])
      ensures at in clock && at >= clock[0] && Keeps(rest, times, at)
      ensures rest != [] ==> rest[0] >= at - FAILURE_WINDOW
    {
      rest, at := deque, clock[0];
      var turn := 0;
      while rest != [] && rest[0] < clock[turn] - FAILURE_WINDOW
        invariant turn + |rest| <= MAX_FAILURES && at <= clock[turn] && at in clock && at >= clock[0]
        invariant Keeps(rest, times, at)
      {
        PopKeeps(rest, times, at, clock[turn]);
        at := clock[turn];
        rest := rest[1..];
        turn := turn + 1;
      }
      if rest != [] {
        TimePasses(rest, times, at, clock[turn]);
        at := clock[turn];
      }
    }

    ghost method Advance(now: real)
      requires Valid() && seen <= now
      modifies this`seen
      ensures Valid() && seen == now
    {
      ClockAdvances(failures, history, seen, now);
      seen := now;
    }

    /** A failure is added to the client's history; a table of too many clients starts again. */
    method Failed(client: string, now: real)
      requires Valid() && seen <= now
      modifies this
      ensures Valid() && seen == now
      ensures var before := if |old(failures)| > 10000 then map[] else old(history);
              history == before[client := (if client in before then before[client] else []) + [now]]
    {
      Advance(now);
      var table := if |failures| > MAX_CLIENTS then map[] else failures;
      ghost var log := if |failures| > MAX_CLIENTS then map[] else history;
      var deque := if client in table then table[client] else [];
      ghost var times := if client in log then log[client] else [];
      AppendKeeps(deque, times, now, now);
      var longer := Append(deque, now);
      PutKeeps(table, log, now, client, longer, times + [now]);
      failures, history := table[client := longer], log[client := times + [now]];
    }
  }
}
