/** One retry for each start, over whole runs: a crash can never loop. */
module Retries {
  import opened Wrappers
  import opened Machine
  import opened Lifecycle

  function RetryCount(qemus: seq<Qemu>): nat {
    if qemus == [] then 0
    else RetryCount(qemus[..|qemus| - 1]) + if qemus[|qemus| - 1].watch.Retries? then 1 else 0
  }

  /** The exits that were answered with a retry. */
  function Retried(s: Sup): nat {
    RetryCount(s.qemus.past) + if s.qemus.now.Some? && s.qemus.now.value.watch.Retries? then 1 else 0
  }

  /** The retries made, and the one that the start at hand still has. */
  function Balance(s: Sup): nat {
    Retried(s) + if s.retried then 0 else 1
  }

  lemma RetriedPush(qemus: Line<Qemu>, q: Qemu)
    requires !q.watch.Retries?
    ensures RetryCount(qemus.Push(q).past) ==
            RetryCount(qemus.past) + if qemus.now.Some? && qemus.now.value.watch.Retries? then 1 else 0
  {
    if qemus.now.Some? {
      assert (qemus.past + [qemus.now.value])[..|qemus.past|] == qemus.past;
    }
  }

  lemma ClearingKeepsBalance(s: Sup, b: nat)
    requires Core(s) && TaskEnabled(s, BootRuns(b)) && s.boots.Get(b).phase.Clearing?
    ensures Balance(BootRun(s, b)) == Balance(s) && BootRun(s, b).begins == s.begins
  {
    BootIsNewest(s, b);
    TornWatcher(s);
  }

  lemma LaunchKeepsBalance(s: Sup, b: nat)
    requires Core(s) && TaskEnabled(s, BootRuns(b)) && s.boots.Get(b).phase.Preparing?
    ensures Balance(BootRun(s, b)) == Balance(s) && BootRun(s, b).begins == s.begins
  {
    RetriedPush(s.qemus, Qemu(true, Unwatched));
  }

  lemma BootKeepsBalance(s: Sup, b: nat)
    requires Core(s) && TaskEnabled(s, BootRuns(b))
    ensures Balance(BootRun(s, b)) == Balance(s) && BootRun(s, b).begins == s.begins
  {
    if s.boots.Get(b).phase.Clearing? {
      ClearingKeepsBalance(s, b);
    } else if s.boots.Get(b).phase.Preparing? {
      LaunchKeepsBalance(s, b);
    } else {
      BootIsNewest(s, b);
    }
  }

  lemma FailureKeepsBalance(s: Sup, b: nat, internal: bool)
    requires Core(s) && TaskEnabled(s, BootFails(b, internal))
    ensures Balance(BootFail(s, b, internal)) == Balance(s) && BootFail(s, b, internal).begins == s.begins
  {
    BootIsNewest(s, b);
  }

  lemma UnwindKeepsBalance(s: Sup, b: nat)
    requires Core(s) && TaskEnabled(s, BootUnwinds(b))
    ensures Balance(RunTask(s, BootUnwinds(b))) == Balance(s) && RunTask(s, BootUnwinds(b)).begins == s.begins
  {
  }

  lemma ExitKeepsBalance(s: Sup, e: nat)
    requires Core(s) && TaskEnabled(s, QemuExits(e))
    ensures Balance(Killed(s, e)) == Balance(s) && Killed(s, e).begins == s.begins
  {
  }

  lemma TeardownKeepsBalance(s: Sup, t: nat, tear: Tear)
    requires Core(s) && TaskEnabled(s, StopRuns(t)) && s.stops.Get(t).phase == Tearing(tear)
    ensures Balance(StopRun(s, t)) == Balance(s) && StopRun(s, t).begins == s.begins
  {
    StopIsNewest(s, t);
    TornWatcher(s);
  }

  lemma StopKeepsBalance(s: Sup, t: nat)
    requires Core(s) && TaskEnabled(s, StopRuns(t))
    ensures Balance(StopRun(s, t)) == Balance(s) && StopRun(s, t).begins == s.begins
  {
    if s.stops.Get(t).phase.Tearing? {
      TeardownKeepsBalance(s, t, s.stops.Get(t).phase.tear);
    }
  }

  lemma WatchKeepsBalance(s: Sup, e: nat, exit: Exit)
    requires Core(s) && TaskEnabled(s, WatchRuns(e, exit))
    ensures Balance(WatchRun(s, e, exit)) <= Balance(s) && WatchRun(s, e, exit).begins == s.begins
  {
    if s.emu == Some(e) && Active(s) {
      WatchDecides(s, e, exit);
    }
  }

  lemma TasksKeepBalance(s: Sup, step: Step)
    requires Core(s) && TaskEnabled(s, step)
    ensures Balance(RunTask(s, step)) <= Balance(s) && RunTask(s, step).begins == s.begins
  {
    match step
    case BootRuns(b) => BootKeepsBalance(s, b);
    case BootFails(b, internal) => FailureKeepsBalance(s, b, internal);
    case BootUnwinds(b) => UnwindKeepsBalance(s, b);
    case StopRuns(t) => StopKeepsBalance(s, t);
    case WatchRuns(e, exit) => WatchKeepsBalance(s, e, exit);
    case QemuExits(e) => ExitKeepsBalance(s, e);
  }

  /** A request retries nothing; it resets the flag only when it begins a boot. */
  predicate NoRetry(s: Sup, r: Sup) {
    r.qemus == s.qemus && r.begins >= s.begins && (r.begins == s.begins ==> r.retried == s.retried)
  }

  lemma StartsDoNotRetry(d: Daemon, step: Step)
    requires Inv(d) && Enabled(d, step) && (step.Start? || step.Lease? || step.Wait? || step.Resume?)
    ensures NoRetry(d.sup, Apply(d, step).sup)
  {
  }

  lemma RequestsDoNotRetry(d: Daemon, step: Step)
    requires Inv(d) && Enabled(d, step) && !IsTask(step)
    ensures NoRetry(d.sup, Apply(d, step).sup)
  {
    assert NoRetry(d.sup, StopRequest(d.sup));
    if step.Start? || step.Lease? || step.Wait? || step.Resume? {
      StartsDoNotRetry(d, step);
    }
  }

  /** Between two states of any run there is at most one retry for each start that began in between, and one
      more if the start at hand had not used its own. */
  lemma {:induction false} OneRetryPerStart(d: Daemon, steps: seq<Step>, r: Daemon)
    requires Inv(d) && Run(d, steps, r)
    ensures d.sup.begins <= r.sup.begins
    ensures Balance(r.sup) <= Balance(d.sup) + r.sup.begins - d.sup.begins
    ensures Retried(r.sup) - Retried(d.sup) <= r.sup.begins - d.sup.begins + if d.sup.retried then 0 else 1
    decreases |steps|
  {
    if steps != [] {
      if IsTask(steps[0]) {
        TasksKeepBalance(d.sup, steps[0]);
      } else {
        RequestsDoNotRetry(d, steps[0]);
      }
      ApplyInv(d, steps[0]);
      OneRetryPerStart(Apply(d, steps[0]), steps[1..], r);
    }
  }
}
