/** The tasks of the supervisor under every schedule: whatever order they run in, and whatever they find, they
    come to rest within a bound, and then nobody waits. */
module Schedules {
  import opened Wrappers
  import opened Machine
  import opened Lifecycle

  // How much the tasks can still do

  /** The steps of a boot that is still alive; one that was cancelled only unwinds. A boot that will launch
      counts the exit of its process and the verdict of its watcher too. */
  function BootLeft(boot: Boot): nat {
    if boot.phase.BootEnded? then 0 else if boot.cancelled then 1 else
    match boot.phase
    case AwaitPrevious(_) => 10
    case Clearing(StopEmulator) => 9
    case Clearing(CloseGrpc) => 8
    case Clearing(StopXvnc) => 7
    case Preparing => 6
    case Spawning(_) => 4
    case Connecting => 2
    case _ => 1
  }

  /** Earlier boots that still unwind. */
  function Unwinding(past: seq<Boot>): nat {
    if past == [] then 0
    else Unwinding(past[..|past| - 1]) + if past[|past| - 1].phase.BootEnded? then 0 else 1
  }

  /** The steps of the stop that runs, or of the one that may have to come. */
  function StopLeft(s: Sup): nat {
    if s.state.Stopped? then 0
    else if !s.state.Stopping? || s.stops.now.None? then 4
    else match s.stops.now.value.phase
         case AwaitBoot => 4
         case Tearing(StopEmulator) => 3
         case Tearing(CloseGrpc) => 2
         case Tearing(StopXvnc) => 1
         case StopEnded => 0
  }

  /** A retry that may still come brings a whole new boot. */
  function RetryLeft(s: Sup): nat {
    if Active(s) && !s.retried then 10 else 0
  }

  function ProcessLeft(s: Sup): nat {
    if s.qemus.now.None? then 0
    else (if s.qemus.now.value.live then 1 else 0) + if s.qemus.now.value.watch.Waiting? then 1 else 0
  }

  function NewestBootLeft(s: Sup): nat {
    if s.boots.now.None? then 0 else BootLeft(s.boots.now.value)
  }

  /** At most so many task steps can follow. */
  function Effort(s: Sup): nat {
    Unwinding(s.boots.past) + NewestBootLeft(s) + StopLeft(s) + RetryLeft(s) + ProcessLeft(s)
  }

  lemma EffortIsSmall(s: Sup)
    ensures Effort(s) <= 26 + Unwinding(s.boots.past)
  {
  }

  // Every task step takes some of it

  lemma UnwindingPush(past: seq<Boot>, boot: Boot)
    ensures Unwinding(past + [boot]) == Unwinding(past) + if boot.phase.BootEnded? then 0 else 1
  {
    assert (past + [boot])[..|past|] == past;
  }

  lemma {:induction false} UnwindingEnds(past: seq<Boot>, b: nat, boot: Boot)
    requires b < |past| && !past[b].phase.BootEnded? && boot.phase.BootEnded?
    ensures Unwinding(past[b := boot]) == Unwinding(past) - 1
  {
    var last := |past| - 1;
    if b < last {
      assert past[b := boot][..last] == past[..last][b := boot];
      UnwindingEnds(past[..last], b, boot);
    } else {
      assert past[b := boot][..last] == past[..last];
    }
  }

  lemma ClearingTakes(s: Sup, b: nat)
    requires Core(s) && TaskEnabled(s, BootRuns(b))
    requires s.boots.Get(b).phase.AwaitPrevious? || s.boots.Get(b).phase.Clearing?
    ensures Effort(BootRun(s, b)) < Effort(s)
  {
    BootIsNewest(s, b);
    TornWatcher(s);
  }

  lemma LaunchTakes(s: Sup, b: nat)
    requires Core(s) && TaskEnabled(s, BootRuns(b))
    requires s.boots.Get(b).phase.Preparing? || s.boots.Get(b).phase.Spawning?
    ensures Effort(BootRun(s, b)) < Effort(s)
  {
    BootIsNewest(s, b);
  }

  lemma BootingTakes(s: Sup, b: nat)
    requires Core(s) && TaskEnabled(s, BootRuns(b))
    requires s.boots.Get(b).phase.Connecting? || s.boots.Get(b).phase.Booting?
    ensures Effort(BootRun(s, b)) < Effort(s)
  {
    BootIsNewest(s, b);
  }

  lemma BootStopTakes(s: Sup, b: nat)
    requires Core(s) && TaskEnabled(s, BootFails(b, true)) && !s.boots.Get(b).phase.Spawning?
    ensures Effort(AtPhase(BeginStop(s, Some(b)), b, BootEnded)) < Effort(s)
  {
    BootIsNewest(s, b);
  }

  lemma BootEndTakes(s: Sup, b: nat)
    requires Core(s) && TaskEnabled(s, BootFails(b, true)) && !s.boots.Get(b).phase.Spawning?
    ensures Effort(AtPhase(s, b, BootEnded)) < Effort(s)
  {
    BootIsNewest(s, b);
  }

  lemma LaunchFailTakes(s: Sup, b: nat, internal: bool)
    requires Core(s) && TaskEnabled(s, BootFails(b, internal)) && s.boots.Get(b).phase.Spawning?
    ensures Effort(BootFail(s, b, internal)) < Effort(s)
  {
    BootIsNewest(s, b);
  }

  lemma BootFailTakes(s: Sup, b: nat, internal: bool)
    requires Core(s) && TaskEnabled(s, BootFails(b, internal))
    ensures Effort(BootFail(s, b, internal)) < Effort(s)
  {
    if s.boots.Get(b).phase.Spawning? {
      LaunchFailTakes(s, b, internal);
    } else {
      assert DropChild(s, s.boots.Get(b).phase) == s;
      BootStopTakes(s, b);
      BootEndTakes(s, b);
    }
  }

  lemma UnwindTakes(s: Sup, b: nat)
    requires Core(s) && TaskEnabled(s, BootUnwinds(b))
    ensures Effort(RunTask(s, BootUnwinds(b))) < Effort(s)
  {
    if b < |s.boots.past| {
      UnwindingEnds(s.boots.past, b, s.boots.past[b].(phase := BootEnded));
    }
  }

  lemma StopWaitTakes(s: Sup, t: nat)
    requires Core(s) && TaskEnabled(s, StopRuns(t)) && s.stops.Get(t).phase.AwaitBoot?
    ensures Effort(StopRun(s, t)) < Effort(s)
  {
    StopIsNewest(s, t);
  }

  lemma TeardownTakes(s: Sup, t: nat)
    requires Core(s) && TaskEnabled(s, StopRuns(t)) && s.stops.Get(t).phase.Tearing? && !s.stops.Get(t).phase.tear.StopXvnc?
    ensures Effort(StopRun(s, t)) < Effort(s)
  {
    StopIsNewest(s, t);
    TornWatcher(s);
  }

  lemma StopEndTakes(s: Sup, t: nat)
    requires Core(s) && TaskEnabled(s, StopRuns(t)) && s.stops.Get(t).phase == Tearing(StopXvnc)
    ensures Effort(StopRun(s, t)) < Effort(s)
  {
    StopIsNewest(s, t);
  }

  lemma StopTakes(s: Sup, t: nat)
    requires Core(s) && TaskEnabled(s, StopRuns(t))
    ensures Effort(StopRun(s, t)) < Effort(s)
  {
    if s.stops.Get(t).phase.AwaitBoot? {
      StopWaitTakes(s, t);
    } else if s.stops.Get(t).phase == Tearing(StopXvnc) {
      StopEndTakes(s, t);
    } else {
      TeardownTakes(s, t);
    }
  }

  lemma RetryTakes(s: Sup, e: nat)
    requires Core(s) && Active(s) && s.emu == Some(e) && s.qemus.Has(e) && s.qemus.Get(e).watch.Waiting? && !s.retried
    ensures Effort(Watched(Retry(s), e, Retries)) < Effort(s)
  {
    var previous := CancelBoot(s, None).boots.now.value;
    UnwindingPush(s.boots.past, previous);
  }

  lemma WatchStopTakes(s: Sup, e: nat, late: bool)
    requires Core(s) && Active(s) && s.qemus.Has(e) && s.qemus.Get(e).watch.Waiting?
    ensures Effort(Watched(BeginStop(s.(retried := s.retried || late), None), e, Stops)) < Effort(s)
  {
  }

  lemma WatchTakes(s: Sup, e: nat, exit: Exit)
    requires Core(s) && TaskEnabled(s, WatchRuns(e, exit))
    ensures Effort(WatchRun(s, e, exit)) < Effort(s)
  {
    if s.emu == Some(e) && Active(s) {
      WatchDecides(s, e, exit);
      if MayRetry(s, exit) {
        RetryTakes(s, e);
      } else {
        WatchStopTakes(s, e, exit.Fault? && exit.late);
      }
    }
  }

  lemma ExitTakes(s: Sup, e: nat)
    requires Core(s) && TaskEnabled(s, QemuExits(e))
    ensures Effort(Killed(s, e)) < Effort(s)
  {
  }

  /** No task runs for nothing. */
  lemma EveryTaskStepTakes(s: Sup, step: Step)
    requires Core(s) && TaskEnabled(s, step)
    ensures Effort(RunTask(s, step)) < Effort(s)
  {
    match step
    case BootRuns(b) =>
      var phase := s.boots.Get(b).phase;
      if phase.AwaitPrevious? || phase.Clearing? {
        ClearingTakes(s, b);
      } else if phase.Preparing? || phase.Spawning? {
        LaunchTakes(s, b);
      } else {
        BootingTakes(s, b);
      }
    case BootFails(b, internal) => BootFailTakes(s, b, internal);
    case BootUnwinds(b) => UnwindTakes(s, b);
    case StopRuns(t) => StopTakes(s, t);
    case WatchRuns(e, exit) => WatchTakes(s, e, exit);
    case QemuExits(e) => ExitTakes(s, e);
  }

  // Every schedule

  predicate OnlyTasks(steps: seq<Step>) {
    forall i :: 0 <= i < |steps| ==> IsTask(steps[i])
  }

  lemma {:induction false} ScheduleIsBounded(d: Daemon, steps: seq<Step>, r: Daemon)
    requires Inv(d) && Run(d, steps, r) && OnlyTasks(steps)
    ensures |steps| + Effort(r.sup) <= Effort(d.sup)
    decreases |steps|
  {
    if steps != [] {
      assert forall i :: 0 <= i < |steps[1..]| ==> steps[1..][i] == steps[i + 1];
      EveryTaskStepTakes(d.sup, steps[0]);
      ApplyInv(d, steps[0]);
      ScheduleIsBounded(Apply(d, steps[0]), steps[1..], r);
    }
  }

  ghost predicate CanGoOn(s: Sup) {
    exists step :: IsTask(step) && TaskEnabled(s, step)
  }

  lemma WaitersCanGoOn(s: Sup, f: nat)
    requires Core(s) && IsPending(s, f)
    ensures CanGoOn(s)
  {
    if s.state == Running || s.state == Stopped {
      QuietIsAnswered(s, f);
    } else {
      NextStepEnabled(s);
    }
  }

  /** Whatever the tasks find and in whatever order they run: while somebody waits for an answer some task can
      run, and no schedule has more than 26 steps and one for each older boot that still unwinds. So every
      schedule that goes on while it can answers everybody within that bound. */
  lemma EveryScheduleAnswers(d: Daemon, steps: seq<Step>, r: Daemon)
    requires Inv(d) && Run(d, steps, r) && OnlyTasks(steps)
    ensures |steps| <= Effort(d.sup) <= 26 + Unwinding(d.sup.boots.past)
    ensures forall f :: IsPending(r.sup, f) ==> CanGoOn(r.sup)
    ensures |steps| == Effort(d.sup) ==> forall f :: !IsPending(r.sup, f)
  {
    ScheduleIsBounded(d, steps, r);
    EffortIsSmall(d.sup);
    RunInv(d, steps, r);
    forall f | IsPending(r.sup, f) ensures CanGoOn(r.sup) && |steps| < Effort(d.sup) {
      WaitersCanGoOn(r.sup, f);
      var step :| IsTask(step) && TaskEnabled(r.sup, step);
      EveryTaskStepTakes(r.sup, step);
    }
  }
}
