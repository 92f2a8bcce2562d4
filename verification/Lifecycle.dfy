/** What every run of the supervisor keeps: nobody who waits is lost or answered twice, a stop
    wins, one emulator lives at a time, crashes never loop. */
module Lifecycle {
  import opened Wrappers
  import opened Machine

  /** `steps` can happen one after another from `d` and lead to `r`. */
  ghost predicate Run(d: Daemon, steps: seq<Step>, r: Daemon)
    requires Inv(d)
    decreases |steps|
  {
    if steps == [] then r == d
    else Enabled(d, steps[0]) && (ApplyInv(d, steps[0]); Run(Apply(d, steps[0]), steps[1..], r))
  }

  lemma {:induction false} RunInv(d: Daemon, steps: seq<Step>, r: Daemon)
    requires Inv(d) && Run(d, steps, r)
    ensures Inv(r)
    decreases |steps|
  {
    if steps != [] {
      ApplyInv(d, steps[0]);
      RunInv(Apply(d, steps[0]), steps[1..], r);
    }
  }

  lemma InitialInv()
    ensures Inv(INITIAL)
  {
  }

  // The waiters

  /** A task that will run is bound to answer future `f`: the boot itself, the watcher of an
      emulator that died under it, or the stop that took over. */
  ghost predicate InGoodHands(s: Sup, f: nat) {
    || (s.state == Starting && exists b :: 0 <= b < s.boots.Size() && Boots(s, b))
    || (s.state == Starting && exists e :: 0 <= e < s.qemus.Size() && Decides(s, e))
    || (s.state == Stopping && exists t :: 0 <= t < s.stops.Size() && Owns(s, t, f))
  }

  predicate Boots(s: Sup, b: nat) {
    s.boots.Has(b) && !s.boots.Get(b).cancelled && !s.boots.Get(b).phase.BootEnded?
  }

  predicate Decides(s: Sup, e: nat) {
    s.qemus.Has(e) && s.emu == Some(e) && s.qemus.Get(e) == Qemu(false, Waiting)
  }

  predicate Owns(s: Sup, t: nat, f: nat) {
    s.stops.Has(t) && !s.stops.Get(t).phase.StopEnded? && s.stops.Get(t).done == Some(f)
  }

  /** No waiter is lost: whoever waits for an answer that is not there waits for the one open
      future, and somebody is responsible for it. */
  lemma NobodyIsLost(d: Daemon, steps: seq<Step>, r: Daemon, k: nat)
    requires Inv(d) && Run(d, steps, r) && k < |r.callers| && r.callers[k].phase.AwaitAnswer?
    requires !Enabled(r, Resume(k))
    ensures var f := r.callers[k].phase.answer;
            IsPending(r.sup, f) && Some(f) == r.sup.answers.Newest() && InGoodHands(r.sup, f)
  {
    RunInv(d, steps, r);
    var f := r.callers[k].phase.answer;
    assert CallerInv(r.sup, r.callers[k]);
    PendingIsHeld(r.sup, f);
  }

  lemma PendingIsHeld(s: Sup, f: nat)
    requires Core(s) && IsPending(s, f)
    ensures Some(f) == s.answers.Newest() && InGoodHands(s, f)
  {
    if s.state == Starting {
      var b := |s.boots.past|;
      if !s.boots.now.value.phase.BootEnded? {
        assert Boots(s, b);
      } else {
        assert Decides(s, |s.qemus.past|);
      }
    } else {
      assert s.state == Stopping;
      assert Owns(s, |s.stops.past|, f);
    }
  }

  /** What the state says about the newest future, after any run. */
  lemma StateTellsTheAnswer(d: Daemon, steps: seq<Step>, r: Daemon)
    requires Inv(d) && Run(d, steps, r)
    ensures r.sup.state == Starting ==> r.sup.answers.now == Some(Pending) && InGoodHands(r.sup, |r.sup.answers.past|)
    ensures r.sup.state == Running ==> r.sup.answers.now == Some(Succeeded)
    ensures r.sup.state == Stopped ==> r.sup.answers.now != Some(Pending)
    ensures r.sup.state == Stopping ==> Owns(r.sup, |r.sup.stops.past|, |r.sup.answers.past|)
  {
    RunInv(d, steps, r);
    if r.sup.state == Starting {
      PendingIsHeld(r.sup, |r.sup.answers.past|);
    }
  }

  /** After any run: the counter of leases counts the callers whose lease is open, and each job has its
      one task exactly while Android runs. */
  lemma LeasesAndJobsAreCounted(d: Daemon, steps: seq<Step>, r: Daemon)
    requires Inv(d) && Run(d, steps, r)
    ensures r.leases == OpenLeases(r.callers)
    ensures r.sup.jobTasks == if r.sup.state == Running then r.sup.jobs else []
  {
    RunInv(d, steps, r);
  }

  // Single steps

  predicate Moves(a: State, b: State) {
    match a
    case Stopped => b == Stopped || b == Starting
    case Starting => b != Stopped
    case Running => b != Stopped
    case Stopping => b == Stopping || b == Stopped
  }

  /** A new future is made only when none is open; the open one is settled with success only when
      Android begins to run, and with failure only when it has stopped. */
  predicate AnswersMove(s: Sup, r: Sup) {
    || r.answers == s.answers
    || (r.answers == s.answers.Push(Pending) && s.answers.now != Some(Pending)
        && r.state == Starting && (s.state == Stopped || s.state == Running))
    || (s.answers.now == Some(Pending) && r.answers == s.answers.(now := Some(Succeeded)) && s.state == Starting && r.state == Running)
    || (s.answers.now == Some(Pending) && r.answers == s.answers.(now := Some(Failed)) && s.state == Stopping && r.state == Stopped)
  }

  /** A process is launched only while none is held or alive; one that is gone stays gone, and an
      exit that was decided stays decided. */
  ghost predicate QemusMove(s: Sup, r: Sup) {
    || r.qemus == s.qemus
    || (r.qemus == s.qemus.Push(Qemu(true, Unwatched)) && s.state == Starting && s.emu.None? && NoneAlive(s))
    || (exists e :: QemuMoves(s, r, e))
  }

  predicate QemuMoves(s: Sup, r: Sup, e: nat) {
    && s.qemus.Has(e) && r.qemus.Has(e) && r.qemus == s.qemus.Put(e, r.qemus.Get(e))
    && (r.qemus.Get(e).live ==> s.qemus.Get(e).live)
    && (r.qemus.Get(e).watch == s.qemus.Get(e).watch
        || (s.qemus.Get(e).watch.Unwatched? && r.qemus.Get(e).watch.Waiting?)
        || (s.qemus.Get(e).watch.Waiting? && !r.qemus.Get(e).watch.Unwatched?))
  }

  ghost predicate NoneAlive(s: Sup) {
    forall e :: 0 <= e < s.qemus.Size() ==> !Alive(s, e)
  }

  predicate Alive(s: Sup, e: nat) {
    s.qemus.Has(e) && s.qemus.Get(e).live
  }

  ghost predicate Lawful(s: Sup, r: Sup) {
    && Moves(s.state, r.state) && AnswersMove(s, r) && QemusMove(s, r)
    && (s.closing ==> r.closing)
  }

  lemma BeginStopLawful(s: Sup, current: Option<nat>)
    requires Core(s) && Active(s)
    ensures Lawful(s, BeginStop(s, current))
  {
  }

  lemma BootRunLawful(s: Sup, b: nat)
    requires Core(s) && TaskEnabled(s, BootRuns(b))
    ensures Lawful(s, BootRun(s, b))
  {
    BootIsNewest(s, b);
    var r := BootRun(s, b);
    match s.boots.Get(b).phase {
      case Clearing(StopEmulator) =>
        TornWatcher(s);
        assert r.qemus == s.qemus;
      case Spawning(e) => assert QemuMoves(s, r, e);
      case _ =>
    }
  }

  lemma BootFailLawful(s: Sup, b: nat, internal: bool)
    requires Core(s) && TaskEnabled(s, BootFails(b, internal))
    ensures Lawful(s, BootFail(s, b, internal))
  {
    BootIsNewest(s, b);
    var r := BootFail(s, b, internal);
    if s.boots.Get(b).phase.Spawning? {
      assert QemuMoves(s, r, s.boots.Get(b).phase.child);
    }
  }

  lemma UnwindLawful(s: Sup, b: nat)
    requires Core(s) && TaskEnabled(s, BootUnwinds(b))
    ensures Lawful(s, RunTask(s, BootUnwinds(b)))
  {
    var r := RunTask(s, BootUnwinds(b));
    if s.boots.Get(b).phase.Spawning? {
      assert QemuMoves(s, r, s.boots.Get(b).phase.child);
    }
  }

  lemma TeardownLawful(s: Sup, t: nat, tear: Tear)
    requires Core(s) && TaskEnabled(s, StopRuns(t)) && s.stops.Get(t).phase == Tearing(tear)
    ensures Lawful(s, StopRun(s, t))
  {
    StopIsNewest(s, t);
    TornWatcher(s);
    var r := StopRun(s, t);
    assert r.qemus == s.qemus || QemuMoves(s, r, |s.qemus.past|);
  }

  lemma StopRunLawful(s: Sup, t: nat)
    requires Core(s) && TaskEnabled(s, StopRuns(t))
    ensures Lawful(s, StopRun(s, t))
  {
    if s.stops.Get(t).phase.Tearing? {
      TeardownLawful(s, t, s.stops.Get(t).phase.tear);
    }
  }

  lemma WatchRunLawful(s: Sup, e: nat, exit: Exit)
    requires Core(s) && TaskEnabled(s, WatchRuns(e, exit))
    ensures Lawful(s, WatchRun(s, e, exit))
  {
    if s.emu == Some(e) && Active(s) {
      WatchDecides(s, e, exit);
    }
    assert QemuMoves(s, WatchRun(s, e, exit), e);
  }

  lemma StopRequestLawful(s: Sup)
    requires Core(s)
    ensures Lawful(s, StopRequest(s))
  {
  }

  lemma StartsLawful(d: Daemon, step: Step)
    requires Inv(d) && Enabled(d, step) && (step.Start? || step.Lease? || step.Wait? || step.Resume?)
    ensures Lawful(d.sup, Apply(d, step).sup)
  {
  }

  lemma RestartLawful(d: Daemon, wait: bool)
    requires Inv(d) && Enabled(d, Restart(wait))
    ensures Lawful(d.sup, Apply(d, Restart(wait)).sup)
  {
    StopRequestLawful(d.sup);
  }

  lemma RequestLawful(d: Daemon, step: Step)
    requires Inv(d) && Enabled(d, step) && !IsTask(step)
    ensures Lawful(d.sup, Apply(d, step).sup)
  {
    if step.Start? || step.Lease? || step.Wait? || step.Resume? {
      StartsLawful(d, step);
    } else if step.Restart? {
      RestartLawful(d, step.wait);
    } else {
      StopRequestLawful(d.sup);
    }
  }

  lemma TaskLawful(s: Sup, step: Step)
    requires Core(s) && TaskEnabled(s, step)
    ensures Lawful(s, RunTask(s, step))
  {
    match step
    case BootRuns(b) => BootRunLawful(s, b);
    case BootFails(b, internal) => BootFailLawful(s, b, internal);
    case BootUnwinds(b) => UnwindLawful(s, b);
    case StopRuns(t) => StopRunLawful(s, t);
    case WatchRuns(e, exit) => WatchRunLawful(s, e, exit);
    case QemuExits(e) => assert QemuMoves(s, Killed(s, e), e);
  }

  /** Every step is lawful. */
  lemma StepLawful(d: Daemon, step: Step)
    requires Inv(d) && Enabled(d, step)
    ensures Lawful(d.sup, Apply(d, step).sup)
  {
    if IsTask(step) {
      TaskLawful(d.sup, step);
    } else {
      RequestLawful(d, step);
    }
  }

  // Whole runs

  lemma {:induction false} AnswersNeverChange(d: Daemon, steps: seq<Step>, r: Daemon, f: nat)
    requires Inv(d) && Run(d, steps, r) && d.sup.answers.Has(f) && !d.sup.answers.Get(f).Pending?
    ensures r.sup.answers.Has(f) && r.sup.answers.Get(f) == d.sup.answers.Get(f)
    decreases |steps|
  {
    if steps != [] {
      StepLawful(d, steps[0]);
      ApplyInv(d, steps[0]);
      AnswersNeverChange(Apply(d, steps[0]), steps[1..], r, f);
    }
  }

  predicate Decided(s: Sup, e: nat) {
    s.qemus.Has(e) && !s.qemus.Get(e).live && !s.qemus.Get(e).watch.Waiting? && !s.qemus.Get(e).watch.Unwatched?
  }

  lemma DecisionStays(s: Sup, r: Sup, e: nat)
    requires QemusMove(s, r) && Decided(s, e)
    ensures r.qemus.Has(e) && r.qemus.Get(e) == s.qemus.Get(e)
  {
  }

  lemma {:induction false} DecisionsNeverChange(d: Daemon, steps: seq<Step>, r: Daemon, e: nat)
    requires Inv(d) && Run(d, steps, r) && Decided(d.sup, e)
    ensures r.sup.qemus.Has(e) && r.sup.qemus.Get(e) == d.sup.qemus.Get(e)
    decreases |steps|
  {
    if steps != [] {
      StepLawful(d, steps[0]);
      ApplyInv(d, steps[0]);
      DecisionStays(d.sup, Apply(d, steps[0]).sup, e);
      DecisionsNeverChange(Apply(d, steps[0]), steps[1..], r, e);
    }
  }

  /** After a shutdown Android never starts again. */
  lemma {:induction false} ShutdownIsForever(d: Daemon, steps: seq<Step>, r: Daemon)
    requires Inv(d) && Run(d, steps, r) && d.sup.closing && d.sup.state == Stopped
    ensures r.sup.closing && r.sup.state == Stopped
    decreases |steps|
  {
    if steps != [] {
      ClosedStays(d, steps[0]);
      ApplyInv(d, steps[0]);
      ShutdownIsForever(Apply(d, steps[0]), steps[1..], r);
    }
  }

  lemma ClosedStays(d: Daemon, step: Step)
    requires Inv(d) && Enabled(d, step) && d.sup.closing && d.sup.state == Stopped
    ensures Apply(d, step).sup.closing && Apply(d, step).sup.state == Stopped
  {
    ApplyInv(d, step);
    StepLawful(d, step);
  }

  ghost predicate Visits(d: Daemon, steps: seq<Step>, state: State)
    requires Inv(d)
    decreases |steps|
  {
    || d.sup.state == state
    || (steps != [] && Enabled(d, steps[0]) && (ApplyInv(d, steps[0]); Visits(Apply(d, steps[0]), steps[1..], state)))
  }

  /** A stop wins over whatever boot, retry or crash was in flight: a run that leaves it has
      stopped Android first. */
  lemma {:induction false} StopWins(d: Daemon, steps: seq<Step>, r: Daemon)
    requires Inv(d) && Run(d, steps, r) && d.sup.state == Stopping
    ensures r.sup.state == Stopping || Visits(d, steps, Stopped)
    decreases |steps|
  {
    if steps != [] {
      StepLawful(d, steps[0]);
      ApplyInv(d, steps[0]);
      if Apply(d, steps[0]).sup.state == Stopping {
        StopWins(Apply(d, steps[0]), steps[1..], r);
      }
    }
  }

  /** At most one emulator lives, at most one boot can still act, and crashes never loop: the
      launches are at most twice the starts. */
  lemma OneAtATime(d: Daemon, steps: seq<Step>, r: Daemon)
    requires Inv(d) && Run(d, steps, r)
    ensures forall e, f :: Alive(r.sup, e) && Alive(r.sup, f) ==> e == f
    ensures forall b, c :: Boots(r.sup, b) && Boots(r.sup, c) ==> b == c
    ensures r.sup.qemus.Size() <= 2 * r.sup.begins
  {
    RunInv(d, steps, r);
  }

  /** During a start or a run, an emulator that exited is either still to be decided by its own
      watcher, or was decided to be retried and the next boot is clearing it away. */
  lemma NoExitIsOverlooked(s: Sup, e: nat)
    requires Core(s) && Active(s) && s.emu == Some(e) && s.qemus.Has(e) && !s.qemus.Get(e).live
    ensures (forall exit :: TaskEnabled(s, WatchRuns(e, exit))) || (s.state == Starting && MayLaunch(s))
  {
    assert e == |s.qemus.past|;
  }

  /** A crash that is retried during a start keeps the future that the callers wait for. */
  lemma RetryKeepsWaiters(s: Sup, e: nat, exit: Exit)
    requires Core(s) && TaskEnabled(s, WatchRuns(e, exit)) && s.state == Starting && !s.retried && s.emu == Some(e)
    requires exit.Crash? && !exit.fatalLine
    ensures var r := WatchRun(s, e, exit);
            r.state == Starting && r.answers == s.answers && r.boots.Size() == s.boots.Size() + 1 && r.retried
  {
  }

  // Leases

  lemma {:induction false} NoOpenLease(callers: seq<Caller>)
    ensures OpenLeases(callers) == 0 <==> forall k :: 0 <= k < |callers| ==> !(callers[k].lease && !callers[k].phase.Left?)
  {
    if callers != [] {
      var init := callers[..|callers| - 1];
      NoOpenLease(init);
      assert forall k :: 0 <= k < |init| ==> init[k] == callers[k];
    }
  }

  /** The idle stop fires exactly when Android runs, is idle, and no lease is open. */
  lemma IdleStop(d: Daemon, expired: bool)
    requires Inv(d)
    ensures Apply(d, IdleCheck(true, expired)) != d <==>
            expired && d.sup.state == Running && forall k :: 0 <= k < |d.callers| ==> !(d.callers[k].lease && !d.callers[k].phase.Left?)
  {
    NoOpenLease(d.callers);
    assert d.sup.state == Running ==> BeginStop(d.sup, None).state == Stopping;
  }

  // Progress

  /** The number of task steps after which every waiter has an answer at the latest. */
  function Work(s: Sup): nat
    requires Core(s)
  {
    match s.state
    case Stopped => 0
    case Running => 0
    case Stopping => StopWork(s)
    case Starting =>
      match s.boots.now.value.phase
      case AwaitPrevious(p) => if s.boots.past[p].phase.BootEnded? then 19 else 20
      case Clearing(StopEmulator) => 18
      case Clearing(CloseGrpc) => 17
      case Clearing(StopXvnc) => 16
      case Preparing => 15
      case Spawning(_) => 14
      case Connecting => 13
      case Booting => 12
      case BootEnded => 11
  }

  function StopWork(s: Sup): nat
    requires Core(s) && s.state == Stopping
  {
    var phase := s.stops.now.value.phase;
    if phase.AwaitBoot? then if s.boots.now.value.phase.BootEnded? then 5 else 6
    else if phase == Tearing(StopEmulator) then if s.emu.Some? && s.qemus.now.value.live then 4 else 3
    else if phase == Tearing(CloseGrpc) then 2
    else 1
  }

  /** A task step that brings the waiters closer to their answer. */
  function NextStep(s: Sup): Step
    requires Core(s) && (s.state == Starting || s.state == Stopping)
  {
    if s.state == Starting then
      match s.boots.now.value.phase
      case AwaitPrevious(p) => if s.boots.past[p].phase.BootEnded? then BootRuns(|s.boots.past|) else BootUnwinds(p)
      case BootEnded => WatchRuns(|s.qemus.past|, PowerOff)
      case _ => BootRuns(|s.boots.past|)
    else
      match s.stops.now.value.phase
      case AwaitBoot => if s.boots.now.value.phase.BootEnded? then StopRuns(|s.stops.past|) else BootUnwinds(|s.boots.past|)
      case Tearing(StopEmulator) => if s.emu.Some? && s.qemus.now.value.live then QemuExits(|s.qemus.past|) else StopRuns(|s.stops.past|)
      case _ => StopRuns(|s.stops.past|)
  }

  lemma QuietIsAnswered(s: Sup, f: nat)
    requires Core(s) && (s.state == Stopped || s.state == Running)
    ensures !IsPending(s, f)
  {
  }

  lemma NextStepEnabled(s: Sup)
    requires Core(s) && (s.state == Starting || s.state == Stopping)
    ensures IsTask(NextStep(s)) && TaskEnabled(s, NextStep(s))
  {
  }

  lemma ClearingProgress(s: Sup)
    requires Core(s) && s.state == Starting && TaskEnabled(s, NextStep(s)) && Core(RunTask(s, NextStep(s)))
    requires s.boots.now.value.phase.Clearing?
    ensures Work(RunTask(s, NextStep(s))) < Work(s)
  {
    TornWatcher(s);
  }

  lemma WatchProgress(s: Sup)
    requires Core(s) && s.state == Starting && TaskEnabled(s, NextStep(s)) && Core(RunTask(s, NextStep(s)))
    requires s.boots.now.value.phase.BootEnded?
    ensures Work(RunTask(s, NextStep(s))) < Work(s)
  {
  }

  lemma LaunchProgress(s: Sup)
    requires Core(s) && s.state == Starting && TaskEnabled(s, NextStep(s)) && Core(RunTask(s, NextStep(s)))
    requires !s.boots.now.value.phase.BootEnded? && !s.boots.now.value.phase.Clearing?
    ensures Work(RunTask(s, NextStep(s))) < Work(s)
  {
  }

  lemma BootProgress(s: Sup)
    requires Core(s) && s.state == Starting && TaskEnabled(s, NextStep(s)) && Core(RunTask(s, NextStep(s)))
    ensures Work(RunTask(s, NextStep(s))) < Work(s)
  {
    if s.boots.now.value.phase.Clearing? {
      ClearingProgress(s);
    } else if s.boots.now.value.phase.BootEnded? {
      WatchProgress(s);
    } else {
      LaunchProgress(s);
    }
  }

  lemma StopWaitProgress(s: Sup)
    requires Core(s) && s.state == Stopping && TaskEnabled(s, NextStep(s)) && Core(RunTask(s, NextStep(s)))
    requires s.stops.now.value.phase.AwaitBoot?
    ensures Work(RunTask(s, NextStep(s))) < Work(s)
  {
  }

  lemma KillProgress(s: Sup)
    requires Core(s) && s.state == Stopping && TaskEnabled(s, NextStep(s)) && Core(RunTask(s, NextStep(s)))
    requires s.stops.now.value.phase == Tearing(StopEmulator)
    ensures Work(RunTask(s, NextStep(s))) < Work(s)
  {
    TornWatcher(s);
  }

  lemma CloseProgress(s: Sup)
    requires Core(s) && s.state == Stopping && TaskEnabled(s, NextStep(s)) && Core(RunTask(s, NextStep(s)))
    requires s.stops.now.value.phase.Tearing? && !s.stops.now.value.phase.tear.StopEmulator?
    ensures Work(RunTask(s, NextStep(s))) < Work(s)
  {
  }

  lemma TeardownProgress(s: Sup)
    requires Core(s) && s.state == Stopping && TaskEnabled(s, NextStep(s)) && Core(RunTask(s, NextStep(s)))
    requires s.stops.now.value.phase.Tearing?
    ensures Work(RunTask(s, NextStep(s))) < Work(s)
  {
    if s.stops.now.value.phase.tear.StopEmulator? {
      KillProgress(s);
    } else {
      CloseProgress(s);
    }
  }

  lemma NextStepWorks(s: Sup)
    requires Core(s) && (s.state == Starting || s.state == Stopping)
    ensures IsTask(NextStep(s)) && TaskEnabled(s, NextStep(s))
    ensures Core(RunTask(s, NextStep(s))) && Work(RunTask(s, NextStep(s))) < Work(s)
  {
    NextStepEnabled(s);
    RunTaskCore(s, NextStep(s));
    if s.state == Starting {
      BootProgress(s);
    } else if s.stops.now.value.phase.AwaitBoot? {
      StopWaitProgress(s);
    } else {
      TeardownProgress(s);
    }
  }

  lemma WorkIsSmall(s: Sup)
    requires Core(s)
    ensures Work(s) <= 20
  {
  }

  lemma ThenRun(d: Daemon, step: Step, rest: seq<Step>, r: Daemon)
    requires Inv(d) && Enabled(d, step) && Inv(Apply(d, step)) && Run(Apply(d, step), rest, r)
    ensures Run(d, [step] + rest, r)
  {
    assert ([step] + rest)[1..] == rest;
  }

  /** No run ends in a dead end: from every state the tasks alone, without another request, can
      bring every waiter an answer. */
  lemma {:induction false} EveryWaiterCanBeAnswered(d: Daemon) returns (steps: seq<Step>, r: Daemon)
    requires Inv(d)
    ensures Run(d, steps, r) && (forall i :: 0 <= i < |steps| ==> IsTask(steps[i]))
    ensures forall f :: !IsPending(r.sup, f)
    ensures |steps| <= Work(d.sup) <= 20
    decreases Work(d.sup)
  {
    WorkIsSmall(d.sup);
    if d.sup.state == Starting || d.sup.state == Stopping {
      var step := NextStep(d.sup);
      NextStepWorks(d.sup);
      ApplyInv(d, step);
      var rest;
      rest, r := EveryWaiterCanBeAnswered(Apply(d, step));
      steps := [step] + rest;
      ThenRun(d, step, rest, r);
    } else {
      steps, r := [], d;
      forall f ensures !IsPending(d.sup, f) {
        QuietIsAnswered(d.sup, f);
      }
    }
  }
}
