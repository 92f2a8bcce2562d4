/** What the supervisor does for those who call it, and what it tells them. */
module Callers {
  import opened Wrappers
  import opened Machine
  import opened Lifecycle

  // What a caller may be told

  predicate AnsweredWith(s: Sup, c: Caller, answer: Answer) {
    c.phase.AwaitAnswer? && s.answers.Has(c.phase.answer) && s.answers.Get(c.phase.answer) == answer
  }

  /** The caller as it comes in. */
  function NewCaller(step: Step): Caller
    requires Calls(step)
  {
    match step
    case Start(wait) => Caller(false, wait, Again)
    case Restart(wait) => Caller(false, wait, Again)
    case Wait => Caller(false, true, Again)
    case _ => Caller(true, true, Again)
  }

  predicate Calls(step: Step) {
    step.Start? || step.Restart? || step.Wait? || step.Lease?
  }

  /** Android runs for this call: a restart stops it first. */
  predicate RunsFor(s: Sup, step: Step) {
    s.state == Running && !step.Restart?
  }

  /** Success is told only when there is one: Android runs, or the awaited future succeeded; somebody who does
      not wait is told that the start goes on; a lease is a success at the end of its body. */
  predicate MaySucceed(s: Sup, r: Sup, c: Caller, step: Step) {
    || c.phase.Body?
    || (!c.lease && (RunsFor(s, step) || AnsweredWith(s, c, Succeeded)))
    || (!c.lease && !c.wait && !s.closing && r.state == Starting)
  }

  /** And failure only when there is one. */
  predicate MayFail(s: Sup, c: Caller, step: Step) {
    || step.GiveUp?
    || s.closing
    || AnsweredWith(s, c, Failed)
    || (step.Wait? && (s.state == Stopped || s.state == Stopping))
    || (c.lease && !s.grpc)
    || (step == Lease(false) && s.state != Running)
  }

  /** The phase `q` is one that caller `c` may get by `step`, which leads from `s` to `r`. */
  predicate Truthful(s: Sup, r: Sup, c: Caller, q: CallerPhase, step: Step) {
    match q
    case Left(ok) => if ok then MaySucceed(s, r, c, step) else MayFail(s, c, step)
    case Body => c.lease && s.grpc && (RunsFor(s, step) || AnsweredWith(s, c, Succeeded))
    case AwaitAnswer(f) => c.wait && r.state == Starting && r.answers.now == Some(Pending) && f == |r.answers.past|
    case AwaitStop(t) => c.wait && r.state == Stopping && Some(t) == r.stops.Newest()
    case Again => !c.wait && r.state == Stopping
  }

  lemma TurnIsTruthful(d: Daemon, k: nat, step: Step)
    requires Inv(d) && k < |d.callers| && !d.callers[k].phase.Left? && !d.callers[k].phase.Body?
    requires !d.callers[k].phase.AwaitAnswer? && (step.Restart? ==> d.sup.state != Running)
    ensures var r := TryStart(d, k);
            |r.callers| == |d.callers| && Truthful(d.sup, r.sup, d.callers[k], r.callers[k].phase, step)
  {
    assert CallerInv(d.sup, d.callers[k]);
  }

  lemma ResumeIsTruthful(d: Daemon, k: nat)
    requires Inv(d) && Enabled(d, Resume(k))
    ensures var r := Apply(d, Resume(k));
            |r.callers| == |d.callers| && Truthful(d.sup, r.sup, d.callers[k], r.callers[k].phase, Resume(k))
  {
    if !d.callers[k].phase.AwaitAnswer? {
      TurnIsTruthful(d, k, Resume(k));
    }
  }

  /** What a call is told at once. */
  lemma CallsAreTruthful(d: Daemon, step: Step)
    requires Inv(d) && Calls(step)
    ensures var r := Apply(d, step);
            && |r.callers| == |d.callers| + 1
            && Truthful(d.sup, r.sup, NewCaller(step), r.callers[|d.callers|].phase, step)
  {
    var k := |d.callers|;
    match step
    case Start(wait) =>
      EnterInv(d, false, wait);
      TurnIsTruthful(Enter(d, false, wait), k, step);
    case Restart(wait) =>
      StopRequestCore(d.sup);
      CallersFrame(d, StopRequest(d.sup));
      EnterInv(d.(sup := StopRequest(d.sup)), false, wait);
      TurnIsTruthful(Enter(d.(sup := StopRequest(d.sup)), false, wait), k, step);
    case Lease(wake) =>
      EnterInv(d, true, true);
      if wake {
        TurnIsTruthful(Enter(d, true, true), k, step);
      }
    case _ =>
  }

  lemma OwnStepsAreTruthful(d: Daemon, step: Step, k: nat)
    requires Inv(d) && Enabled(d, step) && (step == Resume(k) || step == GiveUp(k) || step == LeaseEnds(k))
    ensures var r := Apply(d, step);
            |r.callers| == |d.callers| && Truthful(d.sup, r.sup, d.callers[k], r.callers[k].phase, step)
  {
    if step.Resume? {
      ResumeIsTruthful(d, k);
    }
  }

  lemma TurnMovesOnlyOne(d: Daemon, k: nat)
    requires Inv(d) && k < |d.callers|
    ensures var r := TryStart(d, k);
            && |r.callers| == |d.callers|
            && r.callers[k].lease == d.callers[k].lease && r.callers[k].wait == d.callers[k].wait
            && forall j :: 0 <= j < |d.callers| && j != k ==> r.callers[j] == d.callers[j]
  {
  }

  lemma CallsMoveNobody(d: Daemon, step: Step, k: nat)
    requires Inv(d) && Calls(step) && k < |d.callers|
    ensures k < |Apply(d, step).callers| && Apply(d, step).callers[k] == d.callers[k]
  {
    var n := |d.callers|;
    match step
    case Start(wait) =>
      EnterInv(d, false, wait);
      TurnMovesOnlyOne(Enter(d, false, wait), n);
    case Restart(wait) =>
      StopRequestCore(d.sup);
      CallersFrame(d, StopRequest(d.sup));
      EnterInv(d.(sup := StopRequest(d.sup)), false, wait);
      TurnMovesOnlyOne(Enter(d.(sup := StopRequest(d.sup)), false, wait), n);
    case Lease(wake) =>
      EnterInv(d, true, true);
      if wake {
        TurnMovesOnlyOne(Enter(d, true, true), n);
      }
    case _ =>
  }

  lemma ResumeMovesOnlyOne(d: Daemon, k: nat)
    requires Inv(d) && Enabled(d, Resume(k))
    ensures var r := Apply(d, Resume(k));
            && |r.callers| == |d.callers|
            && r.callers[k].lease == d.callers[k].lease && r.callers[k].wait == d.callers[k].wait
            && forall j :: 0 <= j < |d.callers| && j != k ==> r.callers[j] == d.callers[j]
  {
    if !d.callers[k].phase.AwaitAnswer? {
      TurnMovesOnlyOne(d, k);
    }
  }

  lemma TasksMoveNobody(d: Daemon, step: Step)
    requires Inv(d) && Enabled(d, step) && IsTask(step)
    ensures Apply(d, step).callers == d.callers
  {
  }

  /** Only a caller's own steps move it. */
  lemma OthersLeaveACallerAlone(d: Daemon, step: Step, k: nat)
    requires Inv(d) && Enabled(d, step) && k < |d.callers|
    ensures var r := Apply(d, step);
            && k < |r.callers| && r.callers[k].lease == d.callers[k].lease && r.callers[k].wait == d.callers[k].wait
            && (step != Resume(k) && step != GiveUp(k) && step != LeaseEnds(k) ==> r.callers[k] == d.callers[k])
  {
    if Calls(step) {
      CallsMoveNobody(d, step, k);
    } else if step.Resume? {
      ResumeMovesOnlyOne(d, step.k);
    } else if IsTask(step) {
      TasksMoveNobody(d, step);
    }
  }

  /** After any step, whoever it moved was told the truth. */
  lemma EverybodyIsToldTheTruth(d: Daemon, step: Step, k: nat)
    requires Inv(d) && Enabled(d, step) && k < |Apply(d, step).callers|
    ensures var r := Apply(d, step);
            var q := r.callers[k].phase;
            if k < |d.callers| then q == d.callers[k].phase || Truthful(d.sup, r.sup, d.callers[k], q, step)
            else Calls(step) && Truthful(d.sup, r.sup, NewCaller(step), q, step)
  {
    if k < |d.callers| {
      OthersLeaveACallerAlone(d, step, k);
      if step == Resume(k) || step == GiveUp(k) || step == LeaseEnds(k) {
        OwnStepsAreTruthful(d, step, k);
      }
    } else if Calls(step) {
      CallsAreTruthful(d, step);
    } else if step.Resume? {
      ResumeMovesOnlyOne(d, step.k);
    } else if IsTask(step) {
      TasksMoveNobody(d, step);
    }
  }

  // Those who wait, over runs

  predicate GivesUp(steps: seq<Step>, k: nat) {
    steps != [] && (steps[0] == GiveUp(k) || GivesUp(steps[1..], k))
  }

  /** Where somebody who waited for future `f` may be. */
  predicate Told(s: Sup, c: Caller, f: nat, gaveUp: bool) {
    s.answers.Has(f) &&
    match c.phase
    case AwaitAnswer(g) => g == f
    case Body => c.lease && s.answers.Get(f).Succeeded?
    case Left(ok) =>
      if ok then s.answers.Get(f).Succeeded?
      else gaveUp || s.answers.Get(f).Failed? || (c.lease && s.answers.Get(f).Succeeded?)
    case _ => false
  }

  lemma SettledStays(s: Sup, r: Sup, f: nat)
    requires AnswersMove(s, r) && s.answers.Has(f)
    ensures r.answers.Has(f) && (s.answers.Get(f).Pending? || r.answers.Get(f) == s.answers.Get(f))
  {
  }

  lemma StepTells(d: Daemon, step: Step, k: nat, f: nat, gaveUp: bool)
    requires Inv(d) && Enabled(d, step) && k < |d.callers| && Told(d.sup, d.callers[k], f, gaveUp)
    ensures var r := Apply(d, step);
            k < |r.callers| && r.callers[k].lease == d.callers[k].lease
            && Told(r.sup, r.callers[k], f, gaveUp || step == GiveUp(k))
  {
    StepLawful(d, step);
    SettledStays(d.sup, Apply(d, step).sup, f);
    OthersLeaveACallerAlone(d, step, k);
  }

  lemma {:induction false} RunTells(d: Daemon, steps: seq<Step>, r: Daemon, k: nat, f: nat, gaveUp: bool)
    requires Inv(d) && Run(d, steps, r) && k < |d.callers| && Told(d.sup, d.callers[k], f, gaveUp)
    ensures k < |r.callers| && r.callers[k].lease == d.callers[k].lease
    ensures Told(r.sup, r.callers[k], f, gaveUp || GivesUp(steps, k))
    decreases |steps|
  {
    if steps != [] {
      StepTells(d, steps[0], k, f, gaveUp);
      ApplyInv(d, steps[0]);
      RunTells(Apply(d, steps[0]), steps[1..], r, k, f, gaveUp || steps[0] == GiveUp(k));
    }
  }

  /** Over any run, somebody who waits for a future learns its outcome: a start that does not give up leaves
      with exactly the answer of the future; nobody, start or lease, goes on with a future that failed. */
  lemma WaitersLearnTheOutcome(d: Daemon, steps: seq<Step>, r: Daemon, k: nat, f: nat)
    requires Inv(d) && Run(d, steps, r) && k < |d.callers| && d.callers[k].phase == AwaitAnswer(f)
    ensures k < |r.callers| && r.sup.answers.Has(f)
    ensures r.callers[k].phase != AwaitAnswer(f) && !d.callers[k].lease && !GivesUp(steps, k) ==>
              r.callers[k].phase == Left(r.sup.answers.Get(f).Succeeded?) && !r.sup.answers.Get(f).Pending?
    ensures r.sup.answers.Get(f).Failed? ==> r.callers[k].phase == AwaitAnswer(f) || r.callers[k].phase == Left(false)
    ensures r.callers[k].phase == Left(true) || r.callers[k].phase.Body? ==> r.sup.answers.Get(f).Succeeded?
  {
    assert CallerInv(d.sup, d.callers[k]);
    RunTells(d, steps, r, k, f, false);
  }

  // Leases

  /** A lease that waited for a start which succeeded enters its body exactly when the emulator can still be
      reached. */
  lemma LeaseEntersIffReachable(d: Daemon, k: nat)
    requires Inv(d) && Enabled(d, Resume(k)) && d.callers[k].lease && AnsweredWith(d.sup, d.callers[k], Succeeded)
    ensures Apply(d, Resume(k)).callers[k].phase == if d.sup.grpc then Body else Left(false)
  {
  }

  /** A daemon with one lease, whose first boot is at `phase`. */
  function OneBoot(state: State, answer: Answer, phase: BootPhase, qemus: Line<Qemu>, held: Option<nat>, grpc: bool,
                   stops: Line<StopTask>, caller: CallerPhase): Daemon {
    Daemon(Sup(state, Line([], Some(answer)), Line([], Some(Boot(phase, false))), stops, qemus, held, held, grpc,
               false, false, [], [], 1),
           1, [Caller(true, true, caller)])
  }

  /** Some run leads from here to a lease in its body while Android is stopping. */
  ghost predicate CanEnterLate(d: Daemon)
    requires Inv(d)
  {
    exists steps, r :: Run(d, steps, r) && EntersLate(r)
  }

  predicate EntersLate(r: Daemon) {
    r.sup.state == Stopping && |r.callers| == 1 && r.callers[0].lease && r.callers[0].phase == Body
  }

  lemma OneStepBefore(d: Daemon, step: Step)
    requires Inv(d) && Enabled(d, step) && Inv(Apply(d, step)) && CanEnterLate(Apply(d, step))
    ensures CanEnterLate(d)
  {
    var steps, r :| Run(Apply(d, step), steps, r) && EntersLate(r);
    assert ([step] + steps)[1..] == steps;
    assert Run(d, [step] + steps, r);
  }

  function Spawned(): Line<Qemu> {
    Line([], Some(Qemu(true, Unwatched)))
  }

  function Watching(): Line<Qemu> {
    Line([], Some(Qemu(true, Machine.Waiting)))
  }

  lemma ResumedLate(d: Daemon)
    requires Inv(d) && Enabled(d, Resume(0)) && d.sup.state == Stopping && d.sup.grpc && |d.callers| == 1
    requires d.callers[0].lease && AnsweredWith(d.sup, d.callers[0], Succeeded)
    ensures CanEnterLate(d)
  {
    var r := Apply(d, Resume(0));
    ApplyInv(d, Resume(0));
    LeaseEntersIffReachable(d, 0);
    OthersLeaveACallerAlone(d, Resume(0), 0);
    assert |r.callers| == 1 && r.sup == d.sup;
    assert Run(r, [], r) && EntersLate(r);
    OneStepBefore(d, Resume(0));
  }

  lemma StoppedBeforeItGoesOn(d: Daemon)
    requires Inv(d) && d == OneBoot(Running, Succeeded, BootEnded, Watching(), Some(0), true, Empty(), AwaitAnswer(0))
    ensures CanEnterLate(d)
  {
    var r := Apply(d, Stop);
    ApplyInv(d, Stop);
    assert r.sup.state == Stopping && r.sup.answers == d.sup.answers && r.sup.grpc && r.callers == d.callers;
    ResumedLate(r);
    OneStepBefore(d, Stop);
  }

  lemma BecomesReady(d: Daemon)
    requires Inv(d) && d == OneBoot(Starting, Pending, Booting, Watching(), Some(0), true, Empty(), AwaitAnswer(0))
    ensures CanEnterLate(d)
  {
    var r := Apply(d, BootRuns(0));
    ApplyInv(d, BootRuns(0));
    assert r == OneBoot(Running, Succeeded, BootEnded, Watching(), Some(0), true, Empty(), AwaitAnswer(0));
    StoppedBeforeItGoesOn(r);
    OneStepBefore(d, BootRuns(0));
  }

  lemma Connects(d: Daemon)
    requires Inv(d) && d == OneBoot(Starting, Pending, Connecting, Watching(), Some(0), false, Empty(), AwaitAnswer(0))
    ensures CanEnterLate(d)
  {
    var r := Apply(d, BootRuns(0));
    ApplyInv(d, BootRuns(0));
    assert r == OneBoot(Starting, Pending, Booting, Watching(), Some(0), true, Empty(), AwaitAnswer(0));
    BecomesReady(r);
    OneStepBefore(d, BootRuns(0));
  }

  lemma Launches(d: Daemon)
    requires Inv(d)
    requires d == OneBoot(Starting, Pending, Spawning(0), Spawned(), None, false, Empty(), AwaitAnswer(0))
    ensures CanEnterLate(d)
  {
    var r := Apply(d, BootRuns(0));
    ApplyInv(d, BootRuns(0));
    assert r == OneBoot(Starting, Pending, Connecting, Watching(), Some(0), false, Empty(), AwaitAnswer(0));
    Connects(r);
    OneStepBefore(d, BootRuns(0));
  }

  lemma Prepares(d: Daemon)
    requires Inv(d) && d == OneBoot(Starting, Pending, Preparing, Empty(), None, false, Empty(), AwaitAnswer(0))
    ensures CanEnterLate(d)
  {
    var r := Apply(d, BootRuns(0));
    ApplyInv(d, BootRuns(0));
    assert r == OneBoot(Starting, Pending, Spawning(0), Spawned(), None, false, Empty(), AwaitAnswer(0));
    Launches(r);
    OneStepBefore(d, BootRuns(0));
  }

  /** So a lease can enter its body although Android is stopping already. */
  lemma LeaseEntersWhileStopping()
    ensures Inv(INITIAL) && CanEnterLate(INITIAL)
  {
    InitialInv();
    var r := Apply(INITIAL, Lease(true));
    ApplyInv(INITIAL, Lease(true));
    assert r == OneBoot(Starting, Pending, Preparing, Empty(), None, false, Empty(), AwaitAnswer(0));
    Prepares(r);
    OneStepBefore(INITIAL, Lease(true));
  }

  /** In a run, the emulator can be reached whenever Android runs, and not once it has stopped. */
  predicate Reachable(s: Sup) {
    && (s.state == Running ==> s.grpc)
    && (s.state == Stopped ==> !s.grpc)
    && (s.state == Stopping && s.stops.now.Some? && s.stops.now.value.phase == Tearing(StopXvnc) ==> !s.grpc)
  }

  lemma StopKeepsReachable(s: Sup, t: nat)
    requires Core(s) && TaskEnabled(s, StopRuns(t)) && Reachable(s)
    ensures Reachable(StopRun(s, t))
  {
    StopIsNewest(s, t);
  }

  lemma BootKeepsReachable(s: Sup, b: nat)
    requires Core(s) && TaskEnabled(s, BootRuns(b)) && Reachable(s)
    ensures Reachable(BootRun(s, b))
  {
    BootIsNewest(s, b);
  }

  lemma WatchKeepsReachable(s: Sup, e: nat, exit: Exit)
    requires Core(s) && TaskEnabled(s, WatchRuns(e, exit)) && Reachable(s)
    ensures Reachable(WatchRun(s, e, exit))
  {
  }

  lemma TasksKeepReachable(s: Sup, step: Step)
    requires Core(s) && TaskEnabled(s, step) && Reachable(s)
    ensures Reachable(RunTask(s, step))
  {
    match step
    case StopRuns(t) => StopKeepsReachable(s, t);
    case BootRuns(b) => BootKeepsReachable(s, b);
    case BootFails(b, internal) => BootIsNewest(s, b);
    case WatchRuns(e, exit) => WatchKeepsReachable(s, e, exit);
    case _ =>
  }

  lemma StartsKeepReachable(d: Daemon, step: Step)
    requires Inv(d) && Enabled(d, step) && Reachable(d.sup) && (step.Start? || step.Lease? || step.Wait? || step.Resume?)
    ensures Reachable(Apply(d, step).sup)
  {
  }

  lemma RequestsKeepReachable(d: Daemon, step: Step)
    requires Inv(d) && Enabled(d, step) && !IsTask(step) && Reachable(d.sup)
    ensures Reachable(Apply(d, step).sup)
  {
    if step.Start? || step.Lease? || step.Wait? || step.Resume? {
      StartsKeepReachable(d, step);
    } else {
      assert Reachable(StopRequest(d.sup));
    }
  }

  lemma StepKeepsReachable(d: Daemon, step: Step)
    requires Inv(d) && Enabled(d, step) && Reachable(d.sup)
    ensures Reachable(Apply(d, step).sup)
  {
    if IsTask(step) {
      TasksKeepReachable(d.sup, step);
    } else {
      RequestsKeepReachable(d, step);
    }
  }

  lemma {:induction false} RunKeepsReachable(d: Daemon, steps: seq<Step>, r: Daemon)
    requires Inv(d) && Run(d, steps, r) && Reachable(d.sup)
    ensures Reachable(r.sup)
    decreases |steps|
  {
    if steps != [] {
      StepKeepsReachable(d, steps[0]);
      ApplyInv(d, steps[0]);
      RunKeepsReachable(Apply(d, steps[0]), steps[1..], r);
    }
  }

  // What a request does

  predicate SameRest(s: Sup, r: Sup) {
    r.begins == s.begins && r.jobs == s.jobs && r.closing == s.closing
  }

  lemma BootKeepsTheRest(s: Sup, b: nat)
    requires Core(s) && TaskEnabled(s, BootRuns(b))
    ensures SameRest(s, BootRun(s, b))
  {
  }

  lemma StopKeepsTheRest(s: Sup, t: nat)
    requires Core(s) && TaskEnabled(s, StopRuns(t))
    ensures SameRest(s, StopRun(s, t))
  {
  }

  lemma FailureKeepsTheRest(s: Sup, b: nat, internal: bool)
    requires Core(s) && TaskEnabled(s, BootFails(b, internal))
    ensures SameRest(s, BootFail(s, b, internal))
  {
  }

  lemma VerdictKeepsTheRest(s: Sup, e: nat, exit: Exit)
    requires Core(s) && TaskEnabled(s, WatchRuns(e, exit))
    ensures SameRest(s, WatchRun(s, e, exit))
  {
    if s.emu == Some(e) && Active(s) {
      WatchDecides(s, e, exit);
      if MayRetry(s, exit) {
        RetryKeepsTheRest(s);
        WatchedKeepsTheRest(Retry(s), e, Retries);
      } else {
        var r := s.(retried := s.retried || (exit.Fault? && exit.late));
        BeginStopKeepsTheRest(r);
        WatchedKeepsTheRest(BeginStop(r, None), e, Stops);
      }
    } else {
      WatchedKeepsTheRest(s, e, Ignored);
    }
  }

  lemma WatchedKeepsTheRest(s: Sup, e: nat, verdict: Watch)
    requires s.qemus.Has(e)
    ensures SameRest(s, Watched(s, e, verdict))
  {
  }

  lemma BeginStopKeepsTheRest(s: Sup)
    ensures SameRest(s, BeginStop(s, None))
  {
  }

  lemma RetryKeepsTheRest(s: Sup)
    requires s.boots.now.Some?
    ensures SameRest(s, Retry(s))
  {
  }

  /** Tasks begin nothing, register nothing and end no shutdown. */
  lemma TasksKeepTheRest(s: Sup, step: Step)
    requires Core(s) && TaskEnabled(s, step)
    ensures SameRest(s, RunTask(s, step))
  {
    match step
    case BootRuns(b) => BootKeepsTheRest(s, b);
    case BootFails(b, internal) => FailureKeepsTheRest(s, b, internal);
    case BootUnwinds(b) => assert SameRest(s, DropChild(s, s.boots.Get(b).phase));
    case StopRuns(t) => StopKeepsTheRest(s, t);
    case WatchRuns(e, exit) => VerdictKeepsTheRest(s, e, exit);
    case QemuExits(e) => assert SameRest(s, Killed(s, e));
  }

  lemma TurnKeepsTheRest(d: Daemon, k: nat)
    requires Inv(d) && k < |d.callers|
    ensures var r := TryStart(d, k).sup;
            && r.jobs == d.sup.jobs && d.sup.begins <= r.begins <= d.sup.begins + 1
            && (r.begins > d.sup.begins ==> d.sup.state == Stopped && !d.sup.closing && r.state == Starting && !r.retried)
            && (r.begins == d.sup.begins ==> r.retried == d.sup.retried)
  {
  }

  lemma StopRequestKeepsTheRest(s: Sup)
    ensures SameRest(s, StopRequest(s))
    ensures StopRequest(s).state == Stopped ==> s.state == Stopped
  {
  }

  /** The starts among the requests: those that take a turn of the start loop. */
  lemma TurnsBegin(d: Daemon, step: Step)
    requires Inv(d) && Enabled(d, step) && (step.Start? || step.Restart? || step == Lease(true) || step.Resume?)
    ensures MayBegin(d.sup, Apply(d, step).sup, step) && Apply(d, step).sup.jobs == d.sup.jobs
  {
    var k := |d.callers|;
    match step
    case Start(wait) =>
      EnterInv(d, false, wait);
      TurnKeepsTheRest(Enter(d, false, wait), k);
    case Restart(wait) =>
      StopRequestCore(d.sup);
      CallersFrame(d, StopRequest(d.sup));
      EnterInv(d.(sup := StopRequest(d.sup)), false, wait);
      StopRequestKeepsTheRest(d.sup);
      TurnKeepsTheRest(Enter(d.(sup := StopRequest(d.sup)), false, wait), k);
    case Lease(wake) =>
      EnterInv(d, true, true);
      TurnKeepsTheRest(Enter(d, true, true), k);
    case Resume(j) =>
      if !d.callers[j].phase.AwaitAnswer? {
        TurnKeepsTheRest(d, j);
      }
  }

  lemma RequestsBegin(d: Daemon, step: Step)
    requires Inv(d) && Enabled(d, step) && !IsTask(step)
    ensures MayBegin(d.sup, Apply(d, step).sup, step)
  {
    if step.Start? || step.Restart? || step == Lease(true) || step.Resume? {
      TurnsBegin(d, step);
    } else {
      StopRequestKeepsTheRest(d.sup);
    }
  }

  /** A step begins at most one boot, and only one that may: never for a lease that does not wake Android,
      never for a wait, never after a shutdown, and only from rest. Its own retry is then still to come. */
  predicate MayBegin(s: Sup, r: Sup, step: Step) {
    && s.begins <= r.begins <= s.begins + 1
    && (r.begins > s.begins ==>
          && s.state == Stopped && !s.closing && r.state == Starting && !r.retried
          && (step.Start? || step.Restart? || step == Lease(true) || step.Resume?))
  }

  lemma WhatBegins(d: Daemon, step: Step)
    requires Inv(d) && Enabled(d, step)
    ensures MayBegin(d.sup, Apply(d, step).sup, step)
  {
    if IsTask(step) {
      TasksKeepTheRest(d.sup, step);
    } else {
      RequestsBegin(d, step);
    }
  }

  /** From rest, a start, a restart and a waking lease begin one, unless the daemon shuts down. */
  lemma StartsBegin(d: Daemon, step: Step)
    requires Inv(d) && d.sup.state == Stopped && !d.sup.closing && (step.Start? || step.Restart? || step == Lease(true))
    ensures var r := Apply(d, step).sup; r.begins == d.sup.begins + 1 && r.state == Starting
  {
  }

  /** A lease with `wake` false changes nothing of Android: it enters its body exactly when Android runs. */
  lemma LookingDoesNotWake(d: Daemon)
    requires Inv(d)
    ensures var r := Apply(d, Lease(false));
            && r.sup == d.sup && |r.callers| == |d.callers| + 1
            && r.callers[|d.callers|].phase == if d.sup.state == Running then Body else Left(false)
  {
  }

  lemma WaitingChangesNothing(d: Daemon)
    requires Inv(d)
    ensures var r := Apply(d, Wait);
            && r.sup == d.sup && |r.callers| == |d.callers| + 1
            && (d.sup.state == Running <==> r.callers[|d.callers|].phase == Left(true))
            && (d.sup.state == Starting <==> r.callers[|d.callers|].phase.AwaitAnswer?)
  {
  }

  /** A stop, a restart and a shutdown of an active Android stop it; a shutdown is remembered. */
  lemma StopsStop(d: Daemon, step: Step)
    requires Inv(d) && Active(d.sup) && (step.Stop? || step.Restart? || step.Shutdown?)
    ensures Apply(d, step).sup.state == Stopping
  {
  }

  lemma ShutdownIsRemembered(d: Daemon)
    requires Inv(d)
    ensures Apply(d, Shutdown).sup.closing
    ensures Apply(d, Shutdown).sup.state == Stopping || Apply(d, Shutdown).sup.state == Stopped
  {
  }

  lemma JobsAreKept(d: Daemon, step: Step)
    requires Inv(d) && Enabled(d, step)
    ensures Apply(d, step).sup.jobs == if step.Every? then d.sup.jobs + [step.interval] else d.sup.jobs
  {
    if IsTask(step) {
      TasksKeepTheRest(d.sup, step);
    } else {
      RequestsKeepJobs(d, step);
    }
  }

  lemma RequestsKeepJobs(d: Daemon, step: Step)
    requires Inv(d) && Enabled(d, step) && !IsTask(step)
    ensures Apply(d, step).sup.jobs == if step.Every? then d.sup.jobs + [step.interval] else d.sup.jobs
  {
    if step.Start? || step.Restart? || step == Lease(true) || step.Resume? {
      TurnsBegin(d, step);
    } else {
      StopRequestKeepsTheRest(d.sup);
    }
  }

  /** A boot that fails while its emulator lives, or before there is one, stops Android; one that fails only
      because qemu is gone changes nothing, and the watcher of that qemu can still decide. */
  lemma WhoDecidesAFailure(s: Sup, b: nat)
    requires Core(s) && TaskEnabled(s, BootFails(b, false))
    ensures var r := RunTask(s, BootFails(b, false));
            if s.emu.Some? && s.qemus.Has(s.emu.value) && !s.qemus.Get(s.emu.value).live then
              && r.state == s.state && r.answers == s.answers && r.stops == s.stops && r.retried == s.retried
              && forall exit :: TaskEnabled(r, WatchRuns(s.emu.value, exit))
            else
              r.state == Stopping && r.stops.Size() == s.stops.Size() + 1
  {
    BootIsNewest(s, b);
  }

  /** What the watcher makes of an exit: nothing of one that is not the held emulator's or that nobody needs; a
      retry for a first crash without a fatal line, during a start or soon after a start of it; a stop otherwise. */
  lemma WhenTheWatcherRetries(s: Sup, e: nat, exit: Exit)
    requires Core(s) && TaskEnabled(s, WatchRuns(e, exit))
    ensures
      var r := RunTask(s, WatchRuns(e, exit));
      var needed := s.emu == Some(e) && (s.state == Starting || s.state == Running);
      && (r.boots.Size() > s.boots.Size() <==>
            needed && exit.Crash? && !exit.fatalLine && !s.retried && (s.state == Starting || exit.recent))
      && (r.boots.Size() > s.boots.Size() ==> r.state == Starting)
      && (r.retried <==> s.retried || r.boots.Size() > s.boots.Size() || (needed && exit.Fault? && exit.late))
      && (r.stops.Size() > s.stops.Size() <==> needed && r.boots.Size() == s.boots.Size())
      && (r.stops.Size() > s.stops.Size() ==> r.state == Stopping)
      && (!needed ==> r.state == s.state)
  {
    if s.emu == Some(e) && Active(s) {
      WatchDecides(s, e, exit);
    }
  }

  /** An internal error always stops Android. */
  lemma InternalErrorsStop(s: Sup, b: nat)
    requires Core(s) && TaskEnabled(s, BootFails(b, true))
    ensures RunTask(s, BootFails(b, true)).state == Stopping
  {
  }
}
