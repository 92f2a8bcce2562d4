/** The lifecycle of Android: start, stop, restart, leases, the crash watcher with its one retry,
    and shutdown, as a transition system.

    Code between two awaits of the event loop is one atomic step. `cancel()` sets a flag, and a
    cancelled boot can only unwind at its next step. Tasks, futures and processes are numbered in
    the order of their creation; nothing is ever taken out of a list, so an index is an identity. */
module Machine {
  import opened Wrappers

  datatype State = Stopped | Starting | Running | Stopping

  /** A future that start requests wait for. */
  datatype Answer = Pending | Succeeded | Failed

  /** The awaits of `_teardown`. */
  datatype Tear = StopEmulator | CloseGrpc | StopXvnc

  /** The await where a boot task is suspended. */
  datatype BootPhase =
    | AwaitPrevious(previous: nat) // a retry waits for the crashed boot to unwind
    | Clearing(tear: Tear)         // a retry removes what the crashed boot left
    | Preparing                    // no process yet
    | Spawning(child: nat)         // the process exists, `launch` has not returned
    | Connecting
    | Booting
    | BootEnded

  datatype Boot = Boot(phase: BootPhase, cancelled: bool)

  datatype StopPhase = AwaitBoot | Tearing(tear: Tear) | StopEnded

  datatype StopTask = StopTask(boot: Option<nat>, done: Option<nat>, phase: StopPhase)

  /** What the watcher of an emulator made of its exit. */
  datatype Watch = Unwatched | Waiting | Cancelled | Ignored | Stops | Retries

  /** An emulator process; `live` while it has no return code. */
  datatype Qemu = Qemu(live: bool, watch: Watch)

  /** Someone who called start, restart, wait or lease. */
  datatype CallerPhase = AwaitStop(stop: nat) | AwaitAnswer(answer: nat) | Again | Body | Left(ok: bool)

  datatype Caller = Caller(lease: bool, wait: bool, phase: CallerPhase)

  /** What the watcher can see when the emulator has exited. */
  datatype Exit = Hang | PowerOff | Crash(fatalLine: bool, recent: bool) | Fault(late: bool)

  datatype Sup = Sup(
    state: State,
    answers: Line<Answer>,      // the boot futures; `_boot_done` is the newest
    boots: Line<Boot>,          // the boot tasks; `_boot_task` is the newest
    stops: Line<StopTask>,      // the stop tasks; `_stop_task` is the newest
    qemus: Line<Qemu>,          // the processes that were launched
    emu: Option<nat>,
    watcher: Option<nat>,
    grpc: bool,
    retried: bool,
    closing: bool,
    jobs: seq<nat>,             // registered intervals
    jobTasks: seq<nat>,         // the running job tasks, by interval
    begins: nat)                // calls of `_begin_boot`

  /** The supervisor and those who called it. */
  datatype Daemon = Daemon(sup: Sup, leases: int, callers: seq<Caller>)

  const INITIAL := Daemon(Sup(Stopped, Empty(), Empty(), Empty(), Empty(), None, None, false, false, false, [], [], 0), 0, [])

  predicate Active(s: Sup) {
    s.state.Starting? || s.state.Running?
  }

  // The pieces of the state machine

  function NewBootFuture(s: Sup): Sup {
    s.(answers := s.answers.Push(Pending))
  }

  function NewBootTask(s: Sup, phase: BootPhase): Sup {
    s.(boots := s.boots.Push(Boot(phase, false)))
  }

  function BeginBoot(s: Sup): Sup {
    NewBootTask(NewBootFuture(s.(state := Starting, retried := false, begins := s.begins + 1)), Preparing)
  }

  function CancelJobs(s: Sup): Sup {
    s.(jobTasks := [])
  }

  /** `task.cancel()` on the current boot task, unless it has ended or is `current`, the caller. */
  function CancelBoot(s: Sup, current: Option<nat>): Sup {
    if s.boots.now.Some? && !s.boots.now.value.phase.BootEnded? && current != s.boots.Newest() then
      s.(boots := s.boots.(now := Some(s.boots.now.value.(cancelled := true))))
    else
      s
  }

  function BeginStop(s: Sup, current: Option<nat>): Sup {
    var s := CancelBoot(CancelJobs(s.(state := Stopping)), current);
    s.(stops := s.stops.Push(StopTask(s.boots.Newest(), s.answers.Newest(), AwaitBoot)))
  }

  predicate IsPending(s: Sup, f: nat) {
    s.answers.Has(f) && s.answers.Get(f).Pending?
  }

  /** `set_result` and `set_exception` raise for a future that is settled. */
  function Settle(s: Sup, f: nat, answer: Answer): Sup
    requires IsPending(s, f)
  {
    s.(answers := s.answers.Put(f, answer))
  }

  function Retry(s: Sup): Sup
    requires s.boots.now.Some?
  {
    var previous := |s.boots.past|;
    var s := CancelBoot(CancelJobs(s.(retried := true)), None).(state := Starting);
    var s := if s.answers.now == Some(Pending) then s else NewBootFuture(s);
    NewBootTask(s, AwaitPrevious(previous))
  }

  /** The effect of one await of `_teardown` that completed. */
  function Torn(s: Sup, tear: Tear): Sup {
    match tear
    case StopEmulator =>
      if s.watcher.Some? && s.qemus.Has(s.watcher.value) && s.qemus.Get(s.watcher.value).watch.Waiting? then
        Watched(s, s.watcher.value, Cancelled).(watcher := None)
      else
        s.(watcher := None)
    case CloseGrpc => s.(grpc := false)
    case StopXvnc => s.(emu := None)
  }

  /** SIGKILL ends qemu: the first await of a teardown ends when the process is gone. */
  predicate TearCompletes(s: Sup, tear: Tear) {
    tear.StopEmulator? && s.emu.Some? && s.qemus.Has(s.emu.value) ==> !s.qemus.Get(s.emu.value).live
  }

  function AtPhase(s: Sup, b: nat, phase: BootPhase): Sup
    requires s.boots.Has(b)
  {
    s.(boots := s.boots.Put(b, s.boots.Get(b).(phase := phase)))
  }

  function Killed(s: Sup, e: nat): Sup
    requires s.qemus.Has(e)
  {
    s.(qemus := s.qemus.Put(e, s.qemus.Get(e).(live := false)))
  }

  function Watched(s: Sup, e: nat, verdict: Watch): Sup
    requires s.qemus.Has(e)
  {
    s.(qemus := s.qemus.Put(e, s.qemus.Get(e).(watch := verdict)))
  }

  /** A boot that ends in the middle of `launch` takes its process along. */
  function DropChild(s: Sup, phase: BootPhase): Sup {
    if phase.Spawning? && s.qemus.Has(phase.child) then Killed(s, phase.child) else s
  }

  // Requests

  function SetCaller(d: Daemon, k: nat, phase: CallerPhase): Daemon
    requires k < |d.callers|
  {
    d.(callers := d.callers[k := d.callers[k].(phase := phase)])
  }

  /** The `finally` of a lease runs on every way out. */
  function Leave(d: Daemon, k: nat, ok: bool): Daemon
    requires k < |d.callers|
  {
    SetCaller(if d.callers[k].lease then d.(leases := d.leases - 1) else d, k, Left(ok))
  }

  /** Android runs: a lease enters its body if the emulator can be reached, a start returns. */
  function Arrive(d: Daemon, k: nat): Daemon
    requires k < |d.callers|
  {
    if d.callers[k].lease && d.sup.grpc then SetCaller(d, k, Body) else Leave(d, k, !d.callers[k].lease)
  }

  function Join(d: Daemon, k: nat): Daemon
    requires k < |d.callers| && d.sup.answers.now.Some?
  {
    if d.callers[k].wait then SetCaller(d, k, AwaitAnswer(|d.sup.answers.past|)) else Leave(d, k, true)
  }

  /** One turn of the loop in `_start`. */
  function TryStart(d: Daemon, k: nat): Daemon
    requires k < |d.callers| && Ids(d.sup)
  {
    if d.sup.closing then Leave(d, k, false) else
    match d.sup.state
    case Running => Arrive(d, k)
    case Stopping => SetCaller(d, k, if d.callers[k].wait then AwaitStop(|d.sup.stops.past|) else Again)
    case Stopped => Join(d.(sup := BeginBoot(d.sup)), k)
    case Starting => Join(d, k)
  }

  function Enter(d: Daemon, lease: bool, wait: bool): Daemon {
    d.(callers := d.callers + [Caller(lease, wait, Again)], leases := if lease then d.leases + 1 else d.leases)
  }

  datatype Step =
    // requests
    | Start(wait: bool) | Restart(wait: bool) | Stop | Wait | Lease(wake: bool) | Shutdown | Every(interval: nat)
    // callers that go on
    | Resume(k: nat) | GiveUp(k: nat) | LeaseEnds(k: nat)
    // tasks
    | BootRuns(b: nat) | BootFails(b: nat, internal: bool) | BootUnwinds(b: nat)
    | StopRuns(t: nat) | WatchRuns(e: nat, exit: Exit) | IdleCheck(limited: bool, expired: bool)
    // the world
    | QemuExits(e: nat)

  /** The next await of boot `b` completes. */
  function BootRun(s: Sup, b: nat): Sup
    requires s.boots.Has(b)
    requires s.boots.Get(b).phase.Booting? ==> s.answers.now == Some(Pending)
  {
    match s.boots.Get(b).phase
    case AwaitPrevious(_) => AtPhase(s, b, Clearing(StopEmulator))
    case Clearing(StopEmulator) => AtPhase(Torn(s, StopEmulator), b, Clearing(CloseGrpc))
    case Clearing(CloseGrpc) => AtPhase(Torn(s, CloseGrpc), b, Clearing(StopXvnc))
    case Clearing(StopXvnc) => AtPhase(Torn(s, StopXvnc), b, Preparing)
    case Preparing => AtPhase(s.(qemus := s.qemus.Push(Qemu(true, Unwatched))), b, Spawning(s.qemus.Size()))
    case Spawning(e) => Attach(AtPhase(s, b, Connecting), e)
    case Connecting => AtPhase(s.(grpc := true), b, Booting)
    case Booting => AtPhase(Ready(s), b, BootEnded)
    case BootEnded => s
  }

  /** `launch` returned: the process is held and watched. */
  function Attach(s: Sup, e: nat): Sup {
    var s := s.(emu := Some(e), watcher := Some(e));
    if s.qemus.Has(e) then Watched(s, e, Waiting) else s
  }

  function Ready(s: Sup): Sup
    requires s.answers.now == Some(Pending)
  {
    var s := Settle(s.(state := Running), |s.answers.past|, Succeeded);
    s.(jobTasks := s.jobTasks + s.jobs)
  }

  /** The two `except` branches of `_boot`. */
  function BootFail(s: Sup, b: nat, internal: bool): Sup
    requires s.boots.Has(b)
  {
    var s := DropChild(s, s.boots.Get(b).phase);
    var seen := internal || s.emu.None? || (s.qemus.Has(s.emu.value) && s.qemus.Get(s.emu.value).live);
    AtPhase(if seen then BeginStop(s, Some(b)) else s, b, BootEnded)
  }

  function AtStop(s: Sup, t: nat, phase: StopPhase): Sup
    requires s.stops.Has(t)
  {
    s.(stops := s.stops.Put(t, s.stops.Get(t).(phase := phase)))
  }

  function StopRun(s: Sup, t: nat): Sup
    requires s.stops.Has(t)
  {
    match s.stops.Get(t).phase
    case AwaitBoot => AtStop(s, t, Tearing(StopEmulator))
    case Tearing(StopEmulator) => AtStop(Torn(s, StopEmulator), t, Tearing(CloseGrpc))
    case Tearing(CloseGrpc) => AtStop(Torn(s, CloseGrpc), t, Tearing(StopXvnc))
    case Tearing(StopXvnc) => FinishStop(Torn(s, StopXvnc), t)
    case StopEnded => s
  }

  /** The `finally` of `_stop`. */
  function FinishStop(s: Sup, t: nat): Sup
    requires s.stops.Has(t)
  {
    var done := s.stops.Get(t).done;
    var s := AtStop(s.(state := Stopped), t, StopEnded);
    if done.Some? && IsPending(s, done.value) then Settle(s, done.value, Failed) else s
  }

  /** `_watch` after the exit, with the decision of `_exited`. */
  function WatchRun(s: Sup, e: nat, exit: Exit): Sup
    requires s.qemus.Has(e) && (Active(s) ==> s.boots.now.Some?)
  {
    if s.emu != Some(e) || !Active(s) then Watched(s, e, Ignored) else
    match exit
    case Hang => Watched(BeginStop(s, None), e, Stops)
    case PowerOff => Watched(BeginStop(s, None), e, Stops)
    case Fault(late) => Watched(BeginStop(if late then s.(retried := true) else s, None), e, Stops)
    case Crash(fatalLine, recent) =>
      if fatalLine || s.retried || !(s.state.Starting? || recent) then
        Watched(BeginStop(s, None), e, Stops)
      else
        Watched(Retry(s), e, Retries)
  }

  function ResumeCaller(d: Daemon, k: nat): Daemon
    requires Ids(d.sup) && Enabled(d, Resume(k))
  {
    match d.callers[k].phase
    case AwaitAnswer(f) => if d.sup.answers.Get(f).Succeeded? then Arrive(d, k) else Leave(d, k, false)
    case AwaitStop(_) => TryStart(d, k)
    case Again => TryStart(d, k)
    case _ => d
  }

  predicate TaskEnabled(s: Sup, step: Step) {
    match step
    case BootRuns(b) =>
      && s.boots.Has(b) && !s.boots.Get(b).cancelled
      && (match s.boots.Get(b).phase
          case AwaitPrevious(p) => s.boots.Has(p) && s.boots.Get(p).phase.BootEnded?
          case Clearing(tear) => TearCompletes(s, tear)
          case BootEnded => false
          case _ => true)
    case BootFails(b, internal) =>
      && s.boots.Has(b) && !s.boots.Get(b).cancelled && !s.boots.Get(b).phase.BootEnded?
      && (s.boots.Get(b).phase.AwaitPrevious? || s.boots.Get(b).phase.Clearing? ==> internal)
    case BootUnwinds(b) => s.boots.Has(b) && s.boots.Get(b).cancelled && !s.boots.Get(b).phase.BootEnded?
    case StopRuns(t) =>
      && s.stops.Has(t)
      && (match s.stops.Get(t).phase
          case AwaitBoot =>
            var boot := s.stops.Get(t).boot;
            boot.Some? ==> s.boots.Has(boot.value) && s.boots.Get(boot.value).phase.BootEnded?
          case Tearing(tear) => TearCompletes(s, tear)
          case StopEnded => false)
    case WatchRuns(e, exit) => s.qemus.Has(e) && s.qemus.Get(e).watch.Waiting? && !s.qemus.Get(e).live
    case QemuExits(e) => s.qemus.Has(e) && s.qemus.Get(e).live
    case _ => false
  }

  function RunTask(s: Sup, step: Step): Sup
    requires Core(s) && TaskEnabled(s, step)
  {
    match step
    case BootRuns(b) => BootRun(s, b)
    case BootFails(b, internal) => BootFail(s, b, internal)
    case BootUnwinds(b) => AtPhase(DropChild(s, s.boots.Get(b).phase), b, BootEnded)
    case StopRuns(t) => StopRun(s, t)
    case WatchRuns(e, exit) => WatchRun(s, e, exit)
    case QemuExits(e) => Killed(s, e)
  }

  function StopRequest(s: Sup): Sup {
    if Active(s) then BeginStop(s, None) else s
  }

  function Register(s: Sup, interval: nat): Sup {
    s.(jobs := s.jobs + [interval], jobTasks := if s.state.Running? then s.jobTasks + [interval] else s.jobTasks)
  }

  predicate IsTask(step: Step) {
    step.BootRuns? || step.BootFails? || step.BootUnwinds? || step.StopRuns? || step.WatchRuns? || step.QemuExits?
  }

  predicate Enabled(d: Daemon, step: Step) {
    match step
    case Resume(k) =>
      && k < |d.callers|
      && (match d.callers[k].phase
          case AwaitStop(t) => d.sup.stops.Has(t) && d.sup.stops.Get(t).phase.StopEnded?
          case AwaitAnswer(f) => d.sup.answers.Has(f) && !d.sup.answers.Get(f).Pending?
          case Again => true
          case _ => false)
    case GiveUp(k) => k < |d.callers| && !d.callers[k].phase.Left? && !d.callers[k].phase.Body?
    case LeaseEnds(k) => k < |d.callers| && d.callers[k].phase.Body?
    case _ => IsTask(step) ==> TaskEnabled(d.sup, step)
  }

  function Apply(d: Daemon, step: Step): Daemon
    requires Core(d.sup) && Enabled(d, step)
  {
    var k := |d.callers|;
    match step
    case Start(wait) => TryStart(Enter(d, false, wait), k)
    case Restart(wait) =>
      StopRequestCore(d.sup);
      TryStart(Enter(d.(sup := StopRequest(d.sup)), false, wait), k)
    case Stop => d.(sup := StopRequest(d.sup))
    case Wait =>
      var r := Enter(d, false, true);
      if d.sup.state.Running? then Leave(r, k, true) else if d.sup.state.Starting? then Join(r, k) else Leave(r, k, false)
    case Lease(wake) =>
      var r := Enter(d, true, true);
      if wake then TryStart(r, k) else if d.sup.state.Running? then Arrive(r, k) else Leave(r, k, false)
    case Shutdown => d.(sup := StopRequest(d.sup).(closing := true))
    case Every(interval) => d.(sup := Register(d.sup, interval))
    case Resume(k) => ResumeCaller(d, k)
    case GiveUp(k) => Leave(d, k, false)
    case LeaseEnds(k) => Leave(d, k, true)
    case IdleCheck(limited, expired) =>
      if !limited || d.leases != 0 || !d.sup.state.Running? || !expired then d else d.(sup := BeginStop(d.sup, None))
    case _ => d.(sup := RunTask(d.sup, step))
  }

  // The invariant

  predicate Ids(s: Sup) {
    && (s.emu.Some? ==> s.emu == s.qemus.Newest())
    && (s.watcher.Some? ==> s.watcher == s.emu)
    && (s.state != Stopped ==> s.answers.now.Some? && s.boots.now.Some?)
    && (s.state == Stopping ==> s.stops.now.Some?)
    && (s.state == Stopped ==> s.emu.None? && s.watcher.None?)
  }

  /** Every earlier future is answered, every earlier task and process is out of the way. */
  ghost predicate PastInv(s: Sup) {
    && (forall f :: 0 <= f < |s.answers.past| ==> !s.answers.past[f].Pending?)
    && (forall t :: 0 <= t < |s.stops.past| ==> s.stops.past[t].phase.StopEnded?)
    && (forall b :: 0 <= b < |s.boots.past| ==> Gone(s.boots.past[b]))
    && (forall e :: 0 <= e < |s.qemus.past| ==> Over(s.qemus.past[e]))
  }

  predicate Gone(boot: Boot) {
    (boot.cancelled || boot.phase.BootEnded?) && !boot.phase.Spawning?
  }

  predicate Over(qemu: Qemu) {
    !qemu.live && !qemu.watch.Waiting?
  }

  /** What the state says about the future that waiters hold. */
  predicate AnswerInv(s: Sup) {
    match s.state
    case Starting => s.answers.now == Some(Pending)
    case Running => s.answers.now == Some(Succeeded)
    case Stopping => true
    case Stopped => s.answers.now != Some(Pending)
  }

  predicate StopInv(s: Sup)
    requires Ids(s)
  {
    if s.state == Stopping then StopHolds(s, s.stops.now.value)
    else s.stops.now.Some? ==> s.stops.now.value.phase.StopEnded?
  }

  /** The stop task holds the boot that it waits for and the future that it answers. */
  predicate StopHolds(s: Sup, stop: StopTask)
    requires Ids(s) && s.boots.now.Some?
  {
    && !stop.phase.StopEnded?
    && stop.done == s.answers.Newest() && stop.boot == s.boots.Newest()
    && (stop.phase.Tearing? ==> s.boots.now.value.phase.BootEnded?)
    && (stop.phase.Tearing? && !stop.phase.tear.StopEmulator? ==>
          s.watcher.None? && (s.emu.Some? ==> !s.qemus.now.value.live))
  }

  /** Only the newest boot can act; what it holds follows from where it is. */
  predicate BootInv(s: Sup)
    requires Ids(s)
  {
    s.boots.now.Some? ==>
      var boot := s.boots.now.value;
      && (boot.phase.Spawning? ==> s.emu.None? && Some(boot.phase.child) == s.qemus.Newest() && s.qemus.now.value.watch.Unwatched?)
      && match s.state
         case Starting => !boot.cancelled && Responsible(s, boot.phase)
         case Running => boot.phase.BootEnded? && s.grpc && Attended(s)
         case Stopping => boot.cancelled || boot.phase.BootEnded?
         case Stopped => boot.phase.BootEnded?
  }

  /** The held emulator is watched. */
  predicate Attended(s: Sup)
    requires Ids(s)
  {
    s.emu.Some? && s.watcher == s.emu && s.qemus.now.value.watch.Waiting?
  }

  /** The held emulator has exited, and its watcher has decided already. */
  predicate LeftOver(s: Sup)
    requires Ids(s)
  {
    s.emu.Some? && Over(s.qemus.now.value)
  }

  /** During a start either the boot goes on, or the watcher of a dead emulator decides. */
  predicate Responsible(s: Sup, phase: BootPhase)
    requires Ids(s)
  {
    match phase
    case AwaitPrevious(p) => p < |s.boots.past| && LeftOver(s)
    case Clearing(tear) => LeftOver(s) && (tear.StopEmulator? || s.watcher.None?)
    case Preparing => s.emu.None?
    case Spawning(_) => true
    case Connecting => Attended(s)
    case Booting => Attended(s) && s.grpc
    case BootEnded => Attended(s) && !s.qemus.now.value.live
  }

  /** A process is alive only while someone holds it. */
  predicate QemuInv(s: Sup)
    requires Ids(s)
  {
    s.qemus.now.Some? ==>
      && (s.qemus.now.value.live ==> s.emu.Some? || (s.boots.now.Some? && s.boots.now.value.phase.Spawning?))
      && (s.qemus.now.value.watch.Waiting? ==> s.emu.Some? && s.watcher == s.emu)
  }

  predicate MayLaunch(s: Sup) {
    && s.boots.now.Some?
    && var boot := s.boots.now.value;
       !boot.cancelled && (boot.phase.AwaitPrevious? || boot.phase.Clearing? || boot.phase.Preparing?)
  }

  predicate CountInv(s: Sup) {
    && (s.begins == 0 ==> s.state == Stopped && s.boots.now.None? && s.qemus.Size() == 0)
    && (s.begins > 0 ==> s.qemus.Size() + (if MayLaunch(s) then 1 else 0) + (if s.retried then 0 else 1) <= 2 * s.begins)
  }

  function OpenLeases(callers: seq<Caller>): nat {
    if callers == [] then 0
    else OpenLeases(callers[..|callers| - 1]) + (if callers[|callers| - 1].lease && !callers[|callers| - 1].phase.Left? then 1 else 0)
  }

  predicate JobsInv(s: Sup) {
    s.jobTasks == if s.state.Running? then s.jobs else []
  }

  /** The state machine and its tasks. */
  ghost predicate Core(s: Sup) {
    && Ids(s) && PastInv(s) && AnswerInv(s) && StopInv(s) && BootInv(s) && QemuInv(s) && CountInv(s) && JobsInv(s)
    && (s.closing ==> s.state == Stopping || s.state == Stopped)
  }

  predicate CallerInv(s: Sup, c: Caller) {
    && (c.lease ==> c.wait)
    && (match c.phase
        case AwaitStop(t) => t < s.stops.Size()
        case AwaitAnswer(f) => f < s.answers.Size()
        case Body => c.lease
        case _ => true)
  }

  ghost predicate CallersInv(d: Daemon) {
    && d.leases == OpenLeases(d.callers)
    && (forall k :: 0 <= k < |d.callers| ==> CallerInv(d.sup, d.callers[k]))
  }

  ghost predicate Inv(d: Daemon) {
    Core(d.sup) && CallersInv(d)
  }

  // Every step keeps the invariant

  lemma OpenLeasesAppend(callers: seq<Caller>, c: Caller)
    ensures OpenLeases(callers + [c]) == OpenLeases(callers) + (if c.lease && !c.phase.Left? then 1 else 0)
  {
    assert (callers + [c])[..|callers|] == callers;
  }

  lemma {:induction false} OpenLeasesUpdate(callers: seq<Caller>, k: nat, c: Caller)
    requires k < |callers|
    ensures OpenLeases(callers[k := c]) + (if callers[k].lease && !callers[k].phase.Left? then 1 else 0)
         == OpenLeases(callers) + (if c.lease && !c.phase.Left? then 1 else 0)
  {
    var last := |callers| - 1;
    if k < last {
      assert callers[k := c][..last] == callers[..last][k := c];
      OpenLeasesUpdate(callers[..last], k, c);
    } else {
      assert callers[k := c][..last] == callers[..last];
    }
  }

  // The state machine

  lemma BeginBootCore(s: Sup)
    requires Core(s) && s.state.Stopped? && !s.closing
    ensures Core(BeginBoot(s))
  {
  }

  /** Futures, tasks and processes never go away. */
  predicate Grows(s: Sup, r: Sup) {
    s.stops.Size() <= r.stops.Size() && s.answers.Size() <= r.answers.Size()
  }

  lemma BeginStopCore(s: Sup)
    requires Core(s) && Active(s)
    ensures Core(BeginStop(s, None)) && Grows(s, BeginStop(s, None))
  {
  }

  lemma StopRequestCore(s: Sup)
    requires Core(s)
    ensures Core(StopRequest(s)) && Grows(s, StopRequest(s))
  {
    if Active(s) {
      BeginStopCore(s);
    }
  }

  lemma RetryCore(s: Sup, e: nat)
    requires Core(s) && Active(s) && s.emu == Some(e) && s.qemus.Get(e).watch.Waiting? && !s.qemus.Get(e).live && !s.retried
    ensures Core(Watched(Retry(s), e, Retries))
  {
  }

  // Tasks

  lemma BootIsNewest(s: Sup, b: nat)
    requires Core(s) && s.boots.Has(b) && !s.boots.Get(b).cancelled && !s.boots.Get(b).phase.BootEnded?
    ensures s.state == Starting && b == |s.boots.past| && Responsible(s, s.boots.Get(b).phase)
  {
  }

  /** The watcher that a teardown cancels is the one of the newest process. */
  lemma TornWatcher(s: Sup)
    requires Ids(s)
    ensures Torn(s, StopEmulator) ==
            s.(watcher := None, qemus := if s.watcher.Some? && s.qemus.now.value.watch.Waiting?
                                         then s.qemus.(now := Some(s.qemus.now.value.(watch := Cancelled)))
                                         else s.qemus)
  {
  }

  lemma ClearingCore(s: Sup, b: nat)
    requires Core(s) && TaskEnabled(s, BootRuns(b)) && (s.boots.Get(b).phase.AwaitPrevious? || s.boots.Get(b).phase.Clearing?)
    ensures Core(BootRun(s, b)) && Grows(s, BootRun(s, b))
  {
    BootIsNewest(s, b);
  }

  lemma LaunchCore(s: Sup, b: nat)
    requires Core(s) && TaskEnabled(s, BootRuns(b)) && (s.boots.Get(b).phase.Preparing? || s.boots.Get(b).phase.Spawning?)
    ensures Core(BootRun(s, b)) && Grows(s, BootRun(s, b))
  {
    BootIsNewest(s, b);
  }

  lemma BootingCore(s: Sup, b: nat)
    requires Core(s) && TaskEnabled(s, BootRuns(b)) && (s.boots.Get(b).phase.Connecting? || s.boots.Get(b).phase.Booting?)
    ensures Core(BootRun(s, b)) && Grows(s, BootRun(s, b))
  {
    BootIsNewest(s, b);
  }

  lemma BootStopsCore(s: Sup, b: nat)
    requires Core(s) && TaskEnabled(s, BootFails(b, true)) && !s.boots.Get(b).phase.Spawning?
    ensures Core(AtPhase(BeginStop(s, Some(b)), b, BootEnded)) && Grows(s, AtPhase(BeginStop(s, Some(b)), b, BootEnded))
  {
    BootIsNewest(s, b);
  }

  lemma BootEndsCore(s: Sup, b: nat)
    requires Core(s) && TaskEnabled(s, BootFails(b, false)) && !s.boots.Get(b).phase.Spawning?
    requires s.emu.Some? && s.qemus.Has(s.emu.value) && !s.qemus.Get(s.emu.value).live
    ensures Core(AtPhase(s, b, BootEnded)) && Grows(s, AtPhase(s, b, BootEnded))
  {
    BootIsNewest(s, b);
  }

  lemma BootFailCore(s: Sup, b: nat, internal: bool)
    requires Core(s) && TaskEnabled(s, BootFails(b, internal)) && !s.boots.Get(b).phase.Spawning?
    ensures Core(BootFail(s, b, internal)) && Grows(s, BootFail(s, b, internal))
  {
    BootIsNewest(s, b);
    assert DropChild(s, s.boots.Get(b).phase) == s;
    if internal || s.emu.None? || (s.qemus.Has(s.emu.value) && s.qemus.Get(s.emu.value).live) {
      BootStopsCore(s, b);
    } else {
      BootEndsCore(s, b);
    }
  }

  lemma LaunchFailCore(s: Sup, b: nat, internal: bool)
    requires Core(s) && TaskEnabled(s, BootFails(b, internal)) && s.boots.Get(b).phase.Spawning?
    ensures Core(BootFail(s, b, internal)) && Grows(s, BootFail(s, b, internal))
  {
    BootIsNewest(s, b);
  }

  lemma PastUnwindCore(s: Sup, b: nat)
    requires Core(s) && TaskEnabled(s, BootUnwinds(b)) && b < |s.boots.past|
    ensures Core(AtPhase(s, b, BootEnded)) && Grows(s, AtPhase(s, b, BootEnded))
  {
  }

  lemma BootUnwindCore(s: Sup, b: nat)
    requires Core(s) && TaskEnabled(s, BootUnwinds(b)) && b == |s.boots.past|
    ensures var r := AtPhase(DropChild(s, s.boots.Get(b).phase), b, BootEnded); Core(r) && Grows(s, r)
  {
  }

  lemma StopIsNewest(s: Sup, t: nat)
    requires Core(s) && s.stops.Has(t) && !s.stops.Get(t).phase.StopEnded?
    ensures s.state == Stopping && t == |s.stops.past| && StopHolds(s, s.stops.Get(t))
  {
  }

  lemma StopWaitsCore(s: Sup, t: nat)
    requires Core(s) && TaskEnabled(s, StopRuns(t)) && s.stops.Get(t).phase.AwaitBoot?
    ensures Core(StopRun(s, t)) && Grows(s, StopRun(s, t))
  {
    StopIsNewest(s, t);
  }

  lemma StopKillsCore(s: Sup, t: nat)
    requires Core(s) && TaskEnabled(s, StopRuns(t)) && s.stops.Get(t).phase == Tearing(StopEmulator)
    ensures Core(StopRun(s, t)) && Grows(s, StopRun(s, t))
  {
    StopIsNewest(s, t);
    TornWatcher(s);
    var r := Torn(s, StopEmulator);
    assert StopRun(s, t) == r.(stops := r.stops.(now := Some(r.stops.now.value.(phase := Tearing(CloseGrpc)))));
  }

  lemma StopClosesCore(s: Sup, t: nat)
    requires Core(s) && TaskEnabled(s, StopRuns(t)) && s.stops.Get(t).phase == Tearing(CloseGrpc)
    ensures Core(StopRun(s, t)) && Grows(s, StopRun(s, t))
  {
    StopIsNewest(s, t);
  }

  /** The state that the end of a stop leaves. */
  function AfterStop(s: Sup): Sup
    requires s.stops.now.Some?
  {
    s.(state := Stopped, emu := None, stops := s.stops.(now := Some(s.stops.now.value.(phase := StopEnded))),
       answers := if s.answers.now == Some(Pending) then s.answers.(now := Some(Failed)) else s.answers)
  }

  lemma StopEndIs(s: Sup, t: nat)
    requires Core(s) && TaskEnabled(s, StopRuns(t)) && s.stops.Get(t).phase == Tearing(StopXvnc)
    ensures s.stops.now.Some? && StopRun(s, t) == AfterStop(s)
  {
    StopIsNewest(s, t);
    assert IsPending(s, |s.answers.past|) <==> s.answers.now == Some(Pending);
  }

  lemma AfterStopCore(s: Sup)
    requires Core(s) && s.state == Stopping && s.stops.now.value.phase == Tearing(StopXvnc)
    ensures Core(AfterStop(s)) && Grows(s, AfterStop(s))
  {
  }

  lemma StopEndsCore(s: Sup, t: nat)
    requires Core(s) && TaskEnabled(s, StopRuns(t)) && s.stops.Get(t).phase == Tearing(StopXvnc)
    ensures Core(StopRun(s, t)) && Grows(s, StopRun(s, t))
  {
    StopIsNewest(s, t);
    StopEndIs(s, t);
    AfterStopCore(s);
  }

  lemma WatchedCore(s: Sup, e: nat, verdict: Watch)
    requires Core(s) && s.qemus.Has(e) && s.qemus.Get(e).watch.Waiting? && !verdict.Waiting? && (Active(s) ==> s.emu != Some(e))
    ensures Core(Watched(s, e, verdict)) && Grows(s, Watched(s, e, verdict))
  {
  }

  lemma WatchStopsCore(s: Sup, e: nat, late: bool)
    requires Core(s) && Active(s) && s.qemus.Has(e) && s.qemus.Get(e).watch.Waiting?
    ensures var r := Watched(BeginStop(s.(retried := s.retried || late), None), e, Stops); Core(r) && Grows(s, r)
  {
    var r := s.(retried := s.retried || late);
    BeginStopCore(r);
    WatchedCore(BeginStop(r, None), e, Stops);
  }

  /** How the watcher decides. */
  predicate MayRetry(s: Sup, exit: Exit) {
    exit.Crash? && !exit.fatalLine && !s.retried && (s.state.Starting? || exit.recent)
  }

  lemma WatchDecides(s: Sup, e: nat, exit: Exit)
    requires Core(s) && TaskEnabled(s, WatchRuns(e, exit)) && s.emu == Some(e) && Active(s)
    ensures WatchRun(s, e, exit) ==
            if MayRetry(s, exit) then Watched(Retry(s), e, Retries)
            else Watched(BeginStop(s.(retried := s.retried || (exit.Fault? && exit.late)), None), e, Stops)
  {
    assert !exit.Fault? || !exit.late ==> s.(retried := s.retried || (exit.Fault? && exit.late)) == s;
  }

  lemma WatchRunCore(s: Sup, e: nat, exit: Exit)
    requires Core(s) && TaskEnabled(s, WatchRuns(e, exit))
    ensures Core(WatchRun(s, e, exit)) && Grows(s, WatchRun(s, e, exit))
  {
    if s.emu != Some(e) || !Active(s) {
      WatchedCore(s, e, Ignored);
    } else {
      WatchDecides(s, e, exit);
      if MayRetry(s, exit) {
        RetryCore(s, e);
      } else {
        WatchStopsCore(s, e, exit.Fault? && exit.late);
      }
    }
  }

  lemma QemuExitsCore(s: Sup, e: nat)
    requires Core(s) && TaskEnabled(s, QemuExits(e))
    ensures Core(Killed(s, e)) && Grows(s, Killed(s, e))
  {
  }

  lemma RunTaskCore(s: Sup, step: Step)
    requires Core(s) && TaskEnabled(s, step)
    ensures Core(RunTask(s, step)) && Grows(s, RunTask(s, step))
  {
    match step {
      case BootRuns(b) =>
        match s.boots.Get(b).phase {
          case AwaitPrevious(_) => ClearingCore(s, b);
          case Clearing(_) => ClearingCore(s, b);
          case Connecting => BootingCore(s, b);
          case Booting => BootingCore(s, b);
          case _ => LaunchCore(s, b);
        }
      case BootFails(b, internal) =>
        if s.boots.Get(b).phase.Spawning? {
          LaunchFailCore(s, b, internal);
        } else {
          BootFailCore(s, b, internal);
        }
      case BootUnwinds(b) =>
        if b < |s.boots.past| {
          PastUnwindCore(s, b);
        } else {
          BootUnwindCore(s, b);
        }
      case StopRuns(t) =>
        match s.stops.Get(t).phase {
          case AwaitBoot => StopWaitsCore(s, t);
          case Tearing(StopEmulator) => StopKillsCore(s, t);
          case Tearing(CloseGrpc) => StopClosesCore(s, t);
          case Tearing(StopXvnc) => StopEndsCore(s, t);
        }
      case WatchRuns(e, exit) => WatchRunCore(s, e, exit);
      case QemuExits(e) => QemuExitsCore(s, e);
    }
  }

  // Callers

  /** What callers wait for never goes away. */
  lemma CallersFrame(d: Daemon, s: Sup)
    requires CallersInv(d) && Grows(d.sup, s)
    ensures CallersInv(d.(sup := s))
  {
    assert forall k :: 0 <= k < |d.callers| ==> CallerInv(d.sup, d.callers[k]) ==> CallerInv(s, d.callers[k]);
  }

  lemma SetCallerInv(d: Daemon, k: nat, phase: CallerPhase)
    requires CallersInv(d) && k < |d.callers| && !d.callers[k].phase.Left? && !phase.Left?
    requires CallerInv(d.sup, d.callers[k].(phase := phase))
    ensures CallersInv(SetCaller(d, k, phase))
  {
    OpenLeasesUpdate(d.callers, k, d.callers[k].(phase := phase));
  }

  lemma LeaveInv(d: Daemon, k: nat, ok: bool)
    requires CallersInv(d) && k < |d.callers| && !d.callers[k].phase.Left?
    ensures CallersInv(Leave(d, k, ok))
  {
    OpenLeasesUpdate(d.callers, k, d.callers[k].(phase := Left(ok)));
  }

  lemma EnterInv(d: Daemon, lease: bool, wait: bool)
    requires CallersInv(d) && (lease ==> wait)
    ensures CallersInv(Enter(d, lease, wait))
  {
    OpenLeasesAppend(d.callers, Caller(lease, wait, Again));
  }

  lemma JoinInv(d: Daemon, k: nat)
    requires CallersInv(d) && d.sup.answers.now.Some? && k < |d.callers| && !d.callers[k].phase.Left?
    ensures CallersInv(Join(d, k))
  {
    if d.callers[k].wait {
      SetCallerInv(d, k, AwaitAnswer(|d.sup.answers.past|));
    } else {
      LeaveInv(d, k, true);
    }
  }

  lemma ArriveInv(d: Daemon, k: nat)
    requires CallersInv(d) && k < |d.callers| && !d.callers[k].phase.Left?
    ensures CallersInv(Arrive(d, k))
  {
    if d.callers[k].lease && d.sup.grpc {
      SetCallerInv(d, k, Body);
    } else {
      LeaveInv(d, k, !d.callers[k].lease);
    }
  }

  lemma TryStartInv(d: Daemon, k: nat)
    requires Inv(d) && k < |d.callers| && !d.callers[k].phase.Left?
    ensures Inv(TryStart(d, k))
  {
    if d.sup.closing {
      LeaveInv(d, k, false);
    } else {
      match d.sup.state
      case Running => ArriveInv(d, k);
      case Stopping => SetCallerInv(d, k, if d.callers[k].wait then AwaitStop(|d.sup.stops.past|) else Again);
      case Stopped =>
        BeginBootCore(d.sup);
        CallersFrame(d, BeginBoot(d.sup));
        JoinInv(d.(sup := BeginBoot(d.sup)), k);
      case Starting => JoinInv(d, k);
    }
  }

  /** The invariant holds again after every step that can happen. */
  lemma ApplyInv(d: Daemon, step: Step)
    requires Inv(d) && Enabled(d, step)
    ensures Inv(Apply(d, step))
  {
    if IsTask(step) {
      RunTaskCore(d.sup, step);
      CallersFrame(d, RunTask(d.sup, step));
    } else if step.Resume? || step.GiveUp? || step.LeaseEnds? {
      CallerInvHolds(d, step);
    } else if step.Start? || step.Restart? || step.Wait? || step.Lease? {
      RequestInv(d, step);
    } else {
      StopLikeInv(d, step);
    }
  }

  lemma CallerInvHolds(d: Daemon, step: Step)
    requires Inv(d) && Enabled(d, step) && (step.Resume? || step.GiveUp? || step.LeaseEnds?)
    ensures Inv(Apply(d, step))
  {
    match step {
      case GiveUp(k) => LeaveInv(d, k, false);
      case LeaseEnds(k) => LeaveInv(d, k, true);
      case Resume(k) =>
        match d.callers[k].phase {
          case AwaitAnswer(f) =>
            ArriveInv(d, k);
            LeaveInv(d, k, false);
          case _ => TryStartInv(d, k);
        }
    }
  }

  lemma RequestInv(d: Daemon, step: Step)
    requires Inv(d) && (step.Start? || step.Restart? || step.Wait? || step.Lease?)
    ensures Inv(Apply(d, step))
  {
    var k := |d.callers|;
    match step {
      case Start(wait) =>
        EnterInv(d, false, wait);
        TryStartInv(Enter(d, false, wait), k);
      case Restart(wait) =>
        StopRequestCore(d.sup);
        CallersFrame(d, StopRequest(d.sup));
        var d := d.(sup := StopRequest(d.sup));
        EnterInv(d, false, wait);
        TryStartInv(Enter(d, false, wait), k);
      case Wait =>
        EnterInv(d, false, true);
        var r := Enter(d, false, true);
        LeaveInv(r, k, d.sup.state.Running?);
        if d.sup.state.Starting? {
          JoinInv(r, k);
        }
      case Lease(wake) =>
        EnterInv(d, true, true);
        var r := Enter(d, true, true);
        TryStartInv(r, k);
        ArriveInv(r, k);
        LeaveInv(r, k, false);
    }
  }

  lemma ShutdownCore(s: Sup)
    requires Core(s) && !Active(s)
    ensures Core(s.(closing := true))
  {
  }

  lemma EveryCore(s: Sup, interval: nat)
    requires Core(s)
    ensures Core(Register(s, interval))
  {
  }

  lemma StopLikeCore(d: Daemon, step: Step)
    requires Core(d.sup) && (step.Stop? || step.Shutdown? || step.Every? || step.IdleCheck?) && Enabled(d, step)
    ensures Core(Apply(d, step).sup) && Grows(d.sup, Apply(d, step).sup)
  {
    if step.Every? {
      EveryCore(d.sup, step.interval);
    } else {
      StopRequestCore(d.sup);
      if step.Shutdown? {
        ShutdownCore(StopRequest(d.sup));
      }
    }
  }

  lemma StopLikeInv(d: Daemon, step: Step)
    requires Inv(d) && (step.Stop? || step.Shutdown? || step.Every? || step.IdleCheck?) && Enabled(d, step)
    ensures Inv(Apply(d, step))
  {
    StopLikeCore(d, step);
    CallersFrame(d, Apply(d, step).sup);
  }
}
