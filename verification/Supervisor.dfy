/** The supervisor as an object: its methods update the fields as `Supervisor` does between two
    awaits, and each is proved to take exactly the step that Machine describes. */
module Supervisor {
  import opened Wrappers
  import opened Machine

  class Supervisor {
    var state: State
    var answers: Line<Answer>
    var boots: Line<Boot>
    var stops: Line<StopTask>
    var qemus: Line<Qemu>
    var emu: Option<nat>
    var watcher: Option<nat>
    var grpc: bool
    var retried: bool
    var closing: bool
    var jobs: seq<nat>
    var jobTasks: seq<nat>
    var leases: int
    var callers: seq<Caller>
    ghost var begins: nat

    ghost function Sup(): Sup
      reads this
    {
      Machine.Sup.Sup(state, answers, boots, stops, qemus, emu, watcher, grpc, retried, closing, jobs, jobTasks, begins)
    }

    ghost function Model(): Daemon
      reads this
    {
      Daemon(Sup(), leases, callers)
    }

    constructor ()
      ensures Model() == INITIAL && Inv(Model())
    {
      state, answers, boots, stops, qemus := Stopped, Empty(), Empty(), Empty(), Empty();
      emu, watcher, grpc := None, None, false;
      retried, closing, jobs, jobTasks := false, false, [], [];
      leases, callers, begins := 0, [], 0;
    }

    method StartBoot()
      modifies this`state, this`retried, this`answers, this`boots, this`begins
      ensures Sup() == BeginBoot(old(Sup()))
    {
      state := Starting;
      retried := false;
      answers := answers.Push(Pending);
      boots := boots.Push(Boot(Preparing, false));
      begins := begins + 1;
    }

    method CancelAllJobs()
      modifies this`jobTasks
      ensures jobTasks == []
    {
      jobTasks := [];
    }

    method CancelCurrentBoot(current: Option<nat>)
      modifies this`boots
      ensures Sup() == CancelBoot(old(Sup()), current)
    {
      if boots.now.Some? && !boots.now.value.phase.BootEnded? && boots.Newest() != current {
        boots := boots.(now := Some(boots.now.value.(cancelled := true)));
      }
    }

    method StopAndroid(current: Option<nat>)
      modifies this`state, this`jobTasks, this`boots, this`stops
      ensures Sup() == BeginStop(old(Sup()), current)
    {
      state := Stopping;
      CancelAllJobs();
      assert Sup() == CancelJobs(old(Sup()).(state := Stopping));
      CancelCurrentBoot(current);
      stops := stops.Push(StopTask(boots.Newest(), answers.Newest(), AwaitBoot));
    }

    method StopIfActive()
      modifies this`state, this`jobTasks, this`boots, this`stops
      ensures Sup() == StopRequest(old(Sup()))
    {
      if state == Starting || state == Running {
        StopAndroid(None);
      }
    }

    method BootOnceMore()
      requires boots.now.Some?
      modifies this`state, this`jobTasks, this`boots, this`answers, this`retried
      ensures Sup() == Retry(old(Sup()))
    {
      var previous := |boots.past|;
      DropBoot();
      if answers.now != Some(Pending) {
        answers := answers.Push(Pending);
      }
      boots := boots.Push(Boot(AwaitPrevious(previous), false));
    }

    method DropBoot()
      modifies this`retried, this`jobTasks, this`boots, this`state
      ensures Sup() == CancelBoot(CancelJobs(old(Sup()).(retried := true)), None).(state := Starting)
    {
      retried := true;
      CancelAllJobs();
      CancelCurrentBoot(None);
      state := Starting;
    }

    /** `set_result` or `set_exception` on a future that nobody has settled. */
    method SettleAnswer(f: nat, answer: Answer)
      requires IsPending(Sup(), f)
      modifies this`answers
      ensures Sup() == Settle(old(Sup()), f, answer)
    {
      answers := answers.Put(f, answer);
    }

    method TearDown(tear: Tear)
      modifies this
      ensures Model() == old(Model()).(sup := Torn(old(Sup()), tear))
    {
      match tear
      case StopEmulator =>
        if watcher.Some? {
          var e := watcher.value;
          if qemus.Has(e) && qemus.Get(e).watch.Waiting? {
            qemus := qemus.Put(e, qemus.Get(e).(watch := Cancelled));
          }
        }
        watcher := None;
      case CloseGrpc =>
        grpc := false;
      case StopXvnc =>
        emu := None;
    }

    method ContinueBoot(b: nat)
      requires Core(Sup()) && TaskEnabled(Sup(), BootRuns(b))
      modifies this
      ensures Model() == old(Model()).(sup := BootRun(old(Sup()), b))
    {
      BootIsNewest(Sup(), b);
      var phase := boots.Get(b).phase;
      if phase.AwaitPrevious? {
        SetPhase(b, Clearing(StopEmulator));
      } else if phase.Clearing? {
        ClearLeftovers(b, phase.tear);
      } else {
        Launch(b);
      }
    }

    method ClearLeftovers(b: nat, tear: Tear)
      requires boots.Has(b) && boots.Get(b).phase == Clearing(tear)
      modifies this
      ensures Model() == old(Model()).(sup := BootRun(old(Sup()), b))
    {
      TearDown(tear);
      SetPhase(b, match tear case StopEmulator => Clearing(CloseGrpc) case CloseGrpc => Clearing(StopXvnc) case StopXvnc => Preparing);
    }

    /** The segments of `_launch`, and the end of `_boot`. */
    method Launch(b: nat)
      requires boots.Has(b) && !boots.Get(b).phase.AwaitPrevious? && !boots.Get(b).phase.Clearing?
      requires boots.Get(b).phase.Booting? ==> answers.now == Some(Pending)
      requires boots.Get(b).phase.Spawning? ==> qemus.Has(boots.Get(b).phase.child)
      modifies this
      ensures Model() == old(Model()).(sup := BootRun(old(Sup()), b))
    {
      match boots.Get(b).phase
      case Preparing =>
        SetPhase(b, Spawning(qemus.Size()));
        qemus := qemus.Push(Qemu(true, Unwatched));
      case Spawning(e) => Hold(b, e);
      case Connecting =>
        grpc := true;
        SetPhase(b, Booting);
      case Booting => BecomeReady(b);
      case BootEnded =>
    }

    method Hold(b: nat, e: nat)
      requires boots.Has(b) && boots.Get(b).phase == Spawning(e) && qemus.Has(e)
      modifies this`emu, this`watcher, this`qemus, this`boots
      ensures Sup() == BootRun(old(Sup()), b)
    {
      emu, watcher := Some(e), Some(e);
      qemus := qemus.Put(e, qemus.Get(e).(watch := Waiting));
      SetPhase(b, Connecting);
    }

    method BecomeReady(b: nat)
      requires boots.Has(b) && boots.Get(b).phase.Booting? && answers.now == Some(Pending)
      modifies this`state, this`answers, this`jobTasks, this`boots
      ensures Sup() == BootRun(old(Sup()), b)
    {
      state := State.Running;
      SettleAnswer(|answers.past|, Succeeded);
      jobTasks := jobTasks + jobs;
      SetPhase(b, BootEnded);
    }

    method SetPhase(b: nat, phase: BootPhase)
      requires boots.Has(b)
      modifies this`boots
      ensures Sup() == AtPhase(old(Sup()), b, phase)
    {
      boots := boots.Put(b, boots.Get(b).(phase := phase));
    }

    method KillChild(phase: BootPhase)
      modifies this`qemus
      ensures Sup() == DropChild(old(Sup()), phase)
    {
      if phase.Spawning? && qemus.Has(phase.child) {
        qemus := qemus.Put(phase.child, qemus.Get(phase.child).(live := false));
      }
    }

    /** A failure of the boot; `internal` for an exception that nobody expected. */
    method FailBoot(b: nat, internal: bool)
      requires boots.Has(b)
      modifies this
      ensures Model() == old(Model()).(sup := BootFail(old(Sup()), b, internal))
    {
      KillChild(boots.Get(b).phase);
      if internal || emu.None? || (qemus.Has(emu.value) && qemus.Get(emu.value).live) {
        StopAndroid(Some(b));
      }
      SetPhase(b, BootEnded);
    }

    method ContinueStop(t: nat)
      requires stops.Has(t)
      modifies this
      ensures Model() == old(Model()).(sup := StopRun(old(Sup()), t))
    {
      match stops.Get(t).phase
      case AwaitBoot => stops := stops.Put(t, stops.Get(t).(phase := Tearing(StopEmulator)));
      case Tearing(tear) =>
        TearDown(tear);
        if tear == StopXvnc {
          EndStop(t);
        } else {
          stops := stops.Put(t, stops.Get(t).(phase := Tearing(if tear == StopEmulator then CloseGrpc else StopXvnc)));
        }
      case StopEnded =>
    }

    method EndStop(t: nat)
      requires stops.Has(t)
      modifies this
      ensures Model() == old(Model()).(sup := FinishStop(old(Sup()), t))
    {
      state := Stopped;
      var done := stops.Get(t).done;
      if done.Some? && answers.Has(done.value) && answers.Get(done.value).Pending? {
        SettleAnswer(done.value, Failed);
      }
      stops := stops.Put(t, stops.Get(t).(phase := StopEnded));
    }

    method SeeExit(e: nat, exit: Exit)
      requires qemus.Has(e) && boots.now.Some?
      modifies this`state, this`jobTasks, this`boots, this`stops, this`answers, this`retried, this`qemus
      ensures Sup() == WatchRun(old(Sup()), e, exit)
    {
      if emu == Some(e) && (state == Starting || state == Running) {
        var verdict := Exited(exit);
        Judge(e, verdict);
      } else {
        Judge(e, Ignored);
      }
    }

    method Judge(e: nat, verdict: Watch)
      requires qemus.Has(e)
      modifies this`qemus
      ensures Sup() == Watched(old(Sup()), e, verdict)
    {
      qemus := qemus.Put(e, qemus.Get(e).(watch := verdict));
    }

    /** The decision about an exit: stop, or boot once more. */
    method Exited(exit: Exit) returns (verdict: Watch)
      requires boots.now.Some?
      modifies this`state, this`jobTasks, this`boots, this`stops, this`answers, this`retried
      ensures verdict == (if Retriable(old(Sup()), exit) then Retries else Stops)
      ensures Sup() ==
              if Retriable(old(Sup()), exit) then Retry(old(Sup()))
              else BeginStop(if exit.Fault? && exit.late then old(Sup()).(retried := true) else old(Sup()), None)
    {
      if exit.Crash? && !exit.fatalLine && !retried && (state == Starting || exit.recent) {
        BootOnceMore();
        return Retries;
      }
      if exit.Fault? && exit.late {
        retried := true;
      }
      StopAndroid(None);
      return Stops;
    }

    static predicate Retriable(s: Sup, exit: Exit) {
      exit.Crash? && !exit.fatalLine && !s.retried && (s.state.Starting? || exit.recent)
    }

    // Callers

    method MoveCaller(k: nat, phase: CallerPhase)
      requires k < |callers|
      modifies this`callers
      ensures Model() == SetCaller(old(Model()), k, phase)
    {
      callers := callers[k := callers[k].(phase := phase)];
    }

    method EnterCaller(lease: bool, wait: bool)
      modifies this`callers, this`leases
      ensures Model() == Enter(old(Model()), lease, wait)
    {
      if lease {
        leases := leases + 1;
      }
      callers := callers + [Caller(lease, wait, Again)];
    }

    method LeaveCaller(k: nat, ok: bool)
      requires k < |callers|
      modifies this`callers, this`leases
      ensures Model() == Leave(old(Model()), k, ok)
    {
      if callers[k].lease {
        leases := leases - 1;
      }
      MoveCaller(k, Left(ok));
    }

    method ArriveCaller(k: nat)
      requires k < |callers|
      modifies this`callers, this`leases
      ensures Model() == Arrive(old(Model()), k)
    {
      if callers[k].lease && grpc {
        MoveCaller(k, Body);
      } else {
        LeaveCaller(k, !callers[k].lease);
      }
    }

    method JoinBoot(k: nat)
      requires k < |callers| && answers.now.Some?
      modifies this`callers, this`leases
      ensures Model() == Join(old(Model()), k)
    {
      if callers[k].wait {
        MoveCaller(k, AwaitAnswer(|answers.past|));
      } else {
        LeaveCaller(k, true);
      }
    }

    /** One turn of the loop of `_start`. */
    method StartTurn(k: nat)
      requires k < |callers| && Ids(Sup())
      modifies this
      ensures Model() == TryStart(old(Model()), k)
    {
      if closing {
        LeaveCaller(k, false);
        return;
      }
      match state
      case Running => ArriveCaller(k);
      case Stopping => MoveCaller(k, if callers[k].wait then AwaitStop(|stops.past|) else Again);
      case Stopped =>
        StartBoot();
        JoinBoot(k);
      case Starting => JoinBoot(k);
    }

    /** Everything that can happen, one atomic step at a time. */
    method Perform(step: Step)
      requires Inv(Model()) && Enabled(Model(), step)
      modifies this
      ensures Model() == Apply(old(Model()), step)
      ensures Inv(Model())
    {
      ApplyInv(Model(), step);
      if IsTask(step) {
        PerformTask(step);
      } else {
        PerformRequest(step);
      }
    }

    method PerformTask(step: Step)
      requires Core(Sup()) && TaskEnabled(Sup(), step)
      modifies this
      ensures Model() == old(Model()).(sup := RunTask(old(Sup()), step))
    {
      match step
      case BootRuns(b) => ContinueBoot(b);
      case BootFails(b, internal) => FailBoot(b, internal);
      case BootUnwinds(b) =>
        KillChild(boots.Get(b).phase);
        SetPhase(b, BootEnded);
      case StopRuns(t) => ContinueStop(t);
      case WatchRuns(e, exit) => SeeExit(e, exit);
      case QemuExits(e) => qemus := qemus.Put(e, qemus.Get(e).(live := false));
    }

    method PerformRequest(step: Step)
      requires Inv(Model()) && Enabled(Model(), step) && !IsTask(step)
      modifies this
      ensures Model() == Apply(old(Model()), step)
    {
      if step.Resume? {
        ResumeCall(step.k);
      } else if step.GiveUp? {
        LeaveCaller(step.k, false);
      } else if step.LeaseEnds? {
        LeaveCaller(step.k, true);
      } else if step.Start? || step.Restart? || step.Wait? || step.Lease? {
        Call(step);
      } else {
        Command(step);
      }
    }

    method ResumeCall(k: nat)
      requires Inv(Model()) && Enabled(Model(), Resume(k))
      modifies this
      ensures Model() == Apply(old(Model()), Resume(k))
    {
      if callers[k].phase.AwaitAnswer? {
        if answers.Get(callers[k].phase.answer).Succeeded? {
          ArriveCaller(k);
        } else {
          LeaveCaller(k, false);
        }
      } else {
        StartTurn(k);
      }
    }

    /** The requests that somebody waits for. */
    method RestartCall(wait: bool)
      requires Inv(Model())
      modifies this
      ensures Model() == Apply(old(Model()), Restart(wait))
    {
      StopRequestCore(Sup());
      ghost var stopped := Model().(sup := StopRequest(Sup()));
      StopIfActive();
      assert Model() == stopped;
      var k := |callers|;
      EnterCaller(false, wait);
      StartTurn(k);
    }

    method Call(step: Step)
      requires Inv(Model()) && (step.Start? || step.Restart? || step.Wait? || step.Lease?)
      modifies this
      ensures Model() == Apply(old(Model()), step)
    {
      var k := |callers|;
      match step
      case Start(wait) =>
        EnterCaller(false, wait);
        StartTurn(k);
      case Restart(wait) => RestartCall(wait);
      case Wait =>
        EnterCaller(false, true);
        if state == Starting {
          JoinBoot(k);
        } else {
          LeaveCaller(k, state == Running);
        }
      case Lease(wake) =>
        EnterCaller(true, true);
        if wake {
          StartTurn(k);
        } else if state == Running {
          ArriveCaller(k);
        } else {
          LeaveCaller(k, false);
        }
    }

    method Command(step: Step)
      requires Inv(Model()) && (step.Stop? || step.Shutdown? || step.Every? || step.IdleCheck?)
      modifies this
      ensures Model() == Apply(old(Model()), step)
    {
      match step
      case Stop => StopIfActive();
      case Shutdown => ShutDown();
      case Every(interval) => RegisterJob(interval);
      case IdleCheck(limited, expired) =>
        if !limited || leases != 0 || state != Running {
          return;
        }
        if expired {
          StopAndroid(None);
        }
    }

    method ShutDown()
      modifies this`closing, this`state, this`jobTasks, this`boots, this`stops
      ensures Sup() == StopRequest(old(Sup())).(closing := true)
    {
      closing := true;
      assert Sup() == old(Sup()).(closing := true);
      StopIfActive();
    }

    method RegisterJob(interval: nat)
      modifies this`jobs, this`jobTasks
      ensures Sup() == Register(old(Sup()), interval)
    {
      jobs := jobs + [interval];
      if state == Running {
        jobTasks := jobTasks + [interval];
      }
    }
  }
}
