/** The native host as the object whose handlers the editor calls. */
module DispatchMachine {
  import opened Text
  import opened Dispatch

  class ObjectArxBridge {
    var live: bool
    ghost var serial: nat
    var kind: Kind
    var phase: Phase
    var lifecycle: Lifecycle
    var lispDepth: nat
    var outstanding: int
    var acceptWakes: bool
    ghost var world: World

    ghost function State(): System
      reads this
    {
      System(Host(if live then Some(DocContextDispatch(serial, kind, phase, lifecycle, lispDepth)) else None,
                  outstanding, acceptWakes), world)
    }

    /** Callbacks are counted, and each action is completed once unless it is the live dispatch. */
    ghost predicate Valid()
      reads this
    {
      Inv(State())
    }

    constructor ()
      ensures Valid() && State() == AtStart
    {
      live, serial, kind, phase, lifecycle, lispDepth := false, 0, HistoryCommand, Queued, AwaitingStart, 0;
      outstanding, acceptWakes := 0, true;
      world := AtStart.world;
    }

    method ScheduleDocumentContextFinalizer(scheduled: bool)
      modifies this
      ensures State() == ScheduleFinalizer(old(State()), scheduled)
    {
      if !live {
        return;
      }
      phase := Finalizing;
      world := world.(scheduled := world.scheduled + multiset{serial});
      if scheduled {
        world := world.(finalizers := world.finalizers + 1);
        return;
      }
      live := false;
      world := world.(completed := world.completed + multiset{serial});
      outstanding := outstanding - 1;
    }

    method ScheduleExecutionDispatchFinalizer(scheduled: bool)
      modifies this
      ensures State() == ScheduleDriverFinalizer(old(State()), scheduled)
    {
      if !live || kind != ExecDriver {
        return;
      }
      lifecycle := DriverFinalizing;
      ScheduleDocumentContextFinalizer(scheduled);
    }

    method FailExecutionDriver(scheduled: bool)
      modifies this
      ensures State() == FailDriver(old(State()), scheduled)
    {
      if !live || kind != ExecDriver || phase == Finalizing {
        return;
      }
      ScheduleExecutionDispatchFinalizer(scheduled);
    }

    method RecoverCancelledExecutionDriver(r: Recovery, scheduled: bool)
      modifies this
      ensures State() == RecoverDriver(old(State()), r, scheduled)
    {
      if !live || kind != ExecDriver || phase == Finalizing {
        return;
      }
      if r.contextLost || !r.recorded {
        ScheduleExecutionDispatchFinalizer(scheduled);
        return;
      }
      phase, lifecycle, lispDepth := Queued, AwaitingStart, 0;
      if !r.sent {
        ScheduleExecutionDispatchFinalizer(scheduled);
      }
    }

    method QueuedExecutionDriverStarted(expected: bool, scheduled: bool)
      modifies this
      ensures State() == DriverStarted(old(State()), expected, scheduled)
      ensures old(Valid()) ==> Valid()
    {
      if Valid() {
        StartedKeeps(State(), expected, scheduled);
      }
      if !live || (phase != Queued && phase != Running) || kind != ExecDriver {
        return;
      }
      if lifecycle != AwaitingStart {
        if lifecycle == EndedDuringCallback || lifecycle == DriverFinalizing {
          return;
        }
        if lispDepth == MAX_LISP_DEPTH {
          FailExecutionDriver(scheduled);
          return;
        }
        lispDepth := lispDepth + 1;
        return;
      }
      if !expected {
        return;
      }
      lifecycle, lispDepth := DriverRunning, 1;
    }

    method QueuedExecutionDriverTerminated(cancelled: bool, r: Recovery, scheduled: bool)
      modifies this
      ensures State() == DriverTerminated(old(State()), cancelled, r, scheduled)
      ensures old(Valid()) ==> Valid()
    {
      if Valid() {
        TerminatedKeeps(State(), cancelled, r, scheduled);
      }
      if !live || (phase != Queued && phase != Running) || kind != ExecDriver
         || lifecycle == AwaitingStart || lifecycle == DriverFinalizing {
        return;
      }
      if cancelled {
        RecoverCancelledExecutionDriver(r, scheduled);
        return;
      }
      if lispDepth > 1 {
        lispDepth := lispDepth - 1;
        return;
      }
      lispDepth := 0;
      if lifecycle == InCallback {
        lifecycle := EndedDuringCallback;
      } else if lifecycle == AwaitingEnd {
        ScheduleExecutionDispatchFinalizer(scheduled);
      } else {
        FailExecutionDriver(scheduled);
      }
    }

    method EnterAdvance(scheduled: bool)
      modifies this
      ensures State() == AdvanceBegins(old(State()), scheduled)
      ensures old(Valid()) ==> Valid()
    {
      if Valid() {
        AdvanceBeginsKeeps(State(), scheduled);
      }
      if !live || (phase != Queued && phase != Running) || kind != ExecDriver {
        return;
      }
      if lifecycle == AwaitingStart {
        lifecycle, lispDepth := DriverRunning, 1;
      }
      if lifecycle != DriverRunning {
        FailExecutionDriver(scheduled);
        return;
      }
      phase, lifecycle := Running, InCallback;
    }

    method FinishAdvanceCallback(completion: AdvanceCompletion, scheduled: bool)
      modifies this
      ensures State() == AdvanceEnds(old(State()), completion, scheduled)
      ensures old(Valid()) ==> Valid()
    {
      if Valid() {
        AdvanceEndsKeeps(State(), completion, scheduled);
      }
      if !live || kind != ExecDriver || phase == Finalizing {
        return;
      }
      if lifecycle == EndedDuringCallback {
        if completion == ExitReady {
          ScheduleExecutionDispatchFinalizer(scheduled);
        } else {
          FailExecutionDriver(scheduled);
        }
      } else if lifecycle == InCallback {
        lifecycle := if completion == ExitReady then AwaitingEnd else DriverRunning;
      } else {
        FailExecutionDriver(scheduled);
      }
    }

    method QueuedHistoryCommandTerminated(expected: bool, scheduled: bool)
      modifies this
      ensures State() == HistoryTerminated(old(State()), expected, scheduled)
      ensures old(Valid()) ==> Valid()
    {
      if Valid() {
        HistoryKeeps(State(), expected, scheduled);
      }
      if !live || phase != Queued || kind == ExecDriver || !expected {
        return;
      }
      ScheduleDocumentContextFinalizer(scheduled);
    }

    method ActionTargetWillBeDestroyed(isTarget: bool, scheduled: bool)
      modifies this
      ensures State() == TargetDestroyed(old(State()), isTarget, scheduled)
      ensures old(Valid()) ==> Valid()
    {
      if Valid() {
        HistoryKeeps(State(), isTarget, scheduled);
      }
      if !live || phase != Queued || !isTarget {
        return;
      }
      ScheduleDocumentContextFinalizer(scheduled);
    }

    method EnterHistoryCommand()
      modifies this
      ensures State() == HistoryBegins(old(State()))
      ensures old(Valid()) ==> Valid()
    {
      if Valid() {
        HistoryKeeps(State(), false, false);
      }
      if !live || phase != Queued || kind == ExecDriver {
        return;
      }
      phase := Running;
      world := world.(history := Some(serial));
    }

    method FinalizeDocumentContextDispatch()
      requires world.finalizers > 0
      modifies this
      ensures State() == FinalizerRuns(old(State()))
      ensures old(Valid()) ==> Valid()
    {
      world := world.(finalizers := world.finalizers - 1);
      if live && phase == Finalizing {
        live := false;
        world := world.(completed := world.completed + multiset{serial});
      }
      outstanding := outstanding - 1;
      if old(Valid()) {
        assert State() == FinalizerRuns(old(State()));
        FinalizerKeeps(old(State()));
      }
    }

    /** Returns whether a wake is on its way. */
    method WakeNativeActions(accepted: bool) returns (r: bool)
      modifies this
      ensures State() == Wake(old(State()), accepted) && r == (old(acceptWakes) && accepted)
      ensures old(Valid()) ==> Valid()
    {
      if Valid() {
        WakeKeeps(State(), accepted, NoWork);
      }
      outstanding := outstanding + 1;
      if !acceptWakes {
        outstanding := outstanding - 1;
        return false;
      }
      if !accepted {
        outstanding := outstanding - 1;
        return false;
      }
      world := world.(wakes := world.wakes + 1);
      return true;
    }

    method ProcessNextAction(work: Work)
      requires world.wakes > 0
      modifies this
      ensures State() == WakeRuns(old(State()), work)
      ensures old(Valid()) ==> Valid()
    {
      if Valid() {
        WakeKeeps(State(), false, work);
      }
      world := world.(wakes := world.wakes - 1);
      if !work.NoWork? {
        ghost var action := world.issued;
        world := world.(issued := action + 1);
        var queued := false;
        if work.InContext? {
          queued := QueueDocumentContextDispatch(work, action);
        }
        if !queued {
          world := world.(completed := world.completed + multiset{action});
        }
      }
      outstanding := outstanding - 1;
    }

    method QueueDocumentContextDispatch(work: Work, ghost action: nat) returns (queued: bool)
      requires work.InContext?
      modifies this
      ensures world == old(world) && acceptWakes == old(acceptWakes)
      ensures queued == (!old(live) && work.possible && work.sent)
      ensures queued ==> State().host.dispatch == Some(DocContextDispatch(action, work.kind, Queued, AwaitingStart, 0))
                         && outstanding == old(outstanding) + 1
      ensures !queued ==> State() == old(State())
    {
      if live || !work.possible {
        return false;
      }
      live, kind, phase, lifecycle, lispDepth := true, work.kind, Queued, AwaitingStart, 0;
      serial := action;
      outstanding := outstanding + 1;
      if work.sent {
        return true;
      }
      outstanding := outstanding - 1;
      live := false;
      return false;
    }
  }
}
