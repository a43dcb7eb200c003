/**
 The native host: wakes, and dispatches that run in a document's context between the callbacks of the
 editor. Each handler is one step; what the editor answers to a handler's calls is chosen freely.
 */
module Dispatch {
  import opened Text

  datatype Kind = ExecDriver | HistoryCommand
  datatype Phase = Queued | Running | Finalizing
  datatype Lifecycle = AwaitingStart | DriverRunning | InCallback | EndedDuringCallback | AwaitingEnd | DriverFinalizing
  datatype AdvanceCompletion = EvaluateStagedForm | ExitReady | ExitFailed

  const MAX_LISP_DEPTH: nat := 0xffff_ffff

  /** The action of one job on its way through a document's context; `serial` tells actions apart. */
  datatype DocContextDispatch = DocContextDispatch(serial: nat, kind: Kind, phase: Phase, lifecycle: Lifecycle,
                                                   lispDepth: nat)

  datatype Host = Host(dispatch: Option<DocContextDispatch>, outstanding: int, acceptWakes: bool)

  /** What the editor still has to call, and what has become of each action. */
  datatype World = World(
    wakes: nat,
    finalizers: nat,
    history: Option<nat>,  // the action whose command is running
    issued: nat,
    scheduled: multiset<nat>,  // finalizers scheduled, or tried to be
    completed: multiset<nat>)

  datatype System = System(host: Host, world: World)

  const AtStart: System := System(Host(None, 0, true), World(0, 0, None, 0, multiset{}, multiset{}))

  function With(x: System, d: DocContextDispatch): System {
    x.(host := x.host.(dispatch := Some(d)))
  }

  // ----- The end of a dispatch -----

  /** The finalizer is scheduled, or if that fails the job is completed at once. */
  function ScheduleFinalizer(x: System, scheduled: bool): System
  {
    if x.host.dispatch.None? then x
    else
      var d := x.host.dispatch.value;
      var w := x.world.(scheduled := x.world.scheduled + multiset{d.serial});
      if scheduled then System(x.host.(dispatch := Some(d.(phase := Finalizing))), w.(finalizers := w.finalizers + 1))
      else System(x.host.(dispatch := None, outstanding := x.host.outstanding - 1),
                  w.(completed := w.completed + multiset{d.serial}))
  }

  predicate LiveDriver(x: System) {
    x.host.dispatch.Some? && x.host.dispatch.value.kind == ExecDriver && x.host.dispatch.value.phase != Finalizing
  }

  function ScheduleDriverFinalizer(x: System, scheduled: bool): System
  {
    if x.host.dispatch.None? || x.host.dispatch.value.kind != ExecDriver then x
    else ScheduleFinalizer(With(x, x.host.dispatch.value.(lifecycle := DriverFinalizing)), scheduled)
  }

  function FailDriver(x: System, scheduled: bool): System {
    if LiveDriver(x) then ScheduleDriverFinalizer(x, scheduled) else x
  }

  /** What the editor answers while a cancelled driver is recovered. */
  datatype Recovery = Recovery(contextLost: bool, recorded: bool, sent: bool)

  function RecoverDriver(x: System, r: Recovery, scheduled: bool): System
  {
    if !LiveDriver(x) then x
    else if r.contextLost || !r.recorded then ScheduleDriverFinalizer(x, scheduled)
    else
      var y := With(x, x.host.dispatch.value.(phase := Queued, lifecycle := AwaitingStart, lispDepth := 0));
      if r.sent then y else ScheduleDriverFinalizer(y, scheduled)
  }

  // ----- The editor's callbacks -----

  function DriverStarted(x: System, expected: bool, scheduled: bool): System
  {
    if !LiveDriver(x) then x
    else
      var d := x.host.dispatch.value;
      if d.lifecycle != AwaitingStart then
        if d.lifecycle in {EndedDuringCallback, DriverFinalizing} then x
        else if d.lispDepth == MAX_LISP_DEPTH then FailDriver(x, scheduled)
        else With(x, d.(lispDepth := d.lispDepth + 1))
      else if !expected then x
      else With(x, d.(lifecycle := DriverRunning, lispDepth := 1))
  }

  function DriverTerminated(x: System, cancelled: bool, r: Recovery, scheduled: bool): System
  {
    if !LiveDriver(x) || x.host.dispatch.value.lifecycle in {AwaitingStart, DriverFinalizing} then x
    else if cancelled then RecoverDriver(x, r, scheduled)
    else
      var d := x.host.dispatch.value;
      if d.lispDepth > 1 then With(x, d.(lispDepth := d.lispDepth - 1))
      else
        var y := With(x, d.(lispDepth := 0));
        if d.lifecycle == InCallback then With(y, d.(lispDepth := 0, lifecycle := EndedDuringCallback))
        else if d.lifecycle == AwaitingEnd then ScheduleDriverFinalizer(y, scheduled)
        else FailDriver(y, scheduled)
  }

  /** The driver calls in to have the execution advanced. */
  function AdvanceBegins(x: System, scheduled: bool): System
  {
    if !LiveDriver(x) then x
    else
      var d := x.host.dispatch.value;
      var started := if d.lifecycle == AwaitingStart then d.(lifecycle := DriverRunning, lispDepth := 1) else d;
      if started.lifecycle != DriverRunning then FailDriver(With(x, started), scheduled)
      else With(x, started.(phase := Running, lifecycle := InCallback))
  }

  function AdvanceEnds(x: System, completion: AdvanceCompletion, scheduled: bool): System
  {
    if !LiveDriver(x) then x
    else
      var d := x.host.dispatch.value;
      match d.lifecycle
      case EndedDuringCallback =>
        if completion == ExitReady then ScheduleDriverFinalizer(x, scheduled) else FailDriver(x, scheduled)
      case InCallback => With(x, d.(lifecycle := if completion == ExitReady then AwaitingEnd else DriverRunning))
      case _ => FailDriver(x, scheduled)
  }

  function HistoryTerminated(x: System, expected: bool, scheduled: bool): System
  {
    if x.host.dispatch.None? || x.host.dispatch.value.phase != Queued || x.host.dispatch.value.kind == ExecDriver
        || !expected
    then x
    else ScheduleFinalizer(x, scheduled)
  }

  /** The document that a dispatch waits for is going away. */
  function TargetDestroyed(x: System, isTarget: bool, scheduled: bool): System
  {
    if x.host.dispatch.None? || x.host.dispatch.value.phase != Queued || !isTarget then x
    else ScheduleFinalizer(x, scheduled)
  }

  function HistoryBegins(x: System): System
  {
    if x.host.dispatch.None? || x.host.dispatch.value.phase != Queued || x.host.dispatch.value.kind == ExecDriver then x
    else
      var y := With(x, x.host.dispatch.value.(phase := Running));
      y.(world := y.world.(history := Some(x.host.dispatch.value.serial)))
  }

  /** The command returns to the handler that ran it. */
  function HistoryEnds(x: System, scheduled: bool): System
  {
    if x.world.history.None? then x
    else ScheduleFinalizer(x.(world := x.world.(history := None)), scheduled)
  }

  function FinalizerRuns(x: System): System
  {
    if x.world.finalizers == 0 then x
    else
      var y := System(x.host.(outstanding := x.host.outstanding - 1), x.world.(finalizers := x.world.finalizers - 1));
      if y.host.dispatch.None? || y.host.dispatch.value.phase != Finalizing then y
      else System(y.host.(dispatch := None),
                  y.world.(completed := y.world.completed + multiset{y.host.dispatch.value.serial}))
  }

  // ----- Wakes -----

  function Wake(x: System, accepted: bool): System
  {
    if !x.host.acceptWakes || !accepted then x
    else System(x.host.(outstanding := x.host.outstanding + 1), x.world.(wakes := x.world.wakes + 1))
  }

  /** What a wake finds to do. */
  datatype Work =
    | NoWork
    | Direct  // carried out within the wake
    | InContext(kind: Kind, possible: bool, sent: bool)

  function WakeRuns(x: System, work: Work): System
  {
    if x.world.wakes == 0 then x
    else
      var serial := x.world.issued;
      var y := System(x.host.(outstanding := x.host.outstanding - 1), x.world.(wakes := x.world.wakes - 1));
      if work.NoWork? then y
      else
        var z := y.(world := y.world.(issued := serial + 1));
        if work.InContext? && y.host.dispatch.None? && work.possible && work.sent then
          z.(host := z.host.(dispatch := Some(DocContextDispatch(serial, work.kind, Queued, AwaitingStart, 0)),
                             outstanding := z.host.outstanding + 1))
        else z.(world := z.world.(completed := z.world.completed + multiset{serial}))
  }

  // ----- Runs -----

  datatype Event =
    | Wakes(accepted: bool)
    | NoMoreWakes
    | RunsWake(work: Work)
    | StartsDriver(expected: bool, scheduled: bool)
    | EndsDriver(cancelled: bool, recovery: Recovery, scheduled: bool)
    | EntersAdvance(scheduled: bool)
    | LeavesAdvance(completion: AdvanceCompletion, scheduled: bool)
    | TerminatesHistory(expected: bool, scheduled: bool)
    | DestroysDocument(isTarget: bool, scheduled: bool)
    | EntersHistory
    | LeavesHistory(scheduled: bool)
    | RunsFinalizer

  function Handle(x: System, e: Event): System
  {
    match e
    case Wakes(accepted) => Wake(x, accepted)
    case NoMoreWakes => x.(host := x.host.(acceptWakes := false))
    case RunsWake(work) => WakeRuns(x, work)
    case StartsDriver(expected, scheduled) => DriverStarted(x, expected, scheduled)
    case EndsDriver(cancelled, r, scheduled) => DriverTerminated(x, cancelled, r, scheduled)
    case EntersAdvance(scheduled) => AdvanceBegins(x, scheduled)
    case LeavesAdvance(completion, scheduled) => AdvanceEnds(x, completion, scheduled)
    case TerminatesHistory(expected, scheduled) => HistoryTerminated(x, expected, scheduled)
    case DestroysDocument(isTarget, scheduled) => TargetDestroyed(x, isTarget, scheduled)
    case EntersHistory => HistoryBegins(x)
    case LeavesHistory(scheduled) => HistoryEnds(x, scheduled)
    case RunsFinalizer => FinalizerRuns(x)
  }

  function Live(h: Host): nat {
    if h.dispatch.Some? then 1 else 0
  }

  predicate IsLive(h: Host, serial: nat) {
    h.dispatch.Some? && h.dispatch.value.serial == serial
  }

  predicate IsFinalizing(h: Host) {
    h.dispatch.Some? && h.dispatch.value.phase == Finalizing
  }

  /** Callbacks are counted exactly; every action is completed once, unless it is the live dispatch; a
      finalizer is scheduled at most once for each, and is on its way only for a finalizing dispatch. */
  ghost predicate Inv(x: System)
  {
    var h, w := x.host, x.world;
    && h.outstanding == w.wakes + Live(h)
    && w.finalizers == (if IsFinalizing(h) then 1 else 0)
    && (h.dispatch.Some? ==> h.dispatch.value.serial < w.issued)
    && (forall a: nat :: w.completed[a] == if a < w.issued && !IsLive(h, a) then 1 else 0)
    && (forall a: nat :: w.scheduled[a] <=
                         if IsLive(h, a) && !IsFinalizing(h) then 0 else if a < w.issued then 1 else 0)
    && (w.history.Some? ==>
          && IsLive(h, w.history.value) && h.dispatch.value.kind == HistoryCommand
          && h.dispatch.value.phase == Running)
  }

  lemma ScheduleKeeps(x: System, scheduled: bool)
    requires Inv(x) && x.world.history.None? && !IsFinalizing(x.host)
    ensures Inv(ScheduleFinalizer(x, scheduled))
  {
  }

  lemma ChangeKeeps(x: System, d: DocContextDispatch)
    requires Inv(x) && LiveDriver(x) && d.serial == x.host.dispatch.value.serial && d.phase != Finalizing
             && d.kind == ExecDriver
    ensures Inv(With(x, d)) && LiveDriver(With(x, d)) && With(x, d).world.history.None?
  {
  }

  lemma DriverEndKeeps(x: System, scheduled: bool)
    requires Inv(x) && LiveDriver(x)
    ensures Inv(ScheduleDriverFinalizer(x, scheduled)) && Inv(FailDriver(x, scheduled))
  {
    var d := x.host.dispatch.value.(lifecycle := DriverFinalizing);
    ChangeKeeps(x, d);
    ScheduleKeeps(With(x, d), scheduled);
  }

  lemma RecoverKeeps(x: System, r: Recovery, scheduled: bool)
    requires Inv(x) && LiveDriver(x)
    ensures Inv(RecoverDriver(x, r, scheduled))
  {
    var d := x.host.dispatch.value.(phase := Queued, lifecycle := AwaitingStart, lispDepth := 0);
    DriverEndKeeps(x, scheduled);
    ChangeKeeps(x, d);
    DriverEndKeeps(With(x, d), scheduled);
  }

  lemma StartedKeeps(x: System, expected: bool, scheduled: bool)
    requires Inv(x)
    ensures Inv(DriverStarted(x, expected, scheduled))
  {
    if !LiveDriver(x) {
      return;
    }
    var d := x.host.dispatch.value;
    DriverEndKeeps(x, scheduled);
    ChangeKeeps(x, d.(lispDepth := d.lispDepth + 1));
    ChangeKeeps(x, d.(lifecycle := DriverRunning, lispDepth := 1));
  }

  lemma TerminatedKeeps(x: System, cancelled: bool, r: Recovery, scheduled: bool)
    requires Inv(x)
    ensures Inv(DriverTerminated(x, cancelled, r, scheduled))
  {
    if !LiveDriver(x) {
      return;
    }
    var d := x.host.dispatch.value;
    if cancelled {
      RecoverKeeps(x, r, scheduled);
    } else if d.lispDepth > 1 {
      ChangeKeeps(x, d.(lispDepth := d.lispDepth - 1));
    } else {
      var done := d.(lispDepth := 0);
      ChangeKeeps(x, done);
      ChangeKeeps(With(x, done), done.(lifecycle := EndedDuringCallback));
      DriverEndKeeps(With(x, done), scheduled);
    }
  }

  lemma AdvanceBeginsKeeps(x: System, scheduled: bool)
    requires Inv(x)
    ensures Inv(AdvanceBegins(x, scheduled))
  {
    if !LiveDriver(x) {
      return;
    }
    var d := x.host.dispatch.value;
    var started := if d.lifecycle == AwaitingStart then d.(lifecycle := DriverRunning, lispDepth := 1) else d;
    ChangeKeeps(x, started);
    DriverEndKeeps(With(x, started), scheduled);
    ChangeKeeps(x, started.(phase := Running, lifecycle := InCallback));
  }

  lemma AdvanceEndsKeeps(x: System, completion: AdvanceCompletion, scheduled: bool)
    requires Inv(x)
    ensures Inv(AdvanceEnds(x, completion, scheduled))
  {
    if !LiveDriver(x) {
      return;
    }
    var d := x.host.dispatch.value;
    DriverEndKeeps(x, scheduled);
    ChangeKeeps(x, d.(lifecycle := if completion == ExitReady then AwaitingEnd else DriverRunning));
  }

  lemma HistoryKeeps(x: System, expected: bool, scheduled: bool)
    requires Inv(x)
    ensures Inv(HistoryTerminated(x, expected, scheduled)) && Inv(HistoryBegins(x)) && Inv(HistoryEnds(x, scheduled))
    ensures Inv(TargetDestroyed(x, expected, scheduled))
  {
    if x.world.history.Some? {
      ScheduleKeeps(x.(world := x.world.(history := None)), scheduled);
    } else if !IsFinalizing(x.host) {
      ScheduleKeeps(x, scheduled);
    }
  }

  lemma FinalizerKeeps(x: System)
    requires Inv(x)
    ensures Inv(FinalizerRuns(x))
  {
  }

  lemma WakeKeeps(x: System, accepted: bool, work: Work)
    requires Inv(x)
    ensures Inv(Wake(x, accepted)) && Inv(WakeRuns(x, work))
  {
  }

  lemma HandleKeeps(x: System, e: Event)
    requires Inv(x)
    ensures Inv(Handle(x, e))
  {
    match e
    case Wakes(accepted) => WakeKeeps(x, accepted, NoWork);
    case NoMoreWakes =>
    case RunsWake(work) => WakeKeeps(x, false, work);
    case TerminatesHistory(expected, scheduled) => HistoryKeeps(x, expected, scheduled);
    case DestroysDocument(isTarget, scheduled) => HistoryKeeps(x, isTarget, scheduled);
    case EntersHistory => HistoryKeeps(x, false, false);
    case LeavesHistory(scheduled) => HistoryKeeps(x, false, scheduled);
    case RunsFinalizer => FinalizerKeeps(x);
    case StartsDriver(expected, scheduled) => StartedKeeps(x, expected, scheduled);
    case EndsDriver(cancelled, r, scheduled) => TerminatedKeeps(x, cancelled, r, scheduled);
    case EntersAdvance(scheduled) => AdvanceBeginsKeeps(x, scheduled);
    case LeavesAdvance(completion, scheduled) => AdvanceEndsKeeps(x, completion, scheduled);
  }

  function After(x: System, events: seq<Event>): System
    decreases |events|
  {
    if events == [] then x else After(Handle(x, events[0]), events[1..])
  }

  lemma {:induction false} AfterKeeps(x: System, events: seq<Event>)
    requires Inv(x)
    ensures Inv(After(x, events))
    decreases |events|
  {
    if events != [] {
      HandleKeeps(x, events[0]);
      AfterKeeps(Handle(x, events[0]), events[1..]);
    }
  }

  /** Under every order of callbacks: the count of outstanding callbacks is that of the wakes not yet
      run and the live dispatch, and each action is completed at most once, its finalizer scheduled at
      most once; without a live dispatch, every action has been completed. */
  lemma CallbacksCounted(events: seq<Event>)
    ensures var x := After(AtStart, events);
            && x.host.outstanding == x.world.wakes + Live(x.host)
            && (forall a: nat :: x.world.completed[a] <= 1 && x.world.scheduled[a] <= 1)
            && (forall a: nat | a < x.world.issued :: x.world.completed[a] == 1 <==> !IsLive(x.host, a))
            && (x.host.outstanding == 0 ==>
                  x.world.finalizers == 0 && forall a: nat | a < x.world.issued :: x.world.completed[a] == 1)
  {
    AfterKeeps(AtStart, events);
  }
}
