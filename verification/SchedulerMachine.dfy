/** The mutation scheduler as the object behind its lock. */
module SchedulerMachine {
  import opened Text
  import opened Exec
  import opened Operations
  import opened Scheduler
  import opened SchedulerRuns

  class MutationScheduler {
    var drawings: Registry
    var pending: seq<Job>
    var active: Option<Job>
    var wakePending: bool
    var stopping: bool
    var quarantined: bool
    var nextId: JobId

    function State(): Queue
      reads this
    {
      Queue(drawings, pending, active, wakePending, stopping, quarantined, nextId)
    }

    /** The jobs stand in the order of their ids, within the three bounds; only the head may be other
        than queued, nothing while a job is active, and nothing waits in quarantine. */
    ghost predicate Valid()
      reads this
    {
      QueueOk(State())
    }

    constructor ()
      ensures Valid() && State() == Queue(Registry(map[], map[]), [], None, false, false, false, 1)
    {
      drawings, pending, active := Registry(map[], map[]), [], None;
      wakePending, stopping, quarantined, nextId := false, false, false, 1;
    }

    /** How many executions there are, and the bytes of their sources. */
    method ExecutionUsage() returns (count: nat, bytes: nat)
      ensures count == CountExecutions(Jobs(State())) && bytes == SumSourceBytes(Jobs(State()))
    {
      count, bytes := 0, 0;
      for i := 0 to |pending|
        invariant count + CountExecutions(pending[i..]) == CountExecutions(pending)
        invariant bytes + SumSourceBytes(pending[i..]) == SumSourceBytes(pending)
      {
        assert pending[i..][1..] == pending[i + 1..];
        if pending[i].op.Execute? {
          count, bytes := count + 1, bytes + ByteLen(pending[i].op.exec.source);
        }
      }
      if active.Some? {
        assert ([active.value] + pending)[1..] == pending;
        if active.value.op.Execute? {
          count, bytes := count + 1, bytes + ByteLen(active.value.op.exec.source);
        }
      }
    }

    method ClaimWake() returns (claimed: bool)
      modifies this`wakePending
      ensures State() == RequestWake(old(State())) && claimed == MayWake(old(State()))
      ensures old(Valid()) ==> Valid()
    {
      if Valid() {
        QueueKept(State(), Claims, 0);
      }
      if stopping || quarantined || active.Some? || pending == [] || pending[0].wait.Deferred? || wakePending {
        return false;
      }
      wakePending := true;
      return true;
    }

    method Admit(id: DrawingId, exec: Execution, now: Time) returns (r: Admission, claimed: bool)
      modifies this
      ensures r == AdmitExecution(old(State()), id, exec, now)
      ensures State() == if r.Rejected? then old(State()) else r.queue
      ensures claimed == (!old(wakePending) && wakePending)
      ensures old(Valid()) ==> Valid()
    {
      if Valid() {
        AdmissionKept(State(), id, exec, now);
      }
      if stopping {
        return Rejected(PluginStopping), false;
      }
      if quarantined {
        return Rejected(NativeMutationStateUnknown), false;
      }
      var job := nextId;
      if exec.outcome.Some? {
        nextId := nextId + 1;
        var prepared := Prepare(Execute(id, exec), drawings, Free);
        var result := if prepared.Immediate? then prepared.result else Err(ExecNotFinished);
        return Answered(State(), [Completion(job, result)], result), false;
      }
      if |pending| + (if active.Some? then 1 else 0) >= MAX_MUTATION_JOBS {
        return Rejected(MutationCapacity), false;
      }
      var count, bytes := ExecutionUsage();
      if count >= MAX_ADMITTED_EXECUTIONS || bytes + ByteLen(exec.source) > MAX_ADMITTED_SOURCE_BYTES {
        return Rejected(ExecCapacity), false;
      }
      r, claimed := PushBack(Execute(id, exec), now);
    }

    method SubmitOperation(op: Operation, available: Availability, now: Time) returns (r: Admission, claimed: bool)
      modifies this
      ensures r == Submit(old(State()), op, available, now)
      ensures State() == if r.Rejected? then old(State()) else r.queue
      ensures claimed == (!old(wakePending) && wakePending)
      ensures old(Valid()) && !op.Execute? ==> Valid()
    {
      if Valid() && !op.Execute? {
        QueueKept(State(), Submits(op, available), now);
      }
      if stopping {
        return Rejected(PluginStopping), false;
      }
      if quarantined {
        return Rejected(NativeMutationStateUnknown), false;
      }
      if |pending| + (if active.Some? then 1 else 0) >= MAX_MUTATION_JOBS {
        return Rejected(MutationCapacity), false;
      }
      if active.None? && pending == [] && !wakePending {
        var prepared := Prepare(op, drawings, available);
        if prepared.Immediate? {
          return Answered(State(), [], prepared.result), false;
        }
      }
      r, claimed := PushBack(op, now);
    }

    method PushBack(op: Operation, now: Time) returns (r: Admission, claimed: bool)
      modifies this
      ensures r == Admitted(State(), old(nextId)) && State() == Enqueue(old(State()), op, now)
      ensures claimed == (!old(wakePending) && wakePending)
    {
      var job := nextId;
      nextId := nextId + 1;
      pending := pending + [Job(job, op, None, Queued(now + READINESS_TIMEOUT))];
      claimed := ClaimWake();
      return Admitted(State(), job), claimed;
    }

    /** Ends every waiting job whose time is over, and wakes the head if it is to be retried. */
    method DueTimers(now: Time) returns (expired: seq<Completion>, claimed: bool)
      modifies this
      ensures Ended(State(), expired) == ProcessDueTimers(old(State()), now)
      ensures claimed == (!old(wakePending) && wakePending)
      ensures old(Valid()) ==> Valid()
    {
      if Valid() {
        TimersKept(State(), now);
      }
      if active.Some? {
        active := Some(active.value.ExpireIfDue(now));
      }
      expired := RemoveDue(now);
      if pending != [] && pending[0].RetryDue(now) {
        pending := pending[0 := pending[0].(wait := pending[0].wait.RetryNow())];
        assert pending == [pending[0]] + pending[1..];
      }
      claimed := ClaimWake();
    }

    method RemoveDue(now: Time) returns (expired: seq<Completion>)
      modifies this`pending
      ensures pending == StillWaiting(old(pending), now) && expired == TimedOut(old(pending), drawings, now)
    {
      expired := [];
      var index := 0;
      ghost var all := pending;
      assert pending[..0] == [];
      while index < |pending|
        invariant index <= |pending|
        invariant pending[..index] + StillWaiting(pending[index..], now) == StillWaiting(all, now)
        invariant expired + TimedOut(pending[index..], drawings, now) == TimedOut(all, drawings, now)
        decreases |pending| - index
      {
        var job := pending[index];
        ghost var rest := pending[index..];
        assert rest[0] == job && rest[1..] == pending[index + 1..];
        if !job.Due(now) {
          assert pending[..index] + ([job] + StillWaiting(rest[1..], now)) ==
                 pending[..index + 1] + StillWaiting(rest[1..], now);
          index := index + 1;
        } else {
          pending := pending[..index] + pending[index + 1..];
          assert pending[index..] == rest[1..];
          var end := Completion(job.id, job.TimeoutResult(drawings, None));
          assert expired + ([end] + TimedOut(rest[1..], drawings, now)) ==
                 expired + [end] + TimedOut(rest[1..], drawings, now);
          expired := expired + [end];
        }
      }
      assert pending[..index] == pending && pending[index..] == [];
    }

    method MayBeReady() returns (claimed: bool)
      modifies this
      ensures State() == NativeStateMayBeReady(old(State())) && claimed == (!old(wakePending) && wakePending)
      ensures old(Valid()) ==> Valid()
    {
      if Valid() {
        MayBeReadyKept(State());
      }
      if pending != [] && pending[0].wait.Deferred? {
        pending := pending[0 := pending[0].(wait := pending[0].wait.ReadinessMayHaveChanged())];
      }
      assert pending != [] ==> pending == [pending[0]] + pending[1..];
      claimed := ClaimWake();
    }

    method StopAll() returns (stopped: seq<Completion>)
      modifies this
      ensures Ended(State(), stopped) == Stop(old(State()))
      ensures old(Valid()) ==> Valid()
    {
      if Valid() {
        QueueKept(State(), Stops, 0);
      }
      stopping, wakePending := true, false;
      if active.Some? {
        active := Some(CancelActive(active.value));
      }
      stopped := AllEnd(pending, PluginStopping);
      pending := [];
    }

    method Start()
      modifies this`stopping
      ensures State() == StartAgain(old(State()))
      ensures old(Valid()) ==> Valid()
    {
      if Valid() {
        QueueKept(State(), Starts, 0);
      }
      stopping := false;
    }

    /** Hands the head to the editor, unless it is answered at once or its time is over. */
    method TakeAction(available: Availability, now: Time) returns (r: TakenAction)
      modifies this
      ensures r == TakeNativeAction(old(State()), available, now) && State() == r.queue
      ensures old(Valid()) ==> Valid()
    {
      if Valid() {
        TakeKept(State(), available, now);
      }
      wakePending := false;
      if stopping || quarantined || active.Some? || pending == [] {
        return NoAction(State());
      }
      var job := pending[0];
      if job.wait.Deferred? {
        return NoAction(State());
      }
      pending := pending[1..];
      if job.Due(now) {
        return Completes(State(), Completion(job.id, job.TimeoutResult(drawings, None)));
      }
      match Prepare(job.op, drawings, available)
      case Immediate(result) => r := Completes(State(), Completion(job.id, result));
      case Native(target) =>
        active := Some(job.(target := target, wait := job.wait.BeginReadiness(now)));
        r := Action(State(), job.id, target);
    }

    /** Ends the active job with the editor's answer, or puts it back if the editor was not ready. */
    method CompleteAction(id: JobId, kind: ActionResult, quarantine: bool, now: Time) returns (done: seq<Completion>)
      modifies this
      ensures Ended(State(), done) == CompleteNativeAction(old(State()), id, kind, quarantine, now)
      ensures old(Valid()) && (quarantine ==> kind != NotQuiescent) ==> Valid()
    {
      if Valid() && (quarantine ==> kind != NotQuiescent) {
        AnswerKept(State(), id, kind, quarantine, now);
      }
      if active.None? || active.value.id != id {
        return [];
      }
      var job := active.value;
      active := None;
      var waited: Option<Result> := None;
      if kind == NotQuiescent && CanWait(job.op) {
        waited := EndOfWait(job, now);
        if waited.None? {
          pending := [job.(target := None, wait := job.wait.Defer(now))] + pending;
          return [];
        }
      }
      var result := if waited.Some? then waited.value else CompleteNative(job.op, kind, drawings, job.target);
      done := [Completion(id, result)];
      if quarantine {
        var ended := Quarantine();
        done := done + ended;
      }
    }

    method Quarantine() returns (ended: seq<Completion>)
      modifies this
      ensures State() == old(State()).(quarantined := true, wakePending := false, pending := [])
      ensures ended == AllEnd(old(pending), NativeMutationStateUnknown)
    {
      quarantined, wakePending := true, false;
      ended := AllEnd(pending, NativeMutationStateUnknown);
      pending := [];
    }

    /** The result of a job for which the editor was not ready and which is not to wait any longer. */
    method EndOfWait(job: Job, now: Time) returns (r: Option<Result>)
      ensures r == Waited(State(), job, now)
    {
      if CancelsUnstarted(job.op) {
        return Some(Complete(job.op.(exec := CancelBeforeStart(job.op.exec)), drawings, job.target));
      }
      if job.op.Execute? && job.op.exec.outcome.Some? {
        return Some(Complete(job.op, drawings, job.target));
      }
      return if job.Due(now) then Some(job.TimeoutResult(drawings, job.target)) else None;
    }

    method RecordFrame(id: JobId)
      modifies this`active
      ensures State() == RecordCapture(old(State()), id)
      ensures old(Valid()) ==> Valid()
    {
      if Valid() {
        QueueKept(State(), Act.Frame(id), 0);
      }
      if active.Some? && active.value.id == id && active.value.op.Capture? {
        active := Some(active.value.(op := active.value.op.(captured := true)));
      }
    }

    method TakeExecStep(id: JobId, now: Time) returns (step: StepKind)
      modifies this`active
      ensures (State(), step) == TakeExecutionStep(old(State()), id, now)
      ensures old(Valid()) ==> Valid()
    {
      if Valid() {
        StepKept(State(), id, now);
      }
      if active.None? || active.value.id != id || !active.value.op.Execute? {
        return Invalid;
      }
      var job := active.value.ExpireIfDue(now);
      var issued := TakeStep(job.op.exec);
      active := Some(active.value.(op := active.value.op.(exec := issued.state)));
      return issued.step;
    }

    method CompleteExecStep(id: JobId, r: StepResult) returns (awaited: bool)
      modifies this`active
      ensures State() == CompleteExecutionStep(old(State()), id, r)
      ensures awaited == (Executes(old(State()), id) && CompleteStep(old(active).value.op.exec, r).Some?)
      ensures old(Valid()) ==> Valid()
    {
      if Valid() {
        QueueKept(State(), StepDone(id, r), 0);
      }
      if active.None? || active.value.id != id || !active.value.op.Execute? {
        return false;
      }
      var next := CompleteStep(active.value.op.exec, r);
      if next.None? {
        return false;
      }
      active := Some(active.value.(op := active.value.op.(exec := next.value)));
      return true;
    }

    method AbandonExec(id: JobId) returns (abandoned: bool)
      modifies this`active
      ensures State() == AbandonExecution(old(State()), id) && abandoned == Executes(old(State()), id)
      ensures old(Valid()) ==> Valid()
    {
      if Valid() {
        QueueKept(State(), GivesUp(id), 0);
      }
      if active.None? || active.value.id != id || !active.value.op.Execute? {
        return false;
      }
      active := Some(active.value.(op := active.value.op.(exec := Abandon(active.value.op.exec))));
      return true;
    }

    method CancelExec(id: JobId) returns (done: seq<Completion>, answer: CancelAnswer, claimed: bool)
      modifies this
      ensures CancelDecision(State(), done, answer) == CancelExecution(old(State()), id)
      ensures claimed == (!old(wakePending) && wakePending)
      ensures old(Valid()) ==> Valid()
    {
      if Valid() {
        CancelKept(State(), id);
      }
      if active.Some? && active.value.id == id {
        answer := CancelActiveExec(id);
        return [], answer, false;
      }
      done, answer, claimed := CancelWaiting(id);
    }

    method CancelActiveExec(id: JobId) returns (answer: CancelAnswer)
      requires IsActive(State(), id)
      modifies this`active
      ensures CancelDecision(State(), [], answer) == CancelExecution(old(State()), id)
    {
      if !active.value.op.Execute? {
        return NotFound;
      }
      answer := if AcceptsCancel(active.value.op.exec) then Accepted else TooLate;
      active := Some(CancelActive(active.value));
    }

    method CancelWaiting(id: JobId) returns (done: seq<Completion>, answer: CancelAnswer, claimed: bool)
      requires !IsActive(State(), id)
      modifies this
      ensures CancelDecision(State(), done, answer) == CancelExecution(old(State()), id)
      ensures claimed == (!old(wakePending) && wakePending)
    {
      var index := IndexOf(pending, id);
      if index == |pending| {
        return [], NotFound, false;
      }
      if !CancelsBeforeStart(pending[index].op.exec) {
        return [], TooLate, false;
      }
      pending := pending[..index] + pending[index + 1..];
      claimed := ClaimWake();
      return [Completion(id, Ok(OfExec(Cancelled)))], Accepted, claimed;
    }

    method WakeHasFailed(now: Time) returns (done: seq<Completion>, claimed: bool)
      modifies this
      ensures Ended(State(), done) == WakeFailed(old(State()), now) && claimed == wakePending
      ensures old(Valid()) ==> Valid()
    {
      if Valid() {
        QueueKept(State(), WakeFails, now);
      }
      wakePending := false;
      if stopping || quarantined || active.Some? || pending == [] {
        return [], false;
      }
      var job := pending[0];
      pending := pending[1..];
      if job.Due(now) {
        claimed := ClaimWake();
        return [Completion(job.id, job.TimeoutResult(drawings, None))], claimed;
      }
      pending := [job.(wait := job.wait.BeginReadiness(now).Defer(now))] + pending;
      return [], false;
    }
  }
}
