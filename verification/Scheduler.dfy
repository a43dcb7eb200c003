/** The mutation scheduler: a queue of jobs of which one at a time is with the editor. Each function is
    one section under the scheduler's lock. Times are in milliseconds. */
module Scheduler {
  import opened Text
  import opened Exec
  import opened Operations

  const MAX_MUTATION_JOBS: nat := 32
  const MAX_ADMITTED_EXECUTIONS: nat := 8
  const MAX_ADMITTED_SOURCE_BYTES: nat := 32 * 1024 * 1024
  const READINESS_TIMEOUT: nat := 60_000
  const READINESS_RETRY_INITIAL: nat := 50
  const READINESS_RETRY_MAX: nat := 500

  type Time = nat
  type JobId = nat

  datatype WaitState =
    | Queued(deadline: Time)
    | Ready(deadline: Time, retryDelay: nat)
    | Deferred(deadline: Time, retryAt: Time, retryDelay: nat)
  {
    function BeginReadiness(now: Time): WaitState {
      if Queued? then Ready(now + READINESS_TIMEOUT, READINESS_RETRY_INITIAL) else this
    }

    function RetryNow(): WaitState {
      if Deferred? then Ready(deadline, retryDelay) else this
    }

    function ReadinessMayHaveChanged(): WaitState {
      if Deferred? then Ready(deadline, READINESS_RETRY_INITIAL) else this
    }

    function Defer(now: Time): WaitState {
      if Ready? then Deferred(deadline, Min(now + retryDelay, deadline), Min(retryDelay * 2, READINESS_RETRY_MAX))
      else this
    }
  }

  function Min(a: nat, b: nat): nat {
    if a < b then a else b
  }

  datatype Job = Job(id: JobId, op: Operation, target: Option<Key>, wait: WaitState)
  {
    predicate Due(now: Time) {
      now >= wait.deadline
    }

    predicate RetryDue(now: Time) {
      wait.Deferred? && now >= wait.retryAt
    }

    /** Waiting is over for an execution that has not begun to touch the drawing. */
    function ExpireIfDue(now: Time): Job {
      if Due(now) && WaitPending(op) then this.(op := Operations.Expired(op)) else this
    }

    function TimeoutResult(drawings: Registry, target: Option<Key>): Result {
      if op.Execute? then Complete(Operations.Expired(op), drawings, target) else Err(ReadinessTimedOut)
    }
  }

  datatype Queue = Queue(
    drawings: Registry,
    pending: seq<Job>,
    active: Option<Job>,
    wakePending: bool,
    stopping: bool,
    quarantined: bool,
    nextId: JobId)

  /** A job's end: every admitted job is to have exactly one. */
  datatype Completion = Completion(id: JobId, result: Result)

  // ----- Usage -----

  predicate IsIdle(q: Queue) {
    q.active.None? && q.pending == [] && !q.wakePending
  }

  /** All jobs, the active one first. */
  function Jobs(q: Queue): seq<Job> {
    if q.active.Some? then [q.active.value] + q.pending else q.pending
  }

  function CountExecutions(jobs: seq<Job>): nat {
    if jobs == [] then 0 else (if jobs[0].op.Execute? then 1 else 0) + CountExecutions(jobs[1..])
  }

  function SourceBytesOf(op: Operation): nat {
    if op.Execute? then ByteLen(op.exec.source) else 0
  }

  function SumSourceBytes(jobs: seq<Job>): nat {
    if jobs == [] then 0 else SourceBytesOf(jobs[0].op) + SumSourceBytes(jobs[1..])
  }

  // ----- Wakes -----

  predicate MayWake(q: Queue) {
    && !q.stopping && !q.quarantined && q.active.None? && !q.wakePending
    && q.pending != [] && !q.pending[0].wait.Deferred?
  }

  /** Claims a wake of the editor, if one is needed and none is on its way. */
  function RequestWake(q: Queue): Queue {
    if MayWake(q) then q.(wakePending := true) else q
  }

  // ----- Admission -----

  datatype Admission =
    | Rejected(error: Error)
    | Answered(queue: Queue, done: seq<Completion>, result: Result)
    | Admitted(queue: Queue, id: JobId)

  function Enqueue(q: Queue, op: Operation, now: Time): Queue {
    RequestWake(q.(pending := q.pending + [Job(q.nextId, op, None, Queued(now + READINESS_TIMEOUT))],
                   nextId := q.nextId + 1))
  }

  function AdmitExecution(q: Queue, id: DrawingId, exec: Execution, now: Time): Admission
  {
    if q.stopping then Rejected(PluginStopping)
    else if q.quarantined then Rejected(NativeMutationStateUnknown)
    else if exec.outcome.Some? then
      var prepared := Prepare(Execute(id, exec), q.drawings, Free);
      var result := if prepared.Immediate? then prepared.result else Err(ExecNotFinished);
      Answered(q.(nextId := q.nextId + 1), [Completion(q.nextId, result)], result)
    else if |Jobs(q)| >= MAX_MUTATION_JOBS then Rejected(MutationCapacity)
    else if CountExecutions(Jobs(q)) >= MAX_ADMITTED_EXECUTIONS
            || SumSourceBytes(Jobs(q)) + ByteLen(exec.source) > MAX_ADMITTED_SOURCE_BYTES then Rejected(ExecCapacity)
    else Admitted(Enqueue(q, Execute(id, exec), now), q.nextId)
  }

  function Submit(q: Queue, op: Operation, available: Availability, now: Time): Admission
  {
    if q.stopping then Rejected(PluginStopping)
    else if q.quarantined then Rejected(NativeMutationStateUnknown)
    else if |Jobs(q)| >= MAX_MUTATION_JOBS then Rejected(MutationCapacity)
    else if IsIdle(q) && Prepare(op, q.drawings, available).Immediate? then
      Answered(q, [], Prepare(op, q.drawings, available).result)
    else Admitted(Enqueue(q, op, now), q.nextId)
  }

  // ----- Timers -----

  function Minimum(a: Option<Time>, b: Option<Time>): Option<Time> {
    if a.None? then b else if b.None? then a else Some(Min(a.value, b.value))
  }

  function EarliestDeadline(jobs: seq<Job>): Option<Time> {
    if jobs == [] then None else Minimum(Some(jobs[0].wait.deadline), EarliestDeadline(jobs[1..]))
  }

  function RetryTime(q: Queue): Option<Time> {
    if q.pending != [] && q.pending[0].wait.Deferred? then Some(q.pending[0].wait.retryAt) else None
  }

  function NextTimerDeadline(q: Queue): Option<Time>
  {
    var active := if q.active.Some? && WaitPending(q.active.value.op) then Some(q.active.value.wait.deadline) else None;
    Minimum(Minimum(active, EarliestDeadline(q.pending)), RetryTime(q))
  }

  function StillWaiting(jobs: seq<Job>, now: Time): seq<Job>
  {
    if jobs == [] then []
    else if jobs[0].Due(now) then StillWaiting(jobs[1..], now)
    else [jobs[0]] + StillWaiting(jobs[1..], now)
  }

  function TimedOut(jobs: seq<Job>, drawings: Registry, now: Time): seq<Completion>
  {
    if jobs == [] then []
    else if jobs[0].Due(now) then
      [Completion(jobs[0].id, jobs[0].TimeoutResult(drawings, None))] + TimedOut(jobs[1..], drawings, now)
    else TimedOut(jobs[1..], drawings, now)
  }

  function RetryHead(jobs: seq<Job>, now: Time): seq<Job> {
    if jobs != [] && jobs[0].RetryDue(now) then [jobs[0].(wait := jobs[0].wait.RetryNow())] + jobs[1..] else jobs
  }

  datatype Ended = Ended(queue: Queue, done: seq<Completion>)

  function ProcessDueTimers(q: Queue, now: Time): Ended
  {
    Ended(
      RequestWake(q.(active := if q.active.Some? then Some(q.active.value.ExpireIfDue(now)) else None,
                     pending := RetryHead(StillWaiting(q.pending, now), now))),
      TimedOut(q.pending, q.drawings, now))
  }

  function NativeStateMayBeReady(q: Queue): Queue
  {
    RequestWake(
      if q.pending != [] then
        q.(pending := [q.pending[0].(wait := q.pending[0].wait.ReadinessMayHaveChanged())] + q.pending[1..])
      else q)
  }

  // ----- Stopping -----

  function AllEnd(jobs: seq<Job>, error: Error): seq<Completion>
  {
    if jobs == [] then [] else [Completion(jobs[0].id, Err(error))] + AllEnd(jobs[1..], error)
  }

  function CancelActive(j: Job): Job {
    if j.op.Execute? then j.(op := j.op.(exec := RequestCancel(j.op.exec))) else j
  }

  function Stop(q: Queue): Ended
  {
    Ended(q.(stopping := true, wakePending := false, pending := [],
             active := if q.active.Some? then Some(CancelActive(q.active.value)) else None),
          AllEnd(q.pending, PluginStopping))
  }

  function StartAgain(q: Queue): Queue {
    q.(stopping := false)
  }

  // ----- Actions of the editor -----

  datatype TakenAction =
    | Action(queue: Queue, id: JobId, target: Option<Key>)
    | Completes(queue: Queue, done: Completion)
    | NoAction(queue: Queue)

  function TakeNativeAction(q: Queue, available: Availability, now: Time): TakenAction
  {
    var awake := q.(wakePending := false);
    if q.stopping || q.quarantined || q.active.Some? || q.pending == [] || q.pending[0].wait.Deferred?
    then NoAction(awake)
    else
      var head, popped := q.pending[0], awake.(pending := q.pending[1..]);
      if head.Due(now) then Completes(popped, Completion(head.id, head.TimeoutResult(q.drawings, None)))
      else
        match Prepare(head.op, q.drawings, available)
        case Immediate(result) => Completes(popped, Completion(head.id, result))
        case Native(target) =>
          Action(popped.(active := Some(head.(target := target, wait := head.wait.BeginReadiness(now)))), head.id,
                 target)
  }

  /** The active job, if it is the one meant. */
  predicate IsActive(q: Queue, id: JobId) {
    q.active.Some? && q.active.value.id == id
  }

  /** What an unready editor means for the active job: its end, or another attempt later. */
  function Waited(q: Queue, j: Job, now: Time): Option<Result>
  {
    if CancelsUnstarted(j.op) then Some(Complete(j.op.(exec := CancelBeforeStart(j.op.exec)), q.drawings, j.target))
    else if j.op.Execute? && j.op.exec.outcome.Some? then Some(Complete(j.op, q.drawings, j.target))
    else if j.Due(now) then Some(j.TimeoutResult(q.drawings, j.target))
    else None
  }

  function CompleteNativeAction(q: Queue, id: JobId, kind: ActionResult, quarantine: bool, now: Time): Ended
  {
    if !IsActive(q, id) then Ended(q, [])
    else
      var j := q.active.value;
      var waits := kind == NotQuiescent && CanWait(j.op);
      if waits && Waited(q, j, now).None? then
        Ended(q.(active := None, pending := [j.(target := None, wait := j.wait.Defer(now))] + q.pending), [])
      else
        var result := if waits then Waited(q, j, now).value else CompleteNative(j.op, kind, q.drawings, j.target);
        if quarantine then
          Ended(q.(active := None, quarantined := true, wakePending := false, pending := []),
                [Completion(id, result)] + AllEnd(q.pending, NativeMutationStateUnknown))
        else Ended(q.(active := None), [Completion(id, result)])
  }

  /** The active job is the execution meant. */
  predicate Executes(q: Queue, id: JobId) {
    IsActive(q, id) && q.active.value.op.Execute?
  }

  /** The frame of a capture arrives before its action is completed. */
  function RecordCapture(q: Queue, id: JobId): Queue {
    if IsActive(q, id) && q.active.value.op.Capture? then
      q.(active := Some(q.active.value.(op := q.active.value.op.(captured := true))))
    else q
  }

  // ----- Steps of the active execution -----

  function WithExec(q: Queue, exec: Execution): Queue
    requires q.active.Some? && q.active.value.op.Execute?
  {
    q.(active := Some(q.active.value.(op := q.active.value.op.(exec := exec))))
  }

  function TakeExecutionStep(q: Queue, id: JobId, now: Time): (r: (Queue, StepKind))
  {
    if !Executes(q, id) then (q, Invalid)
    else
      var j := q.active.value.ExpireIfDue(now);
      var i := TakeStep(j.op.exec);
      (WithExec(q, i.state), i.step)
  }

  function CompleteExecutionStep(q: Queue, id: JobId, r: StepResult): Queue
  {
    if !Executes(q, id) || CompleteStep(q.active.value.op.exec, r).None? then q
    else WithExec(q, CompleteStep(q.active.value.op.exec, r).value)
  }

  function AbandonExecution(q: Queue, id: JobId): Queue
  {
    if !Executes(q, id) then q else WithExec(q, Abandon(q.active.value.op.exec))
  }

  // ----- Cancellation and wakes that failed -----

  function IndexOf(jobs: seq<Job>, id: JobId): (i: nat)
    ensures i <= |jobs| && (i < |jobs| ==> jobs[i].id == id && jobs[i].op.Execute?)
  {
    if jobs == [] || (jobs[0].id == id && jobs[0].op.Execute?) then 0 else 1 + IndexOf(jobs[1..], id)
  }

  datatype CancelAnswer = Accepted | TooLate | NotFound

  datatype CancelDecision = CancelDecision(queue: Queue, done: seq<Completion>, answer: CancelAnswer)

  function CancelExecution(q: Queue, id: JobId): CancelDecision
  {
    if IsActive(q, id) then
      if !q.active.value.op.Execute? then CancelDecision(q, [], NotFound)
      else CancelDecision(q.(active := Some(CancelActive(q.active.value))), [],
                          if AcceptsCancel(q.active.value.op.exec) then Accepted else TooLate)
    else
      var i := IndexOf(q.pending, id);
      if i == |q.pending| then CancelDecision(q, [], NotFound)
      else if !CancelsBeforeStart(q.pending[i].op.exec) then CancelDecision(q, [], TooLate)
      else
        CancelDecision(RequestWake(q.(pending := q.pending[..i] + q.pending[i + 1..])),
                       [Completion(id, Ok(OfExec(Cancelled)))], Accepted)
  }

  function WakeFailed(q: Queue, now: Time): Ended
  {
    var awake := q.(wakePending := false);
    if q.stopping || q.quarantined || q.active.Some? || q.pending == [] then Ended(awake, [])
    else
      var head := q.pending[0];
      if head.Due(now) then
        Ended(RequestWake(awake.(pending := q.pending[1..])),
              [Completion(head.id, head.TimeoutResult(q.drawings, None))])
      else
        Ended(awake.(pending := [head.(wait := head.wait.BeginReadiness(now).Defer(now))] + q.pending[1..]), [])
  }
}
