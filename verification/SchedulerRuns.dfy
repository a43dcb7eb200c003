/**
 Every run of the scheduler: submissions, the editor's answers, timers, cancellation, failed wakes,
 stop and quarantine in any order, with the clock never running backwards.
 */
module SchedulerRuns {
  import opened Text
  import opened Exec
  import opened Operations
  import opened Scheduler
  import opened Forms

  // ----- What no section changes of a job -----

  datatype Tag = Tag(id: JobId, execution: bool, bytes: nat)

  function TagOf(j: Job): Tag {
    Tag(j.id, j.op.Execute?, SourceBytesOf(j.op))
  }

  function Tags(jobs: seq<Job>): seq<Tag> {
    if jobs == [] then [] else [TagOf(jobs[0])] + Tags(jobs[1..])
  }

  function Executions(tags: seq<Tag>): nat {
    if tags == [] then 0 else (if tags[0].execution then 1 else 0) + Executions(tags[1..])
  }

  function Bytes(tags: seq<Tag>): nat {
    if tags == [] then 0 else tags[0].bytes + Bytes(tags[1..])
  }

  function Ids(tags: seq<Tag>): multiset<JobId> {
    if tags == [] then multiset{} else multiset{tags[0].id} + Ids(tags[1..])
  }

  function DoneIds(done: seq<Completion>): seq<JobId> {
    if done == [] then [] else [done[0].id] + DoneIds(done[1..])
  }

  /** Job ids ascend from `low` and stay below `high`: nobody overtakes. */
  predicate Ascending(tags: seq<Tag>, low: nat, high: nat)
    decreases |tags|
  {
    tags == [] || (low <= tags[0].id < high && Ascending(tags[1..], tags[0].id + 1, high))
  }

  lemma {:induction false} TagsConcat(a: seq<Job>, b: seq<Job>)
    ensures Tags(a + b) == Tags(a) + Tags(b)
    decreases |a|
  {
    if a == [] {
      assert a + b == b;
    } else {
      assert (a + b)[0] == a[0] && (a + b)[1..] == a[1..] + b;
      TagsConcat(a[1..], b);
    }
  }

  lemma TagsFirst(j: Job, rest: seq<Job>)
    ensures Tags([j] + rest) == [TagOf(j)] + Tags(rest)
  {
    assert ([j] + rest)[1..] == rest;
  }

  lemma {:induction false} TagsCount(jobs: seq<Job>)
    ensures |Tags(jobs)| == |jobs|
    ensures Executions(Tags(jobs)) == CountExecutions(jobs) && Bytes(Tags(jobs)) == SumSourceBytes(jobs)
    decreases |jobs|
  {
    if jobs != [] {
      TagsCount(jobs[1..]);
      assert Tags(jobs)[1..] == Tags(jobs[1..]);
    }
  }

  /** `before` falls apart into `after`, in the same order, and the ids in `gone`. */
  predicate Splits(before: seq<Tag>, after: seq<Tag>, gone: seq<JobId>)
    decreases |before|
  {
    if before == [] then after == [] && gone == []
    else
      || (after != [] && after[0] == before[0] && Splits(before[1..], after[1..], gone))
      || (gone != [] && gone[0] == before[0].id && Splits(before[1..], after, gone[1..]))
  }

  lemma {:induction false} SplitKeeps(before: seq<Tag>, after: seq<Tag>, gone: seq<JobId>, low: nat, high: nat)
    requires Splits(before, after, gone) && Ascending(before, low, high)
    ensures Ascending(after, low, high) && |after| <= |before|
    ensures Executions(after) <= Executions(before) && Bytes(after) <= Bytes(before)
    decreases |before|
  {
    if before != [] {
      var next := before[0].id + 1;
      if after != [] && after[0] == before[0] && Splits(before[1..], after[1..], gone) {
        SplitKeeps(before[1..], after[1..], gone, next, high);
      } else {
        SplitKeeps(before[1..], after, gone[1..], next, high);
        AscendingFrom(after, low, next, high);
      }
    }
  }

  lemma {:induction false} SplitIds(before: seq<Tag>, after: seq<Tag>, gone: seq<JobId>)
    requires Splits(before, after, gone)
    ensures Ids(before) == Ids(after) + multiset(gone)
    decreases |before|
  {
    if before != [] {
      if after != [] && after[0] == before[0] && Splits(before[1..], after[1..], gone) {
        SplitIds(before[1..], after[1..], gone);
      } else {
        SplitIds(before[1..], after, gone[1..]);
        assert gone == [gone[0]] + gone[1..];
      }
    }
  }

  lemma AscendingFrom(tags: seq<Tag>, low: nat, low': nat, high: nat)
    requires Ascending(tags, low', high) && low <= low'
    ensures Ascending(tags, low, high)
  {
  }

  lemma {:induction false} SplitSame(tags: seq<Tag>)
    ensures Splits(tags, tags, [])
    decreases |tags|
  {
    if tags != [] {
      SplitSame(tags[1..]);
    }
  }

  lemma SplitFirst(t: Tag, before: seq<Tag>, after: seq<Tag>, gone: seq<JobId>)
    requires Splits(before, after, gone)
    ensures Splits([t] + before, [t] + after, gone) && Splits([t] + before, after, [t.id] + gone)
  {
    assert ([t] + before)[1..] == before && ([t] + after)[1..] == after && ([t.id] + gone)[1..] == gone;
  }

  lemma {:induction false} SplitTimedOut(jobs: seq<Job>, drawings: Registry, now: Time)
    ensures Splits(Tags(jobs), Tags(StillWaiting(jobs, now)), DoneIds(TimedOut(jobs, drawings, now)))
    decreases |jobs|
  {
    if jobs != [] {
      var j, rest := jobs[0], jobs[1..];
      SplitTimedOut(rest, drawings, now);
      SplitFirst(TagOf(j), Tags(rest), Tags(StillWaiting(rest, now)), DoneIds(TimedOut(rest, drawings, now)));
      TagsFirst(j, StillWaiting(rest, now));
      if j.Due(now) {
        DoneFirst(Completion(j.id, j.TimeoutResult(drawings, None)), TimedOut(rest, drawings, now));
      }
    }
  }

  lemma DoneFirst(c: Completion, rest: seq<Completion>)
    ensures DoneIds([c] + rest) == [c.id] + DoneIds(rest)
  {
    assert ([c] + rest)[1..] == rest;
  }

  lemma {:induction false} DoneConcat(a: seq<Completion>, b: seq<Completion>)
    ensures multiset(DoneIds(a + b)) == multiset(DoneIds(a)) + multiset(DoneIds(b))
    decreases |a|
  {
    if a == [] {
      assert a + b == b;
    } else {
      assert (a + b)[0] == a[0] && (a + b)[1..] == a[1..] + b;
      DoneConcat(a[1..], b);
    }
  }

  lemma {:induction false} SplitAll(jobs: seq<Job>, error: Error)
    ensures Splits(Tags(jobs), [], DoneIds(AllEnd(jobs, error)))
    decreases |jobs|
  {
    if jobs != [] {
      SplitAll(jobs[1..], error);
      SplitFirst(TagOf(jobs[0]), Tags(jobs[1..]), [], DoneIds(AllEnd(jobs[1..], error)));
      DoneFirst(Completion(jobs[0].id, Err(error)), AllEnd(jobs[1..], error));
    }
  }

  lemma {:induction false} SplitRemoved(jobs: seq<Job>, i: nat)
    requires i < |jobs|
    ensures Splits(Tags(jobs), Tags(jobs[..i] + jobs[i + 1..]), [jobs[i].id])
    decreases i
  {
    var rest := jobs[1..];
    if i == 0 {
      assert jobs[..0] + jobs[1..] == rest;
      SplitSame(Tags(rest));
      SplitFirst(TagOf(jobs[0]), Tags(rest), Tags(rest), []);
      assert [jobs[0].id] + [] == [jobs[0].id];
    } else {
      SplitRemoved(rest, i - 1);
      var left := rest[..i - 1] + rest[i..];
      assert jobs[..i] + jobs[i + 1..] == [jobs[0]] + left;
      TagsFirst(jobs[0], left);
      SplitFirst(TagOf(jobs[0]), Tags(rest), Tags(left), [jobs[i].id]);
    }
  }

  // ----- What is known of each job -----

  /** What a scheduled execution is in: its first form is still to come, or one was handed off, or the
      reason to unwind is known, or the outcome. */
  predicate ExecSound(e: Execution) {
    match e.phase
    case BeginUndoGroup => HasForm(e) && Undecided(e)
    case AwaitingBegin => HasForm(e) && e.outcome.None?
    case BetweenForms => (e.handedOff || HasForm(e)) && Undecided(e)
    case AwaitingForm(_, _) => e.handedOff && Undecided(e)
    case AwaitingCommit => e.handedOff
    case EmitEvalValue => e.handedOff
    case AwaitingEmit => e.handedOff
    case Terminal => e.outcome.Some?
    case Done => e.outcome.Some?
    case _ => e.unwind.Some?
  }

  predicate Undecided(e: Execution) {
    e.unwind.None? && e.outcome.None?
  }

  predicate HasForm(e: Execution) {
    !NextForm(e.source, e.next).NoMore?
  }

  predicate RetryOk(delay: nat) {
    READINESS_RETRY_INITIAL <= delay <= READINESS_RETRY_MAX
  }

  /** Waits as they can be for a job admitted at `t`. */
  predicate WaitOk(w: WaitState, t: Time)
  {
    match w
    case Queued(deadline) => deadline == t + READINESS_TIMEOUT
    case Ready(deadline, delay) => deadline < t + 2 * READINESS_TIMEOUT && RetryOk(delay)
    case Deferred(deadline, retryAt, delay) =>
      deadline < t + 2 * READINESS_TIMEOUT && retryAt <= deadline && RetryOk(delay)
  }

  ghost predicate JobOk(j: Job, at: map<JobId, Time>) {
    j.id in at && WaitOk(j.wait, at[j.id]) && (j.op.Execute? ==> ExecSound(j.op.exec))
  }

  ghost predicate AllOk(jobs: seq<Job>, at: map<JobId, Time>) {
    forall j | j in jobs :: JobOk(j, at)
  }

  predicate AllQueued(jobs: seq<Job>) {
    forall j | j in jobs :: j.wait.Queued?
  }

  lemma {:induction false} StillWaitingIn(jobs: seq<Job>, now: Time)
    ensures forall j | j in StillWaiting(jobs, now) :: j in jobs && !j.Due(now)
    ensures StillWaiting(jobs, now) != [] && StillWaiting(jobs, now)[0] != jobs[0] ==>
              forall j | j in StillWaiting(jobs, now) :: j in jobs[1..]
    ensures forall j | j in (if StillWaiting(jobs, now) == [] then [] else StillWaiting(jobs, now)[1..]) ::
            j in jobs[1..]
    decreases |jobs|
  {
    if jobs != [] {
      StillWaitingIn(jobs[1..], now);
    }
  }

  // ----- Runs -----

  datatype Act =
    | Submits(op: Operation, available: Availability)
    | Admits(id: DrawingId, exec: Execution)
    | Claims
    | Timers
    | MaybeReady
    | Stops
    | Starts
    | Takes(available: Availability)
    | Answers(job: JobId, kind: ActionResult, quarantine: bool)
    | Frame(job: JobId)
    | TakesStep(job: JobId)
    | StepDone(job: JobId, result: StepResult)
    | GivesUp(job: JobId)
    | Cancels(job: JobId)
    | WakeFails
    | Snapshot(drawings: Registry)

  /** Executions are only admitted as such, and an unready editor is never quarantined. */
  predicate ShapeSafe(a: Act) {
    (a.Submits? ==> !a.op.Execute?) && (a.Answers? && a.quarantine ==> a.kind != NotQuiescent)
  }

  /** Executions come from their construction, and answers are quarantined exactly when they must be. */
  ghost predicate ActOk(a: Act) {
    && (a.Admits? ==> ExecSound(a.exec))
    && (a.Submits? ==> !a.op.Execute?)
    && (a.Answers? ==> (a.quarantine <==> RequiresQuarantine(a.kind)))
  }

  datatype Effect = Effect(queue: Queue, done: seq<Completion>, issued: Option<JobId>)

  function AfterAdmission(q: Queue, r: Admission): Effect {
    match r
    case Rejected(_) => Effect(q, [], None)
    case Answered(t, done, _) => Effect(t, done, None)
    case Admitted(t, _) => Effect(t, [], None)
  }

  function AfterTake(r: TakenAction): Effect {
    match r
    case Action(t, id, _) => Effect(t, [], Some(id))
    case Completes(t, done) => Effect(t, [done], None)
    case NoAction(t) => Effect(t, [], None)
  }

  function Perform(q: Queue, a: Act, now: Time): Effect
  {
    match a
    case Submits(op, available) => AfterAdmission(q, Submit(q, op, available, now))
    case Admits(id, exec) => AfterAdmission(q, AdmitExecution(q, id, exec, now))
    case Claims => Effect(RequestWake(q), [], None)
    case Timers => var e := ProcessDueTimers(q, now); Effect(e.queue, e.done, None)
    case MaybeReady => Effect(NativeStateMayBeReady(q), [], None)
    case Stops => var e := Stop(q); Effect(e.queue, e.done, None)
    case Starts => Effect(StartAgain(q), [], None)
    case Takes(available) => AfterTake(TakeNativeAction(q, available, now))
    case Answers(job, kind, quarantine) =>
      var e := CompleteNativeAction(q, job, kind, quarantine, now); Effect(e.queue, e.done, None)
    case Frame(job) => Effect(RecordCapture(q, job), [], None)
    case TakesStep(job) => Effect(TakeExecutionStep(q, job, now).0, [], None)
    case StepDone(job, r) => Effect(CompleteExecutionStep(q, job, r), [], None)
    case GivesUp(job) => Effect(AbandonExecution(q, job), [], None)
    case Cancels(job) => var c := CancelExecution(q, job); Effect(c.queue, c.done, None)
    case WakeFails => var e := WakeFailed(q, now); Effect(e.queue, e.done, None)
    case Snapshot(drawings) => Effect(q.(drawings := drawings), [], None)
  }

  /** The host claims a wake after it took an action, or completed one: until then it owes the claim.
      `taken` are the drawings as they were when the editor was last given a job. */
  datatype System = System(
    queue: Queue,
    now: Time,
    done: seq<Completion>,
    at: map<JobId, Time>,
    taken: Registry,
    owes: bool,
    stopped: bool)

  function Do(x: System, a: Act, now: Time): System
  {
    var e := Perform(x.queue, a, now);
    System(e.queue, now, x.done + e.done,
           if e.queue.nextId > x.queue.nextId then x.at[x.queue.nextId := now] else x.at,
           if e.issued.Some? then x.queue.drawings else x.taken,
           if a.Claims? then false else x.owes || a.Takes? || a.Answers?,
           x.stopped || a.Stops?)
  }

  const NoDrawings: Registry := Registry(map[], map[])

  const AtStart: System :=
    System(Queue(NoDrawings, [], None, false, false, false, 1), 0, [], map[], NoDrawings, false, false)

  // ----- The invariant -----

  predicate TagsShape(q: Queue)
  {
    var tags := Tags(Jobs(q));
    && q.nextId >= 1 && Ascending(tags, 1, q.nextId)
    && |tags| <= MAX_MUTATION_JOBS && Executions(tags) <= MAX_ADMITTED_EXECUTIONS
    && Bytes(tags) <= MAX_ADMITTED_SOURCE_BYTES
  }

  /** Only the head of the queue can be anything but queued, and nothing while a job is active. */
  predicate WaitShape(q: Queue)
  {
    && (q.active.Some? ==> q.active.value.wait.Ready? && AllQueued(q.pending) && !q.wakePending)
    && (q.active.None? && q.pending != [] ==> AllQueued(q.pending[1..]))
    && (q.quarantined ==> q.active.None? && q.pending == [])
  }

  function IdsBelow(n: nat): multiset<JobId> {
    if n <= 1 then multiset{} else IdsBelow(n - 1) + multiset{n - 1}
  }

  /** Every id given out is waiting, active or completed, exactly once. */
  predicate Ledger(x: System) {
    Ids(Tags(Jobs(x.queue))) + multiset(DoneIds(x.done)) == IdsBelow(x.queue.nextId)
  }

  /** Before the first stop no wake is lost. */
  predicate WakeOk(x: System)
  {
    var q := x.queue;
    !x.stopped ==>
      && !q.stopping
      && (q.active.None? && !q.quarantined && q.pending != [] ==>
          q.wakePending || q.pending[0].wait.Deferred? || x.owes)
  }

  ghost predicate JobsOk(x: System) {
    && AllOk(x.queue.pending, x.at) && (x.queue.active.Some? ==> JobOk(x.queue.active.value, x.at))
    && forall id | id in x.at :: id < x.queue.nextId
  }

  /** The editor was given the drawing that the active job is about. */
  predicate TargetOk(x: System)
  {
    x.queue.active.Some? && OnOneDrawing(x.queue.active.value.op) ==>
      var id := x.queue.active.value.op.id;
      id in x.taken.byId && x.queue.active.value.target == Some(x.taken.byId[id].key)
  }

  ghost predicate Inv(x: System) {
    TagsShape(x.queue) && WaitShape(x.queue) && Ledger(x) && WakeOk(x) && TargetOk(x) && JobsOk(x)
  }

  // ----- What each section does to the tags -----

  lemma JobsTags(q: Queue)
    ensures Tags(Jobs(q)) == (if q.active.Some? then [TagOf(q.active.value)] else []) + Tags(q.pending)
  {
    if q.active.Some? {
      TagsFirst(q.active.value, q.pending);
    } else {
      assert [] + Tags(q.pending) == Tags(q.pending);
    }
  }

  lemma HeadTags(jobs: seq<Job>, j: Job)
    requires jobs != [] && TagOf(j) == TagOf(jobs[0])
    ensures Tags([j] + jobs[1..]) == Tags(jobs)
  {
    TagsFirst(j, jobs[1..]);
  }

  /** The jobs fall apart into those that stay and those that are completed. */
  predicate Parts(q: Queue, e: Effect) {
    e.queue.nextId == q.nextId && Splits(Tags(Jobs(q)), Tags(Jobs(e.queue)), DoneIds(e.done))
  }

  lemma SameParts(q: Queue, t: Queue, issued: Option<JobId>)
    requires t.nextId == q.nextId && Tags(Jobs(t)) == Tags(Jobs(q))
    ensures Parts(q, Effect(t, [], issued))
  {
    SplitSame(Tags(Jobs(q)));
  }

  /** Sections that only look at, or change, the head. */
  lemma HeadParts(q: Queue, a: Act, now: Time)
    requires a.Claims? || a.MaybeReady? || a.Starts? || a.Snapshot?
    ensures Parts(q, Perform(q, a, now))
  {
    var t := Perform(q, a, now).queue;
    JobsTags(q);
    JobsTags(t);
    if q.pending != [] {
      HeadTags(q.pending, q.pending[0].(wait := q.pending[0].wait.ReadinessMayHaveChanged()));
    }
    SameParts(q, t, None);
  }

  /** The active job is replaced by one with the same tag. */
  predicate SameButActive(q: Queue, t: Queue) {
    && t.pending == q.pending && t.nextId == q.nextId && t.active.Some? == q.active.Some?
    && (q.active.Some? ==> TagOf(t.active.value) == TagOf(q.active.value))
  }

  lemma ActiveParts(q: Queue, t: Queue, issued: Option<JobId>)
    requires SameButActive(q, t)
    ensures Parts(q, Effect(t, [], issued))
  {
    JobsTags(q);
    JobsTags(t);
    SameParts(q, t, issued);
  }

  lemma StepParts(q: Queue, job: JobId, now: Time)
    ensures Parts(q, Perform(q, TakesStep(job), now))
  {
    if IsActive(q, job) && q.active.value.op.Execute? {
      var j := q.active.value.ExpireIfDue(now);
      assert j.op.exec.source == q.active.value.op.exec.source;
    }
    ActiveParts(q, Perform(q, TakesStep(job), now).queue, None);
  }

  lemma StepDoneParts(q: Queue, a: Act, now: Time)
    requires a.Frame? || a.StepDone?
    ensures Parts(q, Perform(q, a, now))
  {
    ActiveParts(q, Perform(q, a, now).queue, None);
  }

  lemma GivesUpParts(q: Queue, job: JobId, now: Time)
    ensures Parts(q, Perform(q, GivesUp(job), now))
  {
    ActiveParts(q, Perform(q, GivesUp(job), now).queue, None);
  }

  lemma RetryTags(jobs: seq<Job>, now: Time)
    ensures Tags(RetryHead(jobs, now)) == Tags(jobs)
  {
    if jobs != [] {
      HeadTags(jobs, jobs[0].(wait := jobs[0].wait.RetryNow()));
    }
  }

  lemma ExpiredTag(j: Job, now: Time)
    ensures TagOf(j.ExpireIfDue(now)) == TagOf(j)
  {
  }

  lemma TimersParts(q: Queue, now: Time)
    ensures Parts(q, Perform(q, Timers, now))
  {
    var e := ProcessDueTimers(q, now);
    var left := StillWaiting(q.pending, now);
    JobsTags(q);
    JobsTags(e.queue);
    SplitTimedOut(q.pending, q.drawings, now);
    RetryTags(left, now);
    if q.active.Some? {
      ExpiredTag(q.active.value, now);
      SplitFirst(TagOf(q.active.value), Tags(q.pending), Tags(left), DoneIds(e.done));
    }
  }

  lemma StopParts(q: Queue, now: Time)
    ensures Parts(q, Perform(q, Stops, now))
  {
    var t := Perform(q, Stops, now).queue;
    JobsTags(q);
    JobsTags(t);
    SplitAll(q.pending, PluginStopping);
    if q.active.Some? {
      SplitFirst(TagOf(q.active.value), Tags(q.pending), [], DoneIds(AllEnd(q.pending, PluginStopping)));
    }
  }

  lemma TakeParts(q: Queue, available: Availability, now: Time)
    ensures Parts(q, Perform(q, Takes(available), now))
  {
    var r := TakeNativeAction(q, available, now);
    JobsTags(q);
    JobsTags(r.queue);
    match r
    case Completes(_, done) => SplitHead(q.pending, done);
    case NoAction(t) => SameParts(q, t, None);
    case Action(t, id, _) =>
      TagsFirst(q.pending[0], q.pending[1..]);
      assert [q.pending[0]] + q.pending[1..] == q.pending;
      SameParts(q, t, Some(id));
  }

  lemma {:induction false} SplitHead(jobs: seq<Job>, c: Completion)
    requires jobs != [] && c.id == jobs[0].id
    ensures Splits(Tags(jobs), Tags(jobs[1..]), DoneIds([c]))
  {
    SplitSame(Tags(jobs[1..]));
    SplitFirst(TagOf(jobs[0]), Tags(jobs[1..]), Tags(jobs[1..]), []);
    DoneFirst(c, []);
    assert [c] + [] == [c] && [c.id] + [] == [c.id];
  }

  lemma AnswerParts(q: Queue, job: JobId, kind: ActionResult, quarantine: bool, now: Time)
    ensures Parts(q, Perform(q, Answers(job, kind, quarantine), now))
  {
    var e := Perform(q, Answers(job, kind, quarantine), now);
    JobsTags(q);
    JobsTags(e.queue);
    if e.done == [] {
      if IsActive(q, job) {
        TagsFirst(e.queue.pending[0], q.pending);
      }
      SameParts(q, e.queue, None);
    } else if quarantine {
      SplitAll(q.pending, NativeMutationStateUnknown);
      SplitFirst(TagOf(q.active.value), Tags(q.pending), [], DoneIds(AllEnd(q.pending, NativeMutationStateUnknown)));
      DoneFirst(e.done[0], AllEnd(q.pending, NativeMutationStateUnknown));
    } else {
      TagsFirst(q.active.value, q.pending);
      SplitHead([q.active.value] + q.pending, e.done[0]);
      assert ([q.active.value] + q.pending)[1..] == q.pending;
    }
  }

  lemma CancelParts(q: Queue, job: JobId, now: Time)
    ensures Parts(q, Perform(q, Cancels(job), now))
  {
    var e := Perform(q, Cancels(job), now);
    if e.done == [] {
      assert SameButActive(q, e.queue);
      ActiveParts(q, e.queue, None);
    } else {
      CancelPendingParts(q, job, now);
    }
  }

  lemma RemovedParts(q: Queue, t: Queue, i: nat, c: Completion)
    requires i < |q.pending| && c.id == q.pending[i].id
    requires t.active == q.active && t.nextId == q.nextId && t.pending == q.pending[..i] + q.pending[i + 1..]
    ensures Parts(q, Effect(t, [c], None))
  {
    JobsTags(q);
    JobsTags(t);
    DoneFirst(c, []);
    assert [c] + [] == [c] && [c.id] + [] == [c.id];
    SplitRemoved(q.pending, i);
    if q.active.Some? {
      SplitFirst(TagOf(q.active.value), Tags(q.pending), Tags(t.pending), [c.id]);
    }
  }

  lemma CancelPendingParts(q: Queue, job: JobId, now: Time)
    requires CancelExecution(q, job).done != []
    ensures Parts(q, Perform(q, Cancels(job), now))
  {
    var e := CancelExecution(q, job);
    RemovedParts(q, e.queue, IndexOf(q.pending, job), e.done[0]);
    assert [e.done[0]] == e.done;
  }

  lemma WakeFailsParts(q: Queue, now: Time)
    ensures Parts(q, Perform(q, WakeFails, now))
  {
    var e := Perform(q, WakeFails, now);
    JobsTags(q);
    JobsTags(e.queue);
    if e.done == [] {
      if e.queue.pending != q.pending {
        HeadTags(q.pending, e.queue.pending[0]);
      }
      SameParts(q, e.queue, None);
    } else {
      SplitHead(q.pending, e.done[0]);
    }
  }

  // ----- Executions stay sound -----

  lemma CreatedIsSound(mode: ExecMode, raw: Raw, e: ExecState)
    requires Creates(mode, raw, Created(e))
    ensures ExecSound(e)
  {
    assert FormsFrom(e.source, 0) != [] ==> !NextForm(e.source, 0).NoMore?;
  }

  lemma SoundCompletion(e: Execution, r: StepResult)
    requires ExecSound(e) && CompleteStep(e, r).Some?
    ensures ExecSound(CompleteStep(e, r).value)
  {
    match e.phase
    case AwaitingForm(_, _) => SoundForm(e, r);
    case AwaitingBegin => SoundBegin(e, r);
    case _ =>
  }

  lemma SoundBegin(e: Execution, r: StepResult)
    requires ExecSound(e) && e.phase == AwaitingBegin
    ensures ExecSound(CompleteBegin(e, r))
  {
  }

  lemma SoundForm(e: Execution, r: StepResult)
    requires ExecSound(e) && e.phase.AwaitingForm?
    ensures ExecSound(CompleteForm(e, r))
  {
  }

  lemma SoundSettle(e: Execution)
    requires ExecSound(e)
    ensures ExecSound(Settle(e))
  {
  }

  lemma SoundIssue(e: Execution)
    requires ExecSound(e)
    ensures ExecSound(Issue(e).state)
  {
  }

  lemma SoundStep(e: Execution)
    requires ExecSound(e)
    ensures ExecSound(TakeStep(e).state)
  {
    SoundSettle(e);
    SoundIssue(Settle(e));
  }

  lemma SoundRequests(e: Execution)
    requires ExecSound(e)
    ensures ExecSound(RequestCancel(e)) && ExecSound(CancelBeforeStart(e)) && ExecSound(ExpireBeforeStart(e))
            && ExecSound(Abandon(e))
  {
  }

  /** An execution that is still waiting to start can be expired, and then waits no longer. */
  lemma WaitingExpires(e: Execution)
    requires ExecSound(e)
    ensures !ReadinessWaitPending(ExpireBeforeStart(e))
  {
  }

  // ----- Each section keeps the invariant -----

  lemma PartsShape(q: Queue, e: Effect)
    requires TagsShape(q) && Parts(q, e)
    ensures TagsShape(e.queue)
  {
    SplitKeeps(Tags(Jobs(q)), Tags(Jobs(e.queue)), DoneIds(e.done), 1, q.nextId);
  }

  lemma PartsLedger(x: System, e: Effect, y: System)
    requires Ledger(x) && Parts(x.queue, e) && y.queue == e.queue && y.done == x.done + e.done
    ensures Ledger(y)
  {
    SplitIds(Tags(Jobs(x.queue)), Tags(Jobs(e.queue)), DoneIds(e.done));
    DoneConcat(x.done, e.done);
  }

  lemma {:induction false} AppendTag(tags: seq<Tag>, t: Tag, low: nat)
    requires Ascending(tags, low, t.id) && low <= t.id
    ensures Ascending(tags + [t], low, t.id + 1)
    ensures Executions(tags + [t]) == Executions(tags) + (if t.execution then 1 else 0)
    ensures Bytes(tags + [t]) == Bytes(tags) + t.bytes
    ensures Ids(tags + [t]) == Ids(tags) + multiset{t.id}
    decreases |tags|
  {
    if tags == [] {
      assert [] + [t] == [t];
    } else {
      assert (tags + [t])[0] == tags[0] && (tags + [t])[1..] == tags[1..] + [t];
      AppendTag(tags[1..], t, tags[0].id + 1);
    }
  }

  lemma EnqueuedTags(q: Queue, op: Operation, now: Time)
    ensures Tags(Jobs(Enqueue(q, op, now))) == Tags(Jobs(q)) + [Tag(q.nextId, op.Execute?, SourceBytesOf(op))]
  {
    var j := Job(q.nextId, op, None, Queued(now + READINESS_TIMEOUT));
    assert Jobs(Enqueue(q, op, now)) == Jobs(q) + [j];
    TagsConcat(Jobs(q), [j]);
    TagsFirst(j, []);
    assert [j] + [] == [j] && [TagOf(j)] + [] == [TagOf(j)];
  }

  lemma EnqueueShape(q: Queue, op: Operation, now: Time)
    requires TagsShape(q) && |Jobs(q)| < MAX_MUTATION_JOBS
    requires op.Execute? ==> CountExecutions(Jobs(q)) < MAX_ADMITTED_EXECUTIONS
                             && SumSourceBytes(Jobs(q)) + SourceBytesOf(op) <= MAX_ADMITTED_SOURCE_BYTES
    ensures TagsShape(Enqueue(q, op, now))
  {
    TagsCount(Jobs(q));
    EnqueuedTags(q, op, now);
    AppendTag(Tags(Jobs(q)), Tag(q.nextId, op.Execute?, SourceBytesOf(op)), 1);
  }

  lemma EnqueueLedger(x: System, op: Operation, now: Time, y: System)
    requires TagsShape(x.queue) && Ledger(x) && y.queue == Enqueue(x.queue, op, now) && y.done == x.done
    ensures Ledger(y)
  {
    var tag := Tag(x.queue.nextId, op.Execute?, SourceBytesOf(op));
    EnqueuedTags(x.queue, op, now);
    AppendTag(Tags(Jobs(x.queue)), tag, 1);
    EnqueuedLedger(x, Tags(Jobs(x.queue)), tag, y);
  }

  lemma EnqueuedLedger(x: System, tags: seq<Tag>, tag: Tag, y: System)
    requires Ledger(x) && tags == Tags(Jobs(x.queue)) && tag.id == x.queue.nextId >= 1
    requires y.done == x.done && y.queue.nextId == x.queue.nextId + 1
    requires Tags(Jobs(y.queue)) == tags + [tag] && Ids(tags + [tag]) == Ids(tags) + multiset{tag.id}
    ensures Ledger(y)
  {
  }

  lemma DoneMore(done: seq<Completion>, c: Completion)
    ensures multiset(DoneIds(done + [c])) == multiset(DoneIds(done)) + multiset{c.id}
  {
    DoneConcat(done, [c]);
    DoneFirst(c, []);
    assert [c] + [] == [c] && DoneIds([c]) == [c.id];
  }

  lemma AnsweredLedger(x: System, c: Completion, y: System)
    requires Ledger(x) && c.id == x.queue.nextId >= 1
    requires Jobs(y.queue) == Jobs(x.queue) && y.queue.nextId == x.queue.nextId + 1 && y.done == x.done + [c]
    ensures Ledger(y)
  {
    DoneMore(x.done, c);
  }

  lemma {:induction false} AscendingTo(tags: seq<Tag>, low: nat, high: nat, high': nat)
    requires Ascending(tags, low, high) && high <= high'
    ensures Ascending(tags, low, high')
    decreases |tags|
  {
    if tags != [] {
      AscendingTo(tags[1..], tags[0].id + 1, high, high');
    }
  }

  /** The ids ascend, and the number of jobs, of executions and the size of their sources are bounded. */
  lemma QueueShapeKept(q: Queue, a: Act, now: Time)
    requires TagsShape(q) && ShapeSafe(a)
    ensures TagsShape(Perform(q, a, now).queue)
  {
    match a
    case Admits(id, exec) =>
      if AdmitExecution(q, id, exec, now).Answered? {
        AscendingTo(Tags(Jobs(q)), 1, q.nextId, q.nextId + 1);
      } else if AdmitExecution(q, id, exec, now).Admitted? {
        EnqueueShape(q, Execute(id, exec), now);
      }
    case Submits(op, available) =>
      if Submit(q, op, available, now).Admitted? {
        EnqueueShape(q, op, now);
      }
    case _ =>
      AllParts(q, a, now);
      PartsShape(q, Perform(q, a, now));
  }

  lemma AnsweredAdmission(x: System, id: DrawingId, exec: Execution, now: Time)
    requires TagsShape(x.queue) && Ledger(x) && AdmitExecution(x.queue, id, exec, now).Answered?
    ensures Ledger(Do(x, Admits(id, exec), now))
  {
    AnsweredLedger(x, AdmitExecution(x.queue, id, exec, now).done[0], Do(x, Admits(id, exec), now));
  }

  lemma AdmitLedger(x: System, id: DrawingId, exec: Execution, now: Time)
    requires TagsShape(x.queue) && Ledger(x)
    ensures Ledger(Do(x, Admits(id, exec), now))
  {
    assert x.done + [] == x.done;
    match AdmitExecution(x.queue, id, exec, now)
    case Rejected(_) =>
    case Answered(_, _, _) => AnsweredAdmission(x, id, exec, now);
    case Admitted(_, _) => EnqueueLedger(x, Execute(id, exec), now, Do(x, Admits(id, exec), now));
  }

  lemma SubmitLedger(x: System, op: Operation, available: Availability, now: Time)
    requires TagsShape(x.queue) && Ledger(x)
    ensures Ledger(Do(x, Submits(op, available), now))
  {
    var y := Do(x, Submits(op, available), now);
    assert x.done + [] == x.done;
    if Submit(x.queue, op, available, now).Admitted? {
      assert y.queue == Enqueue(x.queue, op, now) && y.done == x.done;
      EnqueueLedger(x, op, now, y);
    } else {
      assert Jobs(y.queue) == Jobs(x.queue) && y.done == x.done && y.queue.nextId == x.queue.nextId;
    }
  }

  lemma ShapeKept(x: System, a: Act, now: Time)
    requires TagsShape(x.queue) && Ledger(x) && ShapeSafe(a)
    ensures TagsShape(Do(x, a, now).queue) && Ledger(Do(x, a, now))
  {
    QueueShapeKept(x.queue, a, now);
    match a
    case Admits(id, exec) => AdmitLedger(x, id, exec, now);
    case Submits(op, available) => SubmitLedger(x, op, available, now);
    case _ =>
      AllParts(x.queue, a, now);
      PartsLedger(x, Perform(x.queue, a, now), Do(x, a, now));
  }

  /** Every section but admission only lets jobs stay, in order, or completes them. */
  lemma AllParts(q: Queue, a: Act, now: Time)
    requires !a.Admits? && !a.Submits?
    ensures Parts(q, Perform(q, a, now))
  {
    match a
    case Timers => TimersParts(q, now);
    case Stops => StopParts(q, now);
    case Takes(available) => TakeParts(q, available, now);
    case Answers(job, kind, quarantine) => AnswerParts(q, job, kind, quarantine, now);
    case TakesStep(job) => StepParts(q, job, now);
    case Frame(_) => StepDoneParts(q, a, now);
    case StepDone(_, _) => StepDoneParts(q, a, now);
    case GivesUp(job) => GivesUpParts(q, job, now);
    case Cancels(job) => CancelParts(q, job, now);
    case WakeFails => WakeFailsParts(q, now);
    case _ => HeadParts(q, a, now);
  }

  // ----- Waits -----

  lemma TimersWait(q: Queue, now: Time)
    requires WaitShape(q)
    ensures WaitShape(Perform(q, Timers, now).queue)
  {
    StillWaitingIn(q.pending, now);
    var left := StillWaiting(q.pending, now);
    if left != [] {
      assert RetryHead(left, now)[1..] == left[1..];
      if q.active.Some? {
        assert RetryHead(left, now) == left;
      }
    }
  }

  lemma AdmissionWaits(q: Queue, op: Operation, now: Time)
    requires WaitShape(q) && !q.quarantined
    ensures WaitShape(Enqueue(q, op, now))
  {
    var t := Enqueue(q, op, now);
    if q.pending != [] {
      TailMore(q.pending, t.pending[|q.pending|]);
    }
  }

  lemma TailMore(jobs: seq<Job>, j: Job)
    requires jobs != []
    ensures (jobs + [j])[1..] == jobs[1..] + [j]
  {
  }

  lemma RemovedWaits(jobs: seq<Job>, i: nat)
    requires i < |jobs| && AllQueued(jobs[1..])
    ensures var left := jobs[..i] + jobs[i + 1..];
            (left != [] ==> AllQueued(left[1..])) && (AllQueued(jobs) ==> AllQueued(left))
  {
    if i > 0 {
      assert (jobs[..i] + jobs[i + 1..])[1..] == jobs[1..i] + jobs[i + 1..];
    }
  }

  lemma CancelWaits(q: Queue, job: JobId, now: Time)
    requires WaitShape(q)
    ensures WaitShape(Perform(q, Cancels(job), now).queue)
  {
    var i := IndexOf(q.pending, job);
    if i < |q.pending| {
      RemovedWaits(q.pending, i);
    }
  }

  lemma AnswerWaits(q: Queue, job: JobId, kind: ActionResult, quarantine: bool, now: Time)
    requires WaitShape(q) && (quarantine ==> kind != NotQuiescent)
    ensures WaitShape(Perform(q, Answers(job, kind, quarantine), now).queue)
  {
    var t := Perform(q, Answers(job, kind, quarantine), now).queue;
    if IsActive(q, job) && t.pending != q.pending && t.pending != [] {
      assert t.pending[1..] == q.pending;
    }
  }

  lemma HeadWaits(q: Queue, a: Act, now: Time)
    requires WaitShape(q) && (a.Claims? || a.MaybeReady? || a.Starts? || a.Snapshot? || a.Stops?)
    ensures WaitShape(Perform(q, a, now).queue)
  {
    if a.MaybeReady? && q.pending != [] {
      assert ([q.pending[0].(wait := q.pending[0].wait.ReadinessMayHaveChanged())] + q.pending[1..])[1..] ==
             q.pending[1..];
      if q.active.Some? {
        assert Perform(q, a, now).queue.pending == q.pending;
      }
    }
  }

  lemma TakeWaits(q: Queue, a: Act, now: Time)
    requires WaitShape(q) && (a.Takes? || a.WakeFails?)
    ensures WaitShape(Perform(q, a, now).queue)
  {
    var t := Perform(q, a, now).queue;
    if a.WakeFails? && t.pending != [] && q.pending != [] && |t.pending| == |q.pending| {
      assert t.pending[1..] == q.pending[1..];
    }
  }

  lemma ActiveWaits(q: Queue, a: Act, now: Time)
    requires WaitShape(q) && (a.Frame? || a.TakesStep? || a.StepDone? || a.GivesUp?)
    ensures WaitShape(Perform(q, a, now).queue)
  {
  }

  lemma WaitsKept(q: Queue, a: Act, now: Time)
    requires WaitShape(q) && ShapeSafe(a)
    ensures WaitShape(Perform(q, a, now).queue)
  {
    match a
    case Admits(id, exec) =>
      if !q.quarantined {
        AdmissionWaits(q, Execute(id, exec), now);
      }
    case Submits(op, _) =>
      if !q.quarantined {
        AdmissionWaits(q, op, now);
      }
    case Timers => TimersWait(q, now);
    case Takes(_) => TakeWaits(q, a, now);
    case WakeFails => TakeWaits(q, a, now);
    case Answers(job, kind, quarantine) => AnswerWaits(q, job, kind, quarantine, now);
    case Cancels(job) => CancelWaits(q, job, now);
    case Frame(_) => ActiveWaits(q, a, now);
    case TakesStep(_) => ActiveWaits(q, a, now);
    case StepDone(_, _) => ActiveWaits(q, a, now);
    case GivesUp(_) => ActiveWaits(q, a, now);
    case _ => HeadWaits(q, a, now);
  }

  predicate QueueOk(q: Queue) {
    TagsShape(q) && WaitShape(q)
  }

  lemma QueueKept(q: Queue, a: Act, now: Time)
    requires QueueOk(q) && ShapeSafe(a)
    ensures QueueOk(Perform(q, a, now).queue)
  {
    QueueShapeKept(q, a, now);
    WaitsKept(q, a, now);
  }

  lemma AdmissionKept(q: Queue, id: DrawingId, exec: Execution, now: Time)
    requires QueueOk(q)
    ensures QueueOk(AfterAdmission(q, AdmitExecution(q, id, exec, now)).queue)
  {
    QueueKept(q, Admits(id, exec), now);
  }

  lemma TimersKept(q: Queue, now: Time)
    requires QueueOk(q)
    ensures QueueOk(ProcessDueTimers(q, now).queue)
  {
    QueueKept(q, Timers, now);
  }

  lemma MayBeReadyKept(q: Queue)
    requires QueueOk(q)
    ensures QueueOk(NativeStateMayBeReady(q))
  {
    QueueKept(q, MaybeReady, 0);
  }

  lemma TakeKept(q: Queue, available: Availability, now: Time)
    requires QueueOk(q)
    ensures QueueOk(TakeNativeAction(q, available, now).queue)
  {
    QueueKept(q, Takes(available), now);
  }

  lemma AnswerKept(q: Queue, job: JobId, kind: ActionResult, quarantine: bool, now: Time)
    requires QueueOk(q) && (quarantine ==> kind != NotQuiescent)
    ensures QueueOk(CompleteNativeAction(q, job, kind, quarantine, now).queue)
  {
    QueueKept(q, Answers(job, kind, quarantine), now);
  }

  lemma StepKept(q: Queue, job: JobId, now: Time)
    requires QueueOk(q)
    ensures QueueOk(TakeExecutionStep(q, job, now).0)
  {
    assert Perform(q, TakesStep(job), now).queue == TakeExecutionStep(q, job, now).0;
    QueueKept(q, TakesStep(job), now);
  }

  lemma CancelKept(q: Queue, job: JobId)
    requires QueueOk(q)
    ensures QueueOk(CancelExecution(q, job).queue)
  {
    assert Perform(q, Cancels(job), 0).queue == CancelExecution(q, job).queue;
    QueueKept(q, Cancels(job), 0);
  }

  // ----- Wakes -----

  lemma WakesKept(x: System, a: Act, now: Time)
    requires WaitShape(x.queue) && WakeOk(x) && ActOk(a)
    ensures WakeOk(Do(x, a, now))
  {
  }

  lemma TakeTargets(x: System, available: Availability, now: Time)
    requires TargetOk(x)
    ensures TargetOk(Do(x, Takes(available), now))
  {
    var q := x.queue;
    if q.pending != [] && OnOneDrawing(q.pending[0].op) && Prepare(q.pending[0].op, q.drawings, available).Native? {
      TargetsItsDrawing(q.pending[0].op, q.drawings, available);
    }
  }

  lemma AnswerTargets(x: System, a: Act, now: Time)
    requires TargetOk(x) && a.Answers?
    ensures TargetOk(Do(x, a, now))
  {
  }

  lemma ActiveTargets(x: System, a: Act, now: Time)
    requires TargetOk(x) && (a.Frame? || a.TakesStep? || a.StepDone? || a.GivesUp? || a.Cancels?)
    ensures TargetOk(Do(x, a, now))
  {
  }

  lemma TargetKept(x: System, a: Act, now: Time)
    requires TargetOk(x)
    ensures TargetOk(Do(x, a, now))
  {
    match a
    case Takes(available) => TakeTargets(x, available, now);
    case Answers(_, _, _) => AnswerTargets(x, a, now);
    case _ =>
      if a.Frame? || a.TakesStep? || a.StepDone? || a.GivesUp? || a.Cancels? {
        ActiveTargets(x, a, now);
      }
  }

  // ----- Jobs -----

  lemma StepJobsKept(x: System, job: JobId, now: Time)
    requires JobsOk(x)
    ensures JobsOk(Do(x, TakesStep(job), now))
  {
    if x.queue.active.Some? && x.queue.active.value.op.Execute? {
      ExpiredActiveOk(x.queue.active.value, now, x.at);
      SoundStep(x.queue.active.value.ExpireIfDue(now).op.exec);
    }
  }

  lemma StepDoneJobsKept(x: System, job: JobId, r: StepResult, now: Time)
    requires JobsOk(x)
    ensures JobsOk(Do(x, StepDone(job, r), now))
  {
    if x.queue.active.Some? && x.queue.active.value.op.Execute? && CompleteStep(x.queue.active.value.op.exec, r).Some? {
      SoundCompletion(x.queue.active.value.op.exec, r);
    }
  }

  lemma GivesUpJobsKept(x: System, job: JobId, now: Time)
    requires JobsOk(x)
    ensures JobsOk(Do(x, GivesUp(job), now))
  {
    if x.queue.active.Some? && x.queue.active.value.op.Execute? {
      SoundRequests(x.queue.active.value.op.exec);
    }
  }

  lemma FrameJobsKept(x: System, job: JobId, now: Time)
    requires JobsOk(x)
    ensures JobsOk(Do(x, Frame(job), now))
  {
  }

  lemma NewHeadOk(jobs: seq<Job>, head: Job, at: map<JobId, Time>)
    requires jobs != [] && AllOk(jobs, at) && JobOk(head, at)
    ensures AllOk([head] + jobs[1..], at) && JobOk(jobs[0], at)
  {
  }

  lemma ExpiredActiveOk(j: Job, now: Time, at: map<JobId, Time>)
    requires JobOk(j, at)
    ensures JobOk(j.ExpireIfDue(now), at) && JobOk(CancelActive(j), at)
  {
    if j.op.Execute? {
      SoundRequests(j.op.exec);
    }
  }

  lemma TimersJobsKept(x: System, now: Time)
    requires JobsOk(x)
    ensures JobsOk(Do(x, Timers, now))
  {
    var q := x.queue;
    var left := StillWaiting(q.pending, now);
    StillWaitingIn(q.pending, now);
    assert AllOk(left, x.at);
    if left != [] {
      assert JobOk(left[0], x.at);
      NewHeadOk(left, left[0].(wait := left[0].wait.RetryNow()), x.at);
    }
    if q.active.Some? {
      ExpiredActiveOk(q.active.value, now, x.at);
    }
  }

  lemma StopJobsKept(x: System, now: Time)
    requires JobsOk(x)
    ensures JobsOk(Do(x, Stops, now))
  {
    if x.queue.active.Some? {
      ExpiredActiveOk(x.queue.active.value, now, x.at);
    }
  }

  lemma CancelJobsKept(x: System, job: JobId, now: Time)
    requires JobsOk(x)
    ensures JobsOk(Do(x, Cancels(job), now))
  {
    if x.queue.active.Some? {
      ExpiredActiveOk(x.queue.active.value, now, x.at);
    }
  }

  lemma HeadJobsKept(x: System, a: Act, now: Time)
    requires JobsOk(x) && (a.Claims? || a.MaybeReady? || a.Starts? || a.Snapshot?)
    ensures JobsOk(Do(x, a, now))
  {
    var p := x.queue.pending;
    if p != [] {
      assert JobOk(p[0], x.at);
      NewHeadOk(p, p[0].(wait := p[0].wait.ReadinessMayHaveChanged()), x.at);
    }
  }

  lemma TakeJobsKept(x: System, a: Act, now: Time)
    requires JobsOk(x) && (a.Takes? || a.WakeFails?)
    ensures JobsOk(Do(x, a, now))
  {
    if x.queue.pending != [] {
      assert JobOk(x.queue.pending[0], x.at);
    }
  }

  lemma AnswerJobsKept(x: System, job: JobId, kind: ActionResult, quarantine: bool, now: Time)
    requires JobsOk(x) && WaitShape(x.queue)
    ensures JobsOk(Do(x, Answers(job, kind, quarantine), now))
  {
  }

  lemma EnqueuedOk(q: Queue, op: Operation, now: Time, at: map<JobId, Time>)
    requires AllOk(q.pending, at) && (op.Execute? ==> ExecSound(op.exec)) && q.nextId !in at
    ensures AllOk(Enqueue(q, op, now).pending, at[q.nextId := now])
  {
  }

  lemma AdmissionJobsKept(x: System, a: Act, now: Time)
    requires JobsOk(x) && ActOk(a) && (a.Admits? || a.Submits?)
    ensures JobsOk(Do(x, a, now))
  {
    EnqueuedOk(x.queue, if a.Admits? then Execute(a.id, a.exec) else a.op, now, x.at);
  }

  lemma JobsKept(x: System, a: Act, now: Time)
    requires JobsOk(x) && WaitShape(x.queue) && ActOk(a)
    ensures JobsOk(Do(x, a, now))
  {
    match a
    case Timers => TimersJobsKept(x, now);
    case Stops => StopJobsKept(x, now);
    case Cancels(job) => CancelJobsKept(x, job, now);
    case Frame(job) => FrameJobsKept(x, job, now);
    case TakesStep(job) => StepJobsKept(x, job, now);
    case StepDone(job, r) => StepDoneJobsKept(x, job, r, now);
    case GivesUp(job) => GivesUpJobsKept(x, job, now);
    case Takes(_) => TakeJobsKept(x, a, now);
    case WakeFails => TakeJobsKept(x, a, now);
    case Answers(job, kind, quarantine) => AnswerJobsKept(x, job, kind, quarantine, now);
    case Admits(_, _) => AdmissionJobsKept(x, a, now);
    case Submits(_, _) => AdmissionJobsKept(x, a, now);
    case _ => HeadJobsKept(x, a, now);
  }

  lemma InvKept(x: System, a: Act, now: Time)
    requires Inv(x) && ActOk(a)
    ensures Inv(Do(x, a, now))
  {
    ShapeKept(x, a, now);
    WaitsKept(x.queue, a, now);
    WakesKept(x, a, now);
    TargetKept(x, a, now);
    JobsKept(x, a, now);
  }
}
