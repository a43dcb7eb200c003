/** What the scheduler's invariant means for those who submit jobs, and for the editor. */
module SchedulerResults {
  import opened Text
  import opened Exec
  import opened Operations
  import opened Scheduler
  import opened SchedulerRuns

  datatype Moment = Moment(act: Act, now: Time)

  function After(x: System, moments: seq<Moment>): System
    decreases |moments|
  {
    if moments == [] then x else After(Do(x, moments[0].act, moments[0].now), moments[1..])
  }

  ghost predicate RunOk(moments: seq<Moment>) {
    forall m | m in moments :: ActOk(m.act)
  }

  lemma {:induction false} AfterKeeps(x: System, moments: seq<Moment>)
    requires Inv(x) && RunOk(moments)
    ensures Inv(After(x, moments))
    decreases |moments|
  {
    if moments != [] {
      assert moments[0] in moments;
      InvKept(x, moments[0].act, moments[0].now);
      AfterKeeps(Do(x, moments[0].act, moments[0].now), moments[1..]);
    }
  }

  lemma InvAtStart()
    ensures Inv(AtStart)
  {
  }

  // ----- Every job, once and in turn -----

  lemma {:induction false} BelowOnce(n: nat, id: JobId)
    ensures IdsBelow(n)[id] == if 1 <= id < n then 1 else 0
  {
    if n > 1 {
      BelowOnce(n - 1, id);
    }
  }

  /** In every run each admitted job is waiting or active, or completed, and never twice. */
  lemma ExactlyOnce(moments: seq<Moment>, id: JobId)
    requires RunOk(moments)
    ensures var x := After(AtStart, moments);
            1 <= id < x.queue.nextId ==> Ids(Tags(Jobs(x.queue)))[id] + multiset(DoneIds(x.done))[id] == 1
  {
    var x := After(AtStart, moments);
    InvAtStart();
    AfterKeeps(AtStart, moments);
    BelowOnce(x.queue.nextId, id);
  }

  lemma {:induction false} AscendingPair(jobs: seq<Job>, low: nat, high: nat, i: nat, j: nat)
    requires Ascending(Tags(jobs), low, high) && i < j < |jobs|
    ensures low <= jobs[i].id < jobs[j].id < high
    decreases |jobs|
  {
    var t := Tags(jobs);
    assert t[0] == TagOf(jobs[0]) && t[1..] == Tags(jobs[1..]);
    if i > 0 {
      AscendingPair(jobs[1..], jobs[0].id + 1, high, i - 1, j - 1);
    } else {
      AscendingAt(jobs[1..], jobs[0].id + 1, high, j - 1);
    }
  }

  lemma {:induction false} AscendingAt(jobs: seq<Job>, low: nat, high: nat, j: nat)
    requires Ascending(Tags(jobs), low, high) && j < |jobs|
    ensures low <= jobs[j].id < high
    decreases |jobs|
  {
    var t := Tags(jobs);
    assert t[0] == TagOf(jobs[0]) && t[1..] == Tags(jobs[1..]);
    if j > 0 {
      AscendingAt(jobs[1..], jobs[0].id + 1, high, j - 1);
    }
  }

  /** In every run the jobs, the active one first, stand in the order of their admission, all but the
      first are untouched, and their number, the executions among them and their sources are bounded. */
  lemma InTurn(moments: seq<Moment>)
    requires RunOk(moments)
    ensures var q := After(AtStart, moments).queue;
            var jobs := Jobs(q);
            && (forall i, j | 0 <= i < j < |jobs| :: jobs[i].id < jobs[j].id)
            && (forall i | 1 <= i < |jobs| :: jobs[i].wait.Queued?)
            && |jobs| <= MAX_MUTATION_JOBS
            && CountExecutions(jobs) <= MAX_ADMITTED_EXECUTIONS && SumSourceBytes(jobs) <= MAX_ADMITTED_SOURCE_BYTES
  {
    InvAtStart();
    AfterKeeps(AtStart, moments);
    var q := After(AtStart, moments).queue;
    var jobs := Jobs(q);
    TagsCount(jobs);
    forall i, j | 0 <= i < j < |jobs| ensures jobs[i].id < jobs[j].id {
      AscendingPair(jobs, 1, q.nextId, i, j);
    }
    forall i | 1 <= i < |jobs| ensures jobs[i].wait.Queued? {
      assert jobs[i] in (if q.active.Some? then q.pending else q.pending[1..]);
    }
  }

  // ----- Wakes -----

  lemma {:induction false} NotStopped(x: System, moments: seq<Moment>)
    requires !x.stopped && forall m | m in moments :: !m.act.Stops?
    ensures !After(x, moments).stopped
    decreases |moments|
  {
    if moments != [] {
      assert moments[0] in moments;
      NotStopped(Do(x, moments[0].act, moments[0].now), moments[1..]);
    }
  }

  /** Until the first stop, work that nobody is doing is never forgotten: a wake is on its way, or the
      head will be retried at a time that the timers know, or the host has yet to claim a wake. */
  lemma NoWakeLost(moments: seq<Moment>)
    requires RunOk(moments) && forall m | m in moments :: !m.act.Stops?
    ensures var x := After(AtStart, moments);
            var q := x.queue;
            q.active.None? && !q.quarantined && q.pending != [] ==>
              || q.wakePending
              || (q.pending[0].wait.Deferred? && NextTimerDeadline(q).Some?
                  && NextTimerDeadline(q).value <= q.pending[0].wait.retryAt)
              || x.owes
  {
    InvAtStart();
    AfterKeeps(AtStart, moments);
    NotStopped(AtStart, moments);
  }

  // ----- Time -----

  lemma {:induction false} NoneDue(jobs: seq<Job>, now: Time)
    requires forall j | j in jobs :: !j.Due(now)
    ensures EarliestDeadline(jobs).Some? ==> EarliestDeadline(jobs).value > now
    decreases |jobs|
  {
    if jobs != [] {
      assert jobs[0] in jobs;
      NoneDue(jobs[1..], now);
    }
  }

  lemma PendingAhead(q: Queue, now: Time)
    ensures forall j | j in RetryHead(StillWaiting(q.pending, now), now) :: !j.Due(now)
  {
    var left := StillWaiting(q.pending, now);
    StillWaitingIn(q.pending, now);
    forall j | j in RetryHead(left, now) ensures !j.Due(now) {
      if left != [] && j !in left {
        assert left[0] in left && j == left[0].(wait := left[0].wait.RetryNow());
      }
    }
  }

  lemma ActiveAhead(j: Job, now: Time)
    requires j.op.Execute? ==> ExecSound(j.op.exec)
    ensures var k := j.ExpireIfDue(now); WaitPending(k.op) ==> k.wait.deadline > now
  {
    if j.op.Execute? {
      WaitingExpires(j.op.exec);
    }
  }

  /** After the timers were processed, the next deadline lies ahead: they cannot spin. */
  lemma TimersSettle(q: Queue, now: Time)
    requires q.active.Some? && q.active.value.op.Execute? ==> ExecSound(q.active.value.op.exec)
    ensures var next := NextTimerDeadline(ProcessDueTimers(q, now).queue); next.Some? ==> next.value > now
  {
    var t := ProcessDueTimers(q, now).queue;
    PendingAhead(q, now);
    NoneDue(t.pending, now);
    if q.active.Some? {
      ActiveAhead(q.active.value, now);
    }
  }

  /** The editor is given a job only while fewer than 120 seconds have passed since its admission. */
  lemma IssuedInTime(x: System, available: Availability, now: Time)
    requires Inv(x)
    ensures var e := Perform(x.queue, Takes(available), now);
            e.issued.Some? ==> e.issued.value in x.at && now < x.at[e.issued.value] + 2 * READINESS_TIMEOUT
  {
    var q := x.queue;
    if q.pending != [] {
      assert JobOk(q.pending[0], x.at);
    }
  }

  /** A first form is issued only by an execution that waits to start; an expired one issues none. */
  lemma FirstFormNotDue(e: Execution)
    requires ExecSound(e) && !e.handedOff
    ensures TakeStep(e).step.EvaluateForm? ==> ReadinessWaitPending(e)
    ensures ReadinessWaitPending(e) ==> !TakeStep(ExpireBeforeStart(e)).step.EvaluateForm?
  {
  }

  /** The first form of an execution is handed to the editor only while fewer than 120 seconds have
      passed since its admission; later ones may take as long as they need. */
  lemma FirstFormInTime(x: System, job: JobId, now: Time)
    requires Inv(x) && IsActive(x.queue, job) && x.queue.active.value.op.Execute?
    requires TakeExecutionStep(x.queue, job, now).1.EvaluateForm? && !x.queue.active.value.op.exec.handedOff
    ensures job in x.at && now < x.at[job] + 2 * READINESS_TIMEOUT
  {
    var j := x.queue.active.value;
    FirstFormNotDue(j.op.exec);
  }

  lemma AllEndInErrors(jobs: seq<Job>, error: Error)
    ensures forall c | c in AllEnd(jobs, error) :: c.result.Err?
  {
  }

  lemma SuccessIsFound(q: Queue, kind: ActionResult, quarantine: bool, now: Time, c: Completion)
    requires q.active.Some? && !q.active.value.op.Execute?
    requires c in CompleteNativeAction(q, q.active.value.id, kind, quarantine, now).done && c.result.Ok?
    ensures c.result == Complete(q.active.value.op, q.drawings, q.active.value.target)
  {
    AllEndInErrors(q.pending, NativeMutationStateUnknown);
  }

  /** An action on a drawing never counts as done on another one: if the active job is completed with
      success, its drawing is the one that it was when the editor was given the job. */
  lemma NoStaleSuccess(moments: seq<Moment>, kind: ActionResult, quarantine: bool, now: Time, c: Completion)
    requires RunOk(moments)
    requires var q := After(AtStart, moments).queue;
             && q.active.Some? && OnOneDrawing(q.active.value.op)
             && c in CompleteNativeAction(q, q.active.value.id, kind, quarantine, now).done && c.result.Ok?
    ensures var x := After(AtStart, moments);
            var id := x.queue.active.value.op.id;
            && id in x.taken.byId && id in x.queue.drawings.byId
            && x.taken.byId[id].key == x.queue.drawings.byId[id].key
  {
    var x := After(AtStart, moments);
    var j := x.queue.active.value;
    InvAtStart();
    AfterKeeps(AtStart, moments);
    SuccessIsFound(x.queue, kind, quarantine, now, c);
    SucceedsOnItsTarget(j.op, x.queue.drawings, j.target);
  }

  /** A deferred job is retried no later than its deadline, after a delay between 50 and 500 ms. */
  lemma RetriesInTime(x: System, job: JobId, kind: ActionResult, quarantine: bool, now: Time)
    requires Inv(x) && ActOk(Answers(job, kind, quarantine))
    ensures var t := Do(x, Answers(job, kind, quarantine), now).queue;
            t.pending != [] && t.pending[0].wait.Deferred? && x.queue.active.Some? && t.active.None? ==>
              var w := t.pending[0].wait;
              && now < w.retryAt <= w.deadline
              && (w.retryAt < w.deadline ==> READINESS_RETRY_INITIAL <= w.retryAt - now <= READINESS_RETRY_MAX)
              && w.deadline < x.at[job] + 2 * READINESS_TIMEOUT
  {
    var q := x.queue;
    if q.active.Some? && q.pending != [] {
      assert q.pending[0].wait.Queued?;
    }
  }

  // ----- The end -----

  lemma QuarantineStays(q: Queue, a: Act, now: Time)
    requires q.quarantined && q.active.None? && q.pending == []
    ensures var e := Perform(q, a, now);
            e.queue.quarantined && e.queue.active.None? && e.queue.pending == [] && e.done == [] && e.issued.None?
  {
  }

  /** Quarantine is for ever: nothing waits, nothing is active, nothing is issued or completed. */
  lemma {:induction false} QuarantineIsFinal(x: System, moments: seq<Moment>)
    requires x.queue.quarantined && x.queue.active.None? && x.queue.pending == []
    ensures var y := After(x, moments);
            && y.queue.quarantined && Jobs(y.queue) == [] && y.done == x.done
            && forall a, now :: Perform(y.queue, a, now).issued == None
    decreases |moments|
  {
    if moments == [] {
      forall a, now ensures Perform(x.queue, a, now).issued == None {
        QuarantineStays(x.queue, a, now);
      }
    } else {
      var y := Do(x, moments[0].act, moments[0].now);
      QuarantineStays(x.queue, moments[0].act, moments[0].now);
      assert y.done == x.done + [] == x.done;
      QuarantineIsFinal(y, moments[1..]);
    }
  }

  /** A job comes back after a stop exactly if the editor was not ready for the active job, which may
      still wait: a stopped scheduler need not be empty. */
  lemma StoppedRequeues(q: Queue, a: Act, now: Time)
    requires q.stopping && q.pending == []
    ensures Perform(q, a, now).queue.pending != [] <==>
            && a.Answers? && a.kind == NotQuiescent && IsActive(q, a.job)
            && CanWait(q.active.value.op) && Waited(q, q.active.value, now).None?
    ensures Perform(q, a, now).queue.stopping || a.Starts?
  {
  }

  const OneDrawing: Registry := Registry(map[7 := Drawing(3, None, true, false, false, false)], map[])
  const Submitted: System := Do(Do(AtStart, Snapshot(OneDrawing), 0), Submits(Switch(7), Free), 0)
  const Taken: System := Do(Submitted, Takes(Free), 1)

  lemma ExampleSubmitted()
    ensures Submitted.queue ==
            Queue(OneDrawing, [Job(1, Switch(7), None, Queued(READINESS_TIMEOUT))], None, true, false, false, 2)
  {
  }

  lemma ExampleTaken()
    ensures Taken.queue ==
            Queue(OneDrawing, [], Some(Job(1, Switch(7), Some(3),
                                           Ready(1 + READINESS_TIMEOUT, READINESS_RETRY_INITIAL))),
                  false, false, false, 2)
  {
    ExampleSubmitted();
  }

  const StoppedWhileTaken: System := Do(Taken, Stops, 2)

  lemma ExampleStopped()
    ensures StoppedWhileTaken.queue == Taken.queue.(stopping := true)
  {
    ExampleTaken();
  }

  lemma ExampleWaits()
    ensures var q := StoppedWhileTaken.queue;
            && q.stopping && q.pending == [] && IsActive(q, 1)
            && CanWait(q.active.value.op) && Waited(q, q.active.value, 3).None?
  {
    ExampleTaken();
    ExampleStopped();
  }

  /** For instance: a drawing is to be switched, the plugin stops, and the editor was not ready. */
  lemma StoppedNotEmpty()
    ensures var x := Do(StoppedWhileTaken, Answers(1, NotQuiescent, false), 3);
            x.queue.stopping && x.queue.pending != []
  {
    ExampleWaits();
    StoppedRequeues(StoppedWhileTaken.queue, Answers(1, NotQuiescent, false), 3);
  }
}
