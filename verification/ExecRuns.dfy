/**
 Every run of an execution: steps taken and completed, cancellation, expiry and abandonment in any
 order, next to what truly happened to the drawing.
 */
module ExecRuns {
  import opened Text
  import opened Forms
  import opened Scanner
  import opened ValueBridge
  import opened Exec

  /** What happened: the steps the editor was given and those that it carried out. */
  datatype World = World(
    issued: nat,
    begun: bool,
    forms: nat,  // handed off
    done: nat,  // evaluated without a failure of the form or of its output
    commitIssued: bool,
    committed: bool,
    emitIssued: bool,
    cleanValue: bool,
    rollbackIssued: bool,
    rolledBack: bool,
    closeIssued: bool,
    epoch: Bridge,  // as it was when the value was to be emitted
    epochOps: seq<Op>,  // and what was done to it since
    reported: seq<Outcome>)

  const Untouched: World := World(0, false, 0, 0, false, false, false, false, false, false, false, Idle, [], [])

  datatype System = System(exec: ExecState, world: World)

  datatype Action =
    | Take
    | Complete(result: StepResult)
    | Cancel
    | CancelEarly
    | Expire
    | GiveUp
    | FinalizationFails
    | Report
    | UseBridge(ops: seq<Op>)

  function Note(w: World, s: ExecState, step: StepKind): World {
    w.(issued := if step == Invalid then w.issued else w.issued + 1,
       forms := if step.EvaluateForm? then w.forms + 1 else w.forms,
       commitIssued := w.commitIssued || step == CommitUndo,
       emitIssued := w.emitIssued || step == EmitValue,
       epoch := if step == EmitValue then s.bridge else w.epoch,
       epochOps := if step == EmitValue then [] else w.epochOps,
       rollbackIssued := w.rollbackIssued || step == RollbackUndo,
       closeIssued := w.closeIssued || step == CloseEmptyUndo)
  }

  function Happened(s: ExecState, w: World, r: StepResult): World {
    if !r.Ok() then w
    else
      match s.phase
      case AwaitingBegin => w.(begun := true)
      case AwaitingForm(_, _) => if CloseFailure(s.bridge, Kind.Form).None? then w.(done := w.done + 1) else w
      case AwaitingCommit => w.(committed := true)
      case AwaitingEmit => w.(cleanValue := CloseFailure(s.bridge, EvalValue).None?)
      case AwaitingRollback => w.(rolledBack := true)
      case _ => w
  }

  function Do(x: System, a: Action): (y: System)
    requires x.exec.next <= |x.exec.source|
    ensures y.exec.next <= |y.exec.source| && y.exec.source == x.exec.source
  {
    var s, w := x.exec, x.world;
    match a
    case Take => System(TakeStep(s).state, Note(w, s, TakeStep(s).step))
    case Complete(r) =>
      if CompleteStep(s, r).None? then x else System(CompleteStep(s, r).value, Happened(s, w, r))
    case Cancel => x.(exec := RequestCancel(s))
    case CancelEarly => x.(exec := CancelBeforeStart(s))
    case Expire => x.(exec := ExpireBeforeStart(s))
    case GiveUp => x.(exec := Abandon(s))
    case FinalizationFails => x.(exec := RecordFinalizationFailure(s))
    case Report =>
      if s.outcome.None? then x
      else System(s.(outcome := None), w.(reported := w.reported + [s.outcome.value]))
    case UseBridge(ops) =>
      if !WithinEpoch(ops) then x
      else System(s.(bridge := Run(s.bridge, ops)),
                  if s.phase == AwaitingEmit then w.(epochOps := w.epochOps + ops) else w)
  }

  // ----- What the outcomes promise -----

  /** The outcome says nothing that did not happen. */
  predicate Honest(o: Outcome, mode: ExecMode, w: World, forms: nat)
  {
    match o
    case Success => forms == 0 || (w.committed && w.done == w.forms == forms && (mode == Eval ==> w.cleanValue))
    case Cancelled => w.forms == 0 || w.rolledBack
    case Failed(f) =>
      match f.drawing
      case NotStarted => w.forms == 0
      case RolledBack => w.rolledBack
      case Committed => w.committed
      case Unknown => true
  }

  /** The step is one that the transaction may take now. */
  ghost predicate Allowed(x: System, step: StepKind, all: seq<Next>)
  {
    var w := x.world;
    var open := w.begun && !w.commitIssued && !w.rollbackIssued && !w.closeIssued;
    match step
    case BeginUndo => w.issued == 0
    case EvaluateForm(span, _) =>
      open && !x.exec.cancel && w.done == w.forms < |all| && Reports(x.exec.source, all[w.forms], Span(span))
    case CommitUndo => open && !x.exec.cancel && w.done == w.forms == |all|
    case EmitValue => w.committed && !w.emitIssued && x.exec.mode == Eval
    case ClearValue => w.begun && w.forms > 0 && !w.committed && !w.rollbackIssued
    case RollbackUndo => w.begun && w.forms > 0 && !w.committed && !w.rollbackIssued && !w.closeIssued
    case CloseEmptyUndo => open && w.forms == 0
    case _ => true
  }

  // ----- The invariant -----

  predicate NothingEnded(w: World) {
    !w.commitIssued && !w.rollbackIssued && !w.closeIssued
  }

  predicate CauseOk(u: Option<Unwind>, w: World) {
    u.Some? && (u.value.ByFailure? ==>
                  u.value.failure.drawing == Unknown || (u.value.failure.drawing == NotStarted && w.forms == 0))
  }

  predicate PhaseOk(s: ExecState, w: World, forms: nat)
  {
    match s.phase
    case BeginUndoGroup => w.issued == 0 && !w.begun && w.forms == 0 && NothingEnded(w) && s.unwind.None? && forms > 0
    case AwaitingBegin =>
      !w.begun && w.forms == 0 && forms > 0 && NothingEnded(w)
        && (s.unwind.Some? ==> s.unwind.value.ByFailure? && CauseOk(s.unwind, w))
    case BetweenForms => w.begun && w.done == w.forms && NothingEnded(w) && s.unwind.None? && forms > 0
    case AwaitingForm(_, _) => w.begun && w.done + 1 == w.forms && NothingEnded(w) && s.unwind.None?
    case AwaitingCommit =>
      && w.begun && w.commitIssued && !w.committed && w.done == w.forms == forms && forms > 0
      && !w.rollbackIssued && !w.closeIssued && s.unwind.None? && !s.cancel
    case EmitEvalValue => s.mode == Eval && w.committed && !w.emitIssued && w.done == w.forms == forms && s.unwind.None?
    case AwaitingEmit =>
      && s.mode == Eval && w.committed && w.emitIssued && w.done == w.forms == forms && s.unwind.None?
      && !w.cleanValue && s.bridge == Run(Begin(w.epoch, EvalValue), w.epochOps)
    case ClearRetained => UnwindOk(s, w)
    case AwaitingClear => UnwindOk(s, w)
    case Rollback => UnwindOk(s, w)
    case AwaitingRollback => w.begun && w.forms > 0 && !w.committed && w.rollbackIssued && CauseOk(s.unwind, w)
    case CloseEmpty => w.begun && w.forms == 0 && NothingEnded(w) && CauseOk(s.unwind, w)
    case AwaitingClose => w.begun && w.forms == 0 && !w.commitIssued && !w.rollbackIssued && CauseOk(s.unwind, w)
    case Terminal => true
    case Done => true
  }

  predicate UnwindOk(s: ExecState, w: World) {
    w.begun && w.forms > 0 && !w.committed && !w.rollbackIssued && !w.closeIssued && CauseOk(s.unwind, w)
  }

  predicate Over(p: Phase) {
    p == Terminal || p == Done
  }

  predicate SourceOk(s: ExecState, w: World, all: seq<Next>)
  {
    && AllForms(all) && (s.mode == Eval ==> |all| == 1)
    && s.next <= |s.source| && w.forms <= |all| && FormsFrom(s.source, s.next) == all[w.forms..]
    && s.nextIndex == w.forms + 1 && (s.handedOff <==> w.forms > 0)
  }

  predicate WorldOk(w: World, forms: nat) {
    && w.done <= w.forms && (w.emitIssued ==> w.committed) && (w.cleanValue ==> w.emitIssued) && WithinEpoch(w.epochOps)
    && (w.cleanValue ==> CloseFailure(Run(Begin(w.epoch, EvalValue), w.epochOps), EvalValue) == None)
    && (w.committed ==> w.commitIssued && w.done == w.forms == forms && !w.rollbackIssued)
  }

  predicate OutcomesOk(s: ExecState, w: World, forms: nat)
  {
    if Over(s.phase) then
      && (s.outcome.Some? ==> Honest(s.outcome.value, s.mode, w, forms))
      && forall o | o in w.reported :: Honest(o, s.mode, w, forms)
    else s.outcome.None? && w.reported == []
  }

  predicate Inv(x: System, all: seq<Next>)
  {
    && SourceOk(x.exec, x.world, all)
    && WorldOk(x.world, |all|)
    && PhaseOk(x.exec, x.world, |all|)
    && OutcomesOk(x.exec, x.world, |all|)
  }

  lemma InvInitially(mode: ExecMode, raw: Raw, s: ExecState)
    requires Creates(mode, raw, Created(s))
    ensures s.source == WithoutMark(raw.text) && Inv(System(s, Untouched), FormsFrom(s.source, 0))
  {
    var all := FormsFrom(s.source, 0);
    assert all[0..] == all;
  }

  // ----- Every action keeps it -----

  /** The forms still to come are the rest of the forms there were; they have no error. */
  lemma NextIsForm(x: System, all: seq<Next>)
    requires Inv(x, all)
    ensures var n := NextForm(x.exec.source, x.exec.next);
            if x.world.forms == |all| then n.NoMore?
            else n.Form? && n == all[x.world.forms] && FormsFrom(x.exec.source, n.end) == all[x.world.forms + 1..]
  {
    var n, rest := NextForm(x.exec.source, x.exec.next), FormsFrom(x.exec.source, x.exec.next);
    if x.world.forms < |all| {
      assert rest[0] == all[x.world.forms] && rest[|rest| - 1] == all[|all| - 1];
      assert rest == [n] + FormsFrom(x.exec.source, n.end);
      assert all[x.world.forms + 1..] == rest[1..];
    }
  }

  lemma SettleKeeps(x: System, all: seq<Next>)
    requires Inv(x, all)
    ensures Inv(x.(exec := Settle(x.exec)), all)
    ensures var s := Settle(x.exec);
            s.cancel == x.exec.cancel && (s.phase in {BeginUndoGroup, BetweenForms} ==> !s.cancel)
  {
    NextIsForm(x, all);
  }

  lemma IssueFormKeeps(x: System, all: seq<Next>)
    requires Inv(x, all) && x.exec.phase == BetweenForms && !x.exec.cancel
    ensures var i := Issue(x.exec);
            Inv(System(i.state, Note(x.world, x.exec, i.step)), all) && Allowed(x, i.step, all)
  {
    NextIsForm(x, all);
  }

  lemma IssueKeeps(x: System, all: seq<Next>)
    requires Inv(x, all) && (x.exec.phase in {BeginUndoGroup, BetweenForms} ==> !x.exec.cancel)
    ensures var i := Issue(x.exec);
            Inv(System(i.state, Note(x.world, x.exec, i.step)), all) && Allowed(x, i.step, all)
  {
    if x.exec.phase == BetweenForms {
      IssueFormKeeps(x, all);
    } else if x.exec.phase == BeginUndoGroup {
      IssueBeginKeeps(x, all);
    } else if x.exec.phase in {EmitEvalValue, Terminal} {
      IssueEndKeeps(x, all);
    } else if x.exec.phase in {ClearRetained, CloseEmpty, Rollback} {
      IssueUnwindKeeps(x, all);
    }
  }

  lemma IssueUnwindKeeps(x: System, all: seq<Next>)
    requires Inv(x, all) && x.exec.phase in {ClearRetained, CloseEmpty, Rollback}
    ensures var i := Issue(x.exec);
            Inv(System(i.state, Note(x.world, x.exec, i.step)), all) && Allowed(x, i.step, all)
  {
  }

  lemma IssueBeginKeeps(x: System, all: seq<Next>)
    requires Inv(x, all) && x.exec.phase == BeginUndoGroup && !x.exec.cancel
    ensures var i := Issue(x.exec);
            Inv(System(i.state, Note(x.world, x.exec, i.step)), all) && Allowed(x, i.step, all)
  {
  }

  lemma IssueEndKeeps(x: System, all: seq<Next>)
    requires Inv(x, all) && x.exec.phase in {EmitEvalValue, Terminal}
    ensures var i := Issue(x.exec);
            Inv(System(i.state, Note(x.world, x.exec, i.step)), all) && Allowed(x, i.step, all)
  {
  }

  lemma BegunKeeps(x: System, r: StepResult, all: seq<Next>)
    requires Inv(x, all) && x.exec.phase == AwaitingBegin && r.Ok()
    ensures Inv(Do(x, Complete(r)), all)
  {
  }

  lemma NotBegunKeeps(x: System, r: StepResult, all: seq<Next>)
    requires Inv(x, all) && x.exec.phase == AwaitingBegin && !r.Ok()
    ensures Inv(Do(x, Complete(r)), all)
  {
  }

  lemma CompleteFormKeeps(x: System, r: StepResult, all: seq<Next>)
    requires Inv(x, all) && x.exec.phase.AwaitingForm?
    ensures Inv(Do(x, Complete(r)), all)
  {
  }

  lemma CompleteCommitKeeps(x: System, r: StepResult, all: seq<Next>)
    requires Inv(x, all) && x.exec.phase in {AwaitingCommit, AwaitingEmit}
    ensures Inv(Do(x, Complete(r)), all)
  {
  }

  lemma CompleteClearKeeps(x: System, r: StepResult, all: seq<Next>)
    requires Inv(x, all) && x.exec.phase == AwaitingClear
    ensures Inv(Do(x, Complete(r)), all)
  {
  }

  lemma CompleteUnwindKeeps(x: System, r: StepResult, all: seq<Next>)
    requires Inv(x, all) && x.exec.phase in {AwaitingClose, AwaitingRollback}
    ensures Inv(Do(x, Complete(r)), all)
  {
    assert Do(x, Complete(r)).exec.phase == Terminal;
  }

  lemma CompleteKeeps(x: System, r: StepResult, all: seq<Next>)
    requires Inv(x, all)
    ensures Inv(Do(x, Complete(r)), all)
  {
    match x.exec.phase
    case AwaitingBegin => if r.Ok() { BegunKeeps(x, r, all); } else { NotBegunKeeps(x, r, all); }
    case AwaitingForm(_, _) => CompleteFormKeeps(x, r, all);
    case AwaitingCommit => CompleteCommitKeeps(x, r, all);
    case AwaitingEmit => CompleteCommitKeeps(x, r, all);
    case AwaitingClear => CompleteClearKeeps(x, r, all);
    case AwaitingClose => CompleteUnwindKeeps(x, r, all);
    case AwaitingRollback => CompleteUnwindKeeps(x, r, all);
    case _ =>
  }

  lemma RequestKeeps(x: System, a: Action, all: seq<Next>)
    requires Inv(x, all) && (a.Cancel? || a.CancelEarly? || a.Expire?)
    ensures Inv(Do(x, a), all)
  {
  }

  lemma BridgeKeeps(x: System, ops: seq<Op>, all: seq<Next>)
    requires Inv(x, all)
    ensures Inv(Do(x, UseBridge(ops)), all)
  {
    if x.exec.phase == AwaitingEmit {
      RunSplit(Begin(x.world.epoch, EvalValue), x.world.epochOps, ops);
    }
  }

  lemma ReportKeeps(x: System, all: seq<Next>)
    requires Inv(x, all)
    ensures Inv(Do(x, Report), all)
  {
  }

  lemma TroubleKeeps(x: System, a: Action, all: seq<Next>)
    requires Inv(x, all) && (a.GiveUp? || a.FinalizationFails?)
    ensures Inv(Do(x, a), all)
  {
  }

  lemma TakeKeeps(x: System, all: seq<Next>)
    requires Inv(x, all)
    ensures Inv(Do(x, Take), all) && Allowed(x, TakeStep(x.exec).step, all)
  {
    SettleKeeps(x, all);
    IssueKeeps(x.(exec := Settle(x.exec)), all);
  }

  lemma DoKeeps(x: System, a: Action, all: seq<Next>)
    requires Inv(x, all)
    ensures Inv(Do(x, a), all)
  {
    match a
    case Take => TakeKeeps(x, all);
    case Complete(r) => CompleteKeeps(x, r, all);
    case Cancel => RequestKeeps(x, a, all);
    case CancelEarly => RequestKeeps(x, a, all);
    case Expire => RequestKeeps(x, a, all);
    case Report => ReportKeeps(x, all);
    case UseBridge(ops) => BridgeKeeps(x, ops, all);
    case _ => TroubleKeeps(x, a, all);
  }

  // ----- Whole runs -----

  function After(x: System, acts: seq<Action>): System
    requires x.exec.next <= |x.exec.source|
    decreases |acts|
  {
    if acts == [] then x else After(Do(x, acts[0]), acts[1..])
  }

  lemma {:induction false} AfterKeeps(x: System, acts: seq<Action>, all: seq<Next>)
    requires Inv(x, all)
    ensures Inv(After(x, acts), all)
    decreases |acts|
  {
    if acts != [] {
      DoKeeps(x, acts[0], all);
      AfterKeeps(Do(x, acts[0]), acts[1..], all);
    }
  }

  /** Whatever is done in whatever order: the outcome, and all that were reported before, say only what
      happened; the next step is one that the transaction may take; the forms handed off are those
      found when the source was validated, in order, and scanning never fails again. */
  lemma TransactionSafety(mode: ExecMode, raw: Raw, s: ExecState, acts: seq<Action>)
    requires Creates(mode, raw, Created(s))
    ensures var all, x := FormsFrom(s.source, 0), After(System(s, Untouched), acts);
            && x.exec.next <= |x.exec.source|
            && (x.exec.outcome.Some? ==> Honest(x.exec.outcome.value, x.exec.mode, x.world, |all|))
            && (forall o | o in x.world.reported :: Honest(o, x.exec.mode, x.world, |all|))
            && Allowed(x, TakeStep(x.exec).step, all)
            && x.world.forms <= |all| && FormsFrom(x.exec.source, x.exec.next) == all[x.world.forms..]
            && !NextForm(x.exec.source, x.exec.next).Error?
  {
    var all := FormsFrom(s.source, 0);
    InvInitially(mode, raw, s);
    AfterKeeps(System(s, Untouched), acts, all);
    var x := After(System(s, Untouched), acts);
    TakeKeeps(x, all);
    NextIsForm(x, all);
  }

  lemma {:induction false} CancelStays(x: System, acts: seq<Action>)
    requires x.exec.next <= |x.exec.source| && x.exec.cancel
    ensures After(x, acts).exec.next <= |x.exec.source| && After(x, acts).exec.cancel
    decreases |acts|
  {
    if acts != [] {
      CancelOnce(x, acts[0]);
      CancelStays(Do(x, acts[0]), acts[1..]);
    }
  }

  lemma CancelOnce(x: System, a: Action)
    requires x.exec.next <= |x.exec.source| && x.exec.cancel
    ensures Do(x, a).exec.cancel
  {
  }

  lemma ModeKept(x: System, a: Action)
    requires x.exec.next <= |x.exec.source|
    ensures Do(x, a).exec.mode == x.exec.mode
  {
  }

  /** After a cancellation was accepted no form is evaluated and nothing is committed, ever. */
  lemma CancelIsFinal(x: System, acts: seq<Action>, all: seq<Next>)
    requires Inv(x, all) && AcceptsCancel(x.exec)
    ensures var y := After(Do(x, Cancel), acts);
            && y.exec.next <= |y.exec.source|
            && !TakeStep(y.exec).step.EvaluateForm? && TakeStep(y.exec).step != CommitUndo
  {
    DoKeeps(x, Cancel, all);
    AfterKeeps(Do(x, Cancel), acts, all);
    CancelStays(Do(x, Cancel), acts);
    TakeKeeps(After(Do(x, Cancel), acts), all);
  }

  /** An evaluation succeeds only if, after its commit, the lease of its value was granted and then
      released without a failure. */
  lemma SuccessReleasedItsValue(x: System, all: seq<Next>) returns (granted: nat, released: nat)
    requires Inv(x, all) && x.exec.mode == Eval && x.exec.outcome == Some(Success)
    ensures x.world.committed && granted < released < |x.world.epochOps|
    ensures x.world.epochOps[granted] == OpAcquire(EvalValue)
    ensures x.world.epochOps[released] == OpRelease(Lease(NextGeneration(x.world.epoch.generation), EvalValue), None)
  {
    granted, released := CleanEpoch(x.world.epoch, x.world.epochOps);
  }

  // ----- An end is reached -----

  /** How many more steps can be issued. */
  function Rank(s: ExecState, left: nat): nat
  {
    match s.phase
    case BeginUndoGroup => left + 5
    case AwaitingBegin => left + 4
    case BetweenForms => left + 4
    case AwaitingForm(_, _) => left + 4
    case AwaitingCommit => 3
    case ClearRetained => 3
    case AwaitingClear => 2
    case EmitEvalValue => 2
    case Rollback => 2
    case CloseEmpty => 2
    case AwaitingEmit => 1
    case AwaitingRollback => 1
    case AwaitingClose => 1
    case Terminal => 1
    case Done => 0
  }

  function StepsLeft(x: System, all: seq<Next>): nat
    requires Inv(x, all)
  {
    Rank(x.exec, |all| - x.world.forms)
  }

  lemma SettleRank(s: ExecState, left: nat)
    requires s.next <= |s.source|
    ensures Rank(Settle(s), left) <= Rank(s, left) && Awaiting(s.phase) == Awaiting(Settle(s).phase)
    ensures Settle(s) == s || Settle(s).phase in {Terminal, ClearRetained, Rollback, CloseEmpty}
  {
  }

  lemma IssueRank(s: ExecState, left: nat)
    requires s.next <= |s.source|
    requires s.phase == BetweenForms ==>
               if left == 0 then NextForm(s.source, s.next).NoMore? else NextForm(s.source, s.next).Form?
    ensures var i := Issue(s);
            if i.step == Invalid then i.state == s && (Awaiting(s.phase) || s.phase == Done)
            else
              && (i.step.EvaluateForm? ==> left > 0)
              && Rank(i.state, if i.step.EvaluateForm? then left - 1 else left) < Rank(s, left)
              && (Awaiting(i.state.phase) || i.state.phase == Done)
  {
  }

  lemma Counted(w: World, s: ExecState, step: StepKind)
    ensures Note(w, s, step).issued == w.issued + (if step == Invalid then 0 else 1)
    ensures Note(w, s, step).forms == w.forms + (if step.EvaluateForm? then 1 else 0)
    ensures step == Invalid ==> Note(w, s, step) == w
  {
  }

  lemma TakeStepRank(s: ExecState, left: nat)
    requires s.next <= |s.source|
    requires if left == 0 then NextForm(s.source, s.next).NoMore? else NextForm(s.source, s.next).Form?
    ensures var i := TakeStep(s);
            if i.step == Invalid then i.state == s && (Awaiting(s.phase) || s.phase == Done)
            else
              && (i.step.EvaluateForm? ==> left > 0)
              && Rank(i.state, if i.step.EvaluateForm? then left - 1 else left) < Rank(s, left)
              && (Awaiting(i.state.phase) || i.state.phase == Done)
  {
    SettleRank(s, left);
    IssueRank(Settle(s), left);
  }

  lemma TakeRank(x: System, all: seq<Next>)
    requires Inv(x, all)
    ensures Inv(Do(x, Take), all)
    ensures if TakeStep(x.exec).step == Invalid
            then Do(x, Take) == x && (Awaiting(x.exec.phase) || x.exec.phase == Done)
            else
              && StepsLeft(Do(x, Take), all) < StepsLeft(x, all)
              && Do(x, Take).world.issued == x.world.issued + 1
              && (Awaiting(Do(x, Take).exec.phase) || Do(x, Take).exec.phase == Done)
  {
    TakeKeeps(x, all);
    NextIsForm(x, all);
    TakeStepRank(x.exec, |all| - x.world.forms);
    Counted(x.world, x.exec, TakeStep(x.exec).step);
  }

  /** The phases that a completed step may lead to. */
  predicate Leads(from: Phase, to: Phase) {
    match from
    case AwaitingBegin => to in {BetweenForms, CloseEmpty, Terminal}
    case AwaitingForm(_, _) => to in {BetweenForms, ClearRetained, Rollback}
    case AwaitingCommit => to in {EmitEvalValue, Terminal, ClearRetained, Rollback}
    case AwaitingClear => to == Rollback
    case _ => to == Terminal
  }

  lemma CompletedLeads(s: ExecState, r: StepResult)
    requires CompleteStep(s, r).Some?
    ensures Leads(s.phase, CompleteStep(s, r).value.phase) && Awaiting(s.phase)
  {
  }

  lemma CompletedRank(s: ExecState, r: StepResult, left: nat)
    requires CompleteStep(s, r).Some?
    ensures Rank(CompleteStep(s, r).value, left) <= Rank(s, left) && !Awaiting(CompleteStep(s, r).value.phase)
  {
    CompletedLeads(s, r);
  }

  lemma CompleteRank(x: System, r: StepResult, all: seq<Next>)
    requires Inv(x, all)
    ensures Inv(Do(x, Complete(r)), all) && StepsLeft(Do(x, Complete(r)), all) <= StepsLeft(x, all)
    ensures !Awaiting(Do(x, Complete(r)).exec.phase) && Do(x, Complete(r)).world.issued == x.world.issued
  {
    DoKeeps(x, Complete(r), all);
    if CompleteStep(x.exec, r).Some? {
      CompletedRank(x.exec, r, |all| - x.world.forms);
    }
  }

  lemma RequestRank(s: ExecState, left: nat)
    ensures Rank(RequestCancel(s), left) <= Rank(s, left) && Rank(CancelBeforeStart(s), left) <= Rank(s, left)
    ensures Rank(ExpireBeforeStart(s), left) <= Rank(s, left) && Rank(Abandon(s), left) <= Rank(s, left)
  {
  }

  lemma OtherRank(x: System, a: Action, all: seq<Next>)
    requires Inv(x, all) && !a.Take? && !a.Complete?
    ensures Inv(Do(x, a), all) && StepsLeft(Do(x, a), all) <= StepsLeft(x, all)
    ensures Do(x, a).world.issued == x.world.issued
  {
    DoKeeps(x, a, all);
    RequestRank(x.exec, |all| - x.world.forms);
  }

  /** In every run at most five steps more than there are forms are issued. */
  lemma {:induction false} StepsBounded(x: System, acts: seq<Action>, all: seq<Next>)
    requires Inv(x, all)
    ensures Inv(After(x, acts), all)
    ensures After(x, acts).world.issued + StepsLeft(After(x, acts), all) <= x.world.issued + StepsLeft(x, all)
    decreases |acts|
  {
    if acts != [] {
      match acts[0] {
        case Take => TakeRank(x, all);
        case Complete(r) => CompleteRank(x, r, all);
        case _ => OtherRank(x, acts[0], all);
      }
      StepsBounded(Do(x, acts[0]), acts[1..], all);
    }
  }

  /** The editor takes a step and completes it, again and again. */
  function Rounds(x: System, results: seq<StepResult>): System
    requires x.exec.next <= |x.exec.source|
    decreases |results|
  {
    if results == [] then x else Rounds(Do(Do(x, Take), Complete(results[0])), results[1..])
  }

  /** However the steps turn out, an execution of `n` forms is done after at most `n + 5` of them. */
  lemma DoneInTime(mode: ExecMode, raw: Raw, s: ExecState, results: seq<StepResult>)
    requires Creates(mode, raw, Created(s)) && |results| >= |FormsFrom(s.source, 0)| + 5
    ensures Rounds(System(s, Untouched), results).exec.phase == Done
  {
    InvInitially(mode, raw, s);
    RoundsEnd(System(s, Untouched), results, FormsFrom(s.source, 0));
  }

  lemma {:induction false} RoundsEnd(x: System, results: seq<StepResult>, all: seq<Next>)
    requires Inv(x, all) && !Awaiting(x.exec.phase) && |results| >= StepsLeft(x, all)
    ensures Rounds(x, results).exec.phase == Done
    decreases |results|
  {
    if results != [] {
      var y := Do(x, Take);
      TakeRank(x, all);
      CompleteRank(y, results[0], all);
      RoundsEnd(Do(y, Complete(results[0])), results[1..], all);
    }
  }
}
