/** The execution as the object that the scheduler drives. */
module ExecMachine {
  import opened Text
  import opened Forms
  import opened Scanner
  import opened ValueBridge
  import opened Exec

  class Execution {
    const mode: ExecMode
    const source: string
    const io: ExecIo
    var nextScan: ScanPosition
    var nextFormIndex: nat
    var phase: Phase
    var formHandedOff: bool
    var valueRetained: bool
    var evalLocation: Option<Place>
    var cancelRequested: bool
    var unwind: Option<Unwind>
    var outcome: Option<Outcome>
    /** The position in characters that `nextScan` stands for. */
    ghost var next: nat

    ghost function State(): ExecState
      reads this, io
    {
      ExecState(mode, source, next, nextFormIndex, phase, formHandedOff, valueRetained, evalLocation, cancelRequested,
                unwind, outcome, io.bridge)
    }

    /** What is left of the source has been validated. */
    ghost predicate Valid()
      reads this
    {
      Whole(source, next) && nextScan == PositionAt(source, next, false) && AllForms(FormsFrom(source, next))
    }

    constructor Validated(mode: ExecMode, source: string, empty: bool, io: ExecIo)
      requires AllForms(FormsFrom(source, 0)) && io.bridge == Idle
      ensures Valid() && State() == Initial(mode, source, empty) && this.io == io
    {
      this.mode, this.source, this.io := mode, source, io;
      nextScan, next, nextFormIndex := ScanPosition(0, 1, 1, false), 0, 1;
      phase := if empty then Terminal else BeginUndoGroup;
      formHandedOff, valueRetained, evalLocation, cancelRequested := false, false, None, false;
      unwind, outcome := None, if empty then Some(Success) else None;
    }

    method RequestCancel() returns (accepted: bool)
      modifies this
      ensures accepted == AcceptsCancel(old(State())) && State() == Exec.RequestCancel(old(State()))
      ensures Valid() == old(Valid())
    {
      if cancelRequested {
        return true;
      }
      if unwind.Some? {
        return false;
      }
      match phase {
        case BeginUndoGroup =>
        case AwaitingBegin =>
        case BetweenForms =>
        case AwaitingForm(_, _) =>
        case _ => return false;
      }
      cancelRequested := true;
      return true;
    }

    method ExpireBeforeStart() returns (expired: bool)
      modifies this
      ensures expired == Expires(old(State())) && State() == Exec.ExpireBeforeStart(old(State()))
      ensures Valid() == old(Valid())
    {
      if formHandedOff || outcome.Some? || cancelRequested {
        return false;
      }
      match phase {
        case BeginUndoGroup =>
          outcome := Some(Failed(NeverStarted));
          phase := Terminal;
        case AwaitingBegin => unwind := Some(ByFailure(NeverStarted));
        case BetweenForms =>
          unwind := Some(ByFailure(NeverStarted));
          phase := CloseEmpty;
        case _ => return false;
      }
      return true;
    }

    method CancelBeforeStart() returns (cancelled: bool)
      modifies this
      ensures cancelled == CancelsBeforeStart(old(State())) && State() == Exec.CancelBeforeStart(old(State()))
      ensures Valid() == old(Valid())
    {
      if outcome.Some? || phase != BeginUndoGroup {
        return false;
      }
      cancelRequested, outcome, phase := true, Some(Cancelled), Terminal;
      return true;
    }

    method BeginToUnwind(cause: Unwind)
      modifies this
      ensures State() == BeginUnwind(old(State()), cause) && Valid() == old(Valid())
    {
      unwind := Some(cause);
      phase := if mode == Eval && formHandedOff then ClearRetained else Rollback;
    }

    /** Settles what needs no step, then issues the next step. */
    method TakeStep() returns (step: StepKind)
      requires Valid()
      modifies this, io
      ensures Valid() && Issued(State(), step) == Exec.TakeStep(old(State()))
    {
      if phase == BeginUndoGroup && cancelRequested {
        outcome, phase := Some(Cancelled), Terminal;
      } else if phase == BetweenForms && cancelRequested {
        if formHandedOff {
          BeginToUnwind(ByCancel);
        } else {
          unwind, phase := Some(ByCancel), CloseEmpty;
        }
      }
      if phase == BetweenForms {
        step := TakeForm();
      } else {
        step := TakeOther();
      }
    }

    method TakeForm() returns (step: StepKind)
      requires Valid() && phase == BetweenForms && !cancelRequested
      modifies this, io
      ensures Valid() && Issued(State(), step) == Issue(old(State())) && !NextForm(source, old(next)).Error?
    {
      var item, position := ScanNext();
      match item
      case Failure(error) => assert false;
      case End =>
        phase := AwaitingCommit;
        step := CommitUndo;
      case Span(span) =>
        ghost var form := NextForm(source, next);
        assert span == SpanOf(source, form.start, form.end);
        HandOff(span, position, form.end);
        step := EvaluateForm(span, mode == Eval);
    }

    method HandOff(span: FormSpan, position: ScanPosition, ghost end: nat)
      modifies this, io
      ensures State() == HandedOff(old(State()), end, Place(span.line, span.column)) && nextScan == position
    {
      nextScan, next := position, end;
      var place := Place(span.line, span.column);
      phase, nextFormIndex := AwaitingForm(nextFormIndex, place), nextFormIndex + 1;
      if mode == Eval {
        evalLocation := Some(place);
      }
      formHandedOff := true;
      io.BeginValueOutput(Kind.Form);
    }

    /** The source was validated: the position is good and the scanner finds no error. */
    method ScanNext() returns (item: Item, position: ScanPosition)
      requires Valid()
      ensures Reports(source, NextForm(source, next), item) && !item.Failure?
      ensures item.Span? ==> var end := NextForm(source, next).end;
                && Whole(source, end) && position == PositionAt(source, end, false) && AllForms(FormsFrom(source, end))
    {
      var scanner := Resume(source, nextScan);
      assert scanner != null && scanner.Valid() && scanner.cursor.at == next && !scanner.finished;
      ghost var form, rest := NextForm(source, next), FormsFrom(source, next);
      assert !form.Error?;
      if form.Form? {
        assert rest == [form] + FormsFrom(source, form.end);
      }
      item := scanner.Next();
      position := scanner.Position();
    }

    method TakeOther() returns (step: StepKind)
      requires phase != BetweenForms && next <= |source|
      modifies this, io
      ensures Issued(State(), step) == Issue(old(State())) && Valid() == old(Valid())
    {
      match phase {
        case BeginUndoGroup =>
          phase := AwaitingBegin;
          return BeginUndo;
        case EmitEvalValue =>
          io.BeginValueOutput(EvalValue);
          phase := AwaitingEmit;
          return EmitValue;
        case ClearRetained =>
          phase := AwaitingClear;
          return ClearValue;
        case CloseEmpty =>
          phase := AwaitingClose;
          return CloseEmptyUndo;
        case Rollback =>
          phase := AwaitingRollback;
          return RollbackUndo;
        case Terminal =>
          phase := Done;
          return Finished;
        case _ => return Invalid;
      }
    }

    method CompleteStep(r: StepResult) returns (awaited: bool)
      modifies this, io
      ensures awaited == Exec.CompleteStep(old(State()), r).Some?
      ensures State() == if awaited then Exec.CompleteStep(old(State()), r).value else old(State())
      ensures Valid() == old(Valid())
    {
      awaited := true;
      match phase {
        case AwaitingBegin => FinishBegin(r);
        case AwaitingForm(_, _) => FinishForm(r);
        case AwaitingCommit => FinishCommit(r);
        case AwaitingEmit => FinishEmit(r);
        case AwaitingClear => FinishClear(r);
        case AwaitingClose => awaited := FinishClose(r);
        case AwaitingRollback => awaited := FinishRollback(r);
        case _ => awaited := false;
      }
    }

    method FinishBegin(r: StepResult)
      modifies this
      ensures State() == CompleteBegin(old(State()), r) && Valid() == old(Valid())
    {
      if r.Ok() {
        if unwind.Some? {
          phase := CloseEmpty;
        } else if cancelRequested {
          unwind, phase := Some(ByCancel), CloseEmpty;
        } else {
          phase := BetweenForms;
        }
      } else if unwind.Some? && unwind.value.ByFailure? {
        outcome, unwind, phase := Some(Failed(unwind.value.failure)), None, Terminal;
      } else {
        unwind, outcome, phase := None, Some(Failed(NeverStarted)), Terminal;
      }
    }

    method FinishForm(r: StepResult)
      requires phase.AwaitingForm?
      modifies this, io
      ensures State() == CompleteForm(old(State()), r) && Valid() == old(Valid())
    {
      var failure := ExecFailure(Some(phase.index), Some(phase.place), Unknown);
      var bridgeFailure := io.CloseValueOutput(Kind.Form);
      if mode == Eval && r.Ok() {
        valueRetained := true;
      }
      if r.PrimaryFailed() || bridgeFailure.Some? || !r.Ok() {
        BeginToUnwind(ByFailure(failure));
      } else if cancelRequested {
        BeginToUnwind(ByCancel);
      } else {
        phase := BetweenForms;
      }
    }

    method FinishCommit(r: StepResult)
      modifies this
      ensures State() == CompleteCommit(old(State()), r) && Valid() == old(Valid())
    {
      if !r.Ok() {
        BeginToUnwind(ByFailure(NobodyKnows));
      } else if mode == Eval && valueRetained {
        phase := EmitEvalValue;
      } else if mode == Eval {
        outcome, phase := Some(Failed(ExecFailure(Some(1), evalLocation, Committed))), Terminal;
      } else {
        outcome, phase := Some(Success), Terminal;
      }
    }

    method FinishEmit(r: StepResult)
      modifies this, io
      ensures State() == CompleteEmit(old(State()), r) && Valid() == old(Valid())
    {
      var bridgeFailure := io.CloseValueOutput(EvalValue);
      if r.PrimaryFailed() || bridgeFailure.Some? || !r.Ok() {
        outcome := Some(Failed(ExecFailure(Some(1), evalLocation, Committed)));
      } else {
        valueRetained := false;
        outcome := Some(Success);
      }
      phase := Terminal;
    }

    method FinishClear(r: StepResult)
      modifies this
      ensures State() == CompleteClear(old(State()), r) && Valid() == old(Valid())
    {
      if r.Ok() {
        valueRetained := false;
      } else if unwind.None? || unwind.value.ByCancel? {
        unwind := Some(ByFailure(ExecFailure(Some(1), evalLocation, Unknown)));
      }
      phase := Rollback;
    }

    method FinishClose(r: StepResult) returns (awaited: bool)
      modifies this
      ensures awaited == old(unwind).Some?
      ensures State() == if awaited then CompleteClose(old(State()), r) else old(State())
      ensures Valid() == old(Valid())
    {
      if unwind.None? {
        return false;
      }
      match unwind.value {
        case ByCancel => outcome := Some(if r.Ok() then Cancelled else Failed(NobodyKnows));
        case ByFailure(f) => outcome := Some(Failed(if r.Ok() then f else f.(drawing := Unknown)));
      }
      unwind, phase := None, Terminal;
      return true;
    }

    method FinishRollback(r: StepResult) returns (awaited: bool)
      modifies this
      ensures awaited == old(unwind).Some?
      ensures State() == if awaited then CompleteRollback(old(State()), r) else old(State())
      ensures Valid() == old(Valid())
    {
      if unwind.None? {
        return false;
      }
      match unwind.value {
        case ByCancel => outcome := Some(if r.Ok() then Cancelled else Failed(NobodyKnows));
        case ByFailure(f) => outcome := Some(Failed(f.(drawing := if r.Ok() then RolledBack else Unknown)));
      }
      unwind, phase := None, Terminal;
      return true;
    }

    method RecordBridgeFinalizationFailure() returns (recorded: bool)
      modifies this
      ensures recorded == old(outcome).Some? && State() == RecordFinalizationFailure(old(State()))
      ensures Valid() == old(Valid())
    {
      if outcome.None? {
        return false;
      }
      outcome := Some(IntoUnknown(outcome.value));
      return true;
    }

    method TakeOutcome() returns (taken: Option<Outcome>)
      modifies this
      ensures taken == old(outcome) && State() == old(State()).(outcome := None)
      ensures Valid() == old(Valid())
    {
      taken := outcome;
      outcome := None;
    }

    method CloseOpenOutput()
      modifies io
      ensures io.bridge == if phase.AwaitingForm? || phase == AwaitingEmit then Close(old(io.bridge))
                           else old(io.bridge)
    {
      if phase.AwaitingForm? {
        var _ := io.CloseValueOutput(Kind.Form);
      } else if phase == AwaitingEmit {
        var _ := io.CloseValueOutput(EvalValue);
      }
    }

    method Abandon()
      modifies this, io
      ensures State() == Exec.Abandon(old(State())) && Valid() == old(Valid())
    {
      var was := phase;
      CloseOpenOutput();
      var existing := outcome;
      if existing.None? && unwind.Some? {
        existing := Some(if unwind.value.ByFailure? then Failed(unwind.value.failure) else Cancelled);
        unwind := None;
      }
      if existing.Some? {
        outcome := Some(IntoUnknown(existing.value));
      } else {
        match was {
          case AwaitingForm(index, place) => outcome := Some(Failed(ExecFailure(Some(index), Some(place), Unknown)));
          case AwaitingEmit => outcome := Some(Failed(ExecFailure(Some(1), evalLocation, Unknown)));
          case _ => outcome := Some(Failed(NobodyKnows));
        }
      }
      phase := if was == Done then Done else Terminal;
    }
  }

  datatype NewResult = Ok(execution: Execution) | Err(error: SourceError)

  /** Accepts a source of bounded size whose forms can all be scanned; an evaluation has just one. */
  method New(mode: ExecMode, raw: Raw, output: Sink.OutputSink) returns (r: NewResult)
    ensures r.Ok? ==> fresh(r.execution) && fresh(r.execution.io) && r.execution.Valid()
                      && Creates(mode, raw, Created(r.execution.State()))
    ensures r.Err? ==> Creates(mode, raw, Refused(r.error))
  {
    if SourceBytes(raw) > MAX_EXECUTION_SOURCE_BYTES {
      return Err(SourceTooLarge);
    }
    if raw.NotUtf8? {
      return Err(InvalidUtf8);
    }
    var source := WithoutMark(raw.text);
    if '\0' in source {
      return Err(NullCharacter);
    }
    var count := Validate(source);
    if count.Unscannable? {
      return Err(SourceError.Unscannable(count.error));
    }
    if mode == Eval && count.forms != 1 {
      return Err(ExpectedOneForm(count.forms));
    }
    var io := new ExecIo(output);
    var execution := new Execution.Validated(mode, source, count.forms == 0, io);
    return Ok(execution);
  }
}
