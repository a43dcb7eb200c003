/** The execution of a source as one undo transaction, as functions on its state. */
module Exec {
  import opened Text
  import opened Forms
  import opened Scanner
  import opened ValueBridge

  const MAX_EXECUTION_SOURCE_BYTES: nat := 4 * 1024 * 1024

  datatype ExecMode = Eval | Exec
  datatype DrawingOutcome = NotStarted | RolledBack | Committed | Unknown
  datatype Place = Place(line: nat, column: nat)
  datatype ExecFailure = ExecFailure(formIndex: Option<nat>, location: Option<Place>, drawing: DrawingOutcome)
  datatype Outcome = Success | Failed(failure: ExecFailure) | Cancelled
  datatype Unwind = ByFailure(failure: ExecFailure) | ByCancel

  datatype StepKind =
    | BeginUndo | EvaluateForm(span: FormSpan, retain: bool) | CommitUndo | EmitValue | ClearValue
    | CloseEmptyUndo | RollbackUndo | Finished | Invalid

  datatype ResultKind = Succeeded | LispError | NativeError
  /** What the editor reports of a step, and whether the bridge's symbols could be cleared after it. */
  datatype StepResult = StepResult(kind: ResultKind, symbolsCleared: bool)
  {
    predicate Ok() { kind == Succeeded && symbolsCleared }
    predicate PrimaryFailed() { kind != Succeeded }
  }

  datatype Phase =
    | BeginUndoGroup
    | AwaitingBegin
    | BetweenForms
    | AwaitingForm(index: nat, place: Place)
    | AwaitingCommit
    | EmitEvalValue
    | AwaitingEmit
    | ClearRetained
    | AwaitingClear
    | CloseEmpty
    | AwaitingClose
    | Rollback
    | AwaitingRollback
    | Terminal
    | Done

  datatype ExecState = ExecState(
    mode: ExecMode,
    source: string,
    next: nat,
    nextIndex: nat,
    phase: Phase,
    handedOff: bool,
    retained: bool,
    evalPlace: Option<Place>,
    cancel: bool,
    unwind: Option<Unwind>,
    outcome: Option<Outcome>,
    bridge: Bridge)

  // ----- Construction -----

  /** A source as it arrives: its bytes may not be UTF-8, and may begin with a byte order mark. */
  datatype Raw = Utf8(text: string) | NotUtf8(bytes: nat, marked: bool)

  datatype SourceError =
    | SourceTooLarge | InvalidUtf8 | NullCharacter | Unscannable(error: ScanError) | ExpectedOneForm(actual: nat)

  datatype Created = Created(state: ExecState) | Refused(error: SourceError)

  const MARK: char := '\U{feff}'

  function WithoutMark(text: string): string {
    if text != "" && text[0] == MARK then text[1..] else text
  }

  function SourceBytes(raw: Raw): nat {
    match raw
    case Utf8(text) => ByteLen(WithoutMark(text))
    case NotUtf8(bytes, marked) => if marked && bytes >= 3 then bytes - 3 else bytes
  }

  function Initial(mode: ExecMode, source: string, empty: bool): ExecState {
    ExecState(mode, source, 0, 1, if empty then Terminal else BeginUndoGroup, false, false, None, false, None,
              if empty then Some(Success) else None, Idle)
  }

  ghost predicate Creates(mode: ExecMode, raw: Raw, r: Created)
  {
    if SourceBytes(raw) > MAX_EXECUTION_SOURCE_BYTES then r == Refused(SourceTooLarge)
    else if raw.NotUtf8? then r == Refused(InvalidUtf8)
    else
      var source := WithoutMark(raw.text);
      var forms := FormsFrom(source, 0);
      if '\0' in source then r == Refused(NullCharacter)
      else if !AllForms(forms) then
        r.Refused? && r.error.Unscannable? && Reports(source, forms[|forms| - 1], Item.Failure(r.error.error))
      else if mode == Eval && |forms| != 1 then r == Refused(ExpectedOneForm(|forms|))
      else r == Created(Initial(mode, source, forms == []))
  }

  // ----- Requests from outside -----

  predicate Cancellable(p: Phase) {
    p in {BeginUndoGroup, AwaitingBegin, BetweenForms} || p.AwaitingForm?
  }

  predicate AcceptsCancel(s: ExecState) {
    s.cancel || (s.unwind.None? && Cancellable(s.phase))
  }

  function RequestCancel(s: ExecState): ExecState {
    if AcceptsCancel(s) then s.(cancel := true) else s
  }

  const NeverStarted: ExecFailure := ExecFailure(None, None, NotStarted)
  const NobodyKnows: ExecFailure := ExecFailure(None, None, Unknown)

  predicate Expires(s: ExecState) {
    !s.handedOff && s.outcome.None? && !s.cancel && s.phase in {BeginUndoGroup, AwaitingBegin, BetweenForms}
  }

  function ExpireBeforeStart(s: ExecState): ExecState {
    if !Expires(s) then s
    else if s.phase == BeginUndoGroup then s.(outcome := Some(Failed(NeverStarted)), phase := Terminal)
    else if s.phase == AwaitingBegin then s.(unwind := Some(ByFailure(NeverStarted)))
    else s.(unwind := Some(ByFailure(NeverStarted)), phase := CloseEmpty)
  }

  predicate CancelsBeforeStart(s: ExecState) {
    s.outcome.None? && s.phase == BeginUndoGroup
  }

  function CancelBeforeStart(s: ExecState): ExecState {
    if CancelsBeforeStart(s) then s.(cancel := true, outcome := Some(Cancelled), phase := Terminal) else s
  }

  predicate ReadinessWaitPending(s: ExecState) {
    !s.handedOff && s.outcome.None? && !s.cancel && s.unwind.None?
  }

  // ----- Steps -----

  function BeginUnwind(s: ExecState, cause: Unwind): ExecState {
    s.(unwind := Some(cause), phase := if s.mode == Eval && s.handedOff then ClearRetained else Rollback)
  }

  /** What is settled without a step of the editor. */
  function Settle(s: ExecState): (t: ExecState)
    requires s.next <= |s.source|
    ensures t.source == s.source && t.next == s.next && t.mode == s.mode && t.cancel == s.cancel
  {
    if s.phase == BeginUndoGroup && s.cancel then s.(outcome := Some(Cancelled), phase := Terminal)
    else if s.phase == BetweenForms && s.cancel then
      if s.handedOff then BeginUnwind(s, ByCancel) else s.(unwind := Some(ByCancel), phase := CloseEmpty)
    else if s.phase == BetweenForms && NextForm(s.source, s.next).Error? then
      var place := NextForm(s.source, s.next).place;
      BeginUnwind(s, ByFailure(ExecFailure(None, Some(PlaceAt(s.source, place)), Unknown)))
    else s
  }

  function PlaceAt(source: string, at: nat): Place {
    if at <= |source| then Place(LineAt(source, at), ColumnAt(source, at)) else Place(0, 0)
  }

  /** A form at `place` that ends at `end` is handed off; its output may now be written. */
  function HandedOff(s: ExecState, end: nat, place: Place): ExecState {
    s.(next := end, nextIndex := s.nextIndex + 1, handedOff := true, phase := AwaitingForm(s.nextIndex, place),
       evalPlace := if s.mode == Eval then Some(place) else s.evalPlace, bridge := Begin(s.bridge, Kind.Form))
  }

  datatype Issued = Issued(state: ExecState, step: StepKind)

  function Issue(s: ExecState): (i: Issued)
    requires s.next <= |s.source|
    ensures i.state.source == s.source && s.next <= i.state.next <= |s.source|
    ensures i.state.mode == s.mode && i.state.cancel == s.cancel
  {
    match s.phase
    case BeginUndoGroup => Issued(s.(phase := AwaitingBegin), BeginUndo)
    case BetweenForms =>
      (match NextForm(s.source, s.next)
       case Form(start, end) =>
         Issued(HandedOff(s, end, PlaceAt(s.source, start)), EvaluateForm(SpanOf(s.source, start, end), s.mode == Eval))
       case NoMore => Issued(s.(phase := AwaitingCommit), CommitUndo)
       case Error(_, _) => Issued(s, Invalid))
    case EmitEvalValue => Issued(s.(phase := AwaitingEmit, bridge := Begin(s.bridge, EvalValue)), EmitValue)
    case ClearRetained => Issued(s.(phase := AwaitingClear), ClearValue)
    case CloseEmpty => Issued(s.(phase := AwaitingClose), CloseEmptyUndo)
    case Rollback => Issued(s.(phase := AwaitingRollback), RollbackUndo)
    case Terminal => Issued(s.(phase := Done), Finished)
    case _ => Issued(s, Invalid)
  }

  function TakeStep(s: ExecState): Issued
    requires s.next <= |s.source|
  {
    Issue(Settle(s))
  }

  predicate Awaiting(p: Phase) {
    p in {AwaitingBegin, AwaitingCommit, AwaitingEmit, AwaitingClear, AwaitingClose, AwaitingRollback}
      || p.AwaitingForm?
  }

  function EvalFailure(s: ExecState, drawing: DrawingOutcome): ExecFailure {
    ExecFailure(Some(1), s.evalPlace, drawing)
  }

  function CompleteBegin(s: ExecState, r: StepResult): ExecState {
    if r.Ok() then
      if s.unwind.Some? then s.(phase := CloseEmpty)
      else if s.cancel then s.(unwind := Some(ByCancel), phase := CloseEmpty)
      else s.(phase := BetweenForms)
    else if s.unwind.Some? && s.unwind.value.ByFailure? then
      s.(unwind := None, outcome := Some(Failed(s.unwind.value.failure)), phase := Terminal)
    else s.(unwind := None, outcome := Some(Failed(NeverStarted)), phase := Terminal)
  }

  function CompleteForm(s: ExecState, r: StepResult): ExecState
    requires s.phase.AwaitingForm?
  {
    var bridgeFailed := CloseFailure(s.bridge, Kind.Form).Some?;
    var t := s.(bridge := Close(s.bridge), retained := s.retained || (s.mode == Eval && r.Ok()));
    if bridgeFailed || !r.Ok() then
      BeginUnwind(t, ByFailure(ExecFailure(Some(s.phase.index), Some(s.phase.place), Unknown)))
    else if s.cancel then BeginUnwind(t, ByCancel)
    else t.(phase := BetweenForms)
  }

  function CompleteCommit(s: ExecState, r: StepResult): ExecState {
    if !r.Ok() then BeginUnwind(s, ByFailure(NobodyKnows))
    else if s.mode == Exec then s.(outcome := Some(Success), phase := Terminal)
    else if s.retained then s.(phase := EmitEvalValue)
    else s.(outcome := Some(Failed(EvalFailure(s, Committed))), phase := Terminal)
  }

  function CompleteEmit(s: ExecState, r: StepResult): ExecState {
    var clean := r.Ok() && CloseFailure(s.bridge, EvalValue).None?;
    var t := s.(bridge := Close(s.bridge), phase := Terminal);
    if clean then t.(retained := false, outcome := Some(Success))
    else t.(outcome := Some(Failed(EvalFailure(s, Committed))))
  }

  function CompleteClear(s: ExecState, r: StepResult): ExecState {
    if r.Ok() then s.(retained := false, phase := Rollback)
    else
      var cause := if s.unwind.Some? && s.unwind.value.ByFailure? then s.unwind.value
                   else ByFailure(EvalFailure(s, Unknown));
      s.(unwind := Some(cause), phase := Rollback)
  }

  function CompleteClose(s: ExecState, r: StepResult): ExecState
    requires s.unwind.Some?
  {
    var outcome :=
      match s.unwind.value
      case ByCancel => if r.Ok() then Cancelled else Failed(NobodyKnows)
      case ByFailure(f) => Failed(if r.Ok() then f else f.(drawing := Unknown));
    s.(unwind := None, outcome := Some(outcome), phase := Terminal)
  }

  function CompleteRollback(s: ExecState, r: StepResult): ExecState
    requires s.unwind.Some?
  {
    var outcome :=
      match s.unwind.value
      case ByCancel => if r.Ok() then Cancelled else Failed(NobodyKnows)
      case ByFailure(f) => Failed(f.(drawing := if r.Ok() then RolledBack else Unknown));
    s.(unwind := None, outcome := Some(outcome), phase := Terminal)
  }

  /** No state if the step was not awaited. */
  function CompleteStep(s: ExecState, r: StepResult): (t: Option<ExecState>)
    ensures t.Some? ==> t.value.source == s.source && t.value.next == s.next
    ensures t.Some? ==> t.value.mode == s.mode && t.value.cancel == s.cancel
  {
    match s.phase
    case AwaitingBegin => Some(CompleteBegin(s, r))
    case AwaitingForm(_, _) => Some(CompleteForm(s, r))
    case AwaitingCommit => Some(CompleteCommit(s, r))
    case AwaitingEmit => Some(CompleteEmit(s, r))
    case AwaitingClear => Some(CompleteClear(s, r))
    case AwaitingClose => if s.unwind.None? then None else Some(CompleteClose(s, r))
    case AwaitingRollback => if s.unwind.None? then None else Some(CompleteRollback(s, r))
    case _ => None
  }

  // ----- When the editor or the bridge can no longer be trusted -----

  function IntoUnknown(o: Outcome): Outcome {
    Failed(if o.Failed? then o.failure.(drawing := Unknown) else NobodyKnows)
  }

  function RecordFinalizationFailure(s: ExecState): ExecState {
    if s.outcome.None? then s else s.(outcome := Some(IntoUnknown(s.outcome.value)))
  }

  function Abandon(s: ExecState): ExecState {
    var bridge := if s.phase.AwaitingForm? || s.phase == AwaitingEmit then Close(s.bridge) else s.bridge;
    var existing :=
      if s.outcome.Some? then s.outcome
      else if s.unwind.Some? then
        Some(if s.unwind.value.ByFailure? then Failed(s.unwind.value.failure) else Cancelled)
      else None;
    var failure :=
      if existing.Some? then IntoUnknown(existing.value)
      else
        match s.phase
        case AwaitingForm(index, place) => Failed(ExecFailure(Some(index), Some(place), Unknown))
        case AwaitingEmit => Failed(EvalFailure(s, Unknown))
        case _ => Failed(NobodyKnows);
    s.(bridge := bridge, unwind := if s.outcome.Some? then s.unwind else None, outcome := Some(failure),
       phase := if s.phase == Done then Done else Terminal)
  }
}
