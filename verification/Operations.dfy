/** The operations that jobs carry out, what the editor answers, and what becomes of it. */
module Operations {
  import opened Text
  import opened Exec

  type Key = nat
  type DrawingId = nat

  datatype Drawing = Drawing(key: Key, path: Option<string>, isDwg: bool, active: bool, modified: bool, readOnly: bool)

  /** The drawings open in the editor, and which of them a path names. */
  datatype Registry = Registry(byId: map<DrawingId, Drawing>, byPath: map<string, DrawingId>)

  type Execution = s: ExecState | s.next <= |s.source| witness Initial(ExecMode.Exec, "", true)

  datatype Operation =
    | Open(file: string)
    | Switch(id: DrawingId)
    | Save(id: DrawingId, to: Option<string>)
    | CloseDrawing(id: DrawingId, discard: bool)
    | Capture(id: DrawingId, captured: bool)
    | History(id: DrawingId)
    | Execute(id: DrawingId, exec: Execution)

  /** What the file system says of a path to save to. */
  datatype Availability = Free | Taken | Unusable

  datatype OperationOutcome = OfDrawing(id: DrawingId) | OfClose | OfCapture | OfExec(outcome: Outcome)

  datatype Error =
    | PluginStopping | NativeMutationStateUnknown | MutationCapacity | ExecCapacity | ReadinessTimedOut
    | DrawingNotFound | Dirty | ReadOnly | DestinationExists | SavePathUnavailable | NoName | NotDwg
    | DrawingGone | DrawingGenerationChanged | OpenNotPublished | SwitchNotPublished | SaveNotPublished
    | CloseNotPublished | CaptureInvalid | ExecNotFinished | NativeFailure(kind: ActionResult)

  datatype Result = Ok(outcome: OperationOutcome) | Err(error: Error)

  /** What the editor reports of an action. */
  datatype ActionResult =
    | NativeSuccess | NotQuiescent | DocumentContextFailed | DocumentContextRestoreFailed
    | ExecBridgeFinalizationFailed | ExecBridgeSymbolsClearFailed | ExecBridgeFailed
    | CaptureUnavailable | CaptureIsInvalid | CaptureRestoreFailed | OtherFailure(code: nat)

  /** Answered at once, or an action for the editor on a target. */
  datatype Prepared = Immediate(result: Result) | Native(target: Option<Key>)

  function Prepare(op: Operation, r: Registry, available: Availability): Prepared
  {
    match op
    case Open(path) =>
      if path in r.byPath then Immediate(Ok(OfDrawing(r.byPath[path]))) else Native(None)
    case Switch(id) => if id in r.byId then Native(Some(r.byId[id].key)) else Immediate(Err(DrawingNotFound))
    case Save(id, path) =>
      if id !in r.byId then Immediate(Err(DrawingNotFound)) else PrepareSave(r.byId[id], path, available)
    case CloseDrawing(id, discard) =>
      if id !in r.byId then Immediate(Err(DrawingNotFound))
      else if r.byId[id].modified && !discard then Immediate(Err(Dirty))
      else Native(Some(r.byId[id].key))
    case Capture(id, captured) =>
      if id !in r.byId then Immediate(Err(DrawingNotFound))
      else if captured then Immediate(Err(CaptureInvalid))
      else Native(Some(r.byId[id].key))
    case History(id) => if id in r.byId then Native(Some(r.byId[id].key)) else Immediate(Err(DrawingNotFound))
    case Execute(id, exec) =>
      if id !in r.byId then Immediate(Err(DrawingNotFound))
      else if exec.outcome.Some? then Immediate(Ok(OfExec(exec.outcome.value)))
      else Native(Some(r.byId[id].key))
  }

  function PrepareSave(d: Drawing, path: Option<string>, available: Availability): Prepared
  {
    if d.readOnly then Immediate(Err(ReadOnly))
    else if path.Some? then
      match available
      case Free => Native(Some(d.key))
      case Taken => Immediate(Err(DestinationExists))
      case Unusable => Immediate(Err(SavePathUnavailable))
    else if d.path.None? then Immediate(Err(NoName))
    else if !d.isDwg then Immediate(Err(NotDwg))
    else Native(Some(d.key))
  }

  /** What a finished operation is found to have done; the outcome of an execution is taken from it. */
  function Complete(op: Operation, r: Registry, target: Option<Key>): Result
  {
    match op
    case Open(path) => if path in r.byPath then Ok(OfDrawing(r.byPath[path])) else Err(OpenNotPublished)
    case Switch(id) =>
      if target.None? || id !in r.byId then Err(DrawingGone)
      else if r.byId[id].key != target.value then Err(DrawingGenerationChanged)
      else if !r.byId[id].active then Err(SwitchNotPublished)
      else Ok(OfDrawing(id))
    case Save(id, path) =>
      if id !in r.byId then Err(DrawingNotFound)
      else if target.None? then Err(DrawingGone)
      else if r.byId[id].key != target.value then Err(DrawingGenerationChanged)
      else if r.byId[id].modified || (path.Some? && r.byId[id].path != path) then Err(SaveNotPublished)
      else Ok(OfDrawing(id))
    case CloseDrawing(id, _) => if id in r.byId then Err(CloseNotPublished) else Ok(OfClose)
    case Capture(id, captured) =>
      if target.None? || id !in r.byId then Err(DrawingGone)
      else if r.byId[id].key != target.value then Err(DrawingGenerationChanged)
      else if captured then Ok(OfCapture)
      else Err(CaptureInvalid)
    case History(id) =>
      if target.None? || id !in r.byId then Err(DrawingGone)
      else if r.byId[id].key != target.value then Err(DrawingGenerationChanged)
      else Ok(OfDrawing(id))
    case Execute(_, exec) => if exec.outcome.Some? then Ok(OfExec(exec.outcome.value)) else Err(ExecNotFinished)
  }

  predicate OnOneDrawing(op: Operation) {
    op.Switch? || op.Save? || op.Capture? || op.History?
  }

  /** The editor is given the drawing as the registry knows it when the job is taken. */
  lemma TargetsItsDrawing(op: Operation, r: Registry, available: Availability)
    requires OnOneDrawing(op) && Prepare(op, r, available).Native?
    ensures op.id in r.byId && Prepare(op, r, available).target == Some(r.byId[op.id].key)
  {
  }

  /** Success is only found if the drawing of that target is still the one of this id. */
  lemma SucceedsOnItsTarget(op: Operation, r: Registry, target: Option<Key>)
    requires OnOneDrawing(op) && Complete(op, r, target).Ok?
    ensures op.id in r.byId && target == Some(r.byId[op.id].key)
  {
  }

  // ----- What the scheduler asks of an execution -----

  predicate CanWait(op: Operation) {
    op.Execute? ==> !op.exec.handedOff
  }

  predicate WaitPending(op: Operation) {
    op.Execute? && ReadinessWaitPending(op.exec)
  }

  function Expired(op: Operation): Operation {
    if op.Execute? then op.(exec := ExpireBeforeStart(op.exec)) else op
  }

  /** An execution whose cancellation was accepted before it handed off a form ends here. */
  predicate CancelsUnstarted(op: Operation) {
    op.Execute? && !op.exec.handedOff && op.exec.cancel && CancelsBeforeStart(op.exec)
  }

  // ----- What the editor's answer means -----

  predicate RequiresQuarantine(kind: ActionResult) {
    kind in {DocumentContextRestoreFailed, CaptureRestoreFailed, ExecBridgeFinalizationFailed,
             ExecBridgeSymbolsClearFailed}
  }

  /** What the editor may have left behind after an execution. */
  datatype Observation = Observation(undoOpen: bool, symbolsRetained: bool, formRetained: bool, portActive: bool,
                                     cleanupFailed: bool)
  {
    predicate Unproved() {
      undoOpen || symbolsRetained || formRetained || portActive || cleanupFailed
    }

    predicate OnlySymbols() {
      (symbolsRetained || cleanupFailed) && !undoOpen && !formRetained && !portActive
    }
  }

  datatype Decision = Decision(kind: ActionResult, quarantine: bool)

  function Classify(kind: ActionResult, seen: Observation): Decision
  {
    var preserve := kind == ExecBridgeSymbolsClearFailed && seen.OnlySymbols();
    Decision(
      if seen.Unproved() && kind != DocumentContextRestoreFailed && !preserve then ExecBridgeFinalizationFailed
      else kind,
      seen.Unproved() || RequiresQuarantine(kind))
  }

  /** The result of an action that the editor has answered with `kind`. */
  function CompleteNative(op: Operation, kind: ActionResult, r: Registry, target: Option<Key>): Result
  {
    if op.Execute? && op.exec.outcome.Some? then
      if kind !in {DocumentContextRestoreFailed, ExecBridgeFinalizationFailed, ExecBridgeSymbolsClearFailed,
                   ExecBridgeFailed}
      then Complete(op, r, target)
      else if kind == ExecBridgeSymbolsClearFailed && op.exec.outcome.value.Failed? then Complete(op, r, target)
      else if kind in {DocumentContextRestoreFailed, ExecBridgeFinalizationFailed}
      then Complete(op.(exec := RecordFinalizationFailure(op.exec)), r, target)
      else Err(NativeFailure(kind))
    else if kind == NativeSuccess then Complete(op, r, target)
    else Err(NativeFailure(kind))
  }

  /** A state that is not proved clean is quarantined, and the answer then is one that is never
      retried. */
  lemma UnprovedIsQuarantined(kind: ActionResult, seen: Observation)
    ensures var d := Classify(kind, seen);
            && (seen.Unproved() ==> d.quarantine)
            && (d.quarantine <==> RequiresQuarantine(d.kind))
            && (d.quarantine ==> d.kind != NotQuiescent)
  {
  }

  predicate Reassuring(r: Result) {
    r.Ok? && r.outcome.OfExec? && r.outcome.outcome in {Success, Cancelled}
  }

  /** An execution that ends in quarantine reports success or cancellation exactly if the editor's
      answer was that a capture could not be undone, which is no answer to an execution. */
  lemma QuarantineNeverReassures(op: Operation, kind: ActionResult, seen: Observation, r: Registry, target: Option<Key>)
    requires op.Execute? && Classify(kind, seen).quarantine
    ensures var d := Classify(kind, seen);
            Reassuring(CompleteNative(op, d.kind, r, target)) <==>
            kind == CaptureRestoreFailed && !seen.Unproved() && op.exec.outcome in {Some(Success), Some(Cancelled)}
  {
  }
}
