/**
 The execution protocol: the server's event stream with its control reader, the client's session with
 its interrupts, and the wires between them.
 */
module Protocol {
  import opened Text

  datatype Disposition = Accepted | TooLate
  datatype Outcome = Success | Cancelled | Failure
  datatype Event = Accept | Output | Acknowledge(disposition: Disposition) | Finish(outcome: Outcome)

  // ----- The client -----

  datatype Interrupt = Cancel(queued: bool) | Detach
  datatype Cancellation = NotQueued | Queued | Answered(disposition: Disposition)
  datatype InterruptPhase =
    | Attached
    | CancelRequested(cancellation: Cancellation)
    | DetachRequested(cancellation: Cancellation)

  function Note(p: InterruptPhase, i: Interrupt): InterruptPhase
  {
    match (p, i)
    case (Attached, Cancel(queued)) => CancelRequested(if queued then Queued else NotQueued)
    case (CancelRequested(c), Detach) => DetachRequested(c)
    case _ => p
  }

  datatype Receipt = Continue | Leave | Duplicate | InvalidReceipt

  datatype Acknowledged = Acknowledged(phase: InterruptPhase, receipt: Receipt)

  function Acknowledgement(p: InterruptPhase, d: Disposition): Acknowledged
  {
    match p
    case Attached => Acknowledged(CancelRequested(Answered(d)), Continue)
    case CancelRequested(Queued) => Acknowledged(CancelRequested(Answered(d)), Continue)
    case DetachRequested(Queued) => Acknowledged(DetachRequested(Answered(d)), Leave)
    case CancelRequested(NotQueued) => Acknowledged(p, InvalidReceipt)
    case DetachRequested(NotQueued) => Acknowledged(p, InvalidReceipt)
    case _ => Acknowledged(p, Duplicate)
  }

  datatype Verdict = Done(outcome: Outcome, stopped: bool) | Detached | Lost | OutputFailed | InvalidResponse

  datatype Session = Session(accepted: bool, interrupts: InterruptPhase, verdict: Option<Verdict>)

  const NewSession: Session := Session(false, Attached, None)

  datatype Input = FromServer(event: Event, written: bool) | Interrupted(interrupt: Interrupt) | ServerEnds

  predicate DetachAsked(p: InterruptPhase) {
    p.DetachRequested?
  }

  /** One turn of the session: an event, an interrupt, or the end of the stream. */
  function Turn(s: Session, input: Input): Session
  {
    if s.verdict.Some? then s
    else
      match input
      case Interrupted(i) =>
        var p := Note(s.interrupts, i);
        s.(interrupts := p, verdict := if DetachAsked(p) then Some(Detached) else None)
      case ServerEnds => s.(verdict := Some(if DetachAsked(s.interrupts) then Detached else Lost))
      case FromServer(event, written) => OnEvent(s, event, written)
  }

  function OnEvent(s: Session, event: Event, written: bool): Session
    requires s.verdict.None?
  {
    match event
    case Accept => if s.accepted then s.(verdict := Some(InvalidResponse)) else s.(accepted := true)
    case Output =>
      if !s.accepted then s.(verdict := Some(InvalidResponse))
      else if s.interrupts.Attached? && !written then s.(verdict := Some(OutputFailed))
      else s
    case Acknowledge(d) =>
      if !s.accepted then s.(verdict := Some(InvalidResponse))
      else
        var a := Acknowledgement(s.interrupts, d);
        var t := s.(interrupts := a.phase);
        (match a.receipt
         case Continue => t
         case Leave => t.(verdict := Some(Detached))
         case _ => t.(verdict := Some(InvalidResponse)))
    case Finish(outcome) =>
      if !s.accepted && outcome != Failure then s.(verdict := Some(InvalidResponse))
      else s.(verdict := Some(Done(outcome, !s.interrupts.Attached?)))
  }

  function Drive(s: Session, inputs: seq<Input>): Session
    decreases |inputs|
  {
    if inputs == [] then s else Drive(Turn(s, inputs[0]), inputs[1..])
  }

  // ----- The server -----

  datatype ServerPhase = SendAccepted | RelayOutput | AwaitCompletion | Ended

  /** What the control reader hands over: a disposition, or a failure that ends the stream. */
  datatype Control = Answer(disposition: Disposition) | Trouble

  datatype Server = Server(
    phase: ServerPhase,
    control: Option<Control>,
    cancelled: bool,  // the reader has seen a cancellation
    readerGone: bool)

  // ----- Both, and the wires between them -----

  datatype System = System(
    server: Server,
    session: Session,
    toServer: nat,  // cancellations on their way
    toClient: seq<Event>,
    cut: bool,  // nothing more comes from the server
    signals: seq<Interrupt>,  // published and not yet noted
    sent: Option<bool>,  // whether the cancellation could be queued, once that was tried
    published: nat)

  /** An execution that was admitted, or one that is refused with a lone failure. */
  function Opening(admitted: bool): System {
    System(Server(if admitted then SendAccepted else Ended, None, false, !admitted), NewSession, 0,
           if admitted then [] else [Finish(Failure)], false, [], None, 0)
  }

  datatype Step =
    | FirstSignal(queued: bool)
    | PublishCancel
    | SecondSignal
    | Reads(answer: Option<Disposition>)  // none: the scheduler cannot tell
    | ReaderFails
    | ReaderEnds
    | SendsAccepted
    | SendsOutput
    | OutputEnds
    | TakesControl
    | Finishes(outcome: Outcome)
    | Breaks
    | Delivers(written: bool)
    | DeliversEnd
    | Interrupts

  /** What one side may do now; a step that is not possible changes nothing. */
  function Next(x: System, step: Step): System
  {
    var s := x.server;
    match step
    case FirstSignal(queued) =>
      if x.sent.Some? then x else x.(sent := Some(queued), toServer := if queued then x.toServer + 1 else x.toServer)
    case PublishCancel =>
      if x.sent.None? || x.published != 0 then x
      else x.(signals := x.signals + [Cancel(x.sent.value)], published := 1)
    case SecondSignal => if x.published != 1 then x else x.(signals := x.signals + [Detach], published := 2)
    case Reads(answer) =>
      if s.readerGone || x.toServer == 0 || s.control.Some? then x
      else if s.cancelled then x.(toServer := x.toServer - 1)
      else if answer.None? then
        x.(toServer := x.toServer - 1, server := s.(control := Some(Trouble), readerGone := true))
      else x.(toServer := x.toServer - 1, server := s.(control := Some(Answer(answer.value)), cancelled := true))
    case ReaderFails =>
      if s.readerGone || s.control.Some? then x else x.(server := s.(control := Some(Trouble), readerGone := true))
    case ReaderEnds => x.(server := s.(readerGone := true))
    case SendsAccepted =>
      if s.phase != SendAccepted || x.cut then x
      else x.(toClient := x.toClient + [Accept], server := s.(phase := RelayOutput))
    case SendsOutput => if s.phase != RelayOutput || x.cut then x else x.(toClient := x.toClient + [Output])
    case OutputEnds => if s.phase != RelayOutput then x else x.(server := s.(phase := AwaitCompletion))
    case TakesControl =>
      if s.phase !in {RelayOutput, AwaitCompletion} || s.control.None? || x.cut then x
      else if s.control.value.Trouble? then x.(server := s.(control := None, phase := Ended), cut := true)
      else x.(server := s.(control := None), toClient := x.toClient + [Acknowledge(s.control.value.disposition)])
    case Finishes(outcome) =>
      if s.phase != AwaitCompletion || x.cut then x
      else x.(server := s.(phase := Ended, readerGone := true), toClient := x.toClient + [Finish(outcome)])
    case Breaks => x.(cut := true)
    case Delivers(written) =>
      if x.toClient == [] then x
      else x.(toClient := x.toClient[1..], session := Turn(x.session, FromServer(x.toClient[0], written)))
    case DeliversEnd => if x.toClient != [] || !x.cut then x else x.(session := Turn(x.session, ServerEnds))
    case Interrupts =>
      if x.signals == [] then x
      else x.(signals := x.signals[1..], session := Turn(x.session, Interrupted(x.signals[0])))
  }

  // ----- The server's stream is one that the client understands -----

  /** Accepted first, at most one acknowledgement, finished last; or a lone failure. */
  predicate WellFormed(events: seq<Event>, accepted: bool, mayAcknowledge: bool)
    decreases |events|
  {
    if events == [] then true
    else
      match events[0]
      case Accept => !accepted && WellFormed(events[1..], true, mayAcknowledge)
      case Output => accepted && WellFormed(events[1..], true, mayAcknowledge)
      case Acknowledge(_) => accepted && mayAcknowledge && WellFormed(events[1..], true, false)
      case Finish(outcome) => (accepted || outcome == Failure) && events == [events[0]]
  }

  function EndsAccepted(events: seq<Event>, accepted: bool): bool {
    accepted || Accept in events
  }

  predicate Acknowledges(events: seq<Event>) {
    exists d :: Acknowledge(d) in events
  }

  predicate Finished(events: seq<Event>) {
    exists o :: Finish(o) in events
  }

  lemma {:induction false} Grows(events: seq<Event>, e: Event, accepted: bool, may: bool)
    requires WellFormed(events, accepted, may) && !Finished(events)
    requires match e
             case Accept => !EndsAccepted(events, accepted)
             case Output => EndsAccepted(events, accepted)
             case Acknowledge(_) => EndsAccepted(events, accepted) && may && !Acknowledges(events)
             case Finish(_) => EndsAccepted(events, accepted)
    ensures WellFormed(events + [e], accepted, may)
    decreases |events|
  {
    if events == [] {
      assert [] + [e] == [e] && [e][1..] == [];
    } else {
      var rest := events[1..];
      assert events[0] in events;
      assert (events + [e])[0] == events[0] && (events + [e])[1..] == rest + [e];
      assert forall x | x in rest :: x in events;
      Grows(rest, e, accepted || events[0].Accept?, may && !events[0].Acknowledge?);
    }
  }

  /** The client has seen an answer to its cancellation. */
  predicate Heard(p: InterruptPhase) {
    !p.Attached? && p.cancellation.Answered?
  }

  /** An answer may still come: none has come, and the cancellation could be queued. */
  predicate MayHear(x: System) {
    !Heard(x.session.interrupts) && x.sent == Some(true)
  }

  predicate SignalsOk(x: System)
  {
    && (x.published == 0 ==> x.signals == [] && (x.session.interrupts.Attached? || Heard(x.session.interrupts)))
    && (x.published >= 1 ==> x.sent.Some?)
    && (forall i | i in x.signals :: i.Cancel? ==> x.sent == Some(i.queued))
    && (!x.session.interrupts.Attached? && x.session.interrupts.cancellation == NotQueued ==> x.sent == Some(false))
  }

  predicate Inv(x: System)
  {
    var s, c, es := x.server, x.session, x.toClient;
    && c.verdict != Some(InvalidResponse)
    && SignalsOk(x)
    && (x.toServer > 0 || s.cancelled ==> x.sent == Some(true))
    && (s.control.Some? && s.control.value.Answer? ==> s.cancelled && !Acknowledges(es))
    && (Acknowledges(es) || Heard(c.interrupts) ==> s.cancelled)
    && (c.verdict.None? ==>
          && WellFormed(es, c.accepted, MayHear(x))
          && (s.control.Some? && s.control.value.Answer? ==> !Heard(c.interrupts))
          && (s.phase == SendAccepted <==> !EndsAccepted(es, c.accepted) && s.phase != Ended)
          && (s.phase != Ended ==> !Finished(es)))
  }

  lemma OpeningOk(admitted: bool)
    ensures Inv(Opening(admitted))
  {
  }

  lemma SendKeeps(x: System, step: Step)
    requires Inv(x) && (step.SendsAccepted? || step.SendsOutput? || step.Finishes? || step.TakesControl?)
    ensures Inv(Next(x, step))
  {
    var y := Next(x, step);
    var es, c := x.toClient, x.session;
    if |y.toClient| > |es| {
      var e := y.toClient[|es|];
      assert y.toClient == es + [e];
      assert forall other | other in es :: other in y.toClient;
      if c.verdict.None? {
        if e.Acknowledge? {
          assert x.server.cancelled;
        }
        Grows(es, e, c.accepted, MayHear(x));
      }
    }
  }

  lemma ReaderKeeps(x: System, step: Step)
    requires Inv(x) && (step.Reads? || step.ReaderFails? || step.ReaderEnds? || step.OutputEnds? || step.Breaks?)
    ensures Inv(Next(x, step))
  {
  }

  lemma SignalKeeps(x: System, step: Step)
    requires Inv(x) && (step.FirstSignal? || step.PublishCancel? || step.SecondSignal?)
    ensures Inv(Next(x, step))
  {
    if x.session.verdict.None? && step.FirstSignal? && x.sent.None? {
      assert !Acknowledges(x.toClient);
      MoreMay(x.toClient, x.session.accepted, MayHear(x), MayHear(Next(x, step)));
    }
  }

  /** Without acknowledgements it does not matter whether one may come. */
  lemma {:induction false} MoreMay(events: seq<Event>, accepted: bool, may: bool, may': bool)
    requires WellFormed(events, accepted, may) && !Acknowledges(events)
    ensures WellFormed(events, accepted, may')
    decreases |events|
  {
    if events != [] {
      assert events[0] in events;
      assert forall x | x in events[1..] :: x in events;
      if !events[0].Finish? {
        MoreMay(events[1..], accepted || events[0].Accept?, may, may');
      }
    }
  }

  lemma InterruptKeeps(x: System)
    requires Inv(x)
    ensures Inv(Next(x, Interrupts))
  {
    if x.signals != [] {
      assert x.signals[0] in x.signals;
      assert forall i | i in x.signals[1..] :: i in x.signals;
    }
  }

  lemma DeliverKeeps(x: System, written: bool)
    requires Inv(x)
    ensures Inv(Next(x, Delivers(written)))
  {
    var es := x.toClient;
    if es != [] {
      var e, rest := es[0], es[1..];
      assert e in es && forall other | other in rest :: other in es;
      assert forall other | other in es :: other == e || other in rest;
    }
  }

  lemma EndKeeps(x: System)
    requires Inv(x)
    ensures Inv(Next(x, DeliversEnd))
  {
  }

  lemma NextKeeps(x: System, step: Step)
    requires Inv(x)
    ensures Inv(Next(x, step))
  {
    match step
    case Delivers(written) => DeliverKeeps(x, written);
    case DeliversEnd => EndKeeps(x);
    case Interrupts => InterruptKeeps(x);
    case FirstSignal(_) => SignalKeeps(x, step);
    case PublishCancel => SignalKeeps(x, step);
    case SecondSignal => SignalKeeps(x, step);
    case SendsAccepted => SendKeeps(x, step);
    case SendsOutput => SendKeeps(x, step);
    case Finishes(_) => SendKeeps(x, step);
    case TakesControl => SendKeeps(x, step);
    case _ => ReaderKeeps(x, step);
  }

  function After(x: System, steps: seq<Step>): System
    decreases |steps|
  {
    if steps == [] then x else After(Next(x, steps[0]), steps[1..])
  }

  lemma {:induction false} AfterKeeps(x: System, steps: seq<Step>)
    requires Inv(x)
    ensures Inv(After(x, steps))
    decreases |steps|
  {
    if steps != [] {
      NextKeeps(x, steps[0]);
      AfterKeeps(Next(x, steps[0]), steps[1..]);
    }
  }

  /** However events, interrupts and failures are interleaved, the client never finds the server's
      responses invalid. */
  lemma NeverInvalid(admitted: bool, steps: seq<Step>)
    ensures After(Opening(admitted), steps).session.verdict != Some(InvalidResponse)
  {
    OpeningOk(admitted);
    AfterKeeps(Opening(admitted), steps);
  }
}
