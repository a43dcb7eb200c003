/** The client's side of the execution protocol as the objects that drive it. */
module ClientMachine {
  import opened Text
  import opened Protocol

  class InterruptState {
    var phase: InterruptPhase

    constructor ()
      ensures phase == Attached
    {
      phase := Attached;
    }

    method NoteInterrupt(i: Interrupt)
      modifies this
      ensures phase == Note(old(phase), i)
    {
      if phase.Attached? && i.Cancel? {
        phase := CancelRequested(if i.queued then Queued else NotQueued);
      } else if phase.CancelRequested? && i.Detach? {
        phase := DetachRequested(phase.cancellation);
      }
    }

    method RecordAcknowledgement(d: Disposition) returns (receipt: Receipt)
      modifies this
      ensures Acknowledged(phase, receipt) == Acknowledgement(old(phase), d)
    {
      if phase.Attached? {
        phase := CancelRequested(Answered(d));
        return Continue;
      }
      match phase.cancellation {
        case Answered(_) => return Duplicate;
        case NotQueued => return InvalidReceipt;
        case Queued =>
      }
      if phase.DetachRequested? {
        phase := DetachRequested(Answered(d));
        return Leave;
      }
      phase := CancelRequested(Answered(d));
      return Continue;
    }
  }

  class ResponseSession {
    const interrupts: InterruptState
    var accepted: bool
    var verdict: Option<Verdict>

    ghost function State(): Session
      reads this, interrupts
    {
      Session(accepted, interrupts.phase, verdict)
    }

    constructor ()
      ensures fresh(interrupts) && State() == NewSession
    {
      interrupts := new InterruptState();
      accepted, verdict := false, None;
    }

    /** Takes events and interrupts as they come until one of them ends the session. */
    method Run(inputs: seq<Input>)
      requires verdict == None
      modifies this, interrupts
      ensures State() == Drive(old(State()), inputs)
    {
      var left := inputs;
      while left != [] && verdict == None
        invariant Drive(State(), left) == Drive(old(State()), inputs)
        decreases |left|
      {
        match left[0] {
          case Interrupted(i) =>
            interrupts.NoteInterrupt(i);
            if interrupts.phase.DetachRequested? {
              verdict := Some(Detached);
            }
          case ServerEnds => verdict := Some(if interrupts.phase.DetachRequested? then Detached else Lost);
          case FromServer(event, written) => Receive(event, written);
        }
        left := left[1..];
      }
      DriveEnded(State(), left);
    }

    method Receive(event: Event, written: bool)
      requires verdict == None
      modifies this, interrupts
      ensures State() == OnEvent(old(State()), event, written)
    {
      match event {
        case Accept =>
          if accepted {
            verdict := Some(InvalidResponse);
          } else {
            accepted := true;
          }
        case Output =>
          if !accepted {
            verdict := Some(InvalidResponse);
          } else if interrupts.phase.Attached? && !written {
            verdict := Some(OutputFailed);
          }
        case Acknowledge(d) =>
          if !accepted {
            verdict := Some(InvalidResponse);
            return;
          }
          var receipt := interrupts.RecordAcknowledgement(d);
          if receipt == Leave {
            verdict := Some(Detached);
          } else if receipt != Continue {
            verdict := Some(InvalidResponse);
          }
        case Finish(outcome) =>
          if !accepted && outcome != Failure {
            verdict := Some(InvalidResponse);
          } else {
            verdict := Some(Done(outcome, !interrupts.phase.Attached?));
          }
      }
    }
  }

  lemma {:induction false} DriveEnded(s: Session, inputs: seq<Input>)
    requires s.verdict.Some? || inputs == []
    ensures Drive(s, inputs) == s
    decreases |inputs|
  {
    if inputs != [] {
      DriveEnded(s, inputs[1..]);
    }
  }
}
