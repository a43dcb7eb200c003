/** The server's side of the execution protocol: the loop that makes the event stream, and the reader of
    what the client sends after its request. */
module ServerMachine {
  import opened Text
  import opened Protocol

  // ----- The control reader -----

  /** What arrives from the client; a cancellation with what the scheduler says to it, if it can tell. */
  datatype Message = CancelMessage(answer: Option<Disposition>) | OtherMessage | BrokenMessage

  /** Only the first cancellation is answered, and nothing follows trouble. */
  function Controls(messages: seq<Message>, cancelled: bool): seq<Control>
    decreases |messages|
  {
    if messages == [] then []
    else
      match messages[0]
      case CancelMessage(answer) =>
        if cancelled then Controls(messages[1..], true)
        else if answer.None? then [Trouble]
        else [Answer(answer.value)] + Controls(messages[1..], true)
      case _ => [Trouble]
  }

  method ReadControls(messages: seq<Message>) returns (sent: seq<Control>)
    ensures sent == Controls(messages, false)
  {
    sent := [];
    var cancelled := false;
    var i := 0;
    assert messages[0..] == messages;
    while i < |messages|
      invariant i <= |messages| && sent + Controls(messages[i..], cancelled) == Controls(messages, false)
    {
      assert messages[i..][1..] == messages[i + 1..];
      match messages[i] {
        case CancelMessage(answer) =>
          if !cancelled {
            if answer.None? {
              return sent + [Trouble];
            }
            assert sent + ([Answer(answer.value)] + Controls(messages[i + 1..], true))
                   == sent + [Answer(answer.value)] + Controls(messages[i + 1..], true);
            sent := sent + [Answer(answer.value)];
            cancelled := true;
          }
        case _ => return sent + [Trouble];
      }
      i := i + 1;
    }
  }

  function Answers(controls: seq<Control>): nat {
    if controls == [] then 0 else (if controls[0].Answer? then 1 else 0) + Answers(controls[1..])
  }

  /** At most one cancellation is answered, whatever the client sends. */
  lemma {:induction false} OneAnswer(messages: seq<Message>, cancelled: bool)
    ensures Answers(Controls(messages, cancelled)) <= if cancelled then 0 else 1
    decreases |messages|
  {
    if messages != [] {
      match messages[0] {
        case CancelMessage(answer) =>
          OneAnswer(messages[1..], true);
          if !cancelled && answer.Some? {
            assert Controls(messages, cancelled)[1..] == Controls(messages[1..], true);
          }
        case _ =>
      }
    }
  }

  // ----- The event stream -----

  /** What the loop finds ready, in the order in which it finds it. */
  datatype Heard = FromControl(control: Option<Control>) | FromOutput(more: bool) | Completed(outcome: Outcome)

  datatype Reply = Sends(event: Event) | Fails | Ends | Waits

  datatype Served = Served(phase: ServerPhase, listening: bool, reply: Reply, left: seq<Heard>)

  /** The next event. What the phase does not listen to makes it wait. */
  function NextReply(phase: ServerPhase, listening: bool, heard: seq<Heard>): (s: Served)
    ensures |s.left| <= |heard| && (s.reply.Sends? && phase != SendAccepted ==> |s.left| < |heard|)
    ensures s.reply.Sends? ==> s.phase != SendAccepted
    decreases |heard|
  {
    if phase == SendAccepted then Served(RelayOutput, listening, Sends(Accept), heard)
    else if phase == Ended then Served(phase, listening, Ends, heard)
    else if heard == [] then Served(phase, listening, Waits, heard)
    else
      match heard[0]
      case FromControl(control) =>
        if !listening then Served(phase, listening, Waits, heard)
        else if control.None? then NextReply(phase, false, heard[1..])
        else if control.value.Trouble? then Served(phase, listening, Fails, heard[1..])
        else Served(phase, listening, Sends(Acknowledge(control.value.disposition)), heard[1..])
      case FromOutput(more) =>
        if phase != RelayOutput then Served(phase, listening, Waits, heard)
        else if more then Served(phase, listening, Sends(Output), heard[1..])
        else NextReply(AwaitCompletion, listening, heard[1..])
      case Completed(outcome) =>
        if phase != AwaitCompletion then Served(phase, listening, Waits, heard)
        else Served(Ended, listening, Sends(Finish(outcome)), heard[1..])
  }

  class ExecuteResponseState {
    var phase: ServerPhase
    var listening: bool

    constructor ()
      ensures phase == SendAccepted && listening
    {
      phase, listening := SendAccepted, true;
    }

    method NextEvent(heard: seq<Heard>) returns (reply: Reply, left: seq<Heard>)
      modifies this
      ensures Served(phase, listening, reply, left) == NextReply(old(phase), old(listening), heard)
    {
      left := heard;
      if phase == SendAccepted {
        phase := RelayOutput;
        return Sends(Accept), left;
      }
      if phase == Ended {
        return Ends, left;
      }
      while left != []
        invariant phase in {RelayOutput, AwaitCompletion}
        invariant NextReply(phase, listening, left) == NextReply(old(phase), old(listening), heard)
        decreases |left|
      {
        var first := left[0];
        match first {
          case FromControl(control) =>
            if !listening {
              return Waits, left;
            }
            if control.Some? {
              reply := if control.value.Trouble? then Fails else Sends(Acknowledge(control.value.disposition));
              return reply, left[1..];
            }
            listening := false;
          case FromOutput(more) =>
            if phase != RelayOutput {
              return Waits, left;
            }
            if more {
              return Sends(Output), left[1..];
            }
            phase := AwaitCompletion;
          case Completed(outcome) =>
            if phase != AwaitCompletion {
              return Waits, left;
            }
            phase := Ended;
            return Sends(Finish(outcome)), left[1..];
        }
        left := left[1..];
      }
      return Waits, left;
    }
  }

  /** All events that are sent for what is heard. */
  function Stream(phase: ServerPhase, listening: bool, heard: seq<Heard>): seq<Event>
    decreases |heard|, if phase == SendAccepted then 1 else 0
  {
    var s := NextReply(phase, listening, heard);
    if s.reply.Sends? then [s.reply.event] + Stream(s.phase, s.listening, s.left) else []
  }

  function AnswersHeard(heard: seq<Heard>): nat {
    if heard == [] then 0
    else (if heard[0].FromControl? && heard[0].control.Some? && heard[0].control.value.Answer? then 1 else 0)
         + AnswersHeard(heard[1..])
  }

  lemma {:induction false} ReplyAnswers(phase: ServerPhase, listening: bool, heard: seq<Heard>)
    ensures var s := NextReply(phase, listening, heard);
            && AnswersHeard(s.left) + (if s.reply.Sends? && s.reply.event.Acknowledge? then 1 else 0)
               <= AnswersHeard(heard)
            && (s.reply.Sends? && s.reply.event.Finish? ==> s.phase == Ended)
            && (s.reply.Sends? && s.reply.event.Accept? ==> phase == SendAccepted)
            && (s.reply.Sends? && !s.reply.event.Finish? ==> s.phase in {RelayOutput, AwaitCompletion})
    decreases |heard|
  {
    if phase in {RelayOutput, AwaitCompletion} && heard != [] {
      match heard[0] {
        case FromControl(control) =>
          if listening && control.None? {
            ReplyAnswers(phase, false, heard[1..]);
          }
        case FromOutput(more) =>
          if phase == RelayOutput && !more {
            ReplyAnswers(AwaitCompletion, listening, heard[1..]);
          }
        case Completed(_) =>
      }
    }
  }

  /** Whatever is heard in whatever order, if at most one answer is among it the stream is one that the
      client understands: accepted first, at most one acknowledgement, finished last. */
  lemma {:induction false} StreamWellFormed(phase: ServerPhase, listening: bool, heard: seq<Heard>, may: bool)
    requires AnswersHeard(heard) <= if may then 1 else 0
    requires phase != Ended
    ensures WellFormed(Stream(phase, listening, heard), phase != SendAccepted, may)
    decreases |heard|, if phase == SendAccepted then 1 else 0
  {
    var s := NextReply(phase, listening, heard);
    ReplyAnswers(phase, listening, heard);
    if s.reply.Sends? {
      var rest := Stream(s.phase, s.listening, s.left);
      assert ([s.reply.event] + rest)[1..] == rest;
      if s.phase == Ended {
        assert rest == [];
        assert [s.reply.event] + [] == [s.reply.event];
      } else {
        StreamWellFormed(s.phase, s.listening, s.left, may && !s.reply.event.Acknowledge?);
      }
    }
  }
}
