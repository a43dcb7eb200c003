/** The port through which AutoLISP writes to the output, one event at a time, under a lease. */
module OutputPort {
  import opened Text
  import opened Layout
  import opened Sink
  import opened Printer
  import opened LayoutMachine
  import opened PrinterMachine
  import opened ValueBridge

  const MAX_PRINTLN_BYTES: nat := 4 * 1024

  datatype WriteResult = Emitted(result: EmitResult) | OutOfPlace | OverLimit | Inactive

  const Fine: WriteResult := Emitted(Continue)

  datatype PortEvent =
    | BeginValue
    | EndValue
    | Println(text: string)
    | InvalidPrintln
    | Item(event: Event)
    | Violation  // what cannot be decoded

  /** What has been written: lines, and the events of complete values. */
  datatype Block = TextLine(text: string) | ValueText(events: seq<Event>)

  datatype PortState = PortState(mode: Kind, open: Option<seq<Event>>, blocks: seq<Block>, result: WriteResult)
  {
    function Fail(r: WriteResult): PortState {
      this.(open := None, result := r)
    }
  }

  function CountValues(blocks: seq<Block>): nat {
    if blocks == [] then 0 else (if blocks[0].ValueText? then 1 else 0) + CountValues(blocks[1..])
  }

  /** The events of exactly one value, complete. */
  predicate OneValue(es: seq<Event>) {
    var r := OnEvents(Fresh, es);
    r.Accepted? && MayFinish(r.state) && r.state.rootValues == 1
  }

  predicate HasControl(text: string) {
    exists c :: c in text && IsControl(c)
  }

  /** What a port in good order does with an event; no result if the event is out of place. */
  function Handle(p: PortState, e: PortEvent): Option<PortState>
  {
    match e
    case BeginValue =>
      if p.open.Some? || (p.mode == EvalValue && CountValues(p.blocks) != 0) then None
      else Some(p.(open := Some([])))
    case EndValue =>
      if p.open.Some? && OneValue(p.open.value) then
          Some(p.(open := None, blocks := p.blocks + [ValueText(p.open.value)]))
      else None
    case Println(text) =>
      if p.mode != Form || p.open.Some? || HasControl(text) || ByteLen(text) > MAX_PRINTLN_BYTES then None
      else Some(p.(blocks := p.blocks + [TextLine(text)]))
    case Item(event) =>
      if p.open.Some? && OnEvents(Fresh, p.open.value + [event]).Accepted?
      then Some(p.(open := Some(p.open.value + [event])))
      else None
    case InvalidPrintln => None
    case Violation => None
  }

  /** One write, in a port whose lease is open or not. The output may be found closed at any time. */
  ghost predicate PortStep(p: PortState, leased: bool, e: PortEvent, q: PortState)
  {
    if e == Violation then q == p.Fail(OutOfPlace)
    else if p.result != Fine then q == p
    else if !leased then q == p.(result := Inactive)
    else Handled(p, e, q)
  }

  ghost predicate Handled(p: PortState, e: PortEvent, q: PortState)
  {
    || Handle(p, e) == Some(q)
    || (Handle(p, e) == None && q in {p.Fail(OutOfPlace), p.Fail(OverLimit)})
    || (exists r :: r != Continue && q == p.Fail(Emitted(r)))
  }

  /** The failure with which the port ends its lease. */
  function CompletionFailure(p: PortState): Option<BridgeFailure> {
    if p.result == Fine then
      if p.open.Some? then Some(Abandoned)
      else if p.mode == EvalValue && CountValues(p.blocks) != 1 then Some(MissingValue)
      else None
    else FailureOf(p.mode, p.result)
  }

  /** Losing the reader, or being stopped, is not a failure of the bridge. */
  function FailureOf(mode: Kind, result: WriteResult): Option<BridgeFailure> {
    match result
    case OutOfPlace => Some(BridgeFailure.InvalidSequence)
    case OverLimit => Some(BridgeFailure.LimitExceeded)
    case Emitted(Finished) => Some(OutputFinished)
    case Emitted(Cancelled) => if mode == EvalValue then Some(PostCommitCancelled) else None
    case _ => None
  }

  /** The text of complete lines and values. */
  function Written(w: char -> nat, blocks: seq<Block>): string
  {
    if blocks == [] then ""
    else Written(w, blocks[..|blocks| - 1]) + BlockText(w, blocks[|blocks| - 1])
  }

  function BlockText(w: char -> nat, b: Block): string {
    match b
    case TextLine(text) => text + "\n"
    case ValueText(es) =>
      var printed := if OnEvents(Fresh, es).Accepted? then Print(w, OnEvents(Fresh, es).toks) else None;
      if printed.Some? then printed.value else ""
  }

  lemma WrittenMore(w: char -> nat, base: string, blocks: seq<Block>, b: Block)
    ensures base + Written(w, blocks + [b]) == base + Written(w, blocks) + BlockText(w, b)
    ensures CountValues(blocks + [b]) == CountValues(blocks) + (if b.ValueText? then 1 else 0)
  {
    assert (blocks + [b])[..|blocks|] == blocks;
    assert base + (Written(w, blocks) + BlockText(w, b)) == base + Written(w, blocks) + BlockText(w, b);
    CountMore(blocks, b);
  }

  /** The layout prints the tokens of complete values, however their texts were cut. */
  lemma CompleteLog(w: char -> nat, log: seq<Token>, es: seq<Event>)
    requires OnEvents(Fresh, es).Accepted? && Explode(log) == Explode(OnEvents(Fresh, es).toks)
    ensures MayFinish(OnEvents(Fresh, es).state) ==> Print(w, log) == Some(BlockText(w, ValueText(es)))
  {
    ChunkIndependence(w, log, OnEvents(Fresh, es).toks);
    if MayFinish(OnEvents(Fresh, es).state) {
      CompletePrints(w, es);
    }
  }

  lemma {:induction false} CountMore(blocks: seq<Block>, b: Block)
    ensures CountValues(blocks + [b]) == CountValues(blocks) + (if b.ValueText? then 1 else 0)
  {
    if blocks == [] {
      assert CountValues(([] + [b])[1..]) == 0;
    } else {
      assert (blocks + [b])[1..] == blocks[1..] + [b];
      CountMore(blocks[1..], b);
    }
  }

  /** One more event, and what the layout then has received. */
  lemma Extend(es: seq<Event>, log: seq<Token>, e: Event)
    requires OnEvents(Fresh, es).Accepted? && Explode(log) == Explode(OnEvents(Fresh, es).toks)
    ensures var step, after := OnEvent(OnEvents(Fresh, es).state, e), OnEvents(Fresh, es + [e]);
            && step.Accepted? == after.Accepted?
            && (step.Accepted? ==>
                  after.state == step.state && Explode(after.toks) == Explode(log) + Explode(step.toks))
  {
    EventsThen(Fresh, es, [e]);
    var before := OnEvents(Fresh, es);
    OneEvent(before.state, e);
    if OnEvent(before.state, e).Accepted? {
      ExplodeConcat(before.toks, OnEvent(before.state, e).toks);
    }
  }

  class NativeOutputPort {
    const w: char -> nat
    const io: ExecIo
    const mode: Kind
    var lease: Option<Lease>
    var printer: ValuePrinter?
    var completedValues: nat
    var result: WriteResult
    ghost var shown: seq<Event>
    ghost var blocks: seq<Block>
    ghost const base: string

    ghost function State(): PortState
      reads this
    {
      PortState(mode, if printer == null then None else Some(shown), blocks, result)
    }

    ghost function Repr(): set<object>
      reads this
    {
      {this, io.output} + if printer == null then {} else {printer, printer.layout}
    }

    /** The printer has received these events of the value that is open. */
    ghost predicate Follows(p: ValuePrinter, es: seq<Event>)
      reads this, p, p.layout, p.layout.sink
    {
      && p.Valid() && p.layout.w == w && p.layout.sink == io.output
      && var r := OnEvents(Fresh, es);
      && r.Accepted? && r.state == p.State() && Explode(p.layout.log) == Explode(r.toks)
    }

    /** As long as nothing is wrong, the output holds exactly the complete lines and values, and what
        the layout has already decided of the open one. */
    ghost predicate Valid()
      reads this, Repr()
    {
      && completedValues == CountValues(blocks)
      && (printer != null && result == Fine ==>
            printer.layout.sink == io.output && Follows(printer, shown)
              && printer.layout.base == base + Written(w, blocks))
      && (printer == null && result == Fine ==> io.output.text == base + Written(w, blocks))
    }

    constructor (w: char -> nat, io: ExecIo, lease: Lease, mode: Kind)
      modifies io.output
      ensures Valid() && this.w == w && this.io == io && this.lease == Some(lease) && this.mode == mode
      ensures base == old(io.output.text) == io.output.text
      ensures State() == PortState(mode, None, [], result) && result.Emitted?
    {
      this.w, this.io, this.mode, this.lease := w, io, mode, Some(lease);
      printer, completedValues, shown, blocks := null, 0, [], [];
      base := io.output.text;
      var r := io.output.Emit("");
      result := Emitted(r);
    }

    method Claimed() returns (r: bool)
      ensures r <==> lease.Some? && IsOpen(io.bridge, lease.value)
    {
      r := lease.Some? && IsOpen(io.bridge, lease.value);
    }

    method Write(e: PortEvent) returns (r: WriteResult)
      requires Valid()
      modifies Repr()
      ensures Valid() && fresh(Repr() - old(Repr())) && lease == old(lease)
      ensures r == result
      ensures PortStep(old(State()), lease.Some? && IsOpen(io.bridge, lease.value), e, State())
    {
      if e == Violation {
        r := Fail(OutOfPlace);
        return;
      }
      if result != Fine {
        return result;
      }
      r := WriteClaimed(e);
    }

    method WriteClaimed(e: PortEvent) returns (r: WriteResult)
      requires Valid() && result == Fine && e != Violation
      modifies Repr()
      ensures Valid() && fresh(Repr() - old(Repr())) && lease == old(lease) && r == result
      ensures if lease.Some? && IsOpen(io.bridge, lease.value) then Handled(old(State()), e, State())
              else State() == old(State()).(result := Inactive)
    {
      var claimed := Claimed();
      if !claimed {
        r := Deactivate();
        return;
      }
      r := Dispatch(e);
    }

    method Deactivate() returns (r: WriteResult)
      requires completedValues == CountValues(blocks)
      modifies this`result
      ensures Valid() && r == result && State() == old(State()).(result := Inactive)
    {
      result := Inactive;
      return result;
    }

    method Dispatch(e: PortEvent) returns (r: WriteResult)
      requires Valid() && result == Fine && e != Violation
      modifies Repr()
      ensures Valid() && fresh(Repr() - old(Repr())) && lease == old(lease) && r == result
      ensures Handled(old(State()), e, State())
    {
      match e
      case BeginValue => r := BeginAValue();
      case EndValue => r := EndAValue();
      case Println(text) => r := PrintLine(text);
      case InvalidPrintln => r := Fail(OutOfPlace);
      case Item(event) => r := ShowEvent(event);
    }

    method Fail(failure: WriteResult) returns (r: WriteResult)
      requires completedValues == CountValues(blocks) && failure != Fine
      modifies this`printer, this`result
      ensures Valid() && r == result && State() == old(State()).Fail(failure)
    {
      printer := null;
      result := failure;
      return result;
    }

    method BeginAValue() returns (r: WriteResult)
      requires Valid() && result == Fine
      modifies this
      ensures Valid() && fresh(Repr() - old(Repr())) && lease == old(lease) && r == result
      ensures Handled(old(State()), BeginValue, State())
    {
      if printer != null || (mode == EvalValue && completedValues != 0) {
        r := Fail(OutOfPlace);
        return;
      }
      printer := new ValuePrinter(w, io.output);
      shown := [];
      return Fine;
    }

    method EndAValue() returns (r: WriteResult)
      requires Valid() && result == Fine
      modifies Repr()
      ensures Valid() && fresh(Repr() - old(Repr())) && lease == old(lease) && r == result
      ensures Handled(old(State()), EndValue, State())
    {
      if printer == null {
        r := Fail(OutOfPlace);
        return;
      }
      var p := printer;
      printer := null;
      var done := FinishPrinter(p);
      r := NoteEnd(done);
    }

    method NoteEnd(done: PrintResult) returns (r: WriteResult)
      requires printer == null && result == Fine && completedValues == CountValues(blocks)
      requires done.Ok? ==> io.output.text == base + Written(w, blocks + [ValueText(shown)])
      modifies this`printer, this`result, this`completedValues, this`blocks
      ensures Valid() && r == result
      ensures State() == if done.Ok? then old(State()).(blocks := old(blocks) + [ValueText(shown)])
                         else old(State()).Fail(if done.error.Output? then Emitted(done.error.result) else OutOfPlace)
    {
      if done.Ok? {
        CountValue();
        return Fine;
      }
      r := PrintFailed(done.error);
    }

    method CountValue()
      requires printer == null && result == Fine && completedValues == CountValues(blocks)
      requires io.output.text == base + Written(w, blocks + [ValueText(shown)])
      modifies this`completedValues, this`blocks
      ensures Valid() && State() == old(State()).(blocks := old(blocks) + [ValueText(shown)])
    {
      CountMore(blocks, ValueText(shown));
      completedValues := completedValues + 1;
      blocks := blocks + [ValueText(shown)];
    }

    method FinishPrinter(p: ValuePrinter) returns (done: PrintResult)
      requires Follows(p, shown) && p.layout.base == base + Written(w, blocks)
      modifies p, p.layout, io.output
      ensures done.Ok? ==> OneValue(shown) && io.output.text == base + Written(w, blocks + [ValueText(shown)])
      ensures done.Rejected() ==> !OneValue(shown)
    {
      if p.rootValues != 1 {
        return Err(PrintError.InvalidSequence);
      }
      CompleteLog(w, p.layout.log, shown);
      WrittenMore(w, base, blocks, ValueText(shown));
      done := p.Finish();
    }

    method PrintLine(text: string) returns (r: WriteResult)
      requires Valid() && result == Fine
      modifies this, io.output
      ensures Valid() && fresh(Repr() - old(Repr())) && lease == old(lease) && r == result
      ensures Handled(old(State()), Println(text), State())
    {
      if mode != Form || printer != null || HasControl(text) {
        r := Fail(OutOfPlace);
        return;
      }
      if ByteLen(text) > MAX_PRINTLN_BYTES {
        r := Fail(OverLimit);
        return;
      }
      var e := EmitLine(text);
      if e != Continue {
        r := Fail(Emitted(e));
        return;
      }
      WrittenMore(w, base, blocks, TextLine(text));
      blocks := blocks + [TextLine(text)];
      return Fine;
    }

    method EmitLine(text: string) returns (e: EmitResult)
      modifies io.output
      ensures e == Continue ==> io.output.text == old(io.output.text) + (text + "\n")
    {
      e := io.output.Emit(text);
      if e == Continue {
        e := io.output.Emit("\n");
      }
      if e == Continue {
        e := io.output.Flush();
      }
    }

    method ShowEvent(e: Event) returns (r: WriteResult)
      requires Valid() && result == Fine
      modifies Repr()
      ensures Valid() && fresh(Repr() - old(Repr())) && lease == old(lease) && r == result
      ensures Handled(old(State()), Item(e), State())
    {
      if printer == null {
        r := Fail(OutOfPlace);
        return;
      }
      var done := DeliverNext(printer, e);
      r := NoteEvent(done, e);
    }

    method NoteEvent(done: PrintResult, e: Event) returns (r: WriteResult)
      requires printer != null && result == Fine && completedValues == CountValues(blocks)
      requires done.Ok? ==> Follows(printer, shown + [e]) && printer.layout.base == base + Written(w, blocks)
      modifies this`printer, this`result, this`shown
      ensures Valid() && r == result
      ensures printer == null || printer == old(printer)
      ensures State() == if done.Ok? then old(State()).(open := Some(old(shown) + [e]))
                         else old(State()).Fail(if done.error.Output? then Emitted(done.error.result) else OutOfPlace)
    {
      match done
      case Ok =>
        shown := shown + [e];
        r := Fine;
      case Err(error) => r := PrintFailed(error);
    }

    method DeliverNext(p: ValuePrinter, e: Event) returns (done: PrintResult)
      requires Follows(p, shown)
      modifies p, p.layout, io.output
      ensures done.Ok? ==> Follows(p, shown + [e])
      ensures done.Rejected() ==> OnEvents(Fresh, shown + [e]).Rejected?
    {
      Extend(shown, p.layout.log, e);
      done := Deliver(p, e);
    }

    method PrintFailed(error: PrintError) returns (r: WriteResult)
      requires completedValues == CountValues(blocks)
      modifies this`printer, this`result
      ensures Valid() && r == result
      ensures State() == old(State()).Fail(if error.Output? then Emitted(error.result) else OutOfPlace)
    {
      match error
      case InvalidSequence => r := Fail(OutOfPlace);
      case Output(e) => r := Fail(Emitted(e));
    }

    /** Ends the lease, with the failure that the whole of what was written amounts to. */
    method Finish() returns (r: WriteResult)
      requires Valid()
      modifies this, io
      ensures lease == None
      ensures io.bridge == if old(lease).None? then old(io.bridge)
                           else Release(old(io.bridge), old(lease).value, CompletionFailure(old(State())))
      ensures r == if old(result) == Fine && CompletionFailure(old(State())).Some? then OutOfPlace else old(result)
    {
      var failure := Complete();
      if lease.Some? {
        io.ReleaseValueOutput(lease.value, failure);
        lease := None;
      }
      return result;
    }

    method Complete() returns (failure: Option<BridgeFailure>)
      requires Valid()
      modifies this`result
      ensures failure == CompletionFailure(old(State()))
      ensures result == if old(result) == Fine && failure.Some? then OutOfPlace else old(result)
    {
      if result != Fine {
        return FailureOf(mode, result);
      }
      if printer != null {
        result := OutOfPlace;
        return Some(Abandoned);
      }
      if mode == EvalValue && completedValues != 1 {
        result := OutOfPlace;
        return Some(MissingValue);
      }
      return None;
    }

    /** A port that is dropped without being finished. */
    method Drop()
      modifies this`lease, io
      ensures lease == None
      ensures io.bridge == if old(lease).None? then old(io.bridge)
                           else Release(old(io.bridge), old(lease).value, Some(Abandoned))
    {
      if lease.Some? {
        io.ReleaseValueOutput(lease.value, Some(Abandoned));
        lease := None;
      }
    }
  }

  /** Hands one event to the printer. */
  method Deliver(p: ValuePrinter, e: Event) returns (r: PrintResult)
    requires p.Valid()
    modifies p, p.layout, p.layout.sink
    ensures p.Did(r, old(p.layout.log), OnEvent(old(p.State()), e))
  {
    match e
    case BeginList => r := p.BeginList();
    case EndList => r := p.EndList();
    case Dot => r := p.Dot();
    case Nil => r := p.Scalar("nil");
    case True => r := p.Scalar("T");
    case Integer(i) => r := p.Scalar(Show(i));
    case Real(None) => r := Err(PrintError.InvalidSequence);
    case Real(Some(t)) => r := p.Scalar(t);
    case BeginString => r := p.BeginString();
    case StringChunk(text) => r := p.StringChunk(text);
    case EndString => r := p.EndString();
    case BeginSymbol => r := p.BeginSymbol();
    case SymbolChunk(text) => r := p.SymbolChunk(text);
    case EndSymbol => r := p.EndSymbol();
    case Entity(handle) => r := p.Entity(handle);
    case Opaque(kind) => r := p.Opaque(kind);
  }
}
