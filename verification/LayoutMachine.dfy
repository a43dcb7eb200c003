/** The streaming layout: it holds back only what cannot be decided yet. */
module LayoutMachine {
  import opened Text
  import opened Layout
  import opened Sink

  const SPACE_CHUNK: nat := 64

  type Refusal = e: EmitResult | e != Continue witness Disconnected

  datatype PrintError = InvalidSequence | Output(result: Refusal)
  datatype PrintResult = Ok | Err(error: PrintError)
  {
    predicate Refused() { Err? && error.Output? }
    predicate Rejected() { this == Err(InvalidSequence) }
  }

  class StreamingLayout {
    const w: char -> nat
    const sink: OutputSink
    var pending: seq<Token>
    var breakableGroups: seq<GroupMode>
    var forcedFlatDepth: nat
    var column: nat
    /** Every token received, and what the sink held before the first one. */
    ghost var log: seq<Token>
    ghost const base: string

    ghost function Here(): Core
      reads this, sink
    {
      Core(breakableGroups, forcedFlatDepth, column, sink.text)
    }

    /** What has been written and what is held back are those of draining the whole log at once. */
    ghost predicate Valid()
      reads this, sink
    {
      Drain(w, Start(base), log) == Running(Here(), pending)
    }

    constructor (w: char -> nat, sink: OutputSink)
      ensures Valid() && fresh(this) && this.w == w && this.sink == sink && log == [] && base == sink.text
    {
      this.w, this.sink := w, sink;
      pending, breakableGroups, forcedFlatDepth, column := [], [], 0, 0;
      log, base := [], sink.text;
    }

    method BeginGroup(depth: nat) returns (r: PrintResult)
      requires Valid()
      modifies this, sink
      ensures Logged(r, old(log), [Begin(KindAt(depth))], old(sink.text))
    {
      r := Push(Begin(KindAt(depth)));
    }

    method EndGroup() returns (r: PrintResult)
      requires Valid()
      modifies this, sink
      ensures Logged(r, old(log), [End], old(sink.text))
    {
      r := Push(End);
    }

    method Line(flat: string, depth: nat) returns (r: PrintResult)
      requires Valid()
      modifies this, sink
      ensures Logged(r, old(log), [Token.Line(flat, Indent(depth))], old(sink.text))
    {
      r := Push(Token.Line(flat, Indent(depth)));
    }

    /** Empty text leaves no token; text that finds nothing held back is written at once. */
    method Text(t: string) returns (r: PrintResult)
      requires Valid()
      modifies this, sink
      ensures Logged(r, old(log), if t == "" then [] else [Token.Text(t)], old(sink.text))
    {
      r := Poll();
      assert old(log) + [] == old(log);
      if r.Err? {
        DrainOutGrows(t);
        return;
      }
      if t == "" {
        return;
      }
      ghost var goal := Drain(w, Start(base), log + [Token.Text(t)]);
      DrainSplit(w, Start(base), log, [Token.Text(t)]);
      if pending == [] {
        assert pending + [Token.Text(t)] == [Token.Text(t)];
        DrainFront(w, Here(), Token.Text(t), []);
        assert [Token.Text(t)] + [] == [Token.Text(t)];
        r := EmitText(t);
        log := log + [Token.Text(t)];
        return;
      }
      r := PushPolled(Token.Text(t));
    }

    method Poll() returns (r: PrintResult)
      modifies sink
      ensures sink.text == old(sink.text) && (r.Ok? || r.Refused())
    {
      var e := sink.Emit("");
      r := if e == Continue then Ok else Err(Output(e));
    }

    /** `toks` were received: either all is well, or they are malformed, or the sink was closed and
        what it took is a prefix of what would have been printed. */
    ghost predicate Logged(r: PrintResult, before: seq<Token>, toks: seq<Token>, had: string)
      reads this, sink
    {
      && (r.Ok? ==> log == before + toks && Valid())
      && (r.Rejected() ==> Drain(w, Start(base), before + toks) == Invalid(sink.text))
      && (r.Refused() ==> had <= sink.text <= Drain(w, Start(base), before + toks).Out())
    }

    lemma DrainOutGrows(t: string)
      requires Valid()
      ensures sink.text <= Drain(w, Start(base), log + [Token.Text(t)]).Out()
    {
      DrainSplit(w, Start(base), log, [Token.Text(t)]);
      DrainGrows(w, Here(), pending + [Token.Text(t)]);
    }

    method Push(token: Token) returns (r: PrintResult)
      requires Valid()
      modifies this, sink
      ensures Logged(r, old(log), [token], old(sink.text))
    {
      r := Poll();
      if r.Err? {
        DrainSplit(w, Start(base), log, [token]);
        DrainGrows(w, Here(), pending + [token]);
        return;
      }
      r := PushPolled(token);
    }

    method PushPolled(token: Token) returns (r: PrintResult)
      requires Valid()
      modifies this, sink
      ensures Logged(r, old(log), [token], old(sink.text))
    {
      DrainSplit(w, Start(base), log, [token]);
      pending := pending + [token];
      log := log + [token];
      r := DrainPending();
    }

    /** Takes tokens from the front until none is left or the front group cannot be decided. */
    method DrainPending() returns (r: PrintResult)
      modifies this, sink
      ensures log == old(log)
      ensures var goal := old(Drain(w, Here(), pending));
              && (r.Ok? ==> goal == Running(Here(), pending))
              && (r.Rejected() ==> goal == Invalid(sink.text))
              && (r.Refused() ==> old(sink.text) <= sink.text <= goal.Out())
    {
      ghost var goal := Drain(w, Here(), pending);
      while pending != []
        invariant log == old(log) && old(sink.text) <= sink.text
        invariant Drain(w, Here(), pending) == goal
        decreases |pending|
      {
        ghost var taken, rest := Take(w, Here(), pending), pending[1..];
        var undecided;
        undecided, r := TakeFront();
        if undecided {
          return;
        }
        if taken.Took? {
          DrainGrows(w, taken.core, rest);
        }
        if r.Err? {
          return;
        }
      }
      return Ok;
    }

    /** One turn of the loop above. */
    method TakeFront() returns (undecided: bool, r: PrintResult)
      requires pending != []
      modifies this, sink
      ensures log == old(log)
      ensures undecided <==> old(Take(w, Here(), pending)).Undecided?
      ensures undecided ==> Here() == old(Here()) && pending == old(pending) && r.Ok?
      ensures !undecided && r.Ok? ==> old(Take(w, Here(), pending)) == Took(Here()) && pending == old(pending)[1..]
      ensures r.Rejected() ==> old(Take(w, Here(), pending)).Malformed? && sink.text == old(sink.text)
      ensures r.Refused() ==> old(Take(w, Here(), pending)).Took?
                              && old(sink.text) <= sink.text <= old(Take(w, Here(), pending)).core.out
    {
      undecided, r := false, Ok;
      match pending[0]
      case Begin(Breakable) =>
        var fit := GroupFits(if column < PRINT_WIDTH then PRINT_WIDTH - column else 0);
        if fit == Unknown {
          undecided := true;
          return;
        }
        pending := pending[1..];
        breakableGroups := breakableGroups + [if fit == Yes then Flat else Broken];
      case Begin(ForcedFlat) =>
        pending := pending[1..];
        forcedFlatDepth := forcedFlatDepth + 1;
      case End =>
        if forcedFlatDepth != 0 {
          forcedFlatDepth := forcedFlatDepth - 1;
        } else if breakableGroups == [] {
          r := Err(InvalidSequence);
          return;
        } else {
          breakableGroups := breakableGroups[..|breakableGroups| - 1];
        }
        pending := pending[1..];
      case Text(t) =>
        pending := pending[1..];
        r := EmitText(t);
      case Line(flat, indent) =>
        pending := pending[1..];
        if forcedFlatDepth != 0 {
          r := EmitText(flat);
        } else if breakableGroups == [] {
          r := Err(InvalidSequence);
        } else if breakableGroups[|breakableGroups| - 1] == Flat {
          r := EmitText(flat);
        } else {
          r := EmitNewline(indent);
        }
    }

    method GroupFits(room: nat) returns (f: Fit)
      requires pending != [] && pending[0].Begin?
      ensures f == Fits(w, pending, 0, 0, room)
    {
      var depth: nat, width: nat := 0, 0;
      for i := 0 to |pending|
        invariant Fits(w, pending, 0, 0, room) == Fits(w, pending[i..], depth, width, room)
        invariant i == 0 ==> depth == 0 && width == 0
        invariant i > 0 ==> depth >= 1
      {
        assert pending[i..] != [] && pending[i..][0] == pending[i] && pending[i..][1..] == pending[i + 1..];
        match pending[i] {
          case Begin(_) => depth := depth + 1;
          case End =>
            depth := depth - 1;
            if depth == 0 {
              return Yes;
            }
          case Text(t) => width := width + Measure(w, t);
          case Line(flat, _) => width := width + Measure(w, flat);
        }
        if width > room {
          return No;
        }
      }
      return Unknown;
    }

    method EmitText(t: string) returns (r: PrintResult)
      modifies this`column, sink
      ensures r.Ok? ==> Here() == old(Here()).Write(w, t)
      ensures r.Ok? || r.Refused()
      ensures old(sink.text) <= sink.text <= old(sink.text) + t
    {
      var e := sink.Emit(t);
      if e != Continue {
        return Err(Output(e));
      }
      column := column + Measure(w, t);
      return Ok;
    }

    method EmitNewline(indent: nat) returns (r: PrintResult)
      modifies this`column, sink
      ensures r.Ok? ==> Here() == old(Here()).Newline(indent)
      ensures r.Ok? || r.Refused()
      ensures old(sink.text) <= sink.text <= old(sink.text) + "\n" + Spaces(indent)
    {
      ghost var had := sink.text;
      var e := sink.Emit("\n");
      if e != Continue {
        return Err(Output(e));
      }
      var remaining := indent;
      while remaining != 0
        invariant 0 <= remaining <= indent
        invariant sink.text == had + "\n" + Spaces(indent - remaining)
      {
        var count := if remaining < SPACE_CHUNK then remaining else SPACE_CHUNK;
        e := sink.Emit(Spaces(count));
        assert Spaces(indent) == Spaces(indent - remaining) + Spaces(count) + Spaces(remaining - count);
        if e != Continue {
          return Err(Output(e));
        }
        assert Spaces(indent - remaining) + Spaces(count) == Spaces(indent - remaining + count);
        remaining := remaining - count;
      }
      column := indent;
      return Ok;
    }

    /** A finished layout has printed exactly what the batch printer prints for the whole log. */
    method Finish() returns (r: PrintResult)
      requires Valid()
      modifies this, sink
      ensures r.Ok? ==> Print(w, log).Some? && sink.text == base + Print(w, log).value
      ensures r.Rejected() ==> Print(w, log) == None
      ensures log == old(log)
    {
      DrainShift(w, base, Start(""), log);
      assert base + "" == base;
      ghost var c := Drain(w, Start(""), log).core;
      DrainIdle(w, Start(base), log);
      r := DrainPending();
      if r.Err? {
        return;
      }
      if pending != [] || breakableGroups != [] || forcedFlatDepth != 0 {
        var _ := sink.Flush();
        return Err(InvalidSequence);
      }
      r := EmitText("\n");
      assert base + (c.out + "\n") == base + c.out + "\n";
      if r.Err? {
        return;
      }
      var e := sink.Flush();
      r := if e == Continue then Ok else Err(Output(e));
    }
  }

  /** Draining again what is left changes nothing. */
  lemma {:induction false} DrainIdle(w: char -> nat, c: Core, toks: seq<Token>)
    ensures var d := Drain(w, c, toks); d.Running? ==> Drain(w, d.core, d.rest) == d
    decreases |toks|
  {
    if toks != [] && Take(w, c, toks).Took? {
      DrainIdle(w, Take(w, c, toks).core, toks[1..]);
    }
  }
}
