/** The value printer over the streaming layout. */
module PrinterMachine {
  import opened Text
  import opened Layout
  import opened LayoutMachine
  import opened Sink
  import opened Printer

  lemma EscapedCharFits(c: char)
    ensures ChunkOk(EscapeChar(c))
  {
    assert |EscapeChar(c)| <= 4;
    ByteLenAtMost(EscapeChar(c));
  }

  lemma PartFits(text: string, i: nat, j: nat)
    requires i <= j <= |text| && ChunkOk(text)
    ensures ChunkOk(text[i..j])
  {
    assert text == text[..i] + (text[i..j] + text[j..]);
    MeasureConcat(Utf8Len, text[..i], text[i..j] + text[j..]);
    MeasureConcat(Utf8Len, text[i..j], text[j..]);
  }

  lemma TextsMore(sep: seq<Token>, pieces: seq<string>, i: nat)
    requires i < |pieces|
    ensures sep + Texts(pieces[..i]) + [Token.Text(pieces[i])] == sep + Texts(pieces[..i + 1])
  {
  }

  lemma EntityPieces(handle: Option<string>)
    requires handle.Some? && ValidHandle(handle.value)
    ensures Texts(["(handent \"", Upper(handle.value), "\")"]) == EntityToks(handle)
  {
  }

  class ValuePrinter {
    const layout: StreamingLayout
    var lists: seq<ListState>
    var atom: AtomState
    var skippedLists: nat
    var rootValues: nat

    ghost function State(): PrinterState
      reads this
    {
      PrinterState(lists, atom, skippedLists, rootValues)
    }

    /** The layout holds all that was received and is inside `depth` groups. */
    ghost predicate LayoutAt(depth: nat)
      reads this, layout, layout.sink
    {
      layout.Valid() && Depth(layout.log, 0) == Some(depth)
    }

    /** Since `log` the layout received `toks`, however cut into pieces. */
    ghost predicate Sent(log: seq<Token>, toks: seq<Token>)
      reads this, layout
    {
      Explode(layout.log) == Explode(log) + Explode(toks)
    }

    ghost predicate Valid()
      reads this, layout, layout.sink
    {
      LayoutAt(|lists|)
    }

    /** What a method did to the printer is `step`: it accepted the event and handed over the text
        of its tokens, or rejected it. Either way the channel may have been closed first. */
    ghost predicate Did(r: PrintResult, log: seq<Token>, step: Printed)
      reads this, layout, layout.sink
    {
      && (r.Ok? ==> step.Accepted? && State() == step.state && Valid() && Sent(log, step.toks))
      && (r.Rejected() ==> step.Rejected?)
    }

    constructor (w: char -> nat, sink: OutputSink)
      ensures Valid() && fresh(layout) && layout.sink == sink && layout.w == w && layout.base == sink.text
      ensures State() == Fresh && layout.log == []
    {
      layout := new StreamingLayout(w, sink);
      lists, atom, skippedLists, rootValues := [], NoAtom, 0, 0;
    }

    method BeginList() returns (r: PrintResult)
      requires Valid()
      modifies this, layout, layout.sink
      ensures Did(r, old(layout.log), OnEvent(old(State()), Event.BeginList))
    {
      ghost var log := layout.log;
      if skippedLists != 0 {
        r := PollOutput();
        if r.Ok? {
          skippedLists := skippedLists + 1;
        }
        return;
      }
      if atom != NoAtom {
        return Err(InvalidSequence);
      }
      if |lists| == MAX_VALUE_DEPTH {
        r := OpaqueValue(OpaqueName(OpaqueKind.TooDeep), None);
        if r.Ok? {
          skippedLists := 1;
        }
        return;
      }
      var n := |lists|;
      ghost var sep := BeforeValue(State());
      r := BeforeValueMark();
      if r.Err? {
        return;
      }
      r := WriteBegin(n, log, sep.toks);
      if r.Ok? {
        lists := lists + [ListState.Empty];
      }
    }

    method WriteBegin(indent: nat, ghost log: seq<Token>, ghost sent: seq<Token>) returns (r: PrintResult)
      requires LayoutAt(indent) && Sent(log, sent)
      modifies layout, layout.sink
      ensures !r.Rejected()
      ensures r.Ok? ==> LayoutAt(indent + 1) && Sent(log, sent + [Begin(KindAt(indent)), Token.Text("(")])
    {
      ghost var begin := [Begin(KindAt(indent))];
      r := OpenGroup(indent, log, sent);
      if r.Ok? {
        r := Write("(", indent + 1, log, sent + begin);
      }
      assert sent + begin + [Token.Text("(")] == sent + [begin[0], Token.Text("(")];
    }

    method EndList() returns (r: PrintResult)
      requires Valid()
      modifies this, layout, layout.sink
      ensures Did(r, old(layout.log), OnEvent(old(State()), Event.EndList))
    {
      if skippedLists != 0 {
        r := PollOutput();
        if r.Ok? {
          skippedLists := skippedLists - 1;
        }
        return;
      }
      if atom != NoAtom || lists == [] || lists[|lists| - 1] == AwaitingTail {
        return Err(InvalidSequence);
      }
      var state := lists[|lists| - 1];
      lists := lists[..|lists| - 1];
      r := WriteEnd(|lists|, state == ListState.Empty);
    }

    method WriteEnd(indent: nat, empty: bool) returns (r: PrintResult)
      requires LayoutAt(indent + 1)
      modifies layout, layout.sink
      ensures !r.Rejected()
      ensures r.Ok? ==>
                && LayoutAt(indent)
                && Sent(old(layout.log), (if empty then [] else [Line("", Indent(indent))]) + [Token.Text(")"), End])
    {
      ghost var log, sent: seq<Token> := layout.log, [];
      SentNothing();
      if !empty {
        r := Separator("", indent, indent + 1, log, []);
        if r.Err? {
          return;
        }
        sent := [] + [Line("", Indent(indent))];
      }
      r := Write(")", indent + 1, log, sent);
      if r.Err? {
        return;
      }
      r := CloseGroup(indent + 1, log, sent + [Token.Text(")")]);
      assert sent + [Token.Text(")")] + [End] == sent + [Token.Text(")"), End];
    }

    method Dot() returns (r: PrintResult)
      requires Valid()
      modifies this, layout, layout.sink
      ensures Did(r, old(layout.log), OnEvent(old(State()), Event.Dot))
    {
      if skippedLists != 0 {
        r := PollOutput();
        return;
      }
      if atom != NoAtom || lists == [] || lists[|lists| - 1] != ListState.Values {
        return Err(InvalidSequence);
      }
      lists := lists[|lists| - 1 := AwaitingTail];
      r := WriteDot(|lists|);
    }

    method WriteDot(indent: nat) returns (r: PrintResult)
      requires LayoutAt(indent) && indent > 0
      modifies layout, layout.sink
      ensures !r.Rejected()
      ensures r.Ok? ==> LayoutAt(indent) && Sent(old(layout.log), [Line(" ", Indent(indent)), Token.Text(".")])
    {
      ghost var log, line := layout.log, [Line(" ", Indent(indent))];
      SentNothing();
      r := Separator(" ", indent, indent, log, []);
      if r.Err? {
        return;
      }
      assert [] + line == line && line + [Token.Text(".")] == [line[0], Token.Text(".")];
      r := Write(".", indent, log, line);
    }

    method Scalar(text: string) returns (r: PrintResult)
      requires Valid()
      modifies this, layout, layout.sink
      ensures Did(r, old(layout.log), Whole(old(State()), [Token.Text(text)]))
    {
      r := Pieces([text]);
      assert Texts([text]) == [Token.Text(text)];
    }

    method BeginSymbol() returns (r: PrintResult)
      requires Valid()
      modifies this, layout, layout.sink
      ensures Did(r, old(layout.log), OnEvent(old(State()), Event.BeginSymbol))
    {
      if skippedLists == 0 && atom != NoAtom {
        return Err(InvalidSequence);
      }
      r := PollOutput();
      if r.Ok? && skippedLists == 0 {
        atom := InSymbol(EmptySymbol);
      }
    }

    method SymbolChunk(text: string) returns (r: PrintResult)
      requires Valid()
      modifies this, layout, layout.sink
      ensures Did(r, old(layout.log), OnEvent(old(State()), Event.SymbolChunk(text)))
    {
      ghost var log := layout.log;
      if !SymbolChunkOk(text) {
        return Err(InvalidSequence);
      }
      if skippedLists != 0 {
        r := PollOutput();
        return;
      }
      if !atom.InSymbol? {
        return Err(InvalidSequence);
      }
      if text == "" {
        r := PollOutput();
        return;
      }
      ghost var sep: seq<Token> := [];
      SentNothing();
      if atom.state.number == NumberStart {
        ghost var step := BeforeSymbol(State());
        r := BeforeSymbolMark();
        if r.Err? {
          return;
        }
        sep := step.toks;
      }
      atom := InSymbol(PushSymbol(atom.state, text));
      r := WriteSymbolChunk(text, log, sep);
    }

    method EndSymbol() returns (r: PrintResult)
      requires Valid()
      modifies this, layout, layout.sink
      ensures Did(r, old(layout.log), OnEvent(old(State()), Event.EndSymbol))
    {
      if skippedLists == 0 && (!atom.InSymbol? || !SymbolComplete(atom.state)) {
        return Err(InvalidSequence);
      }
      r := PollOutput();
      if r.Ok? && skippedLists == 0 {
        atom := NoAtom;
      }
    }

    method BeginString() returns (r: PrintResult)
      requires Valid()
      modifies this, layout, layout.sink
      ensures Did(r, old(layout.log), OnEvent(old(State()), Event.BeginString))
    {
      var skipping := skippedLists != 0;
      if !skipping && atom == NoAtom {
        r := PollOutput();
        if r.Err? {
          return;
        }
      }
      r := Scalar("\"");
      if r.Ok? && !skipping {
        atom := InString;
      }
    }

    method StringChunk(text: string) returns (r: PrintResult)
      requires Valid()
      modifies this, layout, layout.sink
      ensures Did(r, old(layout.log), OnEvent(old(State()), Event.StringChunk(text)))
    {
      ghost var log := layout.log;
      if !ChunkOk(text) {
        return Err(InvalidSequence);
      }
      if skippedLists != 0 {
        r := PollOutput();
        return;
      }
      if atom != InString {
        return Err(InvalidSequence);
      }
      r := WriteStringChunk(text);
    }

    method EndString() returns (r: PrintResult)
      requires Valid()
      modifies this, layout, layout.sink
      ensures Did(r, old(layout.log), OnEvent(old(State()), Event.EndString))
    {
      if skippedLists != 0 {
        r := PollOutput();
        return;
      }
      if atom != InString {
        return Err(InvalidSequence);
      }
      r := PollOutput();
      if r.Err? {
        return;
      }
      atom := NoAtom;
      ghost var log := layout.log;
      r := Write("\"", |lists|, log, []);
      assert [] + [Token.Text("\"")] == [Token.Text("\"")];
    }

    method Entity(handle: Option<string>) returns (r: PrintResult)
      requires Valid()
      modifies this, layout, layout.sink
      ensures Did(r, old(layout.log), OnEvent(old(State()), Event.Entity(handle)))
    {
      if handle == None || !ValidHandle(handle.value) {
        r := OpaqueValue("Entity", None);
        return;
      }
      var pieces := ["(handent \"", Upper(handle.value), "\")"];
      EntityPieces(handle);
      r := Pieces(pieces);
    }

    method Opaque(kind: OpaqueKind) returns (r: PrintResult)
      requires Valid()
      modifies this, layout, layout.sink
      ensures Did(r, old(layout.log), OnEvent(old(State()), Event.Opaque(kind)))
    {
      r := OpaqueValue(OpaqueName(kind), LabelOf(kind));
    }

    /** All lists must be closed; then what was printed is what the layout prints for all events. */
    method Finish() returns (r: PrintResult)
      requires Valid()
      modifies this, layout, layout.sink
      ensures r.Ok? ==> MayFinish(old(State())) && Print(layout.w, old(layout.log)).Some?
                        && layout.sink.text == layout.base + Print(layout.w, old(layout.log)).value
      ensures r.Rejected() ==> !MayFinish(old(State())) || Print(layout.w, old(layout.log)) == None
    {
      if atom != NoAtom || lists != [] || skippedLists != 0 {
        return Err(InvalidSequence);
      }
      r := layout.Finish();
    }

    method OpaqueValue(name: string, payload: Option<string>) returns (r: PrintResult)
      requires Valid()
      modifies this, layout, layout.sink
      ensures Did(r, old(layout.log), Whole(old(State()), OpaqueText(name, payload)))
    {
      var pieces := ["#<", name] + (if payload.Some? then [" ", payload.value] else []) + [">"];
      r := Pieces(pieces);
      assert Texts(pieces) == OpaqueText(name, payload);
    }

    /** A value that is written as a whole, piece by piece. */
    method Pieces(pieces: seq<string>) returns (r: PrintResult)
      requires Valid()
      modifies this, layout, layout.sink
      ensures Did(r, old(layout.log), Whole(old(State()), Texts(pieces)))
    {
      if skippedLists != 0 {
        r := PollOutput();
        return;
      }
      if atom != NoAtom {
        return Err(InvalidSequence);
      }
      ghost var log, step := layout.log, BeforeValue(State());
      r := BeforeValueMark();
      if r.Err? {
        return;
      }
      r := WritePieces(pieces, log, step.toks);
    }

    method WritePieces(pieces: seq<string>, ghost log: seq<Token>, ghost sep: seq<Token>) returns (r: PrintResult)
      requires Valid() && Sent(log, sep)
      modifies layout, layout.sink
      ensures !r.Rejected()
      ensures r.Ok? ==> Valid() && Sent(log, sep + Texts(pieces))
    {
      r := Ok;
      assert sep + Texts(pieces[..0]) == sep;
      for i := 0 to |pieces|
        invariant Valid() && r.Ok? && Sent(log, sep + Texts(pieces[..i]))
      {
        r := Write(pieces[i], |lists|, log, sep + Texts(pieces[..i]));
        if r.Err? {
          return;
        }
        TextsMore(sep, pieces, i);
      }
      assert pieces[..|pieces|] == pieces;
    }

    method BeforeValueMark() returns (r: PrintResult)
      requires Valid()
      modifies this, layout, layout.sink
      ensures Did(r, old(layout.log), BeforeValue(old(State())))
      ensures |lists| == old(|lists|)
    {
      SentNothing();
      if lists == [] {
        rootValues := rootValues + 1;
        return Ok;
      }
      var last := |lists| - 1;
      var separator := " ";
      match lists[last] {
        case Empty =>
          lists := lists[last := ListState.Values];
          separator := "";
        case Values =>
        case AwaitingTail =>
          lists := lists[last := ListState.Complete];
        case Complete =>
          return Err(InvalidSequence);
      }
      ghost var log := layout.log;
      r := Separator(separator, |lists|, |lists|, log, []);
      assert [] + [Line(separator, Indent(|lists|))] == [Line(separator, Indent(|lists|))];
    }

    method BeforeSymbolMark() returns (r: PrintResult)
      requires Valid()
      modifies this, layout, layout.sink
      ensures Did(r, old(layout.log), BeforeSymbol(old(State())))
      ensures |lists| == old(|lists|)
    {
      SentNothing();
      if lists != [] && lists[|lists| - 1] == ListState.Empty {
        lists := lists[|lists| - 1 := ListState.Values];
        return Ok;
      }
      r := BeforeValueMark();
    }

    method WriteStringChunk(text: string) returns (r: PrintResult)
      requires Valid() && ChunkOk(text)
      modifies layout, layout.sink
      ensures !r.Rejected()
      ensures r.Ok? ==> Valid() && Sent(old(layout.log), [Token.Text(Escape(text))])
    {
      ghost var log := layout.log;
      SentNothing();
      assert [] + [Token.Text(Escape(text))] == [Token.Text(Escape(text))];
      if forall c | c in text :: !RequiresEscape(c) {
        EscapePlain(text);
        r := Write(text, |lists|, log, []);
        return;
      }
      var escaped := "";
      r := Ok;
      assert Buffered(log, [], "", "");
      for i := 0 to |text|
        invariant Valid() && r.Ok? && Buffered(log, [], Escape(text[..i]), escaped) && ChunkOk(escaped)
      {
        assert text[..i + 1] == text[..i] + [text[i]];
        EscapeAppend(text[..i], text[i]);
        EscapedCharFits(text[i]);
        r, escaped := AppendBounded(escaped, EscapeChar(text[i]), log, [], Escape(text[..i]));
        if r.Err? {
          return;
        }
      }
      assert text[..|text|] == text;
      r := WriteLast(escaped, log, [], Escape(text));
    }

    method WriteSymbolChunk(text: string, ghost log: seq<Token>, ghost sent: seq<Token>) returns (r: PrintResult)
      requires Valid() && Sent(log, sent) && ChunkOk(text)
      modifies layout, layout.sink
      ensures !r.Rejected()
      ensures r.Ok? ==> Valid() && Sent(log, sent + [Token.Text(EscapeSymbol(text))])
    {
      if '\\' !in text {
        EscapeSymbolPlain(text);
        r := Write(text, |lists|, log, sent);
        return;
      }
      var escaped := "";
      r := Ok;
      assert Buffered(log, sent, "", "");
      var i := 0;
      while i < |text|
        invariant 0 <= i <= |text| && Valid() && r.Ok?
        invariant Buffered(log, sent, EscapeSymbol(text[..i]), escaped) && ChunkOk(escaped)
      {
        r, escaped, i := AppendRun(text, i, escaped, log, sent);
        if r.Err? {
          return;
        }
      }
      assert text[..|text|] == text;
      r := WriteLast(escaped, log, sent, EscapeSymbol(text));
    }

    /** Up to the next backslash, then the backslash doubled. */
    method AppendRun(text: string, i: nat, buffer: string, ghost log: seq<Token>, ghost sent: seq<Token>)
      returns (r: PrintResult, escaped: string, next: nat)
      requires i < |text| && ChunkOk(text)
      requires Valid() && Buffered(log, sent, EscapeSymbol(text[..i]), buffer) && ChunkOk(buffer)
      modifies layout, layout.sink
      ensures !r.Rejected()
      ensures r.Ok? ==> i < next <= |text| && Valid() && Buffered(log, sent, EscapeSymbol(text[..next]), escaped)
      ensures r.Ok? ==> ChunkOk(escaped)
    {
      next := i + IndexOf(text[i..], {'\\'});
      EscapeSymbolRun(text, i, next);
      PartFits(text, i, next);
      r, escaped := AppendBounded(buffer, text[i..next], log, sent, EscapeSymbol(text[..i]));
      if r.Ok? && next < |text| {
        r, escaped := AppendBackslash(text, next, escaped, log, sent);
        next := next + 1;
      }
    }

    method AppendBackslash(ghost text: string, ghost i: nat, buffer: string, ghost log: seq<Token>,
                           ghost sent: seq<Token>)
      returns (r: PrintResult, escaped: string)
      requires i < |text| && text[i] == '\\'
      requires Valid() && Buffered(log, sent, EscapeSymbol(text[..i]), buffer) && ChunkOk(buffer)
      modifies layout, layout.sink
      ensures !r.Rejected()
      ensures r.Ok? ==> Valid() && Buffered(log, sent, EscapeSymbol(text[..i + 1]), escaped) && ChunkOk(escaped)
    {
      EscapeSymbolBackslash(text, i);
      EscapedCharFits('\\');
      r, escaped := AppendBounded(buffer, "\\\\", log, sent, EscapeSymbol(text[..i]));
    }

    /** After `sent`, the text `done` was handed over except for what is still in the buffer. */
    ghost predicate Buffered(log: seq<Token>, sent: seq<Token>, done: string, buffer: string)
      reads this, layout
    {
      Explode(layout.log) + Letters(buffer) == Explode(log) + Explode(sent) + Letters(done)
    }

    /** Adds text to the buffer, writing the buffer out first if it would grow beyond one chunk; what is
        written out always fits one. */
    method AppendBounded(buffer: string, text: string, ghost log: seq<Token>, ghost sent: seq<Token>,
                         ghost done: string)
      returns (r: PrintResult, next: string)
      requires Valid() && Buffered(log, sent, done, buffer) && ChunkOk(buffer)
      modifies layout, layout.sink
      ensures !r.Rejected()
      ensures r.Ok? ==> Valid() && Buffered(log, sent, done + text, next) && (ChunkOk(next) || next == text)
    {
      next := buffer;
      if ByteLen(buffer) + ByteLen(text) > MAX_VALUE_TEXT_BYTES {
        r := WriteBuffer(buffer);
        if r.Err? {
          return;
        }
        next := "";
        assert Buffered(log, sent, done, next);
      }
      MeasureConcat(Utf8Len, next, text);
      LettersLonger(Explode(layout.log), next, Explode(log) + Explode(sent), done, text);
      next := next + text;
      r := Ok;
    }

    method WriteBuffer(buffer: string) returns (r: PrintResult)
      requires Valid() && ChunkOk(buffer)
      modifies layout, layout.sink
      ensures !r.Rejected()
      ensures r.Ok? ==> Valid() && Explode(layout.log) == Explode(old(layout.log)) + Letters(buffer)
    {
      ghost var log := layout.log;
      SentNothing();
      r := Write(buffer, |lists|, log, []);
      ExplodeText([], buffer);
    }

    method WriteLast(buffer: string, ghost log: seq<Token>, ghost sent: seq<Token>, ghost done: string)
      returns (r: PrintResult)
      requires Valid() && Buffered(log, sent, done, buffer) && ChunkOk(buffer)
      modifies layout, layout.sink
      ensures !r.Rejected()
      ensures r.Ok? ==> Valid() && Sent(log, sent + [Token.Text(done)])
    {
      r := WriteBuffer(buffer);
      ExplodeText(sent, done);
      Assoc(Explode(log), Explode(sent), Letters(done));
    }

    method PollOutput() returns (r: PrintResult)
      requires Valid()
      modifies layout.sink
      ensures Valid() && !r.Rejected() && Sent(layout.log, [])
    {
      SentNothing();
      r := layout.Poll();
    }

    lemma SentNothing()
      ensures Sent(layout.log, [])
    {
    }

    // ----- The layout never rejects what the printer hands to it -----

    method Write(text: string, ghost depth: nat, ghost log: seq<Token>, ghost sent: seq<Token>) returns (r: PrintResult)
      requires LayoutAt(depth) && Sent(log, sent)
      modifies layout, layout.sink
      ensures !r.Rejected()
      ensures r.Ok? ==> LayoutAt(depth) && Sent(log, sent + [Token.Text(text)])
    {
      StaysDeep(layout.log, Token.Text(text), depth);
      ExplodeAfter(log, sent, layout.log, Token.Text(text));
      if text == "" {
        ExplodeNothing(layout.log);
        assert layout.log + [] == layout.log;
        DeepIsRunning(layout.w, Start(layout.base), layout.log);
      }
      r := layout.Text(text);
    }

    method Separator(flat: string, indent: nat, ghost depth: nat, ghost log: seq<Token>, ghost sent: seq<Token>)
      returns (r: PrintResult)
      requires LayoutAt(depth) && depth > 0 && Sent(log, sent)
      modifies layout, layout.sink
      ensures !r.Rejected()
      ensures r.Ok? ==> LayoutAt(depth) && Sent(log, sent + [Line(flat, Indent(indent))])
    {
      StaysDeep(layout.log, Line(flat, Indent(indent)), depth);
      ExplodeAfter(log, sent, layout.log, Line(flat, Indent(indent)));
      r := layout.Line(flat, indent);
    }

    method OpenGroup(depth: nat, ghost log: seq<Token>, ghost sent: seq<Token>) returns (r: PrintResult)
      requires LayoutAt(depth) && Sent(log, sent)
      modifies layout, layout.sink
      ensures !r.Rejected()
      ensures r.Ok? ==> LayoutAt(depth + 1) && Sent(log, sent + [Begin(KindAt(depth))])
    {
      StaysDeep(layout.log, Begin(KindAt(depth)), depth);
      ExplodeAfter(log, sent, layout.log, Begin(KindAt(depth)));
      r := layout.BeginGroup(depth);
    }

    method CloseGroup(ghost depth: nat, ghost log: seq<Token>, ghost sent: seq<Token>) returns (r: PrintResult)
      requires LayoutAt(depth) && depth > 0 && Sent(log, sent)
      modifies layout, layout.sink
      ensures !r.Rejected()
      ensures r.Ok? ==> LayoutAt(depth - 1) && Sent(log, sent + [End])
    {
      StaysDeep(layout.log, End, depth);
      ExplodeAfter(log, sent, layout.log, End);
      r := layout.EndGroup();
    }

    lemma StaysDeep(log: seq<Token>, t: Token, depth: nat)
      requires Depth(log, 0) == Some(depth)
      requires ((t.End? || t.Line?) ==> depth > 0) && (t.Begin? ==> t.kind == KindAt(depth))
      ensures Depth(log + [t], 0) == Some(match t case Begin(_) => depth + 1 case End => depth - 1 case _ => depth)
      ensures Drain(layout.w, Start(layout.base), log + [t]).Running?
    {
      DepthConcat(log, [t], 0);
      assert [t] + [] == [t];
      DepthNext(t, [], depth);
      DeepIsRunning(layout.w, Start(layout.base), log + [t]);
    }
  }

  // ----- Text in pieces -----

  function Texts(pieces: seq<string>): (r: seq<Token>)
    ensures |r| == |pieces| && forall i | 0 <= i < |r| :: r[i] == Token.Text(pieces[i])
  {
    seq(|pieces|, i requires 0 <= i < |pieces| => Token.Text(pieces[i]))
  }

  lemma ExplodeAfter(log: seq<Token>, sent: seq<Token>, now: seq<Token>, t: Token)
    requires Explode(now) == Explode(log) + Explode(sent)
    ensures Explode(now + [t]) == Explode(log) + Explode(sent + [t])
  {
    ExplodeConcat(now, [t]);
    ExplodeConcat(sent, [t]);
    Assoc(Explode(log), Explode(sent), Explode([t]));
  }

  lemma Assoc(a: seq<Token>, b: seq<Token>, c: seq<Token>)
    ensures a + b + c == a + (b + c)
  {
  }

  /** Both sides grow by the same text. */
  lemma LettersLonger(a: seq<Token>, had: string, b: seq<Token>, done: string, text: string)
    requires a + Letters(had) == b + Letters(done)
    ensures a + Letters(had + text) == b + Letters(done + text)
  {
    assert Letters(had + text) == Letters(had) + Letters(text);
    assert Letters(done + text) == Letters(done) + Letters(text);
    Assoc(a, Letters(had), Letters(text));
    Assoc(b, Letters(done), Letters(text));
  }

  lemma ExplodeText(log: seq<Token>, t: string)
    ensures Explode(log + [Token.Text(t)]) == Explode(log) + Letters(t)
  {
    ExplodeConcat(log, [Token.Text(t)]);
    assert Explode([Token.Text(t)]) == Letters(t) + Explode([Token.Text(t)][1..]) == Letters(t);
  }

  lemma ExplodeNothing(log: seq<Token>)
    ensures Explode(log + [Token.Text("")]) == Explode(log)
  {
    ExplodeText(log, "");
  }

  lemma {:induction false} EscapePlain(s: string)
    requires forall c | c in s :: !RequiresEscape(c)
    ensures Escape(s) == s
  {
    if s != "" {
      assert s[0] in s;
      EscapePlain(s[1..]);
    }
  }

  lemma EscapeAppend(s: string, c: char)
    ensures Escape(s + [c]) == Escape(s) + EscapeChar(c)
  {
    EscapeConcat(s, [c]);
    assert Escape([c]) == EscapeChar(c) + Escape([c][1..]) == EscapeChar(c);
  }

  lemma {:induction false} EscapeSymbolPlain(s: string)
    requires '\\' !in s
    ensures EscapeSymbol(s) == s
  {
    if s != "" {
      EscapeSymbolPlain(s[1..]);
    }
  }

  lemma EscapeSymbolRun(text: string, i: nat, next: nat)
    requires i <= next <= |text| && forall j | i <= j < next :: text[j] != '\\'
    ensures EscapeSymbol(text[..next]) == EscapeSymbol(text[..i]) + text[i..next]
  {
    EscapeSymbolPlain(text[i..next]);
    EscapeSymbolConcat(text[..i], text[i..next]);
    assert text[..i] + text[i..next] == text[..next];
  }

  lemma EscapeSymbolBackslash(text: string, next: nat)
    requires next < |text| && text[next] == '\\'
    ensures EscapeSymbol(text[..next + 1]) == EscapeSymbol(text[..next]) + "\\\\"
  {
    EscapeSymbolConcat(text[..next], "\\");
    assert "\\"[1..] == "" && EscapeSymbol("\\") == "\\\\";
    assert text[..next] + "\\" == text[..next + 1];
  }
}
