/**
 Values as the printer's events describe them: the events of a value, the document that they
 print, and which values are printed at all.
 */
module Values {
  import opened Text
  import opened Layout
  import opened Printer

  /** Strings and symbol names come in pieces, as they are handed to the printer. */
  datatype Value =
    | VNil
    | VTrue
    | VInteger(value: i64)
    | VReal(token: RealText)
    | VNotFinite  // a real that has no text
    | VString(pieces: seq<string>)
    | VSymbol(pieces: seq<string>)
    | VList(items: Items)
    | VEntity(handle: Option<string>)
    | VOpaque(kind: OpaqueKind)

  /** The values of a list, and the tail after its dot if it has one. */
  datatype Items = Close | Dotted(tail: Value) | More(head: Value, rest: Items)

  /** The same value with every text in one piece. */
  function Plain(v: Value): Value
  {
    match v
    case VString(pieces) => VString([Flatten(pieces)])
    case VSymbol(pieces) => VSymbol([Flatten(pieces)])
    case VList(items) => VList(PlainItems(items))
    case _ => v
  }

  function PlainItems(items: Items): Items
  {
    match items
    case Close => Close
    case Dotted(t) => Dotted(Plain(t))
    case More(v, rest) => More(Plain(v), PlainItems(rest))
  }

  // ----- The events of a value -----

  function StringChunks(pieces: seq<string>): seq<Event> {
    if pieces == [] then [EndString] else [StringChunk(pieces[0])] + StringChunks(pieces[1..])
  }

  function SymbolChunks(pieces: seq<string>): seq<Event> {
    if pieces == [] then [EndSymbol] else [SymbolChunk(pieces[0])] + SymbolChunks(pieces[1..])
  }

  predicate IsAtom(v: Value) {
    !v.VString? && !v.VSymbol? && !v.VList?
  }

  function AtomEvent(v: Value): Event
    requires IsAtom(v)
  {
    match v
    case VNil => Event.Nil
    case VTrue => True
    case VInteger(i) => Integer(i)
    case VReal(t) => Real(Some(t))
    case VNotFinite => Real(None)
    case VEntity(handle) => Entity(handle)
    case VOpaque(kind) => Opaque(kind)
  }

  function Events(v: Value): seq<Event>
  {
    match v
    case VString(pieces) => [BeginString] + StringChunks(pieces)
    case VSymbol(pieces) => [BeginSymbol] + SymbolChunks(pieces)
    case VList(items) => [BeginList] + ItemEvents(items)
    case _ => [AtomEvent(v)]
  }

  /** The rest of a list, up to its end. */
  function ItemEvents(items: Items): seq<Event>
  {
    match items
    case Close => [EndList]
    case Dotted(t) => [Dot] + (Events(t) + [EndList])
    case More(v, rest) => Events(v) + ItemEvents(rest)
  }

  // ----- Which values the printer accepts -----

  predicate ChunksOk(pieces: seq<string>) {
    pieces == [] || (ChunkOk(pieces[0]) && ChunksOk(pieces[1..]))
  }

  predicate SymbolChunksOk(pieces: seq<string>) {
    pieces == [] || (SymbolChunkOk(pieces[0]) && SymbolChunksOk(pieces[1..]))
  }

  /** What is still checked below the depth at which values are replaced. */
  predicate Skippable(v: Value)
  {
    match v
    case VNotFinite => false
    case VString(pieces) => ChunksOk(pieces)
    case VSymbol(pieces) => SymbolChunksOk(pieces)
    case VList(items) => ItemsSkippable(items)
    case _ => true
  }

  predicate ItemsSkippable(items: Items)
  {
    match items
    case Close => true
    case Dotted(t) => Skippable(t)
    case More(v, rest) => Skippable(v) && ItemsSkippable(rest)
  }

  /** The printer accepts the value inside `depth` lists: reals are finite, texts come in chunks of bounded size,
      symbols have valid names that are not numbers or nil, dotted lists have a head. */
  predicate Printable(v: Value, depth: nat)
  {
    match v
    case VNotFinite => false
    case VString(pieces) => ChunksOk(pieces)
    case VSymbol(pieces) => SymbolChunksOk(pieces) && SymbolComplete(PushSymbol(EmptySymbol, Flatten(pieces)))
    case VList(items) =>
      if depth >= MAX_VALUE_DEPTH then ItemsSkippable(items)
      else !items.Dotted? && ItemsPrintable(items, depth + 1)
    case _ => true
  }

  predicate ItemsPrintable(items: Items, depth: nat)
  {
    match items
    case Close => true
    case Dotted(t) => Printable(t, depth)
    case More(v, rest) => Printable(v, depth) && ItemsPrintable(rest, depth)
  }

  // ----- The document of a value -----

  function SeqDoc(a: Doc, b: Doc): Doc
  {
    match a
    case Nil => b
    case Piece(t, rest) => Piece(t, SeqDoc(rest, b))
    case Break(f, n, rest) => Break(f, n, SeqDoc(rest, b))
    case Group(kind, body, rest) => Group(kind, body, SeqDoc(rest, b))
  }

  function PiecesDoc(texts: seq<string>): Doc {
    if texts == [] then Doc.Nil else Piece(texts[0], PiecesDoc(texts[1..]))
  }

  function StringDoc(pieces: seq<string>): Doc {
    if pieces == [] then Piece("\"", Doc.Nil) else Piece(Escape(pieces[0]), StringDoc(pieces[1..]))
  }

  function SymbolDoc(pieces: seq<string>): Doc {
    if pieces == [] then Doc.Nil
    else if pieces[0] == "" then SymbolDoc(pieces[1..])
    else Piece(EscapeSymbol(pieces[0]), SymbolDoc(pieces[1..]))
  }

  function OpaqueDoc(name: string, payload: Option<string>): Doc {
    PiecesDoc(["#<", name] + (if payload.Some? then [" ", payload.value] else []) + [">"])
  }

  function EntityDoc(handle: Option<string>): Doc {
    if handle.Some? && ValidHandle(handle.value) then PiecesDoc(["(handent \"", Upper(handle.value), "\")"])
    else OpaqueDoc("Entity", None)
  }

  /** A value inside `depth` lists, without the separator before it. */
  function DocOf(v: Value, depth: nat): Doc
  {
    match v
    case VNil => Piece("nil", Doc.Nil)
    case VTrue => Piece("T", Doc.Nil)
    case VInteger(i) => Piece(Show(i), Doc.Nil)
    case VReal(t) => Piece(t, Doc.Nil)
    case VNotFinite => Doc.Nil
    case VString(pieces) => Piece("\"", StringDoc(pieces))
    case VSymbol(pieces) => SymbolDoc(pieces)
    case VList(items) =>
      if depth >= MAX_VALUE_DEPTH then OpaqueDoc(OpaqueName(TooDeep), None)
      else Group(KindAt(depth), Piece("(", ItemsDoc(items, depth, true)), Doc.Nil)
    case VEntity(handle) => EntityDoc(handle)
    case VOpaque(kind) => OpaqueDoc(OpaqueName(kind), LabelOf(kind))
  }

  /** What separates a value from what precedes it in its list. */
  function SeparatorDoc(v: Value, depth: nat, first: bool): Doc {
    if !first then Break(" ", Indent(depth + 1), Doc.Nil)
    else if v.VSymbol? then Doc.Nil
    else Break("", Indent(depth + 1), Doc.Nil)
  }

  /** The rest of a list that lies inside `depth` lists, up to its closing parenthesis. */
  function ItemsDoc(items: Items, depth: nat, first: bool): Doc
  {
    match items
    case Close => if first then Piece(")", Doc.Nil) else CloseDoc(depth)
    case Dotted(t) => SeqDoc(DotDoc(depth), SeqDoc(DocOf(t, depth + 1), CloseDoc(depth)))
    case More(v, rest) => SeqDoc(SeparatorDoc(v, depth, first),
                                 SeqDoc(DocOf(v, depth + 1), ItemsDoc(rest, depth, false)))
  }

  function DotDoc(depth: nat): Doc {
    Break(" ", Indent(depth + 1), Piece(".", Break(" ", Indent(depth + 1), Doc.Nil)))
  }

  function CloseDoc(depth: nat): Doc {
    Break("", Indent(depth), Piece(")", Doc.Nil))
  }

  // ----- Lists only nest deeper, so forced groups contain only forced groups -----

  lemma {:induction false} SeqNested(a: Doc, b: Doc, inGroup: bool, inForced: bool)
    ensures WellNested(SeqDoc(a, b), inGroup, inForced)
            <==> WellNested(a, inGroup, inForced) && WellNested(b, inGroup, inForced)
  {
    match a
    case Nil =>
    case Piece(_, rest) => SeqNested(rest, b, inGroup, inForced);
    case Break(_, _, rest) => SeqNested(rest, b, inGroup, inForced);
    case Group(_, _, rest) => SeqNested(rest, b, inGroup, inForced);
  }

  lemma {:induction false} PiecesNested(texts: seq<string>, inGroup: bool, inForced: bool)
    ensures WellNested(PiecesDoc(texts), inGroup, inForced)
  {
    if texts != [] {
      PiecesNested(texts[1..], inGroup, inForced);
    }
  }

  lemma {:induction false} TextNested(pieces: seq<string>, inGroup: bool, inForced: bool)
    ensures WellNested(StringDoc(pieces), inGroup, inForced) && WellNested(SymbolDoc(pieces), inGroup, inForced)
  {
    if pieces != [] {
      TextNested(pieces[1..], inGroup, inForced);
    }
  }

  /** Every document of a value is well nested: inside a forced group lists are so deep that their
      groups are forced too. */
  lemma {:induction false} ValueNested(v: Value, depth: nat, inForced: bool)
    requires inForced ==> KindAt(depth) == ForcedFlat
    ensures WellNested(DocOf(v, depth), depth > 0, inForced)
    decreases v
  {
    match v
    case VString(pieces) => TextNested(pieces, depth > 0, inForced);
    case VSymbol(pieces) => TextNested(pieces, depth > 0, inForced);
    case VList(items) =>
      if depth < MAX_VALUE_DEPTH {
        ItemsNested(items, depth, true, inForced || KindAt(depth) == ForcedFlat);
      } else {
        OpaqueNested(OpaqueName(TooDeep), None, depth > 0, inForced);
      }
    case VEntity(handle) =>
      OpaqueNested("Entity", None, depth > 0, inForced);
      if handle.Some? {
        PiecesNested(["(handent \"", Upper(handle.value), "\")"], depth > 0, inForced);
      }
    case VOpaque(kind) => OpaqueNested(OpaqueName(kind), LabelOf(kind), depth > 0, inForced);
    case _ =>
  }

  lemma OpaqueNested(name: string, payload: Option<string>, inGroup: bool, inForced: bool)
    ensures WellNested(OpaqueDoc(name, payload), inGroup, inForced)
  {
    PiecesNested(["#<", name] + (if payload.Some? then [" ", payload.value] else []) + [">"], inGroup, inForced);
  }

  lemma DotNested(depth: nat, inForced: bool)
    ensures WellNested(DotDoc(depth), true, inForced)
  {
    var inner := Break(" ", Indent(depth + 1), Doc.Nil);
    assert WellNested(inner, true, inForced);
    assert WellNested(Piece(".", inner), true, inForced);
  }

  lemma {:induction false} ItemsNested(items: Items, depth: nat, first: bool, inForced: bool)
    requires inForced ==> KindAt(depth) == ForcedFlat
    ensures WellNested(ItemsDoc(items, depth, first), true, inForced)
    decreases items
  {
    match items
    case Close =>
    case Dotted(t) =>
      ValueNested(t, depth + 1, inForced);
      SeqNested(DocOf(t, depth + 1), CloseDoc(depth), true, inForced);
      DotNested(depth, inForced);
      assert WellNested(CloseDoc(depth).rest, true, inForced);
      SeqNested(DotDoc(depth), SeqDoc(DocOf(t, depth + 1), CloseDoc(depth)), true, inForced);
    case More(v, rest) =>
      var more := ItemsDoc(rest, depth, false);
      ValueNested(v, depth + 1, inForced);
      ItemsNested(rest, depth, false, inForced);
      SeqNested(DocOf(v, depth + 1), more, true, inForced);
      SeqNested(SeparatorDoc(v, depth, first), SeqDoc(DocOf(v, depth + 1), more), true, inForced);
  }

  // ----- The tokens of a value are those of its document -----

  lemma {:induction false} TokensAppend(d: Doc, tail: seq<Token>)
    ensures TokensThen(d, tail) == TokensThen(d, []) + tail
  {
    match d
    case Nil =>
    case Piece(t, rest) =>
      TokensAppend(rest, tail);
      Regroup([Text(t)], TokensThen(rest, []), tail);
    case Break(f, n, rest) =>
      TokensAppend(rest, tail);
      Regroup([Line(f, n)], TokensThen(rest, []), tail);
    case Group(kind, body, rest) =>
      TokensAppend(rest, tail);
      var close, close' := [End] + TokensThen(rest, tail), [End] + TokensThen(rest, []);
      Regroup([End], TokensThen(rest, []), tail);
      TokensAppend(body, close);
      TokensAppend(body, close');
      Regroup(TokensThen(body, []), close', tail);
      Regroup([Begin(kind)], TokensThen(body, close'), tail);
  }

  lemma Regroup<T>(a: seq<T>, b: seq<T>, c: seq<T>)
    ensures a + (b + c) == a + b + c
  {
  }

  lemma {:induction false} TokensSeq(a: Doc, b: Doc, tail: seq<Token>)
    ensures TokensThen(SeqDoc(a, b), tail) == TokensThen(a, TokensThen(b, tail))
  {
    match a
    case Nil =>
    case Piece(_, rest) => TokensSeq(rest, b, tail);
    case Break(_, _, rest) => TokensSeq(rest, b, tail);
    case Group(_, _, rest) => TokensSeq(rest, b, tail);
  }

  /** The tokens of a document that stands alone. */
  function Toks(d: Doc): seq<Token> {
    TokensThen(d, [])
  }

  lemma ToksSeq(a: Doc, b: Doc)
    ensures Toks(SeqDoc(a, b)) == Toks(a) + Toks(b)
  {
    TokensSeq(a, b, []);
    TokensAppend(a, Toks(b));
  }

  predicate Ready(p: PrinterState) {
    p.atom == NoAtom && p.skipped == 0 && |p.lists| <= MAX_VALUE_DEPTH && BeforeValue(p).Accepted?
  }

  /** The first mark of a value: its separator. */
  function Before(v: Value, p: PrinterState): Printed {
    if v.VSymbol? then BeforeSymbol(p) else BeforeValue(p)
  }

  // ----- Below the depth limit everything is skipped -----

  lemma {:induction false} StringSkipped(pieces: seq<string>, p: PrinterState)
    requires p.skipped > 0
    ensures OnEvents(p, StringChunks(pieces)) == if ChunksOk(pieces) then Accepted(p, []) else Rejected
  {
    if pieces == [] {
      OneEvent(p, EndString);
    } else {
      FirstEvent(p, StringChunk(pieces[0]), StringChunks(pieces[1..]));
      StringSkipped(pieces[1..], p);
    }
  }

  lemma {:induction false} SymbolSkipped(pieces: seq<string>, p: PrinterState)
    requires p.skipped > 0
    ensures OnEvents(p, SymbolChunks(pieces)) == if SymbolChunksOk(pieces) then Accepted(p, []) else Rejected
  {
    if pieces == [] {
      OneEvent(p, EndSymbol);
    } else {
      FirstEvent(p, SymbolChunk(pieces[0]), SymbolChunks(pieces[1..]));
      SymbolSkipped(pieces[1..], p);
    }
  }

  lemma TextSkipped(pieces: seq<string>, p: PrinterState)
    requires p.skipped > 0
    ensures OnEvents(p, Events(VString(pieces))) == if ChunksOk(pieces) then Accepted(p, []) else Rejected
    ensures OnEvents(p, Events(VSymbol(pieces))) == if SymbolChunksOk(pieces) then Accepted(p, []) else Rejected
  {
    FirstEvent(p, BeginString, StringChunks(pieces));
    StringSkipped(pieces, p);
    FirstEvent(p, BeginSymbol, SymbolChunks(pieces));
    SymbolSkipped(pieces, p);
  }

  lemma {:induction false} ValueSkipped(v: Value, p: PrinterState)
    requires p.skipped > 0
    ensures OnEvents(p, Events(v)) == if Skippable(v) then Accepted(p, []) else Rejected
    decreases v
  {
    match v
    case VString(pieces) => TextSkipped(pieces, p);
    case VSymbol(pieces) => TextSkipped(pieces, p);
    case VList(items) =>
      FirstEvent(p, BeginList, ItemEvents(items));
      ItemsSkipped(items, p.(skipped := p.skipped + 1));
    case _ =>
      OneEvent(p, AtomEvent(v));
      if v != VNotFinite {
        AtomIsWhole(v, p);
      }
  }

  lemma {:induction false} ItemsSkipped(items: Items, p: PrinterState)
    requires p.skipped > 0
    ensures OnEvents(p, ItemEvents(items)) ==
            if ItemsSkippable(items) then Accepted(p.(skipped := p.skipped - 1), []) else Rejected
    decreases items
  {
    OneEvent(p, EndList);
    match items
    case Close =>
    case Dotted(t) =>
      FirstEvent(p, Dot, Events(t) + [EndList]);
      EventsThen(p, Events(t), [EndList]);
      ValueSkipped(t, p);
    case More(v, rest) =>
      EventsThen(p, Events(v), ItemEvents(rest));
      ValueSkipped(v, p);
      ItemsSkipped(rest, p);
  }

  // ----- The events of a value print its document, or are rejected -----

  lemma {:induction false} StringChunksPrint(pieces: seq<string>, p: PrinterState)
    requires p.skipped == 0 && p.atom == InString
    ensures OnEvents(p, StringChunks(pieces)) ==
            if ChunksOk(pieces) then Accepted(p.(atom := NoAtom), Toks(StringDoc(pieces))) else Rejected
  {
    if pieces == [] {
      OneEvent(p, EndString);
      assert Toks(StringDoc(pieces)) == [Text("\"")] + [];
    } else {
      FirstEvent(p, StringChunk(pieces[0]), StringChunks(pieces[1..]));
      StringChunksPrint(pieces[1..], p);
    }
  }

  lemma {:induction false} PushConcat(s: SymbolState, a: string, b: string)
    ensures PushSymbol(s, a + b) == PushSymbol(PushSymbol(s, a), b)
    decreases |a|
  {
    if a == "" {
      assert a + b == b;
    } else {
      assert (a + b)[0] == a[0] && (a + b)[1..] == a[1..] + b;
      PushConcat(SymbolState(AdvanceNumber(s.number, a[0]), AdvanceNil(s.nilState, a[0])), a[1..], b);
    }
  }

  /** The automaton never returns to its start. */
  lemma {:induction false} PushStarted(s: SymbolState, text: string)
    requires s.number != NumberStart || text != ""
    ensures PushSymbol(s, text).number != NumberStart
    decreases |text|
  {
    if text != "" {
      PushStarted(SymbolState(AdvanceNumber(s.number, text[0]), AdvanceNil(s.nilState, text[0])), text[1..]);
    }
  }

  /** What the first character of a symbol marks before it. */
  function SymbolMark(p: PrinterState): Printed
    requires p.atom.InSymbol?
  {
    if p.atom.state.number == NumberStart then BeforeSymbol(p) else Accepted(p, [])
  }

  lemma {:induction false} SymbolChunksPrint(pieces: seq<string>, p: PrinterState)
    requires p.skipped == 0 && p.atom.InSymbol? && SymbolMark(p).Accepted?
    ensures OnEvents(p, SymbolChunks(pieces)) ==
            if SymbolChunksOk(pieces) && SymbolComplete(PushSymbol(p.atom.state, Flatten(pieces)))
            then Accepted(SymbolMark(p).state.(atom := NoAtom), SymbolMark(p).toks + Toks(SymbolDoc(pieces)))
            else Rejected
    decreases |pieces|, 0
  {
    if pieces == [] {
      OneEvent(p, EndSymbol);
      assert [] + Toks(SymbolDoc(pieces)) == [];
    } else if !SymbolChunkOk(pieces[0]) {
      FirstEvent(p, SymbolChunk(pieces[0]), SymbolChunks(pieces[1..]));
    } else if pieces[0] == "" {
      FirstEvent(p, SymbolChunk(pieces[0]), SymbolChunks(pieces[1..]));
      SymbolChunksPrint(pieces[1..], p);
      AddNothing(OnEvents(p, SymbolChunks(pieces[1..])));
      assert "" + Flatten(pieces[1..]) == Flatten(pieces[1..]);
    } else {
      SymbolChunkPrints(pieces[0], pieces[1..], p);
    }
  }

  /** A first or later part of a symbol that is not empty. */
  lemma SymbolChunkStep(t: string, p: PrinterState)
    requires p.skipped == 0 && p.atom.InSymbol? && SymbolMark(p).Accepted?
    requires t != "" && SymbolChunkOk(t)
    ensures var q := SymbolMark(p).state.(atom := InSymbol(PushSymbol(p.atom.state, t)));
            && OnEvent(p, SymbolChunk(t)) == Accepted(q, SymbolMark(p).toks + [Text(EscapeSymbol(t))])
            && q.skipped == 0 && SymbolMark(q) == Accepted(q, [])
  {
    PushStarted(p.atom.state, t);
  }

  lemma {:induction false} SymbolChunkPrints(t: string, more: seq<string>, p: PrinterState)
    requires p.skipped == 0 && p.atom.InSymbol? && SymbolMark(p).Accepted?
    requires t != "" && SymbolChunkOk(t)
    ensures var toks := SymbolMark(p).toks + Toks(Piece(EscapeSymbol(t), SymbolDoc(more)));
            OnEvents(p, [SymbolChunk(t)] + SymbolChunks(more)) ==
            if SymbolChunksOk(more) && SymbolComplete(PushSymbol(p.atom.state, t + Flatten(more)))
            then Accepted(SymbolMark(p).state.(atom := NoAtom), toks)
            else Rejected
    decreases |more|, 1
  {
    FirstEvent(p, SymbolChunk(t), SymbolChunks(more));
    SymbolChunkStep(t, p);
    PushConcat(p.atom.state, t, Flatten(more));
    var q := SymbolMark(p).state.(atom := InSymbol(PushSymbol(p.atom.state, t)));
    SymbolChunksPrint(more, q);
    Regroup(SymbolMark(p).toks, [Text(EscapeSymbol(t))], [] + Toks(SymbolDoc(more)));
    assert [Text(EscapeSymbol(t))] + ([] + Toks(SymbolDoc(more))) == Toks(Piece(EscapeSymbol(t), SymbolDoc(more)));
  }

  lemma PieceToks(t: string)
    ensures Toks(Piece(t, Doc.Nil)) == [Text(t)]
  {
    assert TokensThen(Doc.Nil, []) == [];
  }

  lemma BreakToks(f: string, n: nat, rest: Doc)
    ensures Toks(Break(f, n, rest)) == [Line(f, n)] + Toks(rest)
  {
  }

  lemma CloseToks(d: nat)
    ensures Toks(CloseDoc(d)) == [Line("", Indent(d)), Text(")")]
  {
    PieceToks(")");
    BreakToks("", Indent(d), Piece(")", Doc.Nil));
  }

  lemma DotToks(d: nat)
    ensures Toks(DotDoc(d)) == [Line(" ", Indent(d + 1)), Text("."), Line(" ", Indent(d + 1))]
  {
    var inner := Break(" ", Indent(d + 1), Doc.Nil);
    BreakToks(" ", Indent(d + 1), Doc.Nil);
    assert Toks(Piece(".", inner)) == [Text(".")] + Toks(inner);
    BreakToks(" ", Indent(d + 1), Piece(".", inner));
  }

  lemma {:induction false} PiecesToks(texts: seq<string>)
    ensures |Toks(PiecesDoc(texts))| == |texts|
    ensures forall i | 0 <= i < |texts| :: Toks(PiecesDoc(texts))[i] == Text(texts[i])
  {
    if texts != [] {
      PiecesToks(texts[1..]);
    }
  }

  lemma OpaqueDocToks(name: string, payload: Option<string>)
    ensures Toks(OpaqueDoc(name, payload)) == OpaqueText(name, payload)
  {
    PiecesToks(["#<", name] + (if payload.Some? then [" ", payload.value] else []) + [">"]);
  }

  lemma EntityDocToks(handle: Option<string>)
    ensures Toks(EntityDoc(handle)) == EntityToks(handle)
  {
    OpaqueDocToks("Entity", None);
    if handle.Some? {
      PiecesToks(["(handent \"", Upper(handle.value), "\")"]);
    }
  }

  /** The printer in a state that takes a value prints the document of a printable value after its
      separator, and rejects every other value. */
  lemma {:induction false} ValuePrints(v: Value, p: PrinterState)
    requires Ready(p)
    ensures OnEvents(p, Events(v)) ==
            if Printable(v, |p.lists|)
            then Accepted(Before(v, p).state, Before(v, p).toks + Toks(DocOf(v, |p.lists|)))
            else Rejected
    decreases v, 1
  {
    match v
    case VString(pieces) => StringPrints(pieces, p);
    case VSymbol(pieces) => SymbolPrints(pieces, p);
    case VList(items) =>
      if |p.lists| == MAX_VALUE_DEPTH {
        DeepListPrints(items, p);
      } else {
        ListPrints(items, p);
      }
    case VNotFinite => OneEvent(p, Real(None));
    case _ => AtomPrints(v, p);
  }

  lemma AtomPrints(v: Value, p: PrinterState)
    requires Ready(p) && IsAtom(v) && v != VNotFinite
    ensures OnEvents(p, Events(v)) == Accepted(BeforeValue(p).state, BeforeValue(p).toks + Toks(DocOf(v, |p.lists|)))
  {
    OneEvent(p, AtomEvent(v));
    AtomDocToks(v, |p.lists|);
    AtomIsWhole(v, p);
  }

  function AtomToks(v: Value): seq<Token>
    requires IsAtom(v) && v != VNotFinite
  {
    match v
    case VNil => [Text("nil")]
    case VTrue => [Text("T")]
    case VInteger(i) => [Text(Show(i))]
    case VReal(t) => [Text(t)]
    case VEntity(h) => EntityToks(h)
    case VOpaque(k) => OpaqueToks(k)
  }

  lemma AtomIsWhole(v: Value, p: PrinterState)
    requires IsAtom(v) && v != VNotFinite
    ensures OnEvent(p, AtomEvent(v)) == Whole(p, AtomToks(v))
  {
  }

  lemma AtomDocToks(v: Value, depth: nat)
    requires IsAtom(v) && v != VNotFinite
    ensures Toks(DocOf(v, depth)) == AtomToks(v)
  {
    match v
    case VNil => PieceToks("nil");
    case VTrue => PieceToks("T");
    case VInteger(i) => PieceToks(Show(i));
    case VReal(t) => PieceToks(t);
    case VEntity(h) => EntityDocToks(h);
    case VOpaque(k) => OpaqueDocToks(OpaqueName(k), LabelOf(k));
  }

  lemma StringPrints(pieces: seq<string>, p: PrinterState)
    requires Ready(p)
    ensures OnEvents(p, Events(VString(pieces))) ==
            if ChunksOk(pieces)
            then Accepted(BeforeValue(p).state, BeforeValue(p).toks + Toks(DocOf(VString(pieces), |p.lists|)))
            else Rejected
  {
    FirstEvent(p, BeginString, StringChunks(pieces));
    var q := BeforeValue(p).state.(atom := InString);
    StringChunksPrint(pieces, q);
    Regroup(BeforeValue(p).toks, [Text("\"")], Toks(StringDoc(pieces)));
  }

  lemma SymbolPrints(pieces: seq<string>, p: PrinterState)
    requires Ready(p)
    ensures OnEvents(p, Events(VSymbol(pieces))) ==
            if Printable(VSymbol(pieces), |p.lists|)
            then Accepted(BeforeSymbol(p).state, BeforeSymbol(p).toks + Toks(SymbolDoc(pieces)))
            else Rejected
  {
    FirstEvent(p, BeginSymbol, SymbolChunks(pieces));
    var q := p.(atom := InSymbol(EmptySymbol));
    SymbolChunksPrint(pieces, q);
    AddNothing(OnEvents(q, SymbolChunks(pieces)));
  }

  lemma DeepListPrints(items: Items, p: PrinterState)
    requires Ready(p) && |p.lists| == MAX_VALUE_DEPTH
    ensures OnEvents(p, Events(VList(items))) ==
            if ItemsSkippable(items)
            then Accepted(BeforeValue(p).state, BeforeValue(p).toks + Toks(DocOf(VList(items), |p.lists|)))
            else Rejected
  {
    FirstEvent(p, BeginList, ItemEvents(items));
    ItemsSkipped(items, OnBeginList(p).state);
    OpaqueDocToks(OpaqueName(TooDeep), None);
    assert OnBeginList(p).toks + [] == OnBeginList(p).toks;
  }

  lemma {:induction false} ListPrints(items: Items, p: PrinterState)
    requires Ready(p) && |p.lists| < MAX_VALUE_DEPTH
    ensures OnEvents(p, Events(VList(items))) ==
            if Printable(VList(items), |p.lists|)
            then Accepted(BeforeValue(p).state, BeforeValue(p).toks + Toks(DocOf(VList(items), |p.lists|)))
            else Rejected
    decreases items, 2
  {
    var d := |p.lists|;
    FirstEvent(p, BeginList, ItemEvents(items));
    var q := OnBeginList(p).state;
    ItemsPrint(items, q);
    assert q.lists[..d] == BeforeValue(p).state.lists;
    ListToks(BeforeValue(p).toks, items, d);
  }

  lemma ListToks(sep: seq<Token>, items: Items, d: nat)
    requires d < MAX_VALUE_DEPTH
    ensures sep + [Begin(KindAt(d)), Text("(")] + (Toks(ItemsDoc(items, d, true)) + [End]) ==
            sep + Toks(DocOf(VList(items), d))
  {
    var inside := Toks(ItemsDoc(items, d, true)) + [End];
    TokensAppend(ItemsDoc(items, d, true), [End]);
    assert TokensThen(Doc.Nil, []) == [] && [End] + [] == [End];
    assert TokensThen(Piece("(", ItemsDoc(items, d, true)), [End]) == [Text("(")] + inside;
    assert Toks(DocOf(VList(items), d)) == [Begin(KindAt(d))] + ([Text("(")] + inside);
    Regroup([Begin(KindAt(d))], [Text("(")], inside);
    assert [Begin(KindAt(d))] + [Text("(")] == [Begin(KindAt(d)), Text("(")];
    Regroup(sep, [Begin(KindAt(d)), Text("(")], inside);
  }

  /** Inside a list that has no tail yet. */
  predicate ReadyInside(q: PrinterState) {
    && q.atom == NoAtom && q.skipped == 0 && 0 < |q.lists| <= MAX_VALUE_DEPTH
    && q.lists[|q.lists| - 1] in {Empty, ListState.Values}
  }

  lemma {:induction false} ItemsPrint(items: Items, q: PrinterState)
    requires ReadyInside(q)
    ensures var d := |q.lists| - 1;
            var first := q.lists[d] == Empty;
            OnEvents(q, ItemEvents(items)) ==
            if !(first && items.Dotted?) && ItemsPrintable(items, d + 1)
            then Accepted(q.(lists := q.lists[..d]), Toks(ItemsDoc(items, d, first)) + [End])
            else Rejected
    decreases items, 1
  {
    match items
    case Close => ClosePrints(q);
    case Dotted(t) => DottedPrints(t, q);
    case More(v, rest) =>
      var d := |q.lists| - 1;
      EventsThen(q, Events(v), ItemEvents(rest));
      ValuePrints(v, q);
      SeparatorToks(v, q);
      if Printable(v, d + 1) {
        var q2 := Before(v, q).state;
        ItemsPrint(rest, q2);
        assert q2.lists[..d] == q.lists[..d];
        ItemsToks(v, rest, d, q.lists[d] == Empty);
      }
  }

  lemma SeparatorToks(v: Value, q: PrinterState)
    requires ReadyInside(q)
    ensures var d := |q.lists| - 1;
            && Before(v, q) == Accepted(q.(lists := q.lists[d := ListState.Values]),
                                        Toks(SeparatorDoc(v, d, q.lists[d] == Empty)))
  {
    var d := |q.lists| - 1;
    BreakToks(" ", Indent(d + 1), Doc.Nil);
    BreakToks("", Indent(d + 1), Doc.Nil);
    if q.lists[d] == ListState.Values {
      assert q.lists[d := ListState.Values] == q.lists;
    }
  }

  lemma ItemsToks(v: Value, rest: Items, d: nat, first: bool)
    ensures Toks(ItemsDoc(More(v, rest), d, first)) + [End] ==
            Toks(SeparatorDoc(v, d, first)) + Toks(DocOf(v, d + 1)) + (Toks(ItemsDoc(rest, d, false)) + [End])
  {
    var a, b, c := SeparatorDoc(v, d, first), DocOf(v, d + 1), ItemsDoc(rest, d, false);
    ToksSeq(b, c);
    ToksSeq(a, SeqDoc(b, c));
    Regroup(Toks(a), Toks(b), Toks(c));
    Regroup(Toks(a) + Toks(b), Toks(c), [End]);
  }

  lemma ClosePrints(q: PrinterState)
    requires ReadyInside(q)
    ensures var d := |q.lists| - 1;
            OnEvents(q, [EndList]) ==
            Accepted(q.(lists := q.lists[..d]), Toks(ItemsDoc(Close, d, q.lists[d] == Empty)) + [End])
  {
    OneEvent(q, EndList);
    var d := |q.lists| - 1;
    PieceToks(")");
    CloseToks(d);
    if q.lists[d] == Empty {
      assert [] + [Text(")"), End] == [Text(")")] + [End];
    } else {
      assert [Line("", Indent(d))] + [Text(")"), End] == [Line("", Indent(d)), Text(")")] + [End];
    }
  }

  lemma {:induction false} DottedPrints(t: Value, q: PrinterState)
    requires ReadyInside(q)
    ensures var d := |q.lists| - 1;
            OnEvents(q, [Dot] + (Events(t) + [EndList])) ==
            if q.lists[d] != Empty && Printable(t, d + 1)
            then Accepted(q.(lists := q.lists[..d]), Toks(ItemsDoc(Dotted(t), d, false)) + [End])
            else Rejected
    decreases t, 3
  {
    var d := |q.lists| - 1;
    FirstEvent(q, Dot, Events(t) + [EndList]);
    if q.lists[d] != Empty {
      var q1 := OnDot(q).state;
      TailPrints(t, q1);
      if Printable(t, d + 1) {
        assert q1.lists[..d] == q.lists[..d];
        DottedToks(t, d);
      }
    }
  }

  lemma {:induction false} TailPrints(t: Value, q: PrinterState)
    requires q.atom == NoAtom && q.skipped == 0 && 0 < |q.lists| <= MAX_VALUE_DEPTH
    requires q.lists[|q.lists| - 1] == AwaitingTail
    ensures var d := |q.lists| - 1;
            OnEvents(q, Events(t) + [EndList]) ==
            if Printable(t, d + 1)
            then Accepted(q.(lists := q.lists[..d]),
                          [Line(" ", Indent(d + 1))] + Toks(DocOf(t, d + 1)) + [Line("", Indent(d)), Text(")"), End])
            else Rejected
    decreases t, 2
  {
    var d := |q.lists| - 1;
    EventsThen(q, Events(t), [EndList]);
    ValuePrints(t, q);
    if Printable(t, d + 1) {
      var q2 := q.(lists := q.lists[d := Complete]);
      OneEvent(q2, EndList);
      assert q2.lists[..d] == q.lists[..d];
      assert [Line("", Indent(d))] + [Text(")"), End] == [Line("", Indent(d)), Text(")"), End];
    }
  }

  lemma DottedToks(t: Value, d: nat)
    ensures Toks(ItemsDoc(Dotted(t), d, false)) + [End] ==
            [Line(" ", Indent(d + 1)), Text(".")]
            + ([Line(" ", Indent(d + 1))] + Toks(DocOf(t, d + 1)) + [Line("", Indent(d)), Text(")"), End])
  {
    var a, b, c := DotDoc(d), DocOf(t, d + 1), CloseDoc(d);
    ToksSeq(b, c);
    ToksSeq(a, SeqDoc(b, c));
    DotToks(d);
    CloseToks(d);
  }

  /** A printable value, printed on its own, is rendered as its document; any other is rejected. */
  lemma PrintsDocument(w: char -> nat, v: Value)
    ensures var r := OnEvents(Fresh, Events(v));
            if Printable(v, 0)
            then r.Accepted? && MayFinish(r.state) && r.state.rootValues == 1
                 && Print(w, r.toks) == Some(Render(w, DocOf(v, 0), false, 0).text + "\n")
            else r.Rejected?
  {
    ValuePrints(v, Fresh);
    ValueNested(v, 0, false);
    PrintIsRender(w, DocOf(v, 0));
    assert [] + Toks(DocOf(v, 0)) == Toks(DocOf(v, 0));
  }
}
