/**
 The value printer as a function on events: which events it accepts, and what tokens it hands to
 the layout for each.
 */
module Printer {
  import opened Text
  import opened Layout

  const MAX_VALUE_DEPTH: nat := 64 * 1024
  const MAX_VALUE_TEXT_BYTES: nat := 16 * 1024
  const MAX_ENTITY_HANDLE_BYTES: nat := 32
  const MAX_OBJECT_LABEL_BYTES: nat := 128

  type i64 = x: int | -0x8000_0000_0000_0000 <= x < 0x8000_0000_0000_0000

  /** The tokens that stand for reals; how a real is rounded to one is not modelled. */
  type RealText = s: string | IsReal(s) witness "0.0"

  datatype OpaqueKind =
    | SelectionSet | VlaObject | File | Function | Error | Cycle | TooDeep
    | Object(payload: Option<string>)

  datatype Event =
    | BeginList | EndList | Dot
    | Nil | True | Integer(value: i64)
    | Real(formatted: Option<RealText>)  // none for a value that is not finite
    | BeginString | StringChunk(text: string) | EndString
    | BeginSymbol | SymbolChunk(text: string) | EndSymbol
    | Entity(handle: Option<string>)
    | Opaque(kind: OpaqueKind)

  datatype ListState = Empty | Values | AwaitingTail | Complete
  datatype AtomState = NoAtom | InString | InSymbol(state: SymbolState)
  datatype SymbolState = SymbolState(number: NumberState, nilState: NilState)
  datatype NumberState =
    | NumberStart | SignOnly | IntegerDigits | ExponentMarker | ExponentSign | ExponentDigits | NotNumber
  datatype NilState = NilStart | N | Ni | IsNil | NotNil

  datatype PrinterState = PrinterState(lists: seq<ListState>, atom: AtomState, skipped: nat, rootValues: nat)

  const Fresh: PrinterState := PrinterState([], NoAtom, 0, 0)

  datatype Printed = Accepted(state: PrinterState, toks: seq<Token>) | Rejected

  // ----- Characters and tokens -----

  predicate AllDigits(s: string) {
    forall c | c in s :: IsDigit(c)
  }

  function Unsigned(token: string): string {
    if token != "" && (token[0] == '+' || token[0] == '-') then token[1..] else token
  }

  predicate IsInteger(token: string) {
    Unsigned(token) != "" && AllDigits(Unsigned(token))
  }

  function IndexOf(s: string, chars: set<char>): (i: nat)
    ensures i <= |s| && (i < |s| ==> s[i] in chars) && forall j | 0 <= j < i :: s[j] !in chars
  {
    if s == "" || s[0] in chars then 0 else 1 + IndexOf(s[1..], chars)
  }

  predicate IsReal(token: string) {
    var t := Unsigned(token);
    var point := IndexOf(t, {'.'});
    && point < |t|
    && t[..point] != "" && AllDigits(t[..point])
    && var rest := t[point + 1..];
       var e := IndexOf(rest, {'e', 'E'});
       && rest[..e] != "" && AllDigits(rest[..e])
       && (e < |rest| ==> IsInteger(rest[e + 1..]))
  }

  predicate ValidSymbolChar(c: char) {
    !IsControl(c) && !IsWhitespace(c) && c !in {'(', ')', '"', ';', '\'', '.'}
  }

  predicate ValidHandle(h: string) {
    h != "" && ByteLen(h) <= MAX_ENTITY_HANDLE_BYTES && forall c | c in h :: IsHexDigit(c)
  }

  predicate LabelChar(c: char) {
    !IsControl(c) && !IsWhitespace(c) && c !in {'<', '>', '@', '"', '\\'}
  }

  predicate ValidLabel(text: string) {
    text != "" && ByteLen(text) <= MAX_OBJECT_LABEL_BYTES && forall c | c in text :: LabelChar(c)
  }

  function Upper(s: string): (r: string)
    ensures |r| == |s| && forall i | 0 <= i < |s| :: r[i] == ToUpper(s[i])
  {
    seq(|s|, i requires 0 <= i < |s| => ToUpper(s[i]))
  }

  function Decimal(n: nat): (s: string)
    ensures s != "" && AllDigits(s)
  {
    if n < 10 then [('0' as int + n) as char]
    else Decimal(n / 10) + [('0' as int + n % 10) as char]
  }

  function Show(i: i64): string {
    if i < 0 then "-" + Decimal(-(i as int)) else Decimal(i)
  }

  function OctalDigit(n: nat): char {
    ('0' as int + n % 8) as char
  }

  predicate RequiresEscape(c: char) {
    c in {'"', '\\', '\U{1b}', '\n', '\r', '\t'} || IsControl(c)
  }

  function EscapeChar(c: char): string
  {
    if c == '"' then "\\\""
    else if c == '\\' then "\\\\"
    else if c == '\U{1b}' then "\\e"
    else if c == '\n' then "\\n"
    else if c == '\r' then "\\r"
    else if c == '\t' then "\\t"
    else if IsControl(c) then ['\\', OctalDigit(c as int / 64), OctalDigit(c as int / 8), OctalDigit(c as int)]
    else [c]
  }

  function Escape(s: string): string
  {
    if s == "" then "" else EscapeChar(s[0]) + Escape(s[1..])
  }

  function EscapeSymbol(s: string): string
  {
    if s == "" then "" else (if s[0] == '\\' then "\\\\" else [s[0]]) + EscapeSymbol(s[1..])
  }

  lemma {:induction false} EscapeConcat(a: string, b: string)
    ensures Escape(a + b) == Escape(a) + Escape(b)
  {
    if a == "" {
      assert a + b == b;
    } else {
      assert (a + b)[0] == a[0] && (a + b)[1..] == a[1..] + b;
      EscapeConcat(a[1..], b);
    }
  }

  lemma {:induction false} EscapeSymbolConcat(a: string, b: string)
    ensures EscapeSymbol(a + b) == EscapeSymbol(a) + EscapeSymbol(b)
  {
    if a == "" {
      assert a + b == b;
    } else {
      assert (a + b)[0] == a[0] && (a + b)[1..] == a[1..] + b;
      EscapeSymbolConcat(a[1..], b);
    }
  }

  // ----- The automaton that keeps numbers and nil out of symbols -----

  function AdvanceNumber(n: NumberState, c: char): NumberState
  {
    if n == NumberStart && c in {'+', '-'} then SignOnly
    else if n in {NumberStart, SignOnly} && IsDigit(c) then IntegerDigits
    else if n == IntegerDigits && IsDigit(c) then IntegerDigits
    else if n == IntegerDigits && c in {'e', 'E'} then ExponentMarker
    else if n == ExponentMarker && c in {'+', '-'} then ExponentSign
    else if n in {ExponentMarker, ExponentSign} && IsDigit(c) then ExponentDigits
    else if n == ExponentDigits && IsDigit(c) then ExponentDigits
    else NotNumber
  }

  function AdvanceNil(n: NilState, c: char): NilState
  {
    match (n, ToUpper(c))
    case (NilStart, 'N') => N
    case (N, 'I') => Ni
    case (Ni, 'L') => IsNil
    case _ => NotNil
  }

  function PushSymbol(s: SymbolState, text: string): SymbolState
    decreases |text|
  {
    if text == "" then s
    else PushSymbol(SymbolState(AdvanceNumber(s.number, text[0]), AdvanceNil(s.nilState, text[0])), text[1..])
  }

  const EmptySymbol: SymbolState := SymbolState(NumberStart, NilStart)

  predicate SymbolComplete(s: SymbolState) {
    s.number !in {NumberStart, IntegerDigits, ExponentDigits} && s.nilState != IsNil
  }

  // ----- Events -----

  /** A value begins: its separator, and what its list then expects. */
  function BeforeValue(p: PrinterState): Printed
  {
    if p.lists == [] then Accepted(p.(rootValues := p.rootValues + 1), [])
    else
      var last := |p.lists| - 1;
      match p.lists[last]
      case Empty => Accepted(p.(lists := p.lists[last := Values]), [Line("", Indent(|p.lists|))])
      case Values => Accepted(p, [Line(" ", Indent(|p.lists|))])
      case AwaitingTail => Accepted(p.(lists := p.lists[last := Complete]), [Line(" ", Indent(|p.lists|))])
      case Complete => Rejected
  }

  /** A symbol stays on the line of the parenthesis it follows. */
  function BeforeSymbol(p: PrinterState): Printed
  {
    if p.lists != [] && p.lists[|p.lists| - 1] == Empty
    then Accepted(p.(lists := p.lists[|p.lists| - 1 := Values]), [])
    else BeforeValue(p)
  }

  function Then(a: Printed, toks: seq<Token>): Printed
  {
    match a
    case Accepted(s, before) => Accepted(s, before + toks)
    case Rejected => Rejected
  }

  /** A value that is one piece of text. */
  function Whole(p: PrinterState, text: seq<Token>): Printed
  {
    if p.skipped != 0 then Accepted(p, [])
    else if p.atom != NoAtom then Rejected
    else Then(BeforeValue(p), text)
  }

  function OpaqueName(kind: OpaqueKind): string
  {
    match kind
    case SelectionSet => "SelectionSet"
    case VlaObject => "VlaObject"
    case File => "File"
    case Function => "Function"
    case Error => "Error"
    case Cycle => "Cycle"
    case TooDeep => "TooDeep"
    case Object(_) => "Object"
  }

  /** An object label that is not printable is dropped. */
  function LabelOf(kind: OpaqueKind): Option<string> {
    if kind.Object? && kind.payload.Some? && ValidLabel(kind.payload.value) then kind.payload else None
  }

  function OpaqueText(name: string, payload: Option<string>): seq<Token> {
    [Text("#<"), Text(name)] + (if payload.Some? then [Text(" "), Text(payload.value)] else []) + [Text(">")]
  }

  function OpaqueToks(kind: OpaqueKind): seq<Token> {
    OpaqueText(OpaqueName(kind), LabelOf(kind))
  }

  /** A handle that is not hexadecimal, or too long, is not printed. */
  function EntityToks(handle: Option<string>): seq<Token> {
    if handle.Some? && ValidHandle(handle.value)
    then [Text("(handent \""), Text(Upper(handle.value)), Text("\")")]
    else OpaqueText("Entity", None)
  }

  function OnBeginList(p: PrinterState): Printed
  {
    if p.skipped != 0 then Accepted(p.(skipped := p.skipped + 1), [])
    else if p.atom != NoAtom then Rejected
    else if |p.lists| == MAX_VALUE_DEPTH then
      match Then(BeforeValue(p), OpaqueToks(TooDeep))
      case Accepted(s, toks) => Accepted(s.(skipped := 1), toks)
      case Rejected => Rejected
    else
      match Then(BeforeValue(p), [Begin(KindAt(|p.lists|)), Text("(")])
      case Accepted(s, toks) => Accepted(s.(lists := s.lists + [Empty]), toks)
      case Rejected => Rejected
  }

  function OnEndList(p: PrinterState): Printed
  {
    if p.skipped != 0 then Accepted(p.(skipped := p.skipped - 1), [])
    else if p.atom != NoAtom || p.lists == [] || p.lists[|p.lists| - 1] == AwaitingTail then Rejected
    else
      var outer := p.lists[..|p.lists| - 1];
      Accepted(p.(lists := outer),
               (if p.lists[|outer|] == Empty then [] else [Line("", Indent(|outer|))]) + [Text(")"), End])
  }

  function OnDot(p: PrinterState): Printed
  {
    if p.skipped != 0 then Accepted(p, [])
    else if p.atom != NoAtom || p.lists == [] || p.lists[|p.lists| - 1] != Values then Rejected
    else Accepted(p.(lists := p.lists[|p.lists| - 1 := AwaitingTail]), [Line(" ", Indent(|p.lists|)), Text(".")])
  }

  predicate ChunkOk(text: string) {
    ByteLen(text) <= MAX_VALUE_TEXT_BYTES
  }

  predicate SymbolChunkOk(text: string) {
    ChunkOk(text) && forall c | c in text :: ValidSymbolChar(c)
  }

  function OnSymbolChunk(p: PrinterState, text: string): Printed
  {
    if !SymbolChunkOk(text) then Rejected
    else if p.skipped != 0 then Accepted(p, [])
    else if !p.atom.InSymbol? then Rejected
    else if text == "" then Accepted(p, [])
    else
      var first := if p.atom.state.number == NumberStart then BeforeSymbol(p) else Accepted(p, []);
      match Then(first, [Text(EscapeSymbol(text))])
      case Accepted(s, toks) => Accepted(s.(atom := InSymbol(PushSymbol(p.atom.state, text))), toks)
      case Rejected => Rejected
  }

  function OnStringChunk(p: PrinterState, text: string): Printed
  {
    if !ChunkOk(text) then Rejected
    else if p.skipped != 0 then Accepted(p, [])
    else if p.atom != InString then Rejected
    else Accepted(p, [Text(Escape(text))])
  }

  function OnEvent(p: PrinterState, e: Event): Printed
  {
    match e
    case BeginList => OnBeginList(p)
    case EndList => OnEndList(p)
    case Dot => OnDot(p)
    case Nil => Whole(p, [Text("nil")])
    case True => Whole(p, [Text("T")])
    case Integer(i) => Whole(p, [Text(Show(i))])
    case Real(None) => Rejected
    case Real(Some(t)) => Whole(p, [Text(t)])
    case BeginString =>
      (match Whole(p, [Text("\"")])
       case Accepted(s, toks) => Accepted(if p.skipped != 0 then s else s.(atom := InString), toks)
       case Rejected => Rejected)
    case StringChunk(text) => OnStringChunk(p, text)
    case EndString =>
      if p.skipped != 0 then Accepted(p, [])
      else if p.atom != InString then Rejected
      else Accepted(p.(atom := NoAtom), [Text("\"")])
    case BeginSymbol =>
      if p.skipped != 0 then Accepted(p, [])
      else if p.atom != NoAtom then Rejected
      else Accepted(p.(atom := InSymbol(EmptySymbol)), [])
    case SymbolChunk(text) => OnSymbolChunk(p, text)
    case EndSymbol =>
      if p.skipped != 0 then Accepted(p, [])
      else if !p.atom.InSymbol? || !SymbolComplete(p.atom.state) then Rejected
      else Accepted(p.(atom := NoAtom), [])
    case Entity(handle) => Whole(p, EntityToks(handle))
    case Opaque(kind) => Whole(p, OpaqueToks(kind))
  }

  function OnEvents(p: PrinterState, es: seq<Event>): Printed
    decreases |es|, 0
  {
    if es == [] then Accepted(p, []) else Follow(OnEvent(p, es[0]), es[1..])
  }

  /** `a`, and then the events `es` from where it led. */
  function Follow(a: Printed, es: seq<Event>): Printed
    decreases |es|, 1
  {
    if a.Accepted? then Add(a.toks, OnEvents(a.state, es)) else Rejected
  }

  function Add(toks: seq<Token>, a: Printed): Printed
  {
    match a
    case Accepted(s, more) => Accepted(s, toks + more)
    case Rejected => Rejected
  }

  /** The printer may stop after these events. */
  predicate MayFinish(p: PrinterState) {
    p.atom == NoAtom && p.lists == [] && p.skipped == 0
  }

  lemma {:induction false} EventsThen(p: PrinterState, a: seq<Event>, b: seq<Event>)
    ensures OnEvents(p, a + b) == Follow(OnEvents(p, a), b)
    decreases |a|
  {
    if a == [] {
      assert a + b == b;
      AddNothing(OnEvents(p, b));
    } else {
      assert (a + b)[0] == a[0] && (a + b)[1..] == a[1..] + b;
      var first := OnEvent(p, a[0]);
      if first.Accepted? {
        EventsThen(first.state, a[1..], b);
        AddTwice(first.toks, OnEvents(first.state, a[1..]), b);
      }
    }
  }

  lemma AddNothing(a: Printed)
    ensures Add([], a) == a
  {
    if a.Accepted? {
      assert [] + a.toks == a.toks;
    }
  }

  lemma AddTwice(toks: seq<Token>, a: Printed, b: seq<Event>)
    ensures Add(toks, Follow(a, b)) == Follow(Add(toks, a), b)
  {
    if a.Accepted? && OnEvents(a.state, b).Accepted? {
      assert toks + (a.toks + OnEvents(a.state, b).toks) == toks + a.toks + OnEvents(a.state, b).toks;
    }
  }

  lemma FirstEvent(p: PrinterState, e: Event, es: seq<Event>)
    ensures OnEvents(p, [e] + es) == Follow(OnEvent(p, e), es)
  {
    assert ([e] + es)[1..] == es;
  }

  lemma OneEvent(p: PrinterState, e: Event)
    ensures OnEvents(p, [e]) == OnEvent(p, e)
  {
    assert [e][1..] == [];
    if OnEvent(p, e).Accepted? {
      assert OnEvent(p, e).toks + [] == OnEvent(p, e).toks;
    }
  }

  // ----- The printer never confuses the layout -----

  /** How deep in groups the tokens lead from `depth`, or nothing where they open a group of another kind
      than is due at its depth, close a group that was not opened, or break a line outside any group. */
  function Depth(toks: seq<Token>, depth: nat): Option<nat>
  {
    if toks == [] then Some(depth)
    else
      match toks[0]
      case Begin(kind) => if kind == KindAt(depth) then Depth(toks[1..], depth + 1) else None
      case End => if depth == 0 then None else Depth(toks[1..], depth - 1)
      case Text(_) => Depth(toks[1..], depth)
      case Line(_, _) => if depth == 0 then None else Depth(toks[1..], depth)
  }

  lemma {:induction false} DepthConcat(a: seq<Token>, b: seq<Token>, depth: nat)
    requires Depth(a, depth).Some?
    ensures Depth(a + b, depth) == Depth(b, Depth(a, depth).value)
    decreases |a|
  {
    if a == [] {
      assert a + b == b;
    } else {
      assert (a + b)[0] == a[0] && (a + b)[1..] == a[1..] + b;
      var next := match a[0]
        case Begin(_) => depth + 1
        case End => depth - 1
        case Text(_) => depth
        case Line(_, _) => depth;
      DepthConcat(a[1..], b, next);
    }
  }

  lemma DepthNext(t: Token, rest: seq<Token>, depth: nat)
    ensures Depth([t] + rest, depth) ==
            match t
            case Begin(kind) => if kind == KindAt(depth) then Depth(rest, depth + 1) else None
            case End => if depth == 0 then None else Depth(rest, depth - 1)
            case Text(_) => Depth(rest, depth)
            case Line(_, _) => if depth == 0 then None else Depth(rest, depth)
  {
    assert ([t] + rest)[1..] == rest;
  }

  /** Every event moves the layout from as many groups as lists were open to as many as are open, each
      of the kind that is due at its depth. */
  lemma EventDepth(p: PrinterState, e: Event)
    requires OnEvent(p, e).Accepted?
    ensures Depth(OnEvent(p, e).toks, |p.lists|) == Some(|OnEvent(p, e).state.lists|)
  {
    var n := |p.lists|;
    match e
    case BeginList => BeginListDepth(p);
    case EndList => EndListDepth(p);
    case Dot =>
      if p.skipped == 0 {
        assert OnEvent(p, e).toks == [Line(" ", Indent(n))] + [Text(".")];
        DepthNext(Line(" ", Indent(n)), [Text(".")], n);
        TextsOnly([Text(".")], n);
      }
    case SymbolChunk(text) => SymbolChunkDepth(p, text);
    case StringChunk(text) => TextsOnly(OnEvent(p, e).toks, n);
    case EndString => TextsOnly(OnEvent(p, e).toks, n);
    case BeginSymbol =>
    case EndSymbol =>
    case Nil => WholeDepth(p, [Text("nil")]);
    case True => WholeDepth(p, [Text("T")]);
    case Integer(i) => WholeDepth(p, [Text(Show(i))]);
    case Real(t) => WholeDepth(p, [Text(t.value)]);
    case BeginString => WholeDepth(p, [Text("\"")]);
    case Entity(handle) => WholeDepth(p, EntityToks(handle));
    case Opaque(kind) => WholeDepth(p, OpaqueToks(kind));
  }

  lemma BeginListDepth(p: PrinterState)
    requires OnBeginList(p).Accepted?
    ensures Depth(OnBeginList(p).toks, |p.lists|) == Some(|OnBeginList(p).state.lists|)
  {
    var n := |p.lists|;
    if p.skipped == 0 && n == MAX_VALUE_DEPTH {
      DepthAfterSeparator(p, OpaqueToks(TooDeep));
      TextsOnly(OpaqueToks(TooDeep), n);
    } else if p.skipped == 0 {
      var toks := [Begin(KindAt(n))] + [Text("(")];
      assert [Begin(KindAt(n)), Text("(")] == toks;
      DepthAfterSeparator(p, toks);
      DepthNext(Begin(KindAt(n)), [Text("(")], n);
      TextsOnly([Text("(")], n + 1);
    }
  }

  lemma EndListDepth(p: PrinterState)
    requires OnEndList(p).Accepted?
    ensures Depth(OnEndList(p).toks, |p.lists|) == Some(|OnEndList(p).state.lists|)
  {
    if p.skipped == 0 {
      var n := |p.lists|;
      DepthNext(End, [], n);
      DepthNext(Text(")"), [End], n);
      assert [Text(")")] + [End] == [Text(")"), End] && [End] + [] == [End];
      if p.lists[n - 1] != Empty {
        DepthNext(Line("", Indent(n - 1)), [Text(")"), End], n);
      } else {
        assert OnEndList(p).toks == [Text(")"), End];
      }
    }
  }

  lemma SymbolChunkDepth(p: PrinterState, text: string)
    requires OnSymbolChunk(p, text).Accepted?
    ensures Depth(OnSymbolChunk(p, text).toks, |p.lists|) == Some(|OnSymbolChunk(p, text).state.lists|)
  {
    var n := |p.lists|;
    var toks := [Text(EscapeSymbol(text))];
    if p.skipped == 0 && text != "" {
      TextsOnly(toks, n);
      if p.atom.state.number == NumberStart && !(n > 0 && p.lists[n - 1] == Empty) {
        DepthAfterSeparator(p, toks);
      } else {
        assert [] + toks == toks;
      }
    }
  }

  lemma WholeDepth(p: PrinterState, text: seq<Token>)
    requires Whole(p, text).Accepted? && forall t | t in text :: t.Text?
    ensures Depth(Whole(p, text).toks, |p.lists|) == Some(|Whole(p, text).state.lists|)
  {
    if p.skipped == 0 {
      TextsOnly(text, |p.lists|);
      DepthAfterSeparator(p, text);
    }
  }

  lemma DepthAfterSeparator(p: PrinterState, toks: seq<Token>)
    requires BeforeValue(p).Accepted?
    ensures Depth(BeforeValue(p).toks + toks, |p.lists|) == Depth(toks, |p.lists|)
    ensures |BeforeValue(p).state.lists| == |p.lists|
  {
    if p.lists != [] {
      DepthNext(BeforeValue(p).toks[0], toks, |p.lists|);
    } else {
      assert [] + toks == toks;
    }
  }

  lemma {:induction false} TextsOnly(toks: seq<Token>, depth: nat)
    requires forall t | t in toks :: t.Text?
    ensures Depth(toks, depth) == Some(depth)
    decreases |toks|
  {
    if toks != [] {
      assert toks[0] in toks;
      TextsOnly(toks[1..], depth);
    }
  }

  /** Tokens that never leave their groups are never malformed for the layout. */
  lemma {:induction false} DeepIsRunning(w: char -> nat, c: Core, toks: seq<Token>)
    requires Depth(toks, c.forced + |c.groups|).Some?
    ensures Drain(w, c, toks).Running?
    decreases |toks|
  {
    if toks != [] && Take(w, c, toks).Took? {
      DeepIsRunning(w, Take(w, c, toks).core, toks[1..]);
    }
  }

  // ----- Groups are closed as the kind they were opened as -----

  /** The first so many groups are breakable, all deeper ones forced flat. */
  const BREAKABLE_DEPTH: nat := PRINT_WIDTH / INDENT_WIDTH

  function Level(c: Core): nat {
    c.forced + |c.groups|
  }

  /** The layout has kept apart the kinds of the groups it is in. */
  predicate Matches(c: Core) {
    |c.groups| == if Level(c) < BREAKABLE_DEPTH then Level(c) else BREAKABLE_DEPTH
  }

  /** The kind of group that an end closes. */
  function ClosedKind(c: Core): GroupKind {
    if c.forced != 0 then ForcedFlat else Breakable
  }

  /** Taking the front token keeps the kinds apart: a begin opens the kind due at its depth, and an end
      closes the kind that the begin at its depth opened. */
  lemma TakeMatches(w: char -> nat, c: Core, toks: seq<Token>)
    requires toks != [] && Matches(c) && Depth(toks, Level(c)).Some? && Take(w, c, toks).Took?
    ensures var next := Take(w, c, toks).core;
            && Matches(next) && Depth(toks[1..], Level(next)) == Depth(toks, Level(c))
            && (toks[0].Begin? ==> Level(next) == Level(c) + 1 && toks[0].kind == KindAt(Level(c)))
            && (toks[0].End? ==> Level(c) == Level(next) + 1 && ClosedKind(c) == KindAt(Level(next)))
  {
  }

  lemma {:induction false} DrainMatches(w: char -> nat, c: Core, toks: seq<Token>)
    requires Matches(c) && Depth(toks, Level(c)).Some?
    ensures var d := Drain(w, c, toks);
            d.Running? && Matches(d.core) && Depth(d.rest, Level(d.core)) == Depth(toks, Level(c))
    decreases |toks|
  {
    if toks != [] && Take(w, c, toks).Took? {
      TakeMatches(w, c, toks);
      DrainMatches(w, Take(w, c, toks).core, toks[1..]);
    }
  }

  /** After any events that the printer accepts, complete or not, the layout is inside as many groups as
      there are lists, but for the tokens it still holds back; the outermost of them are the breakable ones. */
  lemma LayoutFollowsLists(w: char -> nat, es: seq<Event>)
    requires OnEvents(Fresh, es).Accepted?
    ensures var d := Drain(w, Start(""), OnEvents(Fresh, es).toks);
            && d.Running? && Matches(d.core)
            && Depth(d.rest, Level(d.core)) == Some(|OnEvents(Fresh, es).state.lists|)
  {
    EventsDepth(Fresh, es);
    DrainMatches(w, Start(""), OnEvents(Fresh, es).toks);
  }

  /** A group that cannot be decided yet has not been closed. */
  lemma {:induction false} UnknownIsOpen(w: char -> nat, toks: seq<Token>, inside: nat, width: nat, room: nat,
                                         outside: nat)
    requires Fits(w, toks, inside, width, room) == Unknown
    requires inside == 0 ==> toks != [] && toks[0].Begin?
    ensures var depth := Depth(toks, outside + inside); depth.Some? ==> depth.value > outside
    decreases |toks|
  {
    if toks != [] {
      match toks[0]
      case Begin(_) => UnknownIsOpen(w, toks[1..], inside + 1, width, room, outside);
      case End => UnknownIsOpen(w, toks[1..], inside - 1, width, room, outside);
      case Text(t) => UnknownIsOpen(w, toks[1..], inside, width + Measure(w, t), room, outside);
      case Line(flat, _) => UnknownIsOpen(w, toks[1..], inside, width + Measure(w, flat), room, outside);
    }
  }

  /** Tokens that close every group leave nothing undecided. */
  lemma {:induction false} ClosedDrains(w: char -> nat, c: Core, toks: seq<Token>)
    requires Depth(toks, c.forced + |c.groups|) == Some(0)
    ensures var d := Drain(w, c, toks); d.Running? && d.rest == [] && d.core.Closed()
    decreases |toks|
  {
    if toks != [] {
      if Take(w, c, toks).Undecided? {
        UnknownIsOpen(w, toks, 0, 0, Room(c.column), c.forced + |c.groups|);
        assert false;
      }
      ClosedDrains(w, Take(w, c, toks).core, toks[1..]);
    }
  }

  lemma {:induction false} EventsDepth(p: PrinterState, es: seq<Event>)
    requires OnEvents(p, es).Accepted?
    ensures Depth(OnEvents(p, es).toks, |p.lists|) == Some(|OnEvents(p, es).state.lists|)
    decreases |es|
  {
    if es != [] {
      var first := OnEvent(p, es[0]);
      EventDepth(p, es[0]);
      EventsDepth(first.state, es[1..]);
      DepthConcat(first.toks, OnEvents(first.state, es[1..]).toks, |p.lists|);
    }
  }

  /** Whatever the printer accepts up to the end of a value, the layout prints. */
  lemma CompletePrints(w: char -> nat, es: seq<Event>)
    requires OnEvents(Fresh, es).Accepted? && MayFinish(OnEvents(Fresh, es).state)
    ensures Print(w, OnEvents(Fresh, es).toks).Some?
  {
    EventsDepth(Fresh, es);
    ClosedDrains(w, Start(""), OnEvents(Fresh, es).toks);
  }
}
