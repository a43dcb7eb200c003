/**
 The group layout of the value printer. `Drain` is the layout as a function on a queue of tokens:
 it runs until the queue is empty or the front group cannot be decided yet. `Render` is the
 reference: a printer that is given the whole document as a tree.
 */
module Layout {
  import opened Text

  const PRINT_WIDTH: nat := 100
  const INDENT_WIDTH: nat := 2

  datatype GroupKind = Breakable | ForcedFlat
  datatype GroupMode = Flat | Broken
  datatype Token =
    | Begin(kind: GroupKind)
    | End
    | Text(text: string)
    | Line(flat: string, indent: nat)

  datatype Fit = Yes | No | Unknown

  function Indent(depth: nat): nat {
    depth * INDENT_WIDTH
  }

  function KindAt(depth: nat): GroupKind {
    if Indent(depth) < PRINT_WIDTH then Breakable else ForcedFlat
  }

  function Room(column: nat): nat {
    if column < PRINT_WIDTH then PRINT_WIDTH - column else 0
  }

  /** Scans from inside `depth` open groups with `width` columns already taken. */
  function Fits(w: char -> nat, toks: seq<Token>, depth: nat, width: nat, room: nat): Fit
    decreases |toks|, 1
  {
    if toks == [] then Unknown
    else
      match toks[0]
      case Begin(_) => FitsNext(w, toks, depth + 1, width, room)
      case End => if depth <= 1 then Yes else FitsNext(w, toks, depth - 1, width, room)
      case Text(t) => FitsNext(w, toks, depth, width + Measure(w, t), room)
      case Line(flat, _) => FitsNext(w, toks, depth, width + Measure(w, flat), room)
  }

  function FitsNext(w: char -> nat, toks: seq<Token>, depth: nat, width: nat, room: nat): Fit
    requires toks != []
    decreases |toks|, 0
  {
    if width > room then No else Fits(w, toks[1..], depth, width, room)
  }

  /** What has been decided and written: the open groups, the column and the text so far. */
  datatype Core = Core(groups: seq<GroupMode>, forced: nat, column: nat, out: string)
  {
    function Write(w: char -> nat, text: string): Core {
      this.(column := column + Measure(w, text), out := out + text)
    }

    function Newline(indent: nat): Core {
      this.(column := indent, out := out + "\n" + Spaces(indent))
    }

    predicate Closed() {
      groups == [] && forced == 0
    }

    /** A line is written flat here. */
    predicate FlatHere() {
      forced != 0 || (groups != [] && groups[|groups| - 1] == Flat)
    }

    predicate LineAllowed() {
      forced != 0 || groups != []
    }
  }

  function Start(out: string): Core {
    Core([], 0, 0, out)
  }

  datatype Drained =
    | Running(core: Core, rest: seq<Token>)
    | Invalid(written: string)
  {
    function Out(): string {
      match this
      case Running(core, _) => core.out
      case Invalid(written) => written
    }
  }

  /** The state after the front token, when it can be taken. */
  datatype Taken = Took(core: Core) | Undecided | Malformed

  function Take(w: char -> nat, c: Core, toks: seq<Token>): Taken
    requires toks != []
  {
    match toks[0]
    case Begin(Breakable) =>
      (match Fits(w, toks, 0, 0, Room(c.column))
       case Yes => Took(c.(groups := c.groups + [Flat]))
       case No => Took(c.(groups := c.groups + [Broken]))
       case Unknown => Undecided)
    case Begin(ForcedFlat) => Took(c.(forced := c.forced + 1))
    case End =>
      if c.forced != 0 then Took(c.(forced := c.forced - 1))
      else if c.groups == [] then Malformed
      else Took(c.(groups := c.groups[..|c.groups| - 1]))
    case Text(t) => Took(c.Write(w, t))
    case Line(flat, indent) =>
      if !c.LineAllowed() then Malformed
      else if c.FlatHere() then Took(c.Write(w, flat))
      else Took(c.Newline(indent))
  }

  function Drain(w: char -> nat, c: Core, toks: seq<Token>): Drained
    decreases |toks|
  {
    if toks == [] then Running(c, [])
    else
      match Take(w, c, toks)
      case Took(next) => Drain(w, next, toks[1..])
      case Undecided => Running(c, toks)
      case Malformed => Invalid(c.out)
  }

  /** What is printed for a whole token sequence, if it is well formed. */
  function Print(w: char -> nat, toks: seq<Token>): Option<string>
  {
    match Drain(w, Start(""), toks)
    case Running(c, rest) => if rest == [] && c.Closed() then Some(c.out + "\n") else None
    case Invalid(_) => None
  }

  // ----- Streaming is the same as having every token at hand -----

  lemma {:induction false} FitsStable(w: char -> nat, p: seq<Token>, f: seq<Token>, depth: nat, width: nat, room: nat)
    requires Fits(w, p, depth, width, room) != Unknown
    ensures Fits(w, p + f, depth, width, room) == Fits(w, p, depth, width, room)
  {
    assert (p + f)[0] == p[0] && (p + f)[1..] == p[1..] + f;
    var (depth', width') := match p[0]
      case Begin(_) => (depth + 1, width)
      case End => (if depth <= 1 then 0 else depth - 1, width)
      case Text(t) => (depth, width + Measure(w, t))
      case Line(flat, _) => (depth, width + Measure(w, flat));
    if !(p[0].End? && depth <= 1) && width' <= room {
      FitsStable(w, p[1..], f, depth', width', room);
    }
  }

  lemma TakeStable(w: char -> nat, c: Core, p: seq<Token>, f: seq<Token>)
    requires p != [] && Take(w, c, p) != Undecided
    ensures Take(w, c, p + f) == Take(w, c, p)
  {
    if p[0] == Begin(Breakable) {
      FitsStable(w, p, f, 0, 0, Room(c.column));
    }
  }

  /** Draining what has arrived and then the rest is draining everything at once: no decision made
      on part of the input is ever different from the one made with full lookahead. */
  lemma {:induction false} DrainSplit(w: char -> nat, c: Core, p: seq<Token>, f: seq<Token>)
    ensures Drain(w, c, p + f) ==
            match Drain(w, c, p)
            case Running(c', rest) => Drain(w, c', rest + f)
            case Invalid(o) => Invalid(o)
    decreases |p|
  {
    if p == [] {
      assert p + f == f && [] + f == f;
    } else if Take(w, c, p) != Undecided {
      TakeStable(w, c, p, f);
      assert (p + f)[1..] == p[1..] + f;
      if Take(w, c, p).Took? {
        DrainSplit(w, Take(w, c, p).core, p[1..], f);
      }
    }
  }

  /** Text once written is never taken back. */
  lemma {:induction false} DrainGrows(w: char -> nat, c: Core, toks: seq<Token>)
    ensures c.out <= Drain(w, c, toks).Out()
    decreases |toks|
  {
    if toks != [] && Take(w, c, toks).Took? {
      DrainGrows(w, Take(w, c, toks).core, toks[1..]);
    }
  }

  // ----- Chunk independence -----

  /** The same tokens with every text cut into single characters. */
  function Explode(toks: seq<Token>): seq<Token>
  {
    if toks == [] then []
    else (if toks[0].Text? then Letters(toks[0].text) else [toks[0]]) + Explode(toks[1..])
  }

  function Letters(t: string): (r: seq<Token>)
    ensures |r| == |t| && forall i | 0 <= i < |t| :: r[i] == Text([t[i]])
  {
    seq(|t|, i requires 0 <= i < |t| => Text([t[i]]))
  }

  lemma {:induction false} FitsLetters(w: char -> nat, t: string, tail: seq<Token>, depth: nat, width: nat, room: nat)
    requires width <= room
    ensures Fits(w, Letters(t) + tail, depth, width, room) ==
            if width + Measure(w, t) > room then No else Fits(w, tail, depth, width + Measure(w, t), room)
    decreases |t|
  {
    var all := Letters(t) + tail;
    if t == "" {
      assert all == tail;
    } else {
      assert all[0] == Text([t[0]]);
      assert [t[0]][1..] == "" && Measure(w, [t[0]]) == w(t[0]);
      assert all[1..] == Letters(t[1..]) + tail;
      if width + w(t[0]) <= room {
        FitsLetters(w, t[1..], tail, depth, width + w(t[0]), room);
      }
    }
  }

  lemma {:induction false} FitsExplode(w: char -> nat, toks: seq<Token>, depth: nat, width: nat, room: nat)
    requires width <= room
    ensures Fits(w, Explode(toks), depth, width, room) == Fits(w, toks, depth, width, room)
    decreases |toks|
  {
    if toks != [] {
      var rest := Explode(toks[1..]);
      match toks[0]
      case Text(t) =>
        FitsLetters(w, t, rest, depth, width, room);
        if width + Measure(w, t) <= room {
          FitsExplode(w, toks[1..], depth, width + Measure(w, t), room);
        }
      case Begin(_) =>
        assert Explode(toks)[1..] == rest;
        FitsExplode(w, toks[1..], depth + 1, width, room);
      case End =>
        assert Explode(toks)[1..] == rest;
        if depth > 1 {
          FitsExplode(w, toks[1..], depth - 1, width, room);
        }
      case Line(flat, _) =>
        assert Explode(toks)[1..] == rest;
        if width + Measure(w, flat) <= room {
          FitsExplode(w, toks[1..], depth, width + Measure(w, flat), room);
        }
    }
  }

  lemma {:induction false} DrainLetters(w: char -> nat, c: Core, t: string, tail: seq<Token>)
    ensures Drain(w, c, Letters(t) + tail) == Drain(w, c.Write(w, t), tail)
    decreases |t|
  {
    var all := Letters(t) + tail;
    if t == "" {
      assert all == tail;
      assert c.Write(w, t) == c;
    } else {
      assert all[0] == Text([t[0]]) && all[1..] == Letters(t[1..]) + tail;
      assert [t[0]][1..] == "" && Measure(w, [t[0]]) == w(t[0]);
      DrainLetters(w, c.Write(w, [t[0]]), t[1..], tail);
      assert c.out + [t[0]] + t[1..] == c.out + t;
      assert c.Write(w, [t[0]]).Write(w, t[1..]) == c.Write(w, t);
    }
  }

  lemma {:induction false} DrainExplode(w: char -> nat, c: Core, toks: seq<Token>)
    ensures Drain(w, c, Explode(toks)) ==
            match Drain(w, c, toks)
            case Running(c', rest) => Running(c', Explode(rest))
            case Invalid(o) => Invalid(o)
    decreases |toks|
  {
    if toks != [] {
      var rest := Explode(toks[1..]);
      if toks[0].Text? {
        DrainLetters(w, c, toks[0].text, rest);
        DrainExplode(w, c.Write(w, toks[0].text), toks[1..]);
      } else {
        assert Explode(toks)[0] == toks[0] && Explode(toks)[1..] == rest;
        FitsExplode(w, toks, 0, 0, Room(c.column));
        if Take(w, c, toks).Took? {
          DrainExplode(w, Take(w, c, toks).core, toks[1..]);
        }
      }
    }
  }

  lemma {:induction false} ExplodeConcat(a: seq<Token>, b: seq<Token>)
    ensures Explode(a + b) == Explode(a) + Explode(b)
    decreases |a|
  {
    if a == [] {
      assert a + b == b;
    } else {
      assert (a + b)[0] == a[0] && (a + b)[1..] == a[1..] + b;
      ExplodeConcat(a[1..], b);
    }
  }

  /** However the text is cut into pieces, the same is printed. */
  lemma ChunkIndependence(w: char -> nat, a: seq<Token>, b: seq<Token>)
    requires Explode(a) == Explode(b)
    ensures Print(w, a) == Print(w, b)
  {
    DrainExplode(w, Start(""), a);
    DrainExplode(w, Start(""), b);
    if Drain(w, Start(""), a).Running? {
      ExplodeEmpty(w, a);
      ExplodeEmpty(w, b);
    }
  }

  /** What is left undecided begins with a group, so exploding it cannot make it vanish. */
  lemma {:induction false} UndecidedFront(w: char -> nat, c: Core, toks: seq<Token>)
    ensures var d := Drain(w, c, toks);
            d.Running? && d.rest != [] ==>
              d.rest[0] == Begin(Breakable) && Fits(w, d.rest, 0, 0, Room(d.core.column)) == Unknown
    decreases |toks|
  {
    if toks != [] && Take(w, c, toks).Took? {
      UndecidedFront(w, Take(w, c, toks).core, toks[1..]);
    }
  }

  lemma ExplodeEmpty(w: char -> nat, toks: seq<Token>)
    ensures var d := Drain(w, Start(""), toks);
            d.Running? ==> (Explode(d.rest) == [] <==> d.rest == [])
  {
    UndecidedFront(w, Start(""), toks);
  }

  // ----- Lookahead is bounded by the print width -----

  /** The columns a run of tokens takes when no line is broken. */
  function FlatColumns(w: char -> nat, toks: seq<Token>): nat
  {
    if toks == [] then 0
    else
      (match toks[0]
       case Text(t) => Measure(w, t)
       case Line(flat, _) => Measure(w, flat)
       case Begin(_) => 0
       case End => 0) + FlatColumns(w, toks[1..])
  }

  lemma {:induction false} UnknownFits(w: char -> nat, toks: seq<Token>, depth: nat, width: nat, room: nat)
    requires width <= room && Fits(w, toks, depth, width, room) == Unknown
    ensures width + FlatColumns(w, toks) <= room
    decreases |toks|
  {
    if toks != [] {
      match toks[0]
      case Begin(_) => UnknownFits(w, toks[1..], depth + 1, width, room);
      case End => UnknownFits(w, toks[1..], depth - 1, width, room);
      case Text(t) => UnknownFits(w, toks[1..], depth, width + Measure(w, t), room);
      case Line(flat, _) => UnknownFits(w, toks[1..], depth, width + Measure(w, flat), room);
    }
  }

  lemma LookaheadBounded(w: char -> nat, c: Core, toks: seq<Token>)
    ensures var d := Drain(w, c, toks);
            d.Running? ==> FlatColumns(w, d.rest) <= Room(d.core.column) <= PRINT_WIDTH
  {
    UndecidedFront(w, c, toks);
    var d := Drain(w, c, toks);
    if d.Running? && d.rest != [] {
      UnknownFits(w, d.rest, 0, 0, Room(d.core.column));
    }
  }

  // ----- The reference: a printer that is given the document as a tree -----

  datatype Doc =
    | Nil
    | Piece(text: string, rest: Doc)
    | Break(flat: string, indent: nat, rest: Doc)
    | Group(kind: GroupKind, body: Doc, rest: Doc)

  function FlatText(d: Doc): string
  {
    match d
    case Nil => ""
    case Piece(t, rest) => t + FlatText(rest)
    case Break(flat, _, rest) => flat + FlatText(rest)
    case Group(_, body, rest) => FlatText(body) + FlatText(rest)
  }

  /** The width of the flat text. */
  function FlatWidth(w: char -> nat, d: Doc): nat
  {
    match d
    case Nil => 0
    case Piece(t, rest) => Measure(w, t) + FlatWidth(w, rest)
    case Break(flat, _, rest) => Measure(w, flat) + FlatWidth(w, rest)
    case Group(_, body, rest) => FlatWidth(w, body) + FlatWidth(w, rest)
  }

  lemma {:induction false} FlatWidthIsMeasure(w: char -> nat, d: Doc)
    ensures FlatWidth(w, d) == Measure(w, FlatText(d))
  {
    match d
    case Nil =>
    case Piece(t, rest) =>
      MeasureConcat(w, t, FlatText(rest));
      FlatWidthIsMeasure(w, rest);
    case Break(f, _, rest) =>
      MeasureConcat(w, f, FlatText(rest));
      FlatWidthIsMeasure(w, rest);
    case Group(_, body, rest) =>
      MeasureConcat(w, FlatText(body), FlatText(rest));
      FlatWidthIsMeasure(w, body);
      FlatWidthIsMeasure(w, rest);
  }

  datatype Rendered = Rendered(text: string, column: nat)

  /** A group that may break is flat iff its flat text fits in what is left of the line. */
  predicate ChooseFlat(w: char -> nat, kind: GroupKind, body: Doc, column: nat)
  {
    kind == ForcedFlat || FlatWidth(w, body) <= Room(column)
  }

  function Render(w: char -> nat, d: Doc, flat: bool, column: nat): Rendered
  {
    match d
    case Nil => Rendered("", column)
    case Piece(t, rest) =>
      var r := Render(w, rest, flat, column + Measure(w, t));
      Rendered(t + r.text, r.column)
    case Break(f, indent, rest) =>
      if flat then
        var r := Render(w, rest, flat, column + Measure(w, f));
        Rendered(f + r.text, r.column)
      else
        var r := Render(w, rest, flat, indent);
        Rendered("\n" + Spaces(indent) + r.text, r.column)
    case Group(kind, body, rest) =>
      var b := Render(w, body, ChooseFlat(w, kind, body, column), column);
      var r := Render(w, rest, flat, b.column);
      Rendered(b.text + r.text, r.column)
  }

  /** Lines occur only inside groups, and no breakable group lies inside a forced one. */
  predicate WellNested(d: Doc, inGroup: bool, inForced: bool)
  {
    match d
    case Nil => true
    case Piece(_, rest) => WellNested(rest, inGroup, inForced)
    case Break(_, _, rest) => inGroup && WellNested(rest, inGroup, inForced)
    case Group(kind, body, rest) =>
      && (inForced ==> kind == ForcedFlat)
      && WellNested(body, true, inForced || kind == ForcedFlat)
      && WellNested(rest, inGroup, inForced)
  }

  /** The tokens of a document, followed by `tail`. */
  function TokensThen(d: Doc, tail: seq<Token>): seq<Token>
  {
    match d
    case Nil => tail
    case Piece(t, rest) => [Text(t)] + TokensThen(rest, tail)
    case Break(f, indent, rest) => [Line(f, indent)] + TokensThen(rest, tail)
    case Group(kind, body, rest) => [Begin(kind)] + TokensThen(body, [End] + TokensThen(rest, tail))
  }

  lemma {:induction false} FitsDoc(w: char -> nat, d: Doc, tail: seq<Token>, depth: nat, width: nat, room: nat)
    requires depth >= 1 && width <= room
    ensures Fits(w, TokensThen(d, tail), depth, width, room) ==
            var total := width + FlatWidth(w, d);
            if total > room then No else Fits(w, tail, depth, total, room)
    decreases d
  {
    match d
    case Nil =>
    case Piece(t, rest) =>
      assert TokensThen(d, tail)[1..] == TokensThen(rest, tail);
      if width + Measure(w, t) <= room {
        FitsDoc(w, rest, tail, depth, width + Measure(w, t), room);
      }
    case Break(f, indent, rest) =>
      assert TokensThen(d, tail)[1..] == TokensThen(rest, tail);
      if width + Measure(w, f) <= room {
        FitsDoc(w, rest, tail, depth, width + Measure(w, f), room);
      }
    case Group(kind, body, rest) =>
      var close := [End] + TokensThen(rest, tail);
      assert TokensThen(d, tail)[1..] == TokensThen(body, close);
      FitsDoc(w, body, close, depth + 1, width, room);
      var inner := width + FlatWidth(w, body);
      if inner <= room {
        assert close[1..] == TokensThen(rest, tail);
        FitsDoc(w, rest, tail, depth, inner, room);
      }
  }

  lemma FitsGroup(w: char -> nat, kind: GroupKind, body: Doc, tail: seq<Token>, room: nat)
    ensures Fits(w, [Begin(kind)] + TokensThen(body, [End] + tail), 0, 0, room) ==
            if FlatWidth(w, body) <= room then Yes else No
  {
    var inside := TokensThen(body, [End] + tail);
    assert ([Begin(kind)] + inside)[1..] == inside;
    FitsDoc(w, body, [End] + tail, 1, 0, room);
    assert ([End] + tail)[0] == End;
  }

  /** The state `c` after printing `r`. */
  function After(c: Core, r: Rendered): Core {
    c.(out := c.out + r.text, column := r.column)
  }

  function Join(a: Rendered, b: Rendered): Rendered {
    Rendered(a.text + b.text, b.column)
  }

  lemma AfterTwice(c: Core, a: Rendered, b: Rendered)
    ensures After(After(c, a), b) == After(c, Join(a, b))
  {
    assert c.out + a.text + b.text == c.out + (a.text + b.text);
  }

  lemma DrainFront(w: char -> nat, c: Core, t: Token, tail: seq<Token>)
    requires Take(w, c, [t] + tail).Took?
    ensures Drain(w, c, [t] + tail) == Drain(w, Take(w, c, [t] + tail).core, tail)
  {
    assert ([t] + tail)[1..] == tail;
  }

  function LineHere(w: char -> nat, c: Core, f: string, indent: nat): Rendered {
    if c.FlatHere() then Rendered(f, c.column + Measure(w, f)) else Rendered("\n" + Spaces(indent), indent)
  }

  lemma DrainLine(w: char -> nat, c: Core, f: string, indent: nat, tail: seq<Token>)
    requires c.LineAllowed()
    ensures Drain(w, c, [Line(f, indent)] + tail) == Drain(w, After(c, LineHere(w, c, f, indent)), tail)
  {
    DrainFront(w, c, Line(f, indent), tail);
    assert c.out + "\n" + Spaces(indent) == c.out + ("\n" + Spaces(indent));
  }

  /** Printing the tokens of a document is rendering its tree. */
  lemma {:induction false} DrainDoc(w: char -> nat, c: Core, d: Doc, tail: seq<Token>)
    requires WellNested(d, c.LineAllowed(), c.forced != 0)
    ensures Drain(w, c, TokensThen(d, tail)) == Drain(w, After(c, Render(w, d, c.FlatHere(), c.column)), tail)
    decreases d, 0
  {
    match d
    case Nil =>
      assert After(c, Render(w, d, c.FlatHere(), c.column)) == c;
    case Piece(t, rest) =>
      DrainFront(w, c, Text(t), TokensThen(rest, tail));
      DrainRest(w, c, FirstOf(w, d, c), d, rest, tail);
    case Break(f, indent, rest) =>
      DrainLine(w, c, f, indent, TokensThen(rest, tail));
      DrainRest(w, c, FirstOf(w, d, c), d, rest, tail);
    case Group(kind, body, rest) =>
      DrainGroup(w, c, kind, body, TokensThen(rest, tail));
      DrainRest(w, c, FirstOf(w, d, c), d, rest, tail);
  }

  /** What the first part of a document prints. */
  function FirstOf(w: char -> nat, d: Doc, c: Core): Rendered
  {
    match d
    case Nil => Rendered("", c.column)
    case Piece(t, _) => Rendered(t, c.column + Measure(w, t))
    case Break(f, indent, _) => LineHere(w, c, f, indent)
    case Group(kind, body, _) => Render(w, body, ChooseFlat(w, kind, body, c.column), c.column)
  }

  lemma {:induction false} DrainRest(w: char -> nat, c: Core, first: Rendered, d: Doc, rest: Doc, tail: seq<Token>)
    requires d != Nil && rest == d.rest && first == FirstOf(w, d, c)
    requires WellNested(d, c.LineAllowed(), c.forced != 0)
    ensures Drain(w, After(c, first), TokensThen(rest, tail)) ==
            Drain(w, After(c, Render(w, d, c.FlatHere(), c.column)), tail)
    decreases rest, 1
  {
    var next := After(c, first);
    assert next.groups == c.groups && next.forced == c.forced;
    assert WellNested(rest, next.LineAllowed(), next.forced != 0);
    DrainDoc(w, next, rest, tail);
    AfterTwice(c, first, Render(w, rest, c.FlatHere(), first.column));
  }

  lemma {:induction false} DrainGroup(w: char -> nat, c: Core, kind: GroupKind, body: Doc, tail: seq<Token>)
    requires c.forced != 0 ==> kind == ForcedFlat
    requires WellNested(body, true, c.forced != 0 || kind == ForcedFlat)
    ensures Drain(w, c, [Begin(kind)] + TokensThen(body, [End] + tail)) ==
            Drain(w, After(c, Render(w, body, ChooseFlat(w, kind, body, c.column), c.column)), tail)
    decreases body, 1
  {
    var inside := TokensThen(body, [End] + tail);
    var chosen := ChooseFlat(w, kind, body, c.column);
    FitsGroup(w, kind, body, tail, Room(c.column));
    var c1 := if kind == ForcedFlat then c.(forced := c.forced + 1)
              else c.(groups := c.groups + [if chosen then Flat else Broken]);
    assert Take(w, c, [Begin(kind)] + inside) == Took(c1);
    DrainDoc(w, c1, body, [End] + tail);
    var c2 := After(c1, Render(w, body, chosen, c.column));
    if kind == Breakable {
      assert c2.groups[..|c2.groups| - 1] == c.groups;
    }
    DrainFront(w, c2, End, tail);
  }

  /** The printer on any well-nested document prints the tree: each breakable group is decided
      from its whole flat width. */
  lemma PrintIsRender(w: char -> nat, d: Doc)
    requires WellNested(d, false, false)
    ensures Print(w, TokensThen(d, [])) == Some(Render(w, d, false, 0).text + "\n")
  {
    DrainDoc(w, Start(""), d, []);
    assert "" + Render(w, d, false, 0).text == Render(w, d, false, 0).text;
  }

  /** Nothing can break when printing flat: the document fits, or it is inside a forced group. */
  predicate StaysFlat(w: char -> nat, d: Doc, column: nat) {
    FlatWidth(w, d) <= Room(column) || WellNested(d, true, true)
  }

  lemma StaysFlatSplit(w: char -> nat, kind: GroupKind, body: Doc, rest: Doc, column: nat)
    requires StaysFlat(w, Group(kind, body, rest), column)
    ensures StaysFlat(w, body, column) && ChooseFlat(w, kind, body, column)
    ensures StaysFlat(w, rest, column + FlatWidth(w, body))
  {
  }

  lemma StaysFlatAfter(w: char -> nat, d: Doc, column: nat)
    requires (d.Piece? || d.Break?) && StaysFlat(w, d, column)
    ensures StaysFlat(w, d.rest, column + Measure(w, if d.Piece? then d.text else d.flat))
  {
  }

  /** Inside a group chosen flat, or forced flat, nothing breaks. */
  lemma {:induction false} FlatStaysFlat(w: char -> nat, d: Doc, column: nat)
    requires StaysFlat(w, d, column)
    ensures Render(w, d, true, column) == Rendered(FlatText(d), column + FlatWidth(w, d))
    decreases d
  {
    match d
    case Nil =>
    case Piece(t, rest) =>
      StaysFlatAfter(w, d, column);
      FlatStaysFlat(w, rest, column + Measure(w, t));
    case Break(f, _, rest) =>
      StaysFlatAfter(w, d, column);
      FlatStaysFlat(w, rest, column + Measure(w, f));
    case Group(kind, body, rest) =>
      StaysFlatSplit(w, kind, body, rest, column);
      FlatStaysFlat(w, body, column);
      FlatStaysFlat(w, rest, column + FlatWidth(w, body));
  }

  /** A group that is not broken is printed as its flat text, and a breakable one that starts within the
      print width also ends within it. */
  lemma UnbrokenGroup(w: char -> nat, kind: GroupKind, body: Doc, column: nat)
    requires ChooseFlat(w, kind, body, column) && WellNested(body, true, kind == ForcedFlat)
    ensures var r := Render(w, body, true, column);
            && r.text == FlatText(body)
            && (kind == Breakable && column <= PRINT_WIDTH ==> column <= r.column <= PRINT_WIDTH)
  {
    FlatStaysFlat(w, body, column);
  }

  // ----- Text already written before the first token only shifts the result -----

  function Shifted(base: string, d: Drained): Drained
  {
    match d
    case Running(c, rest) => Running(c.(out := base + c.out), rest)
    case Invalid(o) => Invalid(base + o)
  }

  lemma TakeShift(w: char -> nat, base: string, c: Core, toks: seq<Token>)
    requires toks != []
    ensures Take(w, c.(out := base + c.out), toks) ==
            match Take(w, c, toks)
            case Took(n) => Took(n.(out := base + n.out))
            case Undecided => Undecided
            case Malformed => Malformed
  {
    match toks[0]
    case Text(t) => assert base + (c.out + t) == (base + c.out) + t;
    case Line(flat, indent) =>
      assert base + (c.out + flat) == (base + c.out) + flat;
      assert base + (c.out + "\n" + Spaces(indent)) == (base + c.out) + "\n" + Spaces(indent);
    case _ =>
  }

  lemma {:induction false} DrainShift(w: char -> nat, base: string, c: Core, toks: seq<Token>)
    ensures Drain(w, c.(out := base + c.out), toks) == Shifted(base, Drain(w, c, toks))
    decreases |toks|
  {
    if toks != [] {
      TakeShift(w, base, c, toks);
      if Take(w, c, toks).Took? {
        DrainShift(w, base, Take(w, c, toks).core, toks[1..]);
      }
    }
  }
}
