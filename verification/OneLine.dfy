/** What is printed flat is one line: the texts of a value hold no control characters, so only the layout
    breaks lines. */
module OneLine {
  import opened Text
  import opened Layout
  import opened Printer
  import opened Values
  import RoundTrip

  predicate Clean(t: string) {
    forall c | c in t :: !IsControl(c)
  }

  predicate CleanDoc(d: Doc)
  {
    match d
    case Nil => true
    case Piece(t, rest) => Clean(t) && CleanDoc(rest)
    case Break(flat, _, rest) => Clean(flat) && CleanDoc(rest)
    case Group(_, body, rest) => CleanDoc(body) && CleanDoc(rest)
  }

  lemma {:induction false} CleanSeq(a: Doc, b: Doc)
    requires CleanDoc(a) && CleanDoc(b)
    ensures CleanDoc(SeqDoc(a, b))
  {
    match a
    case Nil =>
    case Piece(_, rest) => CleanSeq(rest, b);
    case Break(_, _, rest) => CleanSeq(rest, b);
    case Group(_, _, rest) => CleanSeq(rest, b);
  }

  lemma {:induction false} CleanFlat(d: Doc)
    requires CleanDoc(d)
    ensures Clean(FlatText(d))
  {
    match d
    case Nil =>
    case Piece(_, rest) => CleanFlat(rest);
    case Break(_, _, rest) => CleanFlat(rest);
    case Group(_, body, rest) =>
      CleanFlat(body);
      CleanFlat(rest);
  }

  // ----- The texts of values -----

  lemma {:induction false} EscapeClean(s: string)
    ensures Clean(Escape(s))
  {
    if s != "" {
      EscapeClean(s[1..]);
      EscapeCharClean(s[0]);
    }
  }

  lemma EscapeCharClean(c: char)
    ensures Clean(EscapeChar(c))
  {
  }

  lemma {:induction false} EscapeSymbolClean(s: string)
    requires Clean(s)
    ensures Clean(EscapeSymbol(s))
  {
    if s != "" {
      assert s[0] in s && forall c | c in s[1..] :: c in s;
      EscapeSymbolClean(s[1..]);
    }
  }

  lemma {:induction false} DecimalClean(n: nat)
    ensures Clean(Decimal(n))
  {
    if n >= 10 {
      DecimalClean(n / 10);
    }
  }

  lemma RealClean(t: RealText)
    ensures Clean(t)
  {
    RoundTrip.RealChars(t);
  }

  lemma UpperClean(h: string)
    requires ValidHandle(h)
    ensures Clean(Upper(h))
  {
    forall c | c in Upper(h) ensures !IsControl(c) {
      var i :| 0 <= i < |h| && c == ToUpper(h[i]);
      assert h[i] in h;
    }
  }

  lemma {:induction false} PiecesClean(texts: seq<string>)
    requires forall t | t in texts :: Clean(t)
    ensures CleanDoc(PiecesDoc(texts))
  {
    if texts != [] {
      assert texts[0] in texts && forall t | t in texts[1..] :: t in texts;
      PiecesClean(texts[1..]);
    }
  }

  lemma OpaqueClean(kind: OpaqueKind)
    ensures CleanDoc(OpaqueDoc(OpaqueName(kind), LabelOf(kind))) && CleanDoc(OpaqueDoc("Entity", None))
  {
    var payload := LabelOf(kind);
    PiecesClean(["#<", OpaqueName(kind)] + (if payload.Some? then [" ", payload.value] else []) + [">"]);
    PiecesClean(["#<", "Entity"] + [] + [">"]);
  }

  lemma {:induction false} StringClean(pieces: seq<string>)
    ensures CleanDoc(StringDoc(pieces))
  {
    if pieces != [] {
      EscapeClean(pieces[0]);
      StringClean(pieces[1..]);
    }
  }

  lemma {:induction false} SymbolClean(pieces: seq<string>)
    requires SymbolChunksOk(pieces)
    ensures CleanDoc(SymbolDoc(pieces))
  {
    if pieces != [] {
      EscapeSymbolClean(pieces[0]);
      SymbolClean(pieces[1..]);
    }
  }

  lemma {:induction false} ValueClean(v: Value, depth: nat)
    requires Printable(v, depth)
    ensures CleanDoc(DocOf(v, depth))
    decreases v
  {
    match v
    case VInteger(i) => DecimalClean(if i < 0 then -(i as int) else i);
    case VReal(t) => RealClean(t);
    case VString(pieces) => StringClean(pieces);
    case VSymbol(pieces) => SymbolClean(pieces);
    case VList(items) =>
      if depth < MAX_VALUE_DEPTH {
        ItemsClean(items, depth, true);
      } else {
        OpaqueClean(TooDeep);
      }
    case VEntity(handle) =>
      OpaqueClean(TooDeep);
      if handle.Some? && ValidHandle(handle.value) {
        UpperClean(handle.value);
        PiecesClean(["(handent \"", Upper(handle.value), "\")"]);
      }
    case VOpaque(kind) => OpaqueClean(kind);
    case _ =>
  }

  lemma DotClean(depth: nat)
    ensures CleanDoc(DotDoc(depth))
  {
    var space := Break(" ", Indent(depth + 1), Doc.Nil);
    assert CleanDoc(space);
    assert CleanDoc(Piece(".", space));
  }

  lemma {:induction false} ItemsClean(items: Items, depth: nat, first: bool)
    requires ItemsPrintable(items, depth + 1)
    ensures CleanDoc(ItemsDoc(items, depth, first))
    decreases items
  {
    match items
    case Close =>
    case Dotted(t) =>
      ValueClean(t, depth + 1);
      CleanSeq(DocOf(t, depth + 1), CloseDoc(depth));
      DotClean(depth);
      CleanSeq(DotDoc(depth), SeqDoc(DocOf(t, depth + 1), CloseDoc(depth)));
    case More(v, rest) =>
      ValueClean(v, depth + 1);
      ItemsClean(rest, depth, false);
      CleanSeq(DocOf(v, depth + 1), ItemsDoc(rest, depth, false));
      CleanSeq(SeparatorDoc(v, depth, first), SeqDoc(DocOf(v, depth + 1), ItemsDoc(rest, depth, false)));
  }

  // ----- The groups of a printed value -----

  /** Wherever rendering the document chooses a group flat, the text of the group holds no line feed,
      and ends within the print width if the group is breakable and began there. */
  predicate FlatGroupsHold(w: char -> nat, d: Doc, flat: bool, column: nat)
  {
    match d
    case Nil => true
    case Piece(t, rest) => FlatGroupsHold(w, rest, flat, column + Measure(w, t))
    case Break(f, indent, rest) => FlatGroupsHold(w, rest, flat, if flat then column + Measure(w, f) else indent)
    case Group(kind, body, rest) =>
      var chosen := ChooseFlat(w, kind, body, column);
      var r := Render(w, body, chosen, column);
      && (chosen ==> '\n' !in r.text && (kind == Breakable && column <= PRINT_WIDTH ==> r.column <= PRINT_WIDTH))
      && FlatGroupsHold(w, body, chosen, column)
      && FlatGroupsHold(w, rest, flat, r.column)
  }

  lemma {:induction false} CleanGroupsHold(w: char -> nat, d: Doc, flat: bool, column: nat, inGroup: bool,
                                           inForced: bool)
    requires CleanDoc(d) && WellNested(d, inGroup, inForced)
    ensures FlatGroupsHold(w, d, flat, column)
    decreases d
  {
    match d
    case Nil =>
    case Piece(t, rest) => CleanGroupsHold(w, rest, flat, column + Measure(w, t), inGroup, inForced);
    case Break(f, indent, rest) =>
      CleanGroupsHold(w, rest, flat, if flat then column + Measure(w, f) else indent, inGroup, inForced);
    case Group(kind, body, rest) =>
      var chosen := ChooseFlat(w, kind, body, column);
      var r := Render(w, body, chosen, column);
      CleanGroupsHold(w, body, chosen, column, true, inForced || kind == ForcedFlat);
      CleanGroupsHold(w, rest, flat, r.column, inGroup, inForced);
      if chosen {
        ChosenHolds(w, kind, body, column, inForced);
      }
  }

  lemma ChosenHolds(w: char -> nat, kind: GroupKind, body: Doc, column: nat, inForced: bool)
    requires CleanDoc(body) && WellNested(body, true, inForced || kind == ForcedFlat)
             && (inForced ==> kind == ForcedFlat)
    requires ChooseFlat(w, kind, body, column)
    ensures var r := Render(w, body, true, column);
            '\n' !in r.text && (kind == Breakable && column <= PRINT_WIDTH ==> r.column <= PRINT_WIDTH)
  {
    UnbrokenGroup(w, kind, body, column);
    CleanFlat(body);
  }

  /** A printed value has no line break inside a group that was chosen flat, and such a group ends within
      the print width; all its other characters are printable. */
  lemma PrintedGroupsHold(w: char -> nat, v: Value)
    requires Printable(v, 0)
    ensures FlatGroupsHold(w, DocOf(v, 0), false, 0) && Clean(FlatText(DocOf(v, 0)))
  {
    ValueClean(v, 0);
    ValueNested(v, 0, false);
    CleanGroupsHold(w, DocOf(v, 0), false, 0, false, false);
    CleanFlat(DocOf(v, 0));
  }
}
