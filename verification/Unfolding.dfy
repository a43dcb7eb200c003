/** The value that an object is shown as: its cells unfolded, down to the marks for cycles and depth. */
module Unfolding {
  import opened Text
  import opened Printer
  import opened Values
  import opened Conses

  /** Texts go to the printer in pieces. */
  function Chunks(text: string): seq<string>
    decreases |text|
  {
    if text == "" then []
    else if |text| <= TEXT_CHUNK then [text]
    else [text[..TEXT_CHUNK]] + Chunks(text[TEXT_CHUNK..])
  }

  function Unfold(h: Heap, x: Obj, depth: nat): Value
    requires depth <= MAX_LIST_DEPTH
    decreases MAX_LIST_DEPTH - depth, 2, 0
  {
    match x
    case Atom(v) => v
    case Str(text) => VString(Chunks(text))
    case Sym(name) => VSymbol(Chunks(name))
    case Cell(_) => if depth == MAX_LIST_DEPTH then VOpaque(TooDeep) else VList(UnfoldFrom(h, x, 0, depth))
  }

  /** The items of a list from its `i`-th cell on. */
  function UnfoldFrom(h: Heap, x: Obj, i: nat, depth: nat): Items
    requires i <= Shown(h, x) && depth < MAX_LIST_DEPTH
    decreases MAX_LIST_DEPTH - depth, 1, Shown(h, x) - i
  {
    if i < Shown(h, x) then More(Unfold(h, Car(h, Tail(h, x, i)), depth + 1), UnfoldFrom(h, x, i + 1, depth))
    else EndFrom(h, x, depth)
  }

  /** After the last cell: the mark of a cycle, nothing, or a dotted tail. */
  function EndFrom(h: Heap, x: Obj, depth: nat): Items
    requires depth < MAX_LIST_DEPTH
    decreases MAX_LIST_DEPTH - depth, 0, 0
  {
    var tail := Tail(h, x, Shown(h, x));
    if tail.Cell? then Dotted(VOpaque(Cycle))
    else if tail == NilObj then Close
    else Dotted(Unfold(h, tail, depth + 1))
  }

  function Ending(items: Items): Items {
    if items.More? then Ending(items.rest) else items
  }

  function Count(items: Items): nat {
    if items.More? then 1 + Count(items.rest) else 0
  }

  function ItemAt(items: Items, k: nat): Value
    requires k < Count(items)
  {
    if k == 0 then items.head else ItemAt(items.rest, k - 1)
  }

  /** A list shows the unfolding of each of its first cells, in order, and ends with the mark of a
      cycle exactly if it has no end. */
  lemma ListUnfolds(h: Heap, x: Obj, depth: nat)
    requires x.Cell? && depth < MAX_LIST_DEPTH
    ensures var items := UnfoldFrom(h, x, 0, depth);
            && Unfold(h, x, depth) == VList(items)
            && Count(items) == Shown(h, x)
            && (forall k: nat | k < Shown(h, x) :: ItemAt(items, k) == Unfold(h, Car(h, Tail(h, x, k)), depth + 1))
            && (Ending(items) == Dotted(VOpaque(Cycle)) <==> Endless(h, x))
            && (Ending(items) == Close <==> Tail(h, x, Shown(h, x)) == NilObj)
  {
    ListEnds(h, x, 0, depth);
    forall k: nat | k < Shown(h, x)
      ensures ItemAt(UnfoldFrom(h, x, 0, depth), k) == Unfold(h, Car(h, Tail(h, x, k)), depth + 1)
    {
      ListItem(h, x, 0, depth, k);
    }
    EndMark(h, x, depth);
  }

  lemma {:induction false} ListEnds(h: Heap, x: Obj, i: nat, depth: nat)
    requires i <= Shown(h, x) && depth < MAX_LIST_DEPTH
    ensures var items := UnfoldFrom(h, x, i, depth);
            Ending(items) == EndFrom(h, x, depth) && Count(items) == Shown(h, x) - i
    decreases Shown(h, x) - i
  {
    if i < Shown(h, x) {
      ListEnds(h, x, i + 1, depth);
    }
  }

  lemma {:induction false} ListItem(h: Heap, x: Obj, i: nat, depth: nat, k: nat)
    requires i <= k < Shown(h, x) && depth < MAX_LIST_DEPTH
    ensures Count(UnfoldFrom(h, x, i, depth)) > k - i
    ensures ItemAt(UnfoldFrom(h, x, i, depth), k - i) == Unfold(h, Car(h, Tail(h, x, k)), depth + 1)
    decreases k - i
  {
    ListEnds(h, x, i, depth);
    if i < k {
      ListItem(h, x, i + 1, depth, k);
    }
  }

  /** The marks of cycles are not atoms, so they are not mistaken for one. */
  lemma EndMark(h: Heap, x: Obj, depth: nat)
    requires depth < MAX_LIST_DEPTH
    ensures EndFrom(h, x, depth) == Dotted(VOpaque(Cycle)) <==> Endless(h, x)
    ensures EndFrom(h, x, depth) == Close <==> Tail(h, x, Shown(h, x)) == NilObj
  {
    ShownCells(h, x);
  }

  // ----- What the printer may refuse of an object -----

  /** Every real in the value is finite, and every symbol has a name that the printer accepts. */
  predicate AtomsPrintable(v: Value)
  {
    match v
    case VNotFinite => false
    case VSymbol(pieces) => Printable(v, 0)
    case VList(items) => ItemAtomsPrintable(items)
    case _ => true
  }

  predicate ItemAtomsPrintable(items: Items)
  {
    match items
    case Close => true
    case Dotted(t) => AtomsPrintable(t)
    case More(v, rest) => AtomsPrintable(v) && ItemAtomsPrintable(rest)
  }

  /** How deep lists are nested in a value. */
  function Nesting(v: Value): nat {
    match v
    case VList(items) => 1 + ItemsNesting(items)
    case _ => 0
  }

  function ItemsNesting(items: Items): nat {
    match items
    case Close => 0
    case Dotted(t) => Nesting(t)
    case More(v, rest) => if Nesting(v) > ItemsNesting(rest) then Nesting(v) else ItemsNesting(rest)
  }

  /** Whatever the graph of cells, lists never nest deeper than the limit, and the printer accepts
      the value unless one of its atoms has no text: its lists, dots and marks are never refused. */
  lemma {:induction false} UnfoldPrints(h: Heap, x: Obj, depth: nat)
    requires depth <= MAX_LIST_DEPTH
    ensures Nesting(Unfold(h, x, depth)) <= MAX_LIST_DEPTH - depth
    ensures Printable(Unfold(h, x, depth), depth) <==> AtomsPrintable(Unfold(h, x, depth))
    decreases MAX_LIST_DEPTH - depth, 2, 0
  {
    match x
    case Atom(v) =>
    case Str(text) => ChunksFit(text);
    case Sym(name) =>
    case Cell(_) =>
      if depth < MAX_LIST_DEPTH {
        UnfoldFromPrints(h, x, 0, depth);
        assert Shown(h, x) > 0;
      }
  }

  lemma {:induction false} UnfoldFromPrints(h: Heap, x: Obj, i: nat, depth: nat)
    requires i <= Shown(h, x) && depth < MAX_LIST_DEPTH
    ensures ItemsNesting(UnfoldFrom(h, x, i, depth)) < MAX_LIST_DEPTH - depth
    ensures ItemsPrintable(UnfoldFrom(h, x, i, depth), depth + 1) <==> ItemAtomsPrintable(UnfoldFrom(h, x, i, depth))
    decreases MAX_LIST_DEPTH - depth, 1, Shown(h, x) - i
  {
    if i < Shown(h, x) {
      UnfoldPrints(h, Car(h, Tail(h, x, i)), depth + 1);
      UnfoldFromPrints(h, x, i + 1, depth);
    } else {
      var tail := Tail(h, x, i);
      if !tail.Cell? && tail != NilObj {
        UnfoldPrints(h, tail, depth + 1);
      }
    }
  }

  /** Chunks are never too long for the printer, and nothing of the text is lost. */
  lemma {:induction false} ChunksFit(text: string)
    ensures ChunksOk(Chunks(text)) && Flatten(Chunks(text)) == text
    decreases |text|
  {
    if text != "" && |text| <= TEXT_CHUNK {
      ChunkFits(text);
      assert text + "" == text && Chunks(text)[1..] == [];
    } else if text != "" {
      ChunkFits(text[..TEXT_CHUNK]);
      ChunksFit(text[TEXT_CHUNK..]);
      assert Chunks(text)[1..] == Chunks(text[TEXT_CHUNK..]);
      assert text[..TEXT_CHUNK] + text[TEXT_CHUNK..] == text;
    }
  }

  lemma ChunkFits(text: string)
    requires |text| <= TEXT_CHUNK
    ensures ChunkOk(text)
  {
    ByteLenAtMost(text);
  }
}
