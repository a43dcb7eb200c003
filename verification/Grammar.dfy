/** The printer accepts nothing but values: whatever it accepts to the end is the events of one. */
module Grammar {
  import opened Printer
  import opened Values
  import opened OutputPort

  /** Nothing lies so deep that it is skipped unread. */
  predicate Unskipped(p: PrinterState, es: seq<Event>)
    decreases |es|
  {
    p.skipped == 0 && (es != [] && OnEvent(p, es[0]).Accepted? ==> Unskipped(OnEvent(p, es[0]).state, es[1..]))
  }

  /** The events are accepted from `p`, to a state between atoms with at most `depth` lists open. */
  predicate Closes(p: PrinterState, es: seq<Event>, depth: nat)
  {
    && OnEvents(p, es).Accepted? && Unskipped(p, es)
    && OnEvents(p, es).state.atom == NoAtom && |OnEvents(p, es).state.lists| <= depth
  }

  lemma ClosesNext(p: PrinterState, es: seq<Event>, depth: nat)
    requires Closes(p, es, depth) && es != []
    ensures OnEvent(p, es[0]).Accepted? && OnEvent(p, es[0]).state.skipped == 0
    ensures Closes(OnEvent(p, es[0]).state, es[1..], depth)
    ensures OnEvents(p, es).state == OnEvents(OnEvent(p, es[0]).state, es[1..]).state
  {
    var first := OnEvent(p, es[0]);
    assert OnEvents(p, es) == Follow(first, es[1..]);
    assert first.Accepted?;
    assert OnEvents(p, es) == Add(first.toks, OnEvents(first.state, es[1..]));
    assert Unskipped(first.state, es[1..]);
  }

  lemma {:induction false} ClosesAfter(p: PrinterState, a: seq<Event>, b: seq<Event>, depth: nat)
    requires Closes(p, a + b, depth)
    ensures OnEvents(p, a).Accepted? && Closes(OnEvents(p, a).state, b, depth)
    ensures OnEvents(p, a + b).state == OnEvents(OnEvents(p, a).state, b).state
    decreases |a|
  {
    if a == [] {
      assert a + b == b;
    } else {
      assert (a + b)[0] == a[0] && (a + b)[1..] == a[1..] + b;
      ClosesNext(p, a + b, depth);
      ClosesAfter(OnEvent(p, a[0]).state, a[1..], b, depth);
    }
  }

  lemma {:induction false} ParseString(p: PrinterState, es: seq<Event>, depth: nat)
    returns (pieces: seq<string>, rest: seq<Event>)
    requires p.atom == InString && Closes(p, es, depth)
    ensures es == StringChunks(pieces) + rest
    decreases |es|
  {
    ClosesNext(p, es, depth);
    if es[0] == EndString {
      pieces, rest := [], es[1..];
      assert es == [EndString] + rest;
    } else {
      var t := es[0].text;
      pieces, rest := ParseString(OnEvent(p, es[0]).state, es[1..], depth);
      MoreChunks(es, [StringChunk(t)], StringChunks(pieces), rest);
      pieces := [t] + pieces;
      assert StringChunks(pieces) == [StringChunk(t)] + StringChunks(pieces[1..]);
    }
  }

  lemma MoreChunks(es: seq<Event>, first: seq<Event>, more: seq<Event>, rest: seq<Event>)
    requires |first| == 1 && es != [] && es[0] == first[0] && es[1..] == more + rest
    ensures es == first + more + rest && es == first + (more + rest)
  {
  }

  lemma {:induction false} ParseSymbol(p: PrinterState, es: seq<Event>, depth: nat)
    returns (pieces: seq<string>, rest: seq<Event>)
    requires p.atom.InSymbol? && Closes(p, es, depth)
    ensures es == SymbolChunks(pieces) + rest
    decreases |es|
  {
    ClosesNext(p, es, depth);
    if es[0] == EndSymbol {
      pieces, rest := [], es[1..];
      assert es == [EndSymbol] + rest;
    } else {
      var t := es[0].text;
      pieces, rest := ParseSymbol(OnEvent(p, es[0]).state, es[1..], depth);
      MoreChunks(es, [SymbolChunk(t)], SymbolChunks(pieces), rest);
      pieces := [t] + pieces;
      assert SymbolChunks(pieces) == [SymbolChunk(t)] + SymbolChunks(pieces[1..]);
    }
  }

  predicate BetweenAtoms(p: PrinterState) {
    p.atom == NoAtom && p.skipped == 0 && |p.lists| <= MAX_VALUE_DEPTH
  }

  predicate BeginsValue(e: Event) {
    !e.EndList? && !e.Dot?
  }

  lemma {:induction false} ParseValue(p: PrinterState, es: seq<Event>) returns (v: Value, rest: seq<Event>)
    requires BetweenAtoms(p) && Closes(p, es, |p.lists|) && es != [] && BeginsValue(es[0])
    ensures es == Events(v) + rest
    decreases |es|, 0
  {
    if es[0] == BeginList {
      ClosesNext(p, es, |p.lists|);
      var items;
      items, rest := ParseItems(OnEvent(p, es[0]).state, es[1..]);
      v := VList(items);
      MoreChunks(es, [BeginList], ItemEvents(items), rest);
    } else if es[0] == BeginString || es[0] == BeginSymbol {
      v, rest := ParseText(p, es);
    } else {
      ClosesNext(p, es, |p.lists|);
      v, rest := AtomOf(es[0]), es[1..];
      assert es == [es[0]] + rest;
    }
  }

  lemma ParseText(p: PrinterState, es: seq<Event>) returns (v: Value, rest: seq<Event>)
    requires BetweenAtoms(p) && Closes(p, es, |p.lists|) && es != [] && (es[0] == BeginString || es[0] == BeginSymbol)
    ensures es == Events(v) + rest
  {
    ClosesNext(p, es, |p.lists|);
    var q, pieces := OnEvent(p, es[0]).state, [];
    if es[0] == BeginString {
      pieces, rest := ParseString(q, es[1..], |p.lists|);
      v := VString(pieces);
      MoreChunks(es, [BeginString], StringChunks(pieces), rest);
    } else {
      pieces, rest := ParseSymbol(q, es[1..], |p.lists|);
      v := VSymbol(pieces);
      MoreChunks(es, [BeginSymbol], SymbolChunks(pieces), rest);
    }
  }

  function AtomOf(e: Event): Value
    requires e.Nil? || e.True? || e.Integer? || e.Real? || e.Entity? || e.Opaque?
  {
    match e
    case Nil => VNil
    case True => VTrue
    case Integer(i) => VInteger(i)
    case Real(t) => if t.Some? then VReal(t.value) else VNotFinite
    case Entity(h) => VEntity(h)
    case Opaque(k) => VOpaque(k)
  }

  lemma {:induction false} ParseItems(q: PrinterState, es: seq<Event>) returns (items: Items, rest: seq<Event>)
    requires ReadyInside(q) && Closes(q, es, |q.lists| - 1)
    ensures es == ItemEvents(items) + rest
    decreases |es|, 1
  {
    var d := |q.lists| - 1;
    ClosesNext(q, es, d);
    if es[0] == EndList {
      items, rest := Close, es[1..];
      assert es == [EndList] + rest;
    } else if es[0] == Dot {
      var t;
      t, rest := ParseTail(OnEvent(q, Dot).state, es[1..]);
      items := Dotted(t);
      MoreChunks(es, [Dot], Events(t) + [EndList], rest);
    } else {
      var v, after := ParseValue(q, es);
      ClosesAfter(q, Events(v), after, d);
      ValuePrints(v, q);
      SeparatorToks(v, q);
      var more;
      more, rest := ParseItems(OnEvents(q, Events(v)).state, after);
      items := More(v, more);
      Regroup(Events(v), ItemEvents(more), rest);
    }
  }

  /** After a dot comes one value, and then the end of the list. */
  lemma {:induction false} ParseTail(q: PrinterState, es: seq<Event>) returns (t: Value, rest: seq<Event>)
    requires BetweenAtoms(q) && q.lists != [] && q.lists[|q.lists| - 1] == AwaitingTail && Closes(q, es, |q.lists| - 1)
    ensures es == Events(t) + [EndList] + rest
    decreases |es|, 1
  {
    var d := |q.lists| - 1;
    ClosesNext(q, es, d);
    var after;
    t, after := ParseValue(q, es);
    ClosesAfter(q, Events(t), after, d);
    ValuePrints(t, q);
    AfterTail(OnEvents(q, Events(t)).state, after);
    rest := after[1..];
    assert after == [EndList] + rest;
    Regroup(Events(t), [EndList], rest);
  }

  lemma AfterTail(p: PrinterState, es: seq<Event>)
    requires BetweenAtoms(p) && p.lists != [] && p.lists[|p.lists| - 1] == Complete && Closes(p, es, |p.lists| - 1)
    ensures es != [] && es[0] == EndList
  {
    ClosesNext(p, es, |p.lists| - 1);
    if es[0] == BeginSymbol {
      var q := OnEvent(p, BeginSymbol).state;
      var pieces, rest := ParseSymbol(q, es[1..], |p.lists| - 1);
      ClosesAfter(q, SymbolChunks(pieces), rest, |p.lists| - 1);
      NoSymbol(p, pieces);
    }
  }

  /** A symbol has no place where no value has. */
  lemma {:induction false} NoSymbol(p: PrinterState, pieces: seq<string>)
    requires p.skipped == 0 && BeforeSymbol(p).Rejected?
    ensures OnEvents(p.(atom := InSymbol(EmptySymbol)), SymbolChunks(pieces)).Rejected?
  {
    var q := p.(atom := InSymbol(EmptySymbol));
    if pieces == [] {
      OneEvent(q, EndSymbol);
    } else {
      FirstEvent(q, SymbolChunk(pieces[0]), SymbolChunks(pieces[1..]));
      assert BeforeSymbol(q).Rejected?;
      if pieces[0] == "" {
        NoSymbol(p, pieces[1..]);
      }
    }
  }

  lemma {:induction false} RootsGrow(p: PrinterState, es: seq<Event>)
    requires OnEvents(p, es).Accepted?
    ensures OnEvents(p, es).state.rootValues >= p.rootValues
    decreases |es|
  {
    if es != [] {
      RootGrows(p, es[0]);
      RootsGrow(OnEvent(p, es[0]).state, es[1..]);
    }
  }

  lemma RootGrows(p: PrinterState, e: Event)
    requires OnEvent(p, e).Accepted?
    ensures OnEvent(p, e).state.rootValues >= p.rootValues
  {
  }

  /** The events that make one complete value, nothing of it skipped, are exactly the events of the
      values that are printable. */
  lemma OneValueIsValue(es: seq<Event>) returns (v: Value)
    requires OneValue(es) && Unskipped(Fresh, es)
    ensures es == Events(v) && Printable(v, 0)
  {
    assert Closes(Fresh, es, 0);
    ClosesNext(Fresh, es, 0);
    var rest;
    v, rest := ParseValue(Fresh, es);
    ClosesAfter(Fresh, Events(v), rest, 0);
    ValuePrints(v, Fresh);
    if rest != [] {
      AnotherValue(OnEvents(Fresh, Events(v)).state, rest);
    }
    assert Events(v) + [] == Events(v);
  }

  lemma AnotherValue(p: PrinterState, es: seq<Event>)
    requires BetweenAtoms(p) && p.lists == [] && Closes(p, es, 0) && es != []
    ensures OnEvents(p, es).state.rootValues > p.rootValues
  {
    ClosesNext(p, es, 0);
    var v, rest := ParseValue(p, es);
    ClosesAfter(p, Events(v), rest, 0);
    ValuePrints(v, p);
    RootsGrow(OnEvents(p, Events(v)).state, rest);
  }

  /** The language of the printer: complete values, and nothing else. */
  lemma ExactlyValues(es: seq<Event>)
    requires Unskipped(Fresh, es)
    ensures OneValue(es) <==> exists v :: Printable(v, 0) && es == Events(v)
  {
    if OneValue(es) {
      var v := OneValueIsValue(es);
    }
    if v :| Printable(v, 0) && es == Events(v) {
      ValuePrints(v, Fresh);
    }
  }
}
