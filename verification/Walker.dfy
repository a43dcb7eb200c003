/** The walker that prints an object: an explicit stack of tasks over the graph of its cells. */
module Walker {
  import opened Text
  import opened Printer
  import opened Values
  import opened Conses
  import opened Unfolding
  import opened ValueBridge
  import opened OutputPort

  datatype Task =
    | ItemTask(value: Obj, depth: nat)
    | TailTask(tail: Obj, slow: Obj, fast: Obj, depth: nat)
    | EndTask
    | DotTask
    | CycleTask

  // ----- What the tasks on the stack still owe -----

  datatype Work =
    | ShowItem(x: Obj, depth: nat)
    | From(x: Obj, i: nat, depth: nat)  // a list from its i-th cell
    | Mark(event: Event)

  ghost predicate WorkOk(h: Heap, k: Work)
  {
    match k
    case ShowItem(x, depth) => depth <= MAX_LIST_DEPTH
    case From(x, i, depth) =>
      && depth < MAX_LIST_DEPTH
      && i <= Shown(h, x) && (i == Shown(h, x) ==> !Tail(h, x, i).Cell?)
    case Mark(e) => e in {EndList, Dot, Opaque(Cycle)}
  }

  /** The task on the stack that stands for the work: the tortoise and the hare run along with the tail. */
  function TaskOf(h: Heap, k: Work): Task
    requires WorkOk(h, k)
  {
    match k
    case ShowItem(x, depth) => ItemTask(x, depth)
    case From(x, i, depth) => TailTask(Tail(h, x, i), Tail(h, x, i), Tail(h, x, 2 * i), depth)
    case Mark(e) => if e == EndList then EndTask else if e == Dot then DotTask else CycleTask
  }

  ghost function WorkEvents(h: Heap, k: Work): seq<Event>
    requires WorkOk(h, k)
  {
    match k
    case ShowItem(x, depth) => Events(Unfold(h, x, depth))
    case From(x, i, depth) => ItemEvents(UnfoldFrom(h, x, i, depth))
    case Mark(e) => [e]
  }

  ghost predicate PlanOk(h: Heap, plan: seq<Work>) {
    plan == [] || (WorkOk(h, plan[0]) && PlanOk(h, plan[1..]))
  }

  ghost function Tasks(h: Heap, plan: seq<Work>): seq<Task>
    requires PlanOk(h, plan)
  {
    if plan == [] then [] else [TaskOf(h, plan[0])] + Tasks(h, plan[1..])
  }

  ghost function Owed(h: Heap, plan: seq<Work>): seq<Event>
    requires PlanOk(h, plan)
  {
    if plan == [] then [] else WorkEvents(h, plan[0]) + Owed(h, plan[1..])
  }

  // ----- Every turn of the loop takes something away -----

  function Steps(v: Value): nat
  {
    match v
    case VList(items) => 1 + ItemsSteps(items)
    case _ => 1
  }

  function ItemsSteps(items: Items): nat
  {
    match items
    case Close => 1
    case Dotted(t) => 2 + Steps(t)
    case More(v, rest) => 1 + Steps(v) + ItemsSteps(rest)
  }

  ghost function WorkSteps(h: Heap, k: Work): nat
    requires WorkOk(h, k)
  {
    match k
    case ShowItem(x, depth) => Steps(Unfold(h, x, depth))
    case From(x, i, depth) => ItemsSteps(UnfoldFrom(h, x, i, depth))
    case Mark(_) => 1
  }

  ghost function StepsLeft(h: Heap, plan: seq<Work>): nat
    requires PlanOk(h, plan)
  {
    if plan == [] then 0 else WorkSteps(h, plan[0]) + StepsLeft(h, plan[1..])
  }

  // ----- One task is replaced by others that owe the same -----

  /** `now`, after the events `said`, owes what `k` owed, in fewer steps. */
  ghost predicate Replaces(h: Heap, k: Work, said: seq<Event>, now: seq<Work>)
    requires WorkOk(h, k)
  {
    && PlanOk(h, now)
    && WorkEvents(h, k) == said + Owed(h, now)
    && StepsLeft(h, now) < WorkSteps(h, k)
  }

  lemma {:induction false} PlanJoin(h: Heap, a: seq<Work>, b: seq<Work>)
    requires PlanOk(h, a) && PlanOk(h, b)
    ensures PlanOk(h, a + b) && Tasks(h, a + b) == Tasks(h, a) + Tasks(h, b)
    decreases |a|
  {
    if a == [] {
      assert a + b == b;
    } else {
      assert (a + b)[0] == a[0] && (a + b)[1..] == a[1..] + b;
      PlanJoin(h, a[1..], b);
    }
  }

  lemma {:induction false} OwedJoin(h: Heap, a: seq<Work>, b: seq<Work>)
    requires PlanOk(h, a) && PlanOk(h, b) && PlanOk(h, a + b)
    ensures Owed(h, a + b) == Owed(h, a) + Owed(h, b)
    ensures StepsLeft(h, a + b) == StepsLeft(h, a) + StepsLeft(h, b)
    decreases |a|
  {
    if a == [] {
      assert a + b == b;
    } else {
      assert (a + b)[0] == a[0] && (a + b)[1..] == a[1..] + b;
      OwedJoin(h, a[1..], b);
      Regroup(WorkEvents(h, a[0]), Owed(h, a[1..]), Owed(h, b));
    }
  }

  lemma PlanOf(h: Heap, k: Work, rest: seq<Work>)
    requires WorkOk(h, k) && PlanOk(h, rest)
    ensures PlanOk(h, [k] + rest) && Tasks(h, [k] + rest) == [TaskOf(h, k)] + Tasks(h, rest)
    ensures Owed(h, [k] + rest) == WorkEvents(h, k) + Owed(h, rest)
    ensures StepsLeft(h, [k] + rest) == WorkSteps(h, k) + StepsLeft(h, rest)
  {
    assert ([k] + rest)[1..] == rest;
  }

  lemma MarkPlan(h: Heap, e: Event, rest: seq<Work>)
    requires e in {EndList, Dot, Opaque(Cycle)} && PlanOk(h, rest)
    ensures PlanOk(h, [Mark(e)] + rest) && Tasks(h, [Mark(e)] + rest) == [TaskOf(h, Mark(e))] + Tasks(h, rest)
    ensures Owed(h, [Mark(e)] + rest) == [e] + Owed(h, rest)
    ensures StepsLeft(h, [Mark(e)] + rest) == 1 + StepsLeft(h, rest)
  {
    PlanOf(h, Mark(e), rest);
  }

  lemma CellOpens(h: Heap, x: Obj, depth: nat)
    requires x.Cell? && depth < MAX_LIST_DEPTH
    ensures WorkOk(h, From(x, 0, depth)) && Replaces(h, ShowItem(x, depth), [BeginList], [From(x, 0, depth)])
    ensures Tasks(h, [From(x, 0, depth)]) == [TailTask(x, x, x, depth)]
  {
    assert !Stops(h, x, 0);
    PlanOf(h, From(x, 0, depth), []);
    assert [From(x, 0, depth)] + [] == [From(x, 0, depth)];
    assert Owed(h, [From(x, 0, depth)]) == ItemEvents(UnfoldFrom(h, x, 0, depth)) + [];
  }

  /** One step of the tortoise, two of the hare. */
  lemma Advance(h: Heap, x: Obj, i: nat)
    ensures Tail(h, x, i + 1) == Cdr(h, Tail(h, x, i))
    ensures Tail(h, x, 2 * (i + 1)) == Cdr(h, Cdr(h, Tail(h, x, 2 * i)))
  {
    assert Tail(h, x, 2 * i + 1) == Cdr(h, Tail(h, x, 2 * i));
  }

  /** The tail is a cell: its item comes next, then the rest or the mark of a cycle. */
  lemma TailIsCell(h: Heap, x: Obj, i: nat, depth: nat) returns (now: seq<Work>)
    requires WorkOk(h, From(x, i, depth)) && Tail(h, x, i).Cell?
    ensures var slow, fast := Tail(h, x, i + 1), Tail(h, x, 2 * (i + 1));
            && Replaces(h, From(x, i, depth), [], now)
            && Tasks(h, now) ==
               [ItemTask(Car(h, Tail(h, x, i)), depth + 1)] +
               if slow.Cell? && slow == fast then [DotTask, CycleTask, EndTask]
               else [TailTask(slow, slow, fast, depth)]
  {
    var item, rest := ShowItem(Car(h, Tail(h, x, i)), depth + 1), [From(x, i + 1, depth)];
    if Meets(h, x, i + 1) {
      rest := [Mark(Dot)] + ([Mark(Opaque(Cycle))] + [Mark(EndList)]);
      CycleCloses(h, x, i + 1, depth);
    } else {
      RestAlone(h, From(x, i + 1, depth));
    }
    now := [item] + rest;
    ItemFirst(h, x, i, depth, rest);
  }

  lemma RestAlone(h: Heap, k: Work)
    requires WorkOk(h, k)
    ensures PlanOk(h, [k]) && Tasks(h, [k]) == [TaskOf(h, k)]
    ensures Owed(h, [k]) == WorkEvents(h, k) && StepsLeft(h, [k]) == WorkSteps(h, k)
  {
    PlanOf(h, k, []);
    assert [k] + [] == [k] && [TaskOf(h, k)] + [] == [TaskOf(h, k)];
    assert WorkEvents(h, k) + [] == WorkEvents(h, k);
  }

  lemma ItemFirst(h: Heap, x: Obj, i: nat, depth: nat, rest: seq<Work>)
    requires WorkOk(h, From(x, i, depth)) && i < Shown(h, x) && PlanOk(h, rest)
    requires Owed(h, rest) == ItemEvents(UnfoldFrom(h, x, i + 1, depth))
    requires StepsLeft(h, rest) <= ItemsSteps(UnfoldFrom(h, x, i + 1, depth))
    ensures var item := ShowItem(Car(h, Tail(h, x, i)), depth + 1);
            && Replaces(h, From(x, i, depth), [], [item] + rest)
            && Tasks(h, [item] + rest) == [ItemTask(item.x, item.depth)] + Tasks(h, rest)
  {
    PlanOf(h, ShowItem(Car(h, Tail(h, x, i)), depth + 1), rest);
  }

  lemma CycleCloses(h: Heap, x: Obj, n: nat, depth: nat)
    requires depth < MAX_LIST_DEPTH && n <= Shown(h, x) && Meets(h, x, n)
    ensures var marks := [Mark(Dot)] + ([Mark(Opaque(Cycle))] + [Mark(EndList)]);
            && PlanOk(h, marks) && Tasks(h, marks) == [DotTask, CycleTask, EndTask]
            && Owed(h, marks) == ItemEvents(UnfoldFrom(h, x, n, depth))
            && StepsLeft(h, marks) == ItemsSteps(UnfoldFrom(h, x, n, depth))
  {
    ShownBefore(h, x, n);
    MarkPlan(h, EndList, []);
    assert [Mark(EndList)] + [] == [Mark(EndList)] && [EndList] + [] == [EndList];
    MarkPlan(h, Opaque(Cycle), [Mark(EndList)]);
    MarkPlan(h, Dot, [Mark(Opaque(Cycle))] + [Mark(EndList)]);
    assert UnfoldFrom(h, x, n, depth) == Dotted(VOpaque(Cycle));
  }

  lemma TailIsAtom(h: Heap, x: Obj, i: nat, depth: nat)
    requires WorkOk(h, From(x, i, depth)) && !Tail(h, x, i).Cell? && Tail(h, x, i) != NilObj
    ensures Replaces(h, From(x, i, depth), [Dot], [ShowItem(Tail(h, x, i), depth + 1)] + [Mark(EndList)])
    ensures Tasks(h, [ShowItem(Tail(h, x, i), depth + 1)] + [Mark(EndList)]) ==
            [ItemTask(Tail(h, x, i), depth + 1), EndTask]
  {
    ShownBefore(h, x, i);
    assert UnfoldFrom(h, x, i, depth) == Dotted(Unfold(h, Tail(h, x, i), depth + 1));
    MarkPlan(h, EndList, []);
    assert [Mark(EndList)] + [] == [Mark(EndList)] && [EndList] + [] == [EndList];
    PlanOf(h, ShowItem(Tail(h, x, i), depth + 1), [Mark(EndList)]);
  }

  // ----- The walker -----

  function BeginOf(isString: bool): Event {
    if isString then BeginString else BeginSymbol
  }

  function ChunkOf(isString: bool, part: string): Event {
    if isString then StringChunk(part) else SymbolChunk(part)
  }

  function EndOf(isString: bool): Event {
    if isString then EndString else EndSymbol
  }

  /** The events of a text from one of its pieces on. */
  function TextEvents(isString: bool, text: string): seq<Event> {
    if isString then StringChunks(Chunks(text)) else SymbolChunks(Chunks(text))
  }

  /** Positions count from one. */
  function Substr(text: string, start: nat, length: nat): string
    requires start >= 1
  {
    if start > |text| then ""
    else if start - 1 + length > |text| then text[start - 1..]
    else text[start - 1..start - 1 + length]
  }

  lemma NextPart(isString: bool, text: string, offset: nat)
    requires 1 <= offset
    ensures var part, rest := Substr(text, offset, TEXT_CHUNK), Substr(text, offset, |text|);
            if part == "" then TextEvents(isString, rest) == [EndOf(isString)]
            else
              var more := Substr(text, offset + TEXT_CHUNK, |text|);
              TextEvents(isString, rest) == [ChunkOf(isString, part)] + TextEvents(isString, more)
  {
    var rest := Substr(text, offset, |text|);
    if rest != "" {
      var more := Substr(text, offset + TEXT_CHUNK, |text|);
      assert rest == text[offset - 1..];
      if |rest| > TEXT_CHUNK {
        assert rest[..TEXT_CHUNK] == Substr(text, offset, TEXT_CHUNK) && rest[TEXT_CHUNK..] == more;
        assert ([rest[..TEXT_CHUNK]] + Chunks(more))[1..] == Chunks(more);
      } else {
        assert Substr(text, offset, TEXT_CHUNK) == rest && more == "";
        assert Chunks(rest) == [rest] && [rest][1..] == Chunks(more);
      }
    }
  }

  /** The port is showing a value and has received `es` of it. */
  ghost predicate Showing(p: PortState, blocks: seq<Block>, es: seq<Event>) {
    p.result == Fine && p.open == Some(es) && p.blocks == blocks
  }

  /** The port has shown a complete value. */
  ghost predicate WasShown(p: PortState, blocks: seq<Block>, es: seq<Event>) {
    p.result == Fine && p.open == None && p.blocks == blocks + [ValueText(es)] && OneValue(es)
  }

  /** The port has failed, and unless the output was closed the events in `total` are not a value. */
  ghost predicate Ended(p: PortState, total: seq<Event>) {
    p.result != Fine && (p.result in {OutOfPlace, OverLimit} ==> OnEvents(Fresh, total).Rejected?)
  }

  /** Emits one event of what is to be shown: `done` before it, `rest` after it. */
  method Emit(port: NativeOutputPort, e: Event, ghost done: seq<Event>, ghost rest: seq<Event>,
              ghost blocks: seq<Block>)
    returns (going: bool)
    requires port.Valid() && Showing(port.State(), blocks, done)
    modifies port.Repr()
    ensures port.Valid() && fresh(port.Repr() - old(port.Repr()))
    ensures going ==> Showing(port.State(), blocks, done + [e])
    ensures !going ==> Ended(port.State(), done + ([e] + rest))
  {
    ghost var before := port.State();
    var r := port.Write(PortEvent.Item(e));
    going := r == Fine;
    AfterItem(before, port.lease.Some? && IsOpen(port.io.bridge, port.lease.value), e, port.State(), done, rest,
              blocks);
  }

  lemma AfterItem(p: PortState, leased: bool, e: Event, q: PortState, done: seq<Event>, rest: seq<Event>,
                  blocks: seq<Block>)
    requires Showing(p, blocks, done) && PortStep(p, leased, PortEvent.Item(e), q)
    ensures if q.result == Fine then Showing(q, blocks, done + [e]) else Ended(q, done + ([e] + rest))
  {
    Regroup(done, [e], rest);
    EventsThen(Fresh, done + [e], rest);
  }

  /** Emits a text: its begin, its parts and its end. */
  method EmitText(port: NativeOutputPort, isString: bool, text: string, ghost done: seq<Event>, ghost rest: seq<Event>,
                  ghost blocks: seq<Block>)
    returns (going: bool)
    requires port.Valid() && Showing(port.State(), blocks, done)
    modifies port.Repr()
    ensures port.Valid() && fresh(port.Repr() - old(port.Repr()))
    ensures var all := [BeginOf(isString)] + TextEvents(isString, text);
            && (going ==> Showing(port.State(), blocks, done + all))
            && (!going ==> Ended(port.State(), done + (all + rest)))
  {
    ghost var begin, parts := BeginOf(isString), TextEvents(isString, text);
    Regroup([begin], parts, rest);
    going := Emit(port, BeginOf(isString), done, parts + rest, blocks);
    if !going {
      return;
    }
    Regroup(done, [begin], parts);
    Regroup(done, [begin], parts + rest);
    going := EmitParts(port, isString, text, done + [begin], rest, blocks);
  }

  method EmitParts(port: NativeOutputPort, isString: bool, text: string, ghost done: seq<Event>, ghost rest: seq<Event>,
                   ghost blocks: seq<Block>)
    returns (going: bool)
    requires port.Valid() && Showing(port.State(), blocks, done)
    modifies port.Repr()
    ensures port.Valid() && fresh(port.Repr() - old(port.Repr()))
    ensures going ==> Showing(port.State(), blocks, done + TextEvents(isString, text))
    ensures !going ==> Ended(port.State(), done + (TextEvents(isString, text) + rest))
  {
    ghost var all, sofar, left := TextEvents(isString, text), done, TextEvents(isString, text);
    var offset := 1;
    var part := Substr(text, offset, TEXT_CHUNK);
    assert Substr(text, 1, |text|) == text;
    while part != ""
      invariant offset >= 1 && part == Substr(text, offset, TEXT_CHUNK)
      invariant port.Valid() && fresh(port.Repr() - old(port.Repr()))
      invariant Showing(port.State(), blocks, sofar)
      invariant left == TextEvents(isString, Substr(text, offset, |text|)) && sofar + left == done + all
      decreases |text| + TEXT_CHUNK + 1 - offset
    {
      SameRest(sofar, left, done, all, rest);
      going, left := EmitPart(port, isString, text, offset, part, sofar, left, rest, blocks);
      if !going {
        return;
      }
      sofar := sofar + [ChunkOf(isString, part)];
      offset := offset + TEXT_CHUNK;
      part := Substr(text, offset, TEXT_CHUNK);
    }
    SameRest(sofar, left, done, all, rest);
    going := EmitEnd(port, isString, text, offset, sofar, rest, blocks);
  }

  lemma SameRest(sofar: seq<Event>, left: seq<Event>, done: seq<Event>, all: seq<Event>, rest: seq<Event>)
    requires sofar + left == done + all
    ensures sofar + (left + rest) == done + (all + rest)
  {
    Regroup(sofar, left, rest);
    Regroup(done, all, rest);
  }

  method EmitPart(port: NativeOutputPort, isString: bool, ghost text: string, ghost offset: nat, part: string,
                  ghost sofar: seq<Event>, ghost left: seq<Event>, ghost rest: seq<Event>, ghost blocks: seq<Block>)
    returns (going: bool, ghost after: seq<Event>)
    requires port.Valid() && Showing(port.State(), blocks, sofar)
    requires offset >= 1 && part != "" && part == Substr(text, offset, TEXT_CHUNK)
    requires left == TextEvents(isString, Substr(text, offset, |text|))
    modifies port.Repr()
    ensures port.Valid() && fresh(port.Repr() - old(port.Repr()))
    ensures after == TextEvents(isString, Substr(text, offset + TEXT_CHUNK, |text|))
    ensures sofar + [ChunkOf(isString, part)] + after == sofar + left
    ensures going ==> Showing(port.State(), blocks, sofar + [ChunkOf(isString, part)])
    ensures !going ==> Ended(port.State(), sofar + (left + rest))
  {
    NextPart(isString, text, offset);
    after := TextEvents(isString, Substr(text, offset + TEXT_CHUNK, |text|));
    Regroup(sofar, [ChunkOf(isString, part)], after);
    Regroup([ChunkOf(isString, part)], after, rest);
    going := Emit(port, ChunkOf(isString, part), sofar, after + rest, blocks);
  }

  method EmitEnd(port: NativeOutputPort, isString: bool, ghost text: string, ghost offset: nat,
                 ghost done: seq<Event>, ghost rest: seq<Event>, ghost blocks: seq<Block>)
    returns (going: bool)
    requires port.Valid() && Showing(port.State(), blocks, done)
    requires offset >= 1 && Substr(text, offset, TEXT_CHUNK) == ""
    modifies port.Repr()
    ensures port.Valid() && fresh(port.Repr() - old(port.Repr()))
    ensures var left := TextEvents(isString, Substr(text, offset, |text|));
            && (going ==> Showing(port.State(), blocks, done + left))
            && (!going ==> Ended(port.State(), done + (left + rest)))
  {
    NextPart(isString, text, offset);
    going := Emit(port, EndOf(isString), done, rest, blocks);
  }

  /** Emits an atom, or the mark of a list that is too deep. */
  method EmitAtom(port: NativeOutputPort, value: Obj, ghost h: Heap, ghost depth: nat, ghost done: seq<Event>,
                  ghost rest: seq<Event>, ghost blocks: seq<Block>)
    returns (going: bool)
    requires port.Valid() && Showing(port.State(), blocks, done) && depth <= MAX_LIST_DEPTH
    requires value.Cell? ==> depth == MAX_LIST_DEPTH
    modifies port.Repr()
    ensures port.Valid() && fresh(port.Repr() - old(port.Repr()))
    ensures var all := Events(Unfold(h, value, depth));
            && (going ==> Showing(port.State(), blocks, done + all))
            && (!going ==> Ended(port.State(), done + (all + rest)))
  {
    EventsOfAtom(h, value, depth);
    match value
    case Cell(_) => going := Emit(port, Opaque(TooDeep), done, rest, blocks);
    case Atom(v) => going := Emit(port, AtomEvent(v), done, rest, blocks);
    case Str(text) => going := EmitText(port, true, text, done, rest, blocks);
    case Sym(name) => going := EmitText(port, false, name, done, rest, blocks);
  }

  lemma EventsOfAtom(h: Heap, value: Obj, depth: nat)
    requires depth <= MAX_LIST_DEPTH && (value.Cell? ==> depth == MAX_LIST_DEPTH)
    ensures var all := Events(Unfold(h, value, depth));
            match value
            case Cell(_) => all == [Opaque(TooDeep)]
            case Atom(v) => all == [AtomEvent(v)]
            case Str(text) => all == [BeginOf(true)] + TextEvents(true, text)
            case Sym(name) => all == [BeginOf(false)] + TextEvents(false, name)
  {
  }

  /** After a task: what was said, and the work that then stands before `stack`, replace the task;
      or the port has failed. */
  ghost predicate Emitted(p: PortState, h: Heap, k: Work, going: bool, done: seq<Event>, said: seq<Event>,
                          now: seq<Work>, rest: seq<Event>, blocks: seq<Block>)
    requires WorkOk(h, k)
  {
    if going then Replaces(h, k, said, now) && Showing(p, blocks, done + said)
    else Ended(p, done + (WorkEvents(h, k) + rest))
  }

  method EmitItem(port: NativeOutputPort, h: Heap, value: Obj, depth: nat, stack: seq<Task>, ghost done: seq<Event>,
                  ghost rest: seq<Event>, ghost blocks: seq<Block>)
    returns (going: bool, next: seq<Task>, ghost said: seq<Event>, ghost now: seq<Work>)
    requires port.Valid() && Showing(port.State(), blocks, done) && WorkOk(h, ShowItem(value, depth))
    modifies port.Repr()
    ensures port.Valid() && fresh(port.Repr() - old(port.Repr()))
    ensures Emitted(port.State(), h, ShowItem(value, depth), going, done, said, now, rest, blocks)
    ensures going ==> next == Tasks(h, now) + stack
  {
    if value.Cell? && depth < MAX_LIST_DEPTH {
      going, next, said, now := EmitList(port, h, value, depth, stack, done, rest, blocks);
      return;
    }
    NothingLeft(h, ShowItem(value, depth), stack);
    now, said, next := [], WorkEvents(h, ShowItem(value, depth)), stack;
    going := EmitAtom(port, value, h, depth, done, rest, blocks);
  }

  lemma NothingLeft(h: Heap, k: Work, stack: seq<Task>)
    requires WorkOk(h, k)
    ensures WorkEvents(h, k) + Owed(h, []) == WorkEvents(h, k) && StepsLeft(h, []) == 0
    ensures Tasks(h, []) + stack == stack
  {
  }

  method EmitList(port: NativeOutputPort, h: Heap, value: Obj, depth: nat, stack: seq<Task>,
                  ghost done: seq<Event>, ghost rest: seq<Event>, ghost blocks: seq<Block>)
    returns (going: bool, next: seq<Task>, ghost said: seq<Event>, ghost now: seq<Work>)
    requires port.Valid() && Showing(port.State(), blocks, done)
    requires WorkOk(h, ShowItem(value, depth)) && value.Cell? && depth < MAX_LIST_DEPTH
    modifies port.Repr()
    ensures port.Valid() && fresh(port.Repr() - old(port.Repr()))
    ensures Emitted(port.State(), h, ShowItem(value, depth), going, done, said, now, rest, blocks)
    ensures going ==> next == Tasks(h, now) + stack
  {
    CellOpens(h, value, depth);
    ghost var inside := ItemEvents(UnfoldFrom(h, value, 0, depth));
    Regroup([BeginList], inside, rest);
    going := Emit(port, BeginList, done, inside + rest, blocks);
    next, now, said := stack, [From(value, 0, depth)], [BeginList];
    if going {
      next := [TailTask(value, value, value, depth)] + stack;
    }
  }

  method EmitTail(port: NativeOutputPort, h: Heap, tail: Obj, slow: Obj, fast: Obj, depth: nat, stack: seq<Task>,
                  ghost x: Obj, ghost i: nat, ghost done: seq<Event>, ghost rest: seq<Event>, ghost blocks: seq<Block>)
    returns (going: bool, next: seq<Task>, ghost said: seq<Event>, ghost now: seq<Work>)
    requires port.Valid() && Showing(port.State(), blocks, done) && WorkOk(h, From(x, i, depth))
    requires TailTask(tail, slow, fast, depth) == TaskOf(h, From(x, i, depth))
    modifies port.Repr()
    ensures port.Valid() && fresh(port.Repr() - old(port.Repr()))
    ensures Emitted(port.State(), h, From(x, i, depth), going, done, said, now, rest, blocks)
    ensures going ==> next == Tasks(h, now) + stack
  {
    if tail == NilObj {
      going := Emit(port, EndList, done, rest, blocks);
      TailIsNil(h, x, i, depth);
      next, said, now := stack, [EndList], [];
    } else if tail.Cell? {
      var nextSlow := if slow.Cell? then Cdr(h, slow) else NilObj;
      var nextFast := if fast.Cell? && Cdr(h, fast).Cell? then Cdr(h, Cdr(h, fast)) else NilObj;
      Advance(h, x, i);
      now := TailIsCell(h, x, i, depth);
      said, going := [], true;
      assert done + [] == done;
      if nextSlow.Cell? && nextSlow == nextFast {
        next := [ItemTask(Car(h, tail), depth + 1)] + [DotTask, CycleTask, EndTask] + stack;
      } else {
        next := [ItemTask(Car(h, tail), depth + 1)] + [TailTask(Cdr(h, tail), nextSlow, nextFast, depth)] + stack;
      }
    } else {
      going, next, said, now := EmitDotted(port, h, tail, depth, stack, x, i, done, rest, blocks);
    }
  }

  lemma TailIsNil(h: Heap, x: Obj, i: nat, depth: nat)
    requires WorkOk(h, From(x, i, depth)) && Tail(h, x, i) == NilObj
    ensures Replaces(h, From(x, i, depth), [EndList], []) && WorkEvents(h, From(x, i, depth)) == [EndList]
  {
    ShownBefore(h, x, i);
    assert UnfoldFrom(h, x, i, depth) == Close && [EndList] + Owed(h, []) == [EndList];
  }

  method EmitDotted(port: NativeOutputPort, h: Heap, tail: Obj, depth: nat, stack: seq<Task>,
                    ghost x: Obj, ghost i: nat, ghost done: seq<Event>, ghost rest: seq<Event>,
                    ghost blocks: seq<Block>)
    returns (going: bool, next: seq<Task>, ghost said: seq<Event>, ghost now: seq<Work>)
    requires port.Valid() && Showing(port.State(), blocks, done) && WorkOk(h, From(x, i, depth))
    requires tail == Tail(h, x, i) && !tail.Cell? && tail != NilObj
    modifies port.Repr()
    ensures port.Valid() && fresh(port.Repr() - old(port.Repr()))
    ensures Emitted(port.State(), h, From(x, i, depth), going, done, said, now, rest, blocks)
    ensures going ==> next == Tasks(h, now) + stack
  {
    TailIsAtom(h, x, i, depth);
    said, now := [Dot], [ShowItem(tail, depth + 1)] + [Mark(EndList)];
    ghost var inside := Owed(h, now);
    Regroup([Dot], inside, rest);
    going := Emit(port, Dot, done, inside + rest, blocks);
    next := stack;
    if going {
      next := [ItemTask(tail, depth + 1), EndTask] + stack;
    }
  }

  method EmitTask(port: NativeOutputPort, h: Heap, task: Task, stack: seq<Task>, ghost k: Work, ghost done: seq<Event>,
                  ghost rest: seq<Event>, ghost blocks: seq<Block>)
    returns (going: bool, next: seq<Task>, ghost said: seq<Event>, ghost now: seq<Work>)
    requires port.Valid() && Showing(port.State(), blocks, done) && WorkOk(h, k) && task == TaskOf(h, k)
    modifies port.Repr()
    ensures port.Valid() && fresh(port.Repr() - old(port.Repr()))
    ensures Emitted(port.State(), h, k, going, done, said, now, rest, blocks)
    ensures going ==> next == Tasks(h, now) + stack
  {
    match task
    case ItemTask(value, depth) => going, next, said, now := EmitItem(port, h, value, depth, stack, done, rest, blocks);
    case TailTask(tail, slow, fast, depth) =>
      going, next, said, now := EmitTail(port, h, tail, slow, fast, depth, stack, k.x, k.i, done, rest, blocks);
    case EndTask => going, next, said, now := EmitMark(port, h, EndList, stack, done, rest, blocks);
    case DotTask => going, next, said, now := EmitMark(port, h, Dot, stack, done, rest, blocks);
    case CycleTask => going, next, said, now := EmitMark(port, h, Opaque(Cycle), stack, done, rest, blocks);
  }

  method EmitMark(port: NativeOutputPort, ghost h: Heap, e: Event, stack: seq<Task>, ghost done: seq<Event>,
                  ghost rest: seq<Event>, ghost blocks: seq<Block>)
    returns (going: bool, next: seq<Task>, ghost said: seq<Event>, ghost now: seq<Work>)
    requires port.Valid() && Showing(port.State(), blocks, done) && WorkOk(h, Mark(e))
    modifies port.Repr()
    ensures port.Valid() && fresh(port.Repr() - old(port.Repr()))
    ensures Emitted(port.State(), h, Mark(e), going, done, said, now, rest, blocks)
    ensures going ==> next == Tasks(h, now) + stack
  {
    going := Emit(port, e, done, rest, blocks);
    next, said, now := stack, [e], [];
    assert [e] + Owed(h, []) == [e] && [] + stack == stack;
  }

  /** The loop over the work stack. */
  method Walk(port: NativeOutputPort, h: Heap, value: Obj, ghost blocks: seq<Block>) returns (going: bool)
    requires port.Valid() && Showing(port.State(), blocks, [])
    modifies port.Repr()
    ensures port.Valid() && fresh(port.Repr() - old(port.Repr()))
    ensures going ==> Showing(port.State(), blocks, Events(Unfold(h, value, 0)))
    ensures !going ==> Ended(port.State(), Events(Unfold(h, value, 0)))
  {
    ghost var plan, done, total := [ShowItem(value, 0)], [], Events(Unfold(h, value, 0));
    var stack := [ItemTask(value, 0)];
    going := true;
    assert total + [] == total && [] + total == total;
    while going && stack != []
      invariant port.Valid() && fresh(port.Repr() - old(port.Repr()))
      invariant PlanOk(h, plan)
      invariant going ==> stack == Tasks(h, plan) && Showing(port.State(), blocks, done)
      invariant going ==> done + Owed(h, plan) == total
      invariant !going ==> Ended(port.State(), total)
      decreases going, StepsLeft(h, plan)
    {
      var task := stack[0];
      stack := stack[1..];
      ghost var k, others := plan[0], plan[1..];
      ghost var said, now;
      going, stack, said, now := EmitTask(port, h, task, stack, k, done, Owed(h, others), blocks);
      if going {
        PlanJoin(h, now, others);
        OwedJoin(h, now, others);
        StillOwed(done, said, Owed(h, now), Owed(h, others), total);
        done, plan := done + said, now + others;
      }
    }
    assert done + [] == done;
  }

  lemma StillOwed(done: seq<Event>, said: seq<Event>, now: seq<Event>, others: seq<Event>, total: seq<Event>)
    requires done + (said + now + others) == total
    ensures done + said + (now + others) == total
  {
    assert done + (said + now + others) == done + said + (now + others);
  }

  /** What the printer accepts of an object is one complete value. */
  lemma ObjectIsOneValue(h: Heap, x: Obj, w: char -> nat)
    ensures var v := Unfold(h, x, 0);
            && (OneValue(Events(v)) <==> AtomsPrintable(v))
            && (AtomsPrintable(v) ==>
                  BlockText(w, ValueText(Events(v))) == Layout.Render(w, DocOf(v, 0), false, 0).text + "\n")
  {
    UnfoldPrints(h, x, 0);
    PrintsDocument(w, Unfold(h, x, 0));
  }

  /** Prints one value: on any graph of cells it comes to an end, and if nothing was out of place the
      output has grown by the document of the unfolded value. A value is out of place only because
      of a real or a symbol that has no text. */
  method PrintValue(port: NativeOutputPort, h: Heap, value: Obj)
    requires port.Valid()
    modifies port.Repr()
    ensures port.Valid() && fresh(port.Repr() - old(port.Repr()))
    ensures var v := Unfold(h, value, 0);
            && (port.result == Fine ==>
                  && WasShown(port.State(), old(port.blocks), Events(v))
                  && port.io.output.text == port.base + Written(port.w, old(port.blocks))
                                            + (Layout.Render(port.w, DocOf(v, 0), false, 0).text + "\n"))
            && (MayBegin(old(port.State())) && port.result in {OutOfPlace, OverLimit} ==> !AtomsPrintable(v))
  {
    ghost var v, blocks := Unfold(h, value, 0), port.blocks;
    ObjectIsOneValue(h, value, port.w);
    ShowObject(port, h, value, Events(v));
    WrittenMore(port.w, port.base, blocks, ValueText(Events(v)));
  }

  method ShowObject(port: NativeOutputPort, h: Heap, value: Obj, ghost es: seq<Event>)
    requires port.Valid() && es == Events(Unfold(h, value, 0))
    modifies port.Repr()
    ensures port.Valid() && fresh(port.Repr() - old(port.Repr()))
    ensures port.result == Fine ==> WasShown(port.State(), old(port.blocks), es)
    ensures MayBegin(old(port.State())) && port.result in {OutOfPlace, OverLimit} ==> !OneValue(es)
  {
    ghost var blocks := port.blocks;
    ShowInside(port, h, value, es);
    ShowEnd(port, es, blocks);
  }

  method ShowInside(port: NativeOutputPort, h: Heap, value: Obj, ghost es: seq<Event>)
    requires port.Valid() && es == Events(Unfold(h, value, 0))
    modifies port.Repr()
    ensures port.Valid() && fresh(port.Repr() - old(port.Repr()))
    ensures port.result == Fine ==> Showing(port.State(), old(port.blocks), es)
    ensures MayBegin(old(port.State())) && port.result in {OutOfPlace, OverLimit} ==> OnEvents(Fresh, es).Rejected?
  {
    ghost var blocks := port.blocks;
    var going := ShowBegin(port);
    if going {
      going := Walk(port, h, value, blocks);
    }
  }

  method ShowBegin(port: NativeOutputPort) returns (going: bool)
    requires port.Valid()
    modifies port.Repr()
    ensures port.Valid() && fresh(port.Repr() - old(port.Repr()))
    ensures going ==> Showing(port.State(), old(port.blocks), [])
    ensures !going ==> port.result != Fine
    ensures MayBegin(old(port.State())) ==> port.result !in {OutOfPlace, OverLimit}
  {
    ghost var before := port.State();
    var r := port.Write(PortEvent.BeginValue);
    going := r == Fine;
    AfterBegin(before, port.lease.Some? && IsOpen(port.io.bridge, port.lease.value), port.State());
  }

  lemma AfterBegin(p: PortState, leased: bool, q: PortState)
    requires PortStep(p, leased, PortEvent.BeginValue, q)
    ensures q.result == Fine ==> Showing(q, p.blocks, [])
    ensures MayBegin(p) ==> q.result !in {OutOfPlace, OverLimit}
  {
  }

  method ShowEnd(port: NativeOutputPort, ghost es: seq<Event>, ghost blocks: seq<Block>)
    requires port.Valid() && (port.result == Fine ==> Showing(port.State(), blocks, es))
    modifies port.Repr()
    ensures port.Valid() && fresh(port.Repr() - old(port.Repr()))
    ensures port.result == Fine ==> WasShown(port.State(), blocks, es)
    ensures old(port.result) != Fine ==> port.result == old(port.result)
    ensures old(port.result) == Fine && port.result in {OutOfPlace, OverLimit} ==> !OneValue(es)
  {
    ghost var before := port.State();
    var r := port.Write(PortEvent.EndValue);
    if before.result == Fine {
      AfterEnd(before, port.lease.Some? && IsOpen(port.io.bridge, port.lease.value), port.State(), es, blocks);
    }
  }

  lemma AfterEnd(p: PortState, leased: bool, q: PortState, es: seq<Event>, blocks: seq<Block>)
    requires Showing(p, blocks, es) && PortStep(p, leased, PortEvent.EndValue, q)
    ensures q.result == Fine ==> WasShown(q, blocks, es)
    ensures q.result in {OutOfPlace, OverLimit} ==> !OneValue(es)
  {
  }

  /** A value may be begun. */
  predicate MayBegin(p: PortState) {
    p.result == Fine && p.open == None && (p.mode == EvalValue ==> CountValues(p.blocks) == 0)
  }
}
