/** The output channel: each locked section of a producer, the reader or a third party as one step. */
module Channel {
  import opened Sink
  import opened Utf8

  const OUTPUT_CHUNK_BYTES: nat := 16 * 1024
  const OUTPUT_BUFFER_BYTES: nat := 256 * 1024

  datatype Terminal = Open | WasFinished | WasCancelled | WasStopped | WasDisconnected

  /** What a producer finds. */
  function EmitResultOf(t: Terminal): EmitResult {
    match t
    case Open => Continue
    case WasFinished => Finished
    case WasCancelled => Cancelled
    case WasStopped => Stopped
    case WasDisconnected => Disconnected
  }

  function Rank(t: Terminal): nat {
    match t
    case Open => 0
    case WasFinished => 1
    case WasCancelled => 2
    case WasStopped => 3
    case WasDisconnected => 4
  }

  datatype State = State(ready: seq<seq<byte>>, pending: seq<byte>, queued: nat, terminal: Terminal)

  const Empty: State := State([], [], 0, Open)

  // ----- The locked sections -----

  /** Pending text fills up the last ready chunk; what does not fit becomes the next one. */
  function Publish(s: State): State
  {
    if s.pending == [] then s
    else
      var fit := if s.ready == [] then 0 else PrefixLen(s.pending, Free(s.ready[|s.ready| - 1]));
      var filled :=
        if s.ready == [] then []
        else s.ready[|s.ready| - 1 := s.ready[|s.ready| - 1] + s.pending[..fit]];
      var rest := s.pending[fit..];
      s.(ready := if rest == [] then filled else filled + [rest], pending := [])
  }

  function Free(chunk: seq<byte>): nat {
    if |chunk| < OUTPUT_CHUNK_BYTES then OUTPUT_CHUNK_BYTES - |chunk| else 0
  }

  function BufferSpace(s: State): nat {
    if s.queued < OUTPUT_BUFFER_BYTES then OUTPUT_BUFFER_BYTES - s.queued else 0
  }

  function Room(s: State): nat {
    if Free(s.pending) < BufferSpace(s) then Free(s.pending) else BufferSpace(s)
  }

  /** One section of `emit`: it takes a first part of the text, finds the channel closed, or waits. */
  datatype Section = Took(state: State, count: nat) | Closed(result: EmitResult) | Waits(state: State)

  function TakeText(s: State, text: seq<byte>, count: nat): State
    requires count <= |text|
  {
    var t := s.(pending := s.pending + text[..count], queued := s.queued + count);
    if |t.pending| == OUTPUT_CHUNK_BYTES then Publish(t) else t
  }

  function EmitSection(s: State, text: seq<byte>): (r: Section)
    requires text != []
    ensures r.Took? ==> 0 < r.count <= |text|
    decreases |s.pending|
  {
    if s.terminal != Open then Closed(EmitResultOf(s.terminal))
    else
      var count := PrefixLen(text, Room(s));
      if count != 0 then Took(TakeText(s, text, count), count)
      else if s.pending != [] then EmitSection(Publish(s), text)
      else Waits(s)
  }

  function Flush(s: State): State {
    if s.terminal == Open then Publish(s) else s
  }

  function RequestCancel(s: State): State {
    var t := Publish(s);
    if t.terminal in {WasDisconnected, WasStopped} then t else t.(terminal := WasCancelled)
  }

  function Finish(s: State): State {
    var t := Publish(s);
    if t.terminal == Open then t.(terminal := WasFinished) else t
  }

  function Discard(s: State): State {
    s.(ready := [], pending := [], queued := 0)
  }

  function Stop(s: State): State {
    Discard(if s.terminal == WasDisconnected then s else s.(terminal := WasStopped))
  }

  /** The last producer is gone. */
  function DropProducers(s: State): State {
    if s.terminal == Open then Discard(s.(terminal := WasStopped)) else s
  }

  function Disconnect(s: State): State {
    Discard(s.(terminal := WasDisconnected))
  }

  datatype Popped = Chunk(state: State, chunk: seq<byte>) | NoChunk | Blocks

  function NextChunk(s: State): Popped
  {
    if s.ready != [] then
      Chunk(s.(ready := s.ready[1..], queued := if s.queued >= |s.ready[0]| then s.queued - |s.ready[0]| else 0),
            s.ready[0])
    else if s.terminal != Open then NoChunk
    else Blocks
  }

  // ----- The invariant -----

  function Flat(chunks: seq<seq<byte>>): seq<byte>
  {
    if chunks == [] then [] else Flat(chunks[..|chunks| - 1]) + chunks[|chunks| - 1]
  }

  predicate ChunkOk(chunk: seq<byte>) {
    0 < |chunk| <= OUTPUT_CHUNK_BYTES && Chars(chunk)
  }

  predicate Full(chunk: seq<byte>) {
    |chunk| + 3 >= OUTPUT_CHUNK_BYTES
  }

  /** Chunks are whole characters within their bound, all but the last one almost full. */
  predicate ReadyOk(ready: seq<seq<byte>>) {
    && (forall i | 0 <= i < |ready| :: ChunkOk(ready[i]))
    && (forall i | 0 <= i < |ready| - 1 :: Full(ready[i]))
  }

  predicate Valid(s: State)
  {
    && ReadyOk(s.ready)
    && Chars(s.pending) && |s.pending| < OUTPUT_CHUNK_BYTES
    && s.queued == |Flat(s.ready)| + |s.pending| && s.queued <= OUTPUT_BUFFER_BYTES
    && (s.terminal != Open ==> s.pending == [])
  }

  lemma FlatMore(chunks: seq<seq<byte>>, chunk: seq<byte>)
    ensures Flat(chunks + [chunk]) == Flat(chunks) + chunk
  {
    assert (chunks + [chunk])[..|chunks|] == chunks;
  }

  lemma {:induction false} FlatFirst(chunks: seq<seq<byte>>)
    requires chunks != []
    ensures Flat(chunks) == chunks[0] + Flat(chunks[1..])
  {
    var n := |chunks| - 1;
    if n == 0 {
      assert chunks[..0] == [] && chunks[1..] == [];
      assert chunks[0] + [] == chunks[0] && [] + chunks[0] == chunks[0];
    } else {
      FlatFirst(chunks[..n]);
      assert chunks[..n][1..] == chunks[1..][..n - 1];
      assert chunks[0] + (Flat(chunks[1..][..n - 1]) + chunks[n]) == chunks[0] + Flat(chunks[1..][..n - 1]) + chunks[n];
    }
  }

  lemma FlatFill(chunks: seq<seq<byte>>, more: seq<byte>)
    requires chunks != []
    ensures var n := |chunks| - 1; Flat(chunks[n := chunks[n] + more]) == Flat(chunks) + more
  {
    var n := |chunks| - 1;
    assert chunks[n := chunks[n] + more][..n] == chunks[..n];
    assert Flat(chunks[..n]) + (chunks[n] + more) == Flat(chunks[..n]) + chunks[n] + more;
  }

  /** Pending text within bounds; it may just have become a full chunk. */
  predicate Publishable(s: State)
  {
    && ReadyOk(s.ready)
    && Chars(s.pending) && |s.pending| <= OUTPUT_CHUNK_BYTES
    && s.queued == |Flat(s.ready)| + |s.pending| && s.queued <= OUTPUT_BUFFER_BYTES
  }

  lemma PublishKeeps(s: State)
    requires Publishable(s)
    ensures var t := Publish(s);
            && Valid(t) && t.pending == [] && t.queued == s.queued && t.terminal == s.terminal
            && Flat(t.ready) == Flat(s.ready) + s.pending && |t.ready| >= |s.ready|
  {
    if s.pending == [] {
      assert Flat(s.ready) + [] == Flat(s.ready);
    } else if s.ready == [] {
      FlatMore([], s.pending);
      assert [] + [s.pending[0..]] == [s.pending] && s.pending[0..] == s.pending;
      assert [] + s.pending == s.pending;
    } else {
      PublishFills(s);
    }
  }

  lemma ReadyFilled(ready: seq<seq<byte>>, more: seq<byte>)
    requires ReadyOk(ready) && ready != []
    requires var n := |ready| - 1; Chars(more) && |ready[n]| + |more| <= OUTPUT_CHUNK_BYTES
    ensures var n := |ready| - 1; ReadyOk(ready[n := ready[n] + more])
  {
    CharsConcat(ready[|ready| - 1], more);
  }

  lemma ReadyMore(ready: seq<seq<byte>>, chunk: seq<byte>)
    requires ReadyOk(ready) && (ready != [] ==> Full(ready[|ready| - 1])) && ChunkOk(chunk)
    ensures ReadyOk(ready + [chunk])
  {
  }

  lemma PublishFills(s: State)
    requires Publishable(s) && s.pending != [] && s.ready != []
    ensures var t := Publish(s);
            && ReadyOk(t.ready) && Flat(t.ready) == Flat(s.ready) + s.pending && |t.ready| >= |s.ready|
  {
    var n := |s.ready| - 1;
    var fit := PrefixLen(s.pending, Free(s.ready[n]));
    var first, rest := s.pending[..fit], s.pending[fit..];
    CutChars(s.pending, fit);
    PrefixIsLong(s.pending, Free(s.ready[n]));
    ReadyFilled(s.ready, first);
    var filled := s.ready[n := s.ready[n] + first];
    FlatFill(s.ready, first);
    Rejoin(Flat(s.ready), s.pending, fit);
    if rest != [] {
      FlatMore(filled, rest);
      ReadyMore(filled, rest);
    }
  }

  lemma Rejoin(a: seq<byte>, b: seq<byte>, k: nat)
    requires k <= |b|
    ensures a + b[..k] + b[k..] == a + b && (b[k..] == [] ==> b[..k] == b)
  {
  }

  // ----- What one section of a producer does -----

  /** The next character has no room in the buffer, however the pending text is cut. */
  predicate NoRoom(s: State, text: seq<byte>)
    requires text != []
  {
    s.terminal == Open && BufferSpace(s) < LeadLen(text[0])
  }

  /** It takes a nonempty part of the text that ends between characters, and appends it; or it finds
      the channel closed and changes nothing; or it waits, and then there is a chunk for the reader. */
  lemma {:induction false} SectionKeeps(s: State, text: seq<byte>)
    requires Valid(s) && Chars(text) && text != []
    ensures match EmitSection(s, text)
            case Took(t, count) =>
              && s.terminal == Open && Valid(t) && t.terminal == Open
              && Boundary(text, count) && Chars(text[count..])
              && Flat(t.ready) + t.pending == Flat(s.ready) + s.pending + text[..count]
            case Closed(r) => s.terminal != Open && r == EmitResultOf(s.terminal)
            case Waits(t) =>
              && Valid(t) && NoRoom(s, text) && NoRoom(t, text) && t.pending == [] && t.ready != []
                   && t.queued == s.queued
              && Flat(t.ready) + t.pending == Flat(s.ready) + s.pending
    decreases |s.pending|
  {
    if s.terminal == Open {
      var count := PrefixLen(text, Room(s));
      PrefixIsLong(text, Room(s));
      if count != 0 {
        TakeKeeps(s, text, count);
      } else if s.pending != [] {
        var t := Publish(s);
        PublishKeeps(s);
        SectionKeeps(t, text);
        assert Flat(t.ready) + t.pending == Flat(s.ready) + s.pending;
      } else {
        assert s.ready != [] by {
          assert s.queued + 3 >= OUTPUT_BUFFER_BYTES;
        }
      }
    }
  }

  lemma TakeKeeps(s: State, text: seq<byte>, count: nat)
    requires Valid(s) && s.terminal == Open && Chars(text) && 0 < count <= |text| && Boundary(text, count)
             && count <= Room(s)
    ensures var t := TakeText(s, text, count);
            && Valid(t) && t.terminal == Open && Chars(text[count..])
            && Flat(t.ready) + t.pending == Flat(s.ready) + s.pending + text[..count]
  {
    CutChars(text, count);
    CharsConcat(s.pending, text[..count]);
    var t := s.(pending := s.pending + text[..count], queued := s.queued + count);
    assert Flat(s.ready) + (s.pending + text[..count]) == Flat(s.ready) + s.pending + text[..count];
    PublishKeeps(t);
    assert Flat(Publish(t).ready) + [] == Flat(Publish(t).ready);
  }

  /** Once the reader has taken a chunk, a producer that had to wait has room. */
  lemma PopUnblocks(s: State, text: seq<byte>)
    requires Valid(s) && Chars(text) && text != [] && EmitSection(s, text).Waits?
    ensures var t := EmitSection(s, text).state;
            NextChunk(t).Chunk? && !NoRoom(NextChunk(t).state, text) && EmitSection(NextChunk(t).state, text).Took?
  {
    SectionKeeps(s, text);
    var t := EmitSection(s, text).state;
    FlatFirst(t.ready);
    PopKeeps(t);
    var p := NextChunk(t).state;
    assert Full(t.ready[0]) && BufferSpace(p) >= 4;
    PrefixIsLong(text, Room(p));
  }

  lemma PopKeeps(s: State)
    requires Valid(s) && NextChunk(s).Chunk?
    ensures var p := NextChunk(s);
            && Valid(p.state) && p.state.terminal == s.terminal && ChunkOk(p.chunk)
            && Flat(s.ready) == p.chunk + Flat(p.state.ready) && p.state.queued == s.queued - |p.chunk|
  {
    FlatFirst(s.ready);
  }

  // ----- Runs of sections by anyone in any order -----

  datatype Op =
    | Emits(text: seq<byte>)
    | Flushes
    | Cancels
    | Finishes
    | Stops
    | ProducersGone
    | Reads
    | ReaderGone

  function Apply(s: State, op: Op): State
  {
    match op
    case Emits(text) =>
      if text == [] then s
      else
        (match EmitSection(s, text)
         case Took(t, _) => t
         case Closed(_) => s
         case Waits(t) => t)
    case Flushes => Flush(s)
    case Cancels => RequestCancel(s)
    case Finishes => Finish(s)
    case Stops => Stop(s)
    case ProducersGone => DropProducers(s)
    case Reads => if NextChunk(s).Chunk? then NextChunk(s).state else s
    case ReaderGone => Disconnect(s)
  }

  /** What the operations have accepted, delivered and thrown away. */
  datatype History = History(state: State, accepted: seq<byte>, delivered: seq<byte>, discarded: bool)

  const Beginning: History := History(Empty, [], [], false)

  predicate Discards(s: State, op: Op) {
    op.Stops? || op.ReaderGone? || (op.ProducersGone? && s.terminal == Open)
  }

  function Record(h: History, op: Op): History
  {
    var s := h.state;
    History(
      Apply(s, op),
      if op.Emits? && op.text != [] && EmitSection(s, op.text).Took?
        then h.accepted + op.text[..EmitSection(s, op.text).count] else h.accepted,
      if op.Reads? && NextChunk(s).Chunk? then h.delivered + NextChunk(s).chunk else h.delivered,
      h.discarded || Discards(s, op))
  }

  predicate Conserved(h: History)
  {
    && Valid(h.state) && Chars(h.accepted) && Chars(h.delivered)
    && (!h.discarded ==> h.delivered + Flat(h.state.ready) + h.state.pending == h.accepted)
    && (h.discarded ==>
          h.state.ready == [] && h.state.pending == [] && h.delivered <= h.accepted && h.state.terminal != Open)
  }

  predicate OpOk(op: Op) {
    op.Emits? ==> Chars(op.text)
  }

  lemma EmitConserves(h: History, text: seq<byte>)
    requires Conserved(h) && Chars(text)
    ensures Conserved(Record(h, Emits(text)))
  {
    if text != [] {
      var s, r := h.state, EmitSection(h.state, text);
      SectionKeeps(s, text);
      if r.Took? {
        CutChars(text, r.count);
        CharsConcat(h.accepted, text[..r.count]);
        Follow4(h.delivered, Flat(s.ready), s.pending, text[..r.count], Flat(r.state.ready), r.state.pending);
      } else if r.Waits? {
        Follow4(h.delivered, Flat(s.ready), s.pending, [], Flat(r.state.ready), r.state.pending);
      }
    }
  }

  lemma Follow4(d: seq<byte>, a: seq<byte>, b: seq<byte>, more: seq<byte>, a': seq<byte>, b': seq<byte>)
    requires a' + b' == a + b + more
    ensures d + a' + b' == d + a + b + more
  {
    assert d + (a' + b') == d + a' + b';
    assert d + (a + b + more) == d + a + b + more;
  }

  lemma ReadConserves(h: History)
    requires Conserved(h)
    ensures Conserved(Record(h, Reads))
  {
    if NextChunk(h.state).Chunk? {
      var p := NextChunk(h.state);
      PopKeeps(h.state);
      CharsConcat(h.delivered, p.chunk);
      assert h.delivered + (p.chunk + Flat(p.state.ready)) == h.delivered + p.chunk + Flat(p.state.ready);
    }
  }

  lemma DiscardConserves(h: History, op: Op)
    requires Conserved(h) && Discards(h.state, op)
    ensures Conserved(Record(h, op))
  {
    assert h.delivered <= h.delivered + Flat(h.state.ready) + h.state.pending;
  }

  lemma PublishConserves(h: History, t: State)
    requires Conserved(h) && t == Publish(h.state).(terminal := t.terminal)
    requires h.discarded ==> t.terminal != Open
    ensures Conserved(h.(state := t))
  {
    var s := h.state;
    PublishKeeps(s);
    Follow4(h.delivered, Flat(s.ready), s.pending, [], Flat(t.ready), []);
  }

  lemma ClosingConserves(h: History, op: Op)
    requires Conserved(h) && !op.Emits? && !op.Reads?
    ensures Conserved(Record(h, op))
  {
    if Discards(h.state, op) {
      DiscardConserves(h, op);
    } else if !op.ProducersGone? && !(op.Flushes? && h.state.terminal != Open) {
      PublishConserves(h, Apply(h.state, op));
    }
  }

  lemma OpConserves(h: History, op: Op)
    requires Conserved(h) && OpOk(op)
    ensures Conserved(Record(h, op)) && Rank(Record(h, op).state.terminal) >= Rank(h.state.terminal)
  {
    match op
    case Emits(text) =>
      EmitConserves(h, text);
      if text != [] {
        SectionKeeps(h.state, text);
      }
    case Reads => ReadConserves(h);
    case _ => ClosingConserves(h, op);
  }

  function Replay(h: History, ops: seq<Op>): History
    decreases |ops|
  {
    if ops == [] then h else Replay(Record(h, ops[0]), ops[1..])
  }

  /** In every run the reader receives what was accepted, whole and in order, except what a stop or a
      disconnection throws away; the bounds hold; and the channel never becomes less closed. */
  lemma {:induction false} RunConserves(h: History, ops: seq<Op>)
    requires Conserved(h) && forall op | op in ops :: OpOk(op)
    ensures Conserved(Replay(h, ops)) && Rank(Replay(h, ops).state.terminal) >= Rank(h.state.terminal)
    decreases |ops|
  {
    if ops != [] {
      assert ops[0] in ops;
      OpConserves(h, ops[0]);
      RunConserves(Record(h, ops[0]), ops[1..]);
    }
  }

  // ----- Nobody sleeps through what they wait for -----

  predicate SpaceNotified(s: State, op: Op) {
    op.Cancels? || op.Finishes? || op.Stops? || op.ReaderGone?
    || (op.ProducersGone? && s.terminal == Open) || (op.Reads? && NextChunk(s).Chunk?)
  }

  /** A producer for which there is no room finds room, or the channel closed, only after a section
      that wakes it. */
  lemma NoLostSpace(s: State, op: Op, text: seq<byte>)
    requires Valid(s) && OpOk(op) && Chars(text) && text != [] && NoRoom(s, text)
    ensures NoRoom(Apply(s, op), text) || SpaceNotified(s, op)
  {
    if op.Emits? && op.text != [] {
      SectionKeeps(s, op.text);
    } else if op.Flushes? {
      PublishKeeps(s);
    }
  }

  /** Whether a section wakes the reader. */
  function DataNotified(s: State, op: Op): bool
  {
    match op
    case Emits(text) => text != [] && Publishes(s, text)
    case Reads => false
    case ProducersGone => s.terminal == Open
    case _ => true
  }

  predicate Publishes(s: State, text: seq<byte>)
    requires text != []
  {
    && s.terminal == Open
    && var count := PrefixLen(text, Room(s));
       if count == 0 then s.pending != [] else |s.pending| + count == OUTPUT_CHUNK_BYTES
  }

  /** A reader that has to wait finds a chunk, or the channel closed, only after a section that wakes
      it. */
  lemma NoLostData(s: State, op: Op)
    requires Valid(s) && OpOk(op) && NextChunk(s) == Blocks
    ensures NextChunk(Apply(s, op)) == Blocks || DataNotified(s, op)
  {
    if op.Emits? && op.text != [] && !Publishes(s, op.text) {
      PrefixIsLong(op.text, Room(s));
    }
  }
}
