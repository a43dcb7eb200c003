/** The output channel as the object that producers and the reader share. */
module ChannelMachine {
  import opened Text
  import opened Sink
  import opened Utf8
  import opened Channel

  class OutputChannel {
    var ready: seq<seq<byte>>
    var pending: seq<byte>
    var queuedBytes: nat
    var terminal: Terminal
    ghost var accepted: seq<byte>
    ghost var delivered: seq<byte>
    ghost var discarded: bool

    ghost function Now(): State
      reads this
    {
      State(ready, pending, queuedBytes, terminal)
    }

    ghost function Past(): History
      reads this
    {
      History(Now(), accepted, delivered, discarded)
    }

    ghost predicate Ok()
      reads this
    {
      Conserved(Past())
    }

    constructor ()
      ensures Ok() && Past() == Beginning
    {
      ready, pending, queuedBytes, terminal := [], [], 0, Open;
      accepted, delivered, discarded := [], [], false;
    }

    method PublishPending()
      modifies this`ready, this`pending
      ensures Now() == Publish(old(Now()))
    {
      if pending == [] {
        return;
      }
      if ready != [] {
        var back := |ready| - 1;
        var room := if |ready[back]| < OUTPUT_CHUNK_BYTES then OUTPUT_CHUNK_BYTES - |ready[back]| else 0;
        var count := FindPrefix(pending, room);
        ready := ready[back := ready[back] + pending[..count]];
        pending := pending[count..];
      }
      assert old(pending)[0..] == old(pending);
      if pending != [] {
        ready := ready + [pending];
        pending := [];
      }
    }

    /** One locked section of `Emit`. */
    method EmitPart(text: seq<byte>) returns (r: Section)
      requires Ok() && Chars(text) && text != []
      modifies this
      ensures Ok() && r == EmitSection(old(Now()), text) && Past() == Record(old(Past()), Emits(text))
    {
      EmitConserves(Past(), text);
      r := TakePart(text);
      if r.Took? {
        accepted := accepted + text[..r.count];
      }
    }

    /** What one locked section leaves to its producer. */
    method RunSection(text: seq<byte>) returns (r: Section)
      requires Ok() && Chars(text) && text != []
      modifies this
      ensures Ok()
      ensures match r
              case Took(_, count) =>
                && 0 < count <= |text| && Chars(text[count..]) && accepted == old(accepted) + text[..count]
              case Closed(result) => terminal != Open && result == EmitResultOf(terminal) && accepted == old(accepted)
              case Waits(_) => NoRoom(Now(), text) && ready != [] && accepted == old(accepted)
    {
      SectionKeeps(Now(), text);
      r := EmitPart(text);
    }

    method TakePart(text: seq<byte>) returns (r: Section)
      requires |pending| <= OUTPUT_CHUNK_BYTES && queuedBytes <= OUTPUT_BUFFER_BYTES && text != []
      modifies this`ready, this`pending, this`queuedBytes
      ensures r == EmitSection(old(Now()), text)
      ensures Now() == if r.Closed? then old(Now()) else r.state
    {
      ghost var goal := EmitSection(Now(), text);
      if terminal != Open {
        return Closed(EmitResultOf(terminal));
      }
      while true
        invariant EmitSection(Now(), text) == goal && terminal == Open
        invariant |pending| <= OUTPUT_CHUNK_BYTES && queuedBytes <= OUTPUT_BUFFER_BYTES
        decreases |pending|
      {
        var room := OUTPUT_CHUNK_BYTES - |pending|;
        if OUTPUT_BUFFER_BYTES - queuedBytes < room {
          room := OUTPUT_BUFFER_BYTES - queuedBytes;
        }
        assert room == Room(Now());
        var count := FindPrefix(text, room);
        if count != 0 {
          pending := pending + text[..count];
          queuedBytes := queuedBytes + count;
          if |pending| == OUTPUT_CHUNK_BYTES {
            PublishPending();
          }
          return Took(State(ready, pending, queuedBytes, terminal), count);
        }
        if pending == [] {
          return Waits(State(ready, pending, queuedBytes, terminal));
        }
        PublishPending();
      }
    }

    method FlushAll() returns (r: EmitResult)
      requires Ok()
      modifies this
      ensures Ok() && r == EmitResultOf(old(terminal)) && Past() == Record(old(Past()), Flushes)
    {
      OpConserves(Past(), Flushes);
      r := EmitResultOf(terminal);
      if r == Continue {
        PublishPending();
      }
    }

    method Cancel()
      requires Ok()
      modifies this
      ensures Ok() && Past() == Record(old(Past()), Cancels)
    {
      OpConserves(Past(), Cancels);
      PublishPending();
      if terminal !in {WasDisconnected, WasStopped} {
        terminal := WasCancelled;
      }
    }

    method FinishAll()
      requires Ok()
      modifies this
      ensures Ok() && Past() == Record(old(Past()), Finishes)
    {
      OpConserves(Past(), Finishes);
      PublishPending();
      if terminal == Open {
        terminal := WasFinished;
      }
    }

    method StopAll()
      requires Ok()
      modifies this
      ensures Ok() && Past() == Record(old(Past()), Stops)
    {
      OpConserves(Past(), Stops);
      if terminal != WasDisconnected {
        terminal := WasStopped;
      }
      ready, pending, queuedBytes := [], [], 0;
      discarded := true;
    }

    method DropLastProducer()
      requires Ok()
      modifies this
      ensures Ok() && Past() == Record(old(Past()), ProducersGone)
    {
      OpConserves(Past(), ProducersGone);
      if terminal != Open {
        return;
      }
      terminal := WasStopped;
      ready, pending, queuedBytes := [], [], 0;
      discarded := true;
    }

    method Pop() returns (r: Popped)
      requires Ok()
      modifies this
      ensures Ok() && r == NextChunk(old(Now())) && Past() == Record(old(Past()), Reads)
    {
      OpConserves(Past(), Reads);
      if ready != [] {
        PopKeeps(Now());
        var chunk := ready[0];
        ready := ready[1..];
        queuedBytes := queuedBytes - |chunk|;
        delivered := delivered + chunk;
        return Chunk(State(ready, pending, queuedBytes, terminal), chunk);
      }
      return if terminal != Open then NoChunk else Blocks;
    }

    method DisconnectReader()
      requires Ok()
      modifies this
      ensures Ok() && Past() == Record(old(Past()), ReaderGone)
    {
      OpConserves(Past(), ReaderGone);
      terminal := WasDisconnected;
      ready, pending, queuedBytes := [], [], 0;
      discarded := true;
    }

    method Act(op: Op)
      requires Ok() && OpOk(op)
      modifies this
      ensures Ok() && Past() == Record(old(Past()), op)
    {
      match op {
        case Emits(text) =>
          if text != [] {
            var _ := EmitPart(text);
          }
        case Flushes => var _ := FlushAll();
        case Cancels => Cancel();
        case Finishes => FinishAll();
        case Stops => StopAll();
        case ProducersGone => DropLastProducer();
        case Reads => var _ := Pop();
        case ReaderGone => DisconnectReader();
      }
    }

    /** What others do while the lock is free. */
    method Others(ops: seq<Op>)
      requires Ok() && forall op | op in ops :: OpOk(op)
      modifies this
      ensures Ok() && Past() == Replay(old(Past()), ops)
    {
      ghost var h := Past();
      var left := ops;
      while left != []
        invariant Ok() && Replay(Past(), left) == Replay(h, ops) && forall op | op in left :: OpOk(op)
        decreases |left|
      {
        assert left[0] in left;
        Act(left[0]);
        left := left[1..];
      }
    }

    /** The lock is let go: the first of `turns` happens. */
    method LetOthers(turns: seq<seq<Op>>) returns (rest: seq<seq<Op>>)
      requires Ok() && OthersOk(turns)
      modifies this
      ensures Ok() && OthersOk(rest) && (turns == [] ==> rest == []) && (turns != [] ==> |rest| < |turns|)
      ensures NoProducers(turns) ==> NoProducers(rest) && accepted == old(accepted)
    {
      rest := turns;
      if turns != [] {
        Unaccepting(Past(), turns[0]);
        Others(turns[0]);
        rest := turns[1..];
      }
    }

    /** Writes all of a text, in as many parts as the channel has room for; `others` is what happens
        each time the lock is let go. Returns nothing if it is still waiting when they have all acted. */
    method Emit(text: seq<byte>, others: seq<seq<Op>>) returns (r: Option<EmitResult>, ghost mine: seq<byte>)
      requires Ok() && Chars(text) && OthersOk(others)
      modifies this
      ensures Ok() && mine <= text && Chars(text[|mine|..])
      ensures r == Some(Continue) ==> mine == text
      ensures NoProducers(others) ==> accepted == old(accepted) + mine
      ensures r.Some? && r.value != Continue ==> terminal != Open && r.value == EmitResultOf(terminal)
      ensures r == None ==> mine != text && NoRoom(Now(), text[|mine|..]) && ready != []
    {
      mine := [];
      assert text[0..] == text && accepted + [] == accepted;
      if text == [] {
        return Some(EmitResultOf(terminal)), [];
      }
      var left, turns := text, others;
      while left != []
        invariant Ok() && OthersOk(turns) && (NoProducers(others) ==> NoProducers(turns))
        invariant mine <= text && left == text[|mine|..] && Chars(left)
        invariant NoProducers(others) ==> accepted == old(accepted) + mine
        decreases |turns| + |left|
      {
        var part := RunSection(left);
        match part {
          case Closed(result) => return Some(result), mine;
          case Took(_, count) =>
            Rejoins(text, mine, count, old(accepted));
            mine := mine + left[..count];
            left := left[count..];
          case Waits(_) =>
            if turns == [] {
              return None, mine;
            }
        }
        turns := LetOthers(turns);
      }
      return Some(Continue), mine;
    }
  }

  /** The longest prefix of whole characters within the limit, found from its end. */
  method FindPrefix(t: seq<byte>, limit: nat) returns (n: nat)
    ensures n == PrefixLen(t, limit)
  {
    n := if limit < |t| then limit else |t|;
    while n != 0 && !Boundary(t, n)
      invariant n <= |t| && PrefixLen(t, n) == PrefixLen(t, limit)
    {
      n := n - 1;
    }
  }

  predicate OthersOk(others: seq<seq<Op>>) {
    others == [] || ((forall op | op in others[0] :: OpOk(op)) && OthersOk(others[1..]))
  }

  predicate NoProducers(others: seq<seq<Op>>) {
    others == [] || ((forall op | op in others[0] :: !op.Emits?) && NoProducers(others[1..]))
  }

  lemma {:induction false} Unaccepting(h: History, ops: seq<Op>)
    ensures (forall op | op in ops :: !op.Emits?) ==> Replay(h, ops).accepted == h.accepted
    decreases |ops|
  {
    if (forall op | op in ops :: !op.Emits?) && ops != [] {
      assert ops[0] in ops;
      Unaccepting(Record(h, ops[0]), ops[1..]);
    }
  }

  lemma Rejoins(text: seq<byte>, mine: seq<byte>, count: nat, before: seq<byte>)
    requires mine <= text && count <= |text| - |mine|
    ensures var left := text[|mine|..];
            && mine + left[..count] <= text && text[|mine + left[..count]|..] == left[count..]
            && before + mine + left[..count] == before + (mine + left[..count])
  {
  }

  /** Read as text, what a lone producer's `Emit` did is what the producer's view of the channel
      promises: the text before has grown by a prefix of the new text, or by all of it. */
  lemma EmitIsSink(before: string, s: string, mine: seq<byte>, r: EmitResult) returns (after: string)
    requires mine <= EncodeText(s) && Chars(EncodeText(s)[|mine|..]) && (r == Continue ==> mine == EncodeText(s))
    ensures EncodeText(after) == EncodeText(before) + mine && Accepts(before, s, after, r)
  {
    var t := EncodeText(s);
    assert Boundary(t, |mine|) by {
      if |mine| < |t| {
        assert t[|mine|] == t[|mine|..][0];
      }
    }
    var j := CutText(s, |mine|);
    assert t[..|mine|] == mine;
    if r == Continue {
      j := |s|;
    }
    assert s[..|s|] == s;
    after := before + s[..j];
    EncodeConcat(before, s[..j]);
  }
}
