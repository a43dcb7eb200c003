/** The epoch of an evaluation's value: every order in which the bridge and its port may be used. */
module EvalEpoch {
  import opened Text
  import opened Sink
  import opened ValueBridge
  import opened OutputPort

  /** The port while it lives, and as it was when it was finished or dropped. */
  datatype Epoch = Epoch(bridge: Bridge, port: Option<PortState>, ended: Option<PortState>)

  ghost predicate AcquiresPort(s: Epoch, t: Epoch)
  {
    && Grants(s.bridge, EvalValue) && t.bridge == Acquire(s.bridge, EvalValue) && t.ended == s.ended
    && exists found: EmitResult :: t.port == Some(PortState(EvalValue, None, [], Emitted(found)))
  }

  /** Any other attempt to acquire, and any release by a lease of another epoch. */
  ghost predicate OthersAct(s: Epoch, t: Epoch)
  {
    && t.port == s.port && t.ended == s.ended
    && (|| (exists kind :: !Grants(s.bridge, kind) && t.bridge == Acquire(s.bridge, kind))
        || (exists lease: Lease, failure ::
              lease.generation != s.bridge.generation && t.bridge == Release(s.bridge, lease, failure)))
  }

  function OwnLease(b: Bridge): Lease {
    Lease(b.generation, EvalValue)
  }

  ghost predicate PortWrites(s: Epoch, t: Epoch)
  {
    && s.port.Some? && t.port.Some? && t.bridge == s.bridge && t.ended == s.ended
    && exists e :: PortStep(s.port.value, IsOpen(s.bridge, OwnLease(s.bridge)), e, t.port.value)
  }

  predicate PortEnds(s: Epoch, t: Epoch)
  {
    && s.port.Some? && t.port == None && t.ended == s.port
    && t.bridge in {Release(s.bridge, OwnLease(s.bridge), CompletionFailure(s.port.value)),
                    Release(s.bridge, OwnLease(s.bridge), Some(Abandoned))}
  }

  ghost predicate Next(s: Epoch, t: Epoch)
  {
    AcquiresPort(s, t) || OthersAct(s, t) || PortWrites(s, t) || PortEnds(s, t)
  }

  ghost predicate IsRun(run: seq<Epoch>)
  {
    && run != []
    && (exists b :: run[0] == Epoch(Begin(b, EvalValue), None, None))
    && forall i | 0 <= i < |run| - 1 :: Next(run[i], run[i + 1])
  }

  predicate CompleteBlock(b: Block) {
    b.ValueText? && OneValue(b.events)
  }

  predicate PortOk(p: PortState)
  {
    && p.mode == EvalValue
    && (p.blocks == [] || (|p.blocks| == 1 && CompleteBlock(p.blocks[0]) && p.open.None?))
  }

  predicate Kept(s: Epoch)
  {
    && s.bridge.openKind == Some(EvalValue)
    && (s.port.None? && s.ended.None? ==> !s.bridge.claimed && !s.bridge.active)
    && (s.port.Some? ==>
          && s.bridge.claimed && s.bridge.active && s.ended.None? && PortOk(s.port.value)
          && (s.port.value.result == Inactive ==> s.bridge.failure.Some?))
    && (s.ended.Some? ==>
          && s.port.None? && s.bridge.claimed && !s.bridge.active && PortOk(s.ended.value)
          && (s.bridge.failure.None? ==> CompletionFailure(s.ended.value).None? && s.ended.value.result != Inactive))
  }

  lemma PortKeeps(p: PortState, leased: bool, e: PortEvent, q: PortState)
    requires PortOk(p) && PortStep(p, leased, e, q)
    ensures PortOk(q) && (leased && p.result != Inactive ==> q.result != Inactive)
  {
    if p.blocks == [] {
      var b := ValueText(if p.open.Some? then p.open.value else []);
      assert [] + [b] == [b];
    } else {
      assert CountValues(p.blocks[1..]) == 0;
    }
  }

  lemma NextKeeps(s: Epoch, t: Epoch)
    requires Kept(s) && Next(s, t)
    ensures Kept(t)
  {
    if PortWrites(s, t) {
      var leased := IsOpen(s.bridge, OwnLease(s.bridge));
      var e :| PortStep(s.port.value, leased, e, t.port.value);
      PortKeeps(s.port.value, leased, e, t.port.value);
    }
  }

  lemma {:induction false} RunKeeps(run: seq<Epoch>, i: nat)
    requires IsRun(run) && i < |run|
    ensures Kept(run[i])
  {
    if i > 0 {
      RunKeeps(run, i - 1);
      NextKeeps(run[i - 1], run[i]);
    }
  }

  /** The port was finished, and either exactly one complete value was written, or the reader had gone,
      or output had been stopped. */
  ghost predicate WroteOneValue(s: Epoch)
  {
    && s.ended.Some?
    && var p := s.ended.value;
       || p.result in {Emitted(Disconnected), Emitted(Stopped)}
       || (p.result == Fine && p.open == None && exists es :: OneValue(es) && p.blocks == [ValueText(es)])
  }

  lemma CleanWroteOneValue(s: Epoch)
    requires Kept(s) && CloseFailure(s.bridge, EvalValue) == None
    ensures WroteOneValue(s)
  {
    var p := s.ended.value;
    if p.result == Fine {
      assert p.blocks != [];
      assert OneValue(p.blocks[0].events) && p.blocks == [ValueText(p.blocks[0].events)];
    }
  }

  /** Whatever was done in the epoch, closing it reports no failure only if one value was written. */
  lemma CleanCloseWroteOneValue(run: seq<Epoch>)
    requires IsRun(run)
    requires CloseFailure(run[|run| - 1].bridge, EvalValue) == None
    ensures WroteOneValue(run[|run| - 1])
  {
    RunKeeps(run, |run| - 1);
    CleanWroteOneValue(run[|run| - 1]);
  }
}
