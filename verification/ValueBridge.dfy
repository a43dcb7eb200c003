/**
 The bridge over which values reach the output: every form, and the value of an evaluation after its
 commit, opens an epoch, and the one lease of that epoch is what may write.
 */
module ValueBridge {
  import opened Text
  import opened Sink

  datatype Kind = Form | EvalValue
  datatype BridgeFailure =
    | InvalidSequence | LimitExceeded | OutputFinished | PostCommitCancelled | Abandoned | MissingValue

  const LAST_GENERATION: nat := 0xffff_ffff_ffff_ffff

  datatype Bridge = Bridge(generation: nat, openKind: Option<Kind>, active: bool, claimed: bool,
                           failure: Option<BridgeFailure>)
  datatype Lease = Lease(generation: nat, kind: Kind)

  const Idle: Bridge := Bridge(0, None, false, false, None)

  // ----- What each locked section does -----

  function Note(failure: Option<BridgeFailure>, f: BridgeFailure): Option<BridgeFailure> {
    if failure.None? then Some(f) else failure
  }

  /** Generations count up and skip zero when they wrap. */
  function NextGeneration(g: nat): nat {
    if g >= LAST_GENERATION then 1 else g + 1
  }

  function Begin(b: Bridge, kind: Kind): Bridge {
    Bridge(NextGeneration(b.generation), Some(kind), false, false,
           if b.openKind.Some? || b.active then Note(b.failure, Abandoned) else b.failure)
  }

  predicate Grants(b: Bridge, kind: Kind) {
    b.openKind == Some(kind) && b.failure.None? && !b.active && !b.claimed
  }

  function Acquire(b: Bridge, kind: Kind): Bridge {
    if Grants(b, kind) then b.(active := true, claimed := true) else b
  }

  predicate IsOpen(b: Bridge, lease: Lease) {
    b.openKind == Some(lease.kind) && b.generation == lease.generation && b.active && b.failure.None?
  }

  function Release(b: Bridge, lease: Lease, failure: Option<BridgeFailure>): Bridge {
    if b.generation != lease.generation || b.openKind != Some(lease.kind) then b
    else b.(failure := if failure.Some? then Note(b.failure, failure.value) else b.failure, active := false)
  }

  /** What closing the epoch reports; it leaves no failure behind. */
  function CloseFailure(b: Bridge, kind: Kind): Option<BridgeFailure> {
    var wrongKind := if b.openKind != Some(kind) then Note(b.failure, InvalidSequence) else b.failure;
    var abandoned := if b.active then Note(wrongKind, Abandoned) else wrongKind;
    if kind == EvalValue && !b.claimed then Note(abandoned, MissingValue) else abandoned
  }

  function Close(b: Bridge): Bridge {
    b.(openKind := None, active := false, failure := None)
  }

  class ExecIo {
    const output: OutputSink
    var bridge: Bridge

    constructor (output: OutputSink)
      ensures this.output == output && bridge == Idle
    {
      this.output := output;
      bridge := Idle;
    }

    method BeginValueOutput(kind: Kind)
      modifies this
      ensures bridge == Begin(old(bridge), kind)
    {
      if bridge.openKind.Some? || bridge.active {
        bridge := bridge.(failure := Note(bridge.failure, Abandoned));
      }
      bridge := bridge.(generation := NextGeneration(bridge.generation), openKind := Some(kind));
      bridge := bridge.(active := false, claimed := false);
    }

    method AcquireValueOutput(kind: Kind) returns (lease: Option<Lease>)
      modifies this
      ensures bridge == Acquire(old(bridge), kind)
      ensures lease == if Grants(old(bridge), kind) then Some(Lease(bridge.generation, kind)) else None
      ensures lease.Some? ==> IsOpen(bridge, lease.value)
    {
      if bridge.openKind != Some(kind) || bridge.failure.Some? || bridge.active || bridge.claimed {
        return None;
      }
      bridge := bridge.(active := true, claimed := true);
      return Some(Lease(bridge.generation, kind));
    }

    method CloseValueOutput(kind: Kind) returns (failure: Option<BridgeFailure>)
      modifies this
      ensures bridge == Close(old(bridge)) && failure == CloseFailure(old(bridge), kind)
    {
      if bridge.openKind != Some(kind) {
        bridge := bridge.(failure := Note(bridge.failure, InvalidSequence));
      }
      bridge := bridge.(openKind := None);
      if bridge.active {
        bridge := bridge.(failure := Note(bridge.failure, Abandoned));
      }
      bridge := bridge.(active := false);
      if kind == EvalValue && !bridge.claimed {
        bridge := bridge.(failure := Note(bridge.failure, MissingValue));
      }
      failure := bridge.failure;
      bridge := bridge.(failure := None);
    }

    method ReleaseValueOutput(lease: Lease, failure: Option<BridgeFailure>)
      modifies this
      ensures bridge == Release(old(bridge), lease, failure)
    {
      if bridge.generation != lease.generation || bridge.openKind != Some(lease.kind) {
        return;
      }
      if failure.Some? {
        bridge := bridge.(failure := Note(bridge.failure, failure.value));
      }
      bridge := bridge.(active := false);
    }
  }

  // ----- Runs -----

  datatype Op =
    | OpBegin(kind: Kind)
    | OpAcquire(kind: Kind)
    | OpRelease(lease: Lease, failure: Option<BridgeFailure>)
    | OpClose(kind: Kind)

  function Apply(b: Bridge, op: Op): Bridge {
    match op
    case OpBegin(kind) => Begin(b, kind)
    case OpAcquire(kind) => Acquire(b, kind)
    case OpRelease(lease, failure) => Release(b, lease, failure)
    case OpClose(_) => Close(b)
  }

  function Run(b: Bridge, ops: seq<Op>): Bridge
    decreases |ops|
  {
    if ops == [] then b else Run(Apply(b, ops[0]), ops[1..])
  }

  lemma {:induction false} RunSplit(b: Bridge, first: seq<Op>, rest: seq<Op>)
    ensures Run(b, first + rest) == Run(Run(b, first), rest)
    decreases |first|
  {
    if first == [] {
      assert first + rest == rest;
    } else {
      assert (first + rest)[0] == first[0] && (first + rest)[1..] == first[1..] + rest;
      RunSplit(Apply(b, first[0]), first[1..], rest);
    }
  }

  function Begins(ops: seq<Op>): nat {
    if ops == [] then 0 else (if ops[0].OpBegin? then 1 else 0) + Begins(ops[1..])
  }

  /** The generation after `k` more epochs. */
  function GenerationAfter(g: nat, k: nat): nat
    decreases k
  {
    if k == 0 then g else GenerationAfter(NextGeneration(g), k - 1)
  }

  lemma {:induction false} GenerationOfRun(b: Bridge, ops: seq<Op>)
    ensures Run(b, ops).generation == GenerationAfter(b.generation, Begins(ops))
    decreases |ops|
  {
    if ops != [] {
      GenerationOfRun(Apply(b, ops[0]), ops[1..]);
    }
  }

  /** Generations recur, but only after all of them have been used. */
  lemma {:induction false} GenerationPeriod(g: nat, k: nat)
    requires 1 <= g <= LAST_GENERATION
    ensures GenerationAfter(g, k) == (g - 1 + k) % LAST_GENERATION + 1
    decreases k
  {
    if k > 0 {
      GenerationPeriod(NextGeneration(g), k - 1);
      if g == LAST_GENERATION {
        assert (g - 1 + k) % LAST_GENERATION == (k - 1) % LAST_GENERATION;
      }
    }
  }

  /** A lease from an earlier epoch has the generation of the current one exactly if a multiple of the
      number of generations lies between them. Only then can it be mistaken: it is open exactly if an
      epoch of its kind has a lease in use, and its release does something exactly if there is a lease
      to end or no failure noted yet. */
  lemma StaleLease(b: Bridge, lease: Lease, ops: seq<Op>)
    requires 1 <= b.generation <= LAST_GENERATION && lease.generation == b.generation
    ensures var now := Run(b, ops);
            var recurs := Begins(ops) % LAST_GENERATION == 0;
            && (now.generation == lease.generation <==> recurs)
            && (IsOpen(now, lease) <==> recurs && now.openKind == Some(lease.kind) && now.active && now.failure.None?)
            && (Release(now, lease, None) != now <==> recurs && now.openKind == Some(lease.kind) && now.active)
            && (forall f :: Release(now, lease, Some(f)) != now <==>
                  recurs && now.openKind == Some(lease.kind) && (now.active || now.failure.None?))
  {
    var g, k := b.generation, Begins(ops);
    GenerationOfRun(b, ops);
    GenerationPeriod(g, k);
    assert (g - 1 + k) % LAST_GENERATION == g - 1 <==> k % LAST_GENERATION == 0;
  }

  /** So many epochs, each opened for a form and closed at once. */
  function Epochs(n: nat): seq<Op> {
    if n == 0 then [] else [OpBegin(Form), OpClose(Form)] + Epochs(n - 1)
  }

  lemma {:induction false} EpochsRun(b: Bridge, n: nat)
    requires b.openKind.None? && !b.active && b.failure.None?
    ensures Begins(Epochs(n)) == n
    ensures var now := Run(b, Epochs(n)); now.openKind.None? && !now.active && now.failure.None?
    decreases n
  {
    if n > 0 {
      var two, more := [OpBegin(Form), OpClose(Form)], Epochs(n - 1);
      var next := Close(Begin(b, Form));
      EpochsRun(next, n - 1);
      assert (two + more)[0] == two[0] && (two + more)[1..] == [two[1]] + more && ([two[1]] + more)[1..] == more;
    }
  }

  /** It does happen: after so many epochs the lease of the first one is open although it was never
      granted there, and abandoning it fails the epoch of another lease. */
  lemma StaleLeaseActs(n: nat) returns (ops: seq<Op>)
    requires n > 0 && n % LAST_GENERATION == 0
    ensures Begins(ops) == n
    ensures var first := Acquire(Begin(Idle, Form), Form);
            var stale := Lease(first.generation, Form);
            var now := Run(Close(first), ops);
            && IsOpen(first, stale) && CloseFailure(Release(first, stale, None), Form).None?
            && IsOpen(now, stale) && Release(now, stale, Some(Abandoned)).failure == Some(Abandoned)
  {
    var closed := Close(Acquire(Begin(Idle, Form), Form));
    var last := [OpBegin(Form), OpAcquire(Form)];
    ops := Epochs(n - 1) + last;
    EpochsRun(closed, n - 1);
    RunSplit(closed, Epochs(n - 1), last);
    BeginsConcat(Epochs(n - 1), last);
    var before := Run(closed, Epochs(n - 1));
    assert last[1..] == [OpAcquire(Form)] && [OpAcquire(Form)][1..] == [];
    assert Run(before, last) == Acquire(Begin(before, Form), Form);
    StaleLease(closed, Lease(1, Form), ops);
  }

  lemma {:induction false} BeginsConcat(a: seq<Op>, b: seq<Op>)
    ensures Begins(a + b) == Begins(a) + Begins(b)
  {
    if a == [] {
      assert a + b == b;
    } else {
      assert (a + b)[0] == a[0] && (a + b)[1..] == a[1..] + b;
      BeginsConcat(a[1..], b);
    }
  }

  /** No epoch begins or ends in these operations. */
  predicate WithinEpoch(ops: seq<Op>) {
    forall op | op in ops :: op.OpAcquire? || op.OpRelease?
  }

  /** An epoch of an evaluation that closes without a failure: its lease was granted, then released
      without a failure, and was open all the time between. */
  lemma CleanEpoch(b: Bridge, ops: seq<Op>) returns (granted: nat, released: nat)
    requires WithinEpoch(ops)
    requires CloseFailure(Run(Begin(b, EvalValue), ops), EvalValue) == None
    ensures granted < released < |ops|
    ensures var lease := Lease(NextGeneration(b.generation), EvalValue);
            && ops[granted] == OpAcquire(EvalValue) && Grants(Run(Begin(b, EvalValue), ops[..granted]), EvalValue)
            && ops[released] == OpRelease(lease, None)
            && (forall k | granted < k <= released :: IsOpen(Run(Begin(b, EvalValue), ops[..k]), lease))
            && (forall k | released < k <= |ops| :: !IsOpen(Run(Begin(b, EvalValue), ops[..k]), lease))
  {
    var b1 := Begin(b, EvalValue);
    FailureStays(b1, ops);
    granted, released := Granted(b1, ops);
  }

  lemma {:induction false} FailureStays(b: Bridge, ops: seq<Op>)
    requires WithinEpoch(ops)
    ensures b.failure.Some? ==> Run(b, ops).failure.Some?
    ensures b.openKind == Run(b, ops).openKind && b.generation == Run(b, ops).generation
    ensures b.claimed && !b.active ==> Run(b, ops) == b.(failure := Run(b, ops).failure)
    decreases |ops|
  {
    if ops != [] {
      assert ops[0] in ops;
      FailureStays(Apply(b, ops[0]), ops[1..]);
    }
  }

  lemma RunStep(b: Bridge, ops: seq<Op>, k: nat)
    requires 0 < k <= |ops|
    ensures Run(b, ops[..k]) == Run(Apply(b, ops[0]), ops[1..][..k - 1])
  {
    assert ops[..k][1..] == ops[1..][..k - 1];
  }

  lemma {:induction false} Granted(b: Bridge, ops: seq<Op>) returns (granted: nat, released: nat)
    requires WithinEpoch(ops) && b.openKind == Some(EvalValue) && !b.active && !b.claimed
    requires CloseFailure(Run(b, ops), EvalValue) == None
    ensures granted < released < |ops|
    ensures var lease := Lease(b.generation, EvalValue);
            && ops[granted] == OpAcquire(EvalValue) && Grants(Run(b, ops[..granted]), EvalValue)
            && ops[released] == OpRelease(lease, None)
            && (forall k | granted < k <= released :: IsOpen(Run(b, ops[..k]), lease))
            && (forall k | released < k <= |ops| :: !IsOpen(Run(b, ops[..k]), lease))
    decreases |ops|
  {
    assert ops != [];
    assert ops[0] in ops;
    var next := Apply(b, ops[0]);
    FailureStays(b, ops);
    FailureStays(next, ops[1..]);
    forall k | 0 < k <= |ops| ensures Run(b, ops[..k]) == Run(next, ops[1..][..k - 1]) {
      RunStep(b, ops, k);
    }
    if ops[0] == OpAcquire(EvalValue) {
      released := Released(next, ops[1..]);
      granted, released := 0, released + 1;
    } else {
      granted, released := Granted(next, ops[1..]);
      granted, released := granted + 1, released + 1;
    }
  }

  lemma {:induction false} Released(b: Bridge, ops: seq<Op>) returns (released: nat)
    requires WithinEpoch(ops) && IsOpen(b, Lease(b.generation, EvalValue)) && b.claimed
    requires CloseFailure(Run(b, ops), EvalValue) == None
    ensures released < |ops|
    ensures var lease := Lease(b.generation, EvalValue);
            && ops[released] == OpRelease(lease, None)
            && (forall k | 0 <= k <= released :: IsOpen(Run(b, ops[..k]), lease))
            && (forall k | released < k <= |ops| :: !IsOpen(Run(b, ops[..k]), lease))
    decreases |ops|
  {
    assert ops != [];
    assert ops[0] in ops;
    var next := Apply(b, ops[0]);
    FailureStays(next, ops[1..]);
    forall k | 0 < k <= |ops| ensures Run(b, ops[..k]) == Run(next, ops[1..][..k - 1]) {
      RunStep(b, ops, k);
    }
    if ops[0].OpRelease? && ops[0].lease == Lease(b.generation, EvalValue) {
      released := 0;
      forall k | 0 < k <= |ops| ensures !IsOpen(Run(b, ops[..k]), Lease(b.generation, EvalValue)) {
        FailureStays(next, ops[1..][..k - 1]);
      }
    } else {
      released := Released(next, ops[1..]);
      released := released + 1;
    }
  }
}
