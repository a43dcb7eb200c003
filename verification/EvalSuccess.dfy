/** What the success of an evaluation says about its output: the execution and the port of its value as
    one system. */
module EvalSuccess {
  import opened Printer
  import opened Values
  import opened ValueBridge
  import opened OutputPort
  import opened EvalEpoch
  import opened Grammar
  import opened ExecRuns

  /** While the value is to be emitted, the bridge of the execution is that of the epoch. */
  datatype Joint = Joint(system: ExecRuns.System, epoch: Epoch)

  predicate Emitting(x: Joint) {
    x.system.exec.phase == Exec.AwaitingEmit
  }

  /** One operation on the bridge, by the port or by anyone else. */
  ghost predicate BridgeStep(x: Joint, y: Joint)
    requires x.system.exec.next <= |x.system.exec.source|
  {
    && EvalEpoch.Next(x.epoch, y.epoch) && y.epoch.bridge == y.system.exec.bridge
    && exists ops :: WithinEpoch(ops) && y.system == Do(x.system, UseBridge(ops))
  }

  /** One step of the execution or of its port. An epoch begins when the editor is told to emit. */
  ghost predicate JointStep(x: Joint, y: Joint)
    requires x.system.exec.next <= |x.system.exec.source|
  {
    if Emitting(x) then
      || BridgeStep(x, y)
      || (exists a: Action :: !a.UseBridge? && y.system == Do(x.system, a) && y.epoch == x.epoch)
    else
      && (exists a: Action :: y.system == Do(x.system, a))
      && y.epoch == if Emitting(y) then Epoch(y.system.exec.bridge, Text.None, Text.None) else x.epoch
  }

  ghost predicate JointInv(x: Joint, all: seq<Forms.Next>)
  {
    && Inv(x.system, all)
    && (Emitting(x) ==> x.epoch.bridge == x.system.exec.bridge && Kept(x.epoch))
    && (x.system.world.cleanValue ==> WroteOneValue(x.epoch))
  }

  lemma BridgeStepKept(x: Joint, y: Joint, all: seq<Forms.Next>)
    requires JointInv(x, all) && Emitting(x) && BridgeStep(x, y)
    ensures JointInv(y, all)
  {
    var ops :| WithinEpoch(ops) && y.system == Do(x.system, UseBridge(ops));
    DoKeeps(x.system, UseBridge(ops), all);
    EvalEpoch.NextKeeps(x.epoch, y.epoch);
  }

  lemma OtherStepKept(x: Joint, y: Joint, all: seq<Forms.Next>)
    requires JointInv(x, all) && !Emitting(x) && JointStep(x, y)
    ensures JointInv(y, all)
  {
    var a: Action :| y.system == Do(x.system, a);
    DoKeeps(x.system, a, all);
    BeginsEpoch(x.system, a);
  }

  lemma JointKept(x: Joint, y: Joint, all: seq<Forms.Next>)
    requires JointInv(x, all) && JointStep(x, y)
    ensures JointInv(y, all) && y.system.exec.mode == x.system.exec.mode
  {
    if !Emitting(x) {
      OtherStepKept(x, y, all);
      var a: Action :| y.system == Do(x.system, a);
      ModeKept(x.system, a);
    } else if BridgeStep(x, y) {
      BridgeStepKept(x, y, all);
    } else {
      var a: Action :| !a.UseBridge? && y.system == Do(x.system, a) && y.epoch == x.epoch;
      EmittingKept(x, a, y, all);
      ModeKept(x.system, a);
    }
  }

  /** Nothing but its end and the bridge concerns the epoch of the value. */
  lemma EmittingKept(x: Joint, a: Action, y: Joint, all: seq<Forms.Next>)
    requires JointInv(x, all) && Emitting(x) && !a.UseBridge? && y == Joint(Do(x.system, a), x.epoch)
    ensures JointInv(y, all)
  {
    DoKeeps(x.system, a, all);
    if CloseFailure(x.epoch.bridge, EvalValue).None? {
      CleanWroteOneValue(x.epoch);
    }
  }

  /** Emission begins with the epoch of its value. */
  predicate EpochBegins(x: ExecRuns.System, y: ExecRuns.System)
  {
    && y.world.cleanValue == x.world.cleanValue
    && (y.exec.phase == Exec.AwaitingEmit ==>
          y.exec.bridge.openKind == Text.Some(EvalValue) && !y.exec.bridge.claimed && !y.exec.bridge.active)
  }

  lemma IssueBegins(s: Exec.ExecState)
    requires s.next <= |s.source| && s.phase != Exec.AwaitingEmit
    ensures var t := Exec.TakeStep(s).state;
            t.phase == Exec.AwaitingEmit ==>
              t.bridge.openKind == Text.Some(EvalValue) && !t.bridge.claimed && !t.bridge.active
  {
    var t := Exec.Settle(s);
    assert t.phase != Exec.AwaitingEmit;
    assert t.phase == Exec.EmitEvalValue ==> t == s;
  }

  lemma TakeBegins(x: ExecRuns.System)
    requires x.exec.next <= |x.exec.source| && x.exec.phase != Exec.AwaitingEmit
    ensures EpochBegins(x, Do(x, Take))
  {
    IssueBegins(x.exec);
  }

  lemma CompletionBeginsNone(x: ExecRuns.System, r: Exec.StepResult)
    requires x.exec.next <= |x.exec.source| && x.exec.phase != Exec.AwaitingEmit
    ensures EpochBegins(x, Do(x, Action.Complete(r)))
  {
  }

  lemma BeginsEpoch(x: ExecRuns.System, a: Action)
    requires x.exec.next <= |x.exec.source| && x.exec.phase != Exec.AwaitingEmit
    ensures EpochBegins(x, Do(x, a))
  {
    match a
    case Take => TakeBegins(x);
    case Complete(r) => CompletionBeginsNone(x, r);
    case _ =>
  }

  ghost predicate JointRun(run: seq<Joint>, mode: Exec.ExecMode, raw: Exec.Raw)
  {
    && run != []
    && (exists s :: Exec.Creates(mode, raw, Exec.Created(s)) && run[0].system == System(s, Untouched))
    && (forall i | 0 <= i < |run| :: run[i].system.exec.next <= |run[i].system.exec.source|)
    && forall i | 0 <= i < |run| - 1 :: JointStep(run[i], run[i + 1])
  }

  lemma {:induction false} JointRunKept(run: seq<Joint>, mode: Exec.ExecMode, raw: Exec.Raw, i: nat)
    returns (all: seq<Forms.Next>)
    requires JointRun(run, mode, raw) && i < |run|
    ensures JointInv(run[i], all) && run[i].system.exec.mode == mode
            && all == Forms.FormsFrom(run[0].system.exec.source, 0)
  {
    if i == 0 {
      var s :| Exec.Creates(mode, raw, Exec.Created(s)) && run[0].system == System(s, Untouched);
      InvInitially(mode, raw, s);
      all := Forms.FormsFrom(s.source, 0);
    } else {
      all := JointRunKept(run, mode, raw, i - 1);
      JointKept(run[i - 1], run[i], all);
    }
  }

  /** In every run of an execution with its bridge and its port: an evaluation that has succeeded has
      committed, and in the epoch that was opened after its commit exactly one complete value was
      written, unless the reader had gone or output had been stopped. */
  lemma SuccessWroteOneValue(run: seq<Joint>, raw: Exec.Raw, i: nat)
    requires JointRun(run, Exec.Eval, raw) && i < |run|
    requires run[i].system.exec.outcome == Text.Some(Exec.Success)
    ensures run[i].system.world.committed && WroteOneValue(run[i].epoch)
    ensures var p := run[i].epoch.ended.value;
            p.result == Fine ==>
              exists es :: p.blocks == [ValueText(es)] && OneValue(es)
                           && (Unskipped(Fresh, es) ==> exists v :: Printable(v, 0) && es == Events(v))
  {
    var all := JointRunKept(run, Exec.Eval, raw, i);
    var p := run[i].epoch.ended.value;
    if p.result == Fine {
      var es :| OneValue(es) && p.blocks == [ValueText(es)];
      if Unskipped(Fresh, es) {
        ExactlyValues(es);
      }
    }
  }
}
