/**
  Machines outside the pool: another broker's business.  Their passes read them and stop, also when
  the machine was in the pool before and has a target and a finalizer, or is being deleted.
 */
module Skipped {
  import opened Wrappers
  import opened Objects
  import opened Sync
  import opened Protocol
  import opened ProtocolInvariant
  import opened ProtocolTheorems
  import opened NoLoss

  ghost predicate Outside(cfg: Config, o: SourceObject) {
    o.spec.MachineObjSpec? && o.spec.machine.pool != Some(cfg.pool)
  }

  /** From the cache to the cluster, and in the hands of a pass, the machine is outside the pool. */
  ghost predicate AllOutside(cfg: Config, s: State, k: Key) {
    && k.ObjKey? && k.kind == Machine
    && (forall i :: 0 <= i < |ViewOf(s, k)| && ViewOf(s, k)[i].Some? ==> Outside(cfg, ViewOf(s, k)[i].value))
    && (PcOf(s, k).Idle? || (PcOf(s, k).Got? && Outside(cfg, PcOf(s, k).o)))
  }

  /** Nobody moves the machine into the pool, or creates one in the pool under its name. */
  ghost predicate StaysOutside(cfg: Config, a: Action, k: Key) {
    (a.Edit? || a.Create?) && a.k == k ==> !a.spec.MachineObjSpec? || a.spec.machine.pool != Some(cfg.pool)
  }

  /** A call of its pass changes nothing but where the pass stands. */
  lemma SkippedPass(cfg: Config, s: State, k: Key, c: Choice)
    requires AllOutside(cfg, s, k)
    ensures PassStep(cfg, s, k, c) == s.(pcs := PassStep(cfg, s, k, c).pcs)
    ensures AllOutside(cfg, PassStep(cfg, s, k, c), k)
  {
    var v := ViewOf(s, k);
    assert Cached(s, k).Some? ==> Cached(s, k) == v[0];
    assert ViewOf(PassStep(cfg, s, k, c), k) == v;
  }

  /** What an edit or a creation puts at the end of the queue of a machine is a machine. */
  lemma NewIsTyped(s: State, a: Action, k: Key)
    requires SourceSide(a) && k.ObjKey? && k.kind == Machine && ViewOf(SourceStep(s, a), k) != ViewOf(s, k)
    ensures (a.Edit? || a.Create?) && a.k == k ==> a.spec.MachineObjSpec?
  {
  }

  lemma SourceStaysOutside(cfg: Config, s: State, k: Key, a: Action)
    requires AllOutside(cfg, s, k) && StaysOutside(cfg, a, k) && SourceSide(a)
    ensures AllOutside(cfg, SourceStep(s, a), k)
  {
    hide SourceStep;
    SourceStepQueue(s, k, a);
    var v, v' := ViewOf(s, k), ViewOf(SourceStep(s, a), k);
    forall i | 0 <= i < |v'| && v'[i].Some?
      ensures Outside(cfg, v'[i].value)
    {
      if |v'| < |v| {
        assert v'[i] == v[i + 1];
      } else if i < |v| {
        assert v'[i] == v[i];
      } else {
        NewIsTyped(s, a, k);
      }
    }
  }

  lemma OthersStayOutside(cfg: Config, s: State, k: Key, a: Action)
    requires AllOutside(cfg, s, k) && !SourceSide(a) && !(a.Pass? && a.k == k)
    ensures AllOutside(cfg, Step(cfg, s, a), k)
  {
    hide Effect, NextPc, TargetStep;
    OtherStepPc(cfg, s, a, k);
    var v := ViewOf(s, k);
    assert Live(s, k).Some? ==> Live(s, k) == v[|v| - 1];
    if a.Pass? {
      FinalizerWriteView(s, PassStep(cfg, s, a.k, a.c), a.k, k);
    }
  }

  lemma StepStaysOutside(cfg: Config, s: State, k: Key, a: Action)
    requires AllOutside(cfg, s, k) && StaysOutside(cfg, a, k)
    ensures AllOutside(cfg, Step(cfg, s, a), k)
  {
    hide SourceStep, PassStep, AllOutside, TargetStep;
    if a.Pass? && a.k == k {
      SkippedPass(cfg, s, k, a.c);
    } else if SourceSide(a) {
      SourceStaysOutside(cfg, s, k, a);
    } else {
      OthersStayOutside(cfg, s, k, a);
    }
  }

  /**
    While nobody moves it into the pool, no call of its passes changes anything in the clusters, at any
    point of any run: it keeps its finalizer, its target stays as it is, and its deletion waits for others.
   */
  lemma {:induction false} SkippedForGood(cfg: Config, s: State, actions: seq<Action>, k: Key, c: Choice)
    requires AllOutside(cfg, s, k) && forall i :: 0 <= i < |actions| ==> StaysOutside(cfg, actions[i], k)
    ensures AllOutside(cfg, Run(cfg, s, actions), k)
    ensures var s' := Run(cfg, s, actions); PassStep(cfg, s', k, c) == s'.(pcs := PassStep(cfg, s', k, c).pcs)
  {
    hide Step, AllOutside, PassStep, StaysOutside;
    if actions != [] {
      var n := |actions| - 1;
      SkippedForGood(cfg, s, actions[..n], k, c);
      StepStaysOutside(cfg, Run(cfg, s, actions[..n]), k, actions[n]);
    }
    SkippedPass(cfg, Run(cfg, s, actions), k, c);
  }
}
