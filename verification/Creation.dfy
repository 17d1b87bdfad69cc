/**
  How targets come into being and what they keep: never from a partial round, and never without
  the peers they block on; and for a fixed source spec no blocking reference is ever lost.
 */
module Creation {
  import opened Wrappers
  import opened Objects
  import opened Sync
  import opened Protocol
  import opened ProtocolInvariant
  import opened ProtocolTheorems

  // ---------- No partial creation ----------

  lemma EffectCreates(cfg: Config, s: State, k: Key, c: Choice, tk: TargetKey)
    requires tk !in s.targets && tk in Effect(cfg, s, k, PcOf(s, k), c).targets
    ensures PcOf(s, k).Write?
  {
    hide WriteTarget;
    if !PcOf(s, k).Write? && !PcOf(s, k).DelIssue? {
      NoTargetEffect(cfg, s, k, PcOf(s, k), c);
    }
  }

  lemma WriteCreates(cfg: Config, s: State, k: Key, o: SourceObject, t: TargetNs, found: Found,
                     current: Option<TargetObject>, uid: Uid, tk: TargetKey)
    requires tk !in s.targets && tk in WriteTarget(cfg, s, k, o, t, found, current, uid).targets
    ensures Writable(k, o.spec) && tk == TargetKeyOf(k, t) && !Partial(k, o.spec, found)
    ensures WriteTarget(cfg, s, k, o, t, found, current, uid).targets[tk] ==
            TargetObject(Some(o.uid), uid, false, Apply(cfg, k, o.spec, found, ZeroTarget(k.kind)))
  {
    hide Apply, Partial, Fails, MergePatch;
  }

  /** A step that creates an owned target is the write of a pass. */
  lemma StepCreates(cfg: Config, s: State, a: Action, tk: TargetKey)
    requires tk !in s.targets && tk in Step(cfg, s, a).targets && Step(cfg, s, a).targets[tk].owner.Some?
    ensures a.Pass? && PcOf(s, a.k).Write?
  {
    hide Effect, NextPc;
    if a.Pass? {
      EffectCreates(cfg, s, a.k, a.c, tk);
    }
  }

  lemma FoundNamesPreserved(s: State, found: Found)
    requires FoundOk(s, found)
    ensures NamePreserving(found)
  {
  }

  lemma WriteIsEffect(cfg: Config, s: State, k: Key, c: Choice)
    requires PcOf(s, k).Write?
    ensures var Write(o, t, found, current) := PcOf(s, k);
            PassStep(cfg, s, k, c).targets == WriteTarget(cfg, s, k, o, t, found, current, c.uid).targets &&
            PassStep(cfg, s, k, c).past == WriteTarget(cfg, s, k, o, t, found, current, c.uid).past
  {
    hide WriteTarget;
  }

  /**
    A controlled target comes into being only in the write step of a pass whose round found the source
    status ready and, for every blocking peer, a target that exists or existed; it names them all.
   */
  lemma CreatedOnlyComplete(cfg: Config, s: State, a: Action, tk: TargetKey)
    requires Reachable(cfg, s)
    requires tk !in s.targets && tk in Step(cfg, s, a).targets && Step(cfg, s, a).targets[tk].owner.Some?
    ensures a.Pass? && PcOf(s, a.k).Write?
    ensures var Write(o, t, found, _) := PcOf(s, a.k);
            && Writable(a.k, o.spec) && tk == TargetKeyOf(a.k, t) && StatusReady(a.k, o.spec)
            && (forall d :: d in BlockingPeers(a.k, o.spec) ==> d in found && HadTarget(s, d, found[d].uid))
            && TargetTyped(a.k.kind, Step(cfg, s, a).targets[tk].spec)
            && BlockingIntact(a.k, o.spec, Step(cfg, s, a).targets[tk].spec)
  {
    hide Effect, NextPc, Apply, Partial, WriteTarget, HadTarget, Fails, BlockingPeers, StatusReady, BlockingIntact;
    ReachableInv(cfg, s);
    StepCreates(cfg, s, a, tk);
    PcsAreOk(s, a.k);
    var Write(o, t, found, current) := PcOf(s, a.k);
    WriteIsEffect(cfg, s, a.k, a.c);
    WriteCreates(cfg, s, a.k, o, t, found, current, a.c.uid, tk);
    PartialExactly(a.k, o.spec, found);
    FoundNamesPreserved(s, found);
    CreationIsIntact(cfg, a.k, o.spec, found, ZeroTarget(a.k.kind));
  }

  /** No step creates the target of a machine from a version in which an entry is not bound. */
  lemma UnboundNotCreated(cfg: Config, s: State, a: Action, tk: TargetKey)
    requires a.Pass? && PcOf(s, a.k).Write? && a.k.ObjKey? && a.k.kind == Machine
    requires PcOf(s, a.k).o.spec.MachineObjSpec? && ListsUnbound(PcOf(s, a.k).o.spec.machine) && tk !in s.targets
    ensures tk !in Step(cfg, s, a).targets
  {
    hide NextPc, Apply, Partial, WriteTarget, Fails, MergePatch, ListsUnbound;
    var Write(o, t, found, current) := PcOf(s, a.k);
    WriteIsEffect(cfg, s, a.k, a.c);
    if tk in Step(cfg, s, a).targets {
      WriteCreates(cfg, s, a.k, o, t, found, current, a.c.uid, tk);
      NotFailing(o.spec.machine);
      UnboundIsPartial(a.k, o.spec.machine, found);
    }
  }

  // ---------- When the peers had targets ----------

  /** In this state the peer has a target of this uid. */
  ghost predicate PresentAt(s: State, d: Key, t: TargetNs, uid: Uid) {
    && d.ObjKey? && t in s.namespaces && s.namespaces[t].ownerName == d.ns
    && TargetKeyOf(d, t) in s.targets && s.targets[TargetKeyOf(d, t)].uid == uid
  }

  ghost predicate Present(s: State, d: Key, uid: Uid) {
    exists t :: PresentAt(s, d, t, uid)
  }

  lemma PassPast(cfg: Config, s: State, k: Key, c: Choice, tk: TargetKey, x: TargetObject)
    requires x in PastOf(PassStep(cfg, s, k, c), tk) && x !in PastOf(s, tk)
    ensures tk in PassStep(cfg, s, k, c).targets && PassStep(cfg, s, k, c).targets[tk] == x
  {
    hide NextPc, Apply, Partial, Fails, MergePatch, AddFinalizer, RemoveFinalizer;
    if !PcOf(s, k).Write? && !PcOf(s, k).DelIssue? {
      NoTargetEffect(cfg, s, k, PcOf(s, k), c);
    }
  }

  lemma TargetStepPast(s: State, a: Action, tk: TargetKey, x: TargetObject)
    requires TargetSide(a) && x in PastOf(TargetStep(s, a), tk) && x !in PastOf(s, tk)
    ensures tk in TargetStep(s, a).targets && TargetStep(s, a).targets[tk] == x
  {
  }

  /** A version enters the past when it is put in place. */
  lemma StepPast(cfg: Config, s: State, a: Action, tk: TargetKey, x: TargetObject)
    requires x in PastOf(Step(cfg, s, a), tk) && x !in PastOf(s, tk)
    ensures tk in Step(cfg, s, a).targets && Step(cfg, s, a).targets[tk] == x
  {
    hide PassStep, TargetStep, SourceStep;
    if a.Pass? {
      PassPast(cfg, s, a.k, a.c, tk, x);
    } else if TargetSide(a) {
      TargetStepPast(s, a, tk, x);
    }
  }

  lemma {:induction false} PastHappened(cfg: Config, actions: seq<Action>, tk: TargetKey, x: TargetObject)
    requires x in PastOf(Run(cfg, INIT, actions), tk)
    ensures exists i :: 0 <= i <= |actions| && tk in Run(cfg, INIT, actions[..i]).targets &&
              Run(cfg, INIT, actions[..i]).targets[tk] == x
  {
    hide Step;
    if actions != [] {
      var n := |actions| - 1;
      var before := Run(cfg, INIT, actions[..n]);
      if x in PastOf(before, tk) {
        PastHappened(cfg, actions[..n], tk, x);
        var i :| 0 <= i <= n && tk in Run(cfg, INIT, actions[..n][..i]).targets &&
          Run(cfg, INIT, actions[..n][..i]).targets[tk] == x;
        assert actions[..n][..i] == actions[..i];
      } else {
        StepPast(cfg, before, actions[n], tk, x);
        assert actions[..|actions|] == actions;
      }
    }
  }

  lemma LaterIssued(cfg: Config, actions: seq<Action>, i: nat, t: TargetNs)
    requires i <= |actions| && t in Run(cfg, INIT, actions[..i]).issued
    ensures t in Run(cfg, INIT, actions).issued
    ensures Run(cfg, INIT, actions).issued[t] == Run(cfg, INIT, actions[..i]).issued[t]
  {
    hide Run;
    assert actions == actions[..i] + actions[i..];
    RunConcat(cfg, INIT, actions[..i], actions[i..]);
    IssuedStays(cfg, Run(cfg, INIT, actions[..i]), actions[i..], t);
  }

  lemma InitInv()
    ensures Inv(INIT)
  {
  }

  /** So each peer found in a round had a target, of the uid found, at some state of the run. */
  lemma PeersHadTargets(cfg: Config, actions: seq<Action>, d: Key, uid: Uid)
    requires HadTarget(Run(cfg, INIT, actions), d, uid)
    ensures exists i :: 0 <= i <= |actions| && Present(Run(cfg, INIT, actions[..i]), d, uid)
  {
    hide Run, Inv;
    var t, x :| HadTargetAt(Run(cfg, INIT, actions), d, t, x) && x.uid == uid;
    PastHappened(cfg, actions, TargetKeyOf(d, t), x);
    var i :| 0 <= i <= |actions| && TargetKeyOf(d, t) in Run(cfg, INIT, actions[..i]).targets &&
      Run(cfg, INIT, actions[..i]).targets[TargetKeyOf(d, t)] == x;
    InitInv();
    RunKeeps(cfg, INIT, actions[..i]);
    TargetKnown(Run(cfg, INIT, actions[..i]), TargetKeyOf(d, t));
    NamespaceIssued(Run(cfg, INIT, actions[..i]), t);
    LaterIssued(cfg, actions, i, t);
    assert PresentAt(Run(cfg, INIT, actions[..i]), d, t, uid);
  }

  /** Where the target cache does not lag behind, a lookup sees a target that is there now. */
  lemma FreshLookupSees(cfg: Config, s: State, c: Choice, d: Key)
    requires Inv(s) && c.stale == map[] && TargetLookup(cfg, s, c, d).Hit?
    ensures Present(s, d, TargetLookup(cfg, s, c, d).ref.uid)
  {
    hide ListSingle, NamespaceOk, PastOk;
    var n := Cached(s, NamespaceOf(d)).value;
    ListSingleExact(s, n.uid);
    ReadRelies(s, NamespaceOf(d));
    var t := ListSingle(s, n.uid).t;
    NamespaceOfUid(s, t, d.ns);
    assert PresentAt(s, d, t, TargetLookup(cfg, s, c, d).ref.uid);
  }

  /** After its lookup a peer is found iff this lookup has found it, whatever an earlier one had; the others stay. */
  lemma LookupNoted(cfg: Config, s: State, k: Key, c: Choice)
    requires PcOf(s, k).Lookup? && PcOf(s, k).rest != [] && PcOf(PassStep(cfg, s, k, c), k).Lookup?
    ensures var d, a := PcOf(s, k).rest[0], TargetLookup(cfg, s, c, PcOf(s, k).rest[0]);
            var found, found' := PcOf(s, k).found, PcOf(PassStep(cfg, s, k, c), k).found;
            && PcOf(PassStep(cfg, s, k, c), k).rest == PcOf(s, k).rest[1..]
            && (d in found' <==> a.Hit?) && (a.Hit? ==> found'[d] == a.ref)
            && forall x :: x != d ==> (x in found' <==> x in found) && (x in found ==> found'[x] == found[x])
  {
    hide TargetLookup;
  }

  /** The lookup of a peer fails exactly for a machine that the cache has outside the pool. */
  lemma LookupFailsExactly(cfg: Config, s: State, c: Choice, d: Key)
    requires Inv(s)
    ensures TargetLookup(cfg, s, c, d) == Error <==>
            d.ObjKey? && d.kind == Machine && Cached(s, d).Some? && Cached(s, d).value.spec.MachineObjSpec? &&
            Cached(s, d).value.spec.machine.pool != Some(cfg.pool)
  {
    hide ListSingle, NamespaceOk, PastOk, ReadTarget;
    if Cached(s, d).Some? {
      ReadRelies(s, d);
    }
    if Cached(s, NamespaceOf(d)).Some? {
      ListSingleExact(s, Cached(s, NamespaceOf(d)).value.uid);
    }
  }

  /**
    A round that comes to a machine outside the pool ends there, with nothing written: the reference to
    the machine stays in the target as it is, and is not cleared.
   */
  lemma OutsidePoolStops(cfg: Config, s: State, k: Key, c: Choice)
    requires Inv(s) && PcOf(s, k).Lookup? && PcOf(s, k).rest != []
    requires var d := PcOf(s, k).rest[0];
             d.ObjKey? && d.kind == Machine && Cached(s, d).Some? && Cached(s, d).value.spec.MachineObjSpec? &&
             Cached(s, d).value.spec.machine.pool != Some(cfg.pool)
    ensures PassStep(cfg, s, k, c) == s.(pcs := s.pcs - {k})
  {
    hide TargetLookup, Inv;
    LookupFailsExactly(cfg, s, c, PcOf(s, k).rest[0]);
  }

  /** The pass under way on `k` had begun at step `i` already. */
  ghost predicate InThisPass(cfg: Config, actions: seq<Action>, i: nat, k: Key) {
    i <= |actions| && forall j :: i <= j <= |actions| ==> !PcOf(Run(cfg, INIT, actions[..j]), k).Idle?
  }

  /** At some state of this pass the peer had a target of this uid. */
  ghost predicate SeenInThisPass(cfg: Config, actions: seq<Action>, k: Key, d: Key, uid: Uid) {
    exists i :: 0 <= i <= |actions| && InThisPass(cfg, actions, i, k) && Present(Run(cfg, INIT, actions[..i]), d, uid)
  }

  ghost predicate HasFound(pc: Pc) {
    pc.Lookup? || pc.Fetch? || pc.Write?
  }

  lemma FoundNext(cfg: Config, s: State, k: Key, pc: Pc, c: Choice, d: Key)
    requires HasFound(NextPc(cfg, s, k, pc, c)) && d in NextPc(cfg, s, k, pc, c).found
    ensures !pc.Idle?
    ensures (HasFound(pc) && d in pc.found && pc.found[d] == NextPc(cfg, s, k, pc, c).found[d]) ||
            (TargetLookup(cfg, s, c, d).Hit? && TargetLookup(cfg, s, c, d).ref == NextPc(cfg, s, k, pc, c).found[d])
  {
    hide TargetLookup, ListSingle, ReadTarget, LookupOrder, InPool;
  }

  lemma OnePassStep(cfg: Config, s: State, k: Key, c: Choice, d: Key)
    requires HasFound(PcOf(PassStep(cfg, s, k, c), k)) && d in PcOf(PassStep(cfg, s, k, c), k).found
    ensures !PcOf(s, k).Idle?
    ensures (HasFound(PcOf(s, k)) && d in PcOf(s, k).found &&
             PcOf(s, k).found[d] == PcOf(PassStep(cfg, s, k, c), k).found[d]) ||
            (TargetLookup(cfg, s, c, d).Hit? && TargetLookup(cfg, s, c, d).ref == PcOf(PassStep(cfg, s, k, c), k).found[d])
  {
    hide Effect, NextPc, TargetLookup;
    FoundNext(cfg, s, k, PcOf(s, k), c, d);
  }

  lemma SeenLater(cfg: Config, actions: seq<Action>, a: Action, k: Key, d: Key, uid: Uid)
    requires SeenInThisPass(cfg, actions, k, d, uid) && !PcOf(Run(cfg, INIT, actions + [a]), k).Idle?
    ensures SeenInThisPass(cfg, actions + [a], k, d, uid)
  {
    hide Run, Present;
    var longer := actions + [a];
    var i :| 0 <= i <= |actions| && InThisPass(cfg, actions, i, k) && Present(Run(cfg, INIT, actions[..i]), d, uid);
    forall j | i <= j <= |longer|
      ensures !PcOf(Run(cfg, INIT, longer[..j]), k).Idle?
    {
      if j <= |actions| {
        assert longer[..j] == actions[..j];
      } else {
        assert longer[..j] == longer;
      }
    }
    assert longer[..i] == actions[..i];
    assert InThisPass(cfg, longer, i, k);
  }

  lemma SeenNow(cfg: Config, actions: seq<Action>, a: Action, k: Key, d: Key, uid: Uid)
    requires Present(Run(cfg, INIT, actions), d, uid)
    requires !PcOf(Run(cfg, INIT, actions), k).Idle? && !PcOf(Run(cfg, INIT, actions + [a]), k).Idle?
    ensures SeenInThisPass(cfg, actions + [a], k, d, uid)
  {
    hide Run, Present;
    assert actions[..|actions|] == actions;
    assert InThisPass(cfg, actions, |actions|, k);
    SeenLater(cfg, actions, a, k, d, uid);
  }

  /**
    With a target cache that does not lag behind for the passes on `k`, every peer a pass on `k` has
    found had its target at some state of that very pass.
   */
  lemma {:induction false} FoundInThisPass(cfg: Config, actions: seq<Action>, k: Key, d: Key)
    requires forall i :: 0 <= i < |actions| && actions[i].Pass? && actions[i].k == k ==> actions[i].c.stale == map[]
    requires var pc := PcOf(Run(cfg, INIT, actions), k); HasFound(pc) && d in pc.found
    ensures SeenInThisPass(cfg, actions, k, d, PcOf(Run(cfg, INIT, actions), k).found[d].uid)
  {
    hide PassStep, TargetLookup, Present, SeenInThisPass;
    if actions != [] {
      var init, last := actions[..|actions| - 1], actions[|actions| - 1];
      var s := Run(cfg, INIT, init);
      assert actions == init + [last];
      RunKeeps(cfg, INIT, init);
      if last.Pass? && last.k == k {
        OnePassStep(cfg, s, k, last.c, d);
        if HasFound(PcOf(s, k)) && d in PcOf(s, k).found && PcOf(s, k).found[d] == PcOf(Run(cfg, INIT, actions), k).found[d] {
          FoundInThisPass(cfg, init, k, d);
          SeenLater(cfg, init, last, k, d, PcOf(s, k).found[d].uid);
        } else {
          FreshLookupSees(cfg, s, last.c, d);
          SeenNow(cfg, init, last, k, d, TargetLookup(cfg, s, last.c, d).ref.uid);
        }
      } else {
        OtherStepPc(cfg, s, last, k);
        FoundInThisPass(cfg, init, k, d);
        SeenLater(cfg, init, last, k, d, PcOf(s, k).found[d].uid);
      }
    }
  }
}
