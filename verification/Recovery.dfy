/**
  Recovery: from whatever state a run has led to, once the source objects stop changing.  The passes
  that are under way come to an end, what is unwanted loses its target, the target cluster finishes its
  deletions, and the state is a settled one, from which the sweeps converge.
 */
module Recovery {
  import opened Wrappers
  import opened Objects
  import opened Sync
  import opened Usage
  import opened Protocol
  import opened ProtocolInvariant
  import opened ProtocolTheorems
  import opened Passes
  import opened Drain
  import opened Frozen
  import opened Convergence
  import opened Sweeps

  // ---------- Sources at rest ----------

  /** The sources are those of the graph, the caches show them, and none is being deleted. */
  ghost predicate SourcesRest(w: World, s: State) {
    && Graph(s) == w.g && Closed(w.g)
    && (forall k :: k in s.views ==> |s.views[k]| == 1 && (s.views[k][0].Some? ==> !s.views[k][0].value.deleting))
  }

  /** And the target objects are the broker's own; all else is as it may be. */
  ghost predicate Still(w: World, s: State) {
    && Inv(s) && SourcesRest(w, s)
    && (forall tk :: tk in s.targets ==> s.targets[tk].owner.Some?)
  }

  /**
    What may happen: calls of passes, whatever they set out from, and their failures; and the target cluster
    finishes its deletions, and deletes what is in a namespace that it is deleting.
   */
  ghost predicate Steady(w: World, s: State, a: Action) {
    match a
    case TargetFinish(_) => true
    case NamespaceFinish(_) => true
    case TargetMark(tk) => tk.ns in s.namespaces && s.namespaces[tk.ns].deleting
    case _ => Honest(w, s, a)
  }

  lemma OnlyFinalizer(w: World, s: State, k: Key, fin: bool)
    requires SourcesRest(w, s) && Cached(s, k).Some?
    ensures SourcesRest(w, s.(views := s.views[k := [Some(Cached(s, k).value.(fin := fin))]]))
  {
    hide Closed;
    assert Graph(s.(views := s.views[k := [Some(Cached(s, k).value.(fin := fin))]])) == Graph(s);
  }

  lemma FinalizerStill(w: World, s: State, k: Key)
    requires SourcesRest(w, s)
    ensures SourcesRest(w, AddFinalizer(s, k)) && SourcesRest(w, RemoveFinalizer(s, k))
  {
    hide Closed, Graph;
    if Cached(s, k).Some? {
      assert Live(s, k) == Cached(s, k);
      OnlyFinalizer(w, s, k, true);
      OnlyFinalizer(w, s, k, false);
    }
  }

  lemma SameSources(w: World, s: State, s': State)
    requires SourcesRest(w, s) && s'.views == s.views
    ensures SourcesRest(w, s')
  {
    hide Closed;
    assert forall k :: Cached(s', k) == Cached(s, k);
    assert Graph(s') == Graph(s);
  }

  lemma EffectOwners(cfg: Config, s: State, k: Key, pc: Pc, c: Choice, tk: TargetKey)
    requires forall x :: x in s.targets ==> s.targets[x].owner.Some?
    requires tk in Effect(cfg, s, k, pc, c).targets
    ensures Effect(cfg, s, k, pc, c).targets[tk].owner.Some?
  {
    hide WriteTarget;
    if !pc.Write? && !pc.DelIssue? {
      NoTargetEffect(cfg, s, k, pc, c);
    }
  }

  lemma PassStill(w: World, s: State, k: Key, c: Choice)
    requires Still(w, s)
    ensures Still(w, PassStep(w.cfg, s, k, c))
  {
    hide Inv, SourcesRest, Effect, NextPc, AddFinalizer, RemoveFinalizer;
    var e := Effect(w.cfg, s, k, PcOf(s, k), c);
    StepKeeps(w.cfg, s, Pass(k, c));
    FinalizerStill(w, s, k);
    if e.views == s.views {
      SameSources(w, s, PassStep(w.cfg, s, k, c));
    } else if e.views == AddFinalizer(s, k).views {
      SameSources(w, AddFinalizer(s, k), PassStep(w.cfg, s, k, c));
    } else {
      SameSources(w, RemoveFinalizer(s, k), PassStep(w.cfg, s, k, c));
    }
    forall tk | tk in e.targets
      ensures e.targets[tk].owner.Some?
    {
      EffectOwners(w.cfg, s, k, PcOf(s, k), c, tk);
    }
  }

  lemma StillStep(w: World, s: State, a: Action)
    requires Still(w, s) && Steady(w, s, a)
    ensures Still(w, Step(w.cfg, s, a))
  {
    hide Inv, SourcesRest, PassStep;
    if a.Pass? {
      PassStill(w, s, a.k, a.c);
    } else {
      StepKeeps(w.cfg, s, a);
      SameSources(w, s, Step(w.cfg, s, a));
    }
  }

  // ---------- Passes that have begun on the sources at rest ----------

  /** A pass under way knows its object, but for the finalizer, and whether it is wanted. */
  lemma GotFresh(w: World, s: State, k: Key, o: SourceObject, c: Choice)
    requires SourcesRest(w, s) && Cached(s, k) == Some(o) && Honest(w, s, Pass(k, c))
    ensures var next := BranchPc(w.cfg, k, o, c.wanted);
            next.Idle? || (next.o == o && match next
              case NsList(_) => k.NsKey?
              case DelNs(_) => IsUnwanted(w, k)
              case VolumeFin(_) => k.ObjKey? && IsWanted(w, k)
              case RecNs(_) => k.ObjKey? && IsWanted(w, k)
              case _ => false)
  {
    hide SecretReferenced, NetworkUsedLive, VipUsed, NicUsed, VolumeUsed;
    assert k in Graph(s) && Typed(k, w.g[k].spec);
    assert !o.deleting;
  }

  lemma GotTyped(w: World, k: Key)
    requires Closed(w.g) && k in w.g
    ensures Typed(k, w.g[k].spec)
  {
  }

  lemma ReferredFresh(w: World, s: State, k: Key, o: SourceObject, c: Choice)
    requires SourcesRest(w, s) && Cached(s, k) == Some(o) && Honest(w, s, Pass(k, c)) && c.wanted
    ensures IsWanted(w, k)
  {
    hide Wanted;
    assert k in Graph(s);
    GotTyped(w, k);
  }

  lemma NextFresh(w: World, s: State, k: Key, c: Choice)
    requires SourcesRest(w, s) && PcFresh(w, s, k) && Honest(w, s, Pass(k, c))
    ensures FreshAt(w, s, k, NextPc(w.cfg, s, k, PcOf(s, k), c))
  {
    hide SourcesRest, Honest, IsWanted, IsUnwanted, ListSingle, TargetLookup, ReadTarget, LookupOrder, BranchPc;
    var pc := PcOf(s, k);
    if pc.Got? {
      GotFresh(w, s, k, pc.o, c);
    } else if pc.NsRef? && c.wanted {
      ReferredFresh(w, s, k, pc.o, c);
    }
  }

  lemma FreshOn(w: World, s: State, x: State, k: Key, pc: Pc)
    requires FreshAt(w, s, k, pc) && (pc.Idle? || Cached(x, k) == Cached(s, k))
    ensures PcFresh(w, Goto(x, k, pc), k)
  {
    hide IsWanted, IsUnwanted;
    assert Cached(Goto(x, k, pc), k) == Cached(x, k) && PcOf(Goto(x, k, pc), k) == pc;
  }

  /** A call that changes the source object is the last of its pass. */
  lemma LastChange(w: World, s: State, k: Key, c: Choice)
    requires PcFresh(w, s, k) && !NextPc(w.cfg, s, k, PcOf(s, k), c).Idle?
    ensures Cached(Effect(w.cfg, s, k, PcOf(s, k), c), k) == Cached(s, k)
  {
    hide IsWanted, IsUnwanted, WriteTarget, ListSingle, TargetLookup, ReadTarget, LookupOrder, AddFinalizer, BranchPc;
  }

  lemma OwnFresh(w: World, s: State, k: Key, c: Choice)
    requires SourcesRest(w, s) && PcFresh(w, s, k) && Honest(w, s, Pass(k, c))
    ensures PcFresh(w, PassStep(w.cfg, s, k, c), k)
  {
    hide SourcesRest, FreshAt, Honest, Effect, NextPc, Goto;
    NextFresh(w, s, k, c);
    var next := NextPc(w.cfg, s, k, PcOf(s, k), c);
    if !next.Idle? {
      LastChange(w, s, k, c);
    }
    FreshOn(w, s, Effect(w.cfg, s, k, PcOf(s, k), c), k, next);
  }

  lemma OtherCached(w: World, s: State, a: Action, k: Key)
    requires Steady(w, s, a) && !(a.Pass? && a.k == k)
    ensures Cached(Step(w.cfg, s, a), k) == Cached(s, k)
  {
    hide Effect, NextPc, TargetStep;
    if a.Pass? {
      OtherViewSame(w.cfg, s, a.k, a.c, k);
      assert ViewOf(Step(w.cfg, s, a), k) == ViewOf(s, k);
    } else {
      assert ViewOf(Step(w.cfg, s, a), k) == ViewOf(s, k);
    }
  }

  lemma OtherFresh(w: World, s: State, a: Action, k: Key)
    requires Still(w, s) && Steady(w, s, a) && PcFresh(w, s, k) && !(a.Pass? && a.k == k)
    ensures PcFresh(w, Step(w.cfg, s, a), k)
  {
    hide Inv, SourcesRest, PassStep, Honest, IsWanted, IsUnwanted;
    OtherStepPc(w.cfg, s, a, k);
    OtherCached(w, s, a, k);
  }

  lemma FreshStep(w: World, s: State, a: Action, k: Key)
    requires Still(w, s) && Steady(w, s, a) && PcFresh(w, s, k)
    ensures PcFresh(w, Step(w.cfg, s, a), k)
  {
    hide Inv, SourcesRest, PassStep, PcFresh, Honest;
    if a.Pass? && a.k == k {
      OwnFresh(w, s, k, a.c);
    } else {
      OtherFresh(w, s, a, k);
    }
  }

  // ---------- Runs on the sources at rest ----------

  ghost predicate SteadyAt(w: World, s: State, actions: seq<Action>, n: nat)
    requires n < |actions|
  {
    Steady(w, StateAt(w.cfg, s, actions, n), actions[n])
  }

  ghost predicate SteadyRun(w: World, s: State, actions: seq<Action>) {
    forall n :: 0 <= n < |actions| ==> SteadyAt(w, s, actions, n)
  }

  lemma {:induction false} RunStill(w: World, s: State, actions: seq<Action>, n: nat)
    requires Still(w, s) && SteadyRun(w, s, actions) && n <= |actions|
    ensures Still(w, StateAt(w.cfg, s, actions, n))
  {
    hide Still, Steady, Step, Run;
    if n == 0 {
      EndStates(w.cfg, s, actions);
    } else {
      RunStill(w, s, actions, n - 1);
      NextState(w.cfg, s, actions, n - 1);
      assert SteadyAt(w, s, actions, n - 1);
      StillStep(w, StateAt(w.cfg, s, actions, n - 1), actions[n - 1]);
    }
  }

  lemma {:induction false} RunFresh(w: World, s: State, actions: seq<Action>, k: Key, m: nat, n: nat)
    requires Still(w, s) && SteadyRun(w, s, actions) && m <= n <= |actions|
    requires PcFresh(w, StateAt(w.cfg, s, actions, m), k)
    ensures PcFresh(w, StateAt(w.cfg, s, actions, n), k)
  {
    hide Still, Steady, Step, StateAt, PcFresh;
    if m < n {
      RunFresh(w, s, actions, k, m, n - 1);
      RunStill(w, s, actions, n - 1);
      NextState(w.cfg, s, actions, n - 1);
      assert SteadyAt(w, s, actions, n - 1);
      FreshStep(w, StateAt(w.cfg, s, actions, n - 1), actions[n - 1], k);
    }
  }

  ghost predicate RestsOnce(cfg: Config, s: State, actions: seq<Action>, k: Key) {
    exists n :: 0 <= n <= |actions| && PcOf(StateAt(cfg, s, actions, n), k).Idle?
  }

  /** Every pass that was under way at the beginning has ended, or failed. */
  ghost predicate Rested(cfg: Config, s: State, actions: seq<Action>) {
    forall k :: RestsOnce(cfg, s, actions, k)
  }

  ghost predicate AllFresh(w: World, s: State) {
    forall k :: PcFresh(w, s, k)
  }

  lemma RestedIsFresh(w: World, s: State, actions: seq<Action>)
    requires Still(w, s) && SteadyRun(w, s, actions) && Rested(w.cfg, s, actions)
    ensures Still(w, Run(w.cfg, s, actions)) && AllFresh(w, Run(w.cfg, s, actions))
  {
    hide Still, SteadyRun, Run, StateAt;
    EndStates(w.cfg, s, actions);
    RunStill(w, s, actions, |actions|);
    forall k
      ensures PcFresh(w, Run(w.cfg, s, actions), k)
    {
      assert RestsOnce(w.cfg, s, actions, k);
      var n :| 0 <= n <= |actions| && PcOf(StateAt(w.cfg, s, actions, n), k).Idle?;
      RunFresh(w, s, actions, k, n, |actions|);
    }
  }

  // ---------- What is unwanted ----------

  /** Whatever targets the object has are being deleted. */
  ghost predicate Condemned(s: State, k: Key) {
    forall tk :: TargetFor(s, k, tk) ==> s.targets[tk].deleting
  }

  /** An object with a target holds the finalizer, and the cache shows it. */
  lemma TargetIsHeld(s: State, k: Key, tk: TargetKey)
    requires Inv(s)
    ensures TargetFor(s, k, tk) ==> HasFin(s, k)
  {
    if TargetFor(s, k, tk) {
      assert TargetOk(s, tk);
      assert Cached(s, k) == ViewOf(s, k)[0];
    }
  }

  lemma UnheldHasNoTarget(s: State, k: Key)
    requires Inv(s) && !HasFin(s, k)
    ensures NoTargetFor(s, k)
  {
    hide Inv, HasFin, TargetFor;
    forall tk
      ensures !TargetFor(s, k, tk)
    {
      TargetIsHeld(s, k, tk);
    }
  }

  lemma UnlistedHasNoTarget(s: State, k: Key)
    requires Inv(s) && PcOf(s, k).DelList? && k.ObjKey? && ListSingle(s, PcOf(s, k).nsUid).NotFound?
    ensures NoTargetFor(s, k)
  {
    hide ListSingle, Held, Doomed;
    PcsAreOk(s, k);
    ListSingleExact(s, PcOf(s, k).nsUid);
  }

  lemma DeletesTarget(cfg: Config, s: State, k: Key, c: Choice)
    requires Inv(s) && PcOf(s, k).DelIssue? && k.ObjKey?
    ensures Condemned(Effect(cfg, s, k, PcOf(s, k), c), k)
  {
    hide Held, Doomed, PastOk, FoundOk;
    PcsAreOk(s, k);
    var t := PcOf(s, k).t;
    assert forall tk :: TargetFor(s, k, tk) ==> tk == TargetKeyOf(k, t);
    DeletedOut(s, k, t, c.vanish, k);
  }

  lemma NoneIsCondemned(s: State, s': State, k: Key)
    requires NoTargetFor(s, k) && s'.targets == s.targets && s'.namespaces == s.namespaces
    ensures Condemned(s', k)
  {
    assert forall tk :: TargetFor(s', k, tk) <==> TargetFor(s, k, tk);
  }

  lemma GotoCondemned(s: State, k: Key, pc: Pc)
    requires Condemned(s, k)
    ensures Condemned(Goto(s, k, pc), k)
  {
    assert forall tk :: TargetFor(Goto(s, k, pc), k, tk) <==> TargetFor(s, k, tk);
  }

  lemma NeverRejected(s: State, uid: Uid)
    requires Inv(s)
    ensures !ListSingle(s, uid).Rejected?
  {
    hide Inv, ListSingle;
    ListSingleExact(s, uid);
  }

  /** The calls with which a pass on an unwanted object ends. */
  lemma UnwantedPassStop(w: World, s: State, k: Key, c: Choice)
    requires Still(w, s) && PcFresh(w, s, k) && Honest(w, s, Pass(k, c)) && IsUnwanted(w, k)
    requires !PcOf(s, k).Idle? && NextPc(w.cfg, s, k, PcOf(s, k), c).Idle?
    ensures var pc := PcOf(s, k);
            (pc.Got? && !HasFin(s, k)) || pc.DelFin? || pc.DelIssue? ||
            (pc.DelList? && ListSingle(s, pc.nsUid).NotFound?)
  {
    hide Inv, Wanted, ListSingle;
    assert k in Graph(s) && NsKey(k.ns) in Graph(s);
    if PcOf(s, k).DelList? {
      NeverRejected(s, PcOf(s, k).nsUid);
    }
  }

  /** A complete pass on an unwanted object has its targets deleted. */
  lemma UnwantedCondemned(w: World, s: State, k: Key, c: Choice)
    requires Still(w, s) && PcFresh(w, s, k) && Honest(w, s, Pass(k, c)) && IsUnwanted(w, k)
    requires !PcOf(s, k).Idle? && NextPc(w.cfg, s, k, PcOf(s, k), c).Idle?
    ensures Condemned(PassStep(w.cfg, s, k, c), k)
  {
    hide Inv, SourcesRest, Honest, NextPc, ListSingle, Condemned, NoTargetFor, HasFin, PcFresh, DeleteTarget,
      RemoveFinalizer, WriteTarget, Goto, Wanted;
    UnwantedPassStop(w, s, k, c);
    var pc, e := PcOf(s, k), Effect(w.cfg, s, k, PcOf(s, k), c);
    if pc.DelIssue? {
      DeletesTarget(w.cfg, s, k, c);
    } else {
      if pc.Got? {
        UnheldHasNoTarget(s, k);
      } else if pc.DelList? {
        UnlistedHasNoTarget(s, k);
      } else {
        ReleasedBy(s, k);
      }
      NoneIsCondemned(s, e, k);
    }
    GotoCondemned(e, k, Idle);
  }

  lemma SteadyOnlyGo(w: World, s: State, a: Action, k: Key)
    requires Still(w, s) && Steady(w, s, a) && PcFresh(w, s, k) && IsUnwanted(w, k)
    ensures OnlyGo(s, Step(w.cfg, s, a), k)
  {
    hide Inv, SourcesRest, Effect, NextPc, OnlyGo, TargetStep, SourceStep, Goto, Wanted;
    if a.Pass? {
      EffectOut(w.cfg, s, a.k, a.c, k);
      GotoOut(s, Effect(w.cfg, s, a.k, PcOf(s, a.k), a.c), a.k, NextPc(w.cfg, s, a.k, PcOf(s, a.k), a.c), k);
    } else if TargetSide(a) {
      TargetStepOnlyGo(s, a, k);
    } else {
      SameTargetsOut(s, s, k);
      GotoOut(s, s, a.k, Idle, k);
    }
  }

  lemma StaysFresh(w: World, s: State, actions: seq<Action>, k: Key, n: nat)
    requires Still(w, s) && AllFresh(w, s) && SteadyRun(w, s, actions) && n <= |actions|
    ensures PcFresh(w, StateAt(w.cfg, s, actions, n), k)
  {
    hide Still, SteadyRun, Run, PcFresh;
    EndStates(w.cfg, s, actions);
    assert PcFresh(w, StateAt(w.cfg, s, actions, 0), k);
    RunFresh(w, s, actions, k, 0, n);
  }

  lemma {:induction false} UnwantedOnlyGoes(w: World, s: State, actions: seq<Action>, k: Key, m: nat, n: nat)
    requires Still(w, s) && AllFresh(w, s) && SteadyRun(w, s, actions) && IsUnwanted(w, k) && m <= n <= |actions|
    ensures OnlyGo(StateAt(w.cfg, s, actions, m), StateAt(w.cfg, s, actions, n), k)
  {
    hide Still, Steady, Step, Run, PcFresh, OnlyGo, IsUnwanted;
    if m == n {
      SameTargetsOut(StateAt(w.cfg, s, actions, m), StateAt(w.cfg, s, actions, m), k);
    } else {
      var before := StateAt(w.cfg, s, actions, n - 1);
      UnwantedOnlyGoes(w, s, actions, k, m, n - 1);
      RunStill(w, s, actions, n - 1);
      StaysFresh(w, s, actions, k, n - 1);
      NextState(w.cfg, s, actions, n - 1);
      assert SteadyAt(w, s, actions, n - 1);
      SteadyOnlyGo(w, before, actions[n - 1], k);
      OnlyGoTrans(StateAt(w.cfg, s, actions, m), before, StateAt(w.cfg, s, actions, n), k);
    }
  }

  /** On every unwanted object a pass begins and ends. */
  ghost predicate Cleaned(w: World, s: State, actions: seq<Action>) {
    forall k :: IsUnwanted(w, k) ==> HasPass(w.cfg, s, actions, k)
  }

  /** The target cluster has finished all deletions. */
  ghost predicate Finished(s: State) {
    && (forall t :: t in s.namespaces ==> !s.namespaces[t].deleting)
    && (forall tk :: tk in s.targets ==> !s.targets[tk].deleting)
  }

  lemma PassCondemns(w: World, s: State, actions: seq<Action>, k: Key, i: nat, j: nat)
    requires Still(w, s) && AllFresh(w, s) && SteadyRun(w, s, actions) && IsUnwanted(w, k)
    requires CompletePass(w.cfg, s, actions, k, i, j)
    ensures Condemned(StateAt(w.cfg, s, actions, j), k)
  {
    hide Still, Honest, StateAt, Effect, NextPc, PcFresh, IsUnwanted, Condemned;
    RunStill(w, s, actions, j - 1);
    StaysFresh(w, s, actions, k, j - 1);
    NextState(w.cfg, s, actions, j - 1);
    assert SteadyAt(w, s, actions, j - 1);
    UnwantedCondemned(w, StateAt(w.cfg, s, actions, j - 1), k, actions[j - 1].c);
  }

  lemma StaysCondemned(s: State, s': State, k: Key)
    requires Condemned(s, k) && OnlyGo(s, s', k) && Finished(s')
    ensures NoTargetFor(s', k)
  {
  }

  /** When the target cluster has finished, nothing unwanted has a target. */
  lemma UnwantedGone(w: World, s: State, actions: seq<Action>, k: Key)
    requires Still(w, s) && AllFresh(w, s) && SteadyRun(w, s, actions) && IsUnwanted(w, k)
    requires HasPass(w.cfg, s, actions, k) && Finished(Run(w.cfg, s, actions))
    ensures NoTargetFor(Run(w.cfg, s, actions), k)
  {
    hide Still, AllFresh, SteadyRun, Run, IsUnwanted;
    var i, j :| CompletePass(w.cfg, s, actions, k, i, j);
    PassCondemns(w, s, actions, k, i, j);
    UnwantedOnlyGoes(w, s, actions, k, j, |actions|);
    EndStates(w.cfg, s, actions);
    StaysCondemned(StateAt(w.cfg, s, actions, j), Run(w.cfg, s, actions), k);
  }

  // ---------- Calm ----------

  /** The names that have a target namespace. */
  ghost function MappedNames(s: State): set<string> {
    set t | t in s.namespaces :: s.namespaces[t].ownerName
  }

  /** The world as it is from then on. */
  ghost function Later(w: World, s: State): World {
    w.(kept := MappedNames(s))
  }

  lemma SourceOfTarget(w: World, s: State, tk: TargetKey)
    requires Still(w, s) && tk in s.targets
    ensures tk.ns in s.namespaces && TargetFor(s, SourceKey(s, tk), tk)
    ensures SourceKey(s, tk) in w.g && Typed(SourceKey(s, tk), w.g[SourceKey(s, tk)].spec)
  {
    assert TargetOk(s, tk);
    TargetIsHeld(s, SourceKey(s, tk), tk);
    assert SourceKey(s, tk) in Graph(s);
  }

  lemma ClosedNamespace(w: World, s: State, k: Key)
    requires SourcesRest(w, s) && k.ObjKey? && k in w.g
    ensures NsKey(k.ns) in w.g && Typed(NsKey(k.ns), w.g[NsKey(k.ns)].spec)
  {
  }

  lemma KeptIsNeeded(w: World, s: State, tk: TargetKey)
    requires Still(w, s) && tk in s.targets && tk.ns in s.namespaces && !s.targets[tk].deleting
    requires NoTargetFor(s, SourceKey(s, tk)) || !IsUnwanted(w, SourceKey(s, tk))
    ensures RestingTarget(Later(w, s), s, tk)
  {
    hide Inv, SourcesRest, Wanted, NamespaceUsed;
    SourceOfTarget(w, s, tk);
    var k, l := SourceKey(s, tk), Later(w, s);
    assert k.ns in l.kept;
    assert NsKey(k.ns) in w.g && Typed(NsKey(k.ns), w.g[NsKey(k.ns)].spec) by {
      ClosedNamespace(w, s, k);
    }
  }

  lemma KeptHasNamespace(w: World, s: State)
    ensures forall name :: name in Later(w, s).kept ==> HasNamespace(s, name)
  {
    forall name | name in Later(w, s).kept
      ensures HasNamespace(s, name)
    {
      var t :| t in s.namespaces && s.namespaces[t].ownerName == name;
      assert IsNamespaceFor(s, name, t);
    }
  }

  /** Once the target cluster has finished and nothing unwanted has a target, the clusters are calm. */
  lemma BecomesCalm(w: World, s: State)
    requires Still(w, s) && Finished(s) && forall k :: IsUnwanted(w, k) ==> NoTargetFor(s, k)
    ensures Calm(Later(w, s), s)
  {
    hide Inv, Closed, Graph, IsUnwanted, NoTargetFor, RestingTarget, NamespaceUsed;
    KeptHasNamespace(w, s);
    forall tk | tk in s.targets
      ensures RestingTarget(Later(w, s), s, tk)
    {
      SourceOfTarget(w, s, tk);
      KeptIsNeeded(w, s, tk);
    }
  }

  // ---------- Settled ----------

  lemma SameWorld(w: World, s: State, l: World)
    requires l.cfg == w.cfg && l.g == w.g
    ensures AllFresh(w, s) ==> AllFresh(l, s)
    ensures forall a :: Honest(w, s, a) <==> Honest(l, s, a)
  {
    hide Wanted;
    if AllFresh(w, s) {
      forall k
        ensures PcFresh(l, s, k)
      {
        assert PcFresh(w, s, k);
      }
    }
  }

  lemma CalmIsStill(w: World, s: State)
    requires Calm(w, s)
    ensures Still(w, s)
  {
    hide Inv, Closed, Graph;
    forall tk | tk in s.targets
      ensures s.targets[tk].owner.Some?
    {
      assert RestingTarget(w, s, tk);
    }
  }

  lemma CalmStep(w: World, s: State, a: Action)
    requires Calm(w, s) && AllFresh(w, s) && Honest(w, s, a)
    ensures Calm(w, Step(w.cfg, s, a)) && AllFresh(w, Step(w.cfg, s, a))
    ensures Further(s, Step(w.cfg, s, a)) && OnlyFor(s, Step(w.cfg, s, a), a.k)
  {
    hide Calm, Still, PassStep, PcFresh, Wanted, Further, OnlyFor, HoldsRight, Goto;
    CalmIsStill(w, s);
    forall k
      ensures PcFresh(w, Step(w.cfg, s, a), k)
    {
      assert PcFresh(w, s, k);
      FreshStep(w, s, a, k);
    }
    match a
    case Pass(k, c) =>
      assert PcFresh(w, s, k);
      StepCalm(w, s, k, c);
    case Fail(k) => FailCalm(w, s, k);
  }

  lemma {:induction false} RunCalm(w: World, s: State, actions: seq<Action>, n: nat)
    requires Calm(w, s) && AllFresh(w, s) && HonestRun(w, s, actions) && n <= |actions|
    ensures Calm(w, StateAt(w.cfg, s, actions, n)) && AllFresh(w, StateAt(w.cfg, s, actions, n))
  {
    hide Calm, AllFresh, Honest, Step, Run, Further, OnlyFor;
    if n == 0 {
      EndStates(w.cfg, s, actions);
    } else {
      RunCalm(w, s, actions, n - 1);
      NextState(w.cfg, s, actions, n - 1);
      assert HonestAt(w, s, actions, n - 1);
      CalmStep(w, StateAt(w.cfg, s, actions, n - 1), actions[n - 1]);
    }
  }

  lemma SettledStays(w: World, s: State, a: Action, k: Key)
    requires Calm(w, s) && AllFresh(w, s) && Honest(w, s, a) && PcSettled(w, s, k)
    ensures PcSettled(w, Step(w.cfg, s, a), k)
  {
    hide Calm, AllFresh, PassStep, PcSettled, Further, OnlyFor, Wanted, Goto;
    CalmStep(w, s, a);
    if a.k != k {
      OtherSettled(w, s, Step(w.cfg, s, a), a.k, k);
    } else if a.Pass? {
      OwnSettled(w, s, k, a.c);
    } else {
      IdleFits(w, s, k);
      FitsOn(w, s, k, Idle);
    }
  }

  lemma {:induction false} RunSettles(w: World, s: State, actions: seq<Action>, k: Key, m: nat, n: nat)
    requires Calm(w, s) && AllFresh(w, s) && HonestRun(w, s, actions) && m <= n <= |actions|
    requires PcOf(StateAt(w.cfg, s, actions, m), k).Idle?
    ensures PcSettled(w, StateAt(w.cfg, s, actions, n), k)
  {
    hide Calm, AllFresh, Honest, Step, StateAt, PcFits;
    if m == n {
      IdleFits(w, StateAt(w.cfg, s, actions, m), k);
    } else {
      RunSettles(w, s, actions, k, m, n - 1);
      RunCalm(w, s, actions, n - 1);
      NextState(w.cfg, s, actions, n - 1);
      assert HonestAt(w, s, actions, n - 1);
      SettledStays(w, StateAt(w.cfg, s, actions, n - 1), actions[n - 1], k);
    }
  }

  /** Once every pass that was under way has ended, calm clusters are settled. */
  lemma RestedIsSettled(w: World, s: State, actions: seq<Action>)
    requires Calm(w, s) && AllFresh(w, s) && HonestRun(w, s, actions) && Rested(w.cfg, s, actions)
    ensures Settled(w, Run(w.cfg, s, actions))
  {
    hide Calm, AllFresh, HonestRun, Run, StateAt, PcSettled;
    EndStates(w.cfg, s, actions);
    RunCalm(w, s, actions, |actions|);
    forall k
      ensures PcSettled(w, Run(w.cfg, s, actions), k)
    {
      assert RestsOnce(w.cfg, s, actions, k);
      var n :| 0 <= n <= |actions| && PcOf(StateAt(w.cfg, s, actions, n), k).Idle?;
      RunSettles(w, s, actions, k, n, |actions|);
    }
  }

  // ---------- Recovery ----------

  /** What a run from a state with sources at rest has to contain for it to end in a settled state. */
  ghost predicate Recovers(w: World, s: State, ending: seq<Action>, cleaning: seq<Action>, resting: seq<Action>) {
    var s1 := Run(w.cfg, s, ending);
    var s2 := Run(w.cfg, s1, cleaning);
    // the passes under way end
    && SteadyRun(w, s, ending) && Rested(w.cfg, s, ending)
    // what is unwanted has a pass, and the target cluster finishes what it is told to delete
    && SteadyRun(w, s1, cleaning) && Cleaned(w, s1, cleaning) && Finished(s2)
    // the passes under way end
    && HonestRun(w, s2, resting) && Rested(w.cfg, s2, resting)
  }

  lemma CleanedIsCalm(w: World, s: State, actions: seq<Action>)
    requires Still(w, s) && AllFresh(w, s) && SteadyRun(w, s, actions) && Cleaned(w, s, actions)
    requires Finished(Run(w.cfg, s, actions))
    ensures Calm(Later(w, Run(w.cfg, s, actions)), Run(w.cfg, s, actions))
    ensures AllFresh(w, Run(w.cfg, s, actions))
  {
    hide Still, SteadyRun, Run, IsUnwanted, PcFresh, Finished, StateAt;
    EndStates(w.cfg, s, actions);
    RunStill(w, s, actions, |actions|);
    forall k
      ensures PcFresh(w, Run(w.cfg, s, actions), k)
      ensures IsUnwanted(w, k) ==> NoTargetFor(Run(w.cfg, s, actions), k)
    {
      StaysFresh(w, s, actions, k, |actions|);
      if IsUnwanted(w, k) {
        UnwantedGone(w, s, actions, k);
      }
    }
    BecomesCalm(w, Run(w.cfg, s, actions));
  }

  lemma RecoversSettled(w: World, s: State, ending: seq<Action>, cleaning: seq<Action>, resting: seq<Action>)
    requires Still(w, s) && Recovers(w, s, ending, cleaning, resting)
    ensures var s2 := Run(w.cfg, Run(w.cfg, s, ending), cleaning);
            Settled(Later(w, s2), Run(w.cfg, s2, resting))
  {
    hide Still, SteadyRun, Run, Rested, Cleaned, Finished, AllFresh, Honest, Calm, StateAt;
    var s1 := Run(w.cfg, s, ending);
    var s2 := Run(w.cfg, s1, cleaning);
    var l := Later(w, s2);
    RestedIsFresh(w, s, ending);
    CleanedIsCalm(w, s1, cleaning);
    SameWorld(w, s2, l);
    forall n | 0 <= n < |resting|
      ensures HonestAt(l, s2, resting, n)
    {
      assert HonestAt(w, s2, resting, n);
      SameWorld(w, StateAt(w.cfg, s2, resting, n), l);
    }
    RestedIsSettled(l, s2, resting);
  }

  /**
    Whatever a run has led to, deletions and edits under way, passes that set out from sources that are no
    more, objects held that nobody wants: once the sources are at rest and only the broker's own targets
    are left, every run that lets the passes under way end, has a pass on what is unwanted and sees the
    target cluster finish, settles, and the sweeps converge from there.
   */
  lemma RecoveryConverges(w: World, s: State, ending: seq<Action>, cleaning: seq<Action>, resting: seq<Action>,
                          sweeps: seq<seq<Action>>)
    requires Reachable(w.cfg, s) && SourcesRest(w, s) && forall tk :: tk in s.targets ==> s.targets[tk].owner.Some?
    requires Recovers(w, s, ending, cleaning, resting)
    requires var s2 := Run(w.cfg, Run(w.cfg, s, ending), cleaning);
             AreSweeps(Later(w, s2), Run(w.cfg, s2, resting), sweeps) && |sweeps| >= STAGES
    ensures var s2 := Run(w.cfg, Run(w.cfg, s, ending), cleaning);
            var s3 := Run(w.cfg, s2, resting);
            Converged(Later(w, s2), Targeted(s3), AllSweeps(w.cfg, s3, sweeps))
  {
    hide Inv, SourcesRest, Recovers, Run, AreSweeps, AllSweeps, Settled, Converged;
    ReachableInv(w.cfg, s);
    RecoversSettled(w, s, ending, cleaning, resting);
    var s2 := Run(w.cfg, Run(w.cfg, s, ending), cleaning);
    SevenSweepsConverge(Later(w, s2), Run(w.cfg, s2, resting), sweeps);
  }

  // ---------- Recovery is possible ----------

  lemma HonestIsSteady(w: World, s: State, actions: seq<Action>)
    requires HonestRun(w, s, actions)
    ensures SteadyRun(w, s, actions)
  {
    hide Wanted, StateAt;
    forall n | 0 <= n < |actions|
      ensures SteadyAt(w, s, actions, n)
    {
      assert HonestAt(w, s, actions, n);
    }
  }

  lemma RestsLonger(cfg: Config, s: State, actions: seq<Action>, longer: seq<Action>, k: Key)
    requires RestsOnce(cfg, s, actions, k) && actions <= longer
    ensures RestsOnce(cfg, s, longer, k)
  {
    hide Run;
    var n :| 0 <= n <= |actions| && PcOf(StateAt(cfg, s, actions, n), k).Idle?;
    assert longer[..n] == actions[..n];
    assert PcOf(StateAt(cfg, s, longer, n), k).Idle?;
  }

  lemma IdleRests(cfg: Config, s: State, actions: seq<Action>, n: nat, k: Key)
    requires n <= |actions| && PcOf(StateAt(cfg, s, actions, n), k).Idle?
    ensures RestsOnce(cfg, s, actions, k)
  {
  }

  lemma {:induction false} PassesCanEnd(w: World, s: State, keys: set<Key>) returns (actions: seq<Action>)
    ensures HonestRun(w, s, actions) && forall k :: k in keys ==> RestsOnce(w.cfg, s, actions, k)
    decreases keys
  {
    hide Run, Honest, RestsOnce;
    if keys == {} {
      actions := [];
    } else {
      var k :| k in keys;
      var shorter := PassesCanEnd(w, s, keys - {k});
      actions := PassCanEnd(w, s, shorter, k);
      EndStates(w.cfg, s, actions);
      IdleRests(w.cfg, s, actions, |actions|, k);
      forall j | j in keys && j != k {
        RestsLonger(w.cfg, s, shorter, actions, j);
      }
    }
  }

  /** All passes under way can end. */
  lemma RestExists(w: World, s: State) returns (actions: seq<Action>)
    ensures HonestRun(w, s, actions) && Rested(w.cfg, s, actions)
  {
    hide Run, HonestRun, RestsOnce, StateAt;
    actions := PassesCanEnd(w, s, s.pcs.Keys);
    forall k
      ensures RestsOnce(w.cfg, s, actions, k)
    {
      if k !in s.pcs {
        EndStates(w.cfg, s, actions);
        IdleRests(w.cfg, s, actions, 0, k);
      }
    }
  }

  lemma ReadInRun(w: World, s: State, actions: seq<Action>, k: Key)
    requires Still(w, s) && HonestRun(w, s, actions) && k in w.g
    ensures Cached(Run(w.cfg, s, actions), k).Some?
  {
    hide Inv, Closed, HonestRun, SteadyRun, Run;
    HonestIsSteady(w, s, actions);
    RunStill(w, s, actions, |actions|);
    EndStates(w.cfg, s, actions);
    assert k in Graph(Run(w.cfg, s, actions));
  }

  lemma {:induction false} UnwantedCanRun(w: World, s: State, keys: set<Key>) returns (actions: seq<Action>)
    requires Still(w, s) && forall k :: k in keys ==> k in w.g
    ensures HonestRun(w, s, actions) && forall k :: k in keys ==> HasPass(w.cfg, s, actions, k)
    decreases keys
  {
    hide Still, Run, HasPass, Honest;
    if keys == {} {
      actions := [];
    } else {
      var k :| k in keys;
      var shorter := UnwantedCanRun(w, s, keys - {k});
      var idle := PassCanEnd(w, s, shorter, k);
      ReadInRun(w, s, idle, k);
      actions := PassFrom(w, s, idle, k);
      forall j | j in keys && j != k {
        HasPassLonger(w.cfg, s, shorter, actions, j);
      }
    }
  }

  lemma SteadyOneMore(w: World, s: State, actions: seq<Action>, a: Action)
    requires SteadyRun(w, s, actions) && Steady(w, Run(w.cfg, s, actions), a)
    ensures SteadyRun(w, s, actions + [a])
    ensures Run(w.cfg, s, actions + [a]) == Step(w.cfg, Run(w.cfg, s, actions), a)
  {
    hide Steady, Step;
    var longer := actions + [a];
    assert longer[..|actions|] == actions;
    forall n | 0 <= n < |longer|
      ensures SteadyAt(w, s, longer, n)
    {
      assert longer[..n] == actions[..n];
      if n < |actions| {
        assert SteadyAt(w, s, actions, n);
      } else {
        assert actions[..n] == actions;
      }
    }
  }

  /** A target that is being deleted goes away. */
  lemma FinishOne(w: World, s: State, actions: seq<Action>, tk: TargetKey) returns (longer: seq<Action>)
    requires SteadyRun(w, s, actions)
    requires var e := Run(w.cfg, s, actions); tk in e.targets && e.targets[tk].deleting
    ensures SteadyRun(w, s, longer) && actions <= longer
    ensures Run(w.cfg, s, longer) == DropTarget(Run(w.cfg, s, actions), tk)
  {
    hide SteadyRun, Run, DropTarget;
    SteadyOneMore(w, s, actions, TargetFinish(tk));
    longer := actions + [TargetFinish(tk)];
  }

  lemma MarkOne(w: World, s: State, actions: seq<Action>, tk: TargetKey) returns (longer: seq<Action>)
    requires SteadyRun(w, s, actions)
    requires var e := Run(w.cfg, s, actions); tk in e.targets && tk.ns in e.namespaces && e.namespaces[tk.ns].deleting
    ensures SteadyRun(w, s, longer) && actions <= longer
    ensures var e := Run(w.cfg, s, actions);
            Run(w.cfg, s, longer) == PutTarget(e, tk, e.targets[tk].(deleting := true))
  {
    hide SteadyRun, Run, PutTarget;
    SteadyOneMore(w, s, actions, TargetMark(tk));
    longer := actions + [TargetMark(tk)];
  }

  lemma DropFewer(s: State, tk: TargetKey)
    requires tk in s.targets
    ensures |DropTarget(s, tk).targets| < |s.targets| && DropTarget(s, tk).namespaces == s.namespaces
  {
    hide PutTarget;
    assert DropTarget(s, tk).targets.Keys == s.targets.Keys - {tk};
    assert |s.targets| == |s.targets.Keys| && |DropTarget(s, tk).targets| == |DropTarget(s, tk).targets.Keys|;
  }

  lemma PutAsMany(s: State, tk: TargetKey, x: TargetObject)
    requires tk in s.targets
    ensures |PutTarget(s, tk, x).targets| == |s.targets| && PutTarget(s, tk, x).namespaces == s.namespaces
    ensures tk in PutTarget(s, tk, x).targets && PutTarget(s, tk, x).targets[tk] == x
  {
    hide DropTarget;
    assert PutTarget(s, tk, x).targets.Keys == s.targets.Keys;
    assert |s.targets| == |s.targets.Keys| && |PutTarget(s, tk, x).targets| == |PutTarget(s, tk, x).targets.Keys|;
  }

  /** What is left in the target cluster. */
  function Left(s: State): nat {
    |s.targets| + |s.namespaces|
  }

  lemma TargetGoes(w: World, s: State, actions: seq<Action>, tk: TargetKey) returns (longer: seq<Action>)
    requires SteadyRun(w, s, actions)
    requires var e := Run(w.cfg, s, actions);
             tk in e.targets && (e.targets[tk].deleting || (tk.ns in e.namespaces && e.namespaces[tk.ns].deleting))
    ensures SteadyRun(w, s, longer) && actions <= longer
    ensures Left(Run(w.cfg, s, longer)) < Left(Run(w.cfg, s, actions))
  {
    hide SteadyRun, Run, PutTarget, DropTarget;
    var e := Run(w.cfg, s, actions);
    DropFewer(e, tk);
    if e.targets[tk].deleting {
      longer := FinishOne(w, s, actions, tk);
    } else {
      var marked := MarkOne(w, s, actions, tk);
      PutAsMany(e, tk, e.targets[tk].(deleting := true));
      DropFewer(Run(w.cfg, s, marked), tk);
      longer := FinishOne(w, s, marked, tk);
    }
  }

  lemma NamespaceGoes(w: World, s: State, actions: seq<Action>, t: TargetNs) returns (longer: seq<Action>)
    requires SteadyRun(w, s, actions)
    requires var e := Run(w.cfg, s, actions);
             t in e.namespaces && e.namespaces[t].deleting && forall tk :: tk in e.targets ==> tk.ns != t
    ensures SteadyRun(w, s, longer) && actions <= longer
    ensures Left(Run(w.cfg, s, longer)) < Left(Run(w.cfg, s, actions))
  {
    hide SteadyRun, Run;
    SteadyOneMore(w, s, actions, NamespaceFinish(t));
    longer := actions + [NamespaceFinish(t)];
    var e, e' := Run(w.cfg, s, actions), Run(w.cfg, s, longer);
    assert e' == e.(namespaces := e.namespaces - {t});
    assert e'.namespaces.Keys == e.namespaces.Keys - {t};
    assert |e.namespaces| == |e.namespaces.Keys| && |e'.namespaces| == |e'.namespaces.Keys|;
  }

  /** The target cluster can finish all its deletions, one by one. */
  lemma {:induction false} FinishExists(w: World, s: State, actions: seq<Action>) returns (longer: seq<Action>)
    requires SteadyRun(w, s, actions)
    ensures SteadyRun(w, s, longer) && actions <= longer && Finished(Run(w.cfg, s, longer))
    decreases Left(Run(w.cfg, s, actions))
  {
    hide SteadyRun, Run, Left;
    var e := Run(w.cfg, s, actions);
    if tk :| tk in e.targets && (e.targets[tk].deleting || (tk.ns in e.namespaces && e.namespaces[tk.ns].deleting)) {
      var next := TargetGoes(w, s, actions, tk);
      longer := FinishExists(w, s, next);
    } else if t :| t in e.namespaces && e.namespaces[t].deleting {
      var next := NamespaceGoes(w, s, actions, t);
      longer := FinishExists(w, s, next);
    } else {
      longer := actions;
    }
  }

  lemma UnwantedIn(w: World, k: Key)
    requires IsUnwanted(w, k)
    ensures k in w.g
  {
  }

  /** From every state with sources at rest there is a run that recovers. */
  lemma RecoveryExists(w: World, s: State) returns (ending: seq<Action>, cleaning: seq<Action>, resting: seq<Action>)
    requires Still(w, s)
    ensures Recovers(w, s, ending, cleaning, resting)
  {
    hide Still, Run, HonestRun, SteadyRun, Rested, HasPass, Finished, IsUnwanted;
    ending := RestExists(w, s);
    HonestIsSteady(w, s, ending);
    RunStill(w, s, ending, |ending|);
    EndStates(w.cfg, s, ending);
    var s1 := Run(w.cfg, s, ending);
    var keys := set k | k in w.g.Keys && IsUnwanted(w, k);
    var passes := UnwantedCanRun(w, s1, keys);
    HonestIsSteady(w, s1, passes);
    cleaning := FinishExists(w, s1, passes);
    forall k | IsUnwanted(w, k)
      ensures HasPass(w.cfg, s1, cleaning, k)
    {
      UnwantedIn(w, k);
      assert k in keys;
      HasPassLonger(w.cfg, s1, passes, cleaning, k);
    }
    resting := RestExists(w, Run(w.cfg, s1, cleaning));
  }

  ghost predicate ConvergesBy(w: World, s: State, settling: seq<Action>, syncing: seq<Action>) {
    var s3 := Run(w.cfg, s, settling);
    && Settled(w, s3) && HonestRun(w, s3, syncing)
    && Settled(w, Run(w.cfg, s3, syncing)) && Converged(w, Targeted(s3), Run(w.cfg, s3, syncing))
  }

  /**
    So from every such state some run of the protocol leads to a settled one, and on from there calls of
    passes alone lead to a converged one.
   */
  lemma ConvergesFromAnywhere(w: World, s: State)
    requires Still(w, s)
    ensures exists settling, syncing, kept :: ConvergesBy(w.(kept := kept), s, settling, syncing)
  {
    hide Still, Recovers, Settled, Converged, Run, HonestRun;
    var ending, cleaning, resting := RecoveryExists(w, s);
    RecoversSettled(w, s, ending, cleaning, resting);
    var s2 := Run(w.cfg, Run(w.cfg, s, ending), cleaning);
    var s3, l := Run(w.cfg, s2, resting), Later(w, s2);
    ConvergesByARun(l, s3);
    var syncing :| HonestRun(l, s3, syncing) && Settled(l, Run(w.cfg, s3, syncing)) &&
      Converged(l, Targeted(s3), Run(w.cfg, s3, syncing));
    RunConcat(w.cfg, s, ending, cleaning);
    RunConcat(w.cfg, s, ending + cleaning, resting);
    assert ConvergesBy(w.(kept := MappedNames(s2)), s, ending + cleaning + resting, syncing);
  }
}
