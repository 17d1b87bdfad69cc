/**
  Deletion passes drain a source object: target live, then deleting, then gone, then the
  finalizer goes.  Exactly when they do not, and that they do in any interleaving with the
  passes on other keys, users and both clusters.
 */
module Drain {
  import opened Wrappers
  import opened Objects
  import opened Sync
  import opened Protocol
  import opened ProtocolInvariant
  import opened ProtocolTheorems
  import opened Passes

  // ---------- One delete pass ----------

  /** The object is marked for deletion and held, the cache knows it, and no pass is under way. */
  ghost predicate Marked(cfg: Config, s: State, k: Key) {
    && k.ObjKey? && k !in s.pcs
    && |ViewOf(s, k)| == 1 && Live(s, k).Some?
    && var o := Live(s, k).value;
       o.deleting && o.fin && (k.kind == Machine ==> o.spec.MachineObjSpec? && InPool(o.spec.machine, cfg.pool))
  }

  ghost predicate Draining(cfg: Config, s: State, k: Key, t: TargetNs) {
    Marked(cfg, s, k) && TargetNamespaceFor(s, k) == One(t)
  }

  /** Target live: 3, target deleting: 2, target gone: 1, finalizer gone: 0. */
  ghost function Rank(s: State, k: Key, t: TargetNs): nat {
    if Live(s, k).None? || !Live(s, k).value.fin then 0
    else match TargetAt(s, k, t)
      case None => 1
      case Some(x) => if x.deleting then 2 else 3
  }

  lemma LookupSame(s: State, s': State, k: Key)
    requires s'.namespaces == s.namespaces && Cached(s', NamespaceOf(k)) == Cached(s, NamespaceOf(k))
    ensures TargetNamespaceFor(s', k) == TargetNamespaceFor(s, k)
  {
    match Cached(s, NamespaceOf(k))
    case None =>
    case Some(n) => ListSingleSame(s, s', n.uid);
  }

  lemma MarkedPass(cfg: Config, s: State, k: Key, c: Choice)
    requires Marked(cfg, s, k)
    ensures FullPass(cfg, s, k, c) == DeleteObject(s, k, c)
  {
    hide DeleteObject, ReconcileObject, NamespacePass;
  }

  /** The pass that deletes the target, or asks for it once more. */
  lemma DeletingPass(cfg: Config, s: State, k: Key, t: TargetNs, c: Choice)
    requires Draining(cfg, s, k, t) && TargetAt(s, k, t).Some?
    ensures var s' := DeleteTarget(s, k, t, c.vanish);
            Draining(cfg, s', k, t) && TargetAt(s', k, t) ==
              if c.vanish then None else Some(TargetAt(s, k, t).value.(deleting := true))
  {
    hide TargetNamespaceFor;
    LookupSame(s, DeleteTarget(s, k, t, c.vanish), k);
  }

  /** A delete pass moves on by one rank, unless it has to wait for the target cluster. */
  lemma DrainPassShrinks(cfg: Config, s: State, k: Key, t: TargetNs, c: Choice)
    requires Draining(cfg, s, k, t)
    ensures var s' := FullPass(cfg, s, k, c);
            && Rank(s', k, t) <= Rank(s, k, t)
            && (Rank(s, k, t) != 2 ==> Rank(s', k, t) < Rank(s, k, t))
            && (Rank(s', k, t) > 0 ==> Draining(cfg, s', k, t))
  {
    hide FullPass, TargetNamespaceFor, DeleteTarget;
    MarkedPass(cfg, s, k, c);
    if TargetAt(s, k, t).Some? {
      DeletingPass(cfg, s, k, t, c);
    }
  }

  /**
    Exactly when a delete pass takes the finalizer off: the target namespace resolves and holds no
    target, or it does not resolve and the object is a volume.  In particular an object of any other
    kind whose target namespace has gone keeps its finalizer.
   */
  lemma ReleasedExactly(cfg: Config, s: State, k: Key, c: Choice)
    requires Marked(cfg, s, k)
    ensures Live(FullPass(cfg, s, k, c), k) == Some(Live(s, k).value.(fin :=
              match TargetNamespaceFor(s, k)
              case One(t) => TargetAt(s, k, t).Some?
              case NotFound => k.kind != Volume
              case Rejected => true))
  {
    hide FullPass, TargetNamespaceFor;
    MarkedPass(cfg, s, k, c);
  }

  // ---------- Draining among everybody else ----------

  /** The pass under way, if there is one, has read the object as marked for deletion. */
  predicate DeletePass(pc: Pc) {
    match pc
    case Idle => true
    case Got(o) => o.deleting
    case DelNs(_) => true
    case DelList(_, _) => true
    case DelIssue(_, _) => true
    case DelFin(_) => true
    case NsDelList(_) => true
    case NsDelIssue(_, _) => true
    case _ => false
  }

  /** Marked for deletion for everyone to see, held by the finalizer, and no earlier pass still writing. */
  ghost predicate OnItsWayOut(s: State, k: Key) {
    (exists uid :: Held(ViewOf(s, k), uid)) && Doomed(ViewOf(s, k)) && DeletePass(PcOf(s, k))
  }

  /** The target namespace of a source namespace. */
  ghost predicate NamespaceFor(s: State, k: Key, t: TargetNs) {
    t in s.namespaces && NsKey(s.namespaces[t].ownerName) == k
  }

  /** No target of the object is new, and none that was being deleted is not any more. */
  ghost predicate OnlyGo(s: State, s': State, k: Key) {
    && (forall tk :: TargetFor(s', k, tk) ==> TargetFor(s, k, tk) && (s.targets[tk].deleting ==> s'.targets[tk].deleting))
    && (forall t :: NamespaceFor(s', k, t) ==>
          NamespaceFor(s, k, t) && (s.namespaces[t].deleting ==> s'.namespaces[t].deleting))
  }

  lemma SameTargetsOut(s: State, s': State, k: Key)
    requires s'.targets == s.targets && s'.namespaces == s.namespaces
    ensures OnlyGo(s, s', k)
  {
    assert forall tk :: TargetFor(s', k, tk) <==> TargetFor(s, k, tk);
  }

  lemma NewTargetNamespace(s: State, a: Action, t: TargetNs)
    requires TargetSide(a) && t in TargetStep(s, a).namespaces
    ensures t in s.namespaces
  {
    hide PutTarget, DropTarget;
  }

  lemma TargetStepTargets(s: State, a: Action, tk: TargetKey)
    requires TargetSide(a) && tk in TargetStep(s, a).targets && TargetStep(s, a).targets[tk].owner.Some?
    ensures tk in s.targets
    ensures var x, x' := s.targets[tk], TargetStep(s, a).targets[tk];
            x'.owner == x.owner && (x.deleting ==> x'.deleting)
  {
  }

  lemma TargetStepOnlyGo(s: State, a: Action, k: Key)
    requires TargetSide(a)
    ensures OnlyGo(s, TargetStep(s, a), k)
  {
    hide TargetStep;
    forall t | t in TargetStep(s, a).namespaces
      ensures t in s.namespaces
      ensures var n, n' := s.namespaces[t], TargetStep(s, a).namespaces[t];
              n'.ownerName == n.ownerName && (n.deleting ==> n'.deleting)
    {
      NewTargetNamespace(s, a, t);
      TargetStepNamespaces(s, a, t);
    }
    forall tk | tk in TargetStep(s, a).targets && TargetStep(s, a).targets[tk].owner.Some? {
      TargetStepTargets(s, a, tk);
    }
  }

  /** A step of anybody but a pass. */
  lemma EnvironmentOut(cfg: Config, s: State, a: Action, k: Key)
    requires OnItsWayOut(s, k) && !a.Pass?
    ensures OnItsWayOut(Step(cfg, s, a), k) && OnlyGo(s, Step(cfg, s, a), k)
  {
    hide PassStep, SourceStep, TargetStep, Held, Doomed, OnlyGo;
    var uid :| Held(ViewOf(s, k), uid);
    DoomedStays(cfg, s, a, k, uid);
    OtherStepPc(cfg, s, a, k);
    if TargetSide(a) {
      TargetStepOnlyGo(s, a, k);
    } else {
      SameTargetsOut(s, Step(cfg, s, a), k);
    }
  }

  lemma OtherWriteOut(cfg: Config, s: State, j: Key, o: SourceObject, t: TargetNs, found: Found,
                      current: Option<TargetObject>, uid: Uid, k: Key)
    requires j.ObjKey? && j != k && (t in s.namespaces ==> s.namespaces[t].ownerName == j.ns)
    ensures OnlyGo(s, WriteTarget(cfg, s, j, o, t, found, current, uid), k)
  {
    hide WriteTarget;
  }

  lemma TargetHasNamespace(s: State, tk: TargetKey)
    requires Inv(s) && tk in s.targets
    ensures tk.ns in s.namespaces && tk.ns in s.issued
  {
    hide PcOk, PastOk;
    assert TargetOk(s, tk) && NamespaceOk(s, tk.ns);
  }

  lemma NewNamespaceOut(s: State, j: Key, o: SourceObject, generated: TargetNs, k: Key)
    requires Inv(s) && j != k
    ensures OnlyGo(s, CreateNamespace(s, j, o, generated), k)
  {
    hide Inv;
    forall tk | tk in s.targets {
      TargetHasNamespace(s, tk);
    }
  }

  lemma MarkedOut(s: State, k: Key, t: TargetNs)
    ensures OnlyGo(s, MarkNamespace(s, t), k)
  {
    assert forall tk :: TargetFor(MarkNamespace(s, t), k, tk) <==> TargetFor(s, k, tk);
  }

  lemma DeletedOut(s: State, j: Key, t: TargetNs, vanish: bool, k: Key)
    ensures OnlyGo(s, DeleteTarget(s, j, t, vanish), k)
  {
  }

  lemma FinalizerOut(s: State, j: Key, k: Key)
    ensures OnlyGo(s, AddFinalizer(s, j), k) && OnlyGo(s, RemoveFinalizer(s, j), k) && OnlyGo(s, s, k)
  {
    hide OnlyGo;
    SameTargetsOut(s, AddFinalizer(s, j), k);
    SameTargetsOut(s, RemoveFinalizer(s, j), k);
    SameTargetsOut(s, s, k);
  }

  /** What a call makes of the targets of an object, unless it is a write for the object itself. */
  lemma EffectOut(cfg: Config, s: State, j: Key, c: Choice, k: Key)
    requires Inv(s) && (j == k ==> !PcOf(s, j).Write? && !PcOf(s, j).NsCreate?)
    ensures OnlyGo(s, Effect(cfg, s, j, PcOf(s, j), c), k)
  {
    hide Inv, WriteTarget, CreateNamespace, MarkNamespace, DeleteTarget, AddFinalizer, RemoveFinalizer, OnlyGo;
    FinalizerOut(s, j, k);
    match PcOf(s, j)
    case Write(o, t, found, current) =>
      WriterResolved(s, j);
      ResolvedName(s, j, t);
      OtherWriteOut(cfg, s, j, o, t, found, current, c.uid, k);
    case NsCreate(o) => NewNamespaceOut(s, j, o, c.generated, k);
    case NsDelIssue(_, t) => MarkedOut(s, k, t);
    case DelIssue(_, t) => DeletedOut(s, j, t, c.vanish, k);
    case _ =>
  }

  lemma OwnCallOut(cfg: Config, s: State, k: Key, c: Choice)
    requires OnItsWayOut(s, k)
    ensures DeletePass(NextPc(cfg, s, k, PcOf(s, k), c))
    ensures PcOf(s, k).DelFin? || Effect(cfg, s, k, PcOf(s, k), c).views == s.views
  {
    hide WriteTarget, CreateNamespace, AddFinalizer, ListSingle;
    var v := ViewOf(s, k);
    var uid :| Held(v, uid);
    assert v[0].Some? && v[0].value.deleting;
  }

  lemma OtherViewSame(cfg: Config, s: State, j: Key, c: Choice, k: Key)
    requires j != k
    ensures ViewOf(Effect(cfg, s, j, PcOf(s, j), c), k) == ViewOf(s, k)
  {
    hide WriteTarget;
  }

  lemma GotoOut(s: State, x: State, j: Key, pc: Pc, k: Key)
    requires OnlyGo(s, x, k)
    ensures OnlyGo(s, Goto(x, j, pc), k)
  {
    assert forall tk :: TargetFor(Goto(x, j, pc), k, tk) <==> TargetFor(x, k, tk);
  }

  lemma ReleasedBy(s: State, k: Key)
    requires Inv(s) && PcOf(s, k).DelFin?
    ensures Released(s, k)
  {
    PcsAreOk(s, k);
    if k.NsKey? {
      NamespaceReleased(s, k, PcOf(s, k).o);
    }
  }

  lemma OwnStepOut(cfg: Config, s: State, k: Key, c: Choice)
    requires Inv(s) && OnItsWayOut(s, k)
    ensures OnItsWayOut(PassStep(cfg, s, k, c), k) || (PcOf(s, k).DelFin? && Released(s, k))
  {
    hide Inv, Effect, NextPc, Released, Held, Doomed;
    OwnCallOut(cfg, s, k, c);
    assert ViewOf(PassStep(cfg, s, k, c), k) == ViewOf(Effect(cfg, s, k, PcOf(s, k), c), k);
    if PcOf(s, k).DelFin? {
      ReleasedBy(s, k);
    }
  }

  lemma OtherStepOut(cfg: Config, s: State, j: Key, c: Choice, k: Key)
    requires OnItsWayOut(s, k) && j != k
    ensures OnItsWayOut(PassStep(cfg, s, j, c), k)
  {
    hide Effect, NextPc, Held, Doomed;
    OtherViewSame(cfg, s, j, c, k);
    assert ViewOf(PassStep(cfg, s, j, c), k) == ViewOf(s, k) && PcOf(PassStep(cfg, s, j, c), k) == PcOf(s, k);
  }

  lemma PassStepOut(cfg: Config, s: State, j: Key, c: Choice, k: Key)
    requires Inv(s) && OnItsWayOut(s, k)
    ensures OnlyGo(s, PassStep(cfg, s, j, c), k)
    ensures OnItsWayOut(PassStep(cfg, s, j, c), k) || (j == k && PcOf(s, k).DelFin? && Released(s, k))
  {
    hide Inv, Effect, NextPc, Goto, Released, OnlyGo;
    EffectOut(cfg, s, j, c, k);
    GotoOut(s, Effect(cfg, s, j, PcOf(s, j), c), j, NextPc(cfg, s, j, PcOf(s, j), c), k);
    if j == k {
      OwnStepOut(cfg, s, k, c);
    } else {
      OtherStepOut(cfg, s, j, c, k);
    }
  }

  /** One step of anybody: the targets of the object only go, until the delete pass releases it. */
  lemma StepOut(cfg: Config, s: State, a: Action, k: Key)
    requires Inv(s) && OnItsWayOut(s, k)
    ensures OnlyGo(s, Step(cfg, s, a), k)
    ensures OnItsWayOut(Step(cfg, s, a), k) || (a.Pass? && a.k == k && PcOf(s, k).DelFin? && Released(s, k))
  {
    hide Inv, OnItsWayOut, OnlyGo, PassStep, Released;
    if a.Pass? {
      PassStepOut(cfg, s, a.k, a.c, k);
    } else {
      EnvironmentOut(cfg, s, a, k);
    }
  }

  ghost predicate ReleaseAt(cfg: Config, s: State, actions: seq<Action>, i: nat, k: Key)
    requires i < |actions|
  {
    var si := StateAt(cfg, s, actions, i);
    actions[i].Pass? && actions[i].k == k && PcOf(si, k).DelFin? && Released(si, k)
  }

  /** At some point of the run the delete pass took the finalizer off, with no target left. */
  ghost predicate ReleasedIn(cfg: Config, s: State, actions: seq<Action>, k: Key) {
    exists i :: 0 <= i < |actions| && ReleaseAt(cfg, s, actions, i, k)
  }

  lemma OnlyGoTrans(a: State, b: State, c: State, k: Key)
    requires OnlyGo(a, b, k) && OnlyGo(b, c, k)
    ensures OnlyGo(a, c, k)
  {
  }

  /**
    Over any run, whatever anybody does, a draining object never gains a target and never loses a
    deletion mark, until it is released with no target left.
   */
  lemma {:induction false} DrainNeverTurnsBack(cfg: Config, s: State, actions: seq<Action>, k: Key, n: nat)
    requires Inv(s) && OnItsWayOut(s, k) && n <= |actions|
    ensures Inv(StateAt(cfg, s, actions, n))
    ensures ReleasedIn(cfg, s, actions, k) ||
            (OnItsWayOut(StateAt(cfg, s, actions, n), k) && OnlyGo(s, StateAt(cfg, s, actions, n), k))
  {
    hide Inv, OnItsWayOut, Step, Run, OnlyGo, Released;
    if n == 0 {
      EndStates(cfg, s, actions);
      SameTargetsOut(s, s, k);
    } else {
      var before := StateAt(cfg, s, actions, n - 1);
      DrainNeverTurnsBack(cfg, s, actions, k, n - 1);
      NextState(cfg, s, actions, n - 1);
      StepKeeps(cfg, before, actions[n - 1]);
      if !ReleasedIn(cfg, s, actions, k) {
        StepOut(cfg, before, actions[n - 1], k);
        OnlyGoTrans(s, before, StateAt(cfg, s, actions, n), k);
        assert !ReleaseAt(cfg, s, actions, n - 1, k);
      }
    }
  }

  // ---------- A delete pass among others ----------

  /** Any version of the object that a pass may read is one that the broker serves. */
  ghost predicate Served(cfg: Config, k: Key, o: SourceObject) {
    k.ObjKey? && k.kind == Machine ==> o.spec.MachineObjSpec? && InPool(o.spec.machine, cfg.pool)
  }

  /** The way is clear: the target namespace of the object resolves, and the broker serves it. */
  ghost predicate Clear(cfg: Config, s: State, k: Key, t: TargetNs) {
    && TargetNamespaceFor(s, k) == One(t)
    && (forall i :: 0 <= i < |ViewOf(s, k)| && ViewOf(s, k)[i].Some? ==> Served(cfg, k, ViewOf(s, k)[i].value))
  }

  /** A delete pass under way that will get to the target namespace `t`. */
  ghost predicate OnCourse(cfg: Config, s: State, k: Key, t: TargetNs) {
    match PcOf(s, k)
    case Got(o) => o.fin && Served(cfg, k, o)
    case DelList(_, nsUid) => t in s.namespaces && s.namespaces[t].sourceUid == nsUid
    case DelIssue(_, t') => t' == t
    case _ => true
  }

  lemma ClearNamespace(cfg: Config, s: State, k: Key, t: TargetNs)
    requires Inv(s) && k.ObjKey? && Clear(cfg, s, k, t)
    ensures Cached(s, NamespaceOf(k)).Some? && t in s.namespaces
    ensures s.namespaces[t].sourceUid == Cached(s, NamespaceOf(k)).value.uid
    ensures s.namespaces[t].ownerName == k.ns && t in s.issued && s.issued[t] == k.ns
  {
    hide Inv, ListSingle;
    var uid := Cached(s, NamespaceOf(k)).value.uid;
    ListSingleExact(s, uid);
    ReadRelies(s, NamespaceOf(k));
    NamespaceOfUid(s, t, k.ns);
    NamespaceIssued(s, t);
  }

  /** The calls of a delete pass on an object. */
  lemma PcsOnTheWay(s: State, k: Key)
    requires Inv(s) && OnItsWayOut(s, k)
    ensures var pc := PcOf(s, k);
            pc.Idle? || (pc.Got? && pc.o.deleting) || pc.DelFin? ||
            (if k.ObjKey? then pc.DelNs? || pc.DelList? || pc.DelIssue? else pc.NsDelList? || pc.NsDelIssue?)
  {
    PcsAreOk(s, k);
  }

  lemma NextOnCourse(cfg: Config, s: State, k: Key, t: TargetNs, c: Choice)
    requires Inv(s) && k.ObjKey? && OnItsWayOut(s, k) && Clear(cfg, s, k, t) && OnCourse(cfg, s, k, t)
    ensures match NextPc(cfg, s, k, PcOf(s, k), c)
            case Got(o) => o.fin && Served(cfg, k, o)
            case DelList(_, nsUid) => s.namespaces[t].sourceUid == nsUid
            case DelIssue(_, t') => t' == t
            case _ => true
    ensures NextPc(cfg, s, k, PcOf(s, k), c).Idle? && !PcOf(s, k).Idle? ==>
              PcOf(s, k).DelFin? || (PcOf(s, k).DelIssue? && PcOf(s, k).t == t && TargetKeyOf(k, t) in s.targets)
  {
    hide Inv, ListSingle, TargetNamespaceFor, TargetLookup, ReadTarget, LookupOrder;
    ClearNamespace(cfg, s, k, t);
    PcsOnTheWay(s, k);
    match PcOf(s, k)
    case Idle =>
      var uid :| Held(ViewOf(s, k), uid);
      assert Cached(s, k) == ViewOf(s, k)[0];
    case DelList(_, nsUid) => ListSingleExact(s, nsUid);
    case _ =>
  }

  lemma SameUid(cfg: Config, s: State, a: Action, t: TargetNs)
    requires Inv(s) && t in s.namespaces && t in Step(cfg, s, a).namespaces
    ensures Step(cfg, s, a).namespaces[t].sourceUid == s.namespaces[t].sourceUid
  {
    hide Inv, PassStep;
    if a.Pass? {
      NamespacePassStays(cfg, s, a.k, a.c, t);
    }
  }

  lemma StepOnCourse(cfg: Config, s: State, a: Action, k: Key, t: TargetNs)
    requires Inv(s) && k.ObjKey? && OnItsWayOut(s, k) && OnCourse(cfg, s, k, t)
    requires Clear(cfg, s, k, t) && Clear(cfg, Step(cfg, s, a), k, t)
    ensures OnCourse(cfg, Step(cfg, s, a), k, t)
  {
    hide Inv, OnItsWayOut, Clear, Effect, NextPc, Served;
    var s' := Step(cfg, s, a);
    StepKeeps(cfg, s, a);
    ClearNamespace(cfg, s, k, t);
    ClearNamespace(cfg, s', k, t);
    SameUid(cfg, s, a, t);
    if a.Pass? && a.k == k {
      NextOnCourse(cfg, s, k, t, a.c);
    } else {
      OtherStepPc(cfg, s, a, k);
    }
  }

  /** The target under the name only goes: none is there that was not, and marks stay. */
  ghost predicate OnlyGoes(s: State, s': State, tk: TargetKey) {
    tk in s'.targets ==> tk in s.targets && (s.targets[tk].deleting ==> s'.targets[tk].deleting)
  }

  lemma WriteElsewhere(cfg: Config, s: State, j: Key, c: Choice, k: Key, t: TargetNs)
    requires Inv(s) && k.ObjKey? && j != k && PcOf(s, j).Write? && t in s.issued && s.issued[t] == k.ns
    ensures OnlyGoes(s, Effect(cfg, s, j, PcOf(s, j), c), TargetKeyOf(k, t))
  {
    hide WriteTarget, Inv;
    WriterResolved(s, j);
  }

  lemma EffectOnlyGoes(cfg: Config, s: State, j: Key, c: Choice, k: Key, t: TargetNs)
    requires Inv(s) && k.ObjKey? && t in s.issued && s.issued[t] == k.ns && !(j == k && PcOf(s, k).Write?)
    ensures OnlyGoes(s, Effect(cfg, s, j, PcOf(s, j), c), TargetKeyOf(k, t))
  {
    hide Inv, WriteTarget, AddFinalizer, RemoveFinalizer, CreateNamespace, MarkNamespace;
    if PcOf(s, j).Write? {
      WriteElsewhere(cfg, s, j, c, k, t);
    } else if !PcOf(s, j).DelIssue? {
      NoTargetEffect(cfg, s, j, PcOf(s, j), c);
    }
  }

  lemma StepOnlyGoes(cfg: Config, s: State, a: Action, k: Key, t: TargetNs)
    requires Inv(s) && k.ObjKey? && OnItsWayOut(s, k) && Clear(cfg, s, k, t)
    requires a.TargetForeign? ==> a.tk != TargetKeyOf(k, t)
    ensures OnlyGoes(s, Step(cfg, s, a), TargetKeyOf(k, t))
  {
    hide Inv, Effect, NextPc, Clear;
    ClearNamespace(cfg, s, k, t);
    if a.Pass? {
      EffectOnlyGoes(cfg, s, a.k, a.c, k, t);
    }
  }

  /** Throughout the run the way is clear, and nobody else takes the name of the target. */
  ghost predicate LeftAlone(cfg: Config, s: State, actions: seq<Action>, k: Key, t: TargetNs)
    requires k.ObjKey?
  {
    && (forall n :: 0 <= n <= |actions| ==> Clear(cfg, StateAt(cfg, s, actions, n), k, t))
    && (forall n :: 0 <= n < |actions| && actions[n].TargetForeign? ==> actions[n].tk != TargetKeyOf(k, t))
  }

  /** While the object is not released, its target only goes. */
  lemma {:induction false} TargetOnlyGoes(cfg: Config, s: State, actions: seq<Action>, k: Key, t: TargetNs, m: nat, n: nat)
    requires Inv(s) && OnItsWayOut(s, k) && k.ObjKey? && LeftAlone(cfg, s, actions, k, t) && m <= n <= |actions|
    requires !ReleasedIn(cfg, s, actions, k)
    ensures OnlyGoes(StateAt(cfg, s, actions, m), StateAt(cfg, s, actions, n), TargetKeyOf(k, t))
  {
    hide Inv, OnItsWayOut, Step, Run, Clear, ReleasedIn, OnlyGo;
    if m < n {
      TargetOnlyGoes(cfg, s, actions, k, t, m, n - 1);
      DrainNeverTurnsBack(cfg, s, actions, k, n - 1);
      NextState(cfg, s, actions, n - 1);
      StepOnlyGoes(cfg, StateAt(cfg, s, actions, n - 1), actions[n - 1], k, t);
    }
  }

  /** While the object is not released, a pass on it that has begun stays on course. */
  lemma {:induction false} StaysOnCourse(cfg: Config, s: State, actions: seq<Action>, k: Key, t: TargetNs, i: nat, n: nat)
    requires Inv(s) && OnItsWayOut(s, k) && k.ObjKey? && LeftAlone(cfg, s, actions, k, t) && i <= n <= |actions|
    requires !ReleasedIn(cfg, s, actions, k) && PcOf(StateAt(cfg, s, actions, i), k).Idle?
    ensures OnCourse(cfg, StateAt(cfg, s, actions, n), k, t)
  {
    hide Inv, OnItsWayOut, Step, StateAt, Clear, ReleasedIn, OnlyGo;
    if i < n {
      StaysOnCourse(cfg, s, actions, k, t, i, n - 1);
      DrainNeverTurnsBack(cfg, s, actions, k, n - 1);
      NextState(cfg, s, actions, n - 1);
      StepOnCourse(cfg, StateAt(cfg, s, actions, n - 1), actions[n - 1], k, t);
    }
  }

  lemma LastDeleteCall(cfg: Config, s: State, k: Key, t: TargetNs, c: Choice)
    requires k.ObjKey? && PcOf(s, k).DelIssue? && PcOf(s, k).t == t && TargetKeyOf(k, t) in s.targets
    ensures var s', tk := PassStep(cfg, s, k, c), TargetKeyOf(k, t);
            tk in s'.targets ==> s'.targets[tk].deleting
  {
  }

  lemma LetsGo(cfg: Config, s: State, actions: seq<Action>, k: Key, n: nat)
    requires n < |actions| && actions[n].Pass? && actions[n].k == k && Inv(StateAt(cfg, s, actions, n))
    ensures PcOf(StateAt(cfg, s, actions, n), k).DelFin? ==> ReleasedIn(cfg, s, actions, k)
  {
    hide Inv, StateAt, Released;
    if PcOf(StateAt(cfg, s, actions, n), k).DelFin? {
      ReleasedBy(StateAt(cfg, s, actions, n), k);
      assert ReleaseAt(cfg, s, actions, n, k);
    }
  }

  /** A complete pass that does not release the object has found a target, and has it deleted. */
  lemma PassDeletes(cfg: Config, s: State, actions: seq<Action>, k: Key, t: TargetNs, i: nat, j: nat)
    requires Inv(s) && OnItsWayOut(s, k) && k.ObjKey? && LeftAlone(cfg, s, actions, k, t)
    requires CompletePass(cfg, s, actions, k, i, j) && !ReleasedIn(cfg, s, actions, k)
    ensures TargetKeyOf(k, t) in StateAt(cfg, s, actions, j - 1).targets
    ensures var s', tk := StateAt(cfg, s, actions, j), TargetKeyOf(k, t);
            tk in s'.targets ==> s'.targets[tk].deleting
  {
    hide Inv, OnItsWayOut, StateAt, Clear, OnCourse, OnlyGo, Effect, NextPc, ReleasedIn;
    var last := StateAt(cfg, s, actions, j - 1);
    StaysOnCourse(cfg, s, actions, k, t, i, j - 1);
    DrainNeverTurnsBack(cfg, s, actions, k, j - 1);
    NextState(cfg, s, actions, j - 1);
    NextOnCourse(cfg, last, k, t, actions[j - 1].c);
    LetsGo(cfg, s, actions, k, j - 1);
    LastDeleteCall(cfg, last, k, t, actions[j - 1].c);
  }

  lemma FinishDrops(cfg: Config, s: State, tk: TargetKey)
    requires tk in s.targets ==> s.targets[tk].deleting
    ensures tk !in Step(cfg, s, TargetFinish(tk)).targets
  {
    hide PassStep;
  }

  /**
    Two complete delete passes, and the target cluster finishing its deletion between them, drain the
    object, whatever state the target was in and whatever else happens meanwhile: passes on other keys
    under way, passes on this one that fail, users of both clusters.
   */
  lemma DrainTerminates(cfg: Config, s: State, actions: seq<Action>, k: Key, t: TargetNs,
                        i: nat, j: nat, m: nat, i': nat, j': nat)
    requires Inv(s) && OnItsWayOut(s, k) && k.ObjKey? && LeftAlone(cfg, s, actions, k, t)
    requires CompletePass(cfg, s, actions, k, i, j) && CompletePass(cfg, s, actions, k, i', j')
    requires j <= m < i' && actions[m] == TargetFinish(TargetKeyOf(k, t))
    ensures ReleasedIn(cfg, s, actions, k)
  {
    hide Inv, OnItsWayOut, StateAt, Clear, LeftAlone, ReleasedIn;
    if !ReleasedIn(cfg, s, actions, k) {
      PassDeletes(cfg, s, actions, k, t, i, j);
      TargetOnlyGoes(cfg, s, actions, k, t, j, m);
      NextState(cfg, s, actions, m);
      FinishDrops(cfg, StateAt(cfg, s, actions, m), TargetKeyOf(k, t));
      TargetOnlyGoes(cfg, s, actions, k, t, m + 1, j' - 1);
      PassDeletes(cfg, s, actions, k, t, i', j');
      assert false;
    }
  }

  // ---------- Namespaces ----------

  lemma NamespaceGone(cfg: Config, s: State, a: Action, t: TargetNs)
    requires Inv(s) && t in s.issued
    ensures t in Step(cfg, s, a).namespaces ==>
              t in s.namespaces && (s.namespaces[t].deleting ==> Step(cfg, s, a).namespaces[t].deleting)
  {
    hide Inv, Effect, NextPc;
    if a.Pass? {
      EffectOnNamespaces(cfg, s, a.k, PcOf(s, a.k), a.c);
    }
  }

  /** A generated namespace that has gone stays gone, and one that is marked stays marked. */
  lemma {:induction false} NamespaceOnlyGoes(cfg: Config, s: State, actions: seq<Action>, t: TargetNs, m: nat, n: nat)
    requires Inv(s) && t in s.issued && m <= n <= |actions|
    ensures Inv(StateAt(cfg, s, actions, n)) && t in StateAt(cfg, s, actions, n).issued
    ensures t in StateAt(cfg, s, actions, n).namespaces ==>
              t in StateAt(cfg, s, actions, m).namespaces &&
              (StateAt(cfg, s, actions, m).namespaces[t].deleting ==> StateAt(cfg, s, actions, n).namespaces[t].deleting)
  {
    hide Inv, Step, Run;
    if n == 0 {
      EndStates(cfg, s, actions);
    } else if m < n {
      var before := StateAt(cfg, s, actions, n - 1);
      NamespaceOnlyGoes(cfg, s, actions, t, m, n - 1);
      NextState(cfg, s, actions, n - 1);
      NamespaceGone(cfg, before, actions[n - 1], t);
      StepKeeps(cfg, before, actions[n - 1]);
      StepIssued(cfg, before, actions[n - 1], t);
    } else {
      RunKeeps(cfg, s, actions[..n]);
      IssuedStays(cfg, s, actions[..n], t);
    }
  }

  /** How a delete pass on a namespace ends: it has marked the one target namespace, or lets go. */
  lemma NamespacePassEnd(cfg: Config, s: State, k: Key, t: TargetNs, c: Choice)
    requires Inv(s) && k.NsKey? && OnItsWayOut(s, k) && (forall t' :: NamespaceFor(s, k, t') ==> t' == t)
    requires !PcOf(s, k).Idle? && NextPc(cfg, s, k, PcOf(s, k), c).Idle? && !PcOf(s, k).DelFin?
    requires PcOf(s, k).Got? ==> PcOf(s, k).o.fin
    ensures t in s.namespaces && PassStep(cfg, s, k, c).namespaces == MarkNamespace(s, t).namespaces
  {
    hide ListSingle;
    PcsOnTheWay(s, k);
    PcsAreOk(s, k);
    match PcOf(s, k)
    case NsDelList(o) => ListSingleExact(s, o.uid);
    case NsDelIssue(o, t') =>
      assert NamespaceFor(s, k, t') by {
        assert NamespaceOk(s, t');
        NamespaceIssued(s, t');
      }
    case _ =>
  }

  /** A delete pass has read its object with the finalizer on. */
  ghost predicate ReadHeld(s: State, k: Key) {
    PcOf(s, k).Got? ==> PcOf(s, k).o.fin
  }

  lemma StepReadHeld(cfg: Config, s: State, a: Action, k: Key)
    requires OnItsWayOut(s, k) && ReadHeld(s, k)
    ensures ReadHeld(Step(cfg, s, a), k)
  {
    hide Effect, ListSingle, TargetLookup, LookupOrder;
    if a.Pass? && a.k == k {
      var uid :| Held(ViewOf(s, k), uid);
      assert Cached(s, k) == ViewOf(s, k)[0];
    } else {
      OtherStepPc(cfg, s, a, k);
    }
  }

  lemma {:induction false} StaysReadHeld(cfg: Config, s: State, actions: seq<Action>, k: Key, i: nat, n: nat)
    requires Inv(s) && OnItsWayOut(s, k) && i <= n <= |actions| && !ReleasedIn(cfg, s, actions, k)
    requires PcOf(StateAt(cfg, s, actions, i), k).Idle?
    ensures ReadHeld(StateAt(cfg, s, actions, n), k)
  {
    hide Inv, OnItsWayOut, Step, StateAt, ReleasedIn, OnlyGo;
    if i < n {
      StaysReadHeld(cfg, s, actions, k, i, n - 1);
      DrainNeverTurnsBack(cfg, s, actions, k, n - 1);
      NextState(cfg, s, actions, n - 1);
      StepReadHeld(cfg, StateAt(cfg, s, actions, n - 1), actions[n - 1], k);
    }
  }

  lemma OneNamespace(s: State, k: Key, t: TargetNs)
    requires Inv(s) && NamespaceFor(s, k, t)
    ensures forall t' :: NamespaceFor(s, k, t') ==> t' == t
  {
    forall t' | NamespaceFor(s, k, t')
      ensures t' == t
    {
      NamespaceOfName(s, t, t');
    }
  }

  /** A complete pass that does not release the namespace has found the target namespace, and marks it. */
  lemma PassMarks(cfg: Config, s: State, actions: seq<Action>, k: Key, t: TargetNs, i: nat, j: nat)
    requires Inv(s) && OnItsWayOut(s, k) && k.NsKey? && NamespaceFor(s, k, t)
    requires CompletePass(cfg, s, actions, k, i, j) && !ReleasedIn(cfg, s, actions, k)
    ensures t in StateAt(cfg, s, actions, j - 1).namespaces
    ensures var s' := StateAt(cfg, s, actions, j); t in s'.namespaces && s'.namespaces[t].deleting
  {
    hide Inv, OnItsWayOut, StateAt, Effect, NextPc, ReleasedIn;
    var last := StateAt(cfg, s, actions, j - 1);
    StaysReadHeld(cfg, s, actions, k, i, j - 1);
    DrainNeverTurnsBack(cfg, s, actions, k, j - 1);
    OneNamespace(s, k, t);
    NextState(cfg, s, actions, j - 1);
    LetsGo(cfg, s, actions, k, j - 1);
    NamespacePassEnd(cfg, last, k, t, actions[j - 1].c);
  }

  /**
    The same for a source namespace: two complete delete passes, and the target cluster finishing the
    target namespace between them, once everything in it has gone.
   */
  lemma NamespaceDrainTerminates(cfg: Config, s: State, actions: seq<Action>, k: Key, t: TargetNs,
                                 i: nat, j: nat, m: nat, i': nat, j': nat)
    requires Inv(s) && OnItsWayOut(s, k) && k.NsKey? && NamespaceFor(s, k, t)
    requires CompletePass(cfg, s, actions, k, i, j) && CompletePass(cfg, s, actions, k, i', j')
    requires j <= m < i' && actions[m] == NamespaceFinish(t)
    requires forall tk :: tk in StateAt(cfg, s, actions, m).targets ==> tk.ns != t
    ensures ReleasedIn(cfg, s, actions, k)
  {
    hide Inv, OnItsWayOut, StateAt, ReleasedIn, PassStep;
    if !ReleasedIn(cfg, s, actions, k) {
      NamespaceIssued(s, t);
      PassMarks(cfg, s, actions, k, t, i, j);
      NamespaceOnlyGoes(cfg, s, actions, t, j, m);
      NextState(cfg, s, actions, m);
      NamespaceOnlyGoes(cfg, s, actions, t, m + 1, j' - 1);
      PassMarks(cfg, s, actions, k, t, i', j');
      assert false;
    }
  }
}
