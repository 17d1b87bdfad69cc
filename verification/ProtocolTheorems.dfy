/**
  What the protocol guarantees in every reachable state: after any sequence of actions from
  the empty clusters, with passes on different keys and environment steps interleaved between
  any two API calls.
 */
module ProtocolTheorems {
  import opened Wrappers
  import opened Objects
  import opened Sync
  import opened Protocol
  import opened ProtocolInvariant

  ghost predicate Reachable(cfg: Config, s: State) {
    exists actions :: Run(cfg, INIT, actions) == s
  }

  lemma ReachableInv(cfg: Config, s: State)
    requires Reachable(cfg, s)
    ensures Inv(s)
  {
    var actions :| Run(cfg, INIT, actions) == s;
    RunKeeps(cfg, INIT, actions);
  }

  // ---------- No orphans ----------

  /**
    Every target object the broker controls has its source object: it exists under the name and
    namespace the target stands for, with the controlling uid, and still holds the finalizer.
   */
  lemma NoOrphans(cfg: Config, s: State, tk: TargetKey)
    requires Reachable(cfg, s)
    requires tk in s.targets && s.targets[tk].owner.Some?
    ensures tk.ns in s.namespaces
    ensures var source := Live(s, SourceKey(s, tk));
            source.Some? && source.value.uid == s.targets[tk].owner.value && source.value.fin
  {
    ReachableInv(cfg, s);
    assert TargetOk(s, tk);
  }

  // ---------- Namespace mapping ----------

  /** An existing target namespace implies a source namespace of that uid that holds the finalizer. */
  lemma NamespaceHeld(cfg: Config, s: State, t: TargetNs)
    requires Reachable(cfg, s) && t in s.namespaces
    ensures var source := Live(s, NsKey(s.namespaces[t].ownerName));
            source.Some? && source.value.uid == s.namespaces[t].sourceUid && source.value.fin
  {
    ReachableInv(cfg, s);
    assert NamespaceOk(s, t);
  }

  /** The mapping is a partial function of the uid and of the name, and injective. */
  lemma NamespaceMappingInjective(cfg: Config, s: State, t: TargetNs, t': TargetNs)
    requires Reachable(cfg, s) && t in s.namespaces && t' in s.namespaces
    ensures t == t' <==> s.namespaces[t].sourceUid == s.namespaces[t'].sourceUid
    ensures t == t' <==> s.namespaces[t].ownerName == s.namespaces[t'].ownerName
  {
    ReachableInv(cfg, s);
    if s.namespaces[t].ownerName == s.namespaces[t'].ownerName {
      NamespaceOfName(s, t, t');
    }
  }

  /** The object with this uid is marked for deletion or gone. */
  ghost predicate Ended(s: State, k: Key, uid: Uid) {
    && uid in s.born
    && (Live(s, k).Some? && Live(s, k).value.uid == uid ==> Live(s, k).value.deleting)
  }

  ghost predicate SameButFinalizer(a: Option<SourceObject>, b: Option<SourceObject>) {
    || (a.None? && b.None?)
    || (a.Some? && b.Some? && b.value == a.value.(fin := b.value.fin))
  }

  lemma FinalizerWriteLive(s: State, s': State, j: Key, k: Key)
    requires s'.views == s.views || s'.views == AddFinalizer(s, j).views || s'.views == RemoveFinalizer(s, j).views
    ensures SameButFinalizer(Live(s, k), Live(s', k))
  {
    if s'.views == s.views || j != k {
      assert ViewOf(s', k) == ViewOf(s, k);
    } else {
      assert Live(s', k) == Live(AddFinalizer(s, k), k) || Live(s', k) == Live(RemoveFinalizer(s, k), k);
    }
  }

  /** A pass changes nothing about a source object but the finalizer. */
  lemma PassStepLive(cfg: Config, s: State, j: Key, c: Choice, k: Key)
    ensures PassStep(cfg, s, j, c).born == s.born
    ensures SameButFinalizer(Live(s, k), Live(PassStep(cfg, s, j, c), k))
  {
    FinalizerWriteLive(s, PassStep(cfg, s, j, c), j, k);
  }

  /** What has ended stays ended: uids are not used twice. */
  lemma EndedStays(cfg: Config, s: State, a: Action, k: Key, uid: Uid)
    requires Ended(s, k, uid)
    ensures Ended(Step(cfg, s, a), k, uid)
  {
    hide PassStep, TargetStep;
    if a.Pass? {
      PassStepLive(cfg, s, a.k, a.c, k);
    }
  }

  ghost predicate SameAssignment(s: State, s': State, t: TargetNs)
    requires t in s.namespaces
  {
    && t in s'.namespaces
    && s'.namespaces[t].sourceUid == s.namespaces[t].sourceUid && s'.namespaces[t].ownerName == s.namespaces[t].ownerName
  }

  lemma EffectOnNamespaces(cfg: Config, s: State, k: Key, pc: Pc, c: Choice)
    ensures Effect(cfg, s, k, pc, c).namespaces ==
            if pc.NsCreate? then CreateNamespace(s, k, pc.o, c.generated).namespaces
            else if pc.NsDelIssue? then MarkNamespace(s, pc.t).namespaces
            else s.namespaces
  {
    hide WriteTarget, CreateNamespace, MarkNamespace, DeleteTarget, AddFinalizer, RemoveFinalizer, EnsureFinalizer;
  }

  lemma NamespacePassStays(cfg: Config, s: State, k: Key, c: Choice, t: TargetNs)
    requires Inv(s) && t in s.namespaces
    ensures SameAssignment(s, PassStep(cfg, s, k, c), t)
  {
    hide Effect, NextPc;
    assert NamespaceOk(s, t);
    EffectOnNamespaces(cfg, s, k, PcOf(s, k), c);
  }

  lemma TargetStepNamespaces(s: State, a: Action, t: TargetNs)
    requires TargetSide(a) && t in s.namespaces
    ensures var s' := TargetStep(s, a);
            if a == NamespaceFinish(t) && s.namespaces[t].deleting && (forall tk :: tk in s.targets ==> tk.ns != t)
            then t !in s'.namespaces
            else t in s'.namespaces &&
                 s'.namespaces[t] == s.namespaces[t].(deleting := s.namespaces[t].deleting || a == NamespaceMark(t))
  {
    hide PutTarget, DropTarget;
  }

  lemma EnvironmentEndsExactly(cfg: Config, s: State, a: Action, t: TargetNs)
    requires t in s.namespaces && !a.Pass?
    ensures SameAssignment(s, Step(cfg, s, a), t) <==>
            !(a == NamespaceFinish(t) && s.namespaces[t].deleting && forall tk :: tk in s.targets ==> tk.ns != t)
  {
    hide PassStep, SourceStep, TargetStep;
    if TargetSide(a) {
      TargetStepNamespaces(s, a, t);
    }
  }

  /**
    Exactly when the assignment of a target namespace ends: when the target cluster finishes the
    deletion of the namespace, which has been marked and is empty.  No pass and no other event ends it.
   */
  lemma AssignmentEndsExactly(cfg: Config, s: State, a: Action, t: TargetNs)
    requires Reachable(cfg, s) && t in s.namespaces
    ensures SameAssignment(s, Step(cfg, s, a), t) <==>
            !(a == NamespaceFinish(t) && s.namespaces[t].deleting && forall tk :: tk in s.targets ==> tk.ns != t)
  {
    hide Run, PassStep, SourceStep, TargetStep, Inv, SameAssignment;
    ReachableInv(cfg, s);
    if a.Pass? {
      NamespacePassStays(cfg, s, a.k, a.c, t);
    } else {
      EnvironmentEndsExactly(cfg, s, a, t);
    }
  }

  /** If the target namespace is marked, its source is, for everyone to see. */
  ghost predicate MarkedWithSource(s: State, t: TargetNs) {
    t in s.namespaces && s.namespaces[t].deleting ==> Doomed(ViewOf(s, NsKey(s.namespaces[t].ownerName)))
  }

  lemma DoomedGrows(v: View, o: SourceObject, uid: Uid)
    requires Held(v, uid) && Doomed(v) && o.uid == uid && o.fin && o.deleting
    ensures Held(v + [Some(o)], uid) && Doomed(v + [Some(o)])
  {
  }

  lemma DoomedShrinks(v: View, uid: Uid)
    requires Held(v, uid) && Doomed(v) && |v| >= 2
    ensures Held(v[1..], uid) && Doomed(v[1..])
  {
  }

  lemma DoomedLast(v: View, uid: Uid)
    requires Held(v, uid) && Doomed(v)
    ensures v != [] && v[|v| - 1].Some?
    ensures var l := v[|v| - 1].value; l.uid == uid && l.fin && l.deleting
  {
  }

  lemma DoomedQueue(s: State, a: Action, k: Key, uid: Uid)
    requires Held(ViewOf(s, k), uid) && Doomed(ViewOf(s, k)) && SourceSide(a)
    ensures Held(ViewOf(SourceStep(s, a), k), uid) && Doomed(ViewOf(SourceStep(s, a), k))
  {
    hide Held, Doomed;
    var v := ViewOf(s, k);
    DoomedLast(v, uid);
    if a.k == k {
      match a
      case Edit(_, spec) => DoomedGrows(v, v[|v| - 1].value.(spec := spec), uid);
      case Mark(_) => DoomedGrows(v, v[|v| - 1].value.(deleting := true), uid);
      case Deliver(_) =>
        if |v| >= 2 {
          DoomedShrinks(v, uid);
        }
      case _ =>
    }
  }

  /** An object that is marked and held stays so, until a pass lets go of it. */
  lemma DoomedStays(cfg: Config, s: State, a: Action, k: Key, uid: Uid)
    requires Held(ViewOf(s, k), uid) && Doomed(ViewOf(s, k)) && !a.Pass?
    ensures Held(ViewOf(Step(cfg, s, a), k), uid) && Doomed(ViewOf(Step(cfg, s, a), k))
  {
    hide PassStep, SourceStep, TargetStep, Held, Doomed;
    if SourceSide(a) {
      DoomedQueue(s, a, k, uid);
    } else {
      assert ViewOf(Step(cfg, s, a), k) == ViewOf(s, k);
    }
  }

  lemma FinalizerWriteView(s: State, s': State, j: Key, k: Key)
    requires s'.views == s.views || s'.views == AddFinalizer(s, j).views || s'.views == RemoveFinalizer(s, j).views
    ensures ViewOf(s', k) == ViewOf(s, k) ||
            (Live(s, k).Some? && exists fin :: ViewOf(s', k) == [Some(Live(s, k).value.(fin := fin))])
  {
    if s'.views == s.views || j != k {
      assert ViewOf(s', k) == ViewOf(s, k);
    } else if Live(s, k).Some? {
      assert ViewOf(s', k) == ViewOf(s, k) ||
             ViewOf(s', k) == [Some(Live(s, k).value.(fin := true))] ||
             ViewOf(s', k) == [Some(Live(s, k).value.(fin := false))];
    }
  }

  lemma DoomedStaysInPass(cfg: Config, s: State, j: Key, c: Choice, k: Key, uid: Uid)
    requires Held(ViewOf(s, k), uid) && Doomed(ViewOf(s, k))
    ensures Doomed(ViewOf(PassStep(cfg, s, j, c), k))
  {
    hide Effect, NextPc;
    var v := ViewOf(s, k);
    assert v[|v| - 1].Some?;
    assert v[|v| - 1].value.deleting;
    FinalizerWriteView(s, PassStep(cfg, s, j, c), j, k);
  }

  lemma MarkerSeesMark(s: State, k: Key)
    requires Inv(s) && PcOf(s, k).NsDelIssue? && PcOf(s, k).t in s.namespaces
    ensures Doomed(ViewOf(s, NsKey(s.namespaces[PcOf(s, k).t].ownerName)))
  {
    hide Doomed, Held, PastOk;
    PcsAreOk(s, k);
    NamespaceIssued(s, PcOf(s, k).t);
  }

  /** The broker marks a target namespace only for a source namespace that is marked. */
  lemma PassMarksWithSource(cfg: Config, s: State, k: Key, c: Choice, t: TargetNs)
    requires Inv(s) && t in s.namespaces && MarkedWithSource(s, t)
    ensures MarkedWithSource(PassStep(cfg, s, k, c), t)
  {
    hide Inv, Effect, NextPc, Held, Doomed;
    var n, pc := s.namespaces[t], PcOf(s, k);
    NamespaceHolds(s, t);
    EffectOnNamespaces(cfg, s, k, pc, c);
    if pc.NsDelIssue? && pc.t == t {
      MarkerSeesMark(s, k);
      DoomedStaysInPass(cfg, s, k, c, NsKey(n.ownerName), n.sourceUid);
    } else if n.deleting {
      DoomedStaysInPass(cfg, s, k, c, NsKey(n.ownerName), n.sourceUid);
    } else if pc.NsCreate? {
      NamespaceIssued(s, t);
    }
  }

  lemma EnvironmentMarks(cfg: Config, s: State, a: Action, t: TargetNs)
    requires t in s.namespaces && !a.Pass? && a != NamespaceMark(t) && t in Step(cfg, s, a).namespaces
    ensures Step(cfg, s, a).namespaces[t] == s.namespaces[t]
  {
    hide PassStep, SourceStep, TargetStep;
    if TargetSide(a) {
      TargetStepNamespaces(s, a, t);
    }
  }

  lemma StepMarksWithSource(cfg: Config, s: State, a: Action, t: TargetNs)
    requires Inv(s) && t in s.namespaces && MarkedWithSource(s, t) && a != NamespaceMark(t)
    ensures MarkedWithSource(Step(cfg, s, a), t)
  {
    hide Inv, PassStep, SourceStep, TargetStep, Held, Doomed;
    NamespaceHolds(s, t);
    if a.Pass? {
      PassMarksWithSource(cfg, s, a.k, a.c, t);
    } else if t in Step(cfg, s, a).namespaces && Step(cfg, s, a).namespaces[t].deleting {
      EnvironmentMarks(cfg, s, a, t);
      DoomedStays(cfg, s, a, NsKey(s.namespaces[t].ownerName), s.namespaces[t].sourceUid);
    }
  }

  lemma ViewBorn(s: State, k: Key, i: nat)
    requires Inv(s) && i < |ViewOf(s, k)| && ViewOf(s, k)[i].Some?
    ensures BornAs(s.born, k, ViewOf(s, k)[i].value)
  {
  }

  lemma MarkedSourceEnded(s: State, t: TargetNs)
    requires Inv(s) && t in s.namespaces && s.namespaces[t].deleting && MarkedWithSource(s, t)
    ensures Ended(s, NsKey(s.namespaces[t].ownerName), s.namespaces[t].sourceUid)
  {
    assert NamespaceOk(s, t);
    var k := NsKey(s.namespaces[t].ownerName);
    var v := ViewOf(s, k);
    assert v[0].Some? && v[0].value.uid == s.namespaces[t].sourceUid;
    ViewBorn(s, k, 0);
  }

  lemma SourceEndsStep(cfg: Config, s: State, a: Action, t: TargetNs)
    requires Reachable(cfg, s) && t in s.namespaces && MarkedWithSource(s, t) && a != NamespaceMark(t)
    ensures var s' := Step(cfg, s, a);
            var n := s.namespaces[t];
            || (SameAssignment(s, s', t) && MarkedWithSource(s', t))
            || Ended(s', NsKey(n.ownerName), n.sourceUid)
  {
    hide Step, Inv, Ended;
    ReachableInv(cfg, s);
    AssignmentEndsExactly(cfg, s, a, t);
    StepMarksWithSource(cfg, s, a, t);
    if !SameAssignment(s, Step(cfg, s, a), t) {
      MarkedSourceEnded(s, t);
      EndedStays(cfg, s, a, NsKey(s.namespaces[t].ownerName), s.namespaces[t].sourceUid);
    }
  }

  lemma {:induction false} RunConcat(cfg: Config, s: State, a: seq<Action>, b: seq<Action>)
    ensures Run(cfg, s, a + b) == Run(cfg, Run(cfg, s, a), b)
  {
    if b == [] {
      assert a + b == a;
    } else {
      hide Step;
      RunConcat(cfg, s, a, b[..|b| - 1]);
      assert (a + b)[..|a + b| - 1] == a + b[..|b| - 1];
    }
  }

  /** What is reached from a reachable state is reachable. */
  lemma ReachableOn(cfg: Config, s: State, actions: seq<Action>)
    requires Reachable(cfg, s)
    ensures Reachable(cfg, Run(cfg, s, actions))
  {
    hide Run;
    var first :| Run(cfg, INIT, first) == s;
    RunConcat(cfg, INIT, first, actions);
  }

  /**
    The assignment is constant while nobody but the broker deletes the target namespace: a source
    namespace keeps that very one, in every continuation of the run, until it is deleted itself.
   */
  lemma {:induction false} NamespaceAssignmentConstant(cfg: Config, s: State, actions: seq<Action>, t: TargetNs)
    requires Reachable(cfg, s) && t in s.namespaces && MarkedWithSource(s, t)
    requires forall i :: 0 <= i < |actions| ==> actions[i] != NamespaceMark(t)
    ensures var s' := Run(cfg, s, actions);
            var n := s.namespaces[t];
            || (SameAssignment(s, s', t) && MarkedWithSource(s', t))
            || Ended(s', NsKey(n.ownerName), n.sourceUid)
  {
    hide Step, Ended, MarkedWithSource;
    if actions != [] {
      var init, last := actions[..|actions| - 1], actions[|actions| - 1];
      NamespaceAssignmentConstant(cfg, s, init, t);
      var s' := Run(cfg, s, init);
      var n := s.namespaces[t];
      if Ended(s', NsKey(n.ownerName), n.sourceUid) {
        EndedStays(cfg, s', last, NsKey(n.ownerName), n.sourceUid);
      } else {
        ReachableOn(cfg, s, init);
        SourceEndsStep(cfg, s', last, t);
      }
    }
  }

  /** Nobody but its own calls and its failure moves a pass. */
  lemma OtherStepPc(cfg: Config, s: State, a: Action, k: Key)
    requires !(a.Pass? && a.k == k)
    ensures PcOf(Step(cfg, s, a), k) == PcOf(s, k) || PcOf(Step(cfg, s, a), k).Idle?
  {
    hide NextPc, SourceStep, TargetStep, Effect;
  }

  lemma DeleteIssued(s: State, k: Key, t: TargetNs, vanish: bool)
    ensures DeleteTarget(s, k, t, vanish).issued == s.issued
  {
  }

  lemma FinalizersIssued(s: State, k: Key)
    ensures AddFinalizer(s, k).issued == s.issued && RemoveFinalizer(s, k).issued == s.issued
  {
  }

  lemma StepIssued(cfg: Config, s: State, a: Action, t: TargetNs)
    requires t in s.issued
    ensures t in Step(cfg, s, a).issued && Step(cfg, s, a).issued[t] == s.issued[t]
  {
    hide NextPc, WriteTarget, DeleteTarget, AddFinalizer, RemoveFinalizer;
    if a.Pass? && PcOf(s, a.k).DelIssue? {
      DeleteIssued(s, a.k, PcOf(s, a.k).t, a.c.vanish);
    } else if a.Pass? {
      FinalizersIssued(s, a.k);
    }
  }

  /** A generated namespace is never given to another name. */
  lemma {:induction false} IssuedStays(cfg: Config, s: State, actions: seq<Action>, t: TargetNs)
    requires t in s.issued
    ensures t in Run(cfg, s, actions).issued && Run(cfg, s, actions).issued[t] == s.issued[t]
  {
    hide Step;
    if actions != [] {
      IssuedStays(cfg, s, actions[..|actions| - 1], t);
      StepIssued(cfg, Run(cfg, s, actions[..|actions| - 1]), actions[|actions| - 1], t);
    }
  }

  // ---------- Self-recognition ----------

  /** The lookup of a target namespace never fails for a second match or a foreign one. */
  lemma NamespaceLookupNeverRejected(cfg: Config, s: State, uid: Uid)
    requires Reachable(cfg, s)
    ensures ListSingle(s, uid) != Rejected
    ensures ListSingle(s, uid) == NotFound <==> NoNamespaceOf(s, uid)
  {
    ReachableInv(cfg, s);
    ListSingleExact(s, uid);
  }

  /** Only the broker has written into the target namespaces. */
  ghost predicate AllOwned(s: State) {
    forall tk, x :: x in PastOf(s, tk) ==> x.owner.Some?
  }

  lemma NoTargetEffect(cfg: Config, s: State, k: Key, pc: Pc, c: Choice)
    requires !pc.Write? && !pc.DelIssue?
    ensures Effect(cfg, s, k, pc, c).targets == s.targets && Effect(cfg, s, k, pc, c).past == s.past
  {
    hide WriteTarget, DeleteTarget;
  }

  lemma PutOwned(s: State, tk: TargetKey, x: TargetObject)
    requires AllOwned(s) && x.owner.Some?
    ensures AllOwned(PutTarget(s, tk, x))
  {
    forall other, y | y in PastOf(PutTarget(s, tk, x), other)
      ensures y.owner.Some?
    {
      assert y in PastOf(s, other) || y == x;
    }
  }

  lemma LiveOwned(s: State, tk: TargetKey)
    requires Inv(s) && AllOwned(s) && tk in s.targets
    ensures s.targets[tk].owner.Some?
  {
    assert TargetOk(s, tk);
  }

  lemma WriteOwned(cfg: Config, s: State, k: Key, o: SourceObject, t: TargetNs, found: Found,
                   current: Option<TargetObject>, uid: Uid)
    requires Inv(s) && AllOwned(s)
    ensures AllOwned(WriteTarget(cfg, s, k, o, t, found, current, uid))
  {
    hide Inv, AllOwned, PutTarget, Apply, Partial, Fails, MergePatch;
    if Writable(k, o.spec) && !Refused(o, current) {
      var tk := TargetKeyOf(k, t);
      match current
      case None =>
        PutOwned(s, tk, TargetObject(Some(o.uid), uid, false, Apply(cfg, k, o.spec, found, ZeroTarget(k.kind))));
      case Some(x) =>
        if tk in s.targets && TargetTyped(k.kind, x.spec) {
          LiveOwned(s, tk);
          PutOwned(s, tk, s.targets[tk].(spec :=
            MergePatch(x.spec, Apply(cfg, k, o.spec, found, x.spec), s.targets[tk].spec)));
        }
    }
  }

  lemma SamePastOwned(s: State, s': State)
    requires AllOwned(s) && s'.past == s.past
    ensures AllOwned(s')
  {
    assert forall tk :: PastOf(s', tk) == PastOf(s, tk);
  }

  lemma DeleteOwned(s: State, k: Key, t: TargetNs, vanish: bool)
    requires Inv(s) && AllOwned(s)
    ensures AllOwned(DeleteTarget(s, k, t, vanish))
  {
    hide Inv, AllOwned, PutTarget;
    if k.ObjKey? && TargetKeyOf(k, t) in s.targets {
      var tk := TargetKeyOf(k, t);
      LiveOwned(s, tk);
      PutOwned(s, tk, s.targets[tk].(deleting := true));
      SamePastOwned(s, DropTarget(s, tk));
    }
  }

  lemma EffectOwned(cfg: Config, s: State, k: Key, pc: Pc, c: Choice)
    requires Inv(s) && AllOwned(s)
    ensures AllOwned(Effect(cfg, s, k, pc, c))
  {
    hide Inv, AllOwned, WriteTarget, DeleteTarget, AddFinalizer, RemoveFinalizer, CreateNamespace, MarkNamespace;
    match pc
    case Write(o, t, found, current) => WriteOwned(cfg, s, k, o, t, found, current, c.uid);
    case DelIssue(_, t) => DeleteOwned(s, k, t, c.vanish);
    case _ =>
      NoTargetEffect(cfg, s, k, pc, c);
      SamePastOwned(s, Effect(cfg, s, k, pc, c));
  }

  lemma AllOwnedPass(cfg: Config, s: State, k: Key, c: Choice)
    requires Inv(s) && AllOwned(s)
    ensures AllOwned(PassStep(cfg, s, k, c))
  {
    hide Inv, AllOwned, Effect, NextPc;
    EffectOwned(cfg, s, k, PcOf(s, k), c);
    SamePastOwned(Effect(cfg, s, k, PcOf(s, k), c), PassStep(cfg, s, k, c));
  }

  lemma AllOwnedStep(cfg: Config, s: State, a: Action)
    requires Inv(s) && AllOwned(s) && !a.TargetForeign?
    ensures AllOwned(Step(cfg, s, a))
  {
    hide Inv, AllOwned, PassStep, PutTarget;
    match a
    case Pass(k, c) => AllOwnedPass(cfg, s, k, c);
    case TargetMark(tk) =>
      if tk in s.targets {
        LiveOwned(s, tk);
        PutOwned(s, tk, s.targets[tk].(deleting := true));
      }
    case TargetEdit(tk, image) =>
      if tk in s.targets {
        LiveOwned(s, tk);
        PutOwned(s, tk, s.targets[tk].(spec := image));
      }
    case _ => SamePastOwned(s, Step(cfg, s, a));
  }

  lemma {:induction false} AllOwnedRun(cfg: Config, s: State, actions: seq<Action>)
    requires Inv(s) && AllOwned(s) && forall i :: 0 <= i < |actions| ==> !actions[i].TargetForeign?
    ensures AllOwned(Run(cfg, s, actions))
  {
    hide Inv, AllOwned, Step;
    if actions != [] {
      AllOwnedRun(cfg, s, actions[..|actions| - 1]);
      RunKeeps(cfg, s, actions[..|actions| - 1]);
      AllOwnedStep(cfg, Run(cfg, s, actions[..|actions| - 1]), actions[|actions| - 1]);
    }
  }

  /** Nobody but the broker has ever created an object in a target namespace. */
  ghost predicate BrokerOnly(actions: seq<Action>) {
    forall i :: 0 <= i < |actions| ==> !actions[i].TargetForeign?
  }

  lemma OwnedWhenBrokerOnly(cfg: Config, s: State, actions: seq<Action>)
    requires BrokerOnly(actions) && Run(cfg, INIT, actions) == s
    ensures Reachable(cfg, s) && Inv(s) && AllOwned(s)
  {
    hide Step;
    RunKeeps(cfg, INIT, actions);
    AllOwnedRun(cfg, INIT, actions);
  }

  /** The target that is there belongs to the source object a pass on its key has read as held. */
  lemma LiveIsOwn(s: State, k: Key, o: SourceObject, t: TargetNs)
    requires Inv(s) && k.ObjKey? && Secured(s, k, o) && TargetKeyOf(k, t) in s.targets
    requires ResolvedFor(s, k, t)
    ensures s.targets[TargetKeyOf(k, t)].owner.Some? ==> s.targets[TargetKeyOf(k, t)].owner == Some(o.uid)
  {
    var tk := TargetKeyOf(k, t);
    assert TargetOk(s, tk) && NamespaceOk(s, t);
    if s.targets[tk].owner.Some? {
      assert SourceKey(s, tk) == k;
      assert ViewOf(s, k)[0].value.uid == o.uid;
    }
  }

  /**
    With only the broker writing in the target namespaces, exactly when a write is refused: when the
    target cache returned the target of an earlier source object of the same name.  That target is not
    in the cluster any more: what is there, if anything, is controlled by the present source object.
   */
  lemma RefusedExactly(cfg: Config, s: State, actions: seq<Action>, k: Key)
    requires BrokerOnly(actions) && Run(cfg, INIT, actions) == s
    requires k.ObjKey? && PcOf(s, k).Write?
    ensures var Write(o, t, _, current) := PcOf(s, k);
            && (Refused(o, current) <==>
                  current.Some? && exists earlier: Uid :: earlier != o.uid && current.value.owner == Some(earlier))
            && (current.Some? ==>
                  (current.value.owner.Some? &&
                   current.value.owner.value in s.born && s.born[current.value.owner.value] == k))
            && (TargetKeyOf(k, t) in s.targets ==> s.targets[TargetKeyOf(k, t)].owner == Some(o.uid))
  {
    hide Run, Relies;
    OwnedWhenBrokerOnly(cfg, s, actions);
    PcsAreOk(s, k);
    var Write(o, t, _, current) := PcOf(s, k);
    var tk := TargetKeyOf(k, t);
    assert PastOk(s, tk);
    if current.Some? {
      assert VersionOk(s, tk, current.value);
      assert current.value.owner == Some(current.value.owner.value);
    }
    if tk in s.targets {
      LiveIsOwn(s, k, o, t);
      LiveOwned(s, tk);
    }
  }

  /**
    Self-recognition: with only the broker writing and a target cache that does not lag behind at the
    read, no write is refused, however often sources are deleted and recreated under the same name.
   */
  lemma SelfRecognition(cfg: Config, s: State, actions: seq<Action>, k: Key, c: Choice)
    requires BrokerOnly(actions) && Run(cfg, INIT, actions) == s
    requires k.ObjKey? && PcOf(s, k).Fetch? && TargetKeyOf(k, PcOf(s, k).t) !in c.stale
    ensures PcOf(PassStep(cfg, s, k, c), k).Write?
    ensures var Write(o, _, _, current) := PcOf(PassStep(cfg, s, k, c), k); !Refused(o, current)
  {
    hide Effect, Run, Relies, Inv;
    OwnedWhenBrokerOnly(cfg, s, actions);
    PcsAreOk(s, k);
    var Fetch(o, t, _) := PcOf(s, k);
    if TargetKeyOf(k, t) in s.targets {
      LiveIsOwn(s, k, o, t);
      LiveOwned(s, TargetKeyOf(k, t));
    }
  }

  /** And whatever was read, after a write the object in place is controlled by the source of the pass. */
  lemma WriteLeavesControlled(cfg: Config, s: State, actions: seq<Action>, k: Key, c: Choice)
    requires BrokerOnly(actions) && Run(cfg, INIT, actions) == s
    requires k.ObjKey? && PcOf(s, k).Write?
    ensures var tk := TargetKeyOf(k, PcOf(s, k).t);
            tk in PassStep(cfg, s, k, c).targets ==>
              PassStep(cfg, s, k, c).targets[tk].owner == Some(PcOf(s, k).o.uid)
  {
    hide WriteTarget, Inv;
    RefusedExactly(cfg, s, actions, k);
  }

  // ---------- Drain safety ----------

  /** From the moment a delete pass has seen the target gone, nothing brings it back. */
  lemma AbsentUntilReleased(cfg: Config, s: State, k: Key)
    requires Reachable(cfg, s) && PcOf(s, k).DelFin?
    ensures NoTargetFor(s, k)
    ensures k.NsKey? ==> NoNamespaceOf(s, PcOf(s, k).o.uid)
  {
    ReachableInv(cfg, s);
    PcsAreOk(s, k);
  }

  lemma PassDropsFinalizer(cfg: Config, s: State, j: Key, c: Choice, k: Key)
    requires Live(s, k).Some? && Live(s, k).value.fin
    requires Live(PassStep(cfg, s, j, c), k).None? || !Live(PassStep(cfg, s, j, c), k).value.fin
    ensures j == k && PcOf(s, k).DelFin?
  {
    hide Effect, NextPc;
    assert ViewOf(PassStep(cfg, s, j, c), k) == ViewOf(Effect(cfg, s, j, PcOf(s, j), c), k);
  }

  lemma FinalizerDropped(cfg: Config, s: State, a: Action, k: Key)
    requires Live(s, k).Some? && Live(s, k).value.fin
    requires Live(Step(cfg, s, a), k).None? || !Live(Step(cfg, s, a), k).value.fin
    ensures a.Pass? && a.k == k && PcOf(s, k).DelFin?
  {
    hide PassStep;
    if a.Pass? {
      PassDropsFinalizer(cfg, s, a.k, a.c, k);
    }
  }

  lemma MarkedPassAddsNone(cfg: Config, s: State, j: Key, c: Choice, k: Key)
    requires Live(s, k).Some? && Live(s, k).value.deleting && !Live(s, k).value.fin
    ensures var l := Live(PassStep(cfg, s, j, c), k); l.Some? ==> l.value.deleting && !l.value.fin
  {
    hide Effect, NextPc;
    assert ViewOf(PassStep(cfg, s, j, c), k) == ViewOf(Effect(cfg, s, j, PcOf(s, j), c), k);
  }

  /** No step gives the finalizer to a source object that is marked for deletion and does not have it. */
  lemma MarkedGainsNone(cfg: Config, s: State, a: Action, k: Key)
    requires Live(s, k).Some? && Live(s, k).value.deleting && !Live(s, k).value.fin
    ensures var l := Live(Step(cfg, s, a), k); l.Some? ==> l.value.deleting && !l.value.fin
  {
    hide PassStep, TargetStep;
    if a.Pass? {
      MarkedPassAddsNone(cfg, s, a.k, a.c, k);
    }
  }

  /**
    Whatever step takes the finalizer off a source object, it is the last step of a delete pass on
    that object, and it leaves no target of the object behind in any target namespace.
   */
  lemma FinalizerDroppedSafely(cfg: Config, s: State, a: Action, k: Key)
    requires Reachable(cfg, s)
    requires Live(s, k).Some? && Live(s, k).value.fin
    requires Live(Step(cfg, s, a), k).None? || !Live(Step(cfg, s, a), k).value.fin
    ensures a.Pass? && a.k == k && PcOf(s, k).DelFin?
    ensures NoTargetFor(Step(cfg, s, a), k)
    ensures k.NsKey? ==> forall t :: t in Step(cfg, s, a).namespaces ==> Step(cfg, s, a).namespaces[t].ownerName != k.name
  {
    ReachableInv(cfg, s);
    StepKeeps(cfg, s, a);
    var s' := Step(cfg, s, a);
    forall tk | tk in s'.targets
      ensures !TargetFor(s', k, tk)
    {
      assert TargetOk(s', tk);
    }
    if k.NsKey? {
      forall t | t in s'.namespaces
        ensures s'.namespaces[t].ownerName != k.name
      {
        assert NamespaceOk(s', t);
      }
    }
    FinalizerDropped(cfg, s, a, k);
  }
}
