/**
  No loss, over whole runs: while nobody else edits the blocking references of a source object or of
  its target, every version of the target there ever is has every one of them.  The status of the
  source, and all else of both, may change at any time.
 */
module NoLoss {
  import opened Wrappers
  import opened Objects
  import opened Sync
  import opened Protocol
  import opened ProtocolInvariant
  import opened ProtocolTheorems
  import opened Creation

  /** The source object `uid` under the key `k`, and a spec with the blocking references it has for good. */
  datatype Subject = Subject(k: Key, uid: Uid, spec: Spec)

  ghost predicate Fixed(b: Subject) {
    b.k.ObjKey? && Typed(b.k, b.spec) && !Fails(b.spec)
  }

  ghost predicate SpecSeen(b: Subject, o: SourceObject) {
    o.uid == b.uid ==> SameReferences(o.spec, b.spec)
  }

  ghost predicate ViewShows(s: State, b: Subject) {
    forall i :: 0 <= i < |ViewOf(s, b.k)| && ViewOf(s, b.k)[i].Some? ==> SpecSeen(b, ViewOf(s, b.k)[i].value)
  }

  ghost predicate PcShows(s: State, b: Subject) {
    !PcOf(s, b.k).Idle? ==> SpecSeen(b, PcOf(s, b.k).o)
  }

  ghost predicate VersionIntact(b: Subject, x: TargetObject)
    requires Fixed(b)
  {
    x.owner == Some(b.uid) ==> TargetTyped(b.k.kind, x.spec) && BlockingIntact(b.k, b.spec, x.spec)
  }

  ghost predicate PastIntact(s: State, b: Subject)
    requires Fixed(b)
  {
    forall tk, x :: x in PastOf(s, tk) ==> VersionIntact(b, x)
  }

  ghost predicate LossFree(s: State, b: Subject) {
    && Fixed(b) && b.uid in s.born && s.born[b.uid] == b.k
    && ViewShows(s, b) && PcShows(s, b) && PastIntact(s, b)
  }

  /** Edits of the source object, or of a target that may stand for it, leave the blocking references alone. */
  ghost predicate Leaves(a: Action, b: Subject)
    requires b.k.ObjKey? && Typed(b.k, b.spec)
  {
    && (a.Edit? && a.k == b.k ==> SameReferences(a.spec, b.spec))
    && (a.TargetEdit? && a.tk.kind == b.k.kind && a.tk.name == b.k.name && TargetTyped(b.k.kind, a.image) ==>
          BlockingIntact(b.k, b.spec, a.image))
  }

  // ---------- Versions ----------

  lemma PutIntact(s: State, b: Subject, tk: TargetKey, x: TargetObject)
    requires Fixed(b) && PastIntact(s, b) && VersionIntact(b, x)
    ensures PastIntact(PutTarget(s, tk, x), b)
  {
    hide VersionIntact;
    forall other, y | y in PastOf(PutTarget(s, tk, x), other)
      ensures VersionIntact(b, y)
    {
      assert y in PastOf(s, other) || y == x;
    }
  }

  lemma SamePastIntact(s: State, s': State, b: Subject)
    requires Fixed(b) && PastIntact(s, b) && s'.past == s.past
    ensures PastIntact(s', b)
  {
    hide VersionIntact;
    assert forall tk :: PastOf(s', tk) == PastOf(s, tk);
  }

  lemma LiveIntact(s: State, b: Subject, tk: TargetKey)
    requires Inv(s) && Fixed(b) && PastIntact(s, b) && tk in s.targets
    ensures VersionIntact(b, s.targets[tk])
  {
    hide VersionIntact;
    TargetKnown(s, tk);
  }

  /** Marking keeps what a version refers to. */
  lemma MarkedIntact(b: Subject, x: TargetObject)
    requires Fixed(b) && VersionIntact(b, x)
    ensures VersionIntact(b, x.(deleting := true))
  {
  }

  // ---------- Writes ----------

  lemma CreationIntact(cfg: Config, s: State, b: Subject, k: Key, o: SourceObject, found: Found, uid: Uid)
    requires Fixed(b) && Writable(k, o.spec) && SpecSeen(b, o) && (o.uid == b.uid ==> k == b.k)
    requires NamePreserving(found) && !Partial(k, o.spec, found)
    ensures VersionIntact(b, TargetObject(Some(o.uid), uid, false, Apply(cfg, k, o.spec, found, ZeroTarget(k.kind))))
  {
    hide Apply, Partial, BlockingIntact;
    if o.uid == b.uid {
      CreationIsIntact(cfg, k, o.spec, found, ZeroTarget(k.kind));
      SameReferencesIntact(k, o.spec, b.spec, Apply(cfg, k, o.spec, found, ZeroTarget(k.kind)));
    }
  }

  lemma PatchIntact(cfg: Config, b: Subject, k: Key, o: SourceObject, found: Found, current: TargetObject, live: TargetObject)
    requires Fixed(b) && Writable(k, o.spec) && SpecSeen(b, o) && (o.uid == b.uid ==> k == b.k) && NamePreserving(found)
    requires TargetTyped(k.kind, current.spec) && current.owner == Some(o.uid) && VersionIntact(b, current)
    requires live.owner.Some? ==> live.owner == Some(o.uid)
    requires VersionIntact(b, live)
    ensures VersionIntact(b, live.(spec :=
              MergePatch(current.spec, Apply(cfg, k, o.spec, found, current.spec), live.spec)))
  {
    hide Apply, BlockingIntact, MergePatch;
    if live.owner == Some(b.uid) {
      var mutated := Apply(cfg, k, o.spec, found, current.spec);
      SameReferencesIntact(k, o.spec, b.spec, current.spec);
      RoundKeepsIntact(cfg, k, o.spec, found, current.spec);
      SameReferencesIntact(k, o.spec, b.spec, mutated);
      MergePatchKeepsIntact(k, b.spec, current.spec, mutated, live.spec);
    }
  }

  lemma ReadIntact(s: State, b: Subject, tk: TargetKey, x: TargetObject)
    requires Fixed(b) && PastIntact(s, b) && x in PastOf(s, tk)
    ensures VersionIntact(b, x)
  {
  }

  lemma WriteIntact(cfg: Config, s: State, b: Subject, k: Key, uid: Uid)
    requires Inv(s) && Fixed(b) && PastIntact(s, b) && k.ObjKey? && PcOf(s, k).Write?
    requires SpecSeen(b, PcOf(s, k).o) && (PcOf(s, k).o.uid == b.uid ==> k == b.k)
    ensures var Write(o, t, found, current) := PcOf(s, k);
            PastIntact(WriteTarget(cfg, s, k, o, t, found, current, uid), b)
  {
    hide Inv, Apply, Partial, MergePatch, PutTarget, VersionIntact, PastIntact, Relies, HadTarget, Fails;
    PcsAreOk(s, k);
    var Write(o, t, found, current) := PcOf(s, k);
    FoundNamesPreserved(s, found);
    var tk := TargetKeyOf(k, t);
    if Writable(k, o.spec) && !Refused(o, current) {
      match current
      case None =>
        if !Partial(k, o.spec, found) {
          CreationIntact(cfg, s, b, k, o, found, uid);
          PutIntact(s, b, tk, TargetObject(Some(o.uid), uid, false, Apply(cfg, k, o.spec, found, ZeroTarget(k.kind))));
        }
      case Some(x) =>
        if tk in s.targets && TargetTyped(k.kind, x.spec) {
          ReadIntact(s, b, tk, x);
          LiveIntact(s, b, tk);
          LiveIsOwn(s, k, o, t);
          PatchIntact(cfg, b, k, o, found, x, s.targets[tk]);
          PutIntact(s, b, tk, s.targets[tk].(spec :=
            MergePatch(x.spec, Apply(cfg, k, o.spec, found, x.spec), s.targets[tk].spec)));
        }
    }
  }

  // ---------- Steps ----------

  lemma DeleteIntact(s: State, b: Subject, k: Key, t: TargetNs, vanish: bool)
    requires Inv(s) && Fixed(b) && PastIntact(s, b)
    ensures PastIntact(DeleteTarget(s, k, t, vanish), b)
  {
    hide Inv, PutTarget, VersionIntact, PastIntact;
    if k.ObjKey? && TargetKeyOf(k, t) in s.targets {
      var tk := TargetKeyOf(k, t);
      LiveIntact(s, b, tk);
      MarkedIntact(b, s.targets[tk]);
      PutIntact(s, b, tk, s.targets[tk].(deleting := true));
      SamePastIntact(s, DropTarget(s, tk), b);
    }
  }

  /** A pass that writes for the subject is a pass on its key. */
  lemma WriterKnown(s: State, b: Subject, k: Key)
    requires Inv(s) && LossFree(s, b) && PcOf(s, k).Write?
    ensures k.ObjKey? && SpecSeen(b, PcOf(s, k).o) && (PcOf(s, k).o.uid == b.uid ==> k == b.k)
  {
    hide Inv, PastIntact, ViewShows, FoundOk, Held;
    PcsAreOk(s, k);
  }

  lemma EffectIntact(cfg: Config, s: State, b: Subject, k: Key, c: Choice)
    requires Inv(s) && LossFree(s, b)
    ensures PastIntact(Effect(cfg, s, k, PcOf(s, k), c), b)
  {
    hide Inv, WriteTarget, DeleteTarget, PastIntact, ViewShows;
    var pc := PcOf(s, k);
    match pc
    case Write(o, _, _, _) =>
      WriterKnown(s, b, k);
      WriteIntact(cfg, s, b, k, c.uid);
    case DelIssue(_, t) => DeleteIntact(s, b, k, t, c.vanish);
    case _ =>
      NoTargetEffect(cfg, s, k, pc, c);
      SamePastIntact(s, Effect(cfg, s, k, pc, c), b);
  }

  /** A pass works on the object it has read. */
  lemma NextPcKeepsObject(cfg: Config, s: State, k: Key, pc: Pc, c: Choice)
    ensures var next := NextPc(cfg, s, k, pc, c);
            !next.Idle? ==>
              if pc.Idle? then Cached(s, k).Some? && next.o == Cached(s, k).value && ViewOf(s, k) != [] else next.o == pc.o
  {
    hide ListSingle, TargetLookup, ReadTarget, LookupOrder;
  }

  lemma PassShows(cfg: Config, s: State, b: Subject, k: Key, c: Choice)
    requires ViewShows(s, b) && PcShows(s, b)
    ensures ViewShows(PassStep(cfg, s, k, c), b) && PcShows(PassStep(cfg, s, k, c), b)
  {
    hide Effect, NextPc;
    var s' := PassStep(cfg, s, k, c);
    FinalizerWriteView(s, s', k, b.k);
    NextPcKeepsObject(cfg, s, k, PcOf(s, k), c);
  }

  lemma PassLossFree(cfg: Config, s: State, b: Subject, k: Key, c: Choice)
    requires Inv(s) && LossFree(s, b)
    ensures LossFree(PassStep(cfg, s, k, c), b)
  {
    hide Inv, Effect, NextPc, PastIntact, ViewShows, PcShows;
    EffectIntact(cfg, s, b, k, c);
    SamePastIntact(Effect(cfg, s, k, PcOf(s, k), c), PassStep(cfg, s, k, c), b);
    PassShows(cfg, s, b, k, c);
  }

  /** The queue of the subject grows by what is there already, but for an edit or a mark, or is delivered. */
  lemma SourceStepQueue(s: State, k: Key, a: Action)
    requires SourceSide(a)
    ensures var v, v' := ViewOf(s, k), ViewOf(SourceStep(s, a), k);
            || v' == v
            || (a.k == k && |v| >= 2 && v' == v[1..])
            || (a.k == k && v' == v + [v'[|v|]] && |v'| == |v| + 1 && (v'[|v|].Some? ==>
                  (a.Create? && v'[|v|].value == SourceObject(a.uid, false, false, a.spec) && a.uid !in s.born) ||
                  (v != [] && v[|v| - 1].Some? &&
                   v'[|v|].value == if a.Edit? then v[|v| - 1].value.(spec := a.spec)
                                    else v[|v| - 1].value.(deleting := true))))
  {
  }

  lemma SourceStepView(s: State, b: Subject, a: Action)
    requires LossFree(s, b) && Leaves(a, b) && SourceSide(a)
    ensures ViewShows(SourceStep(s, a), b)
  {
    hide PastIntact, BlockingIntact, SourceStep;
    SourceStepQueue(s, b.k, a);
    var v, v' := ViewOf(s, b.k), ViewOf(SourceStep(s, a), b.k);
    forall i | 0 <= i < |v'| && v'[i].Some?
      ensures SpecSeen(b, v'[i].value)
    {
      if |v'| < |v| {
        assert v'[i] == v[i + 1];
      } else if i < |v| {
        assert v'[i] == v[i];
      }
    }
  }

  lemma SourceStepLossFree(s: State, b: Subject, a: Action)
    requires LossFree(s, b) && Leaves(a, b) && SourceSide(a)
    ensures LossFree(SourceStep(s, a), b)
  {
    hide PastIntact, ViewShows, BlockingIntact;
    SourceStepView(s, b, a);
    SamePastIntact(s, SourceStep(s, a), b);
  }

  lemma FailLossFree(s: State, b: Subject, k: Key)
    requires LossFree(s, b)
    ensures LossFree(Goto(s, k, Idle), b)
  {
    hide PastIntact, BlockingIntact;
    SamePastIntact(s, Goto(s, k, Idle), b);
    assert ViewOf(Goto(s, k, Idle), b.k) == ViewOf(s, b.k);
  }

  /** A target of another kind or name is not controlled by the subject; one of its own is edited with care. */
  lemma EditIntact(s: State, b: Subject, tk: TargetKey, image: TargetSpec)
    requires Inv(s) && LossFree(s, b) && tk in s.targets && TargetTyped(tk.kind, image)
    requires tk.kind == b.k.kind && tk.name == b.k.name ==> BlockingIntact(b.k, b.spec, image)
    ensures VersionIntact(b, s.targets[tk].(spec := image))
  {
    hide BlockingIntact;
    TargetKnown(s, tk);
    assert PastOk(s, tk) && VersionOk(s, tk, s.targets[tk]);
  }

  lemma ForeignIntact(b: Subject, uid: Uid, image: TargetSpec)
    requires Fixed(b)
    ensures VersionIntact(b, TargetObject(None, uid, false, image))
  {
  }

  lemma TargetStepIntact(s: State, b: Subject, a: Action)
    requires Inv(s) && LossFree(s, b) && Leaves(a, b) && TargetSide(a)
    ensures PastIntact(TargetStep(s, a), b)
  {
    hide PastIntact, Inv, PutTarget, VersionIntact, ViewShows, PcShows;
    match a
    case TargetMark(tk) =>
      if tk in s.targets {
        LiveIntact(s, b, tk);
        MarkedIntact(b, s.targets[tk]);
        PutIntact(s, b, tk, s.targets[tk].(deleting := true));
      }
    case TargetEdit(tk, image) =>
      if tk in s.targets && TargetTyped(tk.kind, image) {
        EditIntact(s, b, tk, image);
        PutIntact(s, b, tk, s.targets[tk].(spec := image));
      }
    case TargetForeign(tk, uid, image) =>
      ForeignIntact(b, uid, image);
      PutIntact(s, b, tk, TargetObject(None, uid, false, image));
    case TargetFinish(_) => SamePastIntact(s, TargetStep(s, a), b);
    case NamespaceMark(_) => SamePastIntact(s, TargetStep(s, a), b);
    case NamespaceFinish(_) => SamePastIntact(s, TargetStep(s, a), b);
  }

  lemma TargetStepLossFree(s: State, b: Subject, a: Action)
    requires Inv(s) && LossFree(s, b) && Leaves(a, b) && TargetSide(a)
    ensures LossFree(TargetStep(s, a), b)
  {
    hide Inv, TargetStep, PastIntact, BlockingIntact;
    TargetStepIntact(s, b, a);
    assert ViewOf(TargetStep(s, a), b.k) == ViewOf(s, b.k) && PcOf(TargetStep(s, a), b.k) == PcOf(s, b.k);
  }

  lemma StepLossFree(cfg: Config, s: State, b: Subject, a: Action)
    requires Inv(s) && LossFree(s, b) && Leaves(a, b)
    ensures LossFree(Step(cfg, s, a), b)
  {
    hide Inv, PassStep, SourceStep, TargetStep, LossFree, Leaves;
    if a.Pass? {
      PassLossFree(cfg, s, b, a.k, a.c);
    } else if a.Fail? {
      FailLossFree(s, b, a.k);
    } else if SourceSide(a) {
      SourceStepLossFree(s, b, a);
    } else {
      TargetStepLossFree(s, b, a);
    }
  }

  lemma {:induction false} RunLossFree(cfg: Config, s: State, b: Subject, actions: seq<Action>)
    requires Inv(s) && LossFree(s, b) && forall i :: 0 <= i < |actions| ==> Leaves(actions[i], b)
    ensures LossFree(Run(cfg, s, actions), b)
  {
    hide Inv, LossFree, Step, Leaves;
    if actions != [] {
      var init := actions[..|actions| - 1];
      RunLossFree(cfg, s, b, init);
      RunKeeps(cfg, s, init);
      StepLossFree(cfg, Run(cfg, s, init), b, actions[|actions| - 1]);
    }
  }

  /** A source object that has just been created has no version of a target yet. */
  lemma CreatedLossFree(cfg: Config, s: State, b: Subject)
    requires Inv(s) && Fixed(b) && Live(s, b.k).None? && b.uid !in s.born
    ensures LossFree(Step(cfg, s, Create(b.k, b.uid, b.spec)), b)
  {
    hide BlockingIntact, PassStep;
    var s' := Step(cfg, s, Create(b.k, b.uid, b.spec));
    forall tk, x | x in PastOf(s', tk)
      ensures VersionIntact(b, x)
    {
      assert PastOk(s, tk) && VersionOk(s, tk, x);
    }
    var v := ViewOf(s, b.k);
    assert ViewOk(s.born, b.k, v);
    forall i | 0 <= i < |v| && v[i].Some?
      ensures v[i].value.uid != b.uid
    {
      assert BornAs(s.born, b.k, v[i].value);
    }
    PcsAreOk(s, b.k);
  }

  /** From any state in which nothing has been lost yet. */
  lemma NoLossFrom(cfg: Config, s: State, b: Subject, actions: seq<Action>, tk: TargetKey)
    requires Inv(s) && LossFree(s, b) && forall i :: 0 <= i < |actions| ==> Leaves(actions[i], b)
    requires var s' := Run(cfg, s, actions); tk in s'.targets && s'.targets[tk].owner == Some(b.uid)
    ensures var s' := Run(cfg, s, actions);
            TargetTyped(b.k.kind, s'.targets[tk].spec) && BlockingIntact(b.k, b.spec, s'.targets[tk].spec)
  {
    hide Inv, Run, Leaves, BlockingIntact;
    RunLossFree(cfg, s, b, actions);
    RunKeeps(cfg, s, actions);
    LiveIntact(Run(cfg, s, actions), b, tk);
  }

  /**
    No loss over runs: from the creation of a source object on, in every run in which nobody else edits its
    blocking references or those of its target, whatever becomes of its status, whatever passes interleave,
    however little their rounds resolve and however stale the target cache is, its target has every
    blocking reference whenever it is there.
   */
  lemma NoLossInRuns(cfg: Config, s: State, b: Subject, actions: seq<Action>, tk: TargetKey)
    requires Reachable(cfg, s) && Fixed(b) && Live(s, b.k).None? && b.uid !in s.born
    requires forall i :: 0 <= i < |actions| ==> Leaves(actions[i], b)
    requires var s' := Run(cfg, Step(cfg, s, Create(b.k, b.uid, b.spec)), actions);
             tk in s'.targets && s'.targets[tk].owner == Some(b.uid)
    ensures var s' := Run(cfg, Step(cfg, s, Create(b.k, b.uid, b.spec)), actions);
            TargetTyped(b.k.kind, s'.targets[tk].spec) && BlockingIntact(b.k, b.spec, s'.targets[tk].spec)
  {
    hide Inv, Run, Step, Leaves, BlockingIntact;
    ReachableInv(cfg, s);
    StepKeeps(cfg, s, Create(b.k, b.uid, b.spec));
    CreatedLossFree(cfg, s, b);
    NoLossFrom(cfg, Step(cfg, s, Create(b.k, b.uid, b.spec)), b, actions, tk);
  }
}
