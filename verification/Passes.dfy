/**
  A whole pass without interference, in direct style, and the proof that it is a run of the
  protocol.  On top of it: deletion passes drain a source object in the end.
 */
module Passes {
  import opened Wrappers
  import opened Objects
  import opened Sync
  import opened Protocol
  import opened ProtocolInvariant

  // ---------- Whole passes ----------

  /** `TargetNamespaceFor`. */
  ghost function TargetNamespaceFor(s: State, k: Key): Single {
    match Cached(s, NamespaceOf(k))
    case None => Rejected
    case Some(n) => ListSingle(s, n.uid)
  }

  /** All lookups of a round; none if one of them fails. */
  ghost function LookupAll(cfg: Config, s: State, c: Choice, order: seq<Key>, found: Found): Option<Found> {
    if order == [] then Some(found)
    else match TargetLookup(cfg, s, c, order[0])
      case Error => None
      case a => LookupAll(cfg, s, c, order[1..], Noted(found, order[0], a))
  }

  /** One round on an object whose target namespace is known. */
  ghost function ApplyRound(cfg: Config, s: State, k: Key, o: SourceObject, t: TargetNs, c: Choice, order: seq<Key>,
                            found: Found)
    : State
    requires k.ObjKey?
  {
    match LookupAll(cfg, s, c, order, found)
    case None => s
    case Some(all) => WriteTarget(cfg, s, k, o, t, all, ReadTarget(s, c, TargetKeyOf(k, t)), c.uid)
  }

  ghost function ReconcileObject(cfg: Config, s: State, k: Key, o: SourceObject, c: Choice): State
    requires k.ObjKey?
  {
    if k.kind == Volume && !o.fin then AddFinalizer(s, k)
    else match TargetNamespaceFor(s, k)
      case One(t) =>
        if !o.fin then AddFinalizer(s, k)
        else ApplyRound(cfg, s, k, o, t, c, LookupOrder(cfg, k, o.spec), map[])
      case _ => s
  }

  ghost function DeleteObject(s: State, k: Key, c: Choice): State
    requires k.ObjKey?
  {
    match TargetNamespaceFor(s, k)
    case One(t) => if TargetAt(s, k, t).None? then RemoveFinalizer(s, k) else DeleteTarget(s, k, t, c.vanish)
    case NotFound => if k.kind == Volume then RemoveFinalizer(s, k) else s
    case Rejected => s
  }

  ghost function ReconcileNamespace(s: State, k: Key, o: SourceObject, c: Choice): State {
    match ListSingle(s, o.uid)
    case One(_) => EnsureFinalizer(s, k, o)
    case NotFound =>
      if !c.wanted then s
      else if o.fin then CreateNamespace(s, k, o, c.generated)
      else AddFinalizer(s, k)
    case Rejected => s
  }

  ghost function DeleteNamespace(s: State, k: Key, o: SourceObject): State {
    match ListSingle(s, o.uid)
    case One(t) => MarkNamespace(s, t)
    case NotFound => RemoveFinalizer(s, k)
    case Rejected => s
  }

  ghost function NamespacePass(s: State, k: Key, o: SourceObject, c: Choice): State {
    if !o.deleting then ReconcileNamespace(s, k, o, c)
    else if o.fin then DeleteNamespace(s, k, o)
    else s
  }

  ghost function ObjectPass(cfg: Config, s: State, k: Key, o: SourceObject, c: Choice): State
    requires k.ObjKey?
  {
    match BranchPc(cfg, k, o, c.wanted)
    case Idle => s
    case DelNs(_) => DeleteObject(s, k, c)
    case _ => ReconcileObject(cfg, s, k, o, c)
  }

  /** One pass on `k` from start to end, with nothing else happening in between. */
  ghost function FullPass(cfg: Config, s: State, k: Key, c: Choice): State {
    match Cached(s, k)
    case None => s
    case Some(o) => if k.NsKey? then NamespacePass(s, k, o, c) else ObjectPass(cfg, s, k, o, c)
  }

  // ---------- A whole pass is a run ----------

  ghost function Drive(cfg: Config, s: State, k: Key, c: Choice, n: nat): State {
    if n == 0 then s else PassStep(cfg, Drive(cfg, s, k, c, n - 1), k, c)
  }

  function Repeat(a: Action, n: nat): seq<Action> {
    seq(n, _ => a)
  }

  lemma {:induction false} DriveIsRun(cfg: Config, s: State, k: Key, c: Choice, n: nat)
    ensures Drive(cfg, s, k, c, n) == Run(cfg, s, Repeat(Pass(k, c), n))
  {
    hide PassStep, SourceStep, TargetStep;
    if n > 0 {
      DriveIsRun(cfg, s, k, c, n - 1);
      var actions := Repeat(Pass(k, c), n);
      assert actions[..|actions| - 1] == Repeat(Pass(k, c), n - 1);
    }
  }

  ghost predicate Drives(cfg: Config, s: State, k: Key, c: Choice, s': State) {
    exists n: nat :: Drive(cfg, s, k, c, n) == s'
  }

  lemma DriveOn(cfg: Config, s: State, k: Key, c: Choice, s': State)
    requires Drives(cfg, s, k, c, s')
    ensures Drives(cfg, s, k, c, PassStep(cfg, s', k, c))
  {
    var n: nat :| Drive(cfg, s, k, c, n) == s';
    assert Drive(cfg, s, k, c, n + 1) == PassStep(cfg, s', k, c);
  }

  lemma ListSingleSame(s: State, s': State, uid: Uid)
    requires s.namespaces == s'.namespaces
    ensures ListSingle(s, uid) == ListSingle(s', uid)
  {
    assert Labelled(s, uid) == Labelled(s', uid);
  }

  lemma FinalizerCommutes(s: State, k: Key, at: Pc, o: SourceObject)
    ensures AddFinalizer(Goto(s, k, at), k) == Goto(AddFinalizer(s, k), k, at)
    ensures RemoveFinalizer(Goto(s, k, at), k) == Goto(RemoveFinalizer(s, k), k, at)
    ensures EnsureFinalizer(Goto(s, k, at), k, o) == Goto(EnsureFinalizer(s, k, o), k, at)
  {
    assert Live(Goto(s, k, at), k) == Live(s, k);
  }

  lemma DeleteCommutes(s: State, k: Key, at: Pc, t: TargetNs, vanish: bool)
    ensures DeleteTarget(Goto(s, k, at), k, t, vanish) == Goto(DeleteTarget(s, k, t, vanish), k, at)
  {
  }

  lemma NamespaceCommutes(s: State, k: Key, at: Pc, o: SourceObject, t: TargetNs)
    ensures MarkNamespace(Goto(s, k, at), t) == Goto(MarkNamespace(s, t), k, at)
    ensures CreateNamespace(Goto(s, k, at), k, o, t) == Goto(CreateNamespace(s, k, o, t), k, at)
  {
  }

  lemma FinalizerCallCommutes(cfg: Config, s: State, k: Key, pc: Pc, c: Choice, at: Pc)
    requires pc.DelFin? || pc.VolumeFin? || pc.RecFin? || pc.NsKeep? || pc.NsFin?
    ensures Effect(cfg, Goto(s, k, at), k, pc, c) == Goto(Effect(cfg, s, k, pc, c), k, at)
  {
    hide WriteTarget, AddFinalizer, RemoveFinalizer, EnsureFinalizer, Goto;
    FinalizerCommutes(s, k, at, pc.o);
  }

  lemma PutCommutes(s: State, s1: State, tk: TargetKey, x: TargetObject)
    requires s1.targets == s.targets && s1.past == s.past
    ensures PutTarget(s1, tk, x) == s1.(targets := PutTarget(s, tk, x).targets, past := PutTarget(s, tk, x).past)
  {
  }

  lemma CreateCommutes(cfg: Config, s: State, s1: State, k: Key, o: SourceObject, t: TargetNs, found: Found, uid: Uid)
    requires s1.targets == s.targets && s1.namespaces == s.namespaces && s1.past == s.past && Writable(k, o.spec)
    ensures CreateTarget(cfg, s1, k, o, t, found, uid)
            == s1.(targets := CreateTarget(cfg, s, k, o, t, found, uid).targets,
                   past := CreateTarget(cfg, s, k, o, t, found, uid).past)
  {
    hide Apply, Partial, Fails, PutTarget;
    PutCommutes(s, s1, TargetKeyOf(k, t),
      TargetObject(Some(o.uid), uid, false, Apply(cfg, k, o.spec, found, ZeroTarget(k.kind))));
  }

  lemma PatchCommutes(cfg: Config, s: State, s1: State, k: Key, o: SourceObject, t: TargetNs, found: Found, x: TargetObject)
    requires s1.targets == s.targets && s1.namespaces == s.namespaces && s1.past == s.past && Writable(k, o.spec)
    ensures PatchTarget(cfg, s1, k, o, t, found, x)
            == s1.(targets := PatchTarget(cfg, s, k, o, t, found, x).targets,
                   past := PatchTarget(cfg, s, k, o, t, found, x).past)
  {
    hide Apply, MergePatch, Fails, PutTarget;
    var tk := TargetKeyOf(k, t);
    if tk in s.targets && TargetTyped(k.kind, x.spec) {
      PutCommutes(s, s1, tk,
        s.targets[tk].(spec := MergePatch(x.spec, Apply(cfg, k, o.spec, found, x.spec), s.targets[tk].spec)));
    }
  }

  lemma WriteCommutes(cfg: Config, s: State, s1: State, k: Key, o: SourceObject, t: TargetNs, found: Found,
                      current: Option<TargetObject>, uid: Uid)
    requires s1.targets == s.targets && s1.namespaces == s.namespaces && s1.past == s.past
    ensures WriteTarget(cfg, s1, k, o, t, found, current, uid)
            == s1.(targets := WriteTarget(cfg, s, k, o, t, found, current, uid).targets,
                   past := WriteTarget(cfg, s, k, o, t, found, current, uid).past)
  {
    hide Apply, Partial, Fails, MergePatch, CreateTarget, PatchTarget;
    if Writable(k, o.spec) && !Refused(o, current) {
      match current
      case None => CreateCommutes(cfg, s, s1, k, o, t, found, uid);
      case Some(x) => PatchCommutes(cfg, s, s1, k, o, t, found, x);
    }
  }

  lemma WriteCallCommutes(cfg: Config, s: State, k: Key, pc: Pc, c: Choice, at: Pc)
    requires pc.Write?
    ensures Effect(cfg, Goto(s, k, at), k, pc, c) == Goto(Effect(cfg, s, k, pc, c), k, at)
  {
    hide WriteTarget;
    var Write(o, t, found, current) := pc;
    WriteCommutes(cfg, s, Goto(s, k, at), k, o, t, found, current, c.uid);
  }

  lemma TargetCallCommutes(cfg: Config, s: State, k: Key, pc: Pc, c: Choice, at: Pc)
    requires pc.DelIssue? || pc.NsDelIssue? || pc.NsCreate?
    ensures Effect(cfg, Goto(s, k, at), k, pc, c) == Goto(Effect(cfg, s, k, pc, c), k, at)
  {
    hide CreateNamespace, MarkNamespace, DeleteTarget, Goto;
    match pc
    case DelIssue(_, t) => DeleteCommutes(s, k, at, t, c.vanish);
    case NsDelIssue(o, t) => NamespaceCommutes(s, k, at, o, t);
    case NsCreate(o) => NamespaceCommutes(s, k, at, o, c.generated);
  }

  /** What a call does to the clusters does not depend on the program counters. */
  lemma EffectCommutes(cfg: Config, s: State, k: Key, pc: Pc, c: Choice, at: Pc)
    ensures Effect(cfg, Goto(s, k, at), k, pc, c) == Goto(Effect(cfg, s, k, pc, c), k, at)
  {
    hide Goto, WriteTarget;
    if pc.DelFin? || pc.VolumeFin? || pc.RecFin? || pc.NsKeep? || pc.NsFin? {
      FinalizerCallCommutes(cfg, s, k, pc, c, at);
    } else if pc.Write? {
      WriteCallCommutes(cfg, s, k, pc, c, at);
    } else if pc.DelIssue? || pc.NsDelIssue? || pc.NsCreate? {
      TargetCallCommutes(cfg, s, k, pc, c, at);
    }
  }

  lemma LookupCommutes(cfg: Config, s: State, k: Key, c: Choice, at: Pc, d: Key)
    ensures TargetLookup(cfg, Goto(s, k, at), c, d) == TargetLookup(cfg, s, c, d)
  {
    hide ListSingle;
    var s1 := Goto(s, k, at);
    match Cached(s, NamespaceOf(d))
    case None =>
    case Some(n) => ListSingleSame(s, s1, n.uid);
  }

  lemma GotoNamespaces(s: State, k: Key, at: Pc)
    ensures Goto(s, k, at).namespaces == s.namespaces
  {
  }

  lemma ListCommutes(cfg: Config, s: State, k: Key, pc: Pc, c: Choice, at: Pc)
    requires pc.DelList? || pc.RecList? || pc.NsDelList? || pc.NsList?
    ensures NextPc(cfg, Goto(s, k, at), k, pc, c) == NextPc(cfg, s, k, pc, c)
  {
    hide ListSingle, Goto, FirstLookup;
    GotoNamespaces(s, k, at);
    ListSingleSame(s, Goto(s, k, at), if pc.DelList? || pc.RecList? then pc.nsUid else pc.o.uid);
  }

  lemma NextCommutes(cfg: Config, s: State, k: Key, pc: Pc, c: Choice, at: Pc)
    ensures NextPc(cfg, Goto(s, k, at), k, pc, c) == NextPc(cfg, s, k, pc, c)
  {
    hide ListSingle, TargetLookup, BranchPc, FirstLookup, LookupOrder;
    if pc.DelList? || pc.RecList? || pc.NsDelList? || pc.NsList? {
      ListCommutes(cfg, s, k, pc, c, at);
    } else if pc.Lookup? && pc.rest != [] {
      LookupCommutes(cfg, s, k, c, at, pc.rest[0]);
    }
  }

  lemma PassStepAt(cfg: Config, s: State, k: Key, pc: Pc, c: Choice, s': State, next: Pc)
    requires Effect(cfg, s, k, pc, c) == s' && NextPc(cfg, s, k, pc, c) == next
    ensures PassStep(cfg, Goto(s, k, pc), k, c) == Goto(s', k, next)
  {
    hide Effect, NextPc;
    EffectCommutes(cfg, s, k, pc, c, pc);
    NextCommutes(cfg, s, k, pc, c, pc);
    assert PcOf(Goto(s, k, pc), k) == pc;
    assert Goto(Goto(s', k, pc), k, next) == Goto(s', k, next);
  }

  /** The pass makes the call it stands before: from `s` at `pc` to `s'` at `next`. */
  lemma On(cfg: Config, s0: State, k: Key, c: Choice, s: State, pc: Pc, s': State, next: Pc)
    requires Drives(cfg, s0, k, c, Goto(s, k, pc))
    requires Effect(cfg, s, k, pc, c) == s' && NextPc(cfg, s, k, pc, c) == next
    ensures Drives(cfg, s0, k, c, Goto(s', k, next))
  {
    PassStepAt(cfg, s, k, pc, c, s', next);
    DriveOn(cfg, s0, k, c, Goto(s, k, pc));
  }

  /** The same for a call that only reads. */
  lemma ReadOn(cfg: Config, s: State, k: Key, c: Choice, pc: Pc, next: Pc)
    requires Drives(cfg, s, k, c, Goto(s, k, pc))
    requires Effect(cfg, s, k, pc, c) == s && NextPc(cfg, s, k, pc, c) == next
    ensures Drives(cfg, s, k, c, Goto(s, k, next))
  {
    On(cfg, s, k, c, s, pc, s, next);
  }

  lemma WriteOn(cfg: Config, s: State, k: Key, c: Choice, pc: Pc, s': State)
    requires k !in s.pcs && Drives(cfg, s, k, c, Goto(s, k, pc))
    requires Effect(cfg, s, k, pc, c) == s' && NextPc(cfg, s, k, pc, c) == Idle
    ensures Drives(cfg, s, k, c, s')
  {
    On(cfg, s, k, c, s, pc, s', Idle);
    assert Goto(s', k, Idle) == s';
  }

  /** The pass has read the object and decided what to do. */
  lemma StartOn(cfg: Config, s: State, k: Key, c: Choice, o: SourceObject)
    requires k !in s.pcs && Cached(s, k) == Some(o)
    ensures Drives(cfg, s, k, c, Goto(s, k, BranchPc(cfg, k, o, c.wanted)))
  {
    assert Drive(cfg, s, k, c, 0) == s == Goto(s, k, Idle);
    ReadOn(cfg, s, k, c, Idle, Got(o));
    ReadOn(cfg, s, k, c, Got(o), BranchPc(cfg, k, o, c.wanted));
  }

  lemma NsFinRuns(cfg: Config, s: State, k: Key, c: Choice, o: SourceObject)
    requires k !in s.pcs && k.NsKey? && Drives(cfg, s, k, c, Goto(s, k, NsFin(o)))
    ensures Drives(cfg, s, k, c, if o.fin then CreateNamespace(s, k, o, c.generated) else AddFinalizer(s, k))
  {
    hide Drives, WriteTarget;
    if o.fin {
      ReadOn(cfg, s, k, c, NsFin(o), NsCreate(o));
      WriteOn(cfg, s, k, c, NsCreate(o), CreateNamespace(s, k, o, c.generated));
    } else {
      WriteOn(cfg, s, k, c, NsFin(o), AddFinalizer(s, k));
    }
  }

  lemma CreateNamespaceRuns(cfg: Config, s: State, k: Key, c: Choice, o: SourceObject)
    requires k !in s.pcs && k.NsKey? && Drives(cfg, s, k, c, Goto(s, k, NsRef(o)))
    ensures Drives(cfg, s, k, c,
      if !c.wanted then s else if o.fin then CreateNamespace(s, k, o, c.generated) else AddFinalizer(s, k))
  {
    hide Drives, WriteTarget;
    if !c.wanted {
      WriteOn(cfg, s, k, c, NsRef(o), s);
    } else {
      ReadOn(cfg, s, k, c, NsRef(o), NsFin(o));
      NsFinRuns(cfg, s, k, c, o);
    }
  }

  lemma ReconcileNamespaceRuns(cfg: Config, s: State, k: Key, c: Choice, o: SourceObject)
    requires k !in s.pcs && k.NsKey? && Drives(cfg, s, k, c, Goto(s, k, NsList(o)))
    ensures Drives(cfg, s, k, c, ReconcileNamespace(s, k, o, c))
  {
    hide Drives, WriteTarget;
    assert Goto(s, k, Idle) == s;
    match ListSingle(s, o.uid)
    case One(_) =>
      ReadOn(cfg, s, k, c, NsList(o), NsKeep(o));
      WriteOn(cfg, s, k, c, NsKeep(o), EnsureFinalizer(s, k, o));
    case Rejected =>
      ReadOn(cfg, s, k, c, NsList(o), Idle);
    case NotFound =>
      ReadOn(cfg, s, k, c, NsList(o), NsRef(o));
      CreateNamespaceRuns(cfg, s, k, c, o);
  }

  lemma DeleteNamespaceRuns(cfg: Config, s: State, k: Key, c: Choice, o: SourceObject)
    requires k !in s.pcs && k.NsKey? && Drives(cfg, s, k, c, Goto(s, k, NsDelList(o)))
    requires Inv(s)
    ensures Drives(cfg, s, k, c, DeleteNamespace(s, k, o))
  {
    hide Drives, WriteTarget, Inv, ListSingle, RemoveFinalizer, MarkNamespace;
    assert Goto(s, k, Idle) == s;
    ListSingleExact(s, o.uid);
    match ListSingle(s, o.uid)
    case One(t) =>
      ReadOn(cfg, s, k, c, NsDelList(o), NsDelIssue(o, t));
      WriteOn(cfg, s, k, c, NsDelIssue(o, t), MarkNamespace(s, t));
    case NotFound =>
      ReadOn(cfg, s, k, c, NsDelList(o), DelFin(o));
      WriteOn(cfg, s, k, c, DelFin(o), RemoveFinalizer(s, k));
    case Rejected =>
      assert false;
  }

  lemma WriteRuns(cfg: Config, s: State, k: Key, c: Choice, o: SourceObject, t: TargetNs, found: Found)
    requires k !in s.pcs && k.ObjKey? && Drives(cfg, s, k, c, Goto(s, k, Fetch(o, t, found)))
    ensures Drives(cfg, s, k, c, WriteTarget(cfg, s, k, o, t, found, ReadTarget(s, c, TargetKeyOf(k, t)), c.uid))
  {
    hide Drives, WriteTarget, ReadTarget;
    var read := ReadTarget(s, c, TargetKeyOf(k, t));
    ReadOn(cfg, s, k, c, Fetch(o, t, found), Write(o, t, found, read));
    WriteOn(cfg, s, k, c, Write(o, t, found, read), WriteTarget(cfg, s, k, o, t, found, read, c.uid));
  }

  /** The lookups one after the other, then the read and the write. */
  lemma {:induction false} RoundRuns(cfg: Config, s: State, k: Key, c: Choice, o: SourceObject, t: TargetNs,
                                     order: seq<Key>, found: Found)
    requires k !in s.pcs && k.ObjKey? && Drives(cfg, s, k, c, Goto(s, k, Lookup(o, t, order, found)))
    ensures Drives(cfg, s, k, c, ApplyRound(cfg, s, k, o, t, c, order, found))
  {
    hide Drives, WriteTarget, TargetLookup, ReadTarget;
    assert Goto(s, k, Idle) == s;
    var pc := Lookup(o, t, order, found);
    if order == [] {
      ReadOn(cfg, s, k, c, pc, Fetch(o, t, found));
      WriteRuns(cfg, s, k, c, o, t, found);
    } else {
      match TargetLookup(cfg, s, c, order[0])
      case Error => ReadOn(cfg, s, k, c, pc, Idle);
      case a =>
        ReadOn(cfg, s, k, c, pc, Lookup(o, t, order[1..], Noted(found, order[0], a)));
        RoundRuns(cfg, s, k, c, o, t, order[1..], Noted(found, order[0], a));
    }
  }

  lemma RecFinRuns(cfg: Config, s: State, k: Key, c: Choice, o: SourceObject, t: TargetNs)
    requires k !in s.pcs && k.ObjKey? && Drives(cfg, s, k, c, Goto(s, k, RecFin(o, t)))
    ensures Drives(cfg, s, k, c,
      if !o.fin then AddFinalizer(s, k) else ApplyRound(cfg, s, k, o, t, c, LookupOrder(cfg, k, o.spec), map[]))
  {
    hide Drives, WriteTarget, ApplyRound;
    if o.fin {
      ReadOn(cfg, s, k, c, RecFin(o, t), FirstLookup(cfg, k, o, t));
      RoundRuns(cfg, s, k, c, o, t, LookupOrder(cfg, k, o.spec), map[]);
    } else {
      WriteOn(cfg, s, k, c, RecFin(o, t), AddFinalizer(s, k));
    }
  }

  lemma RecListRuns(cfg: Config, s: State, k: Key, c: Choice, o: SourceObject, nsUid: Uid)
    requires k !in s.pcs && k.ObjKey? && (k.kind == Volume ==> o.fin)
    requires Drives(cfg, s, k, c, Goto(s, k, RecList(o, nsUid)))
    ensures match ListSingle(s, nsUid)
            case One(t) =>
              Drives(cfg, s, k, c, Goto(s, k, if k.kind == Volume then FirstLookup(cfg, k, o, t) else RecFin(o, t)))
            case _ => Drives(cfg, s, k, c, s)
  {
    hide Drives, WriteTarget, LookupOrder;
    match ListSingle(s, nsUid)
    case NotFound => WriteOn(cfg, s, k, c, RecList(o, nsUid), s);
    case Rejected => WriteOn(cfg, s, k, c, RecList(o, nsUid), s);
    case One(t) =>
      ReadOn(cfg, s, k, c, RecList(o, nsUid), if k.kind == Volume then FirstLookup(cfg, k, o, t) else RecFin(o, t));
  }

  lemma RecNsRuns(cfg: Config, s: State, k: Key, c: Choice, o: SourceObject)
    requires k !in s.pcs && Drives(cfg, s, k, c, Goto(s, k, RecNs(o)))
    ensures match Cached(s, NamespaceOf(k))
            case None => Drives(cfg, s, k, c, s)
            case Some(n) => Drives(cfg, s, k, c, Goto(s, k, RecList(o, n.uid)))
  {
    match Cached(s, NamespaceOf(k))
    case None => WriteOn(cfg, s, k, c, RecNs(o), s);
    case Some(n) => ReadOn(cfg, s, k, c, RecNs(o), RecList(o, n.uid));
  }

  /** From the lookup of the target namespace on; a volume has its finalizer by then. */
  lemma ReconcileResolvedRuns(cfg: Config, s: State, k: Key, c: Choice, o: SourceObject)
    requires k !in s.pcs && k.ObjKey? && (k.kind == Volume ==> o.fin)
    requires Drives(cfg, s, k, c, Goto(s, k, RecNs(o)))
    ensures Drives(cfg, s, k, c, ReconcileObject(cfg, s, k, o, c))
  {
    RecNsRuns(cfg, s, k, c, o);
    match Cached(s, NamespaceOf(k))
    case None =>
    case Some(n) =>
      RecListRuns(cfg, s, k, c, o, n.uid);
      match ListSingle(s, n.uid)
      case One(t) =>
        if k.kind == Volume {
          RoundRuns(cfg, s, k, c, o, t, LookupOrder(cfg, k, o.spec), map[]);
        } else {
          RecFinRuns(cfg, s, k, c, o, t);
        }
      case _ =>
  }

  lemma ReconcileObjectRuns(cfg: Config, s: State, k: Key, c: Choice, o: SourceObject)
    requires k !in s.pcs && k.ObjKey? && Drives(cfg, s, k, c, Goto(s, k, ReconcilePc(k, o)))
    ensures Drives(cfg, s, k, c, ReconcileObject(cfg, s, k, o, c))
  {
    hide Drives, WriteTarget;
    if k.kind == Volume {
      if o.fin {
        ReadOn(cfg, s, k, c, VolumeFin(o), RecNs(o));
        ReconcileResolvedRuns(cfg, s, k, c, o);
      } else {
        WriteOn(cfg, s, k, c, VolumeFin(o), AddFinalizer(s, k));
      }
    } else {
      ReconcileResolvedRuns(cfg, s, k, c, o);
    }
  }

  lemma ReleaseRuns(cfg: Config, s: State, k: Key, c: Choice, o: SourceObject)
    requires k !in s.pcs && Drives(cfg, s, k, c, Goto(s, k, DelFin(o)))
    ensures Drives(cfg, s, k, c, RemoveFinalizer(s, k))
  {
    WriteOn(cfg, s, k, c, DelFin(o), RemoveFinalizer(s, k));
  }

  lemma DeleteObjectRuns(cfg: Config, s: State, k: Key, c: Choice, o: SourceObject)
    requires k !in s.pcs && k.ObjKey? && Drives(cfg, s, k, c, Goto(s, k, DelNs(o)))
    ensures Drives(cfg, s, k, c, DeleteObject(s, k, c))
  {
    hide Drives, WriteTarget;
    assert Goto(s, k, Idle) == s;
    match Cached(s, NamespaceOf(k))
    case None =>
      ReadOn(cfg, s, k, c, DelNs(o), Idle);
    case Some(n) =>
      ReadOn(cfg, s, k, c, DelNs(o), DelList(o, n.uid));
      match ListSingle(s, n.uid)
      case One(t) =>
        ReadOn(cfg, s, k, c, DelList(o, n.uid), DelIssue(o, t));
        if TargetAt(s, k, t).None? {
          ReadOn(cfg, s, k, c, DelIssue(o, t), DelFin(o));
          ReleaseRuns(cfg, s, k, c, o);
        } else {
          WriteOn(cfg, s, k, c, DelIssue(o, t), DeleteTarget(s, k, t, c.vanish));
        }
      case NotFound =>
        if k.kind == Volume {
          ReadOn(cfg, s, k, c, DelList(o, n.uid), DelFin(o));
          ReleaseRuns(cfg, s, k, c, o);
        } else {
          ReadOn(cfg, s, k, c, DelList(o, n.uid), Idle);
        }
      case Rejected =>
        ReadOn(cfg, s, k, c, DelList(o, n.uid), Idle);
  }

  lemma NamespacePassDrives(cfg: Config, s: State, k: Key, c: Choice, o: SourceObject)
    requires k !in s.pcs && Inv(s) && k.NsKey? && Cached(s, k) == Some(o)
    ensures Drives(cfg, s, k, c, NamespacePass(s, k, o, c))
  {
    StartOn(cfg, s, k, c, o);
    if !o.deleting {
      ReconcileNamespaceRuns(cfg, s, k, c, o);
    } else if o.fin {
      DeleteNamespaceRuns(cfg, s, k, c, o);
    } else {
      assert Goto(s, k, Idle) == s;
    }
  }

  lemma ObjectPassDrives(cfg: Config, s: State, k: Key, c: Choice, o: SourceObject)
    requires k !in s.pcs && k.ObjKey? && Cached(s, k) == Some(o)
    ensures Drives(cfg, s, k, c, ObjectPass(cfg, s, k, o, c))
  {
    StartOn(cfg, s, k, c, o);
    match BranchPc(cfg, k, o, c.wanted)
    case Idle => assert Goto(s, k, Idle) == s;
    case DelNs(_) => DeleteObjectRuns(cfg, s, k, c, o);
    case _ => ReconcileObjectRuns(cfg, s, k, c, o);
  }

  lemma FullPassDrives(cfg: Config, s: State, k: Key, c: Choice)
    requires k !in s.pcs && Inv(s)
    ensures Drives(cfg, s, k, c, FullPass(cfg, s, k, c))
  {
    match Cached(s, k)
    case None =>
      assert Drive(cfg, s, k, c, 0) == s;
    case Some(o) =>
      if k.NsKey? {
        NamespacePassDrives(cfg, s, k, c, o);
      } else {
        ObjectPassDrives(cfg, s, k, c, o);
      }
  }

  /** The direct-style pass is what the pass makes of the clusters when nothing interferes. */
  lemma FullPassIsRun(cfg: Config, s: State, k: Key, c: Choice)
    requires k !in s.pcs && Inv(s)
    ensures exists n :: Run(cfg, s, Repeat(Pass(k, c), n)) == FullPass(cfg, s, k, c)
  {
    FullPassDrives(cfg, s, k, c);
    var n: nat :| Drive(cfg, s, k, c, n) == FullPass(cfg, s, k, c);
    DriveIsRun(cfg, s, k, c, n);
  }

  // ---------- Passes among everybody else ----------

  /** The state after the first `n` actions of a run. */
  ghost function StateAt(cfg: Config, s: State, actions: seq<Action>, n: nat): State
    requires n <= |actions|
  {
    Run(cfg, s, actions[..n])
  }

  lemma NextState(cfg: Config, s: State, actions: seq<Action>, n: nat)
    requires n < |actions|
    ensures StateAt(cfg, s, actions, n + 1) == Step(cfg, StateAt(cfg, s, actions, n), actions[n])
  {
    assert actions[..n + 1][..n] == actions[..n];
  }

  lemma EndStates(cfg: Config, s: State, actions: seq<Action>)
    ensures StateAt(cfg, s, actions, 0) == s && StateAt(cfg, s, actions, |actions|) == Run(cfg, s, actions)
  {
    assert actions[..|actions|] == actions;
  }

  /** How many calls of its own a pass has to make at most. */
  function Remaining(cfg: Config, k: Key, pc: Pc): nat {
    match pc
    case Idle => 0
    case Got(o) => |LookupOrder(cfg, k, o.spec)| + 8
    case VolumeFin(o) => |LookupOrder(cfg, k, o.spec)| + 7
    case RecNs(o) => |LookupOrder(cfg, k, o.spec)| + 6
    case RecList(o, _) => |LookupOrder(cfg, k, o.spec)| + 5
    case RecFin(o, _) => |LookupOrder(cfg, k, o.spec)| + 4
    case Lookup(_, _, rest, _) => |rest| + 3
    case Fetch(_, _, _) => 2
    case Write(_, _, _, _) => 1
    case DelNs(_) => 4
    case DelList(_, _) => 3
    case DelIssue(_, _) => 2
    case DelFin(_) => 1
    case NsDelList(_) => 3
    case NsDelIssue(_, _) => 2
    case NsList(_) => 4
    case NsRef(_) => 3
    case NsFin(_) => 2
    case NsCreate(_) => 1
    case NsKeep(_) => 1
  }

  /** Every call brings a pass nearer to its end, whatever the clusters answer and whatever happens meanwhile. */
  lemma PassShrinks(cfg: Config, s: State, k: Key, c: Choice)
    requires !PcOf(s, k).Idle?
    ensures Remaining(cfg, k, PcOf(PassStep(cfg, s, k, c), k)) < Remaining(cfg, k, PcOf(s, k))
  {
    hide Effect, ListSingle, TargetLookup, ReadTarget, LookupOrder;
  }

  /** A pass on `k` begins with action `i` and ends, without having failed, just before action `j`. */
  ghost predicate CompletePass(cfg: Config, s: State, actions: seq<Action>, k: Key, i: nat, j: nat) {
    && i + 1 < j <= |actions|
    && PcOf(StateAt(cfg, s, actions, i), k).Idle?
    && (forall m :: i < m < j ==> !PcOf(StateAt(cfg, s, actions, m), k).Idle?)
    && PcOf(StateAt(cfg, s, actions, j), k).Idle?
    && actions[j - 1].Pass? && actions[j - 1].k == k
  }

  /** A pass on `k` begins and ends within the run. */
  ghost predicate HasPass(cfg: Config, s: State, actions: seq<Action>, k: Key) {
    exists i, j :: CompletePass(cfg, s, actions, k, i, j)
  }
}
