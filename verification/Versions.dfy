/**
  What becomes of single fields of a target over whole runs: where a version comes from, which
  fields a write of the broker leaves to others, and what the fields it does write hold.
 */
module Versions {
  import opened Wrappers
  import opened Objects
  import opened Sync
  import opened Fields
  import opened Protocol
  import opened ProtocolInvariant
  import opened ProtocolTheorems
  import opened Creation

  // ---------- Where versions come from ----------

  /** The next call of the pass on `k` creates the target. */
  ghost predicate Creates(cfg: Config, s: State, k: Key, c: Choice, tk: TargetKey, x: TargetObject) {
    && PcOf(s, k).Write?
    && var Write(o, t, found, current) := PcOf(s, k);
       && current.None? && Writable(k, o.spec) && tk == TargetKeyOf(k, t)
       && x == TargetObject(Some(o.uid), c.uid, false, Apply(cfg, k, o.spec, found, ZeroTarget(k.kind)))
  }

  /** The next call of the pass on `k` patches this target from the version it has read. */
  ghost predicate Patches(s: State, k: Key, tk: TargetKey) {
    && PcOf(s, k).Write?
    && var Write(o, t, _, current) := PcOf(s, k);
       && Writable(k, o.spec) && tk == TargetKeyOf(k, t) && tk in s.targets
       && current.Some? && current.value.owner == Some(o.uid) && TargetTyped(k.kind, current.value.spec)
  }

  /** What the version that was read becomes in the round. */
  ghost function Mutated(cfg: Config, s: State, k: Key, tk: TargetKey): TargetSpec
    requires Patches(s, k, tk)
  {
    Apply(cfg, k, PcOf(s, k).o.spec, PcOf(s, k).found, PcOf(s, k).current.value.spec)
  }

  ghost function AfterPatch(cfg: Config, s: State, k: Key, tk: TargetKey): TargetObject
    requires Patches(s, k, tk)
  {
    s.targets[tk].(spec := MergePatch(PcOf(s, k).current.value.spec, Mutated(cfg, s, k, tk), s.targets[tk].spec))
  }

  /** A target is written by the pass on its key, marked, edited by others, or brought there by others. */
  ghost predicate ComesFrom(cfg: Config, s: State, a: Action, tk: TargetKey, x: TargetObject) {
    || (a.Pass? && tk !in s.targets && Creates(cfg, s, a.k, a.c, tk, x))
    || (a.Pass? && Patches(s, a.k, tk) && x == AfterPatch(cfg, s, a.k, tk))
    || (tk in s.targets && x == s.targets[tk].(deleting := true))
    || (a.TargetEdit? && tk == a.tk && tk in s.targets && x == s.targets[tk].(spec := a.image))
    || (a.TargetForeign? && tk !in s.targets && x.owner.None?)
  }

  lemma WriteComesFrom(cfg: Config, s: State, k: Key, c: Choice, tk: TargetKey)
    requires PcOf(s, k).Write?
    ensures var Write(o, t, found, current) := PcOf(s, k);
            var s' := WriteTarget(cfg, s, k, o, t, found, current, c.uid);
            tk in s'.targets && !(tk in s.targets && s'.targets[tk] == s.targets[tk]) ==>
              ComesFrom(cfg, s, Pass(k, c), tk, s'.targets[tk])
  {
    hide Apply, Partial, Fails, MergePatch;
  }

  lemma PlacedByOthers(cfg: Config, s: State, a: Action, tk: TargetKey)
    requires TargetSide(a)
    requires tk in TargetStep(s, a).targets && !(tk in s.targets && TargetStep(s, a).targets[tk] == s.targets[tk])
    ensures ComesFrom(cfg, s, a, tk, TargetStep(s, a).targets[tk])
  {
    hide Creates, Patches;
  }

  lemma PlacedByPass(cfg: Config, s: State, k: Key, c: Choice, tk: TargetKey)
    requires var s' := PassStep(cfg, s, k, c); tk in s'.targets && !(tk in s.targets && s'.targets[tk] == s.targets[tk])
    ensures ComesFrom(cfg, s, Pass(k, c), tk, PassStep(cfg, s, k, c).targets[tk])
  {
    hide NextPc, WriteTarget, Creates, Patches;
    var pc := PcOf(s, k);
    if pc.Write? {
      WriteIsEffect(cfg, s, k, c);
      WriteComesFrom(cfg, s, k, c, tk);
    } else if !pc.DelIssue? {
      NoTargetEffect(cfg, s, k, pc, c);
    }
  }

  /** Whatever a step has put in place. */
  lemma NewInPlace(cfg: Config, s: State, a: Action, tk: TargetKey)
    requires tk in Step(cfg, s, a).targets && !(tk in s.targets && Step(cfg, s, a).targets[tk] == s.targets[tk])
    ensures ComesFrom(cfg, s, a, tk, Step(cfg, s, a).targets[tk])
  {
    hide NextPc, WriteTarget, Creates, Patches, TargetStep, SourceStep;
    if TargetSide(a) {
      PlacedByOthers(cfg, s, a, tk);
    } else if a.Pass? {
      hide PassStep;
      PlacedByPass(cfg, s, a.k, a.c, tk);
    }
  }

  /** A version that there has not been before is one that a step has put in place. */
  lemma NewVersion(cfg: Config, s: State, a: Action, tk: TargetKey, x: TargetObject)
    requires Inv(s) && x in PastOf(Step(cfg, s, a), tk) && x !in PastOf(s, tk)
    ensures ComesFrom(cfg, s, a, tk, x)
  {
    hide Step, Creates, Patches, Inv;
    StepPast(cfg, s, a, tk, x);
    if tk in s.targets {
      TargetKnown(s, tk);
    }
    NewInPlace(cfg, s, a, tk);
  }

  // ---------- What a write leaves to others ----------

  /** The round of the pass on `k` changes this field of the version that was read. */
  ghost predicate Sends(cfg: Config, s: State, k: Key, tk: TargetKey, f: Field) {
    Patches(s, k, tk) && Get(Mutated(cfg, s, k, tk), f) != Get(PcOf(s, k).current.value.spec, f)
  }

  /** The step leaves this field of the target alone: others do not change it, and no pass sends it. */
  ghost predicate FieldKept(cfg: Config, s: State, a: Action, tk: TargetKey, f: Field) {
    && tk in s.targets && tk in Step(cfg, s, a).targets
    && (a.TargetEdit? && a.tk == tk ==> Get(a.image, f) == Get(s.targets[tk].spec, f))
    && (a.Pass? ==> !Sends(cfg, s, a.k, tk, f))
  }

  /**
    A write keeps in the live target every field its round has left as read, however old the version
    that was read: what the target cluster has put there meanwhile is still there.
   */
  lemma StepKeepsField(cfg: Config, s: State, a: Action, tk: TargetKey, f: Field)
    requires Inv(s) && FieldKept(cfg, s, a, tk, f) && (Get(s.targets[tk].spec, f).Some? || Sibling(f) == f)
    ensures Get(Step(cfg, s, a).targets[tk].spec, f) == Get(s.targets[tk].spec, f)
  {
    hide Step, Inv, Get, MergePatch, Apply, Fails;
    if Step(cfg, s, a).targets[tk] != s.targets[tk] {
      NewInPlace(cfg, s, a, tk);
      TargetKnown(s, tk);
      if a.Pass? && Patches(s, a.k, tk) {
        MergePatchExactly(tk.kind, PcOf(s, a.k).current.value.spec, Mutated(cfg, s, a.k, tk), s.targets[tk].spec, f);
      }
    }
  }

  /** So it stays over any run in which nobody else changes it and no round does. */
  lemma {:induction false} EditsSurvive(cfg: Config, s: State, actions: seq<Action>, tk: TargetKey, f: Field)
    requires Inv(s) && tk in s.targets && (Get(s.targets[tk].spec, f).Some? || Sibling(f) == f)
    requires forall i :: 0 <= i < |actions| ==> FieldKept(cfg, Run(cfg, s, actions[..i]), actions[i], tk, f)
    ensures tk in Run(cfg, s, actions).targets
    ensures Get(Run(cfg, s, actions).targets[tk].spec, f) == Get(s.targets[tk].spec, f)
  {
    hide Step, Inv, Get;
    if actions != [] {
      var n := |actions| - 1;
      assert forall i :: 0 <= i < n ==> actions[..n][..i] == actions[..i];
      EditsSurvive(cfg, s, actions[..n], tk, f);
      RunKeeps(cfg, s, actions[..n]);
      assert FieldKept(cfg, Run(cfg, s, actions[..n]), actions[n], tk, f);
      StepKeepsField(cfg, Run(cfg, s, actions[..n]), actions[n], tk, f);
    }
  }

  /** A write sends the pool only if the version that was read had none and one is configured. */
  lemma PoolSentExactly(cfg: Config, s: State, k: Key, tk: TargetKey)
    requires Patches(s, k, tk)
    ensures Sends(cfg, s, k, tk, Pool) <==>
            HasPool(k.kind) && cfg.targetPool != "" && Get(PcOf(s, k).current.value.spec, Pool).None?
    ensures Sends(cfg, s, k, tk, Pool) ==> Get(Mutated(cfg, s, k, tk), Pool) == Some(Text(cfg.targetPool))
  {
    hide Apply, Get, Fails;
    PoolExactly(cfg, k, PcOf(s, k).o.spec, PcOf(s, k).found, PcOf(s, k).current.value.spec);
  }

  /** This step neither takes the target away nor changes its pool by somebody else's edit. */
  ghost predicate PoolLeft(cfg: Config, s: State, a: Action, tk: TargetKey) {
    && tk in s.targets && tk in Step(cfg, s, a).targets
    && (a.TargetEdit? && a.tk == tk ==> Get(a.image, Pool) == Get(s.targets[tk].spec, Pool))
  }

  /**
    Where no target pool is configured, the pool that the target cluster has given to a target stays for
    as long as the target does and nobody there changes it, through all writes, however stale their reads.
   */
  lemma PoolSurvives(cfg: Config, s: State, actions: seq<Action>, tk: TargetKey)
    requires Reachable(cfg, s) && cfg.targetPool == "" && tk in s.targets
    requires forall i :: 0 <= i < |actions| ==> PoolLeft(cfg, Run(cfg, s, actions[..i]), actions[i], tk)
    ensures tk in Run(cfg, s, actions).targets
    ensures Get(Run(cfg, s, actions).targets[tk].spec, Pool) == Get(s.targets[tk].spec, Pool)
  {
    hide Step, Inv, Get, Patches, Run;
    ReachableInv(cfg, s);
    forall i | 0 <= i < |actions|
      ensures FieldKept(cfg, Run(cfg, s, actions[..i]), actions[i], tk, Pool)
    {
      var before, a := Run(cfg, s, actions[..i]), actions[i];
      assert PoolLeft(cfg, before, a, tk);
      if a.Pass? && Patches(before, a.k, tk) {
        PoolSentExactly(cfg, before, a.k, tk);
      }
    }
    EditsSurvive(cfg, s, actions, tk, Pool);
  }

  // ---------- What the fields hold that the broker writes ----------

  ghost predicate NobodyEdits(actions: seq<Action>) {
    forall i :: 0 <= i < |actions| ==> !actions[i].TargetEdit?
  }

  /** The pool is the configured one, or none, and a volume is unclaimable exactly if that is configured. */
  ghost predicate AsConfigured(cfg: Config, kind: Kind, t: TargetSpec) {
    && Get(t, Pool) == (if HasPool(kind) && cfg.targetPool != "" then Some(Text(cfg.targetPool)) else None)
    && Get(t, Unclaimable) == (if kind == Volume then Some(Flag(cfg.unclaimable)) else None)
  }

  lemma ZeroConfigured(kind: Kind)
    ensures Get(ZeroTarget(kind), Pool).None?
    ensures Get(ZeroTarget(kind), Unclaimable) == if kind == Volume then Some(Flag(false)) else None
  {
  }

  lemma NewAsConfigured(cfg: Config, s: State, a: Action, tk: TargetKey, x: TargetObject)
    requires Inv(s) && ComesFrom(cfg, s, a, tk, x) && !a.TargetEdit? && x.owner.Some?
    requires forall y :: y in PastOf(s, tk) && y.owner.Some? ==> AsConfigured(cfg, tk.kind, y.spec)
    ensures AsConfigured(cfg, tk.kind, x.spec)
  {
    hide Inv, Get, Apply, MergePatch, Fails;
    if tk in s.targets {
      TargetKnown(s, tk);
    }
    if a.Pass? && tk !in s.targets {
      var Write(o, t, found, current) := PcOf(s, a.k);
      PoolExactly(cfg, a.k, o.spec, found, ZeroTarget(a.k.kind));
      ZeroConfigured(a.k.kind);
    } else if a.Pass? && Patches(s, a.k, tk) && x == AfterPatch(cfg, s, a.k, tk) {
      var Write(o, t, found, current) := PcOf(s, a.k);
      PcsAreOk(s, a.k);
      PoolExactly(cfg, a.k, o.spec, found, current.value.spec);
      MergePatchExactly(tk.kind, current.value.spec, Mutated(cfg, s, a.k, tk), s.targets[tk].spec, Pool);
      MergePatchExactly(tk.kind, current.value.spec, Mutated(cfg, s, a.k, tk), s.targets[tk].spec, Unclaimable);
    }
  }

  /** While nobody else edits targets, every version of a controlled target is as configured. */
  lemma {:induction false} AllAsConfigured(cfg: Config, actions: seq<Action>, tk: TargetKey, x: TargetObject)
    requires NobodyEdits(actions) && x in PastOf(Run(cfg, INIT, actions), tk) && x.owner.Some?
    ensures AsConfigured(cfg, tk.kind, x.spec)
  {
    hide Step, Inv, AsConfigured, ComesFrom;
    if actions != [] {
      var n := |actions| - 1;
      var s := Run(cfg, INIT, actions[..n]);
      forall y | y in PastOf(s, tk) && y.owner.Some?
        ensures AsConfigured(cfg, tk.kind, y.spec)
      {
        AllAsConfigured(cfg, actions[..n], tk, y);
      }
      if x !in PastOf(s, tk) {
        InitInv();
        RunKeeps(cfg, INIT, actions[..n]);
        NewVersion(cfg, s, actions[n], tk, x);
        NewAsConfigured(cfg, s, actions[n], tk, x);
      }
    }
  }

  // ---------- References by uid ----------

  /** The peer had a target of this uid at some state of the run. */
  ghost predicate WasPresent(cfg: Config, actions: seq<Action>, d: Key, uid: Uid) {
    exists i :: 0 <= i <= |actions| && Present(Run(cfg, INIT, actions[..i]), d, uid)
  }

  /** The peer that the source of the pass names had a target of this uid at some state of the run. */
  ghost predicate NamedWasPresent(cfg: Config, actions: seq<Action>, k: Key, d: Key, uid: Uid)
    requires var pc := PcOf(Run(cfg, INIT, actions), k); pc.Write? && Writable(k, pc.o.spec)
  {
    NamesPeer(cfg, k, PcOf(Run(cfg, INIT, actions), k).o.spec, d) && WasPresent(cfg, actions, d, uid)
  }

  /** A reference by uid in the answer of a round is to a target that its peer had. */
  lemma RoundRefPresent(cfg: Config, actions: seq<Action>, k: Key, t: TargetSpec)
    requires var pc := PcOf(Run(cfg, INIT, actions), k);
             pc.Write? && Writable(k, pc.o.spec) && TargetTyped(k.kind, t)
    ensures var pc := PcOf(Run(cfg, INIT, actions), k);
            var ref := UidRefOf(Apply(cfg, k, pc.o.spec, pc.found, t));
            ref.Some? ==>
              exists d: Key :: d.name == ref.value.name && NamedWasPresent(cfg, actions, k, d, ref.value.uid)
  {
    hide Run, Inv, Apply, Present, Fails;
    var s := Run(cfg, INIT, actions);
    InitInv();
    RunKeeps(cfg, INIT, actions);
    PcsAreOk(s, k);
    var Write(o, _, found, _) := PcOf(s, k);
    var ref := UidRefOf(Apply(cfg, k, o.spec, found, t));
    if ref.Some? {
      UidRefExactly(cfg, k, o.spec, found, t, ref.value);
      var d :| NamesPeer(cfg, k, o.spec, d) && d in found && ref.value == found[d];
      PeersHadTargets(cfg, actions, d, found[d].uid);
      assert NamedWasPresent(cfg, actions, k, d, ref.value.uid);
    }
  }

  /** The uid a reference carries; none is empty. */
  function UidIn(ref: Option<UidRef>): Uid {
    if ref.Some? then ref.value.uid else 0
  }

  /** The reference that is there before a write; nothing before the target is created. */
  ghost function RefBefore(s: State, tk: TargetKey): Option<UidRef> {
    if tk in s.targets then UidRefOf(s.targets[tk].spec) else None
  }

  /** What a patch makes of a reference, part by part. */
  lemma PatchedUid(base: TargetSpec, mutated: TargetSpec, live: TargetSpec, kind: Kind)
    requires TargetTyped(kind, base) && TargetTyped(kind, mutated) && TargetTyped(kind, live)
    ensures var after := UidRefOf(MergePatch(base, mutated, live));
            && (after.Some? && UidIn(after) != UidIn(UidRefOf(live)) ==>
                  UidRefOf(mutated).Some? && UidIn(after) == UidRefOf(mutated).value.uid)
            && (UidRefOf(base) == UidRefOf(live) ==> after == UidRefOf(mutated))
  {
  }

  /**
    Every reference by uid that the broker writes is to a target that the peer had which the source
    names: the uid whenever a write changes the one in place, and name and uid together when the target
    is created or the reference in place is the one that was read.
   */
  lemma WrittenRefsPresent(cfg: Config, actions: seq<Action>, k: Key, c: Choice, tk: TargetKey)
    requires var s := Run(cfg, INIT, actions);
             PcOf(s, k).Write? && tk in PassStep(cfg, s, k, c).targets
    ensures var s := Run(cfg, INIT, actions);
            var before, after := RefBefore(s, tk), UidRefOf(PassStep(cfg, s, k, c).targets[tk].spec);
            && (after.Some? && UidIn(after) != UidIn(before) ==>
                  Writable(k, PcOf(s, k).o.spec) && exists d :: NamedWasPresent(cfg, actions, k, d, after.value.uid))
            && (after.Some? && after != before &&
                (PcOf(s, k).current.Some? ==> UidRefOf(PcOf(s, k).current.value.spec) == before) ==>
                  Writable(k, PcOf(s, k).o.spec) &&
                  exists d: Key :: d.name == after.value.name && NamedWasPresent(cfg, actions, k, d, after.value.uid))
  {
    hide Run, Inv, PassStep, Apply, MergePatch, Fails, WasPresent;
    var s := Run(cfg, INIT, actions);
    var s' := PassStep(cfg, s, k, c);
    InitInv();
    RunKeeps(cfg, INIT, actions);
    if !(tk in s.targets && s'.targets[tk] == s.targets[tk]) {
      assert s' == Step(cfg, s, Pass(k, c));
      NewInPlace(cfg, s, Pass(k, c), tk);
      var Write(o, t, found, current) := PcOf(s, k);
      if tk !in s.targets {
        if Writable(k, o.spec) {
          RoundRefPresent(cfg, actions, k, ZeroTarget(k.kind));
        }
      } else {
        TargetKnown(s, tk);
        if Patches(s, k, tk) && s'.targets[tk] == AfterPatch(cfg, s, k, tk) {
          RoundRefPresent(cfg, actions, k, current.value.spec);
          PatchedUid(current.value.spec, Mutated(cfg, s, k, tk), s.targets[tk].spec, tk.kind);
        }
      }
    }
  }

  // ---------- No dangling references ----------

  /** The target cache does not lag behind for any pass. */
  ghost predicate UpToDateReads(actions: seq<Action>) {
    forall i :: 0 <= i < |actions| && actions[i].Pass? ==> actions[i].c.stale == map[]
  }

  /** What a pass is about to patch is still as the pass has read it. */
  ghost predicate ReadIsPresent(s: State) {
    forall k, tk :: Patches(s, k, tk) && s.targets[tk].owner.Some? ==>
      s.targets[tk].spec == PcOf(s, k).current.value.spec
  }

  lemma OneWriter(s: State, k: Key, j: Key)
    requires Inv(s) && k.ObjKey? && j.ObjKey? && PcOf(s, k).Write? && PcOf(s, j).Write?
    requires TargetKeyOf(k, PcOf(s, k).t) == TargetKeyOf(j, PcOf(s, j).t)
    ensures k == j
  {
    hide Inv, Relies, FoundOk;
    PcsAreOk(s, k);
    PcsAreOk(s, j);
  }

  lemma JustRead(cfg: Config, s: State, k: Key, c: Choice, tk: TargetKey)
    requires Patches(PassStep(cfg, s, k, c), k, tk) && c.stale == map[]
    ensures tk in s.targets && PcOf(PassStep(cfg, s, k, c), k).current == Some(s.targets[tk])
    ensures PassStep(cfg, s, k, c).targets == s.targets
  {
    hide Effect, ListSingle, TargetLookup, LookupOrder, Fails;
    NoTargetEffect(cfg, s, k, PcOf(s, k), c);
  }

  lemma StepOfPass(cfg: Config, s: State, k: Key, c: Choice)
    ensures Step(cfg, s, Pass(k, c)) == PassStep(cfg, s, k, c)
  {
    hide PassStep;
  }

  lemma ReadStaysPresent(cfg: Config, s: State, a: Action)
    requires Inv(s) && ReadIsPresent(s) && !a.TargetEdit? && (a.Pass? ==> a.c.stale == map[])
    ensures ReadIsPresent(Step(cfg, s, a))
  {
    hide Step, Inv, Apply, MergePatch, Fails;
    var s' := Step(cfg, s, a);
    forall k, tk | Patches(s', k, tk) && s'.targets[tk].owner.Some?
      ensures s'.targets[tk].spec == PcOf(s', k).current.value.spec
    {
      if a.Pass? && a.k == k {
        assert s' == PassStep(cfg, s, k, a.c) by { StepOfPass(cfg, s, k, a.c); }
        JustRead(cfg, s, k, a.c, tk);
      } else {
        OtherStepPc(cfg, s, a, k);
        if !(tk in s.targets && s'.targets[tk] == s.targets[tk]) {
          NewInPlace(cfg, s, a, tk);
          if a.Pass? && PcOf(s, a.k).Write? && a.k.ObjKey? && TargetKeyOf(a.k, PcOf(s, a.k).t) == tk {
            OneWriter(s, k, a.k);
          }
        }
      }
    }
  }

  lemma NoReadAtFirst()
    ensures ReadIsPresent(INIT)
  {
  }

  lemma {:induction false} ReadsPresent(cfg: Config, actions: seq<Action>)
    requires NobodyEdits(actions) && UpToDateReads(actions)
    ensures ReadIsPresent(Run(cfg, INIT, actions))
  {
    hide Step, Inv, ReadIsPresent;
    if actions == [] {
      assert ReadIsPresent(INIT) by { NoReadAtFirst(); }
    } else {
      var n := |actions| - 1;
      ReadsPresent(cfg, actions[..n]);
      InitInv();
      RunKeeps(cfg, INIT, actions[..n]);
      ReadStaysPresent(cfg, Run(cfg, INIT, actions[..n]), actions[n]);
    }
  }

  /** The kind of the objects that a kind refers to by uid. */
  function ReferredKind(kind: Kind): Kind {
    if kind == VirtualIP then NetworkInterface else Machine
  }

  /** The source object a target's reference stands for had a target of the uid in it. */
  ghost predicate RefPresent(cfg: Config, actions: seq<Action>, tk: TargetKey, ref: Option<UidRef>) {
    ref.Some? ==>
      var s := Run(cfg, INIT, actions);
      && tk.ns in s.issued
      && WasPresent(cfg, actions, ObjKey(ReferredKind(tk.kind), s.issued[tk.ns], ref.value.name), ref.value.uid)
  }

  lemma PresentLater(cfg: Config, actions: seq<Action>, tk: TargetKey, ref: Option<UidRef>)
    requires actions != [] && RefPresent(cfg, actions[..|actions| - 1], tk, ref)
    ensures RefPresent(cfg, actions, tk, ref)
  {
    hide Step, Present;
    if ref.Some? {
      var n := |actions| - 1;
      var s := Run(cfg, INIT, actions[..n]);
      StepIssued(cfg, s, actions[n], tk.ns);
      var d := ObjKey(ReferredKind(tk.kind), s.issued[tk.ns], ref.value.name);
      var i :| 0 <= i <= n && Present(Run(cfg, INIT, actions[..n][..i]), d, ref.value.uid);
      assert actions[..n][..i] == actions[..i];
    }
  }

  /** A reference in the answer of a round, with the key of its peer told from the target. */
  lemma RoundRefOf(cfg: Config, actions: seq<Action>, k: Key, t: TargetSpec)
    requires var pc := PcOf(Run(cfg, INIT, actions), k);
             pc.Write? && Writable(k, pc.o.spec) && TargetTyped(k.kind, t)
    ensures var pc := PcOf(Run(cfg, INIT, actions), k);
            RefPresent(cfg, actions, TargetKeyOf(k, pc.t), UidRefOf(Apply(cfg, k, pc.o.spec, pc.found, t)))
  {
    hide Run, Inv, Apply, WasPresent, Fails, Relies, FoundOk;
    InitInv();
    RunKeeps(cfg, INIT, actions);
    PcsAreOk(Run(cfg, INIT, actions), k);
    RoundRefPresent(cfg, actions, k, t);
  }

  /**
    No dangling references: while nobody else edits targets and the target cache does not lag behind,
    every reference by uid in a target the broker controls, at any time, names an object of the same
    namespace and carries the uid of a target which that object had at some state of the run.
   */
  lemma {:induction false} NoDanglingRefs(cfg: Config, actions: seq<Action>, tk: TargetKey, x: TargetObject)
    requires NobodyEdits(actions) && UpToDateReads(actions)
    requires x in PastOf(Run(cfg, INIT, actions), tk) && x.owner.Some?
    ensures RefPresent(cfg, actions, tk, UidRefOf(x.spec))
  {
    hide Step, Inv, RefPresent, Apply, MergePatch, Fails;
    if actions != [] {
      var n := |actions| - 1;
      var init := actions[..n];
      var s := Run(cfg, INIT, init);
      InitInv();
      RunKeeps(cfg, INIT, init);
      if x in PastOf(s, tk) {
        NoDanglingRefs(cfg, init, tk, x);
      } else {
        NewVersion(cfg, s, actions[n], tk, x);
        if tk in s.targets {
          TargetKnown(s, tk);
        }
        if tk in s.targets && UidRefOf(x.spec) == UidRefOf(s.targets[tk].spec) {
          NoDanglingRefs(cfg, init, tk, s.targets[tk]);
        } else {
          ReadsPresent(cfg, init);
          var k := actions[n].k;
          var Write(o, t, found, current) := PcOf(s, k);
          RoundRefOf(cfg, init, k, if current.Some? then current.value.spec else ZeroTarget(k.kind));
          if current.Some? {
            PatchedUid(current.value.spec, Mutated(cfg, s, k, tk), s.targets[tk].spec, tk.kind);
          }
        }
      }
      PresentLater(cfg, actions, tk, UidRefOf(x.spec));
    }
  }
}
