/**
  Convergence despite cyclic references.  Sources are frozen, and passes on all keys are under way
  at the same time.  Which targets can come about at all, what a pass from its first call to its
  last achieves whatever the others do meanwhile, and answers that no longer change.
 */
module Convergence {
  import opened Wrappers
  import opened Objects
  import opened Sync
  import opened Usage
  import opened Protocol
  import opened ProtocolInvariant
  import opened ProtocolTheorems
  import opened Frozen

  // ---------- Which targets come about ----------

  /** The source keys that have a target. */
  ghost function Targeted(s: State): set<Key> {
    set tk | tk in s.targets && tk.ns in s.namespaces :: SourceKey(s, tk)
  }

  /**
    An object whose target exists from the start, or whose target can be created: it is well formed,
    its source status is ready and all it blocks on is available in turn.
   */
  ghost predicate Available(w: World, start: set<Key>, k: Key)
    requires k.ObjKey?
    decreases KindRank(k.kind)
  {
    || k in start
    || (Needed(w, k) && !Fails(w.g[k].spec) && StatusReady(k, w.g[k].spec) &&
        forall d :: d in BlockingPeers(k, w.g[k].spec) ==>
          d.ObjKey? && KindRank(d.kind) < KindRank(k.kind) && Available(w, start, d))
  }

  /** In a well-bound graph that is every object the broker needs, cycles or not. */
  lemma {:induction false} WellBoundAvailable(w: World, start: set<Key>, k: Key)
    requires WellBound(w) && k.ObjKey? && Needed(w, k)
    ensures Available(w, start, k)
    decreases KindRank(k.kind)
  {
    hide Needed;
    NeededIn(w, k);
    forall d | d in BlockingPeers(k, w.g[k].spec)
      ensures d.ObjKey? && KindRank(d.kind) < KindRank(k.kind) && Available(w, start, d)
    {
      BlockingPeersNeeded(w, k, d);
      WellBoundAvailable(w, start, d);
    }
  }

  lemma HasTargetExact(w: World, s: State, k: Key)
    requires Calm(w, s) && k.ObjKey?
    ensures HasTarget(s, k) <==> k in Targeted(s)
  {
    hide Inv, Needed, Closed;
    if HasTarget(s, k) {
      var t :| IsNamespaceFor(s, k.ns, t) && TargetKeyOf(k, t) in s.targets;
      assert SourceKey(s, TargetKeyOf(k, t)) == k;
    }
    if k in Targeted(s) {
      var tk :| tk in s.targets && tk.ns in s.namespaces && SourceKey(s, tk) == k;
      assert tk == TargetKeyOf(k, tk.ns) && IsNamespaceFor(s, k.ns, tk.ns);
    }
  }

  /** What was there from the start is there, and nothing is there that is not available. */
  ghost predicate Between(w: World, start: set<Key>, s: State) {
    && (forall k :: k in start ==> k.ObjKey? && HasTarget(s, k))
    && (forall k: Key :: k.ObjKey? && HasTarget(s, k) ==> Available(w, start, k))
  }

  lemma StartIsBetween(w: World, s: State)
    requires Calm(w, s)
    ensures Between(w, Targeted(s), s)
  {
    hide Calm, Needed, StatusReady, Fails, BlockingPeers;
    forall k: Key | k.ObjKey?
      ensures HasTarget(s, k) <==> k in Targeted(s)
      ensures HasTarget(s, k) ==> Available(w, Targeted(s), k)
    {
      HasTargetExact(w, s, k);
    }
  }

  // ---------- What a write creates ----------

  lemma WriteCreatesExactly(cfg: Config, s: State, k: Key, o: SourceObject, t: TargetNs, found: Found, uid: Uid)
    requires k.ObjKey? && Typed(k, o.spec) && TargetKeyOf(k, t) !in s.targets
    requires t in s.namespaces && !s.namespaces[t].deleting
    ensures TargetKeyOf(k, t) in WriteTarget(cfg, s, k, o, t, found, None, uid).targets <==>
            !Fails(o.spec) && StatusReady(k, o.spec) && AllFound(BlockingPeers(k, o.spec), found)
    ensures TargetKeyOf(k, t) !in WriteTarget(cfg, s, k, o, t, found, None, uid).targets ==>
              WriteTarget(cfg, s, k, o, t, found, None, uid) == s
  {
    hide Apply, BlockingPeers, StatusReady, Partial, Fails;
    if !Fails(o.spec) {
      PartialExactly(k, o.spec, found);
    }
  }

  /** The facts a pass that is about to write goes by. */
  lemma WriteKnows(w: World, s: State, k: Key)
    requires Settled(w, s) && PcOf(s, k).Write?
    ensures k.ObjKey? && Needed(w, k) && k in w.g && Typed(k, w.g[k].spec)
    ensures var Write(o, t, found, current) := PcOf(s, k);
            && Cached(s, k) == Some(o) && o.fin && o.spec == w.g[k].spec && IsNamespaceFor(s, k.ns, t)
            && !s.namespaces[t].deleting && current == TargetAt(s, k, t)
            && FoundSound(w, s, k, [], found)
  {
    hide Inv, Needed, FoundSound, NamespaceUsed;
    SettledAt(w, s, k);
    CachedSpec(w, s, k);
    NeededIn(w, k);
  }

  /** What has been found has a target, under the name of the peer. */
  lemma FoundHasTarget(w: World, s: State, k: Key, rest: seq<Key>, found: Found, d: Key)
    requires Calm(w, s) && Needed(w, k) && k in w.g && FoundSound(w, s, k, rest, found) && d in found
    ensures d.ObjKey? && HasTarget(s, d)
  {
    hide Inv, Needed, Lookable, HasTarget, LookupNow, Peers;
    PeersLookable(w, k, d);
    LookupExact(w, s, d);
  }

  /** The write of a pass, seen from the target that it is for. */
  lemma WriteStepTarget(w: World, s: State, k: Key, c: Choice)
    requires Settled(w, s) && PcOf(s, k).Write?
    ensures var Write(o, t, found, current) := PcOf(s, k);
            PassStep(w.cfg, s, k, c) == Goto(WriteTarget(w.cfg, s, k, o, t, found, current, c.uid), k, Idle)
  {
    hide WriteTarget, Settled;
  }

  lemma TargetOfName(w: World, s: State, k: Key, t: TargetNs)
    requires Calm(w, s) && k.ObjKey? && IsNamespaceFor(s, k.ns, t)
    ensures HasTarget(s, k) <==> TargetKeyOf(k, t) in s.targets
  {
    hide Calm;
    if t' :| IsNamespaceFor(s, k.ns, t') && TargetKeyOf(k, t') in s.targets {
      NamespaceUnique(w, s, k.ns, t, t');
    }
  }

  /** A pass that has read no target creates one exactly if its round found everything that blocks. */
  lemma CreatesExactly(w: World, s: State, k: Key, c: Choice)
    requires Settled(w, s) && Honest(w, s, Pass(k, c))
    requires k in w.g && k.ObjKey? && Typed(k, w.g[k].spec) && PcOf(s, k).Write? && PcOf(s, k).current.None?
    ensures var s' := PassStep(w.cfg, s, k, c);
            if !Fails(w.g[k].spec) && StatusReady(k, w.g[k].spec) && AllFound(BlockingPeers(k, w.g[k].spec), PcOf(s, k).found)
            then HasTarget(s', k)
            else s' == Goto(s, k, Idle) && !HasTarget(s', k)
  {
    hide Inv, AtRest, WriteTarget, Fails, StatusReady, BlockingPeers, HasTarget, Needed, Honest, PassStep, FoundSound,
      PcSettled;
    var Write(o, t, found, current) := PcOf(s, k);
    WriteKnows(w, s, k);
    WriteStepTarget(w, s, k, c);
    StepSettled(w, s, Pass(k, c));
    WriteCreatesExactly(w.cfg, s, k, o, t, found, c.uid);
    TargetOfName(w, PassStep(w.cfg, s, k, c), k, t);
  }

  // ---------- Nothing comes about that is not available ----------

  lemma EffectOnTargets(cfg: Config, s: State, k: Key, c: Choice)
    requires !PcOf(s, k).Write?
    ensures HonestEffect(cfg, s, k, c).targets == s.targets
  {
    hide WriteTarget, Live;
  }

  lemma OnlyWritesTouchTargets(w: World, s: State, k: Key, c: Choice)
    requires Settled(w, s) && !PcOf(s, k).Write?
    ensures PassStep(w.cfg, s, k, c).targets == s.targets
  {
    hide Calm, NextPc, PassStep, PcSettled, PcFresh, HonestEffect;
    SettledAt(w, s, k);
    SettledIsFresh(w, s, k);
    HonestStep(w, s, k, c);
    EffectOnTargets(w.cfg, s, k, c);
  }

  lemma TargetWasThere(s: State, s': State, k: Key, t: TargetNs)
    requires Inv(s) && Further(s, s') && k.ObjKey? && IsNamespaceFor(s', k.ns, t)
    ensures TargetAt(s, k, t).Some? ==> HasTarget(s, k)
  {
    if TargetAt(s, k, t).Some? {
      assert TargetOk(s, TargetKeyOf(k, t));
      assert IsNamespaceFor(s, k.ns, t);
    }
  }

  /** A new target is one of the key of the pass, which had read that there was none. */
  lemma NewTargetIsOwn(w: World, s: State, a: Action, j: Key)
    requires Settled(w, s) && Honest(w, s, a)
    requires j.ObjKey? && !HasTarget(s, j) && HasTarget(Step(w.cfg, s, a), j)
    ensures a.Pass? && a.k == j && PcOf(s, j).Write? && PcOf(s, j).current.None?
  {
    hide PcSettled, Inv, AtRest, PassStep;
    var s' := Step(w.cfg, s, a);
    StepSettled(w, s, a);
    var t :| IsNamespaceFor(s', j.ns, t) && TargetKeyOf(j, t) in s'.targets;
    TargetWasThere(s, s', j, t);
    if a.Pass? {
      if !PcOf(s, j).Write? {
        OnlyWritesTouchTargets(w, s, j, a.c);
      } else {
        WriteKnows(w, s, j);
        WriteStepTarget(w, s, j, a.c);
        assert !HasTarget(s, j);
      }
    }
  }

  lemma NewTargetAvailable(w: World, start: set<Key>, s: State, a: Action, j: Key)
    requires Settled(w, s) && Honest(w, s, a) && Between(w, start, s)
    requires j.ObjKey? && !HasTarget(s, j) && HasTarget(Step(w.cfg, s, a), j)
    ensures Available(w, start, j)
  {
    hide Calm, Honest, PassStep, Needed, Fails, StatusReady, BlockingPeers, HasTarget, FoundSound, PcSettled;
    NewTargetIsOwn(w, s, a, j);
    WriteKnows(w, s, j);
    CreatesExactly(w, s, j, a.c);
    forall d | d in BlockingPeers(j, w.g[j].spec)
      ensures d.ObjKey? && KindRank(d.kind) < KindRank(j.kind) && Available(w, start, d)
    {
      BlockingPeersRank(j, w.g[j].spec, d);
      FoundHasTarget(w, s, j, [], PcOf(s, j).found, d);
    }
  }

  /** Nothing comes about that is not available. */
  lemma StepBetween(w: World, start: set<Key>, s: State, a: Action)
    requires Settled(w, s) && Honest(w, s, a) && Between(w, start, s)
    ensures Between(w, start, Step(w.cfg, s, a))
  {
    hide Settled, Honest, Step, HasTarget, HasFin, Needed, Fails, StatusReady, BlockingPeers;
    var s' := Step(w.cfg, s, a);
    StepSettled(w, s, a);
    forall j: Key | j.ObjKey?
      ensures HasTarget(s, j) ==> HasTarget(s', j)
      ensures HasTarget(s', j) ==> Available(w, start, j)
    {
      if HasTarget(s, j) {
        TargetOfFurther(s, s', j);
      } else if HasTarget(s', j) {
        NewTargetAvailable(w, start, s, a, j);
      }
    }
  }

  // ---------- A pass among others ----------

  /** A round that began in `b` has found every peer that had a target then, as far as it has looked. */
  ghost predicate FoundSince(w: World, b: State, k: Key, rest: seq<Key>, found: Found)
    requires k in w.g
  {
    forall d: Key :: d in Peers(w.cfg, k, w.g[k].spec) && d.ObjKey? && HasTarget(b, d) ==> d in rest || d in found
  }

  ghost predicate PcSince(w: World, b: State, s: State, k: Key)
    requires k in w.g
  {
    match PcOf(s, k)
    case Lookup(_, _, rest, found) => FoundSince(w, b, k, rest, found)
    case Fetch(_, _, found) => FoundSince(w, b, k, [], found)
    case Write(_, _, found, _) => FoundSince(w, b, k, [], found)
    case _ => true
  }

  lemma LookupSince(w: World, b: State, s: State, k: Key)
    requires Calm(w, s) && PcSettled(w, s, k) && Further(b, s) && k.ObjKey?
    requires Needed(w, k) && k in w.g && PcSince(w, b, s, k) && PcOf(s, k).Lookup? && PcOf(s, k).rest != []
    ensures var Lookup(o, t, rest, found) := PcOf(s, k);
            FoundSince(w, b, k, rest[1..], Noted(found, rest[0], LookupNow(w.cfg, s, rest[0])))
  {
    hide Inv, Needed, Peers, HasTarget, Further, LookupNow, Lookable, Graph, Closed;
    var Lookup(o, t, rest, found) := PcOf(s, k);
    PeersLookable(w, k, rest[0]);
    LookupExact(w, s, rest[0]);
    if HasTarget(b, rest[0]) {
      TargetOfFurther(b, s, rest[0]);
    }
  }

  lemma FetchNext(cfg: Config, s: State, k: Key, c: Choice)
    requires PcOf(s, k).Fetch?
    ensures var next := NextPc(cfg, s, k, PcOf(s, k), c);
            next.Idle? || (next.Write? && next.found == PcOf(s, k).found)
  {
  }

  lemma NewRoundSince(w: World, b: State, s: State, k: Key, c: Choice)
    requires AtRest(w, s) && PcSettled(w, s, k) && k in w.g && !PcOf(s, k).Lookup? && !PcOf(s, k).Fetch?
    ensures var next := NextPc(w.cfg, s, k, PcOf(s, k), c);
            !next.Fetch? && !next.Write? && (next.Lookup? ==> FoundSince(w, b, k, next.rest, next.found))
  {
    hide HasTarget, LookupOrder, TargetLookup, ListSingle, Needed, Wanted, FoundSound, NamespaceUsed;
    if !PcOf(s, k).Idle? {
      CachedSpec(w, s, k);
    }
  }

  lemma OwnSince(w: World, b: State, s: State, k: Key, c: Choice)
    requires Calm(w, s) && PcSettled(w, s, k) && Further(b, s) && Honest(w, s, Pass(k, c))
    requires Needed(w, k) && k in w.g && PcSince(w, b, s, k)
    ensures PcSince(w, b, PassStep(w.cfg, s, k, c), k)
  {
    hide Inv, Needed, FoundSince, Effect, NextPc, PcSettled, Honest;
    var pc := PcOf(s, k);
    KindOfPc(w, s, k);
    if pc.Lookup? {
      FreshChoice(w, s, k, c);
      LookupFits(w, s, k, c);
      if pc.rest != [] {
        LookupSince(w, b, s, k);
      }
    } else if pc.Fetch? {
      FetchNext(w.cfg, s, k, c);
    } else {
      NewRoundSince(w, b, s, k, c);
    }
  }

  /** Whatever happens meanwhile, a round does not miss what was there when the pass began. */
  lemma SinceStep(w: World, b: State, s: State, a: Action, k: Key)
    requires Settled(w, s) && Further(b, s) && Honest(w, s, a)
    requires Needed(w, k) && k in w.g && PcSince(w, b, s, k)
    ensures PcSince(w, b, Step(w.cfg, s, a), k)
  {
    hide Calm, Needed, FoundSince, PcSettled, OnlyFor, PassStep;
    StepSettled(w, s, a);
    if a.k == k && a.Pass? {
      OwnSince(w, b, s, k, a.c);
    } else {
      OtherStepPc(w.cfg, s, a, k);
    }
  }

  /** In a round without gaps everything that has a target has been found: these are the answers of now. */
  lemma FoundIsNow(w: World, s: State, k: Key, found: Found)
    requires Calm(w, s) && Needed(w, k) && k in w.g
    requires FoundSound(w, s, k, [], found) && FoundSince(w, s, k, [], found)
    ensures found == FoundNow(w.cfg, s, Peers(w.cfg, k, w.g[k].spec))
  {
    hide Inv, Needed, Peers, HasTarget, LookupNow, Lookable;
    forall d | d in Peers(w.cfg, k, w.g[k].spec)
      ensures d in found <==> LookupNow(w.cfg, s, d).Hit?
    {
      PeersLookable(w, k, d);
      LookupExact(w, s, d);
    }
  }

  // ---------- Answers that no longer change ----------

  /** The target is what the mutations make of it already. */
  ghost predicate UpToDate(w: World, s: State, k: Key)
    requires k.ObjKey? && k in w.g && Typed(k, w.g[k].spec)
  {
    forall t :: IsNamespaceFor(s, k.ns, t) && TargetKeyOf(k, t) in s.targets ==>
      var x := s.targets[TargetKeyOf(k, t)];
      && TargetTyped(k.kind, x.spec)
      && (!Fails(w.g[k].spec) ==>
            Apply(w.cfg, k, w.g[k].spec, FoundNow(w.cfg, s, Peers(w.cfg, k, w.g[k].spec)), x.spec) == x.spec)
  }

  /** Nothing has a target that had none before. */
  ghost predicate NoNewTargets(s: State, s': State) {
    forall j: Key :: j.ObjKey? && HasTarget(s', j) ==> HasTarget(s, j)
  }

  /** While no targets come about, every lookup of a peer answers the same. */
  lemma FoundStable(w: World, s: State, s': State, k: Key)
    requires Calm(w, s) && Calm(w, s') && Further(s, s') && NoNewTargets(s, s') && Needed(w, k) && k in w.g
    ensures var peers := Peers(w.cfg, k, w.g[k].spec); FoundNow(w.cfg, s', peers) == FoundNow(w.cfg, s, peers)
  {
    hide Inv, Needed, LookupNow, Lookable, HasTarget, Peers, Further;
    forall d | d in Peers(w.cfg, k, w.g[k].spec)
      ensures LookupNow(w.cfg, s', d) == LookupNow(w.cfg, s, d)
    {
      PeersLookable(w, k, d);
      LookupStays(w, s, s', d);
    }
  }

  /** A write to an existing target of one's own puts in place what the mutations make of it. */
  lemma WriteUpdates(cfg: Config, s: State, k: Key, o: SourceObject, t: TargetNs, found: Found, uid: Uid)
    requires k.ObjKey? && Typed(k, o.spec) && TargetKeyOf(k, t) in s.targets
    requires var x := s.targets[TargetKeyOf(k, t)]; TargetTyped(k.kind, x.spec) && x.owner == Some(o.uid)
    ensures var x := s.targets[TargetKeyOf(k, t)];
            WriteTarget(cfg, s, k, o, t, found, TargetAt(s, k, t), uid)
            == if Fails(o.spec) then s
               else PutTarget(s, TargetKeyOf(k, t), x.(spec := Apply(cfg, k, o.spec, found, x.spec)))
  {
    hide Apply, Fails, PutTarget, MergePatch;
    var x := s.targets[TargetKeyOf(k, t)];
    MergePatchUpToDate(k.kind, x.spec, Apply(cfg, k, o.spec, found, x.spec));
  }

  /** The write of a pass whose round has found what there is, to a target that exists. */
  lemma UpdateStep(w: World, s: State, k: Key, c: Choice)
    requires Settled(w, s) && PcOf(s, k).Write? && k in w.g && PcSince(w, s, s, k)
    requires PcOf(s, k).current.Some?
    ensures k.ObjKey? && Typed(k, w.g[k].spec)
    ensures var tk := TargetKeyOf(k, PcOf(s, k).t);
            var found := FoundNow(w.cfg, s, Peers(w.cfg, k, w.g[k].spec));
            && tk in s.targets && TargetTyped(k.kind, s.targets[tk].spec)
            && PassStep(w.cfg, s, k, c) == Goto(if Fails(w.g[k].spec) then s else
                 PutTarget(s, tk, s.targets[tk].(spec := Apply(w.cfg, k, w.g[k].spec, found, s.targets[tk].spec))), k, Idle)
  {
    hide Inv, AtRest, Apply, Needed, FoundNow, Peers, Fails, PutTarget, Goto, FoundSound, FoundSince, PcSettled,
      PassStep, WriteTarget;
    var Write(o, t, found, current) := PcOf(s, k);
    WriteKnows(w, s, k);
    TargetOwned(w, s, k, t);
    FoundIsNow(w, s, k, found);
    WriteStepTarget(w, s, k, c);
    WriteUpdates(w.cfg, s, k, o, t, found, c.uid);
  }

  lemma PutSpec(s: State, k: Key, t: TargetNs, image: TargetSpec)
    requires k.ObjKey? && TargetKeyOf(k, t) in s.targets
    ensures var x := s.targets[TargetKeyOf(k, t)].(spec := image);
            var s' := Goto(PutTarget(s, TargetKeyOf(k, t), x), k, Idle);
            TargetAt(s', k, t) == Some(x) && s'.namespaces == s.namespaces
  {
  }

  lemma WriteAddsNone(w: World, s: State, k: Key, c: Choice)
    requires Settled(w, s) && Honest(w, s, Pass(k, c)) && PcOf(s, k).Write? && PcOf(s, k).current.Some?
    ensures NoNewTargets(s, PassStep(w.cfg, s, k, c))
  {
    hide Settled, Honest, PassStep, HasTarget;
    forall j: Key | j.ObjKey? && HasTarget(PassStep(w.cfg, s, k, c), j)
      ensures HasTarget(s, j)
    {
      if !HasTarget(s, j) {
        NewTargetIsOwn(w, s, Pass(k, c), j);
        assert false;
      }
    }
  }

  lemma ApplyTwice(w: World, s: State, k: Key, found: Found, x: TargetSpec)
    requires AtRest(w, s) && k in w.g && k.ObjKey? && Typed(k, w.g[k].spec) && TargetTyped(k.kind, x)
    ensures Apply(w.cfg, k, w.g[k].spec, found, Apply(w.cfg, k, w.g[k].spec, found, x))
            == Apply(w.cfg, k, w.g[k].spec, found, x)
  {
    hide Apply;
    ApplyIdempotent(w.cfg, k, w.g[k].spec, found, x);
  }

  lemma GotoSame(s: State, k: Key)
    ensures Goto(s, k, Idle).targets == s.targets && Goto(s, k, Idle).namespaces == s.namespaces
  {
  }

  /** If no targets come about meanwhile, that write brings the target up to date. */
  lemma WriteUpToDate(w: World, s: State, k: Key, c: Choice)
    requires Settled(w, s) && Honest(w, s, Pass(k, c)) && PcOf(s, k).Write? && k in w.g
    requires PcSince(w, s, s, k) && PcOf(s, k).current.Some?
    ensures k.ObjKey? && Typed(k, w.g[k].spec) && NoNewTargets(s, PassStep(w.cfg, s, k, c))
    ensures UpToDate(w, PassStep(w.cfg, s, k, c), k)
  {
    hide Inv, AtRest, Apply, Needed, FoundNow, Peers, Fails, Goto, PutTarget, FoundSince, PcSettled, PassStep,
      HasTarget, FoundSound;
    var t := PcOf(s, k).t;
    var s' := PassStep(w.cfg, s, k, c);
    var found := FoundNow(w.cfg, s, Peers(w.cfg, k, w.g[k].spec));
    WriteKnows(w, s, k);
    TargetOwned(w, s, k, t);
    UpdateStep(w, s, k, c);
    StepSettled(w, s, Pass(k, c));
    WriteAddsNone(w, s, k, c);
    FoundStable(w, s, s', k);
    var spec := s.targets[TargetKeyOf(k, t)].spec;
    ApplyTwice(w, s, k, found, spec);
    PutSpec(s, k, t, Apply(w.cfg, k, w.g[k].spec, found, spec));
    GotoSame(s, k);
    forall t' | IsNamespaceFor(s', k.ns, t')
      ensures t' == t
    {
      NamespaceUnique(w, s', k.ns, t, t');
    }
  }

  lemma TargetReadIsThere(w: World, s: State, k: Key)
    requires Settled(w, s) && PcOf(s, k).Write?
    ensures k.ObjKey? && (PcOf(s, k).current.Some? <==> HasTarget(s, k))
  {
    hide Inv, AtRest, Needed, FoundSound, PcSettled;
    WriteKnows(w, s, k);
    TargetOfName(w, s, k, PcOf(s, k).t);
  }

  /** A target that is up to date stays so, also through a pass on its own key that has missed nothing. */
  lemma UpToDateKept(w: World, s: State, a: Action, k: Key)
    requires Settled(w, s) && Honest(w, s, a) && NoNewTargets(s, Step(w.cfg, s, a))
    requires k.ObjKey? && k in w.g && Typed(k, w.g[k].spec) && Needed(w, k) && HasTarget(s, k)
    requires UpToDate(w, s, k) && PcSince(w, s, s, k)
    ensures UpToDate(w, Step(w.cfg, s, a), k)
  {
    hide Inv, AtRest, Apply, Needed, FoundNow, Peers, Fails, FoundSince, PcSettled, PassStep, NoNewTargets;
    if a.Pass? && a.k == k && PcOf(s, k).Write? {
      TargetReadIsThere(w, s, k);
      WriteUpToDate(w, s, k, a.c);
    } else {
      var s' := Step(w.cfg, s, a);
      StepSettled(w, s, a);
      FoundStable(w, s, s', k);
      if a.Pass? && a.k == k {
        OnlyWritesTouchTargets(w, s, k, a.c);
      }
      var t :| IsNamespaceFor(s, k.ns, t) && TargetKeyOf(k, t) in s.targets;
      forall t' | IsNamespaceFor(s', k.ns, t')
        ensures t' == t && TargetAt(s', k, t') == TargetAt(s, k, t')
      {
        NamespaceUnique(w, s', k.ns, t, t');
      }
    }
  }

  // ---------- What a pass achieves ----------

  /** All that creation waits for is there. */
  ghost predicate Creatable(w: World, s: State, k: Key)
    requires k.ObjKey? && k in w.g && Typed(k, w.g[k].spec)
  {
    && !Fails(w.g[k].spec) && StatusReady(k, w.g[k].spec)
    && (forall d :: d in BlockingPeers(k, w.g[k].spec) ==> d.ObjKey? && HasTarget(s, d))
  }

  /** What a pass on `k` that began in `b` has brought about when it has ended in `s`. */
  ghost predicate Achieved(w: World, b: State, s: State, k: Key)
    requires k in w.g && Typed(k, w.g[k].spec)
  {
    if k.NsKey? then HasFin(s, k) && (HasFin(b, k) ==> HasNamespace(s, k.name))
    else HasNamespace(b, k.ns) ==>
      && HasFin(s, k)
      && (HasFin(b, k) && Creatable(w, b, k) ==> HasTarget(s, k))
      && (HasFin(b, k) && HasTarget(b, k) && NoNewTargets(b, s) ==> UpToDate(w, s, k))
  }

  /** The calls with which a pass on a needed object ends. */
  lemma ObjectPassEnds(w: World, s: State, k: Key, c: Choice)
    requires Calm(w, s) && PcSettled(w, s, k) && Honest(w, s, Pass(k, c))
    requires k.ObjKey? && Needed(w, k) && HasNamespace(s, k.ns)
    requires !PcOf(s, k).Idle? && NextPc(w.cfg, s, k, PcOf(s, k), c).Idle?
    ensures var pc := PcOf(s, k); pc.Write? || ((pc.VolumeFin? || pc.RecFin?) && !pc.o.fin)
  {
    hide Inv, Wanted, NamespaceUsed, LookupOrder, ListSingle, TargetLookup, ReadTarget;
    var pc := PcOf(s, k);
    CachedSpec(w, s, k);
    KindOfPc(w, s, k);
    if pc.Got? {
      GotFits(w, s, k, pc.o, c);
    } else if pc.RecNs? || pc.RecList? {
      assert NsKey(k.ns) in Graph(s);
      var t :| IsNamespaceFor(s, k.ns, t);
      ResolveExact(w, s, k.ns, t);
    } else if pc.Lookup? {
      LookupFits(w, s, k, c);
    }
  }

  lemma FinalizerAdded(w: World, s: State, k: Key, c: Choice)
    requires Calm(w, s) && PcSettled(w, s, k)
    requires var pc := PcOf(s, k); (pc.VolumeFin? || pc.RecFin? || pc.NsFin?) && !pc.o.fin
    ensures HasFin(PassStep(w.cfg, s, k, c), k) && !HasFin(s, k)
  {
    hide Inv, Needed, AddFinalizer, NextPc, PassStep, RestingTarget, Mapped, Closed;
    SettledIsFresh(w, s, k);
    HonestStep(w, s, k, c);
    CachedSpec(w, s, k);
    AddFinalizerOnly(w, s, k);
  }

  lemma SinceThen(w: World, b: State, s: State, s': State, k: Key)
    requires k in w.g && PcSince(w, b, s, k) && Further(s, s') && NoNewTargets(b, s')
    ensures PcSince(w, s, s, k)
  {
    hide HasTarget, Peers, Further;
    forall d: Key | d.ObjKey? && HasTarget(s, d)
      ensures HasTarget(b, d)
    {
      TargetOfFurther(s, s', d);
    }
  }

  lemma BlockingFound(w: World, b: State, k: Key, found: Found)
    requires k.ObjKey? && k in w.g && Typed(k, w.g[k].spec) && Creatable(w, b, k) && FoundSince(w, b, k, [], found)
    ensures AllFound(BlockingPeers(k, w.g[k].spec), found)
  {
    hide HasTarget, LookupOrder, BlockingPeers, BestEffortPeers, StatusReady;
    forall d | d in BlockingPeers(k, w.g[k].spec)
      ensures d in found
    {
      LookupOrderMembers(w.cfg, k, w.g[k].spec, d);
    }
  }

  lemma NoFinBefore(w: World, b: State, s: State, k: Key)
    requires HoldsRight(w, b, s)
    ensures Needed(w, k) && HasFin(b, k) ==> HasFin(s, k)
    ensures IsUnwanted(w, k) && HasFin(s, k) ==> HasFin(b, k)
  {
  }

  lemma WriteAchieves(w: World, b: State, s: State, k: Key, c: Choice)
    requires Settled(w, s) && Honest(w, s, Pass(k, c)) && PcOf(s, k).Write?
    requires k.ObjKey? && k in w.g && Typed(k, w.g[k].spec) && Further(b, s) && PcSince(w, b, s, k)
    ensures Achieved(w, b, PassStep(w.cfg, s, k, c), k)
  {
    hide Calm, PcSettled, Needed, Honest, PassStep, HasTarget, Fails, StatusReady, BlockingPeers, UpToDate, Peers,
      FoundSound, HoldsRight;
    var s' := PassStep(w.cfg, s, k, c);
    WriteKnows(w, s, k);
    TargetReadIsThere(w, s, k);
    StepSettled(w, s, Pass(k, c));
    NoFinBefore(w, s, s', k);
    if HasTarget(s, k) {
      TargetOfFurther(s, s', k);
      if NoNewTargets(b, s') {
        SinceThen(w, b, s, s', k);
        WriteUpToDate(w, s, k, c);
      }
    } else if Creatable(w, b, k) {
      BlockingFound(w, b, k, PcOf(s, k).found);
      CreatesExactly(w, s, k, c);
    }
    if HasTarget(b, k) {
      TargetOfFurther(b, s, k);
    }
  }

  lemma ObjectPassAchieves(w: World, b: State, s: State, k: Key, c: Choice)
    requires Settled(w, s) && Honest(w, s, Pass(k, c)) && k.ObjKey? && Needed(w, k)
    requires Further(b, s) && HoldsRight(w, b, s) && k in w.g && Typed(k, w.g[k].spec) && PcSince(w, b, s, k)
    requires !PcOf(s, k).Idle? && NextPc(w.cfg, s, k, PcOf(s, k), c).Idle?
    ensures Achieved(w, b, PassStep(w.cfg, s, k, c), k)
  {
    hide Calm, PcSettled, Needed, Honest, PassStep, NextPc, Creatable, UpToDate, PcSince;
    SettledAt(w, s, k);
    if HasNamespace(b, k.ns) {
      NamespaceOfFurther(b, s, k.ns);
      ObjectPassEnds(w, s, k, c);
      if PcOf(s, k).Write? {
        WriteAchieves(w, b, s, k, c);
      } else {
        FinalizerAdded(w, s, k, c);
        NoFinBefore(w, b, s, k);
      }
    }
  }

  /** The calls with which a pass on a needed namespace ends. */
  lemma NamespacePassEnds(w: World, s: State, k: Key, c: Choice)
    requires Calm(w, s) && PcSettled(w, s, k) && Honest(w, s, Pass(k, c))
    requires k.NsKey? && Needed(w, k)
    requires !PcOf(s, k).Idle? && NextPc(w.cfg, s, k, PcOf(s, k), c).Idle?
    ensures var pc := PcOf(s, k); pc.NsKeep? || pc.NsCreate? || (pc.NsFin? && !pc.o.fin)
  {
    hide Inv, NamespaceUsed, ListSingle;
    var pc := PcOf(s, k);
    CachedSpec(w, s, k);
    KindOfPc(w, s, k);
    if pc.NsList? {
      ListFits(w, s, k, pc.o);
    }
  }

  lemma KeptNamespace(w: World, s: State, s': State, k: Key)
    requires PcSettled(w, s, k) && k.NsKey? && PcOf(s, k).NsKeep? && Further(s, s') && HoldsRight(w, s, s') && Needed(w, k)
    ensures HasFin(s', k) && HasNamespace(s', k.name)
  {
    NamespaceOfFurther(s, s', k.name);
    assert HasFin(s, k);
  }

  lemma CreatedNamespace(w: World, s: State, k: Key, c: Choice)
    requires Calm(w, s) && PcSettled(w, s, k) && Honest(w, s, Pass(k, c)) && Needed(w, k)
    requires k.NsKey? && PcOf(s, k).NsCreate? && HoldsRight(w, s, PassStep(w.cfg, s, k, c))
    ensures var s' := PassStep(w.cfg, s, k, c); HasFin(s', k) && HasNamespace(s', k.name)
  {
    hide Inv, AtRest, PassStep, NextPc, CreateNamespace, Needed;
    SettledIsFresh(w, s, k);
    HonestStep(w, s, k, c);
    CreateNamespaceOnly(s, k, PcOf(s, k).o, c.generated);
    assert HasFin(s, k);
    assert IsNamespaceFor(PassStep(w.cfg, s, k, c), k.name, c.generated);
  }

  lemma NamespacePassAchieves(w: World, b: State, s: State, k: Key, c: Choice)
    requires Settled(w, s) && Honest(w, s, Pass(k, c)) && k.NsKey? && Needed(w, k)
    requires HoldsRight(w, b, s) && k in w.g && Typed(k, w.g[k].spec)
    requires !PcOf(s, k).Idle? && NextPc(w.cfg, s, k, PcOf(s, k), c).Idle?
    ensures Achieved(w, b, PassStep(w.cfg, s, k, c), k)
  {
    hide Inv, AtRest, PcFits, Needed, Honest, PassStep, NextPc, CreateNamespace, Further, HoldsRight;
    SettledAt(w, s, k);
    NamespacePassEnds(w, s, k, c);
    StepSettled(w, s, Pass(k, c));
    match PcOf(s, k)
    case NsKeep(_) => KeptNamespace(w, s, PassStep(w.cfg, s, k, c), k);
    case NsCreate(_) => CreatedNamespace(w, s, k, c);
    case NsFin(_) =>
      FinalizerAdded(w, s, k, c);
      NoFinBefore(w, b, s, k);
  }

  /** An unwanted object is let go of, unless it is held and its namespace has no target namespace. */
  ghost predicate LetGo(w: World, b: State, s: State, k: Key)
    requires k.ObjKey?
  {
    HasFin(s, k) ==> !HasNamespace(b, k.ns) && k.kind != Volume
  }

  /** The calls with which a pass on an unwanted object ends. */
  lemma UnwantedPassEnds(w: World, s: State, k: Key, c: Choice)
    requires Calm(w, s) && PcSettled(w, s, k) && Honest(w, s, Pass(k, c)) && IsUnwanted(w, k)
    requires !PcOf(s, k).Idle? && NextPc(w.cfg, s, k, PcOf(s, k), c).Idle?
    ensures var pc := PcOf(s, k);
            || (pc.Got? && !pc.o.fin) || pc.DelFin?
            || (pc.DelList? && !HasNamespace(s, k.ns) && k.kind != Volume)
  {
    hide Inv, Wanted, ListSingle, RestingTarget, FoundSound, Mapped, TargetLookup, ReadTarget, LookupOrder;
    CachedSpec(w, s, k);
    assert NsKey(k.ns) in Graph(s);
    assert !PcOf(s, k).o.deleting;
    if HasNamespace(s, k.ns) {
      var t :| IsNamespaceFor(s, k.ns, t);
      ResolveExact(w, s, k.ns, t);
    } else {
      ResolveMissing(w, s, k.ns);
    }
    KindOfPc(w, s, k);
    if PcOf(s, k).DelIssue? {
      UnwantedHasNoTarget(w, s, k);
    }
  }

  lemma UnwantedPassAchieves(w: World, b: State, s: State, k: Key, c: Choice)
    requires Calm(w, s) && PcSettled(w, s, k) && Honest(w, s, Pass(k, c)) && IsUnwanted(w, k) && Further(b, s)
    requires !PcOf(s, k).Idle? && NextPc(w.cfg, s, k, PcOf(s, k), c).Idle?
    ensures LetGo(w, b, PassStep(w.cfg, s, k, c), k)
  {
    hide Inv, AtRest, Wanted, NextPc, PassStep, RemoveFinalizer, Further, Honest, ObjectPcFits;
    UnwantedPassEnds(w, s, k, c);
    SettledIsFresh(w, s, k);
    HonestStep(w, s, k, c);
    CachedSpec(w, s, k);
    if HasNamespace(b, k.ns) {
      NamespaceOfFurther(b, s, k.ns);
    }
    if PcOf(s, k).DelFin? {
      RemoveFinalizerOnly(w, s, k);
    }
  }
}
