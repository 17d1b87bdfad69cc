/**
  The broker on a frozen source cluster: which objects it needs, what its target lookups answer,
  and what one call of a pass does, with passes on all keys under way at the same time.  No call
  leaves the settled states, and none takes anything back.
 */
module Frozen {
  import opened Wrappers
  import opened Objects
  import opened Sync
  import opened Usage
  import opened Protocol
  import opened ProtocolInvariant

  // ---------- The frozen source graph ----------

  function Graph(s: State): Store {
    map k | k in s.views && Cached(s, k).Some? :: Record(Cached(s, k).value.uid, Cached(s, k).value.spec)
  }

  /** What stays as it is: how the broker is set up, the source graph, and which names keep a target namespace. */
  datatype World = World(cfg: Config, g: Store, kept: set<string>)

  /** The names whose objects can be synced: in use, or with a target namespace that is there to stay. */
  ghost predicate Mapped(w: World, name: string) {
    NamespaceUsed(w.g, w.cfg.pool, name) || name in w.kept
  }

  ghost predicate IsWanted(w: World, k: Key) {
    k in w.g && Typed(k, w.g[k].spec) && Wanted(w.g, w.cfg.pool, k)
  }

  /** An object that its passes delete the target of. */
  ghost predicate IsUnwanted(w: World, k: Key) {
    k.ObjKey? && k.kind != Machine && k in w.g && Typed(k, w.g[k].spec) && !Wanted(w.g, w.cfg.pool, k)
  }

  /** A machine outside the pool: its passes leave it alone. */
  ghost predicate IsSkipped(w: World, k: Key) {
    k.ObjKey? && k.kind == Machine && k in w.g && Typed(k, w.g[k].spec) && !Wanted(w.g, w.cfg.pool, k)
  }

  /** An object the broker has to sync: wanted, and in a namespace that is mapped. */
  ghost predicate Needed(w: World, k: Key) {
    && k in w.g && Typed(k, w.g[k].spec)
    && match k
       case NsKey(name) => Mapped(w, name)
       case ObjKey(_, ns, _) =>
         IsWanted(w, k) && Mapped(w, ns) && NsKey(ns) in w.g && Typed(NsKey(ns), w.g[NsKey(ns)].spec)
  }

  lemma NeededIn(w: World, k: Key)
    requires Needed(w, k)
    ensures k in w.g && Typed(k, w.g[k].spec)
  {
  }

  ghost predicate BoundBack(k: Key, uid: Uid, d: Key, spec: Spec)
    requires k.ObjKey? && d.ObjKey? && Typed(d, spec)
  {
    match d.kind
    case VirtualIP => spec.vip.target.Some? && spec.vip.target.value.name == k.name
    case NetworkInterface => spec.nic.machine == Some(UidRef(k.name, uid))
    case Volume => spec.volume.claim == Some(UidRef(k.name, uid))
    case _ => true
  }

  /** What the API server ensures of a snapshot: typed objects, existing namespaces, unique list entries. */
  ghost predicate Closed(g: Store) {
    && WellTyped(g)
    && (forall k :: k in g && k.ObjKey? ==> NsKey(k.ns) in g)
    && (forall k :: k in g ==> UniqueLists(g[k].spec))
  }

  /**
    Blocking references of needed objects lead to existing objects that are bound back, specs are
    well formed and source statuses are ready.
   */
  ghost predicate WellBound(w: World) {
    && Closed(w.g)
    && (forall k: Key :: k.ObjKey? && Needed(w, k) ==> !Fails(w.g[k].spec) && StatusReady(k, w.g[k].spec))
    && (forall k: Key, d: Key :: k.ObjKey? && Needed(w, k) && d in BlockingPeers(k, w.g[k].spec) ==>
          d in w.g && BoundBack(k, w.g[k].uid, d, w.g[d].spec))
  }

  function KindRank(kind: Kind): nat {
    match kind
    case Secret => 0
    case Network => 0
    case VirtualIP => 0
    case NetworkInterface => 1
    case Volume => 1
    case Machine => 2
  }

  /** Blocking references lead down the ranks, so never to a machine. */
  lemma BlockingPeersRank(k: Key, spec: Spec, d: Key)
    requires k.ObjKey? && Typed(k, spec) && d in BlockingPeers(k, spec)
    ensures d.ObjKey? && d.ns == k.ns && KindRank(d.kind) < KindRank(k.kind)
  {
  }

  lemma MachinePeersListed(g: Store, k: Key, d: Key)
    requires k.ObjKey? && k.kind == Machine && k in g && Typed(k, g[k].spec)
    requires d in BlockingPeers(k, g[k].spec)
    ensures d.ObjKey? && d.ns == k.ns && d.kind in {Secret, Volume, NetworkInterface}
    ensures d.kind == Secret ==> d.name in MachineSecretNames(g[k].spec.machine)
    ensures d.kind == NetworkInterface ==> MachineHasNic(k.name, g[k].spec.machine, d.name)
    ensures d.kind == Volume ==> MachineHasVolume(k.name, g[k].spec.machine, d.name)
  {
  }

  lemma NicPeersWanted(g: Store, pool: string, k: Key, d: Key)
    requires k.ObjKey? && Stores(g, NetworkInterface, k.ns, k) && NicUsed(g, pool, k.ns, k.name, g[k].spec.nic)
    requires d in BlockingPeers(k, g[k].spec) && d in g && Typed(d, g[d].spec) && BoundBack(k, g[k].uid, d, g[d].spec)
    ensures Wanted(g, pool, d)
  {
    hide RefersToPoolMachine;
  }

  lemma MachinePeersWanted(g: Store, pool: string, k: Key, d: Key)
    requires k.ObjKey? && Stores(g, Machine, k.ns, k) && InPool(g[k].spec.machine, pool)
    requires d in BlockingPeers(k, g[k].spec) && d in g && Typed(d, g[d].spec) && BoundBack(k, g[k].uid, d, g[d].spec)
    ensures Wanted(g, pool, d)
  {
    hide BlockingPeers;
    MachinePeersListed(g, k, d);
    if d.kind == Secret {
      UsersReferSecrets(g, pool, k, d.name);
    }
  }

  lemma PeersWanted(g: Store, pool: string, k: Key, d: Key)
    requires k.ObjKey? && k in g && Typed(k, g[k].spec) && Wanted(g, pool, k)
    requires d in BlockingPeers(k, g[k].spec) && d in g && Typed(d, g[d].spec) && BoundBack(k, g[k].uid, d, g[d].spec)
    ensures Wanted(g, pool, d)
  {
    hide InPool, NicUsed, VolumeUsed, SecretReferenced, MachineHasNic, MachineHasVolume, BoundBack;
    match k.kind
    case NetworkInterface => NicPeersWanted(g, pool, k, d);
    case Volume => UsersReferSecrets(g, pool, k, d.name);
    case Machine => MachinePeersWanted(g, pool, k, d);
    case _ =>
  }

  /** In a well-bound graph they lead to objects the broker does not skip. */
  lemma BlockingPeersNeeded(w: World, k: Key, d: Key)
    requires WellBound(w) && k.ObjKey? && Needed(w, k) && d in BlockingPeers(k, w.g[k].spec)
    ensures d.ObjKey? && d.ns == k.ns && KindRank(d.kind) < KindRank(k.kind)
    ensures Needed(w, d)
  {
    hide Wanted, NamespaceUsed, BlockingPeers;
    BlockingPeersRank(k, w.g[k].spec, d);
    PeersWanted(w.g, w.cfg.pool, k, d);
  }

  /** Best effort references of needed objects lead to needed objects: this closes the cycles. */
  lemma BestEffortPeersNeeded(w: World, k: Key, d: Key)
    requires Closed(w.g) && k.ObjKey? && Needed(w, k) && d in BestEffortPeers(w.cfg, k, w.g[k].spec)
    ensures d.ObjKey? && d.ns == k.ns && Needed(w, d)
  {
  }

  // ---------- Target lookups ----------

  /** A target cache that does not lag behind. */
  const UP_TO_DATE := Choice(false, false, map[], 0, 0)

  ghost function LookupNow(cfg: Config, s: State, d: Key): Answer {
    TargetLookup(cfg, s, UP_TO_DATE, d)
  }

  /** The keys whose targets a round on `k` looks up. */
  ghost function Peers(cfg: Config, k: Key, spec: Spec): set<Key> {
    set d | d in LookupOrder(cfg, k, spec)
  }

  /** What the lookups of one round answer if they are all made in the same state. */
  ghost function FoundNow(cfg: Config, s: State, peers: set<Key>): Found {
    map d | d in peers && LookupNow(cfg, s, d).Hit? :: LookupNow(cfg, s, d).ref
  }

  lemma FoundNowPreservesNames(cfg: Config, s: State, peers: set<Key>)
    ensures NamePreserving(FoundNow(cfg, s, peers))
  {
  }

  // ---------- Calm clusters ----------

  ghost predicate HasFin(s: State, k: Key) {
    Cached(s, k).Some? && Cached(s, k).value.fin
  }

  ghost predicate IsNamespaceFor(s: State, name: string, t: TargetNs) {
    t in s.namespaces && s.namespaces[t].ownerName == name
  }

  ghost predicate HasNamespace(s: State, name: string) {
    exists t :: IsNamespaceFor(s, name, t)
  }

  ghost predicate HasTarget(s: State, k: Key)
    requires k.ObjKey?
  {
    exists t :: IsNamespaceFor(s, k.ns, t) && TargetKeyOf(k, t) in s.targets
  }

  ghost predicate RestingTarget(w: World, s: State, tk: TargetKey)
    requires tk in s.targets
  {
    && s.targets[tk].owner.Some? && !s.targets[tk].deleting
    && tk.ns in s.namespaces && (Needed(w, SourceKey(s, tk)) || IsSkipped(w, SourceKey(s, tk)))
  }

  /**
    Nothing is being deleted, caches are up to date, the names that are to keep their target namespace
    have one, and every target is the broker's own, for an object that it needs or leaves alone.
   */
  ghost predicate AtRest(w: World, s: State) {
    && Graph(s) == w.g && Closed(w.g)
    && (forall k :: k in s.views ==> |s.views[k]| == 1 && (s.views[k][0].Some? ==> !s.views[k][0].value.deleting))
    && (forall t :: t in s.namespaces ==> !s.namespaces[t].deleting && Mapped(w, s.namespaces[t].ownerName))
    && (forall name :: name in w.kept ==> HasNamespace(s, name))
    && (forall tk :: tk in s.targets ==> RestingTarget(w, s, tk))
  }

  ghost predicate Calm(w: World, s: State) {
    Inv(s) && AtRest(w, s)
  }

  /** The target namespace of a name is the one its lookup finds. */
  lemma ResolveExact(w: World, s: State, name: string, t: TargetNs)
    requires Calm(w, s)
    ensures IsNamespaceFor(s, name, t) <==>
            Cached(s, NsKey(name)).Some? && ListSingle(s, Cached(s, NsKey(name)).value.uid) == One(t)
  {
    hide Closed, Needed, NamespaceUsed;
    if IsNamespaceFor(s, name, t) {
      assert NamespaceOk(s, t);
      ListSingleExact(s, s.namespaces[t].sourceUid);
    }
    if Cached(s, NsKey(name)).Some? && ListSingle(s, Cached(s, NsKey(name)).value.uid) == One(t) {
      ListSingleExact(s, Cached(s, NsKey(name)).value.uid);
      ReadRelies(s, NsKey(name));
      NamespaceOfUid(s, t, name);
    }
  }

  lemma ResolveMissing(w: World, s: State, name: string)
    requires Calm(w, s) && !HasNamespace(s, name) && Cached(s, NsKey(name)).Some?
    ensures ListSingle(s, Cached(s, NsKey(name)).value.uid) == NotFound
  {
    hide Inv, Closed, Needed, NamespaceUsed, ListSingle;
    ListSingleExact(s, Cached(s, NsKey(name)).value.uid);
    match ListSingle(s, Cached(s, NsKey(name)).value.uid)
    case One(t) =>
      ResolveExact(w, s, name, t);
    case _ =>
  }

  lemma NamespaceUnique(w: World, s: State, name: string, t: TargetNs, t': TargetNs)
    requires Calm(w, s) && IsNamespaceFor(s, name, t) && IsNamespaceFor(s, name, t')
    ensures t == t'
  {
    hide Inv, Closed, Needed, NamespaceUsed;
    NamespaceOfName(s, t, t');
  }

  /** In a calm state a target belongs to the source object it stands for, which holds the finalizer. */
  lemma TargetOwned(w: World, s: State, k: Key, t: TargetNs)
    requires Calm(w, s) && k.ObjKey? && IsNamespaceFor(s, k.ns, t) && TargetKeyOf(k, t) in s.targets
    ensures HasFin(s, k) && s.targets[TargetKeyOf(k, t)].owner == Some(Cached(s, k).value.uid)
    ensures TargetTyped(k.kind, s.targets[TargetKeyOf(k, t)].spec)
  {
    hide Closed, Needed, NamespaceUsed;
    var tk := TargetKeyOf(k, t);
    TargetKnown(s, tk);
    assert TargetOk(s, tk) && SourceKey(s, tk) == k;
    assert Held(ViewOf(s, k), s.targets[tk].owner.value);
  }

  ghost predicate LookupIs(cfg: Config, s: State, d: Key, x: Option<TargetObject>)
    requires d.ObjKey?
  {
    LookupNow(cfg, s, d) == if x.None? then Missing else Hit(UidRef(d.name, x.value.uid))
  }

  /** A key whose lookup cannot fail: any but a machine outside the pool. */
  ghost predicate Lookable(w: World, d: Key) {
    && d.ObjKey? && NsKey(d.ns) in w.g
    && (d in w.g && d.kind == Machine ==> w.g[d].spec.MachineObjSpec? && InPool(w.g[d].spec.machine, w.cfg.pool))
  }

  lemma ReadableResolved(w: World, s: State, d: Key, t: TargetNs)
    requires Graph(s) == w.g && d.ObjKey? && Lookable(w, d) && Cached(s, d).Some?
    requires ListSingle(s, Cached(s, NsKey(d.ns)).value.uid) == One(t)
    ensures LookupIs(w.cfg, s, d, TargetAt(s, d, t))
  {
    assert d in Graph(s);
  }

  lemma LookupResolved(w: World, s: State, d: Key, t: TargetNs)
    requires Calm(w, s) && Lookable(w, d) && IsNamespaceFor(s, d.ns, t)
    ensures LookupIs(w.cfg, s, d, TargetAt(s, d, t))
  {
    hide Inv, Closed, Needed;
    ResolveExact(w, s, d.ns, t);
    if TargetAt(s, d, t).Some? {
      TargetOwned(w, s, d, t);
    }
    if Cached(s, d).Some? {
      ReadableResolved(w, s, d, t);
    }
  }

  lemma LookupUnresolved(w: World, s: State, d: Key)
    requires Calm(w, s) && Lookable(w, d) && !HasNamespace(s, d.ns)
    ensures LookupIs(w.cfg, s, d, None)
  {
    hide Inv, Closed, Needed;
    assert Cached(s, NsKey(d.ns)).Some?;
    ResolveMissing(w, s, d.ns);
  }

  /** The lookup of a peer succeeds exactly if it has a target, and never fails. */
  lemma LookupExact(w: World, s: State, d: Key)
    requires Calm(w, s) && Lookable(w, d)
    ensures LookupNow(w.cfg, s, d).Hit? <==> HasTarget(s, d)
    ensures LookupNow(w.cfg, s, d).Hit? ==> LookupNow(w.cfg, s, d).ref.name == d.name
    ensures !LookupNow(w.cfg, s, d).Error?
  {
    hide Calm, LookupNow;
    if HasNamespace(s, d.ns) {
      var t :| IsNamespaceFor(s, d.ns, t);
      LookupResolved(w, s, d, t);
      forall t' | IsNamespaceFor(s, d.ns, t') {
        NamespaceUnique(w, s, d.ns, t, t');
      }
    } else {
      LookupUnresolved(w, s, d);
    }
  }

  lemma NamespacesLookUpNothing(cfg: Config, k: Key, spec: Spec)
    ensures k.NsKey? ==> Peers(cfg, k, spec) == {}
  {
  }

  lemma NeededMachine(w: World, d: Key)
    requires Needed(w, d)
    ensures d.ObjKey? && d.kind == Machine ==> w.g[d].spec.MachineObjSpec? && InPool(w.g[d].spec.machine, w.cfg.pool)
  {
  }

  lemma PeersLookable(w: World, k: Key, d: Key)
    requires Closed(w.g) && Needed(w, k) && d in Peers(w.cfg, k, w.g[k].spec)
    ensures k.ObjKey? && d.ObjKey? && d.ns == k.ns && Lookable(w, d)
  {
    hide LookupOrder, BlockingPeers, BestEffortPeers, Wanted, NamespaceUsed;
    NeededIn(w, k);
    NamespacesLookUpNothing(w.cfg, k, w.g[k].spec);
    LookupOrderMembers(w.cfg, k, w.g[k].spec, d);
    if d in BlockingPeers(k, w.g[k].spec) {
      BlockingPeersRank(k, w.g[k].spec, d);
    } else {
      BestEffortPeersNeeded(w, k, d);
      NeededMachine(w, d);
    }
  }

  /** In particular no pass on a needed object ever fails on a machine outside the pool. */
  lemma NoLookupFails(w: World, s: State, k: Key, d: Key)
    requires Calm(w, s) && Needed(w, k) && d in Peers(w.cfg, k, w.g[k].spec)
    ensures !LookupNow(w.cfg, s, d).Error?
  {
    hide Inv, Needed, Lookable, LookupNow, Peers;
    PeersLookable(w, k, d);
    LookupExact(w, s, d);
  }

  // ---------- Passes under way ----------

  /** The answers of a round so far are those of the present, for keys of the round. */
  ghost predicate FoundSound(w: World, s: State, k: Key, rest: seq<Key>, found: Found)
    requires k in w.g
  {
    && (forall d :: d in rest ==> d in Peers(w.cfg, k, w.g[k].spec))
    && (forall d :: d in found ==> d in Peers(w.cfg, k, w.g[k].spec) && LookupNow(w.cfg, s, d) == Hit(found[d]))
  }

  /** The target namespace of a needed object that holds its finalizer. */
  ghost predicate Reconciling(w: World, s: State, k: Key, t: TargetNs) {
    k.ObjKey? && Needed(w, k) && IsNamespaceFor(s, k.ns, t)
  }

  ghost predicate IsCachedUid(s: State, k: Key, uid: Uid) {
    Cached(s, k).Some? && Cached(s, k).value.uid == uid
  }

  /** A pass under way on an object knows nothing that is not so any more. */
  ghost predicate ObjectPcFits(w: World, s: State, k: Key, pc: Pc)
    requires k.ObjKey?
  {
    match pc
    case Idle => true
    case Got(_) => true
    case DelNs(o) => o.fin && IsUnwanted(w, k)
    case DelList(o, nsUid) => o.fin && IsUnwanted(w, k) && IsCachedUid(s, NsKey(k.ns), nsUid)
    case DelIssue(o, t) => o.fin && IsUnwanted(w, k) && IsNamespaceFor(s, k.ns, t)
    case DelFin(o) => o.fin && IsUnwanted(w, k) && (HasNamespace(s, k.ns) || k.kind == Volume)
    case VolumeFin(_) => Needed(w, k)
    case RecNs(_) => IsWanted(w, k)
    case RecList(_, nsUid) => IsWanted(w, k) && IsCachedUid(s, NsKey(k.ns), nsUid)
    case RecFin(_, t) => Reconciling(w, s, k, t)
    case Lookup(o, t, rest, found) => o.fin && Reconciling(w, s, k, t) && FoundSound(w, s, k, rest, found)
    case Fetch(o, t, found) => o.fin && Reconciling(w, s, k, t) && FoundSound(w, s, k, [], found)
    case Write(o, t, found, current) =>
      && o.fin && Reconciling(w, s, k, t) && FoundSound(w, s, k, [], found)
      && current == TargetAt(s, k, t)
    case _ => false
  }

  /** The same for a namespace. */
  ghost predicate NamespacePcFits(w: World, s: State, k: Key, pc: Pc)
    requires k.NsKey?
  {
    match pc
    case Idle => true
    case Got(_) => true
    case NsList(_) => true
    case NsKeep(o) => o.fin && HasNamespace(s, k.name)
    case NsRef(_) => !HasNamespace(s, k.name)
    case NsFin(_) => !HasNamespace(s, k.name) && IsWanted(w, k)
    case NsCreate(o) => o.fin && !HasNamespace(s, k.name) && IsWanted(w, k)
    case _ => false
  }

  ghost predicate PcFits(w: World, s: State, k: Key, pc: Pc) {
    && (!pc.Idle? ==> Cached(s, k) == Some(pc.o))
    && if k.NsKey? then NamespacePcFits(w, s, k, pc) else ObjectPcFits(w, s, k, pc)
  }

  ghost predicate PcSettled(w: World, s: State, k: Key) {
    PcFits(w, s, k, PcOf(s, k))
  }

  /** Calm clusters, and passes that go by what they hold. */
  ghost predicate Settled(w: World, s: State) {
    Calm(w, s) && forall k :: PcSettled(w, s, k)
  }

  lemma SettledAt(w: World, s: State, k: Key)
    requires Settled(w, s)
    ensures Calm(w, s) && PcSettled(w, s, k)
  {
  }

  /**
    A call whose choices are the answers of the clusters: queries answer what holds of the frozen graph,
    the target cache does not lag behind, generated names are new.  A pass may also fail at any time.
   */
  ghost predicate Honest(w: World, s: State, a: Action) {
    match a
    case Pass(k, c) =>
      && c.generated !in s.issued && c.stale == map[]
      && (k in w.g && Typed(k, w.g[k].spec) ==> (c.wanted <==> Wanted(w.g, w.cfg.pool, k)))
    case Fail(_) => true
    case _ => false
  }

  // ---------- What a call changes ----------

  /** What is on the target side stays; targets are added, and keep their uid. */
  ghost predicate Further(s: State, s': State) {
    && (forall t :: t in s.namespaces ==> t in s'.namespaces && s'.namespaces[t] == s.namespaces[t])
    && (forall tk :: tk in s.targets ==> tk in s'.targets && s'.targets[tk].uid == s.targets[tk].uid)
  }

  /** What is needed keeps its finalizer, and what is unwanted gains none. */
  ghost predicate HoldsRight(w: World, s: State, s': State) {
    && (forall k :: Needed(w, k) && HasFin(s, k) ==> HasFin(s', k))
    && (forall k :: IsUnwanted(w, k) && HasFin(s', k) ==> HasFin(s, k))
  }

  ghost predicate SameButFin(o: Option<SourceObject>, o': Option<SourceObject>) {
    o == o' || (o.Some? && o'.Some? && o'.value == o.value.(fin := o'.value.fin))
  }

  /** A call of the pass on `k` leaves everybody else's objects and passes alone. */
  ghost predicate OnlyFor(s: State, s': State, k: Key) {
    && (forall j :: j != k ==> PcOf(s', j) == PcOf(s, j) && Cached(s', j) == Cached(s, j))
    && SameButFin(Cached(s, k), Cached(s', k))
    && (forall t :: t in s'.namespaces && t !in s.namespaces ==> NsKey(s'.namespaces[t].ownerName) == k)
    && (forall j: Key, t :: j.ObjKey? && j != k && IsNamespaceFor(s', j.ns, t) ==> TargetAt(s', j, t) == TargetAt(s, j, t))
  }

  /**
    What every pass that has begun on the frozen sources goes by: the object as it is, but for its
    finalizer that only the pass itself changes, and whether it is wanted.
   */
  ghost predicate FreshAt(w: World, s: State, k: Key, pc: Pc) {
    && (!pc.Idle? ==> Cached(s, k) == Some(pc.o))
    && match pc
       case Idle => true
       case Got(_) => true
       case NsList(_) => k.NsKey?
       case NsKeep(_) => k.NsKey?
       case NsRef(_) => k.NsKey?
       case NsFin(_) => k.NsKey? && IsWanted(w, k)
       case NsCreate(_) => k.NsKey? && IsWanted(w, k)
       case DelNs(_) => IsUnwanted(w, k)
       case DelList(_, _) => IsUnwanted(w, k)
       case DelIssue(_, _) => IsUnwanted(w, k)
       case DelFin(_) => IsUnwanted(w, k)
       case NsDelList(_) => false
       case NsDelIssue(_, _) => false
       case _ => k.ObjKey? && IsWanted(w, k)
  }

  ghost predicate PcFresh(w: World, s: State, k: Key) {
    FreshAt(w, s, k, PcOf(s, k))
  }

  lemma SettledIsFresh(w: World, s: State, k: Key)
    requires PcSettled(w, s, k)
    ensures PcFresh(w, s, k)
  {
    hide Wanted, FoundSound;
  }

  /** What a call of such a pass does in a calm state. */
  ghost function HonestEffect(cfg: Config, s: State, k: Key, c: Choice): State {
    match PcOf(s, k)
    case Write(o, t, found, current) => WriteTarget(cfg, s, k, o, t, found, current, c.uid)
    case NsCreate(o) => CreateNamespace(s, k, o, c.generated)
    case DelFin(_) => RemoveFinalizer(s, k)
    case VolumeFin(o) => if o.fin then s else AddFinalizer(s, k)
    case RecFin(o, _) => if o.fin then s else AddFinalizer(s, k)
    case NsFin(o) => if o.fin then s else AddFinalizer(s, k)
    case NsKeep(o) => if o.fin then s else AddFinalizer(s, k)
    case _ => s
  }

  /** There is nothing left to delete of an unwanted object. */
  lemma UnwantedHasNoTarget(w: World, s: State, k: Key)
    requires Calm(w, s) && PcOf(s, k).DelIssue? && IsUnwanted(w, k)
    ensures TargetKeyOf(k, PcOf(s, k).t) !in s.targets
  {
    hide Wanted, Held, Doomed, PastOk, FoundOk, Mapped, Closed, Graph;
    PcsAreOk(s, k);
    var tk := TargetKeyOf(k, PcOf(s, k).t);
    if tk in s.targets {
      assert RestingTarget(w, s, tk);
      NamespaceIssued(s, tk.ns);
    }
  }

  lemma HonestStep(w: World, s: State, k: Key, c: Choice)
    requires Calm(w, s) && PcFresh(w, s, k)
    ensures PassStep(w.cfg, s, k, c) == Goto(HonestEffect(w.cfg, s, k, c), k, NextPc(w.cfg, s, k, PcOf(s, k), c))
  {
    hide Calm, WriteTarget, CreateNamespace, AddFinalizer, RemoveFinalizer, NextPc, Goto, IsWanted, IsUnwanted;
    if PcOf(s, k).DelIssue? {
      UnwantedHasNoTarget(w, s, k);
    }
  }

  lemma AddFinalizerOnly(w: World, s: State, k: Key)
    requires AtRest(w, s) && k in w.g
    ensures var s' := AddFinalizer(s, k);
            && Further(s, s') && OnlyFor(s, s', k) && HasFin(s', k)
            && s' == s.(views := s.views[k := [Some(Cached(s, k).value.(fin := true))]])
  {
    hide Needed, Closed, Mapped, RestingTarget;
    assert Cached(s, k).Some? && Live(s, k) == Cached(s, k) && !Live(s, k).value.deleting;
  }

  lemma RemoveFinalizerOnly(w: World, s: State, k: Key)
    requires AtRest(w, s) && k in w.g
    ensures var s' := RemoveFinalizer(s, k);
            && Further(s, s') && OnlyFor(s, s', k) && !HasFin(s', k)
            && s' == s.(views := s.views[k := [Some(Cached(s, k).value.(fin := false))]])
  {
    hide Needed, Closed, Mapped, RestingTarget;
    assert Cached(s, k).Some? && Live(s, k) == Cached(s, k);
  }

  lemma TargetOfFurther(s: State, s': State, k: Key)
    requires Further(s, s') && k.ObjKey? && HasTarget(s, k)
    ensures HasTarget(s', k)
  {
    var t :| IsNamespaceFor(s, k.ns, t) && TargetKeyOf(k, t) in s.targets;
    assert IsNamespaceFor(s', k.ns, t);
  }

  lemma NamespaceOfFurther(s: State, s': State, name: string)
    requires Further(s, s') && HasNamespace(s, name)
    ensures HasNamespace(s', name)
  {
    var t :| IsNamespaceFor(s, name, t);
    assert IsNamespaceFor(s', name, t);
  }

  lemma WantedMappedNeeded(w: World, k: Key)
    requires k.ObjKey? && IsWanted(w, k) && Mapped(w, k.ns) && Closed(w.g)
    ensures Needed(w, k)
  {
    hide Wanted, Mapped;
  }

  lemma KeptStays(w: World, s: State, s': State)
    requires (forall name :: name in w.kept ==> HasNamespace(s, name)) && Further(s, s')
    ensures forall name :: name in w.kept ==> HasNamespace(s', name)
  {
    hide Further;
    forall name | name in w.kept
      ensures HasNamespace(s', name)
    {
      NamespaceOfFurther(s, s', name);
    }
  }

  /** Only the finalizer of a source object changes. */
  lemma FinalizerAtRest(w: World, s: State, k: Key, fin: bool)
    requires AtRest(w, s) && k in w.g && Cached(s, k).Some?
    ensures AtRest(w, s.(views := s.views[k := [Some(Cached(s, k).value.(fin := fin))]]))
  {
    hide Needed, Closed, Mapped;
    var s' := s.(views := s.views[k := [Some(Cached(s, k).value.(fin := fin))]]);
    assert Graph(s') == Graph(s);
    assert Further(s, s');
    KeptStays(w, s, s');
    forall tk | tk in s'.targets
      ensures RestingTarget(w, s', tk)
    {
      assert RestingTarget(w, s, tk);
    }
  }

  lemma GeneratedIsNew(s: State, generated: TargetNs)
    requires Inv(s) && generated !in s.issued
    ensures generated !in s.namespaces && forall tk :: tk in s.targets ==> tk.ns != generated
  {
    forall t | t in s.namespaces
      ensures t != generated
    {
      assert NamespaceOk(s, t);
    }
    forall tk | tk in s.targets
      ensures tk.ns != generated
    {
      assert TargetOk(s, tk);
    }
  }

  lemma CreateNamespaceOnly(s: State, k: Key, o: SourceObject, generated: TargetNs)
    requires Inv(s) && k.NsKey? && generated !in s.issued
    ensures generated !in s.namespaces
    ensures var s' := CreateNamespace(s, k, o, generated);
            Further(s, s') && OnlyFor(s, s', k) && IsNamespaceFor(s', k.name, generated)
  {
    GeneratedIsNew(s, generated);
    hide Inv;
    var s' := CreateNamespace(s, k, o, generated);
    assert forall j :: Cached(s', j) == Cached(s, j) && PcOf(s', j) == PcOf(s, j);
    assert forall j, t :: TargetAt(s', j, t) == TargetAt(s, j, t);
  }

  lemma CreateNamespaceAtRest(w: World, s: State, k: Key, o: SourceObject, generated: TargetNs)
    requires Calm(w, s) && k.NsKey? && generated !in s.issued && NamespaceUsed(w.g, w.cfg.pool, k.name)
    ensures AtRest(w, CreateNamespace(s, k, o, generated))
  {
    hide Inv, Needed, Closed, NamespaceUsed, OnlyFor;
    var s' := CreateNamespace(s, k, o, generated);
    CreateNamespaceOnly(s, k, o, generated);
    assert Graph(s') == Graph(s);
    KeptStays(w, s, s');
    forall tk | tk in s'.targets
      ensures RestingTarget(w, s', tk)
    {
      assert RestingTarget(w, s, tk);
    }
  }

  lemma WriteTargetOnly(w: World, s: State, k: Key, o: SourceObject, t: TargetNs, found: Found,
                        current: Option<TargetObject>, uid: Uid)
    requires k.ObjKey? && (t in s.namespaces ==> s.namespaces[t].ownerName == k.ns)
    ensures var s' := WriteTarget(w.cfg, s, k, o, t, found, current, uid);
            Further(s, s') && OnlyFor(s, s', k)
  {
    hide WriteTarget;
    var s' := WriteTarget(w.cfg, s, k, o, t, found, current, uid);
    forall j: Key, t' | j.ObjKey? && j != k && IsNamespaceFor(s', j.ns, t')
      ensures TargetAt(s', j, t') == TargetAt(s, j, t')
    {
      assert TargetKeyOf(j, t') != TargetKeyOf(k, t);
    }
  }

  lemma WrittenTarget(cfg: Config, s: State, k: Key, o: SourceObject, t: TargetNs, found: Found,
                      current: Option<TargetObject>, uid: Uid, tk: TargetKey)
    requires tk in WriteTarget(cfg, s, k, o, t, found, current, uid).targets && tk !in s.targets
    ensures k.ObjKey? && tk == TargetKeyOf(k, t) && t in s.namespaces
    ensures !WriteTarget(cfg, s, k, o, t, found, current, uid).targets[tk].deleting
  {
    hide Apply, Partial, MergePatch, Fails;
  }

  lemma WriteTargetAtRest(w: World, s: State, k: Key, o: SourceObject, t: TargetNs, found: Found,
                          current: Option<TargetObject>, uid: Uid)
    requires AtRest(w, s) && k.ObjKey? && IsWanted(w, k) && (t in s.namespaces ==> s.namespaces[t].ownerName == k.ns)
    ensures AtRest(w, WriteTarget(w.cfg, s, k, o, t, found, current, uid))
  {
    hide Closed, Mapped, Wanted, WriteTarget, OnlyFor;
    var s' := WriteTarget(w.cfg, s, k, o, t, found, current, uid);
    WriteTargetOnly(w, s, k, o, t, found, current, uid);
    assert Graph(s') == Graph(s);
    KeptStays(w, s, s');
    forall tk | tk in s'.targets
      ensures RestingTarget(w, s', tk)
    {
      if tk in s.targets {
        assert RestingTarget(w, s, tk);
      } else {
        WrittenTarget(w.cfg, s, k, o, t, found, current, uid, tk);
        WantedMappedNeeded(w, k);
      }
    }
  }

  /** Moving a program counter changes nothing in the clusters. */
  lemma GotoAtRest(w: World, s: State, k: Key, pc: Pc)
    requires AtRest(w, s)
    ensures AtRest(w, Goto(s, k, pc))
  {
    hide Needed, Closed, Mapped;
    var s' := Goto(s, k, pc);
    assert Graph(s') == Graph(s);
    assert Further(s, s');
    KeptStays(w, s, s');
    forall tk | tk in s'.targets
      ensures RestingTarget(w, s', tk)
    {
      assert RestingTarget(w, s, tk);
    }
  }

  lemma GotoOnly(w: World, s: State, x: State, k: Key, pc: Pc)
    requires Further(s, x) && OnlyFor(s, x, k) && HoldsRight(w, s, x)
    ensures Further(s, Goto(x, k, pc)) && OnlyFor(s, Goto(x, k, pc), k) && HoldsRight(w, s, Goto(x, k, pc))
  {
    hide Needed, IsUnwanted;
    var s' := Goto(x, k, pc);
    assert forall j :: Cached(s', j) == Cached(x, j) && HasFin(s', j) == HasFin(x, j);
    assert forall j: Key, t :: TargetAt(s', j, t) == TargetAt(x, j, t);
    assert forall n, t :: IsNamespaceFor(s', n, t) == IsNamespaceFor(x, n, t);
  }

  /** Adding the finalizer to an object that is wanted, or to a namespace. */
  lemma FinalizerCalm(w: World, s: State, k: Key)
    requires AtRest(w, s) && k in w.g && !IsUnwanted(w, k)
    ensures var s' := AddFinalizer(s, k);
            AtRest(w, s') && Further(s, s') && OnlyFor(s, s', k) && HoldsRight(w, s, s')
  {
    hide Needed, IsUnwanted, AddFinalizer, RestingTarget, Closed, Mapped;
    AddFinalizerOnly(w, s, k);
    assert k in Graph(s);
    FinalizerAtRest(w, s, k, true);
  }

  /** Taking it off an object that is not. */
  lemma ReleaseCalm(w: World, s: State, k: Key)
    requires AtRest(w, s) && k in w.g && IsUnwanted(w, k)
    ensures var s' := RemoveFinalizer(s, k);
            AtRest(w, s') && Further(s, s') && OnlyFor(s, s', k) && HoldsRight(w, s, s')
  {
    hide RemoveFinalizer, RestingTarget, Closed, Mapped, Wanted;
    RemoveFinalizerOnly(w, s, k);
    assert k in Graph(s);
    FinalizerAtRest(w, s, k, false);
  }

  lemma SameOnly(w: World, s: State, k: Key)
    ensures Further(s, s) && OnlyFor(s, s, k) && HoldsRight(w, s, s)
  {
    hide Needed, IsUnwanted;
  }

  lemma CachedSpec(w: World, s: State, k: Key)
    requires AtRest(w, s) && Cached(s, k).Some?
    ensures k in w.g && Cached(s, k).value.spec == w.g[k].spec && Typed(k, w.g[k].spec)
  {
    assert k in Graph(s);
  }

  lemma SameHolds(w: World, s: State, s': State)
    requires s'.views == s.views
    ensures HoldsRight(w, s, s')
  {
    hide Needed, IsUnwanted;
    assert forall k :: HasFin(s', k) == HasFin(s, k);
  }

  lemma WriteCalm(w: World, s: State, k: Key, uid: Uid)
    requires Calm(w, s) && PcOf(s, k).Write? && k.ObjKey? && IsWanted(w, k)
    ensures var Write(o, t, found, current) := PcOf(s, k);
            var s' := WriteTarget(w.cfg, s, k, o, t, found, current, uid);
            AtRest(w, s') && Further(s, s') && OnlyFor(s, s', k) && HoldsRight(w, s, s')
  {
    hide Inv, AtRest, IsWanted, WriteTarget, Further, OnlyFor, HoldsRight;
    var Write(o, t, found, current) := PcOf(s, k);
    WriterResolved(s, k);
    ResolvedName(s, k, t);
    WriteTargetOnly(w, s, k, o, t, found, current, uid);
    WriteTargetAtRest(w, s, k, o, t, found, current, uid);
    SameHolds(w, s, WriteTarget(w.cfg, s, k, o, t, found, current, uid));
  }

  lemma CreateCalm(w: World, s: State, k: Key, o: SourceObject, generated: TargetNs)
    requires Calm(w, s) && k.NsKey? && generated !in s.issued && IsWanted(w, k)
    ensures var s' := CreateNamespace(s, k, o, generated);
            AtRest(w, s') && Further(s, s') && OnlyFor(s, s', k) && HoldsRight(w, s, s')
  {
    hide Inv, AtRest, NamespaceUsed, Further, OnlyFor, HoldsRight;
    CreateNamespaceOnly(s, k, o, generated);
    CreateNamespaceAtRest(w, s, k, o, generated);
    SameHolds(w, s, CreateNamespace(s, k, o, generated));
  }

  lemma EffectCalm(w: World, s: State, k: Key, c: Choice)
    requires Calm(w, s) && PcFresh(w, s, k) && Honest(w, s, Pass(k, c))
    ensures var x := HonestEffect(w.cfg, s, k, c);
            AtRest(w, x) && Further(s, x) && OnlyFor(s, x, k) && HoldsRight(w, s, x)
  {
    hide Inv, AtRest, Wanted, WriteTarget, CreateNamespace, AddFinalizer, RemoveFinalizer, Further, OnlyFor,
      HoldsRight;
    SameOnly(w, s, k);
    var pc := PcOf(s, k);
    if !pc.Idle? {
      CachedSpec(w, s, k);
    }
    match pc
    case Write(_, _, _, _) => WriteCalm(w, s, k, c.uid);
    case NsCreate(o) => CreateCalm(w, s, k, o, c.generated);
    case DelFin(_) => ReleaseCalm(w, s, k);
    case VolumeFin(_) => FinalizerCalm(w, s, k);
    case RecFin(_, _) => FinalizerCalm(w, s, k);
    case NsFin(_) => FinalizerCalm(w, s, k);
    case NsKeep(_) => FinalizerCalm(w, s, k);
    case _ =>
  }

  lemma StepCalm(w: World, s: State, k: Key, c: Choice)
    requires Calm(w, s) && PcFresh(w, s, k) && Honest(w, s, Pass(k, c))
    ensures var s' := PassStep(w.cfg, s, k, c);
            Calm(w, s') && Further(s, s') && OnlyFor(s, s', k) && HoldsRight(w, s, s')
  {
    hide Inv, AtRest, HonestEffect, NextPc, PassStep, Further, OnlyFor, HoldsRight, PcFresh, Honest;
    HonestStep(w, s, k, c);
    EffectCalm(w, s, k, c);
    var x, next := HonestEffect(w.cfg, s, k, c), NextPc(w.cfg, s, k, PcOf(s, k), c);
    GotoAtRest(w, x, k, next);
    GotoOnly(w, s, x, k, next);
    StepKeeps(w.cfg, s, Pass(k, c));
  }

  lemma FailCalm(w: World, s: State, k: Key)
    requires Calm(w, s)
    ensures var s' := Goto(s, k, Idle); Calm(w, s') && Further(s, s') && OnlyFor(s, s', k) && HoldsRight(w, s, s')
  {
    hide Inv, AtRest, Goto, Further, OnlyFor, HoldsRight;
    GotoKeeps(s, k, Idle);
    GotoAtRest(w, s, k, Idle);
    SameOnly(w, s, k);
    GotoOnly(w, s, s, k, Idle);
  }

  // ---------- Passes stay settled ----------

  /** A target that was found is found again, under the same uid. */
  lemma LookupStays(w: World, s: State, s': State, d: Key)
    requires Calm(w, s) && Calm(w, s') && Further(s, s') && Lookable(w, d)
    requires HasTarget(s', d) ==> HasTarget(s, d)
    ensures LookupNow(w.cfg, s', d) == LookupNow(w.cfg, s, d)
  {
    hide Inv, AtRest, LookupNow;
    LookupExact(w, s, d);
    LookupExact(w, s', d);
    if HasTarget(s, d) {
      var t :| IsNamespaceFor(s, d.ns, t) && TargetKeyOf(d, t) in s.targets;
      assert IsNamespaceFor(s', d.ns, t);
      LookupResolved(w, s, d, t);
      LookupResolved(w, s', d, t);
    }
  }

  lemma FoundStays(w: World, s: State, s': State, k: Key, rest: seq<Key>, found: Found)
    requires Calm(w, s) && Calm(w, s') && Further(s, s') && Needed(w, k)
    requires k in w.g && FoundSound(w, s, k, rest, found)
    ensures FoundSound(w, s', k, rest, found)
  {
    hide Inv, Needed, Peers, LookupNow, Lookable, HasTarget, Further, Closed;
    forall d | d in found
      ensures LookupNow(w.cfg, s', d) == Hit(found[d])
    {
      PeersLookable(w, k, d);
      LookupExact(w, s, d);
      LookupStays(w, s, s', d);
    }
  }

  lemma OtherNamespaceSettled(w: World, s: State, s': State, k: Key, j: Key)
    requires Further(s, s') && OnlyFor(s, s', k)
    requires j.NsKey? && j != k && PcSettled(w, s, j)
    ensures PcSettled(w, s', j)
  {
    hide NamespaceUsed;
    assert HasNamespace(s', j.name) ==> HasNamespace(s, j.name) by {
      if t :| IsNamespaceFor(s', j.name, t) {
        assert IsNamespaceFor(s, j.name, t);
      }
    }
    if HasNamespace(s, j.name) {
      NamespaceOfFurther(s, s', j.name);
    }
  }

  lemma OtherObjectSettled(w: World, s: State, s': State, k: Key, j: Key)
    requires Calm(w, s) && Calm(w, s') && Further(s, s') && OnlyFor(s, s', k)
    requires j.ObjKey? && j != k && PcSettled(w, s, j)
    ensures PcSettled(w, s', j)
  {
    hide Calm, FoundSound, Needed, IsWanted, IsUnwanted;
    var pc := PcOf(s, j);
    if pc.Lookup? || pc.Fetch? || pc.Write? {
      NeededIn(w, j);
      FoundStays(w, s, s', j, if pc.Lookup? then pc.rest else [], pc.found);
    }
    if pc.RecList? || pc.DelList? {
      assert Cached(s', NsKey(j.ns)).Some?;
    }
    if HasNamespace(s, j.ns) {
      NamespaceOfFurther(s, s', j.ns);
    }
  }

  /** A call of the pass on `k` does not outdate what a pass on another key knows. */
  lemma OtherSettled(w: World, s: State, s': State, k: Key, j: Key)
    requires Calm(w, s) && Calm(w, s') && Further(s, s') && OnlyFor(s, s', k)
    requires j != k && PcSettled(w, s, j)
    ensures PcSettled(w, s', j)
  {
    if j.NsKey? {
      OtherNamespaceSettled(w, s, s', k, j);
    } else {
      OtherObjectSettled(w, s, s', k, j);
    }
  }

  lemma LookupsOn(cfg: Config, s: State, k: Key, pc: Pc)
    ensures forall d :: LookupNow(cfg, Goto(s, k, pc), d) == LookupNow(cfg, s, d)
  {
    var s' := Goto(s, k, pc);
    forall d
      ensures LookupNow(cfg, s', d) == LookupNow(cfg, s, d)
    {
      assert forall uid :: Labelled(s', uid) == Labelled(s, uid);
      assert Cached(s', d) == Cached(s, d) && Cached(s', NamespaceOf(d)) == Cached(s, NamespaceOf(d));
    }
  }

  lemma FitsOn(w: World, s: State, k: Key, pc: Pc)
    requires PcFits(w, s, k, pc)
    ensures PcSettled(w, Goto(s, k, pc), k)
  {
    hide Needed, IsWanted, IsUnwanted, Peers, NamespaceUsed, TargetLookup, LookupOrder;
    var s' := Goto(s, k, pc);
    assert forall j :: Cached(s', j) == Cached(s, j);
    assert forall t :: TargetAt(s', k, t) == TargetAt(s, k, t);
    assert forall n, t :: IsNamespaceFor(s', n, t) == IsNamespaceFor(s, n, t);
    LookupsOn(w.cfg, s, k, pc);
  }

  /** A wanted object is in a namespace in use, unless it is a secret referenced from elsewhere. */
  lemma WantedUsesNamespace(w: World, k: Key)
    requires k.ObjKey? && k.kind != Secret && k in w.g && Typed(k, w.g[k].spec) && Wanted(w.g, w.cfg.pool, k)
    ensures NamespaceUsed(w.g, w.cfg.pool, k.ns)
  {
    match k.kind
    case Machine => assert Stores(w.g, Machine, k.ns, k);
    case Network =>
      var nk :| nk in w.g && Stores(w.g, NetworkInterface, k.ns, nk) &&
        NicUsed(w.g, w.cfg.pool, k.ns, nk.name, w.g[nk].spec.nic);
    case _ =>
  }

  lemma GotFits(w: World, s: State, k: Key, o: SourceObject, c: Choice)
    requires AtRest(w, s) && k.ObjKey? && Cached(s, k) == Some(o) && !o.deleting
    requires k in w.g && Typed(k, w.g[k].spec) && w.g[k].spec == o.spec && (c.wanted <==> Wanted(w.g, w.cfg.pool, k))
    ensures PcFits(w, s, k, BranchPc(w.cfg, k, o, c.wanted))
    ensures Wanted(w.g, w.cfg.pool, k) ==> BranchPc(w.cfg, k, o, c.wanted) == ReconcilePc(k, o)
  {
    hide NamespaceUsed, SecretReferenced, NetworkUsedLive, VipUsed, NicUsed, VolumeUsed;
    if Wanted(w.g, w.cfg.pool, k) && k.kind == Volume {
      WantedUsesNamespace(w, k);
    }
  }

  /** The first steps of a pass: the object that is read is not marked, and is skipped if it is not wanted. */
  lemma StartFits(w: World, s: State, k: Key, c: Choice)
    requires Calm(w, s) && PcSettled(w, s, k) && Honest(w, s, Pass(k, c))
    requires PcOf(s, k).Idle? || PcOf(s, k).Got?
    ensures PcFits(w, s, k, NextPc(w.cfg, s, k, PcOf(s, k), c))
  {
    hide Inv, Wanted, NamespaceUsed;
    if PcOf(s, k).Got? {
      var o := PcOf(s, k).o;
      assert k in Graph(s) && Typed(k, w.g[k].spec);
      assert !o.deleting;
      if k.ObjKey? {
        GotFits(w, s, k, o, c);
      }
    }
  }

  /** Namespaces exist only where they are needed, so a wanted object in one is needed. */
  lemma WantedResolved(w: World, s: State, k: Key, t: TargetNs)
    requires Calm(w, s) && k.ObjKey? && IsWanted(w, k)
    requires Cached(s, NsKey(k.ns)).Some? && ListSingle(s, Cached(s, NsKey(k.ns)).value.uid) == One(t)
    ensures Reconciling(w, s, k, t)
  {
    hide Inv, IsWanted, Mapped, ListSingle, RestingTarget;
    ResolveExact(w, s, k.ns, t);
    WantedMappedNeeded(w, k);
  }

  lemma FirstLookupFits(w: World, s: State, k: Key, o: SourceObject, t: TargetNs)
    requires Reconciling(w, s, k, t) && Cached(s, k) == Some(o) && o.fin && o.spec == w.g[k].spec
    ensures PcFits(w, s, k, FirstLookup(w.cfg, k, o, t))
  {
    hide Needed, LookupOrder;
  }

  /** A pass on a volume looks for its namespace only once the finalizer is on. */
  lemma VolumeHeld(s: State, k: Key)
    requires Inv(s) && k.ObjKey? && k.kind == Volume && (PcOf(s, k).RecNs? || PcOf(s, k).RecList?)
    ensures PcOf(s, k).o.fin
  {
    PcsAreOk(s, k);
  }

  lemma ResolveFits(w: World, s: State, k: Key, c: Choice)
    requires Calm(w, s) && PcSettled(w, s, k) && k.ObjKey?
    requires var pc := PcOf(s, k); pc.RecNs? || pc.RecList?
    ensures PcFits(w, s, k, NextPc(w.cfg, s, k, PcOf(s, k), c))
  {
    hide Inv, AtRest, IsWanted, ListSingle, LookupOrder, Reconciling;
    CachedSpec(w, s, k);
    match PcOf(s, k)
    case RecNs(o) =>
    case RecList(o, nsUid) =>
      match ListSingle(s, nsUid)
      case One(t) =>
        WantedResolved(w, s, k, t);
        if k.kind == Volume {
          VolumeHeld(s, k);
          FirstLookupFits(w, s, k, o, t);
        }
      case _ =>
  }

  /** The calls of a delete pass; an unwanted object has no target left. */
  lemma DeleteFits(w: World, s: State, k: Key, c: Choice)
    requires Calm(w, s) && PcSettled(w, s, k) && k.ObjKey?
    requires var pc := PcOf(s, k); pc.DelNs? || pc.DelList? || pc.DelIssue?
    ensures PcFits(w, s, k, NextPc(w.cfg, s, k, PcOf(s, k), c))
  {
    hide Inv, AtRest, IsUnwanted, ListSingle;
    match PcOf(s, k)
    case DelNs(_) =>
    case DelList(_, nsUid) =>
      if ListSingle(s, nsUid).One? {
        ResolveExact(w, s, k.ns, ListSingle(s, nsUid).t);
      }
    case DelIssue(_, t) =>
      UnwantedHasNoTarget(w, s, k);
      assert HasNamespace(s, k.ns);
  }

  lemma FinalizerFits(w: World, s: State, k: Key, c: Choice)
    requires Calm(w, s) && PcSettled(w, s, k) && k.ObjKey?
    requires var pc := PcOf(s, k); pc.VolumeFin? || pc.RecFin?
    ensures PcOf(s, k).o.fin ==> PcFits(w, s, k, NextPc(w.cfg, s, k, PcOf(s, k), c))
    ensures !PcOf(s, k).o.fin ==> NextPc(w.cfg, s, k, PcOf(s, k), c).Idle?
  {
    hide Inv, AtRest, LookupOrder, Wanted, NamespaceUsed;
    CachedSpec(w, s, k);
    match PcOf(s, k)
    case VolumeFin(o) =>
    case RecFin(o, t) =>
      if o.fin {
        FirstLookupFits(w, s, k, o, t);
      }
  }

  lemma LookupFits(w: World, s: State, k: Key, c: Choice)
    requires Calm(w, s) && PcSettled(w, s, k) && k.ObjKey? && c.stale == map[] && PcOf(s, k).Lookup?
    ensures var Lookup(o, t, rest, found) := PcOf(s, k);
            NextPc(w.cfg, s, k, PcOf(s, k), c) ==
              if rest == [] then Fetch(o, t, found)
              else Lookup(o, t, rest[1..], Noted(found, rest[0], LookupNow(w.cfg, s, rest[0])))
    ensures PcFits(w, s, k, NextPc(w.cfg, s, k, PcOf(s, k), c))
  {
    hide Inv, AtRest, Needed, Peers;
    var Lookup(o, t, rest, found) := PcOf(s, k);
    if rest != [] {
      NeededIn(w, k);
      NoLookupFails(w, s, k, rest[0]);
      assert TargetLookup(w.cfg, s, c, rest[0]) == LookupNow(w.cfg, s, rest[0]);
    }
  }

  lemma FetchFits(w: World, s: State, k: Key, c: Choice)
    requires PcSettled(w, s, k) && k.ObjKey? && c.stale == map[] && PcOf(s, k).Fetch?
    ensures PcFits(w, s, k, NextPc(w.cfg, s, k, PcOf(s, k), c))
  {
    hide Needed, Peers, FoundSound;
  }

  lemma ListFits(w: World, s: State, k: Key, o: SourceObject)
    requires Calm(w, s) && k.NsKey? && Cached(s, k) == Some(o)
    ensures match ListSingle(s, o.uid)
            case One(_) => o.fin && HasNamespace(s, k.name)
            case NotFound => !HasNamespace(s, k.name)
            case Rejected => false
  {
    hide AtRest, ListSingle;
    ListSingleExact(s, o.uid);
    match ListSingle(s, o.uid)
    case One(t) =>
      ResolveExact(w, s, k.name, t);
      assert Held(ViewOf(s, k), o.uid);
    case NotFound =>
      forall t
        ensures !IsNamespaceFor(s, k.name, t)
      {
        ResolveExact(w, s, k.name, t);
      }
    case _ =>
  }

  lemma NamespaceFits(w: World, s: State, k: Key, c: Choice)
    requires Calm(w, s) && PcSettled(w, s, k) && Honest(w, s, Pass(k, c)) && k.NsKey?
    requires var pc := PcOf(s, k); pc.NsList? || pc.NsRef? || (pc.NsFin? && pc.o.fin)
    ensures PcFits(w, s, k, NextPc(w.cfg, s, k, PcOf(s, k), c))
  {
    hide Inv, AtRest, NamespaceUsed, ListSingle;
    CachedSpec(w, s, k);
    if PcOf(s, k).NsList? {
      ListFits(w, s, k, PcOf(s, k).o);
    }
  }

  lemma KindOfPc(w: World, s: State, k: Key)
    requires PcSettled(w, s, k)
    ensures var pc := PcOf(s, k);
            pc.Idle? || pc.Got? ||
            (if k.NsKey? then pc.NsList? || pc.NsKeep? || pc.NsRef? || pc.NsFin? || pc.NsCreate?
             else pc.DelNs? || pc.DelList? || pc.DelIssue? || pc.DelFin? || pc.VolumeFin? || pc.RecNs? || pc.RecList? ||
                  pc.RecFin? || pc.Lookup? || pc.Fetch? || pc.Write?)
  {
  }

  lemma FreshChoice(w: World, s: State, k: Key, c: Choice)
    requires Honest(w, s, Pass(k, c))
    ensures c.stale == map[] && c.generated !in s.issued
  {
  }

  lemma LastCall(cfg: Config, s: State, k: Key, c: Choice)
    requires var pc := PcOf(s, k); pc.Write? || pc.NsCreate? || pc.NsKeep? || pc.DelFin? || (pc.NsFin? && !pc.o.fin)
    ensures NextPc(cfg, s, k, PcOf(s, k), c).Idle?
  {
  }

  lemma NextFits(w: World, s: State, k: Key, c: Choice)
    requires Calm(w, s) && PcSettled(w, s, k) && Honest(w, s, Pass(k, c))
    ensures var next := NextPc(w.cfg, s, k, PcOf(s, k), c);
            next.Idle? || (PcFits(w, s, k, next) && HonestEffect(w.cfg, s, k, c) == s)
  {
    hide Calm, NextPc, PcFits, Honest;
    var pc := PcOf(s, k);
    KindOfPc(w, s, k);
    if pc.Idle? || pc.Got? {
      StartFits(w, s, k, c);
    } else if pc.DelNs? || pc.DelList? || pc.DelIssue? {
      DeleteFits(w, s, k, c);
    } else if pc.RecNs? || pc.RecList? {
      ResolveFits(w, s, k, c);
    } else if pc.VolumeFin? || pc.RecFin? {
      FinalizerFits(w, s, k, c);
    } else if pc.Lookup? {
      FreshChoice(w, s, k, c);
      LookupFits(w, s, k, c);
    } else if pc.Fetch? {
      FreshChoice(w, s, k, c);
      FetchFits(w, s, k, c);
    } else if pc.NsList? || pc.NsRef? || (pc.NsFin? && pc.o.fin) {
      NamespaceFits(w, s, k, c);
    } else {
      LastCall(w.cfg, s, k, c);
    }
  }

  lemma IdleFits(w: World, s: State, k: Key)
    ensures PcFits(w, s, k, Idle)
  {
  }

  lemma OwnSettled(w: World, s: State, k: Key, c: Choice)
    requires Calm(w, s) && PcSettled(w, s, k) && Honest(w, s, Pass(k, c))
    ensures PcSettled(w, PassStep(w.cfg, s, k, c), k)
  {
    hide Calm, NextPc, HonestEffect, PcSettled, PcFresh, Honest, PassStep, NamespacePcFits, ObjectPcFits;
    SettledIsFresh(w, s, k);
    HonestStep(w, s, k, c);
    NextFits(w, s, k, c);
    var next := NextPc(w.cfg, s, k, PcOf(s, k), c);
    if next.Idle? {
      IdleFits(w, HonestEffect(w.cfg, s, k, c), k);
    }
    FitsOn(w, HonestEffect(w.cfg, s, k, c), k, next);
  }

  lemma FailSettled(w: World, s: State, k: Key)
    requires Settled(w, s)
    ensures var s' := Goto(s, k, Idle); Settled(w, s') && Further(s, s') && OnlyFor(s, s', k) && HoldsRight(w, s, s')
  {
    hide Calm, PcSettled, Goto, Further, OnlyFor, HoldsRight;
    FailCalm(w, s, k);
    IdleFits(w, s, k);
    FitsOn(w, s, k, Idle);
    forall j | j != k
      ensures PcSettled(w, Goto(s, k, Idle), j)
    {
      OtherSettled(w, s, Goto(s, k, Idle), k, j);
    }
  }

  /** A call of a pass never leaves the settled states, and never goes back. */
  lemma StepSettled(w: World, s: State, a: Action)
    requires Settled(w, s) && Honest(w, s, a)
    ensures Settled(w, Step(w.cfg, s, a)) && Further(s, Step(w.cfg, s, a)) && HoldsRight(w, s, Step(w.cfg, s, a))
    ensures OnlyFor(s, Step(w.cfg, s, a), a.k)
  {
    hide Calm, PcSettled, PassStep, Further, OnlyFor, HoldsRight, Goto;
    match a
    case Pass(k, c) =>
      SettledAt(w, s, k);
      SettledIsFresh(w, s, k);
      StepCalm(w, s, k, c);
      OwnSettled(w, s, k, c);
      forall j | j != k
        ensures PcSettled(w, PassStep(w.cfg, s, k, c), j)
      {
        SettledAt(w, s, j);
        OtherSettled(w, s, PassStep(w.cfg, s, k, c), k, j);
      }
    case Fail(k) => FailSettled(w, s, k);
  }
}
