/**
  Proxy volumes: a source volume that stands for a volume of the target cluster somebody else
  brought there.  Each proxy that is in use is an owner of the one target they share.
 */
module ProxyVolumes {
  import opened Wrappers
  import opened OwnerReferences

  /** A proxy volume; its own controller reference names the target volume. */
  datatype Proxy = Proxy(namespace: string, name: string, uid: string, annotations: Annotations) {
    function Id(): (string, string) {
      (namespace, name)
    }

    function AsOwner(gv: GroupVersion): Owner {
      Owner(gv, "Volume", namespace, name, uid)
    }

    ghost function Target(): Option<(string, string)> {
      match ControllerOf(OwnersIn(annotations))
      case None => None
      case Some(c) => Some((c.namespace, c.name))
    }
  }

  /** The target of a proxy is the object that was made its controller. */
  lemma TargetIsController(p: Proxy, a: Annotations, cluster: string, owner: Owner)
    requires !AlreadyOwned(OwnersIn(a), owner.Ref(cluster, Some(true)))
    requires p.annotations == Perform(a, SetController(cluster, owner))
    ensures p.Target() == Some((owner.namespace, owner.name))
  {
    UpsertControls(OwnersIn(a), owner.Ref(cluster, Some(true)));
  }

  datatype Error = NoBrokerController | NotFound | NotSynced

  class ProxyVolumeApplier {
    const cluster: string
    const gv: GroupVersion // of the volume type, from the scheme
    var targets: map<(string, string), Annotations> // the volumes of the target cluster

    constructor (cluster: string, gv: GroupVersion, targets: map<(string, string), Annotations>)
      ensures this.cluster == cluster && this.gv == gv && this.targets == targets
    {
      this.cluster, this.gv, this.targets := cluster, gv, targets;
    }

    method TargetKey(volume: Proxy) returns (key: Option<(string, string)>)
      ensures key == volume.Target()
    {
      var copy := new Object(());
      copy.annotations := volume.annotations;
      var controller := copy.GetControllerOf();
      key := if controller.Some? then Some((controller.value.namespace, controller.value.name)) else None;
    }

    /** The copy of a target that a call works on before it patches the target. */
    method Get(key: (string, string)) returns (target: Object<()>)
      requires key in targets
      ensures fresh(target) && target.annotations == targets[key]
    {
      target := new Object(());
      target.annotations := targets[key];
    }

    method ApplyTarget(volume: Proxy) returns (r: Result<(string, string), Error>)
      modifies this
      ensures r == (match volume.Target()
                    case None => Failure(NoBrokerController)
                    case Some(key) => if key in old(targets) then Success(key) else Failure(NotFound))
      ensures targets == if r.Failure? then old(targets)
                         else old(targets)[r.value := Perform(old(targets)[r.value], SetOwner(cluster, volume.AsOwner(gv)))]
    {
      var key := TargetKey(volume);
      if key.None? {
        return Failure(NoBrokerController);
      }
      if key.value !in targets {
        return Failure(NotFound);
      }
      var target := Get(key.value);
      target.SetOwnerReference(cluster, volume.AsOwner(gv));
      targets := targets[key.value := target.annotations];
      return Success(key.value);
    }

    method GetTarget(volume: Proxy) returns (r: Result<(string, string), Error>)
      ensures r == (match volume.Target()
                    case None => Failure(NoBrokerController)
                    case Some(key) =>
                      if key !in targets then Failure(NotFound)
                      else if HasOwner(OwnersIn(targets[key]), cluster, volume.AsOwner(gv)) then Success(key)
                      else Failure(NotSynced))
    {
      var key := TargetKey(volume);
      if key.None? {
        return Failure(NoBrokerController);
      }
      if key.value !in targets {
        return Failure(NotFound);
      }
      var target := Get(key.value);
      var has := target.HasOwnerReference(cluster, volume.AsOwner(gv));
      return if has then Success(key.value) else Failure(NotSynced);
    }

    method DeleteTarget(volume: Proxy) returns (r: Result<bool, Error>)
      modifies this
      ensures r == (if volume.Target().None? then Failure(NoBrokerController) else Success(true))
      ensures targets == (match volume.Target()
                          case None => old(targets)
                          case Some(key) =>
                            if key !in old(targets) then old(targets)
                            else old(targets)[key :=
                              Perform(old(targets)[key], RemoveOwner(cluster, volume.AsOwner(gv)))])
    {
      var key := TargetKey(volume);
      if key.None? {
        return Failure(NoBrokerController);
      }
      if key.value !in targets {
        return Success(true);
      }
      var target := Get(key.value);
      target.RemoveOwnerReference(cluster, volume.AsOwner(gv));
      targets := targets[key.value := target.annotations];
      return Success(true);
    }
  }

  // ---------- Any interleaving of proxies on one target ----------

  datatype Event = Applied(proxy: Proxy) | Deleted(proxy: Proxy)

  ghost function Play(cluster: string, gv: GroupVersion, a: Annotations, events: seq<Event>): Annotations {
    if events == [] then a
    else
      Perform(Play(cluster, gv, a, events[..|events| - 1]),
        match events[|events| - 1]
        case Applied(p) => SetOwner(cluster, p.AsOwner(gv))
        case Deleted(p) => RemoveOwner(cluster, p.AsOwner(gv)))
  }

  /** The proxies that are applied after the events, each as it was when applied last. */
  ghost function Active(events: seq<Event>): (m: map<(string, string), Proxy>)
    ensures forall id :: id in m ==> m[id].Id() == id
  {
    if events == [] then map[]
    else
      var m := Active(events[..|events| - 1]);
      match events[|events| - 1]
      case Applied(p) => m[p.Id() := p]
      case Deleted(p) => m - {p.Id()}
  }

  ghost predicate ActiveEntry(cluster: string, gv: GroupVersion, m: map<(string, string), Proxy>, r: OwnerReference) {
    && (r.namespace, r.name) in m
    && var p := m[(r.namespace, r.name)];
       r == OwnerReference(cluster, gv.Text(), "Volume", p.namespace, p.name, p.uid, None)
  }

  /** The owners are the base entries and one entry for each active proxy, in some order. */
  ghost predicate BaseAndActive(cluster: string, gv: GroupVersion, base: seq<OwnerReference>,
                                m: map<(string, string), Proxy>, owners: seq<OwnerReference>)
  {
    forall r :: multiset(owners)[r] == multiset(base)[r] + if ActiveEntry(cluster, gv, m, r) then 1 else 0
  }

  /** No base entry is about a volume of the source cluster. */
  ghost predicate NamesNoProxy(cluster: string, gv: GroupVersion, base: seq<OwnerReference>) {
    forall r, p: Proxy :: r in base ==> !ReferSameObject(r, p.AsOwner(gv).Ref(cluster, None))
  }

  lemma {:induction false} OthersCount(owners: seq<OwnerReference>, ref: OwnerReference, r: OwnerReference)
    ensures multiset(Others(owners, ref))[r] == if ReferSameObject(r, ref) then 0 else multiset(owners)[r]
  {
    if owners != [] {
      OthersCount(owners[1..], ref, r);
      assert owners == [owners[0]] + owners[1..];
    }
  }

  lemma SameProxy(cluster: string, gv: GroupVersion, p: Proxy, q: Proxy)
    requires Slashes(gv.group) == Slashes(gv.version) == 0
    ensures ReferSameObject(p.AsOwner(gv).Ref(cluster, None), q.AsOwner(gv).Ref(cluster, None)) <==> p.Id() == q.Id()
  {
    OwnersReferSameObject(cluster, p.AsOwner(gv), cluster, q.AsOwner(gv), None, None);
  }

  lemma SameAsActive(cluster: string, gv: GroupVersion, m: map<(string, string), Proxy>, r: OwnerReference, p: Proxy)
    requires Slashes(gv.group) == Slashes(gv.version) == 0 && ActiveEntry(cluster, gv, m, r)
    ensures ReferSameObject(r, p.AsOwner(gv).Ref(cluster, None)) <==> (r.namespace, r.name) == p.Id()
  {
    SameProxy(cluster, gv, m[(r.namespace, r.name)], p);
  }

  lemma BaseCount(cluster: string, gv: GroupVersion, base: seq<OwnerReference>, p: Proxy, r: OwnerReference)
    requires NamesNoProxy(cluster, gv, base) && ReferSameObject(r, p.AsOwner(gv).Ref(cluster, None))
    ensures multiset(base)[r] == 0
  {
    assert r !in base;
  }

  lemma ApplyShares(cluster: string, gv: GroupVersion, base: seq<OwnerReference>,
                    m: map<(string, string), Proxy>, owners: seq<OwnerReference>, p: Proxy)
    requires Slashes(gv.group) == Slashes(gv.version) == 0 && NamesNoProxy(cluster, gv, base)
    requires WellFormed(owners) && BaseAndActive(cluster, gv, base, m, owners)
    ensures BaseAndActive(cluster, gv, base, m[p.Id() := p], Upserted(owners, p.AsOwner(gv).Ref(cluster, None)))
  {
    hide ReferSameObject, Upserted, Removed, WellFormed, NamesNoProxy;
    var ref := p.AsOwner(gv).Ref(cluster, None);
    var m' := m[p.Id() := p];
    UpsertExact(owners, ref);
    SameProxy(cluster, gv, p, p);
    forall r
      ensures multiset(Upserted(owners, ref))[r] == multiset(base)[r] + if ActiveEntry(cluster, gv, m', r) then 1 else 0
    {
      OthersCount(owners, ref, r);
      if ReferSameObject(r, ref) {
        BaseCount(cluster, gv, base, p, r);
      }
      if ActiveEntry(cluster, gv, m, r) {
        SameAsActive(cluster, gv, m, r, p);
      }
      if ActiveEntry(cluster, gv, m', r) {
        SameAsActive(cluster, gv, m', r, p);
      }
    }
  }

  lemma DeleteShares(cluster: string, gv: GroupVersion, base: seq<OwnerReference>,
                     m: map<(string, string), Proxy>, owners: seq<OwnerReference>, p: Proxy)
    requires Slashes(gv.group) == Slashes(gv.version) == 0 && NamesNoProxy(cluster, gv, base)
    requires WellFormed(owners) && BaseAndActive(cluster, gv, base, m, owners)
    ensures BaseAndActive(cluster, gv, base, m - {p.Id()}, Removed(owners, p.AsOwner(gv).Ref(cluster, None)))
  {
    hide ReferSameObject, Upserted, Removed, WellFormed, NamesNoProxy;
    var ref := p.AsOwner(gv).Ref(cluster, None);
    var m' := m - {p.Id()};
    RemoveExact(owners, ref);
    forall r
      ensures multiset(Removed(owners, ref))[r] == multiset(base)[r] + if ActiveEntry(cluster, gv, m', r) then 1 else 0
    {
      OthersCount(owners, ref, r);
      if ReferSameObject(r, ref) {
        BaseCount(cluster, gv, base, p, r);
      }
      if ActiveEntry(cluster, gv, m, r) {
        SameAsActive(cluster, gv, m, r, p);
      }
    }
  }

  /**
    Sharing: whatever the order in which any number of proxies are applied and deleted, and however
    often, the target keeps its original owners, its controller included, and has exactly one more
    owner for each proxy that is applied.
   */
  lemma {:induction false} ProxiesShare(cluster: string, gv: GroupVersion, a: Annotations, events: seq<Event>)
    requires Slashes(gv.group) == Slashes(gv.version) == 0
    requires WellFormed(OwnersIn(a)) && NamesNoProxy(cluster, gv, OwnersIn(a))
    ensures WellFormed(OwnersIn(Play(cluster, gv, a, events)))
    ensures BaseAndActive(cluster, gv, OwnersIn(a), Active(events), OwnersIn(Play(cluster, gv, a, events)))
  {
    hide NamesNoProxy, WellFormed, Upserted, AlreadyOwned;
    if events != [] {
      var init := events[..|events| - 1];
      var before := Play(cluster, gv, a, init);
      ProxiesShare(cluster, gv, a, init);
      match events[|events| - 1]
      case Applied(p) =>
        PerformKeeps(before, SetOwner(cluster, p.AsOwner(gv)));
        ApplyShares(cluster, gv, OwnersIn(a), Active(init), OwnersIn(before), p);
      case Deleted(p) =>
        PerformKeeps(before, RemoveOwner(cluster, p.AsOwner(gv)));
        DeleteShares(cluster, gv, OwnersIn(a), Active(init), OwnersIn(before), p);
    }
  }

  /** A proxy gets its target back exactly while it is applied. */
  lemma OwnsExactlyActive(cluster: string, gv: GroupVersion, a: Annotations, events: seq<Event>, p: Proxy)
    requires Slashes(gv.group) == Slashes(gv.version) == 0
    requires WellFormed(OwnersIn(a)) && NamesNoProxy(cluster, gv, OwnersIn(a))
    ensures HasOwner(OwnersIn(Play(cluster, gv, a, events)), cluster, p.AsOwner(gv)) <==> p.Id() in Active(events)
  {
    var owners, m := OwnersIn(Play(cluster, gv, a, events)), Active(events);
    var ref := p.AsOwner(gv).Ref(cluster, None);
    ProxiesShare(cluster, gv, a, events);
    if p.Id() in m {
      var r := m[p.Id()].AsOwner(gv).Ref(cluster, None);
      assert ActiveEntry(cluster, gv, m, r);
      SameAsActive(cluster, gv, m, r, p);
      assert multiset(owners)[r] >= 1;
    }
    if r :| r in owners && ReferSameObject(r, ref) {
      assert multiset(owners)[r] >= 1;
      if r in OwnersIn(a) {
        assert false;
      }
      assert multiset(OwnersIn(a))[r] == 0;
      SameAsActive(cluster, gv, m, r, p);
    }
  }

  /** When every proxy has gone, the target is back to its original owners. */
  lemma AllDeletedRestores(cluster: string, gv: GroupVersion, a: Annotations, events: seq<Event>)
    requires Slashes(gv.group) == Slashes(gv.version) == 0
    requires WellFormed(OwnersIn(a)) && NamesNoProxy(cluster, gv, OwnersIn(a))
    requires Active(events) == map[]
    ensures multiset(OwnersIn(Play(cluster, gv, a, events))) == multiset(OwnersIn(a))
  {
    ProxiesShare(cluster, gv, a, events);
  }
}
