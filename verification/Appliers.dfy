/**
  The appliers: each registers mutations with a builder, one source field at a time, and the
  builder runs them on the target when it is created or patched.  Every method is proved to do
  what the functions of module `Sync` say.
 */
module Appliers {
  import opened Wrappers
  import opened Objects
  import opened Merge
  import opened Sync

  datatype ApplyError = Unrecognized | PartialCreate

  ghost function RunAll<T>(mutations: seq<T -> T>, target: T): T {
    if mutations == [] then target
    else mutations[|mutations| - 1](RunAll(mutations[..|mutations| - 1], target))
  }

  class CompositeMutationBuilder<T> {
    var mutations: seq<T -> T>
    var partialSync: bool

    constructor ()
      ensures mutations == [] && !partialSync
    {
      mutations, partialSync := [], false;
    }

    method Add(f: T -> T)
      modifies this`mutations
      ensures mutations == old(mutations) + [f]
      ensures forall t :: RunAll(mutations, t) == f(RunAll(old(mutations), t))
    {
      mutations := mutations + [f];
      assert mutations[..|mutations| - 1] == old(mutations);
    }

    /** Nothing is created from a partial round; whatever exists is brought as far as the round goes. */
    method Mutate(isNew: bool, target: T) returns (r: Result<T, ApplyError>)
      ensures r == if isNew && partialSync then Failure(PartialCreate) else Success(RunAll(mutations, target))
    {
      if isNew && partialSync {
        return Failure(PartialCreate);
      }
      var t := target;
      for i := 0 to |mutations|
        invariant t == RunAll(mutations[..i], target)
      {
        assert mutations[..i + 1][..i] == mutations[..i];
        t := mutations[i](t);
      }
      assert mutations[..|mutations|] == mutations;
      return Success(t);
    }
  }

  // ---------- Machines ----------

  method RegisterImagePullSecretMutation(ns: string, m: MachineSpec, found: Found,
                                         b: CompositeMutationBuilder<MachineTarget>)
    modifies b
    ensures b.partialSync <==> old(b.partialSync) || Unresolved(SecretKey(ns, m.imagePullSecret), found)
    ensures forall t :: RunAll(b.mutations, t) == WithPullSecret(ns, m, found, RunAll(old(b.mutations), t))
  {
    if m.imagePullSecret.None? {
      b.Add((t: MachineTarget) => t.(imagePullSecret := None));
      return;
    }
    var key := ObjKey(Secret, ns, m.imagePullSecret.value);
    if key !in found {
      b.partialSync := true;
      return;
    }
    var name := found[key].name;
    b.Add((t: MachineTarget) => t.(imagePullSecret := Some(name)));
  }

  method RegisterIgnitionMutation(ns: string, m: MachineSpec, found: Found, b: CompositeMutationBuilder<MachineTarget>)
    modifies b
    ensures b.partialSync <==> old(b.partialSync) || Unresolved(IgnitionKey(ns, m), found)
    ensures forall t :: RunAll(b.mutations, t) == WithIgnition(ns, m, found, RunAll(old(b.mutations), t))
  {
    if m.ignition.None? {
      b.Add((t: MachineTarget) => t.(ignition := None));
      return;
    }
    var key := ObjKey(Secret, ns, m.ignition.value.name);
    if key !in found {
      b.partialSync := true;
      return;
    }
    var ref := SecretKeyRef(found[key].name, m.ignition.value.key);
    b.Add((t: MachineTarget) => t.(ignition := Some(ref)));
  }

  /** The status of a list entry is the first one under its name. */
  method FindStatus(statuses: seq<Entry<bool>>, name: string) returns (bound: bool)
    ensures bound <==> exists i :: FirstUnder(statuses, name, i) && statuses[i].value
  {
    for i := 0 to |statuses|
      invariant forall j :: 0 <= j < i ==> statuses[j].name != name
    {
      if statuses[i].name == name {
        assert FirstUnder(statuses, name, i);
        return statuses[i].value;
      }
    }
    return false;
  }

  method TargetVolumeSource(ns: string, name: string, m: MachineSpec, e: Entry<MachineVolume>, found: Found)
    returns (r: Result<Option<TargetVolumeSource>, ApplyError>)
    ensures r == if e.value.source.NoVolumeSource? then Failure(Unrecognized)
                 else Success(VolumeImage(ns, name, m, e, found))
    ensures r.Success? && !e.value.source.EmptyDisk? ==>
              (r.value.Some? <==>
                 IsBound(m.volumeBound, e.name) && ObjKey(Volume, ns, EntryVolumeName(name, e).value) in found)
  {
    match e.value.source {
      case EmptyDisk(size) => return Success(Some(TargetEmptyDisk(size)));
      case NoVolumeSource => return Failure(Unrecognized);
      case _ =>
        var bound := FindStatus(m.volumeBound, e.name);
        if !bound {
          return Success(None);
        }
        var key := ObjKey(Volume, ns, EntryVolumeName(name, e).value);
        if key !in found {
          return Success(None);
        }
        return Success(Some(TargetVolumeRef(found[key].name)));
    }
  }

  /** What one more entry adds to the three things the loops keep. */
  lemma RoundStep<T>(round: Round<T>, i: nat)
    requires i < |round|
    ensures RoundPartial(round[..i + 1]) <==> RoundPartial(round[..i]) || round[i].image.None?
    ensures Unhandled(round[..i + 1]) == Unhandled(round[..i]) + if round[i].image.None? then {round[i].name} else {}
    ensures Fresh(round[..i + 1]) ==
            Fresh(round[..i]) + if round[i].image.None? then [] else [Entry(round[i].name, round[i].image.value)]
  {
    assert round[..i + 1][..i] == round[..i];
    assert forall j :: 0 <= j < i ==> round[..i + 1][j] == round[..i][j];
    if round[i].image.None? {
      assert round[..i + 1][i].image.None?;
    }
    if RoundPartial(round[..i]) {
      var j :| 0 <= j < i && round[..i][j].image.None?;
      assert round[..i + 1][j].image.None?;
    }
    forall n | n in Unhandled(round[..i])
      ensures n in Unhandled(round[..i + 1])
    {
      var j :| 0 <= j < i && round[..i][j].image.None? && round[..i][j].name == n;
      assert round[..i + 1][j].name == n;
    }
  }

  method RegisterVolumesMutation(ns: string, name: string, m: MachineSpec, found: Found,
                                 b: CompositeMutationBuilder<MachineTarget>) returns (r: Result<(), ApplyError>)
    modifies b
    ensures r.Failure? <==> exists i :: 0 <= i < |m.volumes| && m.volumes[i].value.source.NoVolumeSource?
    ensures r.Success? ==>
              && (b.partialSync <==> old(b.partialSync) || RoundPartial(VolumeRound(ns, name, m, found)))
              && forall t :: RunAll(b.mutations, t) == WithVolumes(ns, name, m, found, RunAll(old(b.mutations), t))
  {
    ghost var round := VolumeRound(ns, name, m, found);
    var unhandledNames: set<string>, targetVolumes: seq<Entry<TargetVolume>> := {}, [];
    for i := 0 to |m.volumes|
      invariant b.mutations == old(b.mutations)
      invariant forall j :: 0 <= j < i ==> !m.volumes[j].value.source.NoVolumeSource?
      invariant b.partialSync <==> old(b.partialSync) || RoundPartial(round[..i])
      invariant unhandledNames == Unhandled(round[..i]) && targetVolumes == Fresh(round[..i])
    {
      var e := m.volumes[i];
      var src := TargetVolumeSource(ns, name, m, e, found);
      if src.Failure? {
        return Failure(Unrecognized);
      }
      assert round[i] == VolumeItem(ns, name, m, e, found);
      RoundStep(round, i);
      if src.value.None? {
        b.partialSync := true;
        unhandledNames := unhandledNames + {e.name};
      } else {
        targetVolumes := targetVolumes + [Entry(e.name, TargetVolume(e.value.device, src.value.value))];
      }
    }
    assert round[..|m.volumes|] == round;
    b.Add((t: MachineTarget) => t.(volumes := Keep(t.volumes, unhandledNames) + targetVolumes));
    return Success(());
  }

  method TargetNicSource(ns: string, name: string, m: MachineSpec, e: Entry<NicSource>, found: Found)
    returns (r: Result<Option<string>, ApplyError>)
    ensures r == if e.value.NoNicSource? then Failure(Unrecognized) else Success(NicItem(ns, name, m, e, found).image)
    ensures r.Success? ==>
              (r.value.Some? <==>
                 IsBound(m.nicBound, e.name) && ObjKey(NetworkInterface, ns, EntryNicName(name, e).value) in found)
  {
    match e.value {
      case NoNicSource => return Failure(Unrecognized);
      case _ =>
        var bound := FindStatus(m.nicBound, e.name);
        if !bound {
          return Success(None);
        }
        var key := ObjKey(NetworkInterface, ns, EntryNicName(name, e).value);
        if key !in found {
          return Success(None);
        }
        return Success(Some(found[key].name));
    }
  }

  method RegisterNetworkInterfacesMutation(ns: string, name: string, m: MachineSpec, found: Found,
                                           b: CompositeMutationBuilder<MachineTarget>) returns (r: Result<(), ApplyError>)
    modifies b
    ensures r.Failure? <==> exists i :: 0 <= i < |m.nics| && m.nics[i].value.NoNicSource?
    ensures r.Success? ==>
              && (b.partialSync <==> old(b.partialSync) || RoundPartial(NicRound(ns, name, m, found)))
              && forall t :: RunAll(b.mutations, t) == WithNics(ns, name, m, found, RunAll(old(b.mutations), t))
  {
    ghost var round := NicRound(ns, name, m, found);
    var unhandledNames: set<string>, targetNics: seq<Entry<string>> := {}, [];
    for i := 0 to |m.nics|
      invariant b.mutations == old(b.mutations)
      invariant forall j :: 0 <= j < i ==> !m.nics[j].value.NoNicSource?
      invariant b.partialSync <==> old(b.partialSync) || RoundPartial(round[..i])
      invariant unhandledNames == Unhandled(round[..i]) && targetNics == Fresh(round[..i])
    {
      var e := m.nics[i];
      var src := TargetNicSource(ns, name, m, e, found);
      if src.Failure? {
        return Failure(Unrecognized);
      }
      assert round[i] == NicItem(ns, name, m, e, found);
      RoundStep(round, i);
      if src.value.None? {
        b.partialSync := true;
        unhandledNames := unhandledNames + {e.name};
      } else {
        targetNics := targetNics + [Entry(e.name, src.value.value)];
      }
    }
    assert round[..|m.nics|] == round;
    b.Add((t: MachineTarget) => t.(nics := Keep(t.nics, unhandledNames) + targetNics));
    return Success(());
  }

  method RegisterMachineDefaultMutation(cfg: Config, m: MachineSpec, b: CompositeMutationBuilder<MachineTarget>)
    modifies b
    ensures b.partialSync == old(b.partialSync)
    ensures forall t :: RunAll(b.mutations, t) == WithDefaults(cfg, m, RunAll(old(b.mutations), t))
  {
    b.Add((t: MachineTarget) => t.(pool := SetIfUnset(cfg.targetPool, t.pool), payload := m.payload));
  }

  method ApplyMachineTarget(cfg: Config, ns: string, name: string, m: MachineSpec, found: Found, isNew: bool,
                            t: MachineTarget)
    returns (r: Result<MachineTarget, ApplyError>)
    ensures r == if Malformed(m) then Failure(Unrecognized)
                 else if isNew && MachinePartial(ns, name, m, found) then Failure(PartialCreate)
                 else Success(ApplyMachine(cfg, ns, name, m, found, t))
  {
    var b := new CompositeMutationBuilder<MachineTarget>();
    RegisterImagePullSecretMutation(ns, m, found, b);
    RegisterIgnitionMutation(ns, m, found, b);
    var volumes := RegisterVolumesMutation(ns, name, m, found, b);
    if volumes.Failure? {
      return Failure(Unrecognized);
    }
    var nics := RegisterNetworkInterfacesMutation(ns, name, m, found, b);
    if nics.Failure? {
      return Failure(Unrecognized);
    }
    RegisterMachineDefaultMutation(cfg, m, b);
    r := b.Mutate(isNew, t);
  }

  // ---------- Network interfaces ----------

  method RegisterNicDefaultMutation(n: NicSpec, b: CompositeMutationBuilder<NicTarget>)
    modifies b
    ensures b.partialSync <==> old(b.partialSync) || |n.statusIPs| != |n.families|
    ensures forall t :: RunAll(b.mutations, t) ==
              (var t' := RunAll(old(b.mutations), t);
               if |n.statusIPs| == |n.families| then t'.(families := Families(n.statusIPs), ips := n.statusIPs) else t')
  {
    if |n.statusIPs| != |n.families| {
      b.partialSync := true;
      return;
    }
    var families: seq<IPFamily>, ips: seq<IP> := [], [];
    for i := 0 to |n.statusIPs|
      invariant families == Families(n.statusIPs[..i]) && ips == n.statusIPs[..i]
    {
      families := families + [n.statusIPs[i].family];
      ips := ips + [n.statusIPs[i]];
    }
    assert n.statusIPs[..|n.statusIPs|] == n.statusIPs;
    b.Add((t: NicTarget) => t.(families := families, ips := ips));
  }

  method RegisterNetworkMutation(ns: string, n: NicSpec, found: Found, b: CompositeMutationBuilder<NicTarget>)
    modifies b
    ensures var key := ObjKey(Network, ns, n.network);
            && (b.partialSync <==> old(b.partialSync) || key !in found)
            && forall t :: RunAll(b.mutations, t) ==
                 (var t' := RunAll(old(b.mutations), t); if key in found then t'.(network := found[key].name) else t')
  {
    var key := ObjKey(Network, ns, n.network);
    if key !in found {
      b.partialSync := true;
      return;
    }
    var network := found[key].name;
    b.Add((t: NicTarget) => t.(network := network));
  }

  /** The machine need not be synced yet: the reference is left out until it is. */
  method RegisterMachineMutation(ns: string, n: NicSpec, found: Found, b: CompositeMutationBuilder<NicTarget>)
    modifies b
    ensures b.partialSync == old(b.partialSync)
    ensures forall t :: RunAll(b.mutations, t) ==
              RunAll(old(b.mutations), t).(machine := RunAll(b.mutations, t).machine)
    ensures forall t :: HoldsFound(RunAll(b.mutations, t).machine, Machine, ns, n.machine, found)
  {
    if n.machine.None? || ObjKey(Machine, ns, n.machine.value.name) !in found {
      b.Add((t: NicTarget) => t.(machine := None));
      return;
    }
    var ref := found[ObjKey(Machine, ns, n.machine.value.name)];
    b.Add((t: NicTarget) => t.(machine := Some(ref)));
  }

  method RegisterVirtualIPMutation(ns: string, name: string, n: NicSpec, found: Found,
                                   b: CompositeMutationBuilder<NicTarget>)
    modifies b
    ensures b.partialSync <==> old(b.partialSync) || Unresolved(VipKey(ns, name, n), found)
    ensures forall t :: RunAll(b.mutations, t) ==
              (var t' := RunAll(old(b.mutations), t);
               t'.(vip := Blocking(VipKey(ns, name, n), found, (r: UidRef) => r.name, t'.vip)))
  {
    if n.vip.None? {
      b.Add((t: NicTarget) => t.(vip := None));
      return;
    }
    var key := ObjKey(VirtualIP, ns, NicVipName(name, n.vip.value));
    if key !in found {
      b.partialSync := true;
      return;
    }
    var vip := found[key].name;
    b.Add((t: NicTarget) => t.(vip := Some(vip)));
  }

  method ApplyNicTarget(ns: string, name: string, n: NicSpec, found: Found, isNew: bool, t: NicTarget)
    returns (r: Result<NicTarget, ApplyError>)
    ensures r == if isNew && NicPartial(ns, name, n, found) then Failure(PartialCreate)
                 else Success(ApplyNic(ns, name, n, found, t))
  {
    var b := new CompositeMutationBuilder<NicTarget>();
    RegisterNicDefaultMutation(n, b);
    RegisterNetworkMutation(ns, n, found, b);
    RegisterMachineMutation(ns, n, found, b);
    RegisterVirtualIPMutation(ns, name, n, found, b);
    r := b.Mutate(isNew, t);
  }

  // ---------- Virtual IPs ----------

  lemma VipReference(ns: string, v: VipSpec, found: Found)
    ensures HoldsFound(ApplyVip(ns, v, found).target, NetworkInterface, ns, v.target, found)
  {
  }

  method ApplyVipTarget(ns: string, v: VipSpec, found: Found, t: VipTarget) returns (r: Result<VipTarget, ApplyError>)
    ensures r == Success(ApplyVip(ns, v, found))
    ensures HoldsFound(r.value.target, NetworkInterface, ns, v.target, found) && r.value.payload == v.payload
  {
    hide BestEffort, RefKey, Unresolved;
    VipReference(ns, v, found);
    var b := new CompositeMutationBuilder<VipTarget>();
    var nic := if v.target.Some? then Some(ObjKey(NetworkInterface, ns, v.target.value.name)) else None;
    if nic.None? || nic.value !in found {
      b.Add((t: VipTarget) => t.(target := None));
    } else {
      var ref := found[nic.value];
      b.Add((t: VipTarget) => t.(target := Some(ref)));
    }
    b.Add((t: VipTarget) => t.(payload := v.payload));
    r := b.Mutate(true, t);
  }

  // ---------- Volumes ----------

  method RegisterVolumeSecretMutation(ns: string, v: VolumeSpec, found: Found,
                                      b: CompositeMutationBuilder<VolumeTarget>)
    modifies b
    ensures b.partialSync <==> old(b.partialSync) || Unresolved(SecretKey(ns, v.imagePullSecret), found)
    ensures forall t :: RunAll(b.mutations, t) ==
              (var t' := RunAll(old(b.mutations), t);
               t'.(imagePullSecret :=
                 Blocking(SecretKey(ns, v.imagePullSecret), found, (r: UidRef) => r.name, t'.imagePullSecret)))
  {
    if v.imagePullSecret.None? {
      b.Add((t: VolumeTarget) => t.(imagePullSecret := None));
      return;
    }
    var key := ObjKey(Secret, ns, v.imagePullSecret.value);
    if key !in found {
      b.partialSync := true;
      return;
    }
    var name := found[key].name;
    b.Add((t: VolumeTarget) => t.(imagePullSecret := Some(name)));
  }

  method RegisterClaimMutation(cfg: Config, ns: string, v: VolumeSpec, found: Found,
                               b: CompositeMutationBuilder<VolumeTarget>)
    modifies b
    ensures b.partialSync == old(b.partialSync)
    ensures forall t :: RunAll(b.mutations, t) ==
              (var t' := RunAll(old(b.mutations), t);
               if cfg.unclaimable then t'.(claim := None, unclaimable := true)
               else t'.(claim := RunAll(b.mutations, t).claim))
    ensures !cfg.unclaimable ==> forall t :: HoldsFound(RunAll(b.mutations, t).claim, Machine, ns, v.claim, found)
  {
    if cfg.unclaimable {
      b.Add((t: VolumeTarget) => t.(claim := None, unclaimable := true));
      return;
    }
    if v.claim.None? || ObjKey(Machine, ns, v.claim.value.name) !in found {
      b.Add((t: VolumeTarget) => t.(claim := None));
      return;
    }
    var ref := found[ObjKey(Machine, ns, v.claim.value.name)];
    b.Add((t: VolumeTarget) => t.(claim := Some(ref)));
  }

  method ApplyVolumeTarget(cfg: Config, ns: string, v: VolumeSpec, found: Found, isNew: bool, t: VolumeTarget)
    returns (r: Result<VolumeTarget, ApplyError>)
    ensures r == if isNew && Unresolved(SecretKey(ns, v.imagePullSecret), found) then Failure(PartialCreate)
                 else Success(ApplyVolume(cfg, ns, v, found, t))
  {
    var b := new CompositeMutationBuilder<VolumeTarget>();
    RegisterVolumeSecretMutation(ns, v, found, b);
    b.Add((t: VolumeTarget) => t.(pool := SetIfUnset(cfg.targetPool, t.pool), payload := v.payload));
    RegisterClaimMutation(cfg, ns, v, found, b);
    r := b.Mutate(isNew, t);
  }

  // ---------- All kinds ----------

  /** What the mutate function of a create-or-patch makes of the target, for any kind. */
  method Render(cfg: Config, k: Key, spec: Spec, found: Found, isNew: bool, t: TargetSpec)
    returns (r: Result<TargetSpec, ApplyError>)
    requires k.ObjKey? && Typed(k, spec) && TargetTyped(k.kind, t)
    ensures r == if Fails(spec) then Failure(Unrecognized)
                 else if isNew && Partial(k, spec, found) then Failure(PartialCreate)
                 else Success(Apply(cfg, k, spec, found, t))
  {
    match spec {
      case SecretSpec(data) => return Success(SecretTarget(data));
      case NetworkSpec => return Success(t);
      case VirtualIPSpec(v) =>
        var x := ApplyVipTarget(k.ns, v, found, t.vip);
        return Success(VirtualIPTarget(x.value));
      case NetworkInterfaceSpec(n) =>
        var x := ApplyNicTarget(k.ns, k.name, n, found, isNew, t.nic);
        return if x.Success? then Success(NetworkInterfaceTarget(x.value)) else Failure(x.error);
      case VolumeObjSpec(v) =>
        var x := ApplyVolumeTarget(cfg, k.ns, v, found, isNew, t.volume);
        return if x.Success? then Success(VolumeObjTarget(x.value)) else Failure(x.error);
      case MachineObjSpec(m) =>
        var x := ApplyMachineTarget(cfg, k.ns, k.name, m, found, isNew, t.machine);
        return if x.Success? then Success(MachineObjTarget(x.value)) else Failure(x.error);
    }
  }
}
