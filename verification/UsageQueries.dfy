/**
  The usage queries as programs, on one snapshot of the source cluster: get the object a reference
  names, or list those that may refer, and follow them to a machine of the pool.
 */
module UsageQueries {
  import opened Wrappers
  import opened Objects
  import opened Usage

  method NicNames(machine: string, m: MachineSpec) returns (names: set<string>)
    ensures forall n :: n in names <==> ListsNic(machine, m, n)
  {
    names := {};
    for i := 0 to |m.nics|
      invariant forall n :: n in names <==> exists j :: 0 <= j < i && EntryNicName(machine, m.nics[j]) == Some(n)
    {
      match m.nics[i].value {
        case NicRef(ref) => names := names + {ref};
        case EphemeralNic => names := names + {EphemeralName(machine, m.nics[i].name)};
        case NoNicSource =>
      }
    }
  }

  method VolumeNames(machine: string, m: MachineSpec) returns (names: set<string>)
    ensures forall n :: n in names <==> ListsVolume(machine, m, n)
  {
    names := {};
    for i := 0 to |m.volumes|
      invariant forall n :: n in names <==> exists j :: 0 <= j < i && EntryVolumeName(machine, m.volumes[j]) == Some(n)
    {
      match m.volumes[i].value.source {
        case VolumeRef(ref) => names := names + {ref};
        case EphemeralVolume => names := names + {EphemeralName(machine, m.volumes[i].name)};
        case _ =>
      }
    }
  }

  /** `IsNetworkInterfaceUsed`. */
  method NetworkInterfaceUsed(g: Store, pool: string, nk: Key, n: NicSpec) returns (used: bool)
    requires nk.ObjKey?
    ensures used <==> exists mk :: NicReason(g, pool, nk, n, mk)
  {
    if n.machine.None? {
      return false;
    }
    var ref := n.machine.value;
    var mk := ObjKey(Machine, nk.ns, ref.name);
    if mk !in g || !g[mk].spec.MachineObjSpec? {
      return false;
    }
    var machine := g[mk].spec.machine;
    var names := NicNames(ref.name, machine);
    used := machine.pool == Some(pool) && ref.uid == g[mk].uid && nk.name in names;
    assert used <==> NicReason(g, pool, nk, n, mk);
  }

  /** `IsVolumeUsedByMachineInMachinePool`. */
  method VolumeInUse(g: Store, pool: string, vk: Key, v: VolumeSpec) returns (used: bool)
    requires vk.ObjKey?
    ensures used <==> exists mk :: VolumeReason(g, pool, vk, v, mk)
  {
    if v.claim.None? {
      return false;
    }
    var ref := v.claim.value;
    var mk := ObjKey(Machine, vk.ns, ref.name);
    if mk !in g || !g[mk].spec.MachineObjSpec? {
      return false;
    }
    var machine := g[mk].spec.machine;
    var names := VolumeNames(ref.name, machine);
    used := machine.pool == Some(pool) && ref.uid == g[mk].uid && vk.name in names;
    assert used <==> VolumeReason(g, pool, vk, v, mk);
  }

  /** `IsVirtualIPUsed`: the uid of the reference to the network interface is not compared. */
  method VirtualIPUsed(g: Store, pool: string, ns: string, v: VipSpec) returns (used: bool)
    ensures used <==> exists nk, mk :: UsedNic(g, pool, ns, nk, mk) && v.target.Some? && nk.name == v.target.value.name
  {
    hide NicReason;
    if v.target.None? {
      return false;
    }
    var nk := ObjKey(NetworkInterface, ns, v.target.value.name);
    if nk !in g || !g[nk].spec.NetworkInterfaceSpec? {
      return false;
    }
    used := NetworkInterfaceUsed(g, pool, nk, g[nk].spec.nic);
    assert forall mk :: UsedNic(g, pool, ns, nk, mk) <==> NicReason(g, pool, nk, g[nk].spec.nic, mk);
  }

  /** `IsNetworkUsed`: list by the index, or list the namespace and skip what refers to other networks. */
  method NetworkUsed(g: Store, pool: string, ns: string, network: string, indexed: bool) returns (used: bool)
    ensures used <==> exists nk, mk :: UsedNic(g, pool, ns, nk, mk) && g[nk].spec.nic.network == network
  {
    hide NicReason;
    var nics := set k | k in g && Stores(g, NetworkInterface, ns, k) && (indexed ==> g[k].spec.nic.network == network);
    var pending := nics;
    while pending != {}
      invariant pending <= nics
      invariant forall nk, mk :: nk in nics - pending && UsedNic(g, pool, ns, nk, mk) ==> g[nk].spec.nic.network != network
    {
      var nk :| nk in pending;
      pending := pending - {nk};
      if g[nk].spec.nic.network != network {
        continue;
      }
      var uses := NetworkInterfaceUsed(g, pool, nk, g[nk].spec.nic);
      assert forall mk :: UsedNic(g, pool, ns, nk, mk) <==> NicReason(g, pool, nk, g[nk].spec.nic, mk);
      if uses {
        return true;
      }
    }
    assert forall nk, mk :: UsedNic(g, pool, ns, nk, mk) ==> Stores(g, NetworkInterface, ns, nk);
    return false;
  }

  /** `NamespaceUsed` as it is asked: of the cache with the pool, then without. */
  method NamespaceInUse(g: Store, pool: string, ns: string, live: bool) returns (used: bool)
    ensures used <==> exists mk :: mk in g && Stores(g, Machine, ns, mk) && (live || InPool(g[mk].spec.machine, pool))
  {
    var machines := set mk | mk in g && Stores(g, Machine, ns, mk) && (live || InPool(g[mk].spec.machine, pool));
    used := machines != {};
    assert forall mk :: mk in machines <==> mk in g && Stores(g, Machine, ns, mk) && (live || InPool(g[mk].spec.machine, pool));
    assert used <==> exists mk :: mk in machines;
  }

  /** The query for any kind, on the cache or live.  `Dependents` has the queries for secrets call by call. */
  method Ask(g: Store, pool: string, k: Key, spec: Spec, live: bool) returns (wanted: bool)
    requires Typed(k, spec)
    ensures wanted == if live then WantedLive(g, pool, k, spec) else WantedCached(g, pool, k, spec)
  {
    hide NicUsed, VolumeUsed, NicReason, VolumeReason, SecretReferencedCached, NetworkUsedLive, NetworkUsedCached, VipUsed;
    match k {
      case NsKey(name) => wanted := NamespaceInUse(g, pool, name, live);
      case ObjKey(kind, ns, name) =>
        match kind {
          case Secret =>
            wanted := if live then SecretReferencedLive(g, pool, name) else SecretReferencedCached(g, pool, ns, name);
          case Network =>
            wanted := NetworkUsed(g, pool, ns, name, !live);
            NetworkUsedExactly(g, pool, ns, name);
            IndexRefinesScan(g, pool, ns, name);
          case VirtualIP =>
            wanted := VirtualIPUsed(g, pool, ns, spec.vip);
            VipUsedExactly(g, pool, ns, spec.vip);
          case NetworkInterface =>
            wanted := NetworkInterfaceUsed(g, pool, k, spec.nic);
            NicUsedExactly(g, pool, k, spec.nic);
          case Volume =>
            wanted := VolumeInUse(g, pool, k, spec.volume);
            VolumeUsedExactly(g, pool, k, spec.volume);
          case Machine => wanted := InPool(spec.machine, pool);
        }
    }
  }
}
