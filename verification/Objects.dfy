/**
  The objects of the two clusters.  A source object carries a `Spec`, a target object
  a `TargetSpec`.  Fields that the broker copies without looking at them (classes,
  images, EFI variables, secret data, ...) are folded into one opaque `payload`.
 */
module Objects {
  import opened Wrappers

  type Uid = nat

  datatype Kind = Secret | Network | VirtualIP | NetworkInterface | Volume | Machine

  /** The name of a source object: a namespace, or an object of some kind inside one. */
  datatype Key =
    | NsKey(name: string)
    | ObjKey(kind: Kind, ns: string, name: string)

  /** A reference by name and uid, as in `spec.machineRef`, `spec.claimRef` and `spec.targetRef`. */
  datatype UidRef = UidRef(name: string, uid: Uid)

  /** An element of a list that is keyed by name, such as `spec.volumes`. */
  datatype Entry<T> = Entry(name: string, value: T)

  datatype VolumeSource =
    | EmptyDisk(size: int)
    | VolumeRef(ref: string)
    | EphemeralVolume
    | NoVolumeSource

  datatype MachineVolume = MachineVolume(device: string, source: VolumeSource)

  datatype NicSource =
    | NicRef(ref: string)
    | EphemeralNic
    | NoNicSource

  datatype VipSource =
    | VipRef(ref: string)
    | EphemeralVip
    | NoVipSource

  datatype IPFamily = IPv4 | IPv6

  datatype IP = IP(family: IPFamily, address: int)

  datatype SecretKeyRef = SecretKeyRef(name: string, key: string)

  datatype MachineSpec = MachineSpec(
    pool: Option<string>,
    imagePullSecret: Option<string>,
    ignition: Option<SecretKeyRef>,
    volumes: seq<Entry<MachineVolume>>,
    nics: seq<Entry<NicSource>>,
    volumeBound: seq<Entry<bool>>, // status.volumes: is the phase Bound?
    nicBound: seq<Entry<bool>>,    // status.networkInterfaces: is the phase Bound?
    payload: int)

  datatype NicSpec = NicSpec(
    network: string,
    machine: Option<UidRef>,
    vip: Option<VipSource>,
    families: seq<IPFamily>,
    statusIPs: seq<IP>)

  datatype VipSpec = VipSpec(target: Option<UidRef>, payload: int)

  datatype VolumeSpec = VolumeSpec(imagePullSecret: Option<string>, claim: Option<UidRef>, payload: int)

  /** What the broker reads of a source object, status fields included. */
  datatype Spec =
    | NamespaceSpec
    | SecretSpec(data: int)
    | NetworkSpec
    | VirtualIPSpec(vip: VipSpec)
    | NetworkInterfaceSpec(nic: NicSpec)
    | VolumeObjSpec(volume: VolumeSpec)
    | MachineObjSpec(machine: MachineSpec)

  /** An object of a kind has the spec of that kind. */
  predicate Typed(k: Key, spec: Spec) {
    match k
    case NsKey(_) => spec.NamespaceSpec?
    case ObjKey(kind, _, _) =>
      match kind
      case Secret => spec.SecretSpec?
      case Network => spec.NetworkSpec?
      case VirtualIP => spec.VirtualIPSpec?
      case NetworkInterface => spec.NetworkInterfaceSpec?
      case Volume => spec.VolumeObjSpec?
      case Machine => spec.MachineObjSpec?
  }

  datatype TargetVolumeSource = TargetEmptyDisk(size: int) | TargetVolumeRef(ref: string)

  datatype TargetVolume = TargetVolume(device: string, source: TargetVolumeSource)

  datatype MachineTarget = MachineTarget(
    imagePullSecret: Option<string>,
    ignition: Option<SecretKeyRef>,
    volumes: seq<Entry<TargetVolume>>,
    nics: seq<Entry<string>>,
    pool: Option<string>,
    payload: int)

  datatype NicTarget = NicTarget(
    network: string,
    machine: Option<UidRef>,
    vip: Option<string>,
    families: seq<IPFamily>,
    ips: seq<IP>)

  datatype VipTarget = VipTarget(target: Option<UidRef>, payload: int)

  datatype VolumeTarget = VolumeTarget(
    imagePullSecret: Option<string>,
    claim: Option<UidRef>,
    unclaimable: bool,
    pool: Option<string>,
    payload: int)

  datatype TargetSpec =
    | SecretTarget(data: int)
    | NetworkTarget
    | VirtualIPTarget(vip: VipTarget)
    | NetworkInterfaceTarget(nic: NicTarget)
    | VolumeObjTarget(volume: VolumeTarget)
    | MachineObjTarget(machine: MachineTarget)

  predicate TargetTyped(kind: Kind, spec: TargetSpec) {
    match kind
    case Secret => spec.SecretTarget?
    case Network => spec.NetworkTarget?
    case VirtualIP => spec.VirtualIPTarget?
    case NetworkInterface => spec.NetworkInterfaceTarget?
    case Volume => spec.VolumeObjTarget?
    case Machine => spec.MachineObjTarget?
  }

  /** The spec of a target object that is about to be created. */
  function ZeroTarget(kind: Kind): (t: TargetSpec)
    ensures TargetTyped(kind, t)
  {
    match kind
    case Secret => SecretTarget(0)
    case Network => NetworkTarget
    case VirtualIP => VirtualIPTarget(VipTarget(None, 0))
    case NetworkInterface => NetworkInterfaceTarget(NicTarget("", None, None, [], []))
    case Volume => VolumeObjTarget(VolumeTarget(None, None, false, None, 0))
    case Machine => MachineObjTarget(MachineTarget(None, None, [], [], None, 0))
  }

  /** How one broker process is set up. */
  datatype Config = Config(
    pool: string,       // the source pool this broker serves
    targetPool: string, // the fixed target pool, "" when targets are selected by labels
    unclaimable: bool)  // whether target volumes are made unclaimable

  predicate InPool(m: MachineSpec, pool: string) {
    m.pool == Some(pool)
  }

  /** The name the machine controller gives to an object it generates for a machine's list entry. */
  function EphemeralName(machine: string, entry: string): string {
    machine + "-" + entry
  }

  /** The volume a list entry of a machine stands for, if it stands for one at all. */
  function EntryVolumeName(machine: string, e: Entry<MachineVolume>): Option<string> {
    match e.value.source
    case VolumeRef(ref) => Some(ref)
    case EphemeralVolume => Some(EphemeralName(machine, e.name))
    case EmptyDisk(_) => None
    case NoVolumeSource => None
  }

  /** The network interface a list entry of a machine stands for, if it stands for one at all. */
  function EntryNicName(machine: string, e: Entry<NicSource>): Option<string> {
    match e.value
    case NicRef(ref) => Some(ref)
    case EphemeralNic => Some(EphemeralName(machine, e.name))
    case NoNicSource => None
  }

  predicate MachineHasVolume(machine: string, m: MachineSpec, volume: string) {
    exists i :: 0 <= i < |m.volumes| && EntryVolumeName(machine, m.volumes[i]) == Some(volume)
  }

  predicate MachineHasNic(machine: string, m: MachineSpec, nic: string) {
    exists i :: 0 <= i < |m.nics| && EntryNicName(machine, m.nics[i]) == Some(nic)
  }

  /** The virtual IP a network interface refers to; "" when its source is empty. */
  function NicVipName(nic: string, source: VipSource): string {
    match source
    case VipRef(ref) => ref
    case EphemeralVip => nic
    case NoVipSource => ""
  }
}
