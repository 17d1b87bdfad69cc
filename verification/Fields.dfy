/**
  Target specs field by field, as a patch sees them: what a round writes into a field, and what a
  merge patch makes of it, whatever version of the object the round has read.
 */
module Fields {
  import opened Wrappers
  import opened Objects
  import opened Sync

  /** The fields of a target spec.  A reference has a field for each of its parts; a list is one field. */
  datatype Field =
    | Data | Payload | Pool | PullSecret | Unclaimable | NetworkName | VipName | Families | IPs
    | VolumeList | NicList
    | SecretRefName | SecretRefKey
    | RefName | RefUid

  datatype Value =
    | Number(n: int)
    | Text(text: string)
    | Flag(flag: bool)
    | Id(uid: Uid)
    | FamilyValues(families: seq<IPFamily>)
    | AddressValues(ips: seq<IP>)
    | VolumeValues(volumes: seq<Entry<TargetVolume>>)
    | NicValues(nics: seq<Entry<string>>)

  function TextIn(text: Option<string>): Option<Value> {
    if text.Some? then Some(Text(text.value)) else None
  }

  /** The reference by name and uid, for the kinds that have one. */
  function UidRefOf(t: TargetSpec): Option<UidRef> {
    match t
    case VirtualIPTarget(v) => v.target
    case NetworkInterfaceTarget(n) => n.machine
    case VolumeObjTarget(v) => v.claim
    case _ => None
  }

  function SecretRefOf(t: TargetSpec): Option<SecretKeyRef> {
    if t.MachineObjTarget? then t.machine.ignition else None
  }

  /** The value of a field, if the spec has it. */
  function Get(t: TargetSpec, f: Field): Option<Value> {
    match f
    case Data => if t.SecretTarget? then Some(Number(t.data)) else None
    case Payload =>
      (match t
       case VirtualIPTarget(v) => Some(Number(v.payload))
       case VolumeObjTarget(v) => Some(Number(v.payload))
       case MachineObjTarget(m) => Some(Number(m.payload))
       case _ => None)
    case Pool => TextIn(if t.VolumeObjTarget? then t.volume.pool else if t.MachineObjTarget? then t.machine.pool else None)
    case PullSecret =>
      TextIn(if t.VolumeObjTarget? then t.volume.imagePullSecret
             else if t.MachineObjTarget? then t.machine.imagePullSecret
             else None)
    case Unclaimable => if t.VolumeObjTarget? then Some(Flag(t.volume.unclaimable)) else None
    case NetworkName => if t.NetworkInterfaceTarget? then Some(Text(t.nic.network)) else None
    case VipName => if t.NetworkInterfaceTarget? then TextIn(t.nic.vip) else None
    case Families => if t.NetworkInterfaceTarget? then Some(FamilyValues(t.nic.families)) else None
    case IPs => if t.NetworkInterfaceTarget? then Some(AddressValues(t.nic.ips)) else None
    case VolumeList => if t.MachineObjTarget? then Some(VolumeValues(t.machine.volumes)) else None
    case NicList => if t.MachineObjTarget? then Some(NicValues(t.machine.nics)) else None
    case SecretRefName => TextIn(if SecretRefOf(t).Some? then Some(SecretRefOf(t).value.name) else None)
    case SecretRefKey => TextIn(if SecretRefOf(t).Some? then Some(SecretRefOf(t).value.key) else None)
    case RefName => TextIn(if UidRefOf(t).Some? then Some(UidRefOf(t).value.name) else None)
    case RefUid => if UidRefOf(t).Some? then Some(Id(UidRefOf(t).value.uid)) else None
  }

  lemma RefsDetermined(t: TargetSpec, t': TargetSpec)
    requires forall f :: Get(t, f) == Get(t', f)
    ensures UidRefOf(t) == UidRefOf(t') && SecretRefOf(t) == SecretRefOf(t')
  {
    assert Get(t, RefName) == Get(t', RefName) && Get(t, RefUid) == Get(t', RefUid);
    assert Get(t, SecretRefName) == Get(t', SecretRefName) && Get(t, SecretRefKey) == Get(t', SecretRefKey);
  }

  lemma MachineDetermined(m: MachineTarget, m': MachineTarget)
    requires forall f :: Get(MachineObjTarget(m), f) == Get(MachineObjTarget(m'), f)
    ensures m == m'
  {
    var t, t' := MachineObjTarget(m), MachineObjTarget(m');
    RefsDetermined(t, t');
    assert Get(t, Pool) == Get(t', Pool) && Get(t, PullSecret) == Get(t', PullSecret) && Get(t, Payload) == Get(t', Payload);
    assert Get(t, VolumeList) == Get(t', VolumeList) && Get(t, NicList) == Get(t', NicList);
  }

  /** Nothing is lost: a spec is its fields. */
  lemma FieldsDetermine(kind: Kind, t: TargetSpec, t': TargetSpec)
    requires TargetTyped(kind, t) && TargetTyped(kind, t')
    requires forall f :: Get(t, f) == Get(t', f)
    ensures t == t'
  {
    if kind == Machine {
      hide Get;
      MachineDetermined(t.machine, t'.machine);
    } else {
      RefsDetermined(t, t');
      assert Get(t, Data) == Get(t', Data) && Get(t, Payload) == Get(t', Payload) && Get(t, Pool) == Get(t', Pool);
      assert Get(t, PullSecret) == Get(t', PullSecret) && Get(t, Unclaimable) == Get(t', Unclaimable);
      assert Get(t, NetworkName) == Get(t', NetworkName) && Get(t, VipName) == Get(t', VipName);
      assert Get(t, Families) == Get(t', Families) && Get(t, IPs) == Get(t', IPs);
    }
  }

  // ---------- Merge patches ----------

  /** The other part of a reference; any other field stands alone. */
  function Sibling(f: Field): Field {
    match f
    case SecretRefName => SecretRefKey
    case SecretRefKey => SecretRefName
    case RefName => RefUid
    case RefUid => RefName
    case _ => f
  }

  function Empty(f: Field): Option<Value> {
    match f
    case RefUid => Some(Id(0))
    case _ => Some(Text(""))
  }

  predicate IsPart(f: Field) {
    f.RefName? || f.RefUid? || f.SecretRefName? || f.SecretRefKey?
  }

  lemma PlainExactly(kind: Kind, base: TargetSpec, mutated: TargetSpec, live: TargetSpec, f: Field)
    requires TargetTyped(kind, base) && TargetTyped(kind, mutated) && TargetTyped(kind, live) && !IsPart(f)
    ensures Get(MergePatch(base, mutated, live), f) ==
            if Get(base, f) != Get(mutated, f) then Get(mutated, f) else Get(live, f)
  {
    hide PatchedRef, PatchedKeyRef;
  }

  lemma PartsExactly(kind: Kind, base: TargetSpec, mutated: TargetSpec, live: TargetSpec)
    requires TargetTyped(kind, base) && TargetTyped(kind, mutated) && TargetTyped(kind, live)
    ensures UidRefOf(MergePatch(base, mutated, live)) == PatchedRef(UidRefOf(base), UidRefOf(mutated), UidRefOf(live))
    ensures SecretRefOf(MergePatch(base, mutated, live)) ==
            PatchedKeyRef(SecretRefOf(base), SecretRefOf(mutated), SecretRefOf(live))
  {
    hide Patched;
  }

  /**
    A merge patch, field by field: what the mutation has changed has the new value afterwards, or is gone;
    what it has left as read has the value of the live object, however old the version that was read.
    Only where the live object has lost a reference of which one part is sent, the other part is empty.
   */
  lemma MergePatchExactly(kind: Kind, base: TargetSpec, mutated: TargetSpec, live: TargetSpec, f: Field)
    requires TargetTyped(kind, base) && TargetTyped(kind, mutated) && TargetTyped(kind, live)
    ensures Get(MergePatch(base, mutated, live), f) ==
            if Get(base, f) != Get(mutated, f) then Get(mutated, f)
            else if Get(live, f).None? && Get(base, f).Some? && Get(base, Sibling(f)) != Get(mutated, Sibling(f)) then Empty(f)
            else Get(live, f)
  {
    if IsPart(f) {
      hide MergePatch;
      PartsExactly(kind, base, mutated, live);
    } else {
      hide MergePatch, Get;
      PlainExactly(kind, base, mutated, live, f);
      assert Sibling(f) == f;
    }
  }

  // ---------- What a round writes ----------

  /** The source object names this peer by name and uid. */
  ghost predicate NamesPeer(cfg: Config, k: Key, spec: Spec, d: Key)
    requires k.ObjKey? && Typed(k, spec)
  {
    match spec
    case VirtualIPSpec(v) => v.target.Some? && d == ObjKey(NetworkInterface, k.ns, v.target.value.name)
    case NetworkInterfaceSpec(n) => n.machine.Some? && d == ObjKey(Machine, k.ns, n.machine.value.name)
    case VolumeObjSpec(v) => !cfg.unclaimable && v.claim.Some? && d == ObjKey(Machine, k.ns, v.claim.value.name)
    case _ => false
  }

  /** A round leaves a reference by uid exactly if the peer that the source names was found, and to what was found. */
  lemma UidRefExactly(cfg: Config, k: Key, spec: Spec, found: Found, t: TargetSpec, r: UidRef)
    requires k.ObjKey? && Typed(k, spec) && TargetTyped(k.kind, t)
    ensures UidRefOf(Apply(cfg, k, spec, found, t)) == Some(r) <==>
            exists d :: NamesPeer(cfg, k, spec, d) && d in found && r == found[d]
  {
    var peer :=
      match spec
      case VirtualIPSpec(v) => RefKey(NetworkInterface, k.ns, v.target)
      case NetworkInterfaceSpec(n) => RefKey(Machine, k.ns, n.machine)
      case VolumeObjSpec(v) => if cfg.unclaimable then None else RefKey(Machine, k.ns, v.claim)
      case _ => None;
    assert forall d :: NamesPeer(cfg, k, spec, d) <==> peer == Some(d);
  }

  predicate HasPool(kind: Kind) {
    kind == Volume || kind == Machine
  }

  /** A round sets the target pool only where there is none yet, and makes a volume unclaimable but never claimable. */
  lemma PoolExactly(cfg: Config, k: Key, spec: Spec, found: Found, t: TargetSpec)
    requires k.ObjKey? && Typed(k, spec) && TargetTyped(k.kind, t)
    ensures Get(Apply(cfg, k, spec, found, t), Pool) ==
            if HasPool(k.kind) && cfg.targetPool != "" && Get(t, Pool).None? then Some(Text(cfg.targetPool)) else Get(t, Pool)
    ensures Get(Apply(cfg, k, spec, found, t), Unclaimable) ==
            if k.kind == Volume && cfg.unclaimable then Some(Flag(true)) else Get(t, Unclaimable)
  {
  }

  // ---------- Which peers ----------

  /** The source object refers to this one in a way that blocks: by what is written in its spec, in its own namespace. */
  ghost predicate RefersBlocking(k: Key, spec: Spec, d: Key)
    requires k.ObjKey? && Typed(k, spec)
  {
    && d.ObjKey? && d.ns == k.ns
    && match spec
       case NetworkInterfaceSpec(n) =>
         || (d.kind == Network && d.name == n.network)
         || (d.kind == VirtualIP && VipByName(k.name, n.vip) == Some(d.name))
       case VolumeObjSpec(v) => d.kind == Secret && v.imagePullSecret == Some(d.name)
       case MachineObjSpec(m) =>
         || (d.kind == Secret && (m.imagePullSecret == Some(d.name) || (m.ignition.Some? && m.ignition.value.name == d.name)))
         || (d.kind == Volume && exists i ::
               0 <= i < |m.volumes| && VolumeByName(k.name, m.volumes[i]).value.source == TargetVolumeRef(d.name) &&
               !m.volumes[i].value.source.NoVolumeSource?)
         || (d.kind == NetworkInterface && exists i ::
               0 <= i < |m.nics| && NicByName(k.name, m.nics[i]).value == d.name && !m.nics[i].value.NoNicSource?)
       case _ => false
  }

  /** The peers of a round are those that the spec refers to, in the namespace of the object, and no others. */
  lemma PeersExactly(cfg: Config, k: Key, spec: Spec, d: Key)
    requires k.ObjKey? && Typed(k, spec)
    ensures d in BlockingPeers(k, spec) <==> RefersBlocking(k, spec, d)
    ensures d in BestEffortPeers(cfg, k, spec) <==> NamesPeer(cfg, k, spec, d)
  {
    if spec.MachineObjSpec? {
      var m := spec.machine;
      assert forall i :: 0 <= i < |m.volumes| ==> (EntryVolumeName(k.name, m.volumes[i]) == Some(d.name) <==>
          VolumeByName(k.name, m.volumes[i]).value.source == TargetVolumeRef(d.name) && !m.volumes[i].value.source.NoVolumeSource?);
      assert forall i :: 0 <= i < |m.nics| ==> (EntryNicName(k.name, m.nics[i]) == Some(d.name) <==>
          NicByName(k.name, m.nics[i]).value == d.name && !m.nics[i].value.NoNicSource?);
    }
  }
}
