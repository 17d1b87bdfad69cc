/**
  What applying a target writes.  `found` holds the answers of the target lookups of one
  round: the keys that resolved, with the name and uid of their target.
 */
module Sync {
  import opened Wrappers
  import opened Objects
  import opened Merge

  type Found = map<Key, UidRef>

  // ---------- References ----------

  /** A reference that blocks: an unresolved one leaves the old value alone. */
  function Blocking<R>(key: Option<Key>, found: Found, image: UidRef -> R, unresolved: Option<R>): Option<R> {
    match key
    case None => None
    case Some(d) => if d in found then Some(image(found[d])) else unresolved
  }

  /** The reference is the target found for the peer that the source names; without one there is none. */
  ghost predicate HoldsFound(x: Option<UidRef>, kind: Kind, ns: string, ref: Option<UidRef>, found: Found) {
    && (x.Some? <==> ref.Some? && ObjKey(kind, ns, ref.value.name) in found)
    && (x.Some? ==> x.value == found[ObjKey(kind, ns, ref.value.name)])
  }

  /** A reference kept on a best effort basis: an unresolved one is cleared. */
  function BestEffort(key: Option<Key>, found: Found): Option<UidRef> {
    match key
    case None => None
    case Some(d) => if d in found then Some(found[d]) else None
  }

  predicate Unresolved(key: Option<Key>, found: Found) {
    key.Some? && key.value !in found
  }

  function SecretKey(ns: string, name: Option<string>): Option<Key> {
    match name
    case None => None
    case Some(n) => Some(ObjKey(Secret, ns, n))
  }

  function RefKey(kind: Kind, ns: string, ref: Option<UidRef>): Option<Key> {
    match ref
    case None => None
    case Some(r) => Some(ObjKey(kind, ns, r.name))
  }

  function IgnitionKey(ns: string, m: MachineSpec): Option<Key> {
    match m.ignition
    case None => None
    case Some(i) => Some(ObjKey(Secret, ns, i.name))
  }

  function VipKey(ns: string, name: string, n: NicSpec): Option<Key> {
    match n.vip
    case None => None
    case Some(v) => Some(ObjKey(VirtualIP, ns, NicVipName(name, v)))
  }

  function SetIfUnset(targetPool: string, pool: Option<string>): Option<string> {
    if targetPool != "" && pool.None? then Some(targetPool) else pool
  }

  // ---------- Machine lists ----------

  ghost predicate FirstUnder<T>(l: seq<Entry<T>>, n: string, i: int) {
    0 <= i < |l| && l[i].name == n && forall j :: 0 <= j < i ==> l[j].name != n
  }

  /** The first status entry under the name has the phase `Bound`. */
  ghost predicate IsBound(l: seq<Entry<bool>>, n: string) {
    exists i :: FirstUnder(l, n, i) && l[i].value
  }

  lemma IsBoundTail(l: seq<Entry<bool>>, n: string)
    requires l != [] && l[0].name != n
    ensures IsBound(l, n) <==> IsBound(l[1..], n)
  {
    var rest := l[1..];
    forall i
      ensures FirstUnder(l, n, i) <==> FirstUnder(rest, n, i - 1)
    {
      assert forall j :: 1 <= j < |l| ==> l[j] == rest[j - 1];
      assert forall j :: 0 <= j < |rest| ==> rest[j] == l[j + 1];
    }
    if i :| FirstUnder(rest, n, i) && rest[i].value {
      assert FirstUnder(l, n, i + 1);
    }
    if i :| FirstUnder(l, n, i) && l[i].value {
      assert FirstUnder(rest, n, i - 1);
    }
  }

  /** The status entry found first under the name decides whether the peer is bound. */
  function StatusBound(l: seq<Entry<bool>>, n: string): (bound: bool)
    ensures bound <==> IsBound(l, n)
  {
    if l == [] then false
    else if l[0].name == n then
      assert FirstUnder(l, n, 0);
      l[0].value
    else
      IsBoundTail(l, n);
      StatusBound(l[1..], n)
  }

  function VolumeImage(ns: string, name: string, m: MachineSpec, e: Entry<MachineVolume>, found: Found)
    : Option<TargetVolumeSource>
  {
    match e.value.source
    case EmptyDisk(size) => Some(TargetEmptyDisk(size))
    case NoVolumeSource => None
    case _ =>
      var d := ObjKey(Volume, ns, EntryVolumeName(name, e).value);
      if StatusBound(m.volumeBound, e.name) && d in found then Some(TargetVolumeRef(found[d].name)) else None
  }

  function VolumeItem(ns: string, name: string, m: MachineSpec, e: Entry<MachineVolume>, found: Found)
    : Item<TargetVolume>
  {
    match VolumeImage(ns, name, m, e, found)
    case None => Item(e.name, None)
    case Some(src) => Item(e.name, Some(TargetVolume(e.value.device, src)))
  }

  function VolumeRound(ns: string, name: string, m: MachineSpec, found: Found): Round<TargetVolume> {
    seq(|m.volumes|, i requires 0 <= i < |m.volumes| => VolumeItem(ns, name, m, m.volumes[i], found))
  }

  function NicItem(ns: string, name: string, m: MachineSpec, e: Entry<NicSource>, found: Found): Item<string> {
    match EntryNicName(name, e)
    case None => Item(e.name, None)
    case Some(nic) =>
      var d := ObjKey(NetworkInterface, ns, nic);
      if StatusBound(m.nicBound, e.name) && d in found then Item(e.name, Some(found[d].name)) else Item(e.name, None)
  }

  function NicRound(ns: string, name: string, m: MachineSpec, found: Found): Round<string> {
    seq(|m.nics|, i requires 0 <= i < |m.nics| => NicItem(ns, name, m, m.nics[i], found))
  }

  // ---------- One round per kind ----------

  predicate Malformed(m: MachineSpec) {
    || (exists i :: 0 <= i < |m.volumes| && m.volumes[i].value.source.NoVolumeSource?)
    || (exists i :: 0 <= i < |m.nics| && m.nics[i].value.NoNicSource?)
  }

  predicate RoundPartial<T>(round: Round<T>) {
    exists i :: 0 <= i < |round| && round[i].image.None?
  }

  predicate MachinePartial(ns: string, name: string, m: MachineSpec, found: Found) {
    || Unresolved(SecretKey(ns, m.imagePullSecret), found)
    || Unresolved(IgnitionKey(ns, m), found)
    || RoundPartial(VolumeRound(ns, name, m, found))
    || RoundPartial(NicRound(ns, name, m, found))
  }

  function WithPullSecret(ns: string, m: MachineSpec, found: Found, t: MachineTarget): MachineTarget {
    t.(imagePullSecret := Blocking(SecretKey(ns, m.imagePullSecret), found, (r: UidRef) => r.name, t.imagePullSecret))
  }

  function WithIgnition(ns: string, m: MachineSpec, found: Found, t: MachineTarget): MachineTarget {
    t.(ignition := Blocking(IgnitionKey(ns, m), found,
      (r: UidRef) => SecretKeyRef(r.name, if m.ignition.Some? then m.ignition.value.key else ""), t.ignition))
  }

  function WithVolumes(ns: string, name: string, m: MachineSpec, found: Found, t: MachineTarget): MachineTarget {
    t.(volumes := MergeRound(t.volumes, VolumeRound(ns, name, m, found)))
  }

  function WithNics(ns: string, name: string, m: MachineSpec, found: Found, t: MachineTarget): MachineTarget {
    t.(nics := MergeRound(t.nics, NicRound(ns, name, m, found)))
  }

  function WithDefaults(cfg: Config, m: MachineSpec, t: MachineTarget): MachineTarget {
    t.(pool := SetIfUnset(cfg.targetPool, t.pool), payload := m.payload)
  }

  function ApplyMachine(cfg: Config, ns: string, name: string, m: MachineSpec, found: Found, t: MachineTarget)
    : MachineTarget
  {
    WithDefaults(cfg, m, WithNics(ns, name, m, found, WithVolumes(ns, name, m, found,
      WithIgnition(ns, m, found, WithPullSecret(ns, m, found, t)))))
  }

  predicate NicIPsReady(n: NicSpec) {
    |n.statusIPs| == |n.families|
  }

  function Families(ips: seq<IP>): seq<IPFamily> {
    seq(|ips|, i requires 0 <= i < |ips| => ips[i].family)
  }

  predicate NicPartial(ns: string, name: string, n: NicSpec, found: Found) {
    || !NicIPsReady(n)
    || ObjKey(Network, ns, n.network) !in found
    || Unresolved(VipKey(ns, name, n), found)
  }

  function ApplyNic(ns: string, name: string, n: NicSpec, found: Found, t: NicTarget): NicTarget {
    var d := ObjKey(Network, ns, n.network);
    NicTarget(
      if d in found then found[d].name else t.network,
      BestEffort(RefKey(Machine, ns, n.machine), found),
      Blocking(VipKey(ns, name, n), found, (r: UidRef) => r.name, t.vip),
      if NicIPsReady(n) then Families(n.statusIPs) else t.families,
      if NicIPsReady(n) then n.statusIPs else t.ips)
  }

  function ApplyVolume(cfg: Config, ns: string, v: VolumeSpec, found: Found, t: VolumeTarget): VolumeTarget {
    VolumeTarget(
      Blocking(SecretKey(ns, v.imagePullSecret), found, (r: UidRef) => r.name, t.imagePullSecret),
      if cfg.unclaimable then None else BestEffort(RefKey(Machine, ns, v.claim), found),
      cfg.unclaimable || t.unclaimable,
      SetIfUnset(cfg.targetPool, t.pool),
      v.payload)
  }

  function ApplyVip(ns: string, v: VipSpec, found: Found): VipTarget {
    VipTarget(BestEffort(RefKey(NetworkInterface, ns, v.target), found), v.payload)
  }

  predicate Fails(spec: Spec) {
    spec.MachineObjSpec? && Malformed(spec.machine)
  }

  /** Whether the round ends with `PartialSync` set. */
  predicate Partial(k: Key, spec: Spec, found: Found)
    requires k.ObjKey? && Typed(k, spec)
  {
    match spec
    case NetworkInterfaceSpec(n) => NicPartial(k.ns, k.name, n, found)
    case VolumeObjSpec(v) => Unresolved(SecretKey(k.ns, v.imagePullSecret), found)
    case MachineObjSpec(m) => MachinePartial(k.ns, k.name, m, found)
    case _ => false
  }

  /** The target spec after the registered mutations have run on `t`. */
  function Apply(cfg: Config, k: Key, spec: Spec, found: Found, t: TargetSpec): (r: TargetSpec)
    requires k.ObjKey? && Typed(k, spec) && TargetTyped(k.kind, t)
    ensures TargetTyped(k.kind, r)
  {
    match spec
    case SecretSpec(data) => SecretTarget(data)
    case NetworkSpec => t
    case VirtualIPSpec(v) => VirtualIPTarget(ApplyVip(k.ns, v, found))
    case NetworkInterfaceSpec(n) => NetworkInterfaceTarget(ApplyNic(k.ns, k.name, n, found, t.nic))
    case VolumeObjSpec(v) => VolumeObjTarget(ApplyVolume(cfg, k.ns, v, found, t.volume))
    case MachineObjSpec(m) => MachineObjTarget(ApplyMachine(cfg, k.ns, k.name, m, found, t.machine))
  }

  // ---------- Merge patches ----------

  /** A field is sent only if the mutation changed it. */
  function Patched<T(==)>(base: T, mutated: T, live: T): T {
    if mutated == base then live else mutated
  }

  /**
    A reference is patched field by field, so name and uid may come from different versions; what nobody
    sends is empty.
   */
  function PatchedRef(base: Option<UidRef>, mutated: Option<UidRef>, live: Option<UidRef>): Option<UidRef> {
    if mutated == base then live
    else if base.None? || mutated.None? then mutated
    else
      var b, m, l := base.value, mutated.value, live.GetOr(UidRef("", 0));
      Some(UidRef(Patched(b.name, m.name, l.name), Patched(b.uid, m.uid, l.uid)))
  }

  function PatchedKeyRef(base: Option<SecretKeyRef>, mutated: Option<SecretKeyRef>, live: Option<SecretKeyRef>)
    : Option<SecretKeyRef>
  {
    if mutated == base then live
    else if base.None? || mutated.None? then mutated
    else
      var b, m, l := base.value, mutated.value, live.GetOr(SecretKeyRef("", ""));
      Some(SecretKeyRef(Patched(b.name, m.name, l.name), Patched(b.key, m.key, l.key)))
  }

  /** What a merge patch, from the object that was read to the mutated one, makes of the live object. */
  function MergePatch(base: TargetSpec, mutated: TargetSpec, live: TargetSpec): TargetSpec {
    match (base, mutated, live)
    case (SecretTarget(b), SecretTarget(m), SecretTarget(l)) => SecretTarget(Patched(b, m, l))
    case (NetworkTarget, NetworkTarget, NetworkTarget) => NetworkTarget
    case (VirtualIPTarget(b), VirtualIPTarget(m), VirtualIPTarget(l)) =>
      VirtualIPTarget(VipTarget(PatchedRef(b.target, m.target, l.target), Patched(b.payload, m.payload, l.payload)))
    case (NetworkInterfaceTarget(b), NetworkInterfaceTarget(m), NetworkInterfaceTarget(l)) =>
      NetworkInterfaceTarget(NicTarget(
        Patched(b.network, m.network, l.network), PatchedRef(b.machine, m.machine, l.machine),
        Patched(b.vip, m.vip, l.vip), Patched(b.families, m.families, l.families), Patched(b.ips, m.ips, l.ips)))
    case (VolumeObjTarget(b), VolumeObjTarget(m), VolumeObjTarget(l)) =>
      VolumeObjTarget(VolumeTarget(
        Patched(b.imagePullSecret, m.imagePullSecret, l.imagePullSecret), PatchedRef(b.claim, m.claim, l.claim),
        Patched(b.unclaimable, m.unclaimable, l.unclaimable), Patched(b.pool, m.pool, l.pool),
        Patched(b.payload, m.payload, l.payload)))
    case (MachineObjTarget(b), MachineObjTarget(m), MachineObjTarget(l)) =>
      MachineObjTarget(MachineTarget(
        Patched(b.imagePullSecret, m.imagePullSecret, l.imagePullSecret), PatchedKeyRef(b.ignition, m.ignition, l.ignition),
        Patched(b.volumes, m.volumes, l.volumes), Patched(b.nics, m.nics, l.nics),
        Patched(b.pool, m.pool, l.pool), Patched(b.payload, m.payload, l.payload)))
    case _ => live
  }

  /** On the version that was read the patch puts the mutated object in place. */
  lemma MergePatchUpToDate(kind: Kind, base: TargetSpec, mutated: TargetSpec)
    requires TargetTyped(kind, base) && TargetTyped(kind, mutated)
    ensures MergePatch(base, mutated, base) == mutated
  {
  }

  lemma MergePatchTyped(kind: Kind, base: TargetSpec, mutated: TargetSpec, live: TargetSpec)
    requires TargetTyped(kind, base) && TargetTyped(kind, mutated) && TargetTyped(kind, live)
    ensures TargetTyped(kind, MergePatch(base, mutated, live))
  {
  }

  // ---------- Dependencies ----------

  function KeySet(key: Option<Key>): set<Key> {
    if key.Some? then {key.value} else {}
  }

  /** The peers that must resolve before a target may be created. */
  ghost function BlockingPeers(k: Key, spec: Spec): set<Key>
    requires k.ObjKey? && Typed(k, spec)
  {
    match spec
    case NetworkInterfaceSpec(n) => {ObjKey(Network, k.ns, n.network)} + KeySet(VipKey(k.ns, k.name, n))
    case VolumeObjSpec(v) => KeySet(SecretKey(k.ns, v.imagePullSecret))
    case MachineObjSpec(m) =>
      KeySet(SecretKey(k.ns, m.imagePullSecret)) + KeySet(IgnitionKey(k.ns, m)) +
      (set i | 0 <= i < |m.volumes| && EntryVolumeName(k.name, m.volumes[i]).Some? ::
        ObjKey(Volume, k.ns, EntryVolumeName(k.name, m.volumes[i]).value)) +
      (set i | 0 <= i < |m.nics| && EntryNicName(k.name, m.nics[i]).Some? ::
        ObjKey(NetworkInterface, k.ns, EntryNicName(k.name, m.nics[i]).value))
    case _ => {}
  }

  /** The peers that are filled in once they exist, and cleared until then. */
  ghost function BestEffortPeers(cfg: Config, k: Key, spec: Spec): set<Key>
    requires k.ObjKey? && Typed(k, spec)
  {
    match spec
    case VirtualIPSpec(v) => KeySet(RefKey(NetworkInterface, k.ns, v.target))
    case NetworkInterfaceSpec(n) => KeySet(RefKey(Machine, k.ns, n.machine))
    case VolumeObjSpec(v) => if cfg.unclaimable then {} else KeySet(RefKey(Machine, k.ns, v.claim))
    case _ => {}
  }

  function KeySeq(key: Option<Key>): seq<Key> {
    if key.Some? then [key.value] else []
  }

  /** Only entries whose status is bound are looked up. */
  function VolumeLookups(ns: string, name: string, m: MachineSpec, l: seq<Entry<MachineVolume>>): seq<Key> {
    if l == [] then []
    else
      var e := l[|l| - 1];
      VolumeLookups(ns, name, m, l[..|l| - 1]) +
      if EntryVolumeName(name, e).Some? && StatusBound(m.volumeBound, e.name)
      then [ObjKey(Volume, ns, EntryVolumeName(name, e).value)] else []
  }

  function NicLookups(ns: string, name: string, m: MachineSpec, l: seq<Entry<NicSource>>): seq<Key> {
    if l == [] then []
    else
      var e := l[|l| - 1];
      NicLookups(ns, name, m, l[..|l| - 1]) +
      if EntryNicName(name, e).Some? && StatusBound(m.nicBound, e.name)
      then [ObjKey(NetworkInterface, ns, EntryNicName(name, e).value)] else []
  }

  /** The target lookups of one round, in the order in which the mutations are registered. */
  function LookupOrder(cfg: Config, k: Key, spec: Spec): seq<Key> {
    if k.NsKey? || !Typed(k, spec) then []
    else match spec
      case VirtualIPSpec(v) => KeySeq(RefKey(NetworkInterface, k.ns, v.target))
      case NetworkInterfaceSpec(n) =>
        [ObjKey(Network, k.ns, n.network)] + KeySeq(RefKey(Machine, k.ns, n.machine)) + KeySeq(VipKey(k.ns, k.name, n))
      case VolumeObjSpec(v) =>
        KeySeq(SecretKey(k.ns, v.imagePullSecret)) + if cfg.unclaimable then [] else KeySeq(RefKey(Machine, k.ns, v.claim))
      case MachineObjSpec(m) =>
        KeySeq(SecretKey(k.ns, m.imagePullSecret)) + KeySeq(IgnitionKey(k.ns, m)) +
        VolumeLookups(k.ns, k.name, m, m.volumes) + NicLookups(k.ns, k.name, m, m.nics)
      case _ => []
  }

  lemma {:induction false} VolumeLookupsMembers(ns: string, name: string, m: MachineSpec, l: seq<Entry<MachineVolume>>,
                                                d: Key)
    ensures d in VolumeLookups(ns, name, m, l) <==>
            exists i :: 0 <= i < |l| && EntryVolumeName(name, l[i]).Some? && StatusBound(m.volumeBound, l[i].name) &&
              d == ObjKey(Volume, ns, EntryVolumeName(name, l[i]).value)
  {
    if l != [] {
      VolumeLookupsMembers(ns, name, m, l[..|l| - 1], d);
      assert l == l[..|l| - 1] + [l[|l| - 1]];
    }
  }

  lemma {:induction false} NicLookupsMembers(ns: string, name: string, m: MachineSpec, l: seq<Entry<NicSource>>, d: Key)
    ensures d in NicLookups(ns, name, m, l) <==>
            exists i :: 0 <= i < |l| && EntryNicName(name, l[i]).Some? && StatusBound(m.nicBound, l[i].name) &&
              d == ObjKey(NetworkInterface, ns, EntryNicName(name, l[i]).value)
  {
    if l != [] {
      NicLookupsMembers(ns, name, m, l[..|l| - 1], d);
      assert l == l[..|l| - 1] + [l[|l| - 1]];
    }
  }

  /** Where the mutation that looks up peers of this kind stands among those of an object. */
  function Turn(peer: Kind): nat {
    match peer
    case Secret => 0
    case Network => 0
    case Machine => 1
    case Volume => 1
    case VirtualIP => 2
    case NetworkInterface => 2
  }

  ghost predicate OfTurn(l: seq<Key>, turn: nat) {
    forall i :: 0 <= i < |l| ==> l[i].ObjKey? && Turn(l[i].kind) == turn
  }

  lemma Consecutive(a: seq<Key>, b: seq<Key>, c: seq<Key>, i: nat, j: nat)
    requires OfTurn(a, 0) && OfTurn(b, 1) && OfTurn(c, 2) && i < j < |a + b + c|
    ensures var all := a + b + c; all[i].ObjKey? && all[j].ObjKey? && Turn(all[i].kind) <= Turn(all[j].kind)
  {
  }

  lemma LookupKinds(ns: string, name: string, m: MachineSpec)
    ensures OfTurn(VolumeLookups(ns, name, m, m.volumes), 1) && OfTurn(NicLookups(ns, name, m, m.nics), 2)
  {
    var volumes, nics := VolumeLookups(ns, name, m, m.volumes), NicLookups(ns, name, m, m.nics);
    hide VolumeLookups, NicLookups, EntryVolumeName, EntryNicName;
    forall i | 0 <= i < |volumes|
      ensures volumes[i].ObjKey? && volumes[i].kind == Volume
    {
      VolumeLookupsMembers(ns, name, m, m.volumes, volumes[i]);
    }
    forall i | 0 <= i < |nics|
      ensures nics[i].ObjKey? && nics[i].kind == NetworkInterface
    {
      NicLookupsMembers(ns, name, m, m.nics, nics[i]);
    }
  }

  /** Secrets are looked up before volumes and volumes before network interfaces; networks before machines before virtual IPs. */
  lemma LookupsInTurn(cfg: Config, k: Key, spec: Spec, i: nat, j: nat)
    requires k.ObjKey? && Typed(k, spec) && i < j < |LookupOrder(cfg, k, spec)|
    ensures var order := LookupOrder(cfg, k, spec);
            order[i].ObjKey? && order[j].ObjKey? && Turn(order[i].kind) <= Turn(order[j].kind)
  {
    if spec.MachineObjSpec? {
      var m := spec.machine;
      var secrets := KeySeq(SecretKey(k.ns, m.imagePullSecret)) + KeySeq(IgnitionKey(k.ns, m));
      LookupKinds(k.ns, k.name, m);
      hide VolumeLookups, NicLookups;
      Consecutive(secrets, VolumeLookups(k.ns, k.name, m, m.volumes), NicLookups(k.ns, k.name, m, m.nics), i, j);
    }
  }

  /** The parts of the source status that block like a reference does. */
  ghost predicate StatusReady(k: Key, spec: Spec)
    requires k.ObjKey? && Typed(k, spec)
  {
    match spec
    case NetworkInterfaceSpec(n) => |n.statusIPs| == |n.families|
    case MachineObjSpec(m) =>
      && (forall i :: 0 <= i < |m.volumes| && !m.volumes[i].value.source.EmptyDisk? ==>
            IsBound(m.volumeBound, m.volumes[i].name))
      && (forall i :: 0 <= i < |m.nics| ==> IsBound(m.nicBound, m.nics[i].name))
    case _ => true
  }

  /** Only peers are looked up, all that are best effort, and all that block once the status is ready. */
  lemma LookupOrderMembers(cfg: Config, k: Key, spec: Spec, d: Key)
    requires k.ObjKey? && Typed(k, spec)
    ensures d in LookupOrder(cfg, k, spec) ==> d in BlockingPeers(k, spec) || d in BestEffortPeers(cfg, k, spec)
    ensures d in BestEffortPeers(cfg, k, spec) ==> d in LookupOrder(cfg, k, spec)
    ensures d in BlockingPeers(k, spec) && StatusReady(k, spec) ==> d in LookupOrder(cfg, k, spec)
  {
    if spec.MachineObjSpec? {
      var m := spec.machine;
      VolumeLookupsMembers(k.ns, k.name, m, m.volumes, d);
      NicLookupsMembers(k.ns, k.name, m, m.nics, d);
      hide VolumeLookups, NicLookups, EntryVolumeName, EntryNicName;
    }
  }

  ghost predicate AllFound(peers: set<Key>, found: Found) {
    forall d :: d in peers ==> d in found
  }

  lemma VolumeRoundPartial(ns: string, name: string, m: MachineSpec, found: Found)
    requires !Malformed(m)
    ensures RoundPartial(VolumeRound(ns, name, m, found)) <==>
            exists i :: 0 <= i < |m.volumes| && !m.volumes[i].value.source.EmptyDisk? &&
              (!StatusBound(m.volumeBound, m.volumes[i].name) ||
               ObjKey(Volume, ns, EntryVolumeName(name, m.volumes[i]).value) !in found)
  {
    var round := VolumeRound(ns, name, m, found);
    forall i | 0 <= i < |m.volumes|
      ensures round[i].image.None? <==>
        (!m.volumes[i].value.source.EmptyDisk? &&
         (!StatusBound(m.volumeBound, m.volumes[i].name) ||
          ObjKey(Volume, ns, EntryVolumeName(name, m.volumes[i]).value) !in found))
    {
      assert round[i] == VolumeItem(ns, name, m, m.volumes[i], found);
    }
    if i :| 0 <= i < |round| && round[i].image.None? {
      assert !m.volumes[i].value.source.EmptyDisk?;
    }
  }

  lemma NicRoundPartial(ns: string, name: string, m: MachineSpec, found: Found)
    requires !Malformed(m)
    ensures RoundPartial(NicRound(ns, name, m, found)) <==>
            exists i :: 0 <= i < |m.nics| &&
              (!StatusBound(m.nicBound, m.nics[i].name) ||
               ObjKey(NetworkInterface, ns, EntryNicName(name, m.nics[i]).value) !in found)
  {
    var round := NicRound(ns, name, m, found);
    forall i | 0 <= i < |m.nics|
      ensures round[i].image.None? <==>
        (!StatusBound(m.nicBound, m.nics[i].name) ||
         ObjKey(NetworkInterface, ns, EntryNicName(name, m.nics[i]).value) !in found)
    {
      assert round[i] == NicItem(ns, name, m, m.nics[i], found);
    }
    if i :| 0 <= i < |round| && round[i].image.None? {
      assert round[i] == NicItem(ns, name, m, m.nics[i], found);
    }
  }

  lemma MachinePartialExactly(k: Key, m: MachineSpec, found: Found)
    requires k.ObjKey? && k.kind == Machine && !Malformed(m)
    ensures MachinePartial(k.ns, k.name, m, found) <==>
            !StatusReady(k, MachineObjSpec(m)) || !AllFound(BlockingPeers(k, MachineObjSpec(m)), found)
  {
    VolumeRoundPartial(k.ns, k.name, m, found);
    NicRoundPartial(k.ns, k.name, m, found);
    var peers := BlockingPeers(k, MachineObjSpec(m));
    forall i | 0 <= i < |m.volumes| && !m.volumes[i].value.source.EmptyDisk?
      ensures ObjKey(Volume, k.ns, EntryVolumeName(k.name, m.volumes[i]).value) in peers
    {
      assert EntryVolumeName(k.name, m.volumes[i]).Some?;
    }
    forall i | 0 <= i < |m.nics|
      ensures ObjKey(NetworkInterface, k.ns, EntryNicName(k.name, m.nics[i]).value) in peers
    {
      assert EntryNicName(k.name, m.nics[i]).Some?;
    }
  }

  /** A round is partial exactly if a blocking peer is unresolved or the source status is not ready. */
  lemma PartialExactly(k: Key, spec: Spec, found: Found)
    requires k.ObjKey? && Typed(k, spec) && !Fails(spec)
    ensures Partial(k, spec, found) <==>
            !StatusReady(k, spec) || !AllFound(BlockingPeers(k, spec), found)
  {
    if spec.MachineObjSpec? {
      MachinePartialExactly(k, spec.machine, found);
    }
  }

  ghost predicate Unbound(l: seq<Entry<bool>>, n: string) {
    forall j :: FirstUnder(l, n, j) ==> !l[j].value
  }

  /** The machine lists a volume or network interface that is no empty disk and whose first status is not `Bound`. */
  ghost predicate ListsUnbound(m: MachineSpec) {
    || (exists i :: 0 <= i < |m.volumes| && !m.volumes[i].value.source.EmptyDisk? && Unbound(m.volumeBound, m.volumes[i].name))
    || (exists i :: 0 <= i < |m.nics| && Unbound(m.nicBound, m.nics[i].name))
  }

  lemma NotFailing(m: MachineSpec)
    ensures Fails(MachineObjSpec(m)) <==> Malformed(m)
  {
  }

  /** Such an entry makes the round partial, whatever has a target, and a later status entry of its name does not help. */
  lemma UnboundIsPartial(k: Key, m: MachineSpec, found: Found)
    requires k.ObjKey? && k.kind == Machine && !Malformed(m) && ListsUnbound(m)
    ensures Partial(k, MachineObjSpec(m), found)
  {
    NotFailing(m);
    PartialExactly(k, MachineObjSpec(m), found);
    assert forall l, n :: Unbound(l, n) ==> !IsBound(l, n);
  }

  // ---------- The image of a source spec ----------

  /** A target is found under the name of its source. */
  ghost predicate NamePreserving(found: Found) {
    forall d :: d in found && d.ObjKey? ==> found[d].name == d.name
  }

  function VolumeByName(name: string, e: Entry<MachineVolume>): Entry<TargetVolume> {
    Entry(e.name, TargetVolume(e.value.device,
      match e.value.source
      case EmptyDisk(size) => TargetEmptyDisk(size)
      case VolumeRef(ref) => TargetVolumeRef(ref)
      case EphemeralVolume => TargetVolumeRef(name + "-" + e.name)
      case NoVolumeSource => TargetVolumeRef("")))
  }

  function NicByName(name: string, e: Entry<NicSource>): Entry<string> {
    Entry(e.name,
      match e.value
      case NicRef(ref) => ref
      case EphemeralNic => name + "-" + e.name
      case NoNicSource => "")
  }

  function VipByName(name: string, vip: Option<VipSource>): Option<string> {
    match vip
    case None => None
    case Some(VipRef(ref)) => Some(ref)
    case Some(EphemeralVip) => Some(name)
    case Some(NoVipSource) => Some("")
  }

  ghost predicate UidImage(kind: Kind, ns: string, ref: Option<UidRef>, found: Found, t: Option<UidRef>) {
    match ref
    case None => t.None?
    case Some(r) =>
      var d := ObjKey(kind, ns, r.name);
      d in found && t == Some(UidRef(r.name, found[d].uid))
  }

  ghost predicate PoolSet(cfg: Config, pool: Option<string>) {
    cfg.targetPool != "" ==> pool.Some?
  }

  /**
    The target is the image of the source: references name the peers of the same name, list
    entries stand in the order of the source, and uid references carry the uid of the target peer.
   */
  ghost predicate IsImage(cfg: Config, k: Key, spec: Spec, found: Found, t: TargetSpec)
    requires k.ObjKey? && Typed(k, spec) && TargetTyped(k.kind, t)
  {
    match spec
    case SecretSpec(data) => t.data == data
    case NetworkSpec => true
    case VirtualIPSpec(v) =>
      t.vip.payload == v.payload && UidImage(NetworkInterface, k.ns, v.target, found, t.vip.target)
    case NetworkInterfaceSpec(n) =>
      && t.nic.network == n.network
      && UidImage(Machine, k.ns, n.machine, found, t.nic.machine)
      && t.nic.vip == VipByName(k.name, n.vip)
      && t.nic.ips == n.statusIPs
      && |t.nic.families| == |n.statusIPs|
      && (forall i :: 0 <= i < |n.statusIPs| ==> t.nic.families[i] == n.statusIPs[i].family)
    case VolumeObjSpec(v) =>
      && t.volume.imagePullSecret == v.imagePullSecret
      && (if cfg.unclaimable then t.volume.claim.None? && t.volume.unclaimable
          else UidImage(Machine, k.ns, v.claim, found, t.volume.claim))
      && t.volume.payload == v.payload
      && PoolSet(cfg, t.volume.pool)
    case MachineObjSpec(m) =>
      && t.machine.imagePullSecret == m.imagePullSecret
      && t.machine.ignition == m.ignition
      && |t.machine.volumes| == |m.volumes|
      && (forall i :: 0 <= i < |m.volumes| ==> t.machine.volumes[i] == VolumeByName(k.name, m.volumes[i]))
      && |t.machine.nics| == |m.nics|
      && (forall i :: 0 <= i < |m.nics| ==> t.machine.nics[i] == NicByName(k.name, m.nics[i]))
      && t.machine.payload == m.payload
      && PoolSet(cfg, t.machine.pool)
  }

  /** Nothing the image depends on is missing. */
  ghost predicate FullyFound(cfg: Config, k: Key, spec: Spec, found: Found)
    requires k.ObjKey? && Typed(k, spec)
  {
    && !Fails(spec)
    && StatusReady(k, spec)
    && AllFound(BlockingPeers(k, spec), found)
    && AllFound(BestEffortPeers(cfg, k, spec), found)
  }

  lemma VolumeItemByName(k: Key, m: MachineSpec, i: nat, found: Found)
    requires k.ObjKey? && k.kind == Machine && !Malformed(m) && NamePreserving(found) && i < |m.volumes|
    ensures var item := VolumeRound(k.ns, k.name, m, found)[i];
            item.name == m.volumes[i].name &&
            (item.image.Some? ==> Entry(item.name, item.image.value) == VolumeByName(k.name, m.volumes[i]))
  {
    assert VolumeRound(k.ns, k.name, m, found)[i] == VolumeItem(k.ns, k.name, m, m.volumes[i], found);
  }

  lemma NicItemByName(k: Key, m: MachineSpec, i: nat, found: Found)
    requires k.ObjKey? && k.kind == Machine && !Malformed(m) && NamePreserving(found) && i < |m.nics|
    ensures var item := NicRound(k.ns, k.name, m, found)[i];
            item.name == m.nics[i].name &&
            (item.image.Some? ==> Entry(item.name, item.image.value) == NicByName(k.name, m.nics[i]))
  {
    assert NicRound(k.ns, k.name, m, found)[i] == NicItem(k.ns, k.name, m, m.nics[i], found);
  }

  lemma MachineListsFull(k: Key, m: MachineSpec, found: Found, t: MachineTarget)
    requires k.ObjKey? && k.kind == Machine && NamePreserving(found) && !Malformed(m)
    requires !RoundPartial(VolumeRound(k.ns, k.name, m, found)) && !RoundPartial(NicRound(k.ns, k.name, m, found))
    ensures var volumes := MergeRound(t.volumes, VolumeRound(k.ns, k.name, m, found));
            |volumes| == |m.volumes| &&
            forall i :: 0 <= i < |m.volumes| ==> volumes[i] == VolumeByName(k.name, m.volumes[i])
    ensures var nics := MergeRound(t.nics, NicRound(k.ns, k.name, m, found));
            |nics| == |m.nics| && forall i :: 0 <= i < |m.nics| ==> nics[i] == NicByName(k.name, m.nics[i])
  {
    RoundFull(t.volumes, VolumeRound(k.ns, k.name, m, found));
    RoundFull(t.nics, NicRound(k.ns, k.name, m, found));
    forall i | 0 <= i < |m.volumes| {
      VolumeItemByName(k, m, i, found);
    }
    forall i | 0 <= i < |m.nics| {
      NicItemByName(k, m, i, found);
    }
  }

  /** A round in which everything resolves writes the image, whatever was in the target before. */
  lemma FullRoundIsImage(cfg: Config, k: Key, spec: Spec, found: Found, t: TargetSpec)
    requires k.ObjKey? && Typed(k, spec) && TargetTyped(k.kind, t)
    requires NamePreserving(found) && FullyFound(cfg, k, spec, found)
    ensures !Partial(k, spec, found)
    ensures IsImage(cfg, k, spec, found, Apply(cfg, k, spec, found, t))
  {
    PartialExactly(k, spec, found);
    if spec.MachineObjSpec? {
      MachineListsFull(k, spec.machine, found, t.machine);
    }
  }

  lemma MachineImageIsFixpoint(cfg: Config, k: Key, m: MachineSpec, found: Found, t: TargetSpec)
    requires k.ObjKey? && k.kind == Machine && t.MachineObjTarget?
    requires NamePreserving(found) && FullyFound(cfg, k, MachineObjSpec(m), found)
    requires IsImage(cfg, k, MachineObjSpec(m), found, t)
    ensures ApplyMachine(cfg, k.ns, k.name, m, found, t.machine) == t.machine
  {
    hide Fails, StatusReady, VolumeRound, NicRound;
    NotFailing(m);
    MachinePartialExactly(k, m, found);
    MachineListsFull(k, m, found, t.machine);
    var r := ApplyMachine(cfg, k.ns, k.name, m, found, t.machine);
    assert r.volumes == t.machine.volumes;
    assert r.nics == t.machine.nics;
  }

  /** On an image a further round with the same answers changes nothing. */
  lemma ImageIsFixpoint(cfg: Config, k: Key, spec: Spec, found: Found, t: TargetSpec)
    requires k.ObjKey? && Typed(k, spec) && TargetTyped(k.kind, t)
    requires NamePreserving(found) && FullyFound(cfg, k, spec, found)
    requires IsImage(cfg, k, spec, found, t)
    ensures Apply(cfg, k, spec, found, t) == t
  {
    if spec.MachineObjSpec? {
      MachineImageIsFixpoint(cfg, k, spec.machine, found, t);
    } else {
      hide ApplyMachine, Partial, Malformed;
      PartialExactly(k, spec, found);
      if spec.NetworkInterfaceSpec? {
        assert t.nic.families == Families(spec.nic.statusIPs);
      }
    }
  }

  // ---------- Repeating a round ----------

  /** No two entries of a list have the same name; the API server ensures it. */
  ghost predicate UniqueLists(spec: Spec) {
    spec.MachineObjSpec? ==> UniqueEntries(spec.machine.volumes) && UniqueEntries(spec.machine.nics)
  }

  lemma MachineIdempotent(cfg: Config, ns: string, name: string, m: MachineSpec, found: Found, t: MachineTarget)
    requires UniqueEntries(m.volumes) && UniqueEntries(m.nics)
    ensures var t' := ApplyMachine(cfg, ns, name, m, found, t); ApplyMachine(cfg, ns, name, m, found, t') == t'
  {
    var volumes, nics := VolumeRound(ns, name, m, found), NicRound(ns, name, m, found);
    forall i | 0 <= i < |m.volumes|
      ensures volumes[i].name == m.volumes[i].name
    {
      assert volumes[i] == VolumeItem(ns, name, m, m.volumes[i], found);
    }
    forall i | 0 <= i < |m.nics|
      ensures nics[i].name == m.nics[i].name
    {
      assert nics[i] == NicItem(ns, name, m, m.nics[i], found);
    }
    assert UniqueRound(volumes) && UniqueRound(nics);
    RoundIdempotent(t.volumes, volumes);
    RoundIdempotent(t.nics, nics);
  }

  /** Repeating a round with the same answers changes nothing, however partial it is. */
  lemma ApplyIdempotent(cfg: Config, k: Key, spec: Spec, found: Found, t: TargetSpec)
    requires k.ObjKey? && Typed(k, spec) && TargetTyped(k.kind, t) && UniqueLists(spec)
    ensures Apply(cfg, k, spec, found, Apply(cfg, k, spec, found, t)) == Apply(cfg, k, spec, found, t)
  {
    if spec.MachineObjSpec? {
      MachineIdempotent(cfg, k.ns, k.name, spec.machine, found, t.machine);
    }
  }

  // ---------- No loss after creation ----------

  /** Every blocking reference of the source is present in the target, and names the right peer. */
  ghost predicate BlockingIntact(k: Key, spec: Spec, t: TargetSpec)
    requires k.ObjKey? && Typed(k, spec) && TargetTyped(k.kind, t)
  {
    match spec
    case NetworkInterfaceSpec(n) =>
      && t.nic.network == n.network
      && t.nic.vip == VipByName(k.name, n.vip)
    case VolumeObjSpec(v) => t.volume.imagePullSecret == v.imagePullSecret
    case MachineObjSpec(m) =>
      && t.machine.imagePullSecret == m.imagePullSecret
      && t.machine.ignition == m.ignition
      && (forall e :: e in t.machine.volumes <==>
            exists i :: 0 <= i < |m.volumes| && e == VolumeByName(k.name, m.volumes[i]))
      && (forall e :: e in t.machine.nics <==>
            exists i :: 0 <= i < |m.nics| && e == NicByName(k.name, m.nics[i]))
    case _ => true
  }

  lemma MachineVolumesIntact(k: Key, m: MachineSpec, found: Found, l: seq<Entry<TargetVolume>>)
    requires k.ObjKey? && k.kind == Machine && NamePreserving(found) && !Malformed(m)
    requires forall e :: e in l <==> exists i :: 0 <= i < |m.volumes| && e == VolumeByName(k.name, m.volumes[i])
    ensures forall e :: e in MergeRound(l, VolumeRound(k.ns, k.name, m, found)) <==>
              exists i :: 0 <= i < |m.volumes| && e == VolumeByName(k.name, m.volumes[i])
  {
    var round := VolumeRound(k.ns, k.name, m, found);
    forall e
      ensures e in MergeRound(l, round) <==>
        exists i :: 0 <= i < |m.volumes| && e == VolumeByName(k.name, m.volumes[i])
    {
      RoundMembers(l, round, e);
      if i :| 0 <= i < |m.volumes| && e == VolumeByName(k.name, m.volumes[i]) {
        VolumeItemByName(k, m, i, found);
        assert round[i] in round;
      }
      if i :| 0 <= i < |round| && round[i] == Item(e.name, Some(e.value)) {
        VolumeItemByName(k, m, i, found);
      }
    }
  }

  lemma MachineNicsIntact(k: Key, m: MachineSpec, found: Found, l: seq<Entry<string>>)
    requires k.ObjKey? && k.kind == Machine && NamePreserving(found) && !Malformed(m)
    requires forall e :: e in l <==> exists i :: 0 <= i < |m.nics| && e == NicByName(k.name, m.nics[i])
    ensures forall e :: e in MergeRound(l, NicRound(k.ns, k.name, m, found)) <==>
              exists i :: 0 <= i < |m.nics| && e == NicByName(k.name, m.nics[i])
  {
    var round := NicRound(k.ns, k.name, m, found);
    forall e
      ensures e in MergeRound(l, round) <==>
        exists i :: 0 <= i < |m.nics| && e == NicByName(k.name, m.nics[i])
    {
      RoundMembers(l, round, e);
      if i :| 0 <= i < |m.nics| && e == NicByName(k.name, m.nics[i]) {
        NicItemByName(k, m, i, found);
        assert round[i] in round;
      }
      if i :| 0 <= i < |round| && round[i] == Item(e.name, Some(e.value)) {
        NicItemByName(k, m, i, found);
      }
    }
  }

  /** A round that is not partial leaves every blocking reference in place: this is what creation writes. */
  lemma CreationIsIntact(cfg: Config, k: Key, spec: Spec, found: Found, t: TargetSpec)
    requires k.ObjKey? && Typed(k, spec) && TargetTyped(k.kind, t) && NamePreserving(found) && !Fails(spec)
    requires !Partial(k, spec, found)
    ensures BlockingIntact(k, spec, Apply(cfg, k, spec, found, t))
  {
    if spec.MachineObjSpec? {
      MachineListsFull(k, spec.machine, found, t.machine);
    }
  }

  lemma RoundKeepsIntact(cfg: Config, k: Key, spec: Spec, found: Found, t: TargetSpec)
    requires k.ObjKey? && Typed(k, spec) && TargetTyped(k.kind, t) && NamePreserving(found) && !Fails(spec)
    requires BlockingIntact(k, spec, t)
    ensures BlockingIntact(k, spec, Apply(cfg, k, spec, found, t))
  {
    if spec.MachineObjSpec? {
      MachineVolumesIntact(k, spec.machine, found, t.machine.volumes);
      MachineNicsIntact(k, spec.machine, found, t.machine.nics);
    }
  }

  /** A merge patch between intact objects leaves an intact one intact. */
  lemma MergePatchKeepsIntact(k: Key, spec: Spec, base: TargetSpec, mutated: TargetSpec, live: TargetSpec)
    requires k.ObjKey? && Typed(k, spec)
    requires TargetTyped(k.kind, base) && TargetTyped(k.kind, mutated) && TargetTyped(k.kind, live)
    requires BlockingIntact(k, spec, mutated) && BlockingIntact(k, spec, live)
    ensures TargetTyped(k.kind, MergePatch(base, mutated, live))
    ensures BlockingIntact(k, spec, MergePatch(base, mutated, live))
  {
  }

  /** The two specs agree on all blocking references; status, best effort references and the rest may differ. */
  predicate SameReferences(a: Spec, b: Spec) {
    match (a, b)
    case (NetworkInterfaceSpec(n), NetworkInterfaceSpec(m)) => n.network == m.network && n.vip == m.vip
    case (VolumeObjSpec(v), VolumeObjSpec(w)) => v.imagePullSecret == w.imagePullSecret
    case (MachineObjSpec(m), MachineObjSpec(n)) =>
      m.imagePullSecret == n.imagePullSecret && m.ignition == n.ignition && m.volumes == n.volumes && m.nics == n.nics
    case (SecretSpec(_), SecretSpec(_)) => true
    case (VirtualIPSpec(_), VirtualIPSpec(_)) => true
    case _ => a == b
  }

  lemma SameReferencesIntact(k: Key, a: Spec, b: Spec, t: TargetSpec)
    requires k.ObjKey? && Typed(k, a) && Typed(k, b) && TargetTyped(k.kind, t) && SameReferences(a, b)
    ensures Fails(a) <==> Fails(b)
    ensures BlockingIntact(k, a, t) <==> BlockingIntact(k, b, t)
  {
  }

  /** One round on an object: its spec as it is then, status included, and the answers of the lookups. */
  datatype SyncRound = SyncRound(spec: Spec, found: Found)

  /** What any number of rounds make of a target, first to last. */
  ghost function ApplyRounds(cfg: Config, k: Key, rounds: seq<SyncRound>, t: TargetSpec): (r: TargetSpec)
    requires k.ObjKey? && TargetTyped(k.kind, t) && forall i :: 0 <= i < |rounds| ==> Typed(k, rounds[i].spec)
    ensures TargetTyped(k.kind, r)
  {
    if rounds == [] then t
    else
      var last := rounds[|rounds| - 1];
      Apply(cfg, k, last.spec, last.found, ApplyRounds(cfg, k, rounds[..|rounds| - 1], t))
  }

  /**
    No loss: a target that was created from a spec keeps every blocking reference of that spec
    through any later rounds, however little resolves in them and whatever becomes of the source status.
   */
  lemma {:induction false} NoLossAfterCreation(cfg: Config, k: Key, spec: Spec, first: Found, rounds: seq<SyncRound>)
    requires k.ObjKey? && Typed(k, spec) && !Fails(spec) && NamePreserving(first) && !Partial(k, spec, first)
    requires forall i :: 0 <= i < |rounds| ==>
               Typed(k, rounds[i].spec) && SameReferences(rounds[i].spec, spec) && NamePreserving(rounds[i].found)
    ensures BlockingIntact(k, spec, ApplyRounds(cfg, k, rounds, Apply(cfg, k, spec, first, ZeroTarget(k.kind))))
  {
    var created := Apply(cfg, k, spec, first, ZeroTarget(k.kind));
    if rounds == [] {
      CreationIsIntact(cfg, k, spec, first, ZeroTarget(k.kind));
    } else {
      hide Apply, BlockingIntact, Fails;
      var init, last := rounds[..|rounds| - 1], rounds[|rounds| - 1];
      NoLossAfterCreation(cfg, k, spec, first, init);
      var before := ApplyRounds(cfg, k, init, created);
      SameReferencesIntact(k, last.spec, spec, before);
      RoundKeepsIntact(cfg, k, last.spec, last.found, before);
      SameReferencesIntact(k, last.spec, spec, Apply(cfg, k, last.spec, last.found, before));
    }
  }
}
