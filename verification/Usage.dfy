/**
  Which source objects the broker has to care about.  A store is one snapshot of the source
  cluster; the queries read other objects of the snapshot, by key, by scan or by index.
 */
module Usage {
  import opened Wrappers
  import opened Objects

  datatype Record = Record(uid: Uid, spec: Spec)

  type Store = map<Key, Record>

  predicate WellTyped(g: Store) {
    forall k :: k in g ==> Typed(k, g[k].spec)
  }

  predicate Stores(g: Store, kind: Kind, ns: string, k: Key) {
    k in g && k.ObjKey? && k.kind == kind && k.ns == ns && Typed(k, g[k].spec)
  }

  // ---------- Queries on one snapshot ----------

  /** A machine of the pool under the name and uid of the reference. */
  predicate RefersToPoolMachine(g: Store, pool: string, ns: string, ref: Option<UidRef>) {
    && ref.Some?
    && var mk := ObjKey(Machine, ns, ref.value.name);
       Stores(g, Machine, ns, mk) && InPool(g[mk].spec.machine, pool) && g[mk].uid == ref.value.uid
  }

  /** `IsNetworkInterfaceUsed`: bound to a pool machine that lists it. */
  predicate NicUsed(g: Store, pool: string, ns: string, name: string, n: NicSpec) {
    && RefersToPoolMachine(g, pool, ns, n.machine)
    && MachineHasNic(n.machine.value.name, g[ObjKey(Machine, ns, n.machine.value.name)].spec.machine, name)
  }

  /** `IsVolumeUsedByMachineInMachinePool`. */
  predicate VolumeUsed(g: Store, pool: string, ns: string, name: string, v: VolumeSpec) {
    && RefersToPoolMachine(g, pool, ns, v.claim)
    && MachineHasVolume(v.claim.value.name, g[ObjKey(Machine, ns, v.claim.value.name)].spec.machine, name)
  }

  /** `IsVirtualIPUsed`: the network interface it points at is used; its uid is not compared. */
  predicate VipUsed(g: Store, pool: string, ns: string, v: VipSpec) {
    && v.target.Some?
    && var nk := ObjKey(NetworkInterface, ns, v.target.value.name);
       Stores(g, NetworkInterface, ns, nk) && NicUsed(g, pool, ns, nk.name, g[nk].spec.nic)
  }

  /** The full scan of the namespace. */
  predicate NetworkUsedLive(g: Store, pool: string, ns: string, network: string) {
    exists nk :: nk in g && Stores(g, NetworkInterface, ns, nk) && g[nk].spec.nic.network == network &&
      NicUsed(g, pool, ns, nk.name, g[nk].spec.nic)
  }

  /** The values an indexer extracts; objects without a reference are filed under the empty name. */
  function OrEmptyName(names: set<string>): set<string> {
    if names == {} then {""} else names
  }

  function NicNetworkIndex(n: NicSpec): set<string> {
    {n.network}
  }

  /** The list call of a cached client: by namespace and by indexed value. */
  function NicsByNetwork(g: Store, ns: string, network: string): set<Key> {
    set k | k in g && Stores(g, NetworkInterface, ns, k) && network in NicNetworkIndex(g[k].spec.nic)
  }

  predicate NetworkUsedCached(g: Store, pool: string, ns: string, network: string) {
    exists nk :: nk in NicsByNetwork(g, ns, network) && NicUsed(g, pool, ns, nk.name, g[nk].spec.nic)
  }

  /** On one snapshot the index-backed query answers what the full scan answers. */
  lemma IndexRefinesScan(g: Store, pool: string, ns: string, network: string)
    ensures NetworkUsedCached(g, pool, ns, network) <==> NetworkUsedLive(g, pool, ns, network)
  {
    if NetworkUsedLive(g, pool, ns, network) {
      var nk :| nk in g && Stores(g, NetworkInterface, ns, nk) && g[nk].spec.nic.network == network &&
        NicUsed(g, pool, ns, nk.name, g[nk].spec.nic);
      assert nk in NicsByNetwork(g, ns, network);
    }
  }

  // ---------- Referenced secrets and namespaces ----------

  function OptionSet(o: Option<string>): set<string> {
    if o.Some? then {o.value} else {}
  }

  function MachineSecretNames(m: MachineSpec): set<string> {
    OptionSet(m.imagePullSecret) + (if m.ignition.Some? then {m.ignition.value.name} else {})
  }

  predicate MachineRefersSecret(g: Store, pool: string, ns: string, secret: string) {
    exists mk :: mk in g && Stores(g, Machine, ns, mk) && InPool(g[mk].spec.machine, pool) &&
      secret in OrEmptyName(MachineSecretNames(g[mk].spec.machine))
  }

  predicate VolumeRefersSecret(g: Store, pool: string, ns: string, secret: string) {
    exists vk :: vk in g && Stores(g, Volume, ns, vk) && VolumeUsed(g, pool, ns, vk.name, g[vk].spec.volume) &&
      secret in OrEmptyName(OptionSet(g[vk].spec.volume.imagePullSecret))
  }

  /** Cached field references are restricted to the namespace of the secret. */
  predicate SecretReferencedCached(g: Store, pool: string, ns: string, secret: string) {
    MachineRefersSecret(g, pool, ns, secret) || VolumeRefersSecret(g, pool, ns, secret)
  }

  /** Live field references are not: a referent in any namespace counts. */
  predicate SecretReferencedLive(g: Store, pool: string, secret: string) {
    exists k :: k in g && k.ObjKey? && SecretReferencedCached(g, pool, k.ns, secret)
  }

  predicate SecretReferenced(g: Store, pool: string, ns: string, secret: string) {
    SecretReferencedCached(g, pool, ns, secret) || SecretReferencedLive(g, pool, secret)
  }

  predicate SingleNamespace(g: Store, ns: string) {
    forall k :: k in g && k.ObjKey? ==> k.ns == ns
  }

  /** On one snapshot a cached yes is a live yes, and with a single namespace the two agree. */
  lemma CachedRefinesLive(g: Store, pool: string, ns: string, secret: string)
    ensures SecretReferencedCached(g, pool, ns, secret) ==> SecretReferencedLive(g, pool, secret)
    ensures SingleNamespace(g, ns) ==>
              (SecretReferencedCached(g, pool, ns, secret) <==> SecretReferencedLive(g, pool, secret))
  {
    if SingleNamespace(g, ns) && SecretReferencedLive(g, pool, secret) {
      var k: Key :| k in g && k.ObjKey? && SecretReferencedCached(g, pool, k.ns, secret);
      assert k.ns == ns;
    }
  }

  /** An object that names the secret and counts: a machine of the pool, or a volume in use. */
  predicate NamesSecret(g: Store, pool: string, k: Key, secret: string) {
    && k in g && k.ObjKey? && Stores(g, k.kind, k.ns, k)
    && ((k.kind == Machine && InPool(g[k].spec.machine, pool) &&
         secret in OrEmptyName(MachineSecretNames(g[k].spec.machine))) ||
        (k.kind == Volume && VolumeUsed(g, pool, k.ns, k.name, g[k].spec.volume) &&
         secret in OrEmptyName(OptionSet(g[k].spec.volume.imagePullSecret))))
  }

  lemma CachedIsNamed(g: Store, pool: string, ns: string, secret: string)
    ensures SecretReferencedCached(g, pool, ns, secret) <==> exists k: Key :: NamesSecret(g, pool, k, secret) && k.ns == ns
  {
    if MachineRefersSecret(g, pool, ns, secret) {
      var mk :| mk in g && Stores(g, Machine, ns, mk) && InPool(g[mk].spec.machine, pool) &&
        secret in OrEmptyName(MachineSecretNames(g[mk].spec.machine));
      assert NamesSecret(g, pool, mk, secret);
    }
    if VolumeRefersSecret(g, pool, ns, secret) {
      var vk :| vk in g && Stores(g, Volume, ns, vk) && VolumeUsed(g, pool, ns, vk.name, g[vk].spec.volume) &&
        secret in OrEmptyName(OptionSet(g[vk].spec.volume.imagePullSecret));
      assert NamesSecret(g, pool, vk, secret);
    }
  }

  /** Exactly when the two answers differ: nothing in the namespace names the secret, and something elsewhere does. */
  lemma AnswersDifferExactly(g: Store, pool: string, ns: string, secret: string)
    ensures SecretReferencedCached(g, pool, ns, secret) != SecretReferencedLive(g, pool, secret) <==>
            (forall k: Key :: NamesSecret(g, pool, k, secret) ==> k.ns != ns) &&
            (exists k: Key :: NamesSecret(g, pool, k, secret))
  {
    hide SecretReferencedCached, VolumeUsed, MachineSecretNames;
    forall n: string
      ensures SecretReferencedCached(g, pool, n, secret) <==> exists k: Key :: NamesSecret(g, pool, k, secret) && k.ns == n
    {
      CachedIsNamed(g, pool, n, secret);
    }
    if k: Key :| NamesSecret(g, pool, k, secret) {
      assert SecretReferencedCached(g, pool, k.ns, secret);
    }
  }

  /** Without that restriction the two differ: a machine elsewhere makes a secret of the same name live. */
  lemma LiveCrossesNamespaces()
    ensures exists g: Store, pool, ns, secret ::
              SecretReferencedLive(g, pool, secret) && !SecretReferencedCached(g, pool, ns, secret)
  {
    var m := MachineSpec(Some("p"), Some("s"), None, [], [], [], [], 0);
    var mk := ObjKey(Machine, "a", "m");
    var g: Store := map[mk := Record(0, MachineObjSpec(m))];
    assert Stores(g, Machine, "a", mk) && InPool(g[mk].spec.machine, "p");
    assert "s" in OrEmptyName(MachineSecretNames(m));
    assert MachineRefersSecret(g, "p", "a", "s");
    assert SecretReferencedCached(g, "p", "a", "s");
    assert !SecretReferencedCached(g, "p", "b", "s");
  }

  /**
    The two queries for a namespace.  The one that is meant to be live reads the cache as well and
    has lost the pool predicate: any machine in the namespace makes it referenced.
   */
  predicate NamespaceUsed(g: Store, pool: string, ns: string) {
    || (exists mk :: mk in g && Stores(g, Machine, ns, mk) && InPool(g[mk].spec.machine, pool))
    || (exists mk :: mk in g && Stores(g, Machine, ns, mk))
  }

  // ---------- Usage is closed under dependencies ----------

  /** A pool machine and a used volume make the secrets they name referenced. */
  lemma UsersReferSecrets(g: Store, pool: string, k: Key, secret: string)
    requires k.ObjKey? && Stores(g, k.kind, k.ns, k)
    requires
      || (k.kind == Machine && InPool(g[k].spec.machine, pool) && secret in MachineSecretNames(g[k].spec.machine))
      || (k.kind == Volume && VolumeUsed(g, pool, k.ns, k.name, g[k].spec.volume) &&
          secret in OptionSet(g[k].spec.volume.imagePullSecret))
    ensures SecretReferenced(g, pool, k.ns, secret)
  {
    if k.kind == Machine {
      assert MachineRefersSecret(g, pool, k.ns, secret);
    } else {
      assert VolumeRefersSecret(g, pool, k.ns, secret);
    }
  }

  // ---------- What the broker wants ----------

  /** The answer of the usage or reference query on one snapshot, for an object that was read before. */
  predicate WantedBy(g: Store, pool: string, k: Key, spec: Spec)
    requires Typed(k, spec)
  {
    match k
    case NsKey(name) => NamespaceUsed(g, pool, name)
    case ObjKey(kind, ns, name) =>
      match kind
      case Secret => SecretReferenced(g, pool, ns, name)
      case Network => NetworkUsedLive(g, pool, ns, name)
      case VirtualIP => VipUsed(g, pool, ns, spec.vip)
      case NetworkInterface => NicUsed(g, pool, ns, name, spec.nic)
      case Volume => VolumeUsed(g, pool, ns, name, spec.volume)
      case Machine => InPool(spec.machine, pool)
  }

  /** The same for the object as it is in the snapshot. */
  predicate Wanted(g: Store, pool: string, k: Key)
    requires k in g && Typed(k, g[k].spec)
  {
    WantedBy(g, pool, k, g[k].spec)
  }

  // ---------- Cached queries, then live ones ----------

  /** The queries on the cache, for an object that was read before. */
  predicate WantedCached(g: Store, pool: string, k: Key, spec: Spec)
    requires Typed(k, spec)
  {
    match k
    case NsKey(name) => exists mk :: mk in g && Stores(g, Machine, name, mk) && InPool(g[mk].spec.machine, pool)
    case ObjKey(kind, ns, name) =>
      match kind
      case Secret => SecretReferencedCached(g, pool, ns, name)
      case Network => NetworkUsedCached(g, pool, ns, name)
      case _ => WantedBy(g, pool, k, spec)
  }

  /** The queries that follow if those answer no; for a namespace they read the cache once more. */
  predicate WantedLive(g: Store, pool: string, k: Key, spec: Spec)
    requires Typed(k, spec)
  {
    match k
    case NsKey(name) => exists mk :: mk in g && Stores(g, Machine, name, mk)
    case ObjKey(kind, ns, name) =>
      match kind
      case Secret => SecretReferencedLive(g, pool, name)
      case _ => WantedBy(g, pool, k, spec)
  }

  /** On one snapshot the second query alone gives the answer. */
  lemma LiveIsAll(g: Store, pool: string, k: Key, spec: Spec)
    requires Typed(k, spec)
    ensures WantedLive(g, pool, k, spec) <==> WantedBy(g, pool, k, spec)
  {
    if k.ObjKey? && k.kind == Secret {
      CachedRefinesLive(g, pool, k.ns, k.name);
    }
  }

  /** On one snapshot the two together give the answer. */
  lemma CachedOrLive(g: Store, pool: string, k: Key, spec: Spec)
    requires Typed(k, spec)
    ensures WantedCached(g, pool, k, spec) || WantedLive(g, pool, k, spec) <==> WantedBy(g, pool, k, spec)
  {
    if k.ObjKey? && k.kind == Network {
      IndexRefinesScan(g, pool, k.ns, k.name);
    }
  }

  // ---------- Why something is used ----------

  /** A machine of the pool in the namespace. */
  ghost predicate PoolMachine(g: Store, pool: string, ns: string, mk: Key) {
    && mk in g && mk.ObjKey? && mk.kind == Machine && mk.ns == ns
    && g[mk].spec.MachineObjSpec? && g[mk].spec.machine.pool == Some(pool)
  }

  /** The machine the reference means: of that name, and not one created later under it. */
  ghost predicate Means(g: Store, pool: string, ns: string, ref: Option<UidRef>, mk: Key) {
    PoolMachine(g, pool, ns, mk) && ref == Some(UidRef(mk.name, g[mk].uid))
  }

  /** The machine lists the network interface, by name or as one generated for an entry. */
  ghost predicate ListsNic(machine: string, m: MachineSpec, nic: string) {
    exists i :: 0 <= i < |m.nics| &&
      (m.nics[i].value == NicRef(nic) || (m.nics[i].value.EphemeralNic? && nic == machine + "-" + m.nics[i].name))
  }

  ghost predicate ListsVolume(machine: string, m: MachineSpec, volume: string) {
    exists i :: 0 <= i < |m.volumes| &&
      (m.volumes[i].value.source == VolumeRef(volume) ||
       (m.volumes[i].value.source.EphemeralVolume? && volume == machine + "-" + m.volumes[i].name))
  }

  ghost predicate NicReason(g: Store, pool: string, nk: Key, n: NicSpec, mk: Key)
    requires nk.ObjKey?
  {
    Means(g, pool, nk.ns, n.machine, mk) && ListsNic(mk.name, g[mk].spec.machine, nk.name)
  }

  ghost predicate VolumeReason(g: Store, pool: string, vk: Key, v: VolumeSpec, mk: Key)
    requires vk.ObjKey?
  {
    Means(g, pool, vk.ns, v.claim, mk) && ListsVolume(mk.name, g[mk].spec.machine, vk.name)
  }

  /** A network interface of the namespace that the machine uses. */
  ghost predicate UsedNic(g: Store, pool: string, ns: string, nk: Key, mk: Key) {
    && nk in g && nk.ObjKey? && nk.kind == NetworkInterface && nk.ns == ns
    && g[nk].spec.NetworkInterfaceSpec? && NicReason(g, pool, nk, g[nk].spec.nic, mk)
  }

  ghost predicate UsedVolume(g: Store, pool: string, ns: string, vk: Key, mk: Key) {
    && vk in g && vk.ObjKey? && vk.kind == Volume && vk.ns == ns
    && g[vk].spec.VolumeObjSpec? && VolumeReason(g, pool, vk, g[vk].spec.volume, mk)
  }

  /** What names no secret is filed under the empty name. */
  predicate MachineNamesSecret(m: MachineSpec, secret: string) {
    || m.imagePullSecret == Some(secret)
    || (m.ignition.Some? && m.ignition.value.name == secret)
    || (secret == "" && m.imagePullSecret.None? && m.ignition.None?)
  }

  predicate VolumeNamesSecret(v: VolumeSpec, secret: string) {
    v.imagePullSecret == Some(secret) || (secret == "" && v.imagePullSecret.None?)
  }

  /** The machine, or a volume it uses, names the secret. */
  ghost predicate SecretReason(g: Store, pool: string, ns: string, secret: string, mk: Key) {
    && PoolMachine(g, pool, ns, mk)
    && var m := g[mk].spec.machine;
       || MachineNamesSecret(m, secret)
       || exists vk :: UsedVolume(g, pool, ns, vk, mk) && VolumeNamesSecret(g[vk].spec.volume, secret)
  }

  /** The machine is the reason why the object, as it was read before, is used or referenced. */
  ghost predicate Reason(g: Store, pool: string, k: Key, spec: Spec, mk: Key)
    requires Typed(k, spec)
  {
    match k
    case NsKey(name) => mk in g && mk.ObjKey? && mk.kind == Machine && mk.ns == name && g[mk].spec.MachineObjSpec?
    case ObjKey(kind, ns, name) =>
      match kind
      case Secret => mk.ObjKey? && SecretReason(g, pool, mk.ns, name, mk)
      case Network => exists nk :: UsedNic(g, pool, ns, nk, mk) && g[nk].spec.nic.network == name
      case VirtualIP => exists nk :: UsedNic(g, pool, ns, nk, mk) && spec.vip.target.Some? && nk.name == spec.vip.target.value.name
      case NetworkInterface => NicReason(g, pool, k, spec.nic, mk)
      case Volume => VolumeReason(g, pool, k, spec.volume, mk)
      case Machine => mk == k && spec.machine.pool == Some(pool)
  }

  ghost predicate HasReason(g: Store, pool: string, k: Key, spec: Spec)
    requires Typed(k, spec)
  {
    exists mk :: Reason(g, pool, k, spec, mk)
  }

  lemma NicUsedExactly(g: Store, pool: string, nk: Key, n: NicSpec)
    requires nk.ObjKey?
    ensures NicUsed(g, pool, nk.ns, nk.name, n) <==> exists mk :: NicReason(g, pool, nk, n, mk)
  {
    if NicUsed(g, pool, nk.ns, nk.name, n) {
      var mk := ObjKey(Machine, nk.ns, n.machine.value.name);
      var m := g[mk].spec.machine;
      var i :| 0 <= i < |m.nics| && EntryNicName(mk.name, m.nics[i]) == Some(nk.name);
      assert NicReason(g, pool, nk, n, mk);
    }
  }

  lemma VolumeUsedExactly(g: Store, pool: string, vk: Key, v: VolumeSpec)
    requires vk.ObjKey?
    ensures VolumeUsed(g, pool, vk.ns, vk.name, v) <==> exists mk :: VolumeReason(g, pool, vk, v, mk)
  {
    if VolumeUsed(g, pool, vk.ns, vk.name, v) {
      var mk := ObjKey(Machine, vk.ns, v.claim.value.name);
      var m := g[mk].spec.machine;
      var i :| 0 <= i < |m.volumes| && EntryVolumeName(mk.name, m.volumes[i]) == Some(vk.name);
      assert VolumeReason(g, pool, vk, v, mk);
    }
  }

  lemma NetworkUsedExactly(g: Store, pool: string, ns: string, network: string)
    ensures NetworkUsedLive(g, pool, ns, network) <==>
            exists nk, mk :: UsedNic(g, pool, ns, nk, mk) && g[nk].spec.nic.network == network
  {
    hide NicUsed, NicReason;
    forall nk | Stores(g, NetworkInterface, ns, nk)
      ensures NicUsed(g, pool, ns, nk.name, g[nk].spec.nic) <==> exists mk :: UsedNic(g, pool, ns, nk, mk)
    {
      NicUsedExactly(g, pool, nk, g[nk].spec.nic);
      if mk :| NicReason(g, pool, nk, g[nk].spec.nic, mk) {
        assert UsedNic(g, pool, ns, nk, mk);
      }
    }
    assert forall nk, mk :: UsedNic(g, pool, ns, nk, mk) ==> Stores(g, NetworkInterface, ns, nk);
  }

  lemma VipUsedExactly(g: Store, pool: string, ns: string, v: VipSpec)
    ensures VipUsed(g, pool, ns, v) <==>
            exists nk, mk :: UsedNic(g, pool, ns, nk, mk) && v.target.Some? && nk.name == v.target.value.name
  {
    hide NicUsed, NicReason;
    if v.target.Some? {
      var nk := ObjKey(NetworkInterface, ns, v.target.value.name);
      if Stores(g, NetworkInterface, ns, nk) {
        NicUsedExactly(g, pool, nk, g[nk].spec.nic);
        if mk :| NicReason(g, pool, nk, g[nk].spec.nic, mk) {
          assert UsedNic(g, pool, ns, nk, mk);
        }
      }
    }
  }

  lemma MachineNamesExactly(m: MachineSpec, secret: string)
    ensures secret in OrEmptyName(MachineSecretNames(m)) <==> MachineNamesSecret(m, secret)
  {
    if m.imagePullSecret.Some? {
      assert m.imagePullSecret.value in MachineSecretNames(m);
    }
    if m.ignition.Some? {
      assert m.ignition.value.name in MachineSecretNames(m);
    }
  }

  lemma VolumeNamesExactly(v: VolumeSpec, secret: string)
    ensures secret in OrEmptyName(OptionSet(v.imagePullSecret)) <==> VolumeNamesSecret(v, secret)
  {
    if v.imagePullSecret.Some? {
      assert v.imagePullSecret.value in OptionSet(v.imagePullSecret);
    }
  }

  lemma UsersMachine(g: Store, pool: string, ns: string, vk: Key, mk: Key)
    requires UsedVolume(g, pool, ns, vk, mk)
    ensures PoolMachine(g, pool, ns, mk)
  {
  }

  lemma SecretReferencedExactly(g: Store, pool: string, ns: string, secret: string)
    ensures SecretReferencedCached(g, pool, ns, secret) <==> exists mk :: SecretReason(g, pool, ns, secret, mk)
  {
    hide VolumeUsed, VolumeReason, MachineNamesSecret, VolumeNamesSecret, OrEmptyName, MachineSecretNames;
    forall vk | Stores(g, Volume, ns, vk)
      ensures VolumeUsed(g, pool, ns, vk.name, g[vk].spec.volume) <==> exists mk :: UsedVolume(g, pool, ns, vk, mk)
    {
      VolumeUsedExactly(g, pool, vk, g[vk].spec.volume);
      if mk :| VolumeReason(g, pool, vk, g[vk].spec.volume, mk) {
        assert UsedVolume(g, pool, ns, vk, mk);
      }
    }
    if MachineRefersSecret(g, pool, ns, secret) {
      var mk :| mk in g && Stores(g, Machine, ns, mk) && InPool(g[mk].spec.machine, pool) &&
        secret in OrEmptyName(MachineSecretNames(g[mk].spec.machine));
      MachineNamesExactly(g[mk].spec.machine, secret);
      assert SecretReason(g, pool, ns, secret, mk);
    }
    if VolumeRefersSecret(g, pool, ns, secret) {
      var vk :| vk in g && Stores(g, Volume, ns, vk) && VolumeUsed(g, pool, ns, vk.name, g[vk].spec.volume) &&
        secret in OrEmptyName(OptionSet(g[vk].spec.volume.imagePullSecret));
      var mk :| UsedVolume(g, pool, ns, vk, mk);
      UsersMachine(g, pool, ns, vk, mk);
      VolumeNamesExactly(g[vk].spec.volume, secret);
      assert SecretReason(g, pool, ns, secret, mk);
    }
    if mk :| SecretReason(g, pool, ns, secret, mk) {
      if vk :| UsedVolume(g, pool, ns, vk, mk) && VolumeNamesSecret(g[vk].spec.volume, secret) {
        VolumeNamesExactly(g[vk].spec.volume, secret);
        assert Stores(g, Volume, ns, vk) && VolumeUsed(g, pool, ns, vk.name, g[vk].spec.volume);
        assert VolumeRefersSecret(g, pool, ns, secret);
      } else {
        MachineNamesExactly(g[mk].spec.machine, secret);
        assert Stores(g, Machine, ns, mk);
        assert MachineRefersSecret(g, pool, ns, secret);
      }
    }
  }

  lemma SecretReasonMachine(g: Store, pool: string, ns: string, secret: string, mk: Key)
    requires SecretReason(g, pool, ns, secret, mk)
    ensures mk in g && mk.ObjKey? && mk.ns == ns
  {
  }

  lemma SecretExactly(g: Store, pool: string, k: Key, spec: Spec)
    requires k.ObjKey? && k.kind == Secret && Typed(k, spec)
    ensures WantedBy(g, pool, k, spec) <==> HasReason(g, pool, k, spec)
  {
    hide SecretReferencedCached, SecretReason;
    forall ns: string
      ensures SecretReferencedCached(g, pool, ns, k.name) <==> exists mk :: SecretReason(g, pool, ns, k.name, mk)
    {
      SecretReferencedExactly(g, pool, ns, k.name);
    }
    if ns: string, mk :| SecretReason(g, pool, ns, k.name, mk) {
      SecretReasonMachine(g, pool, ns, k.name, mk);
      assert Reason(g, pool, k, spec, mk);
      assert SecretReferencedCached(g, pool, mk.ns, k.name);
    }
    if mk: Key :| mk.ObjKey? && SecretReason(g, pool, mk.ns, k.name, mk) {
      SecretReasonMachine(g, pool, mk.ns, k.name, mk);
    }
  }

  /**
    Every yes has a reason, and every reason gives a yes: a machine of the pool, found under the name and
    the uid of a reference where there is one, that lists what it is asked for.
   */
  lemma WantedExactly(g: Store, pool: string, k: Key, spec: Spec)
    requires Typed(k, spec)
    ensures WantedBy(g, pool, k, spec) <==> HasReason(g, pool, k, spec)
  {
    hide NicUsed, VolumeUsed, NicReason, VolumeReason, SecretReferencedCached, SecretReason, VipUsed, NetworkUsedLive;
    match k
    case NsKey(name) =>
      if mk :| Stores(g, Machine, name, mk) {
        assert Reason(g, pool, k, spec, mk);
      }
    case ObjKey(kind, ns, name) =>
      match kind
      case Secret => SecretExactly(g, pool, k, spec);
      case Network =>
        NetworkUsedExactly(g, pool, ns, name);
        if nk, mk :| UsedNic(g, pool, ns, nk, mk) && g[nk].spec.nic.network == name {
          assert Reason(g, pool, k, spec, mk);
        }
      case VirtualIP =>
        VipUsedExactly(g, pool, ns, spec.vip);
        if nk, mk :| UsedNic(g, pool, ns, nk, mk) && spec.vip.target.Some? && nk.name == spec.vip.target.value.name {
          assert Reason(g, pool, k, spec, mk);
        }
      case NetworkInterface =>
        NicUsedExactly(g, pool, k, spec.nic);
        assert forall mk :: Reason(g, pool, k, spec, mk) <==> NicReason(g, pool, k, spec.nic, mk);
      case Volume =>
        VolumeUsedExactly(g, pool, k, spec.volume);
        assert forall mk :: Reason(g, pool, k, spec, mk) <==> VolumeReason(g, pool, k, spec.volume, mk);
      case Machine => assert Reason(g, pool, k, spec, k) <==> InPool(spec.machine, pool);
  }

  // ---------- Recreated machines ----------

  /** The machine a reference was made to is not there: no machine of the pool has its uid. */
  ghost predicate Dangling(g: Store, pool: string, ns: string, ref: Option<UidRef>) {
    ref.Some? && forall mk :: PoolMachine(g, pool, ns, mk) ==> g[mk].uid != ref.value.uid
  }

  function NicNetwork(spec: Spec): Option<string> {
    if spec.NetworkInterfaceSpec? then Some(spec.nic.network) else None
  }

  /** Of the network interfaces of the namespace, these all dangle. */
  ghost predicate NicsDangle(g: Store, pool: string, ns: string, these: Key -> bool) {
    forall nk :: nk in g && Stores(g, NetworkInterface, ns, nk) && these(nk) ==> Dangling(g, pool, ns, g[nk].spec.nic.machine)
  }

  /**
    What still refers to a machine that has gone is not used, even if there is one of the same name again;
    nor are the virtual IPs and networks that hang on nothing else.
   */
  lemma DanglingUnused(g: Store, pool: string, ns: string)
    ensures forall name, n: NicSpec :: Dangling(g, pool, ns, n.machine) ==> !NicUsed(g, pool, ns, name, n)
    ensures forall name, v: VolumeSpec :: Dangling(g, pool, ns, v.claim) ==> !VolumeUsed(g, pool, ns, name, v)
    ensures forall v: VipSpec, nk ::
              v.target == Some(nk) && NicsDangle(g, pool, ns, (k: Key) => k.name == nk.name) ==> !VipUsed(g, pool, ns, v)
    ensures forall network ::
              NicsDangle(g, pool, ns, (k: Key) => k in g && NicNetwork(g[k].spec) == Some(network)) ==>
                !NetworkUsedLive(g, pool, ns, network)
  {
    forall name, n: NicSpec | Dangling(g, pool, ns, n.machine)
      ensures !NicUsed(g, pool, ns, name, n)
    {
      NicUsedExactly(g, pool, ObjKey(NetworkInterface, ns, name), n);
    }
    forall name, v: VolumeSpec | Dangling(g, pool, ns, v.claim)
      ensures !VolumeUsed(g, pool, ns, name, v)
    {
      VolumeUsedExactly(g, pool, ObjKey(Volume, ns, name), v);
    }
  }

  /** Used objects that name the same machine carry the same uid. */
  lemma OneMachineOneUid(g: Store, pool: string, ns: string, a: string, n: NicSpec, b: string, m: NicSpec, c: string,
                         v: VolumeSpec)
    requires NicUsed(g, pool, ns, a, n)
    ensures NicUsed(g, pool, ns, b, m) && m.machine.value.name == n.machine.value.name ==> m.machine == n.machine
    ensures VolumeUsed(g, pool, ns, c, v) && v.claim.value.name == n.machine.value.name ==> v.claim == n.machine
  {
    NicUsedExactly(g, pool, ObjKey(NetworkInterface, ns, a), n);
    NicUsedExactly(g, pool, ObjKey(NetworkInterface, ns, b), m);
    VolumeUsedExactly(g, pool, ObjKey(Volume, ns, c), v);
  }
}
