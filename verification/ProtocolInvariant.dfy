/**
  The inductive invariant of the protocol, and the proof that every step keeps it.
 */
module ProtocolInvariant {
  import opened Wrappers
  import opened Objects
  import opened Sync
  import opened Protocol

  // ---------- Views ----------

  /** From the cache to the cluster, every version is the object `uid` and carries the finalizer. */
  ghost predicate Held(v: View, uid: Uid) {
    v != [] && forall i :: 0 <= i < |v| ==> v[i].Some? && v[i].value.uid == uid && v[i].value.fin
  }

  /** Every version is marked for deletion. */
  ghost predicate Doomed(v: View) {
    forall i :: 0 <= i < |v| ==> v[i].Some? && v[i].value.deleting
  }

  /** What the finalizer guarantees about any later version of an object. */
  ghost predicate Follows(a: Option<SourceObject>, b: Option<SourceObject>) {
    a.Some? && a.value.fin ==>
      b.Some? && b.value.fin && b.value.uid == a.value.uid && (a.value.deleting ==> b.value.deleting)
  }

  ghost predicate Steady(v: View) {
    v != [] && forall i, j :: 0 <= i <= j < |v| ==> Follows(v[i], v[j])
  }

  ghost predicate BornAs(born: map<Uid, Key>, k: Key, o: SourceObject) {
    o.uid in born && born[o.uid] == k && Typed(k, o.spec)
  }

  ghost predicate ViewOk(born: map<Uid, Key>, k: Key, v: View) {
    && Steady(v)
    && forall i :: 0 <= i < |v| && v[i].Some? ==> BornAs(born, k, v[i].value)
  }

  // ---------- Target side ----------

  ghost predicate NamespaceOk(s: State, t: TargetNs)
    requires t in s.namespaces
  {
    var n := s.namespaces[t];
    && t in s.issued && s.issued[t] == n.ownerName
    && n.owner == n.sourceUid
    && Held(ViewOf(s, NsKey(n.ownerName)), n.sourceUid)
  }

  ghost predicate OneNamespacePerUid(s: State) {
    forall t, t' :: t in s.namespaces && t' in s.namespaces && s.namespaces[t].sourceUid == s.namespaces[t'].sourceUid
      ==> t == t'
  }

  /** The source key a target object stands for. */
  function SourceKey(s: State, tk: TargetKey): Key
    requires tk.ns in s.namespaces
  {
    ObjKey(tk.kind, s.namespaces[tk.ns].ownerName, tk.name)
  }

  ghost predicate TargetOk(s: State, tk: TargetKey)
    requires tk in s.targets
  {
    && tk.ns in s.namespaces
    && s.targets[tk] in PastOf(s, tk)
    && (s.targets[tk].owner.Some? ==> Held(ViewOf(s, SourceKey(s, tk)), s.targets[tk].owner.value))
  }

  /** A version of a target has its type, and its controller is or was a source object of its name. */
  ghost predicate VersionOk(s: State, tk: TargetKey, x: TargetObject) {
    && TargetTyped(tk.kind, x.spec)
    && (x.owner.Some? ==>
          && x.owner.value in s.born && tk.ns in s.issued
          && s.born[x.owner.value] == ObjKey(tk.kind, s.issued[tk.ns], tk.name))
  }

  ghost predicate PastOk(s: State, tk: TargetKey) {
    forall x :: x in PastOf(s, tk) ==> VersionOk(s, tk, x)
  }

  /** A controlled target object of the source key `k`. */
  ghost predicate TargetFor(s: State, k: Key, tk: TargetKey) {
    && tk in s.targets && s.targets[tk].owner.Some?
    && tk.ns in s.namespaces && SourceKey(s, tk) == k
  }

  // ---------- Passes ----------

  /** What reading the finalizer on an object lets the pass rely on. */
  ghost predicate Relies(s: State, k: Key, o: SourceObject) {
    && BornAs(s.born, k, o)
    && (o.fin ==> Held(ViewOf(s, k), o.uid) && (o.deleting ==> Doomed(ViewOf(s, k))))
  }

  ghost predicate Secured(s: State, k: Key, o: SourceObject) {
    o.fin && Relies(s, k, o)
  }

  /** A resolved target namespace belongs to the namespace of the key, for as long as it exists. */
  ghost predicate ResolvedFor(s: State, k: Key, t: TargetNs)
    requires k.ObjKey?
  {
    t in s.issued && s.issued[t] == k.ns
  }

  /** At some time there was a target of the peer, in a target namespace of its namespace. */
  ghost predicate HadTargetAt(s: State, d: Key, t: TargetNs, x: TargetObject) {
    d.ObjKey? && t in s.issued && s.issued[t] == d.ns && x in PastOf(s, TargetKeyOf(d, t))
  }

  ghost predicate HadTarget(s: State, d: Key, uid: Uid) {
    exists t, x :: HadTargetAt(s, d, t, x) && x.uid == uid
  }

  /** What a round has found are targets there have been, under the names of the peers. */
  ghost predicate FoundOk(s: State, found: Found) {
    forall d :: d in found ==> d.ObjKey? && found[d].name == d.name && HadTarget(s, d, found[d].uid)
  }

  ghost predicate NoNamespaceOf(s: State, uid: Uid) {
    forall t :: t in s.namespaces ==> s.namespaces[t].sourceUid != uid
  }

  ghost predicate NoTargetFor(s: State, k: Key) {
    forall tk :: !TargetFor(s, k, tk)
  }

  ghost predicate NsUid(s: State, k: Key, uid: Uid)
    requires k.ObjKey?
  {
    uid in s.born && s.born[uid] == NsKey(k.ns)
  }

  ghost predicate ObjectPcOk(s: State, k: Key)
    requires k.ObjKey?
  {
    match PcOf(s, k)
    case Idle => true
    case Got(o) => Relies(s, k, o)
    case DelNs(o) => Secured(s, k, o)
    case DelList(o, nsUid) =>
      && Secured(s, k, o) && NsUid(s, k, nsUid)
      && (forall tk :: TargetFor(s, k, tk) ==> s.namespaces[tk.ns].sourceUid == nsUid)
    case DelIssue(o, t) =>
      && Secured(s, k, o) && ResolvedFor(s, k, t)
      && (forall tk :: TargetFor(s, k, tk) ==> tk.ns == t)
    case DelFin(o) => Secured(s, k, o) && NoTargetFor(s, k)
    case VolumeFin(o) => Relies(s, k, o) && k.kind == Volume
    case RecNs(o) => Relies(s, k, o) && (k.kind == Volume ==> o.fin)
    case RecList(o, nsUid) => Relies(s, k, o) && (k.kind == Volume ==> o.fin) && NsUid(s, k, nsUid)
    case RecFin(o, t) => Relies(s, k, o) && ResolvedFor(s, k, t)
    case Lookup(o, t, _, found) => Secured(s, k, o) && ResolvedFor(s, k, t) && FoundOk(s, found)
    case Fetch(o, t, found) => Secured(s, k, o) && ResolvedFor(s, k, t) && FoundOk(s, found)
    case Write(o, t, found, current) =>
      && Secured(s, k, o) && ResolvedFor(s, k, t) && FoundOk(s, found)
      && (current.Some? ==> current.value in PastOf(s, TargetKeyOf(k, t)))
    case _ => false
  }

  ghost predicate NamespacePcOk(s: State, k: Key)
    requires k.NsKey?
  {
    match PcOf(s, k)
    case Idle => true
    case Got(o) => Relies(s, k, o)
    case NsDelList(o) => Secured(s, k, o) && o.deleting
    case NsDelIssue(o, t) =>
      && Secured(s, k, o) && o.deleting && t in s.issued && s.issued[t] == k.name
      && (forall t' :: t' in s.namespaces && s.namespaces[t'].sourceUid == o.uid ==> t' == t)
      && (t in s.namespaces ==> s.namespaces[t].sourceUid == o.uid)
    case DelFin(o) => Secured(s, k, o) && NoNamespaceOf(s, o.uid)
    case NsList(o) => Relies(s, k, o)
    case NsKeep(o) => Relies(s, k, o)
    case NsRef(o) => Relies(s, k, o) && NoNamespaceOf(s, o.uid)
    case NsFin(o) => Relies(s, k, o) && NoNamespaceOf(s, o.uid)
    case NsCreate(o) => Secured(s, k, o) && NoNamespaceOf(s, o.uid)
    case _ => false
  }

  ghost predicate PcOk(s: State, k: Key) {
    if k.NsKey? then NamespacePcOk(s, k) else ObjectPcOk(s, k)
  }

  ghost predicate Inv(s: State) {
    && (forall k :: k in s.views ==> ViewOk(s.born, k, s.views[k]))
    && (forall t :: t in s.namespaces ==> NamespaceOk(s, t))
    && OneNamespacePerUid(s)
    && (forall tk :: tk in s.targets ==> TargetOk(s, tk))
    && (forall tk :: PastOk(s, tk))
    && (forall k :: k in s.pcs ==> PcOk(s, k))
  }

  // ---------- Changes that keep the invariant ----------

  /** A new view that breaks nothing the old one guaranteed. */
  ghost predicate Extends(v: View, v': View) {
    forall uid :: Held(v, uid) ==> Held(v', uid) && (Doomed(v) ==> Doomed(v'))
  }

  ghost predicate Grows(s: State, s': State) {
    && (forall t :: t in s.issued ==> t in s'.issued && s'.issued[t] == s.issued[t])
    && (forall tk :: PastOf(s, tk) <= PastOf(s', tk))
    && (forall u :: u in s.born ==> u in s'.born && s'.born[u] == s.born[u])
  }

  /** No namespace is renamed, and a new one is for some other source object than `j`. */
  ghost predicate NamespacesKeep(s: State, s': State, j: Key) {
    forall t :: t in s'.namespaces ==>
      var n := s'.namespaces[t];
      || (t in s.namespaces && s.namespaces[t].sourceUid == n.sourceUid && s.namespaces[t].ownerName == n.ownerName)
      || (t !in s.issued && n.sourceUid in s.born && s.born[n.sourceUid] != j)
  }

  /** A step that does nothing the pass on `j` must not see. */
  ghost predicate Undisturbed(s: State, s': State, j: Key) {
    && PcOf(s', j) == PcOf(s, j)
    && Extends(ViewOf(s, j), ViewOf(s', j))
    && Grows(s, s')
    && NamespacesKeep(s, s', j)
    && (forall tk :: TargetFor(s', j, tk) ==> TargetFor(s, j, tk))
  }

  lemma FoundKeeps(s: State, s': State, found: Found)
    requires Grows(s, s') && FoundOk(s, found)
    ensures FoundOk(s', found)
  {
    forall d | d in found
      ensures d.ObjKey? && found[d].name == d.name && HadTarget(s', d, found[d].uid)
    {
      var t, x :| HadTargetAt(s, d, t, x) && x.uid == found[d].uid;
      assert HadTargetAt(s', d, t, x);
    }
  }

  lemma ReliesKeeps(s: State, s': State, k: Key, o: SourceObject)
    requires Relies(s, k, o) && Extends(ViewOf(s, k), ViewOf(s', k)) && Grows(s, s')
    ensures Relies(s', k, o)
  {
  }

  lemma PassKeeps(s: State, s': State, j: Key)
    requires PcOk(s, j) && Undisturbed(s, s', j)
    requires forall t :: t in s.namespaces ==> t in s.issued
    ensures PcOk(s', j)
  {
    hide HadTarget, FoundOk, Held, Doomed, Extends;
    var pc := PcOf(s, j);
    if !pc.Idle? {
      ReliesKeeps(s, s', j, pc.o);
    }
    if pc.Lookup? || pc.Fetch? || pc.Write? {
      FoundKeeps(s, s', pc.found);
    }
  }

  lemma PcsAreOk(s: State, k: Key)
    requires Inv(s)
    ensures PcOk(s, k)
  {
  }

  lemma SamePastOk(s: State, s': State)
    requires Inv(s) && s'.past == s.past && Grows(s, s')
    ensures forall tk :: PastOk(s', tk)
  {
    forall tk
      ensures PastOk(s', tk)
    {
      assert PastOk(s, tk);
    }
  }

  lemma GotoKeeps(s: State, k: Key, pc: Pc)
    requires Inv(s)
    requires pc.Idle? || PcOk(Goto(s, k, pc), k)
    ensures Inv(Goto(s, k, pc))
  {
    hide PastOk, PcOk, Held, Doomed;
    var s' := Goto(s, k, pc);
    SamePastOk(s, s');
    forall t | t in s'.namespaces
      ensures NamespaceOk(s', t)
    {
      assert NamespaceOk(s, t);
    }
    forall tk | tk in s'.targets
      ensures TargetOk(s', tk)
    {
      assert TargetOk(s, tk);
    }
    forall j | j in s'.pcs
      ensures PcOk(s', j)
    {
      if j != k {
        PassKeeps(s, s', j);
      }
    }
  }

  /** One view is replaced by one that guarantees no less. */
  lemma ViewKeeps(s: State, k: Key, v': View, born': map<Uid, Key>)
    requires Inv(s)
    requires ViewOk(born', k, v') && Extends(ViewOf(s, k), v')
    requires forall u :: u in s.born ==> u in born' && born'[u] == s.born[u]
    ensures Inv(s.(views := s.views[k := v'], born := born'))
  {
    hide PastOk, PcOk, Doomed;
    var s' := s.(views := s.views[k := v'], born := born');
    SamePastOk(s, s');
    forall j
      ensures Extends(ViewOf(s, j), ViewOf(s', j))
    {
    }
    forall j | j in s'.views
      ensures ViewOk(s'.born, j, s'.views[j])
    {
      if j != k {
        assert ViewOk(s.born, j, s.views[j]);
      }
    }
    forall t | t in s'.namespaces
      ensures NamespaceOk(s', t)
    {
      assert NamespaceOk(s, t);
      assert Extends(ViewOf(s, NsKey(s.namespaces[t].ownerName)), ViewOf(s', NsKey(s.namespaces[t].ownerName)));
    }
    forall tk | tk in s'.targets
      ensures TargetOk(s', tk)
    {
      assert TargetOk(s, tk);
      assert Extends(ViewOf(s, SourceKey(s, tk)), ViewOf(s', SourceKey(s, tk)));
    }
    forall j | j in s'.pcs
      ensures PcOk(s', j)
    {
      PassKeeps(s, s', j);
    }
  }

  /** The target objects change, and no pass under way gets to see a new object of its own. */
  lemma TargetsKeep(s: State, targets': map<TargetKey, TargetObject>, past': map<TargetKey, set<TargetObject>>)
    requires Inv(s)
    requires var s' := s.(targets := targets', past := past');
             && (forall tk :: PastOf(s, tk) <= PastOf(s', tk) && PastOk(s', tk))
             && (forall tk :: tk in targets' ==> TargetOk(s', tk))
             && (forall j, tk :: j in s.pcs && TargetFor(s', j, tk) ==> TargetFor(s, j, tk))
    ensures Inv(s.(targets := targets', past := past'))
  {
    hide PastOk, TargetOk;
    var s' := s.(targets := targets', past := past');
    forall t | t in s'.namespaces
      ensures NamespaceOk(s', t)
    {
      assert NamespaceOk(s, t);
    }
    forall j | j in s'.pcs
      ensures PcOk(s', j)
    {
      PassKeeps(s, s', j);
    }
  }

  /** The target namespaces change: none is renamed or relabelled, those that go are empty. */
  lemma NamespacesKeepInv(s: State, namespaces': map<TargetNs, TargetNamespace>, issued': map<TargetNs, string>)
    requires Inv(s) && forall t :: t in s.issued ==> t in issued' && issued'[t] == s.issued[t]
    requires var s' := s.(namespaces := namespaces', issued := issued');
             && (forall t :: t in namespaces' ==> NamespaceOk(s', t))
             && OneNamespacePerUid(s')
             && (forall j :: j in s.pcs ==> NamespacesKeep(s, s', j))
             && (forall tk :: tk in s.targets ==>
                   tk.ns in namespaces' && namespaces'[tk.ns].ownerName == s.namespaces[tk.ns].ownerName)
    ensures Inv(s.(namespaces := namespaces', issued := issued'))
  {
    hide PastOk, PcOk, Held, NamespacesKeep;
    var s' := s.(namespaces := namespaces', issued := issued');
    SamePastOk(s, s');
    forall tk | tk in s'.targets
      ensures TargetOk(s', tk)
    {
      assert TargetOk(s, tk);
    }
    forall j | j in s'.pcs
      ensures PcOk(s', j)
    {
      PassKeeps(s, s', j);
    }
  }

  // ---------- Environment steps ----------

  lemma AppendKeeps(s: State, k: Key, o: Option<SourceObject>, born': map<Uid, Key>)
    requires Inv(s)
    requires forall u :: u in s.born ==> u in born' && born'[u] == s.born[u]
    requires o.Some? ==> BornAs(born', k, o.value)
    requires Follows(Live(s, k), o)
    ensures Inv(Append(s.(born := born'), k, o))
  {
    var v := ViewOf(s, k);
    var v' := v + [o];
    assert ViewOk(s.born, k, v) by {
      if k in s.views {
        assert ViewOk(s.born, k, s.views[k]);
      }
    }
    forall i, j | 0 <= i <= j < |v'|
      ensures Follows(v'[i], v'[j])
    {
      if i < |v| {
        assert Follows(v[i], v[|v| - 1]);
      }
    }
    assert Extends(v, v') by {
      forall uid | Held(v, uid)
        ensures Held(v', uid) && (Doomed(v) ==> Doomed(v'))
      {
        assert v[|v| - 1].Some?;
      }
    }
    ViewKeeps(s, k, v', born');
  }

  lemma DeliverKeeps(s: State, k: Key)
    requires Inv(s) && |ViewOf(s, k)| >= 2
    ensures Inv(s.(views := s.views[k := ViewOf(s, k)[1..]]))
  {
    var v := ViewOf(s, k);
    assert ViewOk(s.born, k, v);
    var v' := v[1..];
    forall i, j | 0 <= i <= j < |v'|
      ensures Follows(v'[i], v'[j])
    {
      assert Follows(v[i + 1], v[j + 1]);
    }
    assert Extends(v, v');
    ViewKeeps(s, k, v', s.born);
    assert s.(views := s.views[k := v']) == s.(views := s.views[k := v'], born := s.born);
  }

  lemma SourceStepKeeps(cfg: Config, s: State, a: Action)
    requires Inv(s) && SourceSide(a)
    ensures Inv(Step(cfg, s, a))
  {
    if a.Deliver? {
      if |ViewOf(s, a.k)| >= 2 {
        DeliverKeeps(s, a.k);
      }
    } else {
      assert ViewOk(s.born, a.k, ViewOf(s, a.k));
      match a
      case Create(k, uid, spec) =>
        if Live(s, k).None? && uid !in s.born && Typed(k, spec) {
          AppendKeeps(s, k, Some(SourceObject(uid, false, false, spec)), s.born[uid := k]);
        }
      case Edit(k, spec) =>
        if Live(s, k).Some? && Typed(k, spec) {
          AppendKeeps(s, k, Some(Live(s, k).value.(spec := spec)), s.born);
        }
      case Mark(k) =>
        if Live(s, k).Some? {
          AppendKeeps(s, k, Some(Live(s, k).value.(deleting := true)), s.born);
        }
      case Vanish(k) =>
        if Live(s, k).Some? && !Live(s, k).value.fin {
          AppendKeeps(s, k, None, s.born);
        }
    }
  }

  lemma PutPastOk(s: State, tk: TargetKey, obj: TargetObject, x: TargetKey)
    requires PastOk(s, x) && VersionOk(s, tk, obj)
    ensures PastOk(PutTarget(s, tk, obj), x)
  {
    var s' := PutTarget(s, tk, obj);
    forall y | y in PastOf(s', x)
      ensures VersionOk(s', x, y)
    {
      assert y in PastOf(s, x) ==> VersionOk(s, x, y);
    }
  }

  lemma TargetPutKeeps(s: State, tk: TargetKey, obj: TargetObject)
    requires Inv(s)
    requires tk.ns in s.namespaces && TargetTyped(tk.kind, obj.spec)
    requires obj.owner.Some? ==> tk in s.targets && s.targets[tk].owner == obj.owner
    ensures Inv(PutTarget(s, tk, obj))
  {
    hide PcOk, Held, Doomed;
    var s' := PutTarget(s, tk, obj);
    assert PastOk(s, tk);
    if tk in s.targets {
      assert TargetOk(s, tk);
    }
    forall x
      ensures PastOk(s', x)
    {
      PutPastOk(s, tk, obj, x);
    }
    forall x | x in s'.targets
      ensures TargetOk(s', x)
    {
      if x in s.targets {
        assert TargetOk(s, x);
      }
    }
    TargetsKeep(s, s'.targets, s'.past);
  }

  lemma TargetDropKeeps(s: State, tk: TargetKey)
    requires Inv(s)
    ensures Inv(DropTarget(s, tk))
  {
    var s' := DropTarget(s, tk);
    SamePastOk(s, s');
    forall x | x in s'.targets
      ensures TargetOk(s', x)
    {
      assert TargetOk(s, x);
    }
    TargetsKeep(s, s'.targets, s'.past);
    assert s' == s.(targets := s'.targets, past := s'.past);
  }

  /** What is said about a target that is there. */
  lemma TargetKnown(s: State, tk: TargetKey)
    requires Inv(s) && tk in s.targets
    ensures tk.ns in s.namespaces && s.targets[tk] in PastOf(s, tk) && TargetTyped(tk.kind, s.targets[tk].spec)
  {
    assert TargetOk(s, tk) && PastOk(s, tk);
  }

  lemma TargetMarkKeeps(cfg: Config, s: State, tk: TargetKey)
    requires Inv(s)
    ensures Inv(Step(cfg, s, TargetMark(tk)))
  {
    hide Inv, PutTarget, PassStep;
    if tk in s.targets {
      TargetKnown(s, tk);
      TargetPutKeeps(s, tk, s.targets[tk].(deleting := true));
    }
  }

  lemma TargetFinishKeeps(cfg: Config, s: State, tk: TargetKey)
    requires Inv(s)
    ensures Inv(Step(cfg, s, TargetFinish(tk)))
  {
    hide Inv, DropTarget, PassStep;
    TargetDropKeeps(s, tk);
  }

  lemma TargetEditKeeps(cfg: Config, s: State, tk: TargetKey, image: TargetSpec)
    requires Inv(s)
    ensures Inv(Step(cfg, s, TargetEdit(tk, image)))
  {
    hide Inv, PutTarget, PassStep;
    if tk in s.targets && TargetTyped(tk.kind, image) {
      TargetKnown(s, tk);
      TargetPutKeeps(s, tk, s.targets[tk].(spec := image));
    }
  }

  lemma TargetForeignKeeps(cfg: Config, s: State, tk: TargetKey, uid: Uid, image: TargetSpec)
    requires Inv(s)
    ensures Inv(Step(cfg, s, TargetForeign(tk, uid, image)))
  {
    hide Inv, PutTarget, PassStep;
    if tk.ns in s.namespaces && TargetTyped(tk.kind, image) {
      TargetPutKeeps(s, tk, TargetObject(None, uid, false, image));
    }
  }

  lemma NamespaceFinishKeeps(cfg: Config, s: State, t: TargetNs)
    requires Inv(s)
    ensures Inv(Step(cfg, s, NamespaceFinish(t)))
  {
    hide PastOk, PcOk, Held, Doomed, PassStep, SourceStep;
    if t in s.namespaces && s.namespaces[t].deleting && !(exists tk :: tk in s.targets && tk.ns == t) {
      var s' := s.(namespaces := s.namespaces - {t});
      forall t' | t' in s'.namespaces
        ensures NamespaceOk(s', t')
      {
        assert NamespaceOk(s, t');
      }
      forall tk | tk in s.targets
        ensures tk.ns in s'.namespaces && s'.namespaces[tk.ns].ownerName == s.namespaces[tk.ns].ownerName
      {
        assert TargetOk(s, tk);
      }
      NamespacesKeepInv(s, s.namespaces - {t}, s.issued);
      assert s' == s.(namespaces := s.namespaces - {t}, issued := s.issued);
    }
  }

  // ---------- Writes of the broker to source objects ----------

  lemma AddFinalizerKeeps(s: State, k: Key)
    requires Inv(s)
    ensures Inv(AddFinalizer(s, k))
  {
    if Live(s, k).Some? && !Live(s, k).value.deleting {
      var v := ViewOf(s, k);
      var l := Live(s, k).value.(fin := true);
      assert ViewOk(s.born, k, v);
      assert BornAs(s.born, k, Live(s, k).value);
      ViewKeeps(s, k, [Some(l)], s.born);
      assert AddFinalizer(s, k) == s.(views := s.views[k := [Some(l)]], born := s.born);
    }
  }

  lemma EnsureFinalizerKeeps(s: State, k: Key, o: SourceObject, next: Pc)
    requires Inv(s)
    requires o.fin ==> next.Idle? || PcOk(Goto(s, k, next), k)
    ensures Inv(Goto(EnsureFinalizer(s, k, o), k, if o.fin then next else Idle))
  {
    if o.fin {
      GotoKeeps(s, k, next);
    } else {
      AddFinalizerKeeps(s, k);
      GotoKeeps(AddFinalizer(s, k), k, Idle);
    }
  }

  /** Nothing on the target side depends on the finalizer of `k`. */
  ghost predicate Released(s: State, k: Key) {
    && (forall t :: t in s.namespaces ==> NsKey(s.namespaces[t].ownerName) != k)
    && NoTargetFor(s, k)
  }

  lemma LastViewOk(s: State, k: Key)
    requires Inv(s) && Live(s, k).Some?
    ensures ViewOk(s.born, k, [Some(Live(s, k).value.(fin := false))])
  {
    assert ViewOk(s.born, k, ViewOf(s, k));
    assert BornAs(s.born, k, Live(s, k).value);
  }

  lemma ReleasedViewTargets(s: State, k: Key, v: View)
    requires Inv(s) && Released(s, k)
    ensures var s' := s.(views := s.views[k := v]);
            (forall t :: t in s'.namespaces ==> NamespaceOk(s', t)) && (forall tk :: tk in s'.targets ==> TargetOk(s', tk))
  {
    hide PastOk, PcOk, Held, Doomed;
    var s' := s.(views := s.views[k := v]);
    forall t | t in s'.namespaces
      ensures NamespaceOk(s', t)
    {
      assert NamespaceOk(s, t);
    }
    forall tk | tk in s'.targets
      ensures TargetOk(s', tk)
    {
      assert TargetOk(s, tk) && !TargetFor(s, k, tk);
    }
  }

  /** The view of a released key may be replaced by anything that is a view. */
  lemma ReleasedViewKeeps(s: State, k: Key, v: View)
    requires Inv(s) && k !in s.pcs && Released(s, k) && ViewOk(s.born, k, v)
    ensures Inv(s.(views := s.views[k := v]))
  {
    hide ViewOk, PastOk, PcOk, Doomed, TargetOk, Held, Released;
    var s' := s.(views := s.views[k := v]);
    SamePastOk(s, s');
    ReleasedViewTargets(s, k, v);
    forall j | j in s'.pcs
      ensures PcOk(s', j)
    {
      PassKeeps(s, s', j);
    }
  }

  lemma RemoveFinalizerKeeps(s: State, k: Key)
    requires Inv(s) && Released(s, k)
    ensures Inv(Goto(RemoveFinalizer(s, k), k, Idle))
  {
    hide Inv, ViewOk;
    GotoKeeps(s, k, Idle);
    if Live(s, k).Some? {
      LastViewOk(s, k);
      assert forall tk :: TargetFor(Goto(s, k, Idle), k, tk) ==> TargetFor(s, k, tk);
      ReleasedViewKeeps(Goto(s, k, Idle), k, [Some(Live(s, k).value.(fin := false))]);
    }
  }

  // ---------- Passes ----------

  lemma ReadRelies(s: State, k: Key)
    requires Inv(s) && Cached(s, k).Some?
    ensures Relies(s, k, Cached(s, k).value)
  {
    var v := ViewOf(s, k);
    assert ViewOk(s.born, k, v);
    assert BornAs(s.born, k, v[0].value);
    forall i | 0 <= i < |v|
      ensures Follows(v[0], v[i])
    {
    }
  }

  ghost predicate HasLabel(s: State, uid: Uid, t: TargetNs) {
    t in s.namespaces && s.namespaces[t].sourceUid == uid
  }

  /** A match alone is not enough in any state: it must be the only one and controlled by the uid. */
  lemma ListSingleRejects(s: State, uid: Uid, t: TargetNs)
    ensures ListSingle(s, uid) == NotFound ==> NoNamespaceOf(s, uid)
    ensures ListSingle(s, uid) == One(t) <==>
            HasLabel(s, uid, t) && s.namespaces[t].owner == uid && forall t' :: HasLabel(s, uid, t') ==> t' == t
  {
    var matches := Labelled(s, uid);
    assert forall x :: x in matches <==> HasLabel(s, uid, x);
    assert forall x :: x in s.namespaces && s.namespaces[x].sourceUid == uid <==> HasLabel(s, uid, x);
    if HasLabel(s, uid, t) && forall t' :: HasLabel(s, uid, t') ==> t' == t {
      assert matches == {t};
    }
  }

  /** What `ListSingle` found belongs to the uid; there never is a second match or a foreign one. */
  lemma ListSingleExact(s: State, uid: Uid)
    requires Inv(s)
    ensures match ListSingle(s, uid)
            case NotFound => NoNamespaceOf(s, uid)
            case One(t) =>
              t in s.namespaces && s.namespaces[t].sourceUid == uid && s.namespaces[t].owner == uid && NamespaceOk(s, t) &&
              forall t' :: t' in s.namespaces && s.namespaces[t'].sourceUid == uid ==> t' == t
            case Rejected => false
  {
    var matches := Labelled(s, uid);
    if matches == {} {
      forall t | t in s.namespaces
        ensures s.namespaces[t].sourceUid != uid
      {
        assert t !in matches;
      }
    } else {
      var t :| t in matches;
      forall t' | t' in matches
        ensures t' == t
      {
      }
      assert matches == {t};
      assert NamespaceOk(s, t);
    }
  }

  /** The source namespace of a target namespace is held, from the cache to the cluster. */
  lemma NamespaceHolds(s: State, t: TargetNs)
    requires Inv(s) && t in s.namespaces
    ensures Held(ViewOf(s, NsKey(s.namespaces[t].ownerName)), s.namespaces[t].sourceUid)
  {
    assert NamespaceOk(s, t);
  }

  /** Two target namespaces for one source name are one. */
  lemma NamespaceOfName(s: State, t: TargetNs, t': TargetNs)
    requires Inv(s) && t in s.namespaces && t' in s.namespaces
    requires s.namespaces[t].ownerName == s.namespaces[t'].ownerName
    ensures t == t'
  {
    assert NamespaceOk(s, t) && NamespaceOk(s, t');
    var v := ViewOf(s, NsKey(s.namespaces[t].ownerName));
    assert v[0].value.uid == s.namespaces[t].sourceUid;
  }

  /** The name behind a uid for which a target namespace exists. */
  lemma NamespaceOfUid(s: State, t: TargetNs, name: string)
    requires Inv(s) && t in s.namespaces
    requires s.namespaces[t].sourceUid in s.born && s.born[s.namespaces[t].sourceUid] == NsKey(name)
    ensures s.namespaces[t].ownerName == name
  {
    assert NamespaceOk(s, t);
    var k := NsKey(s.namespaces[t].ownerName);
    var v := ViewOf(s, k);
    assert v[0].Some? && v[0].value.uid == s.namespaces[t].sourceUid;
    assert ViewOk(s.born, k, v);
  }

  lemma StartKeeps(cfg: Config, s: State, k: Key, c: Choice)
    requires Inv(s) && (PcOf(s, k).Idle? || PcOf(s, k).Got?)
    ensures Inv(PassStep(cfg, s, k, c))
  {
    hide Inv, Held, Doomed, ListSingle, TargetLookup, ReadTarget, LookupOrder, WriteTarget;
    PcsAreOk(s, k);
    match PcOf(s, k)
    case Idle =>
      if Cached(s, k).Some? {
        ReadRelies(s, k);
        GotoKeeps(s, k, Got(Cached(s, k).value));
      } else {
        GotoKeeps(s, k, Idle);
      }
    case Got(o) => GotoKeeps(s, k, BranchPc(cfg, k, o, c.wanted));
  }

  // ---------- Passes on namespaces ----------

  lemma ListsReadOnly(cfg: Config, s: State, k: Key, pc: Pc, c: Choice)
    requires pc.NsDelList? || pc.NsList? || pc.DelList? || pc.RecList?
    ensures Effect(cfg, s, k, pc, c) == s
  {
  }

  lemma ListStep(cfg: Config, s: State, k: Key, c: Choice)
    requires var pc := PcOf(s, k); pc.NsDelList? || pc.NsList? || pc.DelList? || pc.RecList?
    ensures PassStep(cfg, s, k, c) == Goto(s, k, NextPc(cfg, s, k, PcOf(s, k), c))
  {
    hide Effect, NextPc, Goto;
    ListsReadOnly(cfg, s, k, PcOf(s, k), c);
  }

  lemma NamespaceLookupKeeps(cfg: Config, s: State, k: Key, c: Choice)
    requires Inv(s) && k.NsKey? && (PcOf(s, k).NsDelList? || PcOf(s, k).NsList?)
    ensures Inv(PassStep(cfg, s, k, c))
  {
    hide Inv, Effect, PassStep, ListSingle, Held, Doomed, FoundOk, TargetLookup, LookupOrder, ReadTarget;
    PcsAreOk(s, k);
    ListStep(cfg, s, k, c);
    var o := PcOf(s, k).o;
    ListSingleExact(s, o.uid);
    if ListSingle(s, o.uid).One? {
      NamespaceOfUid(s, ListSingle(s, o.uid).t, k.name);
    }
    GotoKeeps(s, k, NextPc(cfg, s, k, PcOf(s, k), c));
  }

  /** Whoever marks a target namespace. */
  lemma MarkNamespaceKeeps(s: State, t: TargetNs)
    requires Inv(s) && t in s.namespaces
    ensures Inv(MarkNamespace(s, t))
  {
    hide PastOk, PcOk, Held, Doomed;
    var s' := MarkNamespace(s, t);
    forall x | x in s'.namespaces
      ensures NamespaceOk(s', x)
    {
      assert NamespaceOk(s, x);
    }
    forall tk | tk in s.targets
      ensures tk.ns in s'.namespaces && s'.namespaces[tk.ns].ownerName == s.namespaces[tk.ns].ownerName
    {
      assert TargetOk(s, tk);
    }
    NamespacesKeepInv(s, s'.namespaces, s.issued);
    assert s' == s.(namespaces := s'.namespaces, issued := s.issued);
  }

  lemma NewNamespacesOk(s: State, k: Key, o: SourceObject, generated: TargetNs)
    requires Inv(s) && k.NsKey? && Secured(s, k, o) && generated !in s.issued
    ensures var s' := CreateNamespace(s, k, o, generated);
            generated !in s.namespaces && forall t :: t in s'.namespaces ==> NamespaceOk(s', t)
  {
    hide PastOk, PcOk, Doomed;
    var s' := CreateNamespace(s, k, o, generated);
    forall t | t in s.namespaces
      ensures t != generated && NamespaceOk(s', t)
    {
      assert NamespaceOk(s, t);
    }
    assert NamespaceOk(s', generated);
  }

  lemma NewNamespaceKeeps(s: State, k: Key, o: SourceObject, generated: TargetNs)
    requires Inv(s) && k.NsKey? && Secured(s, k, o) && NoNamespaceOf(s, o.uid)
    requires k !in s.pcs && generated !in s.issued
    ensures Inv(CreateNamespace(s, k, o, generated))
  {
    hide NamespaceOk, PastOk, PcOk, Held, Doomed;
    var s' := CreateNamespace(s, k, o, generated);
    NewNamespacesOk(s, k, o, generated);
    forall tk | tk in s.targets
      ensures tk.ns in s'.namespaces && s'.namespaces[tk.ns].ownerName == s.namespaces[tk.ns].ownerName
    {
      assert TargetOk(s, tk);
    }
    NamespacesKeepInv(s, s'.namespaces, s'.issued);
  }

  lemma CreateNamespaceKeeps(s: State, k: Key, o: SourceObject, generated: TargetNs)
    requires Inv(s) && k.NsKey? && Secured(s, k, o) && NoNamespaceOf(s, o.uid)
    ensures Inv(Goto(CreateNamespace(s, k, o, generated), k, Idle))
  {
    GotoKeeps(s, k, Idle);
    if generated !in s.issued {
      NewNamespaceKeeps(Goto(s, k, Idle), k, o, generated);
      assert CreateNamespace(Goto(s, k, Idle), k, o, generated) == Goto(CreateNamespace(s, k, o, generated), k, Idle);
    }
  }

  /** The only target namespace of a secured source namespace is the one labelled with its uid. */
  lemma NamespaceReleased(s: State, k: Key, o: SourceObject)
    requires Inv(s) && k.NsKey? && Secured(s, k, o) && NoNamespaceOf(s, o.uid)
    ensures Released(s, k)
  {
    forall t | t in s.namespaces
      ensures NsKey(s.namespaces[t].ownerName) != k
    {
      assert NamespaceOk(s, t);
      var v := ViewOf(s, k);
      assert v[0].value.uid == o.uid;
    }
  }

  lemma NamespaceDeleteKeeps(cfg: Config, s: State, k: Key, c: Choice)
    requires Inv(s) && k.NsKey? && (PcOf(s, k).NsDelIssue? || PcOf(s, k).DelFin?)
    ensures Inv(PassStep(cfg, s, k, c))
  {
    PcsAreOk(s, k);
    match PcOf(s, k)
    case NsDelIssue(o, t) =>
      if t in s.namespaces {
        MarkNamespaceKeeps(s, t);
        GotoKeeps(MarkNamespace(s, t), k, Idle);
      } else {
        GotoKeeps(s, k, DelFin(o));
      }
    case DelFin(o) =>
      NamespaceReleased(s, k, o);
      RemoveFinalizerKeeps(s, k);
  }

  lemma NamespaceReconcileKeeps(cfg: Config, s: State, k: Key, c: Choice)
    requires Inv(s) && k.NsKey?
    requires var pc := PcOf(s, k); pc.NsKeep? || pc.NsRef? || pc.NsFin? || pc.NsCreate?
    ensures Inv(PassStep(cfg, s, k, c))
  {
    hide Inv, WriteTarget, AddFinalizer, RemoveFinalizer, DeleteTarget, CreateNamespace;
    PcsAreOk(s, k);
    match PcOf(s, k)
    case NsKeep(o) => EnsureFinalizerKeeps(s, k, o, Idle);
    case NsRef(o) => GotoKeeps(s, k, if c.wanted then NsFin(o) else Idle);
    case NsFin(o) => EnsureFinalizerKeeps(s, k, o, NsCreate(o));
    case NsCreate(o) => CreateNamespaceKeeps(s, k, o, c.generated);
  }

  lemma NamespacePassKeeps(cfg: Config, s: State, k: Key, c: Choice)
    requires Inv(s) && k.NsKey?
    ensures Inv(PassStep(cfg, s, k, c))
  {
    PcsAreOk(s, k);
    var pc := PcOf(s, k);
    if pc.Idle? || pc.Got? {
      StartKeeps(cfg, s, k, c);
    } else if pc.NsDelList? || pc.NsList? {
      NamespaceLookupKeeps(cfg, s, k, c);
    } else if pc.NsDelIssue? || pc.DelFin? {
      NamespaceDeleteKeeps(cfg, s, k, c);
    } else {
      NamespaceReconcileKeeps(cfg, s, k, c);
    }
  }

  // ---------- Passes on objects ----------

  /** All targets of an object are in the target namespace of the uid that the cache shows for its namespace. */
  lemma TargetsInCachedNamespace(s: State, k: Key)
    requires Inv(s) && k.ObjKey? && Cached(s, NsKey(k.ns)).Some?
    ensures NsUid(s, k, Cached(s, NsKey(k.ns)).value.uid)
    ensures forall tk :: TargetFor(s, k, tk) ==> s.namespaces[tk.ns].sourceUid == Cached(s, NsKey(k.ns)).value.uid
  {
    ReadRelies(s, NsKey(k.ns));
    forall tk | TargetFor(s, k, tk)
      ensures s.namespaces[tk.ns].sourceUid == Cached(s, NsKey(k.ns)).value.uid
    {
      assert NamespaceOk(s, tk.ns);
    }
  }

  lemma ReadNamespaceStep(cfg: Config, s: State, k: Key, c: Choice)
    requires PcOf(s, k).DelNs? || PcOf(s, k).RecNs?
    ensures PassStep(cfg, s, k, c) == Goto(s, k,
              match Cached(s, NamespaceOf(k))
              case None => Idle
              case Some(n) => if PcOf(s, k).DelNs? then DelList(PcOf(s, k).o, n.uid) else RecList(PcOf(s, k).o, n.uid))
  {
    hide Goto;
  }

  lemma ReadNamespaceKeeps(cfg: Config, s: State, k: Key, c: Choice)
    requires Inv(s) && k.ObjKey? && (PcOf(s, k).DelNs? || PcOf(s, k).RecNs?)
    ensures Inv(PassStep(cfg, s, k, c))
  {
    hide Inv, PassStep, Held, Doomed;
    PcsAreOk(s, k);
    ReadNamespaceStep(cfg, s, k, c);
    match Cached(s, NsKey(k.ns))
    case None => GotoKeeps(s, k, Idle);
    case Some(n) =>
      TargetsInCachedNamespace(s, k);
      GotoKeeps(s, k, if PcOf(s, k).DelNs? then DelList(PcOf(s, k).o, n.uid) else RecList(PcOf(s, k).o, n.uid));
  }

  lemma LookupKeeps(cfg: Config, s: State, k: Key, c: Choice)
    requires Inv(s) && k.ObjKey? && (PcOf(s, k).DelList? || PcOf(s, k).RecList?)
    ensures Inv(PassStep(cfg, s, k, c))
  {
    hide Inv, Effect, PassStep, ListSingle, Held, Doomed, HadTarget, TargetLookup, LookupOrder, ReadTarget;
    PcsAreOk(s, k);
    ListStep(cfg, s, k, c);
    var nsUid := PcOf(s, k).nsUid;
    ListSingleExact(s, nsUid);
    if ListSingle(s, nsUid).One? {
      NamespaceOfUid(s, ListSingle(s, nsUid).t, k.ns);
    }
    GotoKeeps(s, k, NextPc(cfg, s, k, PcOf(s, k), c));
  }

  lemma DeleteTargetStep(cfg: Config, s: State, k: Key, c: Choice)
    requires k.ObjKey? && PcOf(s, k).DelIssue?
    ensures var DelIssue(o, t) := PcOf(s, k);
            var tk := TargetKeyOf(k, t);
            PassStep(cfg, s, k, c) ==
              if tk !in s.targets then Goto(s, k, DelFin(o))
              else Goto(if c.vanish then DropTarget(s, tk) else PutTarget(s, tk, s.targets[tk].(deleting := true)), k, Idle)
  {
    hide PutTarget, DropTarget, Goto;
  }

  lemma TargetSeenGone(s: State, k: Key)
    requires Inv(s) && k.ObjKey? && PcOf(s, k).DelIssue? && TargetKeyOf(k, PcOf(s, k).t) !in s.targets
    ensures PcOk(Goto(s, k, DelFin(PcOf(s, k).o)), k)
  {
    hide FoundOk, PastOk, Held, Doomed;
    PcsAreOk(s, k);
    var DelIssue(o, t) := PcOf(s, k);
    assert forall tk :: TargetFor(s, k, tk) ==> tk == TargetKeyOf(k, t);
    assert forall tk :: TargetFor(Goto(s, k, DelFin(o)), k, tk) ==> TargetFor(s, k, tk);
  }

  lemma DeleteTargetKeeps(cfg: Config, s: State, k: Key, c: Choice)
    requires Inv(s) && k.ObjKey? && PcOf(s, k).DelIssue?
    ensures Inv(PassStep(cfg, s, k, c))
  {
    hide Inv, PcOk, PassStep, PutTarget, DropTarget;
    var DelIssue(o, t) := PcOf(s, k);
    var tk := TargetKeyOf(k, t);
    DeleteTargetStep(cfg, s, k, c);
    if tk !in s.targets {
      TargetSeenGone(s, k);
      GotoKeeps(s, k, DelFin(o));
    } else if c.vanish {
      TargetDropKeeps(s, tk);
      GotoKeeps(DropTarget(s, tk), k, Idle);
    } else {
      TargetKnown(s, tk);
      var obj := s.targets[tk].(deleting := true);
      TargetPutKeeps(s, tk, obj);
      GotoKeeps(PutTarget(s, tk, obj), k, Idle);
    }
  }

  /** Whatever the cache returns has been there. */
  lemma ReadTargetKnown(s: State, c: Choice, tk: TargetKey)
    requires Inv(s) && ReadTarget(s, c, tk).Some?
    ensures ReadTarget(s, c, tk).value in PastOf(s, tk)
    ensures TargetTyped(tk.kind, ReadTarget(s, c, tk).value.spec)
  {
    assert PastOk(s, tk);
    if tk in s.targets {
      assert TargetOk(s, tk);
    }
  }

  /** Moving the program counter changes nothing that is known. */
  lemma SamePcFacts(s: State, k: Key, pc: Pc, o: SourceObject, found: Found)
    requires Relies(s, k, o) && FoundOk(s, found)
    ensures Relies(Goto(s, k, pc), k, o) && FoundOk(Goto(s, k, pc), found)
  {
    assert Grows(s, Goto(s, k, pc));
    FoundKeeps(s, Goto(s, k, pc), found);
  }

  lemma FetchStep(cfg: Config, s: State, k: Key, c: Choice)
    requires k.ObjKey? && PcOf(s, k).Fetch?
    ensures var Fetch(o, t, found) := PcOf(s, k);
            PassStep(cfg, s, k, c) == Goto(s, k, Write(o, t, found, ReadTarget(s, c, TargetKeyOf(k, t))))
  {
    hide ReadTarget, Goto;
  }

  lemma FetchKeeps(cfg: Config, s: State, k: Key, c: Choice)
    requires Inv(s) && k.ObjKey? && PcOf(s, k).Fetch?
    ensures Inv(PassStep(cfg, s, k, c))
  {
    hide Inv, Relies, FoundOk, ReadTarget, PassStep;
    PcsAreOk(s, k);
    FetchStep(cfg, s, k, c);
    var Fetch(o, t, found) := PcOf(s, k);
    var read := ReadTarget(s, c, TargetKeyOf(k, t));
    if read.Some? {
      ReadTargetKnown(s, c, TargetKeyOf(k, t));
    }
    SamePcFacts(s, k, Write(o, t, found, read), o, found);
    GotoKeeps(s, k, Write(o, t, found, read));
  }

  lemma NamespaceIssued(s: State, t: TargetNs)
    requires Inv(s) && t in s.namespaces
    ensures t in s.issued && s.issued[t] == s.namespaces[t].ownerName
  {
    assert NamespaceOk(s, t);
  }

  /** A lookup that succeeds has seen a target of the peer, present or past. */
  lemma LookupHits(cfg: Config, s: State, c: Choice, d: Key)
    requires Inv(s) && TargetLookup(cfg, s, c, d).Hit?
    ensures d.ObjKey? && TargetLookup(cfg, s, c, d).ref.name == d.name
    ensures HadTarget(s, d, TargetLookup(cfg, s, c, d).ref.uid)
  {
    hide ReadTarget, ListSingle, NamespaceOk, PastOk;
    var n := Cached(s, NamespaceOf(d)).value;
    ListSingleExact(s, n.uid);
    ReadRelies(s, NamespaceOf(d));
    var t := ListSingle(s, n.uid).t;
    NamespaceOfUid(s, t, d.ns);
    NamespaceIssued(s, t);
    ReadTargetKnown(s, c, TargetKeyOf(d, t));
    assert HadTargetAt(s, d, t, ReadTarget(s, c, TargetKeyOf(d, t)).value);
  }

  lemma NotedOk(cfg: Config, s: State, c: Choice, d: Key, found: Found)
    requires Inv(s) && FoundOk(s, found)
    ensures FoundOk(s, Noted(found, d, TargetLookup(cfg, s, c, d)))
  {
    hide Inv, TargetLookup, HadTarget;
    if TargetLookup(cfg, s, c, d).Hit? {
      LookupHits(cfg, s, c, d);
    }
  }

  /** The write of a pass on another key creates no target of this one. */
  lemma WriterResolved(s: State, j: Key)
    requires Inv(s) && PcOf(s, j).Write?
    ensures j.ObjKey? && ResolvedFor(s, j, PcOf(s, j).t)
  {
    hide FoundOk, Secured;
    PcsAreOk(s, j);
  }

  lemma ResolvedName(s: State, j: Key, t: TargetNs)
    requires Inv(s) && j.ObjKey? && ResolvedFor(s, j, t)
    ensures t in s.namespaces ==> s.namespaces[t].ownerName == j.ns
  {
    hide Inv;
    if t in s.namespaces {
      NamespaceIssued(s, t);
    }
  }

  lemma LookupCall(cfg: Config, s: State, k: Key, c: Choice)
    requires PcOf(s, k).Lookup?
    ensures var Lookup(o, t, rest, found) := PcOf(s, k);
            PassStep(cfg, s, k, c) == Goto(s, k,
              if rest == [] then Fetch(o, t, found)
              else var a := TargetLookup(cfg, s, c, rest[0]);
                   if a.Error? then Idle else Lookup(o, t, rest[1..], Noted(found, rest[0], a)))
  {
    hide TargetLookup, Goto, Noted;
  }

  lemma LookupStepKeeps(cfg: Config, s: State, k: Key, c: Choice)
    requires Inv(s) && k.ObjKey? && PcOf(s, k).Lookup?
    ensures Inv(PassStep(cfg, s, k, c))
  {
    hide Inv, Relies, FoundOk, TargetLookup, HadTarget, PassStep, Noted;
    PcsAreOk(s, k);
    LookupCall(cfg, s, k, c);
    var Lookup(o, t, rest, found) := PcOf(s, k);
    if rest == [] {
      SamePcFacts(s, k, Fetch(o, t, found), o, found);
      GotoKeeps(s, k, Fetch(o, t, found));
    } else {
      var a := TargetLookup(cfg, s, c, rest[0]);
      var next := Lookup(o, t, rest[1..], Noted(found, rest[0], a));
      NotedOk(cfg, s, c, rest[0], found);
      SamePcFacts(s, k, next, o, Noted(found, rest[0], a));
      GotoKeeps(s, k, if a.Error? then Idle else next);
    }
  }

  lemma SecuredAt(s: State, k: Key, pc: Pc, o: SourceObject)
    requires Secured(s, k, o)
    ensures Secured(Goto(s, k, pc), k, o)
  {
  }

  lemma NewTargetKeeps(s: State, k: Key, o: SourceObject, t: TargetNs, x: TargetObject)
    requires Inv(s) && k.ObjKey? && k !in s.pcs && Secured(s, k, o) && ResolvedFor(s, k, t)
    requires t in s.namespaces && TargetKeyOf(k, t) !in s.targets
    requires TargetTyped(k.kind, x.spec) && x.owner == Some(o.uid)
    ensures Inv(PutTarget(s, TargetKeyOf(k, t), x))
  {
    var tk := TargetKeyOf(k, t);
    var s' := PutTarget(s, tk, x);
    assert NamespaceOk(s, t);
    forall y
      ensures PastOk(s', y)
    {
      PutPastOk(s, tk, x, y);
    }
    forall y | y in s'.targets
      ensures TargetOk(s', y)
    {
      if y != tk {
        assert TargetOk(s, y);
      }
    }
    TargetsKeep(s, s'.targets, s'.past);
  }

  lemma CreateTargetKeeps(cfg: Config, s: State, k: Key, o: SourceObject, t: TargetNs, found: Found, uid: Uid)
    requires Inv(s) && Writable(k, o.spec) && Secured(s, k, o) && ResolvedFor(s, k, t)
    ensures Inv(Goto(CreateTarget(cfg, s, k, o, t, found, uid), k, Idle))
  {
    hide Inv, Secured;
    GotoKeeps(s, k, Idle);
    var tk := TargetKeyOf(k, t);
    if !Partial(k, o.spec, found) && t in s.namespaces && !s.namespaces[t].deleting && tk !in s.targets {
      var x := TargetObject(Some(o.uid), uid, false, Apply(cfg, k, o.spec, found, ZeroTarget(k.kind)));
      SecuredAt(s, k, Idle, o);
      NewTargetKeeps(Goto(s, k, Idle), k, o, t, x);
      assert Goto(PutTarget(s, tk, x), k, Idle) == PutTarget(Goto(s, k, Idle), tk, x);
    }
  }

  lemma PatchTargetKeeps(cfg: Config, s: State, k: Key, o: SourceObject, t: TargetNs, found: Found, current: TargetObject)
    requires Inv(s) && Writable(k, o.spec)
    ensures Inv(PatchTarget(cfg, s, k, o, t, found, current))
  {
    hide Inv, PutTarget, Apply;
    var tk := TargetKeyOf(k, t);
    if tk in s.targets && TargetTyped(k.kind, current.spec) {
      TargetKnown(s, tk);
      var mutated := Apply(cfg, k, o.spec, found, current.spec);
      MergePatchTyped(k.kind, current.spec, mutated, s.targets[tk].spec);
      TargetPutKeeps(s, tk, s.targets[tk].(spec := MergePatch(current.spec, mutated, s.targets[tk].spec)));
    }
  }

  lemma WriteKeeps(cfg: Config, s: State, k: Key, c: Choice)
    requires Inv(s) && k.ObjKey? && PcOf(s, k).Write?
    ensures Inv(PassStep(cfg, s, k, c))
  {
    hide Inv, CreateTarget, PatchTarget, Secured;
    PcsAreOk(s, k);
    var Write(o, t, found, current) := PcOf(s, k);
    if !Writable(k, o.spec) || Refused(o, current) {
      GotoKeeps(s, k, Idle);
    } else if current.None? {
      CreateTargetKeeps(cfg, s, k, o, t, found, c.uid);
    } else {
      PatchTargetKeeps(cfg, s, k, o, t, found, current.value);
      GotoKeeps(PatchTarget(cfg, s, k, o, t, found, current.value), k, Idle);
    }
  }

  lemma FinalizerEffects(cfg: Config, s: State, k: Key, pc: Pc, c: Choice)
    requires k.ObjKey? && (pc.VolumeFin? || pc.RecFin? || pc.DelFin?)
    ensures Goto(Effect(cfg, s, k, pc, c), k, NextPc(cfg, s, k, pc, c)) ==
            match pc
            case DelFin(_) => Goto(RemoveFinalizer(s, k), k, Idle)
            case VolumeFin(o) => Goto(EnsureFinalizer(s, k, o), k, if o.fin then RecNs(o) else Idle)
            case _ => Goto(EnsureFinalizer(s, k, pc.o), k, if pc.o.fin then FirstLookup(cfg, k, pc.o, pc.t) else Idle)
  {
    hide WriteTarget, DeleteTarget, RemoveFinalizer, EnsureFinalizer, Goto;
  }

  lemma ObjectReleased(s: State, k: Key)
    requires Inv(s) && k.ObjKey? && NoTargetFor(s, k)
    ensures Inv(Goto(RemoveFinalizer(s, k), k, Idle))
  {
    hide Inv, NoTargetFor;
    RemoveFinalizerKeeps(s, k);
  }

  lemma FinalizerStepKeeps(cfg: Config, s: State, k: Key, c: Choice)
    requires Inv(s) && k.ObjKey?
    requires var pc := PcOf(s, k); pc.VolumeFin? || pc.RecFin? || pc.DelFin?
    ensures Inv(PassStep(cfg, s, k, c))
  {
    hide Inv, Effect, NextPc, RemoveFinalizer, EnsureFinalizer;
    PcsAreOk(s, k);
    FinalizerEffects(cfg, s, k, PcOf(s, k), c);
    match PcOf(s, k)
    case DelFin(_) => ObjectReleased(s, k);
    case VolumeFin(o) => EnsureFinalizerKeeps(s, k, o, RecNs(o));
    case RecFin(o, t) => EnsureFinalizerKeeps(s, k, o, FirstLookup(cfg, k, o, t));
  }

  lemma ObjectPassKeeps(cfg: Config, s: State, k: Key, c: Choice)
    requires Inv(s) && k.ObjKey?
    ensures Inv(PassStep(cfg, s, k, c))
  {
    PcsAreOk(s, k);
    var pc := PcOf(s, k);
    if pc.Idle? || pc.Got? {
      StartKeeps(cfg, s, k, c);
    } else if pc.DelNs? || pc.RecNs? {
      ReadNamespaceKeeps(cfg, s, k, c);
    } else if pc.DelList? || pc.RecList? {
      LookupKeeps(cfg, s, k, c);
    } else if pc.DelIssue? {
      DeleteTargetKeeps(cfg, s, k, c);
    } else if pc.Fetch? {
      FetchKeeps(cfg, s, k, c);
    } else if pc.Write? {
      WriteKeeps(cfg, s, k, c);
    } else if pc.Lookup? {
      LookupStepKeeps(cfg, s, k, c);
    } else {
      FinalizerStepKeeps(cfg, s, k, c);
    }
  }

  // ---------- All steps ----------

  /** Every step, of any pass or of the environment, keeps the invariant. */
  lemma StepKeeps(cfg: Config, s: State, a: Action)
    requires Inv(s)
    ensures Inv(Step(cfg, s, a))
  {
    match a
    case Pass(k, c) =>
      if k.NsKey? {
        NamespacePassKeeps(cfg, s, k, c);
      } else {
        ObjectPassKeeps(cfg, s, k, c);
      }
    case Fail(k) => GotoKeeps(s, k, Idle);
    case NamespaceFinish(t) => NamespaceFinishKeeps(cfg, s, t);
    case NamespaceMark(t) =>
      if t in s.namespaces {
        MarkNamespaceKeeps(s, t);
      }
    case TargetMark(tk) => TargetMarkKeeps(cfg, s, tk);
    case TargetFinish(tk) => TargetFinishKeeps(cfg, s, tk);
    case TargetEdit(tk, image) => TargetEditKeeps(cfg, s, tk, image);
    case TargetForeign(tk, uid, image) => TargetForeignKeeps(cfg, s, tk, uid, image);
    case _ => SourceStepKeeps(cfg, s, a);
  }

  /** The invariant holds throughout every run that starts in a state where it holds. */
  lemma {:induction false} RunKeeps(cfg: Config, s: State, actions: seq<Action>)
    requires Inv(s)
    ensures Inv(Run(cfg, s, actions))
  {
    if actions != [] {
      RunKeeps(cfg, s, actions[..|actions| - 1]);
      StepKeeps(cfg, Run(cfg, s, actions[..|actions| - 1]), actions[|actions| - 1]);
    }
  }
}
