/**
  The two clusters and the passes of the reconcilers, one API call per step.

  A source object is represented by its watch queue: the head is what the broker's cache
  holds, the last element is the object in the cluster, the rest are events not yet
  delivered.  A write of the broker to an object collapses its queue, since later cached
  reads are never older than that write.

  Target objects are read through a cache as well, which may hold any earlier version of an
  object, or none yet; target namespaces are listed live.

  Passes on one key never overlap: a key has one program counter.  All other steps, of
  passes on other keys, of users and of the clusters themselves, interleave freely.
 */
module Protocol {
  import opened Wrappers
  import opened Objects
  import opened Sync

  datatype SourceObject = SourceObject(uid: Uid, fin: bool, deleting: bool, spec: Spec)

  type View = seq<Option<SourceObject>>

  /** Generated target namespace names are numbered; a number is never used twice. */
  type TargetNs = nat

  /** A target namespace: the label and the controller reference written when it was created. */
  datatype TargetNamespace = TargetNamespace(sourceUid: Uid, owner: Uid, ownerName: string, deleting: bool)

  datatype TargetKey = TargetKey(ns: TargetNs, kind: Kind, name: string)

  /** `owner` is the source uid in the broker's controller reference, if there is one. */
  datatype TargetObject = TargetObject(owner: Option<Uid>, uid: Uid, deleting: bool, spec: TargetSpec)

  /** Where a pass stands: what it has read, and which call it makes next. */
  datatype Pc =
    | Idle
    | Got(o: SourceObject)
    // deleting the target of an object
    | DelNs(o: SourceObject)
    | DelList(o: SourceObject, nsUid: Uid)
    | DelIssue(o: SourceObject, t: TargetNs)
    | DelFin(o: SourceObject)
    // reconciling an object
    | VolumeFin(o: SourceObject)
    | RecNs(o: SourceObject)
    | RecList(o: SourceObject, nsUid: Uid)
    | RecFin(o: SourceObject, t: TargetNs)
    | Lookup(o: SourceObject, t: TargetNs, rest: seq<Key>, found: Found)
    | Fetch(o: SourceObject, t: TargetNs, found: Found)
    | Write(o: SourceObject, t: TargetNs, found: Found, current: Option<TargetObject>)
    // namespaces
    | NsDelList(o: SourceObject)
    | NsDelIssue(o: SourceObject, t: TargetNs)
    | NsList(o: SourceObject)
    | NsKeep(o: SourceObject)
    | NsRef(o: SourceObject)
    | NsFin(o: SourceObject)
    | NsCreate(o: SourceObject)

  datatype State = State(
    views: map<Key, View>,
    namespaces: map<TargetNs, TargetNamespace>,
    targets: map<TargetKey, TargetObject>,
    pcs: map<Key, Pc>,
    born: map<Uid, Key>,                       // every source uid ever handed out, and for which key
    issued: map<TargetNs, string>,             // every target namespace ever generated, and for which name
    past: map<TargetKey, set<TargetObject>>)   // every version of every target object

  const INIT := State(map[], map[], map[], map[], map[], map[], map[])

  // ---------- Reading a state ----------

  function ViewOf(s: State, k: Key): View {
    if k in s.views then s.views[k] else [None]
  }

  function PcOf(s: State, k: Key): Pc {
    if k in s.pcs then s.pcs[k] else Idle
  }

  function Cached(s: State, k: Key): Option<SourceObject> {
    var v := ViewOf(s, k);
    if v == [] then None else v[0]
  }

  function Live(s: State, k: Key): Option<SourceObject> {
    var v := ViewOf(s, k);
    if v == [] then None else v[|v| - 1]
  }

  /** The namespace an object is in. */
  function NamespaceOf(k: Key): Key {
    if k.ObjKey? then NsKey(k.ns) else k
  }

  /** A target carries the name of its source. */
  function TargetKeyOf(k: Key, t: TargetNs): TargetKey
    requires k.ObjKey?
  {
    TargetKey(t, k.kind, k.name)
  }

  function TargetAt(s: State, k: Key, t: TargetNs): Option<TargetObject> {
    if k.ObjKey? && TargetKeyOf(k, t) in s.targets then Some(s.targets[TargetKeyOf(k, t)]) else None
  }

  /** All versions of a target object that there have been, the present one included. */
  function PastOf(s: State, tk: TargetKey): set<TargetObject> {
    if tk in s.past then s.past[tk] else {}
  }

  // ---------- Updating a state ----------

  function PutTarget(s: State, tk: TargetKey, x: TargetObject): (s': State)
    ensures s' == s.(targets := s'.targets, past := s'.past)
  {
    s.(targets := s.targets[tk := x], past := s.past[tk := PastOf(s, tk) + {x}])
  }

  function DropTarget(s: State, tk: TargetKey): (s': State)
    ensures s' == s.(targets := s'.targets)
  {
    s.(targets := s.targets - {tk})
  }

  function Goto(s: State, k: Key, pc: Pc): State {
    s.(pcs := if pc.Idle? then s.pcs - {k} else s.pcs[k := pc])
  }

  /** A change by somebody else: it reaches the cache later. */
  function Append(s: State, k: Key, o: Option<SourceObject>): State {
    s.(views := s.views[k := ViewOf(s, k) + [o]])
  }

  /** A write by the broker: the cache does not fall behind it. */
  function OwnWrite(s: State, k: Key, o: SourceObject): State {
    s.(views := s.views[k := [Some(o)]])
  }

  /** Adding the finalizer fails on an object that is gone or marked for deletion. */
  function AddFinalizer(s: State, k: Key): (s': State)
    ensures s' == s.(views := s'.views)
  {
    match Live(s, k)
    case None => s
    case Some(l) => if l.deleting then s else OwnWrite(s, k, l.(fin := true))
  }

  function RemoveFinalizer(s: State, k: Key): (s': State)
    ensures s' == s.(views := s'.views)
  {
    match Live(s, k)
    case None => s
    case Some(l) => OwnWrite(s, k, l.(fin := false))
  }

  // ---------- Looking up a target namespace ----------

  datatype Single = NotFound | One(t: TargetNs) | Rejected

  function Labelled(s: State, uid: Uid): set<TargetNs> {
    set t | t in s.namespaces && s.namespaces[t].sourceUid == uid
  }

  /** The live list by label: not found, the single match if it is controlled by `uid`, or an error. */
  ghost function ListSingle(s: State, uid: Uid): Single {
    var matches := Labelled(s, uid);
    if matches == {} then NotFound
    else if t :| matches == {t} then
      if s.namespaces[t].owner == uid then One(t) else Rejected
    else Rejected
  }

  // ---------- Reading target objects ----------

  /** Everything a pass step takes from outside the model or from choices of the clusters. */
  datatype Choice = Choice(
    wanted: bool,    // the usage or reference query answers yes
    vanish: bool,    // a deleted target has no finalizers and goes away at once
    stale: map<TargetKey, Option<TargetObject>>, // where the target cache lags behind, what it holds
    uid: Uid,        // the uid given to a created target object
    generated: TargetNs) // the name generated for a created target namespace

  /** A cached read: the present version, or any earlier one, or none. */
  function ReadTarget(s: State, c: Choice, tk: TargetKey): Option<TargetObject> {
    if tk in c.stale && (c.stale[tk].Some? ==> c.stale[tk].value in PastOf(s, tk)) then c.stale[tk]
    else if tk in s.targets then Some(s.targets[tk])
    else None
  }

  datatype Answer = Hit(ref: UidRef) | Missing | Error

  /** `Provider.Target` for one key: an error only for a machine outside the pool. */
  ghost function TargetLookup(cfg: Config, s: State, c: Choice, d: Key): Answer {
    match Cached(s, d)
    case None => Missing
    case Some(o) =>
      if d.NsKey? then Missing
      else if d.kind == Machine && !(o.spec.MachineObjSpec? && InPool(o.spec.machine, cfg.pool)) then Error
      else match Cached(s, NamespaceOf(d))
        case None => Missing
        case Some(n) =>
          match ListSingle(s, n.uid)
          case NotFound => Missing
          case Rejected => Error
          case One(t) =>
            match ReadTarget(s, c, TargetKeyOf(d, t))
            case None => Missing
            case Some(x) => Hit(UidRef(d.name, x.uid))
  }

  /** What one more answer adds to those of a round. */
  function Noted(found: Found, d: Key, a: Answer): Found {
    if a.Hit? then found[d := a.ref] else found - {d}
  }

  // ---------- Passes ----------

  /** Deletion starts only on an object that carries the finalizer. */
  function DeletePc(k: Key, o: SourceObject): Pc {
    if !o.fin then Idle else if k.NsKey? then NsDelList(o) else DelNs(o)
  }

  function ReconcilePc(k: Key, o: SourceObject): Pc {
    if k.NsKey? then NsList(o) else if k.kind == Volume then VolumeFin(o) else RecNs(o)
  }

  /** After the read: skip the object, delete its target, or reconcile it. */
  function BranchPc(cfg: Config, k: Key, o: SourceObject, wanted: bool): Pc {
    if k.NsKey? then
      if o.deleting then DeletePc(k, o) else ReconcilePc(k, o)
    else if k.kind == Machine then
      if !o.spec.MachineObjSpec? || !InPool(o.spec.machine, cfg.pool) then Idle
      else if o.deleting then DeletePc(k, o)
      else ReconcilePc(k, o)
    else if o.deleting || !wanted then DeletePc(k, o)
    else ReconcilePc(k, o)
  }

  /** `PatchEnsureFinalizer`: nothing to do if the object that was read has it. */
  function EnsureFinalizer(s: State, k: Key, o: SourceObject): (s': State)
    ensures s' == s.(views := s'.views)
  {
    if o.fin then s else AddFinalizer(s, k)
  }

  /** `DeleteIfExists`, by name. */
  function DeleteTarget(s: State, k: Key, t: TargetNs, vanish: bool): (s': State)
    ensures s' == s.(targets := s'.targets, past := s'.past)
  {
    if k.NsKey? || TargetKeyOf(k, t) !in s.targets then s
    else
      var tk := TargetKeyOf(k, t);
      if vanish then DropTarget(s, tk) else PutTarget(s, tk, s.targets[tk].(deleting := true))
  }

  /** A write is possible when spec and kind agree and the spec is well formed. */
  predicate Writable(k: Key, spec: Spec) {
    k.ObjKey? && Typed(k, spec) && !Fails(spec)
  }

  /** Creation: refused for a partial round, a terminating namespace or a taken name. */
  function CreateTarget(cfg: Config, s: State, k: Key, o: SourceObject, t: TargetNs, found: Found, uid: Uid): State
    requires Writable(k, o.spec)
  {
    var tk := TargetKeyOf(k, t);
    if Partial(k, o.spec, found) || t !in s.namespaces || s.namespaces[t].deleting || tk in s.targets then s
    else PutTarget(s, tk, TargetObject(Some(o.uid), uid, false, Apply(cfg, k, o.spec, found, ZeroTarget(k.kind))))
  }

  /** Patch from the object that was read before; what is there now may be another version, or nothing. */
  function PatchTarget(cfg: Config, s: State, k: Key, o: SourceObject, t: TargetNs, found: Found, current: TargetObject)
    : State
    requires Writable(k, o.spec)
  {
    var tk := TargetKeyOf(k, t);
    if tk !in s.targets || !TargetTyped(k.kind, current.spec) then s
    else PutTarget(s, tk,
      s.targets[tk].(spec := MergePatch(current.spec, Apply(cfg, k, o.spec, found, current.spec), s.targets[tk].spec)))
  }

  /** The object read before the write is not controlled by this source object: the call is refused. */
  predicate Refused(o: SourceObject, current: Option<TargetObject>) {
    current.Some? && current.value.owner != Some(o.uid)
  }

  /** The write half of `BrokerControlledCreateOrPatch`. */
  function WriteTarget(cfg: Config, s: State, k: Key, o: SourceObject, t: TargetNs, found: Found,
                       current: Option<TargetObject>, uid: Uid): (s': State)
    ensures s' == s.(targets := s'.targets, past := s'.past)
    ensures forall tk :: PastOf(s, tk) <= PastOf(s', tk) &&
              (k.NsKey? || tk != TargetKeyOf(k, t) ==> PastOf(s', tk) == PastOf(s, tk))
    ensures forall tk :: tk in s'.targets ==>
              (tk in s.targets && s'.targets[tk].owner == s.targets[tk].owner) ||
              (k.ObjKey? && tk == TargetKeyOf(k, t) && s'.targets[tk].owner == Some(o.uid))
    ensures forall tk :: tk in s.targets ==>
              tk in s'.targets && s'.targets[tk] == s.targets[tk].(spec := s'.targets[tk].spec) &&
              (k.NsKey? || tk != TargetKeyOf(k, t) ==> s'.targets[tk] == s.targets[tk])
  {
    if !Writable(k, o.spec) || Refused(o, current) then s
    else match current
      case None => CreateTarget(cfg, s, k, o, t, found, uid)
      case Some(c) => PatchTarget(cfg, s, k, o, t, found, c)
  }

  /** A name that was issued before cannot be generated again. */
  function CreateNamespace(s: State, k: Key, o: SourceObject, generated: TargetNs): State {
    if k.ObjKey? || generated in s.issued then s
    else s.(
      namespaces := s.namespaces[generated := TargetNamespace(o.uid, o.uid, k.name, false)],
      issued := s.issued[generated := k.name])
  }

  function MarkNamespace(s: State, t: TargetNs): State {
    if t !in s.namespaces then s
    else s.(namespaces := s.namespaces[t := s.namespaces[t].(deleting := true)])
  }

  /** What the call a pass makes at `pc` does to the clusters. */
  function Effect(cfg: Config, s: State, k: Key, pc: Pc, c: Choice): (s': State)
    ensures s'.pcs == s.pcs && s'.born == s.born
    ensures s'.views == s.views || s'.views == AddFinalizer(s, k).views ||
              (pc.DelFin? && s'.views == RemoveFinalizer(s, k).views)
  {
    match pc
    case DelIssue(_, t) => DeleteTarget(s, k, t, c.vanish)
    case DelFin(_) => RemoveFinalizer(s, k)
    case VolumeFin(o) => EnsureFinalizer(s, k, o)
    case RecFin(o, _) => EnsureFinalizer(s, k, o)
    case Write(o, t, found, current) => WriteTarget(cfg, s, k, o, t, found, current, c.uid)
    case NsDelIssue(_, t) => MarkNamespace(s, t)
    case NsKeep(o) => EnsureFinalizer(s, k, o)
    case NsFin(o) => EnsureFinalizer(s, k, o)
    case NsCreate(o) => CreateNamespace(s, k, o, c.generated)
    // reads and lists; also the finalizer patch of an unreferenced namespace, which goes to the target cluster
    case _ => s
  }

  function FirstLookup(cfg: Config, k: Key, o: SourceObject, t: TargetNs): Pc {
    Lookup(o, t, LookupOrder(cfg, k, o.spec), map[])
  }

  /** Where the pass goes from what the call returned. */
  ghost function NextPc(cfg: Config, s: State, k: Key, pc: Pc, c: Choice): Pc {
    match pc
    case Idle => (match Cached(s, k) case None => Idle case Some(o) => Got(o))
    case Got(o) => BranchPc(cfg, k, o, c.wanted)
    case DelNs(o) => (match Cached(s, NamespaceOf(k)) case None => Idle case Some(n) => DelList(o, n.uid))
    case DelList(o, nsUid) =>
      (match ListSingle(s, nsUid)
       // volumes take an unresolvable namespace for a deleted target, the others wait
       case NotFound => if k.ObjKey? && k.kind == Volume then DelFin(o) else Idle
       case One(t) => DelIssue(o, t)
       case Rejected => Idle)
    case DelIssue(o, t) => if k.ObjKey? && TargetKeyOf(k, t) !in s.targets then DelFin(o) else Idle
    case VolumeFin(o) => if o.fin then RecNs(o) else Idle
    case RecNs(o) => (match Cached(s, NamespaceOf(k)) case None => Idle case Some(n) => RecList(o, n.uid))
    case RecList(o, nsUid) =>
      (match ListSingle(s, nsUid)
       case One(t) => if k.ObjKey? && k.kind == Volume then FirstLookup(cfg, k, o, t) else RecFin(o, t)
       case _ => Idle)
    case RecFin(o, t) => if o.fin then FirstLookup(cfg, k, o, t) else Idle
    case Lookup(o, t, rest, found) =>
      if rest == [] then Fetch(o, t, found)
      else (match TargetLookup(cfg, s, c, rest[0])
            case Error => Idle
            case a => Lookup(o, t, rest[1..], Noted(found, rest[0], a)))
    case Fetch(o, t, found) =>
      if k.NsKey? then Idle else Write(o, t, found, ReadTarget(s, c, TargetKeyOf(k, t)))
    case NsDelList(o) =>
      (match ListSingle(s, o.uid) case NotFound => DelFin(o) case One(t) => NsDelIssue(o, t) case Rejected => Idle)
    case NsDelIssue(o, t) => if t in s.namespaces then Idle else DelFin(o)
    case NsList(o) =>
      (match ListSingle(s, o.uid) case NotFound => NsRef(o) case One(_) => NsKeep(o) case Rejected => Idle)
    case NsRef(o) => if c.wanted then NsFin(o) else Idle
    case NsFin(o) => if o.fin then NsCreate(o) else Idle
    case _ => Idle
  }

  /** One call of the pass on `k`. */
  ghost function PassStep(cfg: Config, s: State, k: Key, c: Choice): State {
    Goto(Effect(cfg, s, k, PcOf(s, k), c), k, NextPc(cfg, s, k, PcOf(s, k), c))
  }

  // ---------- Runs ----------

  datatype Action =
    // a pass makes its next call, or fails with an error and is retried later
    | Pass(k: Key, c: Choice)
    | Fail(k: Key)
    // users and controllers of the source cluster
    | Create(k: Key, uid: Uid, spec: Spec)
    | Edit(k: Key, spec: Spec)
    | Mark(k: Key)
    | Vanish(k: Key)
    | Deliver(k: Key)
    // users and controllers of the target cluster
    | TargetMark(tk: TargetKey)
    | TargetFinish(tk: TargetKey)
    | TargetEdit(tk: TargetKey, image: TargetSpec)
    | TargetForeign(tk: TargetKey, uid: Uid, image: TargetSpec)
    | NamespaceMark(t: TargetNs)
    | NamespaceFinish(t: TargetNs)

  predicate SourceSide(a: Action) {
    a.Create? || a.Edit? || a.Mark? || a.Vanish? || a.Deliver?
  }

  predicate TargetSide(a: Action) {
    a.TargetMark? || a.TargetFinish? || a.TargetEdit? || a.TargetForeign? || a.NamespaceMark? || a.NamespaceFinish?
  }

  /** What happens in the source cluster and on the way to the cache. */
  function SourceStep(s: State, a: Action): (s': State)
    requires SourceSide(a)
    ensures s' == s.(views := s'.views, born := s'.born)
  {
    match a
    case Create(k, uid, spec) =>
      if Live(s, k).Some? || uid in s.born || !Typed(k, spec) then s
      else Append(s.(born := s.born[uid := k]), k, Some(SourceObject(uid, false, false, spec)))
    case Edit(k, spec) =>
      if Live(s, k).None? || !Typed(k, spec) then s else Append(s, k, Some(Live(s, k).value.(spec := spec)))
    case Mark(k) =>
      if Live(s, k).None? then s else Append(s, k, Some(Live(s, k).value.(deleting := true)))
    // without our finalizer the object may go away: at once, or when others have dropped theirs
    case Vanish(k) =>
      if Live(s, k).None? || Live(s, k).value.fin then s else Append(s, k, None)
    case Deliver(k) =>
      if |ViewOf(s, k)| < 2 then s else s.(views := s.views[k := ViewOf(s, k)[1..]])
  }

  /** What happens in the target cluster. */
  ghost function TargetStep(s: State, a: Action): (s': State)
    requires TargetSide(a)
    ensures s' == s.(targets := s'.targets, past := s'.past, namespaces := s'.namespaces)
  {
    match a
    case TargetMark(tk) =>
      if tk !in s.targets then s else PutTarget(s, tk, s.targets[tk].(deleting := true))
    case TargetFinish(tk) =>
      if tk !in s.targets || !s.targets[tk].deleting then s else DropTarget(s, tk)
    case TargetEdit(tk, spec) =>
      if tk !in s.targets || !TargetTyped(tk.kind, spec) then s else PutTarget(s, tk, s.targets[tk].(spec := spec))
    case TargetForeign(tk, uid, spec) =>
      if tk in s.targets || tk.ns !in s.namespaces || s.namespaces[tk.ns].deleting || !TargetTyped(tk.kind, spec) then s
      else PutTarget(s, tk, TargetObject(None, uid, false, spec))
    case NamespaceMark(t) => MarkNamespace(s, t)
    // a namespace goes away only after everything in it has gone
    case NamespaceFinish(t) =>
      if t !in s.namespaces || !s.namespaces[t].deleting || (exists tk :: tk in s.targets && tk.ns == t) then s
      else s.(namespaces := s.namespaces - {t})
  }

  /** One step; an action that is not possible in a state leaves it unchanged. */
  ghost function Step(cfg: Config, s: State, a: Action): State {
    if a.Pass? then PassStep(cfg, s, a.k, a.c)
    else if a.Fail? then Goto(s, a.k, Idle)
    else if SourceSide(a) then SourceStep(s, a)
    else TargetStep(s, a)
  }

  /** The state after a sequence of actions: any interleaving of any passes and events. */
  ghost function Run(cfg: Config, s: State, actions: seq<Action>): State {
    if actions == [] then s
    else Step(cfg, Run(cfg, s, actions[..|actions| - 1]), actions[|actions| - 1])
  }
}
