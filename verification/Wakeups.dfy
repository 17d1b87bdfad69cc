/**
  The event handler of a field reference: which keys it wakes when a referent is created, updated
  or deleted, and that these are all keys whose answer the event can have changed.
 */
module Wakeups {
  import opened Wrappers
  import opened Objects
  import opened Usage
  import opened Dependents

  datatype Event =
    | Created(spec: Spec)
    | Updated(before: Spec, spec: Spec)
    | Deleted(spec: Spec)

  /** A filter built from a function of one object looks at the new version on an update. */
  predicate Passes(filter: Option<string>, e: Event) {
    filter.Some? ==> e.spec.MachineObjSpec? && InPool(e.spec.machine, filter.value)
  }

  function Requests(kind: Kind, k: Key, spec: Spec): set<Key>
    requires k.ObjKey?
  {
    set n | n in SecretNames(spec) :: ObjKey(kind, k.ns, n)
  }

  /** What an event that gets through the filter wakes. */
  function Woken(kind: Kind, k: Key, e: Event): set<Key>
    requires k.ObjKey?
  {
    Requests(kind, k, e.spec) + (if e.Updated? then Requests(kind, k, e.before) else {})
  }

  predicate NamesSecretIn(spec: Spec, secret: string) {
    match spec
    case MachineObjSpec(m) => MachineNamesSecret(m, secret)
    case VolumeObjSpec(v) => VolumeNamesSecret(v, secret)
    case _ => false
  }

  lemma SecretNamesExactly(spec: Spec, secret: string)
    ensures secret in SecretNames(spec) <==> NamesSecretIn(spec, secret)
  {
    match spec
    case MachineObjSpec(m) => MachineNamesExactly(m, secret);
    case VolumeObjSpec(v) => VolumeNamesExactly(v, secret);
    case _ =>
  }

  /** The keys woken are those in the namespace of the object whose names it has, or had before an update. */
  lemma WokenExactly(kind: Kind, k: Key, e: Event, x: Key)
    requires k.ObjKey? && Typed(k, e.spec) && (e.Updated? ==> Typed(k, e.before))
    ensures x in Woken(kind, k, e) <==>
            x.ObjKey? && x.kind == kind && x.ns == k.ns &&
            (NamesSecretIn(e.spec, x.name) || (e.Updated? && NamesSecretIn(e.before, x.name)))
  {
    SecretNamesExactly(e.spec, if x.ObjKey? then x.name else "");
    if e.Updated? {
      SecretNamesExactly(e.before, if x.ObjKey? then x.name else "");
    }
  }

  class EventHandler {
    const referenced: Kind
    const filter: Option<string> // the pool of the event filter, if there is one
    var queue: seq<Key>

    constructor (referenced: Kind, filter: Option<string>)
      ensures this.referenced == referenced && this.filter == filter && queue == []
    {
      this.referenced, this.filter, queue := referenced, filter, [];
    }

    method Handle(k: Key, spec: Spec, reqs: set<Key>) returns (reqs': set<Key>)
      requires k.ObjKey?
      ensures reqs' == reqs + Requests(referenced, k, spec)
    {
      reqs' := reqs;
      var names := SecretNames(spec);
      var pending := names;
      while pending != {}
        invariant pending <= names
        invariant reqs' == reqs + set n | n in names && n !in pending :: ObjKey(referenced, k.ns, n)
      {
        var n :| n in pending;
        assert (set m | m in names && m !in pending - {n} :: ObjKey(referenced, k.ns, m))
            == (set m | m in names && m !in pending :: ObjKey(referenced, k.ns, m)) + {ObjKey(referenced, k.ns, n)};
        pending := pending - {n};
        reqs' := reqs' + {ObjKey(referenced, k.ns, n)};
      }
    }

    /** The set of requests is drained into the queue. */
    method Enqueue(reqs: set<Key>)
      modifies this`queue
      ensures forall k :: k in queue <==> k in old(queue) || k in reqs
    {
      var pending := reqs;
      while pending != {}
        invariant pending <= reqs
        invariant forall k :: k in queue <==> k in old(queue) || (k in reqs && k !in pending)
      {
        var k :| k in pending;
        pending := pending - {k};
        queue := queue + [k];
      }
    }

    method OnEvent(k: Key, e: Event)
      requires k.ObjKey?
      modifies this`queue
      ensures forall x :: x in queue <==> x in old(queue) || (Passes(filter, e) && x in Woken(referenced, k, e))
    {
      if filter.Some? && !(e.spec.MachineObjSpec? && InPool(e.spec.machine, filter.value)) {
        return;
      }
      var reqs := {};
      if e.Updated? {
        reqs := Handle(k, e.before, reqs);
      }
      reqs := Handle(k, e.spec, reqs);
      Enqueue(reqs);
    }
  }

  // ---------- Completeness ----------

  /** The snapshot after an event on the object `k`. */
  ghost predicate Happens(g: Store, g': Store, k: Key, e: Event) {
    match e
    case Created(spec) => k !in g && k in g' && g'[k].spec == spec && g' - {k} == g
    case Updated(old', spec) =>
      k in g && k in g' && g[k].spec == old' && g'[k] == g[k].(spec := spec) && g' - {k} == g - {k}
    case Deleted(spec) => k in g && g[k].spec == spec && g' == g - {k}
  }

  /** Whether the predicates of a referencer see other objects only in ways the event leaves alone. */
  lemma OtherReferentsSame(r: ListReferencer, g: Store, g': Store, k: Key, e: Event, secret: Key, j: Key)
    requires Happens(g, g', k, e) && j != k && k.ObjKey? && k.kind == r.referent
    requires r.referent == Machine ==> forall p :: p in r.predicates ==> !p.UsedByMachineInPool?
    ensures Refers(r, g, secret, j) <==> Refers(r, g', secret, j)
  {
    assert j in g <==> j in g' - {k} || (j in g' && j != k);
    if j in g && j in g' {
      assert g[j] == g'[j];
      if r.referent != Machine {
        forall m: Key | m.ObjKey? && m.kind == Machine
          ensures m in g <==> m in g'
          ensures m in g ==> g[m] == g'[m]
        {
          assert m != k;
          assert m in g - {k} <==> m in g;
          assert m in g' - {k} <==> m in g';
          if m in g {
            assert (g - {k})[m] == (g' - {k})[m];
          }
        }
      }
      forall p | p in r.predicates && j.ObjKey? && j.kind == r.referent && Typed(j, g[j].spec)
        ensures Matches(p, g, secret, j, g[j].spec) <==> Matches(p, g', secret, j, g'[j].spec)
      {
      }
    }
  }

  /**
    If an event on a referent flips whether a secret is referenced in the cache, the referent names
    the secret before or after: its key is among those the event wakes.
   */
  lemma FlipIsWoken(r: ListReferencer, g: Store, g': Store, k: Key, e: Event, secret: Key)
    requires Happens(g, g', k, e) && k.ObjKey? && k.kind == r.referent && r.byField
    requires r.referent == Machine ==> forall p :: p in r.predicates ==> !p.UsedByMachineInPool?
    requires secret.ObjKey? && !(References(r, g, secret) <==> References(r, g', secret))
    ensures secret in Woken(secret.kind, k, e)
    ensures Refers(r, g, secret, k) || Refers(r, g', secret, k)
  {
    if References(r, g, secret) {
      var j :| Refers(r, g, secret, j);
      if j != k {
        OtherReferentsSame(r, g, g', k, e, secret, j);
        assert false;
      }
    } else {
      var j :| Refers(r, g', secret, j);
      if j != k {
        OtherReferentsSame(r, g, g', k, e, secret, j);
        assert false;
      }
    }
  }

  /** Volumes have no event filter: every event that flips an answer wakes its key. */
  lemma VolumeWakeUpComplete(g: Store, g': Store, pool: string, k: Key, e: Event, secret: Key)
    requires Happens(g, g', k, e) && k.ObjKey? && k.kind == Volume && secret.ObjKey?
    requires var r := CachedReferencer(MachineVolumeToSecret(pool));
             !(References(r, g, secret) <==> References(r, g', secret))
    ensures Passes(None, e) && secret in Woken(secret.kind, k, e)
  {
    FlipIsWoken(CachedReferencer(MachineVolumeToSecret(pool)), g, g', k, e, secret);
  }

  /** The update takes the machine out of the pool. */
  predicate LeavesPool(pool: string, e: Event) {
    && e.Updated? && e.before.MachineObjSpec? && InPool(e.before.machine, pool)
    && !(e.spec.MachineObjSpec? && InPool(e.spec.machine, pool))
  }

  /**
    Machines are filtered by pool: among the events that flip an answer, those that wake the key are
    exactly those that do not take the machine out of the pool.  Where the pool of a machine is
    written once, that is all of them.
   */
  lemma MachineWakeUpExactly(g: Store, g': Store, pool: string, k: Key, e: Event, secret: Key)
    requires Happens(g, g', k, e) && k.ObjKey? && k.kind == Machine && secret.ObjKey?
    requires var r := CachedReferencer(MachineToSecret(pool));
             !(References(r, g, secret) <==> References(r, g', secret))
    ensures Passes(Some(pool), e) && secret in Woken(secret.kind, k, e) <==> !LeavesPool(pool, e)
  {
    var r := CachedReferencer(MachineToSecret(pool));
    assert r.predicates == [InMachinePool(pool)];
    FlipIsWoken(r, g, g', k, e, secret);
    assert InMachinePool(pool) in r.predicates;
    if Refers(r, g, secret, k) {
      assert Matches(InMachinePool(pool), g, secret, k, g[k].spec);
    }
    if Refers(r, g', secret, k) {
      assert Matches(InMachinePool(pool), g', secret, k, g'[k].spec);
    }
  }

  /** A machine that is moved to another pool: its secret is no longer referenced, and nobody is told. */
  lemma PoolChangeSleeps(k: Key, uid: Uid, m: MachineSpec, pool: string, elsewhere: Option<string>, name: string)
    requires k.ObjKey? && k.kind == Machine && InPool(m, pool) && elsewhere != Some(pool)
    requires name in SecretNames(MachineObjSpec(m))
    ensures var e := Updated(MachineObjSpec(m), MachineObjSpec(m.(pool := elsewhere)));
            var g: Store, g': Store := map[k := Record(uid, e.before)], map[k := Record(uid, e.spec)];
            var r, secret := CachedReferencer(MachineToSecret(pool)), ObjKey(Secret, k.ns, name);
            Happens(g, g', k, e) && References(r, g, secret) && !References(r, g', secret) && !Passes(Some(pool), e)
  {
    var e := Updated(MachineObjSpec(m), MachineObjSpec(m.(pool := elsewhere)));
    var g: Store, g': Store := map[k := Record(uid, e.before)], map[k := Record(uid, e.spec)];
    var r, secret := CachedReferencer(MachineToSecret(pool)), ObjKey(Secret, k.ns, name);
    assert r.predicates == [InMachinePool(pool)];
    assert Refers(r, g, secret, k);
    forall j
      ensures !Refers(r, g', secret, j)
    {
      assert InMachinePool(pool) in r.predicates;
    }
    assert g' - {k} == g - {k};
  }
}
