/**
  "Is anything still referring to this secret?"  One declaration of a field reference is built
  into a cached query, a live query and an event handler.  The queries list and read while the
  source cluster goes on changing; the handler wakes the keys whose answer an event can flip.
 */
module Dependents {
  import opened Wrappers
  import opened Objects
  import opened Usage

  // ---------- Declarations ----------

  datatype ListPredicate =
    | InMachinePool(pool: string)
    | UsedByMachineInPool(pool: string)
    | FieldContainsName

  /** `FieldReferenceInput`: what one declaration says. */
  datatype FieldReference = FieldReference(
    referent: Kind,
    globalPredicates: seq<ListPredicate>,
    cachedPredicates: seq<ListPredicate>,
    livePredicates: seq<ListPredicate>)

  /** A list query: with or without the namespace and index options, then the predicates. */
  datatype ListReferencer = ListReferencer(referent: Kind, byField: bool, predicates: seq<ListPredicate>)

  /** The index does the work of the field in the cache. */
  function CachedReferencer(f: FieldReference): ListReferencer {
    ListReferencer(f.referent, true, f.globalPredicates + f.cachedPredicates)
  }

  /** Without an index the objects of all namespaces are listed and their fields extracted. */
  function LiveReferencer(f: FieldReference): ListReferencer {
    ListReferencer(f.referent, false, f.globalPredicates + f.livePredicates + [FieldContainsName])
  }

  function MachineToSecret(pool: string): FieldReference {
    FieldReference(Machine, [InMachinePool(pool)], [], [])
  }

  function MachineVolumeToSecret(pool: string): FieldReference {
    FieldReference(Volume, [], [UsedByMachineInPool(pool)], [UsedByMachineInPool(pool)])
  }

  /** The indexer function of the field. */
  function SecretNames(spec: Spec): set<string> {
    match spec
    case MachineObjSpec(m) => OrEmptyName(MachineSecretNames(m))
    case VolumeObjSpec(v) => OrEmptyName(OptionSet(v.imagePullSecret))
    case _ => {}
  }

  // ---------- Specification of the queries ----------

  /** Whether a listed object passes; usage is decided by reading the snapshot `g`. */
  ghost predicate Matches(p: ListPredicate, g: Store, secret: Key, k: Key, spec: Spec) {
    match p
    case InMachinePool(pool) => spec.MachineObjSpec? && InPool(spec.machine, pool)
    case UsedByMachineInPool(pool) => k.ObjKey? && spec.VolumeObjSpec? && VolumeUsed(g, pool, k.ns, k.name, spec.volume)
    case FieldContainsName => secret.ObjKey? && secret.name in SecretNames(spec)
  }

  ghost predicate AllMatch(ps: seq<ListPredicate>, g: Store, secret: Key, k: Key, spec: Spec) {
    forall p :: p in ps ==> Matches(p, g, secret, k, spec)
  }

  /** What the list call of a referencer returns. */
  ghost predicate Listed(r: ListReferencer, g: Store, secret: Key, k: Key) {
    && k in g && k.ObjKey? && k.kind == r.referent && Typed(k, g[k].spec)
    && (r.byField ==> secret.ObjKey? && k.ns == secret.ns && secret.name in SecretNames(g[k].spec))
  }

  /** On one snapshot, the object at `k` is a referent of the secret. */
  ghost predicate Refers(r: ListReferencer, g: Store, secret: Key, k: Key) {
    Listed(r, g, secret, k) && AllMatch(r.predicates, g, secret, k, g[k].spec)
  }

  ghost predicate References(r: ListReferencer, g: Store, secret: Key) {
    exists k :: Refers(r, g, secret, k)
  }

  /** The two queries of a declaration whose predicates do not tell cache and cluster apart. */
  ghost predicate Uniform(f: FieldReference) {
    forall p :: p in f.cachedPredicates <==> p in f.livePredicates
  }

  /** On one snapshot the cached query answers what the live one does, namespaces apart. */
  lemma CachedIsLiveInNamespace(f: FieldReference, g: Store, secret: Key, k: Key)
    requires Uniform(f) && secret.ObjKey?
    ensures Refers(CachedReferencer(f), g, secret, k) <==>
            Refers(LiveReferencer(f), g, secret, k) && k.ObjKey? && k.ns == secret.ns
  {
    var cached, live := CachedReferencer(f).predicates, LiveReferencer(f).predicates;
    forall p
      ensures p in live <==> p in cached || p == FieldContainsName
    {
    }
    if k in g && Refers(LiveReferencer(f), g, secret, k) {
      assert FieldContainsName in live && Matches(FieldContainsName, g, secret, k, g[k].spec);
    }
  }

  /** The two declarations for secrets ask what `SecretReferencedCached` and `SecretReferencedLive` say. */
  lemma DeclarationsAsk(g: Store, pool: string, ns: string, name: string)
    ensures var secret := ObjKey(Secret, ns, name);
            SecretReferencedCached(g, pool, ns, name) <==>
              References(CachedReferencer(MachineToSecret(pool)), g, secret) ||
              References(CachedReferencer(MachineVolumeToSecret(pool)), g, secret)
  {
    var secret := ObjKey(Secret, ns, name);
    var byMachine, byVolume := CachedReferencer(MachineToSecret(pool)), CachedReferencer(MachineVolumeToSecret(pool));
    assert byMachine.predicates == [InMachinePool(pool)];
    assert byVolume.predicates == [UsedByMachineInPool(pool)];
    forall k
      ensures Refers(byMachine, g, secret, k) <==>
        Stores(g, Machine, ns, k) && InPool(g[k].spec.machine, pool) &&
        name in OrEmptyName(MachineSecretNames(g[k].spec.machine))
    {
      assert InMachinePool(pool) in byMachine.predicates;
    }
    forall k
      ensures Refers(byVolume, g, secret, k) <==>
        Stores(g, Volume, ns, k) && VolumeUsed(g, pool, ns, k.name, g[k].spec.volume) &&
        name in OrEmptyName(OptionSet(g[k].spec.volume.imagePullSecret))
    {
      assert UsedByMachineInPool(pool) in byVolume.predicates;
    }
  }

  lemma LiveDeclarationsAsk(g: Store, pool: string, ns: string, name: string)
    ensures var secret := ObjKey(Secret, ns, name);
            SecretReferencedLive(g, pool, name) <==>
              References(LiveReferencer(MachineToSecret(pool)), g, secret) ||
              References(LiveReferencer(MachineVolumeToSecret(pool)), g, secret)
  {
    var secret := ObjKey(Secret, ns, name);
    var byMachine, byVolume := LiveReferencer(MachineToSecret(pool)), LiveReferencer(MachineVolumeToSecret(pool));
    assert byMachine.predicates == [InMachinePool(pool), FieldContainsName];
    assert byVolume.predicates == [UsedByMachineInPool(pool), FieldContainsName];
    forall k: Key | k.ObjKey?
      ensures Refers(byMachine, g, secret, k) <==>
        Stores(g, Machine, k.ns, k) && InPool(g[k].spec.machine, pool) &&
        name in OrEmptyName(MachineSecretNames(g[k].spec.machine))
      ensures Refers(byVolume, g, secret, k) <==>
        Stores(g, Volume, k.ns, k) && VolumeUsed(g, pool, k.ns, k.name, g[k].spec.volume) &&
        name in OrEmptyName(OptionSet(g[k].spec.volume.imagePullSecret))
    {
      assert InMachinePool(pool) in byMachine.predicates && FieldContainsName in byMachine.predicates;
      assert UsedByMachineInPool(pool) in byVolume.predicates && FieldContainsName in byVolume.predicates;
    }
    if References(byMachine, g, secret) {
      var k :| Refers(byMachine, g, secret, k);
      assert SecretReferencedCached(g, pool, k.ns, name);
    }
    if References(byVolume, g, secret) {
      var k :| Refers(byVolume, g, secret, k);
      assert SecretReferencedCached(g, pool, k.ns, name);
    }
  }

  // ---------- The queries ----------

  /** The source cluster and its cache; both change between any two calls. */
  class Source {
    var live: Store
    var cache: Store
    ghost var lives: seq<Store>   // everything the cluster has held so far
    ghost var answers: seq<Store> // every snapshot a call has been answered from

    constructor (g: Store, cache: Store)
      ensures Valid() && live == g && this.cache == cache
    {
      live, this.cache, lives, answers := g, cache, [g], [];
    }

    ghost predicate Valid()
      reads this
    {
      lives != [] && lives[|lives| - 1] == live
    }

    /** Time has gone on: nothing of the past is different. */
    twostate predicate Later()
      reads this
    {
      Valid() && old(lives) <= lives && old(answers) <= answers
    }

    /** Between two calls anything may happen; callers rely on no more than this contract. */
    method Interfere()
      requires Valid()
      modifies this
      ensures Later() && answers == old(answers)
    {
    }

    method Read(fromCache: bool) returns (g: Store)
      requires Valid()
      modifies this
      ensures Later() && answers == old(answers) + [g]
      ensures !fromCache ==> g in lives[|old(lives)| - 1..]
    {
      Interfere();
      g := if fromCache then cache else live;
      answers := answers + [g];
      assert lives[|old(lives)| - 1..][|lives| - |old(lives)|] == live;
    }
  }

  // ---------- What a query can miss ----------

  /** In all snapshots from a point on the object is a referent of the secret. */
  ghost predicate Throughout(lives: seq<Store>, from: nat, r: ListReferencer, secret: Key, k: Key) {
    forall i :: from <= i < |lives| ==> Refers(r, lives[i], secret, k)
  }

  /** The object as it was listed at one point fails a predicate at the same or a later point. */
  ghost predicate LapsesAt(lives: seq<Store>, r: ListReferencer, secret: Key, k: Key, i: nat, j: nat) {
    && i <= j < |lives| && k in lives[i]
    && !AllMatch(r.predicates, lives[j], secret, k, lives[i][k].spec)
  }

  ghost predicate Lapses(lives: seq<Store>, from: nat, r: ListReferencer, secret: Key, k: Key) {
    exists i: nat, j: nat :: from <= i && LapsesAt(lives, r, secret, k, i, j)
  }

  /** Whatever was a referent all the time lapsed between the list and the look at a predicate. */
  ghost predicate OnlyLapsesMissed(lives: seq<Store>, from: nat, r: ListReferencer, secret: Key) {
    forall k :: Throughout(lives, from, r, secret, k) ==> Lapses(lives, from, r, secret, k)
  }

  /** The claim a volume carries in a snapshot. */
  function ClaimOf(g: Store, k: Key): Option<UidRef> {
    if k in g && g[k].spec.VolumeObjSpec? then g[k].spec.volume.claim else None
  }

  /**
    Exactly when a referent lapses although it is one all the time: its claim has moved since it was
    listed, and the machine it was claimed by at that time does not use it any more.
   */
  lemma LapsesExactly(lives: seq<Store>, from: nat, r: ListReferencer, secret: Key, k: Key, i: nat, j: nat)
    requires Throughout(lives, from, r, secret, k) && from <= i <= j < |lives|
    ensures k in lives[i]
    ensures LapsesAt(lives, r, secret, k, i, j) <==>
            exists pool :: UsedByMachineInPool(pool) in r.predicates && lives[i][k].spec.VolumeObjSpec? && k.ObjKey? &&
              !VolumeUsed(lives[j], pool, k.ns, k.name, lives[i][k].spec.volume)
    ensures LapsesAt(lives, r, secret, k, i, j) ==> ClaimOf(lives[i], k) != ClaimOf(lives[j], k)
  {
    assert Refers(r, lives[i], secret, k) && Refers(r, lives[j], secret, k);
    var spec := lives[i][k].spec;
    forall p | p in r.predicates && !p.UsedByMachineInPool?
      ensures Matches(p, lives[j], secret, k, spec)
    {
      assert Matches(p, lives[i], secret, k, spec);
    }
    forall p | p in r.predicates && p.UsedByMachineInPool?
      ensures spec.VolumeObjSpec? && k.ObjKey?
      ensures ClaimOf(lives[i], k) == ClaimOf(lives[j], k) ==> Matches(p, lives[j], secret, k, spec)
    {
      assert Matches(p, lives[i], secret, k, spec) && Matches(p, lives[j], secret, k, lives[j][k].spec);
    }
    if !AllMatch(r.predicates, lives[j], secret, k, spec) {
      var p :| p in r.predicates && !Matches(p, lives[j], secret, k, spec);
      assert UsedByMachineInPool(p.pool) in r.predicates;
    }
    if pool :| UsedByMachineInPool(pool) in r.predicates && !VolumeUsed(lives[j], pool, k.ns, k.name, spec.volume) {
      assert !Matches(UsedByMachineInPool(pool), lives[j], secret, k, spec);
    }
  }

  /** A machine that refers to the secret all the time is never missed, whatever else about it changes. */
  lemma MachinesNeverLapse(lives: seq<Store>, from: nat, pool: string, secret: Key, k: Key)
    requires Throughout(lives, from, LiveReferencer(MachineToSecret(pool)), secret, k)
    ensures !Lapses(lives, from, LiveReferencer(MachineToSecret(pool)), secret, k)
  {
    var r := LiveReferencer(MachineToSecret(pool));
    if i: nat, j: nat :| from <= i && LapsesAt(lives, r, secret, k, i, j) {
      LapsesExactly(lives, from, r, secret, k, i, j);
    }
  }

  /** Nor is a volume whose claim stays. */
  lemma SteadyVolumesNeverLapse(lives: seq<Store>, from: nat, pool: string, secret: Key, k: Key)
    requires Throughout(lives, from, LiveReferencer(MachineVolumeToSecret(pool)), secret, k)
    requires forall i, j :: from <= i <= j < |lives| ==> ClaimOf(lives[i], k) == ClaimOf(lives[j], k)
    ensures !Lapses(lives, from, LiveReferencer(MachineVolumeToSecret(pool)), secret, k)
  {
    var r := LiveReferencer(MachineVolumeToSecret(pool));
    if i: nat, j: nat :| from <= i && LapsesAt(lives, r, secret, k, i, j) {
      LapsesExactly(lives, from, r, secret, k, i, j);
    }
  }

  /** A volume claimed by one of two machines, and the machines that list it. */
  function ClaimedVolume(claim: UidRef, users: map<Key, Record>): Store {
    users[ObjKey(Volume, "a", "v") := Record(9, VolumeObjSpec(VolumeSpec(Some("s"), Some(claim), 0)))]
  }

  function VolumeUser(uid: Uid): Record {
    Record(uid, MachineObjSpec(MachineSpec(Some("p"), None, None,
      [Entry("disk", MachineVolume("oda", VolumeRef("v")))], [], [], [], 0)))
  }

  /**
    A volume that is missed although it refers to the secret all the time: listed while machine "m"
    claims it; then "n" claims it and "m" goes; and only then is the usage by "m" looked up.
   */
  lemma MovedClaimIsMissed()
    ensures var m, n := ObjKey(Machine, "a", "m"), ObjKey(Machine, "a", "n");
            var lives := [
              ClaimedVolume(UidRef("m", 1), map[m := VolumeUser(1), n := VolumeUser(2)]),
              ClaimedVolume(UidRef("n", 2), map[n := VolumeUser(2)])];
            var r, secret, k := LiveReferencer(MachineVolumeToSecret("p")), ObjKey(Secret, "a", "s"), ObjKey(Volume, "a", "v");
            Throughout(lives, 0, r, secret, k) && LapsesAt(lives, r, secret, k, 0, 1)
  {
    var m, n := ObjKey(Machine, "a", "m"), ObjKey(Machine, "a", "n");
    var before := ClaimedVolume(UidRef("m", 1), map[m := VolumeUser(1), n := VolumeUser(2)]);
    var after := ClaimedVolume(UidRef("n", 2), map[n := VolumeUser(2)]);
    var lives, k := [before, after], ObjKey(Volume, "a", "v");
    var r, secret := LiveReferencer(MachineVolumeToSecret("p")), ObjKey(Secret, "a", "s");
    assert r.predicates == [UsedByMachineInPool("p"), FieldContainsName];
    var spec := VolumeUser(1).spec.machine;
    assert spec.volumes[0].name == "disk" && EntryVolumeName("m", spec.volumes[0]) == Some("v");
    assert EntryVolumeName("n", spec.volumes[0]) == Some("v");
    assert VolumeUsed(before, "p", "a", "v", before[k].spec.volume);
    assert VolumeUsed(after, "p", "a", "v", after[k].spec.volume);
    assert Refers(r, before, secret, k) && Refers(r, after, secret, k);
    assert UsedByMachineInPool("p") in r.predicates;
    assert !Matches(UsedByMachineInPool("p"), after, secret, k, before[k].spec);
  }

  // ---------- Snapshots of one query ----------

  /** Snapshots in the order in which they were live. */
  ghost predicate InOrder(lives: seq<Store>, from: nat, listed: Store, seen: Store) {
    exists i: nat, j: nat :: from <= i <= j < |lives| && lives[i] == listed && lives[j] == seen
  }

  /** The object as listed fails a predicate: it lapsed, if it is a referent all the time. */
  lemma MissIsLapse(lives: seq<Store>, from: nat, g: Store, g': Store, r: ListReferencer, p: ListPredicate,
                    secret: Key, k: Key)
    requires InOrder(lives, from, g, g') && k in g && p in r.predicates && !Matches(p, g', secret, k, g[k].spec)
    ensures Lapses(lives, from, r, secret, k)
  {
    var i: nat, j: nat :| from <= i <= j < |lives| && lives[i] == g && lives[j] == g';
    assert LapsesAt(lives, r, secret, k, i, j);
  }

  lemma LapsesLater(lives: seq<Store>, lives': seq<Store>, from: nat, from': nat, r: ListReferencer, secret: Key, k: Key)
    requires lives <= lives' && from' <= from && Lapses(lives, from, r, secret, k)
    ensures Lapses(lives', from', r, secret, k)
  {
    var i: nat, j: nat :| from <= i && LapsesAt(lives, r, secret, k, i, j);
    assert LapsesAt(lives', r, secret, k, i, j);
  }

  lemma ThroughoutPart(lives: seq<Store>, from: nat, lives': seq<Store>, from': nat, r: ListReferencer,
                       secret: Key, k: Key)
    requires lives <= lives' && from' <= from && Throughout(lives', from', r, secret, k)
    ensures Throughout(lives, from, r, secret, k)
  {
    assert forall i :: 0 <= i < |lives| ==> lives[i] == lives'[i];
  }

  /** What a part of the time answers is answered for all of it. */
  lemma OnlyLapsesLater(lives: seq<Store>, from: nat, lives': seq<Store>, from': nat, r: ListReferencer, secret: Key)
    requires lives <= lives' && from' <= from && OnlyLapsesMissed(lives, from, r, secret)
    ensures OnlyLapsesMissed(lives', from', r, secret)
  {
    forall k | Throughout(lives', from', r, secret, k)
      ensures Lapses(lives', from', r, secret, k)
    {
      ThroughoutPart(lives, from, lives', from', r, secret, k);
      LapsesLater(lives, lives', from, from', r, secret, k);
    }
  }

  /** Whoever was a referent all the time was listed. */
  lemma ListMissesNone(lives: seq<Store>, from: nat, g: Store, r: ListReferencer, secret: Key)
    requires from <= |lives| && g in lives[from..]
    requires forall k :: Listed(r, g, secret, k) ==> Lapses(lives, from, r, secret, k)
    ensures OnlyLapsesMissed(lives, from, r, secret)
  {
    var i :| 0 <= i < |lives[from..]| && lives[from..][i] == g;
    assert lives[from + i] == g;
    forall k | Throughout(lives, from, r, secret, k)
      ensures Listed(r, g, secret, k)
    {
      assert Refers(r, lives[from + i], secret, k);
    }
  }

  lemma TailGrows(lives: seq<Store>, lives': seq<Store>, from: nat, g: Store)
    requires lives <= lives' && from <= |lives| && g in lives[from..]
    ensures g in lives'[from..]
  {
    var i :| 0 <= i < |lives[from..]| && lives[from..][i] == g;
    assert lives'[from..][i] == g;
  }

  /** A listed object for which every predicate was answered yes, by one snapshot or another. */
  ghost predicate Witnessed(answers: seq<Store>, ps: seq<ListPredicate>, secret: Key, k: Key, spec: Spec) {
    forall p :: p in ps ==> exists g :: g in answers && Matches(p, g, secret, k, spec)
  }

  ghost predicate Evidence(answers: seq<Store>, r: ListReferencer, secret: Key) {
    exists g: Store, k :: g in answers && Listed(r, g, secret, k) && Witnessed(answers, r.predicates, secret, k, g[k].spec)
  }

  lemma ListedThenSeen(before: seq<Store>, lives: seq<Store>, from: nat, to: nat, g: Store, seen: Store)
    requires before <= lives && from <= |before| && g in before[from..] && |before| - 1 <= to < |lives| && seen in lives[to..]
    ensures InOrder(lives, from, g, seen)
  {
    var i :| 0 <= i < |before[from..]| && before[from..][i] == g;
    var j :| 0 <= j < |lives[to..]| && lives[to..][j] == seen;
    assert lives[from + i] == g && lives[to + j] == seen;
  }

  lemma EvidenceStays(answers: seq<Store>, answers': seq<Store>, r: ListReferencer, secret: Key)
    requires answers <= answers' && Evidence(answers, r, secret)
    ensures Evidence(answers', r, secret)
  {
    var g: Store, k :| g in answers && Listed(r, g, secret, k) && Witnessed(answers, r.predicates, secret, k, g[k].spec);
    assert Witnessed(answers', r.predicates, secret, k, g[k].spec);
  }

  class Mixin {
    var dependents: seq<FieldReference>

    constructor ()
      ensures dependents == []
    {
      dependents := [];
    }

    method Dependent(f: FieldReference)
      modifies this
      ensures dependents == old(dependents) + [f]
    {
      dependents := dependents + [f];
    }

    /** One predicate on one listed object; usage is looked up at this moment, not at that of the list. */
    method PredicateMatches(source: Source, fromCache: bool, p: ListPredicate, secret: Key, k: Key, spec: Spec)
      returns (ok: bool, ghost g: Store)
      requires source.Valid()
      modifies source
      ensures source.Later()
      ensures ok <==> Matches(p, g, secret, k, spec)
      ensures g in source.answers
      ensures !fromCache ==> g in source.lives[|old(source.lives)| - 1..]
    {
      var now := source.Read(fromCache);
      g := now;
      match p {
        case InMachinePool(pool) => ok := spec.MachineObjSpec? && InPool(spec.machine, pool);
        case FieldContainsName => ok := secret.ObjKey? && secret.name in SecretNames(spec);
        case UsedByMachineInPool(pool) =>
          if k.NsKey? || !spec.VolumeObjSpec? || spec.volume.claim.None? {
            return false, g;
          }
          var claim := spec.volume.claim.value;
          var mk := ObjKey(Machine, k.ns, claim.name);
          if mk !in now || !Typed(mk, now[mk].spec) || now[mk].uid != claim.uid || !InPool(now[mk].spec.machine, pool) {
            return false, g;
          }
          var has := ListsVolume(claim.name, now[mk].spec.machine, k.name);
          ok := has;
      }
    }

    method ListsVolume(machine: string, m: MachineSpec, volume: string) returns (has: bool)
      ensures has == MachineHasVolume(machine, m, volume)
    {
      for i := 0 to |m.volumes|
        invariant forall j :: 0 <= j < i ==> EntryVolumeName(machine, m.volumes[j]) != Some(volume)
      {
        if EntryVolumeName(machine, m.volumes[i]) == Some(volume) {
          return true;
        }
      }
      return false;
    }

    /** All predicates on one listed object. */
    method Filter(source: Source, fromCache: bool, r: ListReferencer, secret: Key, k: Key, spec: Spec,
                  ghost from: nat, ghost g: Store) returns (ok: bool)
      requires source.Valid() && k in g && g[k].spec == spec
      requires !fromCache ==> from <= |source.lives| && g in source.lives[from..]
      modifies source
      ensures source.Later()
      ensures !ok && !fromCache ==> Lapses(source.lives, from, r, secret, k)
      ensures ok ==> Witnessed(source.answers, r.predicates, secret, k, spec)
    {
      for i := 0 to |r.predicates|
        invariant source.Valid() && old(source.lives) <= source.lives && old(source.answers) <= source.answers
        invariant Witnessed(source.answers, r.predicates[..i], secret, k, spec)
      {
        ghost var to := |source.lives| - 1;
        var ok', seen := PredicateMatches(source, fromCache, r.predicates[i], secret, k, spec);
        if !ok' {
          if !fromCache {
            ListedThenSeen(old(source.lives), source.lives, from, to, g, seen);
            MissIsLapse(source.lives, from, g, seen, r, r.predicates[i], secret, k);
          }
          return false;
        }
        assert r.predicates[..i + 1] == r.predicates[..i] + [r.predicates[i]];
      }
      assert r.predicates[..|r.predicates|] == r.predicates;
      return true;
    }

    /**
      `ListReferencer.References`: list, then filter.  A live query misses no referent that is one from
      the beginning to the end, unless it lapses in between; a yes is due to a listed object that passed.
     */
    method ReferencesIn(source: Source, fromCache: bool, r: ListReferencer, secret: Key) returns (ok: bool)
      requires source.Valid()
      modifies source
      ensures source.Later()
      ensures !ok && !fromCache ==> OnlyLapsesMissed(source.lives, |old(source.lives)| - 1, r, secret)
      ensures ok ==> Evidence(source.answers, r, secret)
    {
      ghost var from := |source.lives| - 1;
      var g := source.Read(fromCache);
      var pending := g.Keys;
      ok := false;
      while pending != {}
        invariant source.Valid() && old(source.lives) <= source.lives && old(source.answers) <= source.answers
        invariant pending <= g.Keys && g in source.answers
        invariant !fromCache ==> g in source.lives[from..]
        invariant !ok && !fromCache ==>
          forall k :: k !in pending && Listed(r, g, secret, k) ==> Lapses(source.lives, from, r, secret, k)
        invariant ok ==> Evidence(source.answers, r, secret)
      {
        ghost var lives, answers := source.lives, source.answers;
        var k :| k in pending;
        pending := pending - {k};
        var listed := k.ObjKey? && k.kind == r.referent && Typed(k, g[k].spec) &&
          (r.byField ==> secret.ObjKey? && k.ns == secret.ns && secret.name in SecretNames(g[k].spec));
        if listed {
          var passes := Filter(source, fromCache, r, secret, k, g[k].spec, from, g);
          if ok {
            EvidenceStays(answers, source.answers, r, secret);
          }
          ok := ok || passes;
        }
        forall j | Lapses(lives, from, r, secret, j) {
          LapsesLater(lives, source.lives, from, from, r, secret, j);
        }
        if !fromCache {
          TailGrows(lives, source.lives, from, g);
        }
      }
      if !ok && !fromCache {
        ListMissesNone(source.lives, from, g, r, secret);
      }
    }

    /**
      Cache first, then live.  A no means that no referent of any declaration was one for the whole
      check, unless it lapsed: `MachinesNeverLapse`, and volumes only as `LapsesExactly` says.
     */
    method IsReferenced(source: Source, secret: Key) returns (ok: bool)
      requires source.Valid()
      modifies source
      ensures source.Later()
      ensures !ok ==> forall f :: f in dependents ==>
                OnlyLapsesMissed(source.lives, |old(source.lives)| - 1, LiveReferencer(f), secret)
      ensures ok ==>
                exists f :: f in dependents &&
                  (Evidence(source.answers, CachedReferencer(f), secret) ||
                   Evidence(source.answers, LiveReferencer(f), secret))
    {
      ghost var from := |source.lives| - 1;
      for i := 0 to |dependents|
        invariant source.Valid() && old(source.lives) <= source.lives && old(source.answers) <= source.answers
      {
        var cached := ReferencesIn(source, true, CachedReferencer(dependents[i]), secret);
        if cached {
          return true;
        }
      }
      for i := 0 to |dependents|
        invariant source.Valid() && old(source.lives) <= source.lives && old(source.answers) <= source.answers
        invariant forall j :: 0 <= j < i ==> OnlyLapsesMissed(source.lives, from, LiveReferencer(dependents[j]), secret)
      {
        ghost var lives := source.lives;
        var liveAnswer := ReferencesIn(source, false, LiveReferencer(dependents[i]), secret);
        if liveAnswer {
          return true;
        }
        OnlyLapsesLater(source.lives, |lives| - 1, source.lives, from, LiveReferencer(dependents[i]), secret);
        forall j | 0 <= j < i {
          OnlyLapsesLater(lives, from, source.lives, from, LiveReferencer(dependents[j]), secret);
        }
      }
      return false;
    }
  }
}
