/**
  Owner references across clusters: a list kept in one annotation of the owned object, with an
  older annotation that is still read and migrated on the next write.
 */
module OwnerReferences {
  import opened Wrappers

  // ---------- API versions ----------

  function Slashes(s: string): nat {
    if s == "" then 0 else (if s[0] == '/' then 1 else 0) + Slashes(s[1..])
  }

  function FirstSlash(s: string): nat {
    if s == "" || s[0] == '/' then 0 else 1 + FirstSlash(s[1..])
  }

  datatype GroupVersion = GroupVersion(group: string, version: string) {
    function Text(): string {
      if group != "" then group + "/" + version else version
    }
  }

  lemma {:induction false} FirstSlashInside(s: string)
    requires Slashes(s) > 0
    ensures FirstSlash(s) < |s|
  {
    if s[0] != '/' {
      FirstSlashInside(s[1..]);
    }
  }

  function ParseGroupVersion(text: string): Option<GroupVersion> {
    if text == "" || text == "/" then Some(GroupVersion("", ""))
    else if Slashes(text) == 0 then Some(GroupVersion("", text))
    else if Slashes(text) == 1 then
      FirstSlashInside(text);
      Some(GroupVersion(text[..FirstSlash(text)], text[FirstSlash(text) + 1..]))
    else None
  }

  lemma {:induction false} SlashesOfParts(a: string, b: string)
    ensures Slashes(a + b) == Slashes(a) + Slashes(b)
    ensures Slashes(a) == 0 && b != "" && b[0] == '/' ==> FirstSlash(a + b) == |a|
  {
    if a == "" {
      assert a + b == b;
    } else {
      SlashesOfParts(a[1..], b);
      assert (a + b)[1..] == a[1..] + b;
    }
  }

  /** Parsing an API version gives back the group and version it was printed from. */
  lemma ParseOfText(gv: GroupVersion)
    requires Slashes(gv.group) == 0 && Slashes(gv.version) == 0
    ensures ParseGroupVersion(gv.Text()) == Some(gv)
  {
    if gv.group != "" {
      var tail := "/" + gv.version;
      assert gv.Text() == gv.group + tail;
      SlashesOfParts(gv.group, tail);
      assert tail[1..] == gv.version;
      assert gv.Text()[..|gv.group|] == gv.group && gv.Text()[|gv.group| + 1..] == gv.version;
    }
  }

  lemma {:induction false} SlashesCount(s: string)
    ensures Slashes(s) == multiset(s)['/']
    ensures forall i :: 0 <= i < |s| && s[i] == '/' && FirstSlash(s) < i ==> Slashes(s) > 1
    ensures forall i :: 0 <= i < FirstSlash(s) <= |s| ==> s[i] != '/'
    ensures FirstSlash(s) < |s| ==> s[FirstSlash(s)] == '/'
    ensures FirstSlash(s) <= |s|
    ensures Slashes(s) == 0 <==> forall i :: 0 <= i < |s| ==> s[i] != '/'
  {
    if s != "" {
      var rest := s[1..];
      SlashesCount(rest);
      assert s == [s[0]] + rest;
      assert forall i :: 1 <= i < |s| ==> s[i] == rest[i - 1];
      if s[0] == '/' && Slashes(rest) == 0 {
        assert forall i :: 1 <= i < |s| ==> s[i] != '/';
      }
    }
  }

  /** An API version has at most one slash, which stands between group and version; without one there is no group. */
  lemma ParseExactly(text: string)
    ensures ParseGroupVersion(text).None? <==> multiset(text)['/'] > 1
    ensures '/' !in text ==> ParseGroupVersion(text) == Some(GroupVersion("", text))
    ensures forall i :: 0 <= i < |text| && text[i] == '/' && multiset(text)['/'] == 1 ==>
              ParseGroupVersion(text) == Some(GroupVersion(text[..i], text[i + 1..]))
  {
    SlashesCount(text);
    forall i | 0 <= i < |text| && text[i] == '/' && multiset(text)['/'] == 1
      ensures ParseGroupVersion(text) == Some(GroupVersion(text[..i], text[i + 1..]))
    {
      assert FirstSlash(text) == i;
    }
  }

  // ---------- References ----------

  datatype OwnerReference = OwnerReference(
    cluster: string,
    apiVersion: string,
    kind: string,
    namespace: string,
    name: string,
    uid: string,
    controller: Option<bool>)

  /** An owner, as far as a reference to it is concerned. */
  datatype Owner = Owner(gv: GroupVersion, kind: string, namespace: string, name: string, uid: string) {
    function Ref(cluster: string, controller: Option<bool>): OwnerReference {
      OwnerReference(cluster, gv.Text(), kind, namespace, name, uid, controller)
    }
  }

  predicate ReferSameObject(a: OwnerReference, b: OwnerReference) {
    var aGv, bGv := ParseGroupVersion(a.apiVersion), ParseGroupVersion(b.apiVersion);
    && aGv.Some? && bGv.Some?
    && a.cluster == b.cluster
    && aGv.value.group == bGv.value.group
    && a.kind == b.kind
    && a.namespace == b.namespace
    && a.name == b.name
  }

  lemma ReferSameObjectEquivalence(a: OwnerReference, b: OwnerReference, c: OwnerReference)
    ensures ReferSameObject(a, b) <==> ReferSameObject(b, a)
    ensures ReferSameObject(a, b) && ReferSameObject(b, c) ==> ReferSameObject(a, c)
    ensures ReferSameObject(a, a) <==> ParseGroupVersion(a.apiVersion).Some?
  {
  }

  /** The same cluster, group, kind, namespace and name; version and uid may differ. */
  predicate SameOwner(c: string, a: Owner, d: string, b: Owner) {
    c == d && a.gv.group == b.gv.group && a.kind == b.kind && a.namespace == b.namespace && a.name == b.name
  }

  predicate Printable(gv: GroupVersion) {
    Slashes(gv.group) == 0 && Slashes(gv.version) == 0
  }

  /** References to owners refer to the same object of the same cluster, across versions and uids. */
  lemma OwnersReferSameObject(c: string, a: Owner, d: string, b: Owner, x: Option<bool>, y: Option<bool>)
    requires Printable(a.gv) && Printable(b.gv)
    ensures ReferSameObject(a.Ref(c, x), b.Ref(d, y)) <==> SameOwner(c, a, d, b)
  {
    ParseOfText(a.gv);
    ParseOfText(b.gv);
  }

  /** The entry is about this owner in this cluster, under whatever version and uid. */
  ghost predicate Names(r: OwnerReference, cluster: string, owner: Owner) {
    && r.cluster == cluster && r.kind == owner.kind && r.namespace == owner.namespace && r.name == owner.name
    && exists version :: ParseGroupVersion(r.apiVersion) == Some(GroupVersion(owner.gv.group, version))
  }

  lemma NamesExactly(r: OwnerReference, cluster: string, owner: Owner, controller: Option<bool>)
    requires Printable(owner.gv)
    ensures ReferSameObject(r, owner.Ref(cluster, controller)) <==> Names(r, cluster, owner)
  {
    ParseOfText(owner.gv);
    var gv := ParseGroupVersion(r.apiVersion);
    assert gv.Some? ==> gv == Some(GroupVersion(gv.value.group, gv.value.version));
  }

  /** Some entry refers to the owner in that cluster, whatever version and uid it has. */
  ghost predicate HasOwner(owners: seq<OwnerReference>, cluster: string, owner: Owner) {
    exists r :: r in owners && ReferSameObject(r, owner.Ref(cluster, None))
  }

  predicate IsController(r: OwnerReference) {
    r.controller == Some(true)
  }

  /** No two entries refer to the same object, and at most one is the controller. */
  ghost predicate WellFormed(owners: seq<OwnerReference>) {
    forall i, j :: 0 <= i < j < |owners| ==>
      !ReferSameObject(owners[i], owners[j]) && !(IsController(owners[i]) && IsController(owners[j]))
  }

  // ---------- The annotations ----------

  /** The value of an annotation, as far as the decoders tell values apart. */
  datatype Text =
    | ObjectMetaText(refs: seq<OwnerReference>)
    | OwnerListText(refs: seq<OwnerReference>)
    | OtherText(text: string)

  type Annotations = map<string, Text>

  const OBJECT_META_ANNOTATION := "multicluster.api.onmetal.de/object-meta"
  const DEPRECATED_ANNOTATION := "broker.onmetal.de/owner"

  /** What does not decode counts as empty; the deprecated annotation is read only without the other. */
  function OwnersIn(a: Annotations): seq<OwnerReference> {
    if OBJECT_META_ANNOTATION in a then
      if a[OBJECT_META_ANNOTATION].ObjectMetaText? then a[OBJECT_META_ANNOTATION].refs else []
    else if DEPRECATED_ANNOTATION in a then
      if a[DEPRECATED_ANNOTATION].OwnerListText? then a[DEPRECATED_ANNOTATION].refs else []
    else []
  }

  function WithOwners(a: Annotations, owners: seq<OwnerReference>): Annotations {
    a[OBJECT_META_ANNOTATION := ObjectMetaText(owners)] - {DEPRECATED_ANNOTATION}
  }

  ghost predicate OthersUntouched(a: Annotations, a': Annotations) {
    forall n :: n != OBJECT_META_ANNOTATION && n != DEPRECATED_ANNOTATION ==>
      (n in a' <==> n in a) && (n in a ==> a'[n] == a[n])
  }

  /** Writing then reading gives the list back, migrates the deprecated annotation and touches no other. */
  lemma WriteThenRead(a: Annotations, owners: seq<OwnerReference>)
    ensures OwnersIn(WithOwners(a, owners)) == owners
    ensures DEPRECATED_ANNOTATION !in WithOwners(a, owners)
    ensures OthersUntouched(a, WithOwners(a, owners))
  {
  }

  // ---------- Specification of the operations ----------

  /** The first entry that refers to the object of `ref`. */
  function IndexOf(owners: seq<OwnerReference>, ref: OwnerReference): Option<nat> {
    if owners == [] then None
    else if ReferSameObject(owners[0], ref) then Some(0)
    else match IndexOf(owners[1..], ref) case None => None case Some(i) => Some(i + 1)
  }

  lemma {:induction false} IndexOfIsFirst(owners: seq<OwnerReference>, ref: OwnerReference, i: nat)
    ensures IndexOf(owners, ref) == Some(i) <==>
            i < |owners| && ReferSameObject(owners[i], ref) &&
            forall j :: 0 <= j < i ==> !ReferSameObject(owners[j], ref)
  {
    if owners != [] && !ReferSameObject(owners[0], ref) && i > 0 {
      var rest := owners[1..];
      IndexOfIsFirst(rest, ref, i - 1);
      if i < |owners| {
        assert owners[i] == rest[i - 1];
        assert forall j :: 0 <= j < i - 1 ==> rest[j] == owners[j + 1];
        assert forall j :: 1 <= j < i ==> owners[j] == rest[j - 1];
      }
    }
  }

  lemma {:induction false} IndexOfNone(owners: seq<OwnerReference>, ref: OwnerReference)
    ensures IndexOf(owners, ref).None? <==> forall j :: 0 <= j < |owners| ==> !ReferSameObject(owners[j], ref)
  {
    if owners != [] {
      IndexOfNone(owners[1..], ref);
      assert forall j :: 1 <= j < |owners| ==> owners[j] == owners[1..][j - 1];
    }
  }

  /** The entries about other objects. */
  function Others(owners: seq<OwnerReference>, ref: OwnerReference): seq<OwnerReference> {
    if owners == [] then []
    else if ReferSameObject(owners[0], ref) then Others(owners[1..], ref)
    else [owners[0]] + Others(owners[1..], ref)
  }

  ghost function ControllerOf(owners: seq<OwnerReference>): Option<OwnerReference> {
    if owners == [] then None
    else if IsController(owners[0]) then Some(owners[0])
    else ControllerOf(owners[1..])
  }

  lemma {:induction false} ControllerOfIs(owners: seq<OwnerReference>, i: nat)
    requires WellFormed(owners) && i < |owners| && IsController(owners[i])
    ensures ControllerOf(owners) == Some(owners[i])
  {
    if i > 0 {
      ControllerOfIs(owners[1..], i - 1);
    }
  }

  ghost predicate IsFirstController(owners: seq<OwnerReference>, i: nat) {
    i < |owners| && owners[i].controller == Some(true) && forall j :: 0 <= j < i ==> owners[j].controller != Some(true)
  }

  /** The controller is the first entry that says so in as many words. */
  lemma {:induction false} ControllerOfExactly(owners: seq<OwnerReference>, r: OwnerReference)
    ensures ControllerOf(owners) == Some(r) <==> exists i: nat :: IsFirstController(owners, i) && owners[i] == r
  {
    if owners != [] {
      var rest := owners[1..];
      ControllerOfExactly(rest, r);
      assert IsController(owners[0]) ==> IsFirstController(owners, 0);
      if i: nat :| IsFirstController(rest, i) && rest[i] == r && !IsController(owners[0]) {
        assert forall j :: 0 < j <= i ==> owners[j] == rest[j - 1];
        assert IsFirstController(owners, i + 1);
      }
      if i: nat :| IsFirstController(owners, i) && owners[i] == r && i > 0 {
        assert IsFirstController(rest, i - 1);
      }
    }
  }

  lemma {:induction false} ControllerOfNone(owners: seq<OwnerReference>)
    ensures ControllerOf(owners).None? <==> forall i :: 0 <= i < |owners| ==> !IsController(owners[i])
    ensures ControllerOf(owners).Some? ==> ControllerOf(owners).value in owners && IsController(ControllerOf(owners).value)
  {
    if owners != [] {
      ControllerOfNone(owners[1..]);
      assert forall i :: 1 <= i < |owners| ==> owners[i] == owners[1..][i - 1];
    }
  }

  function Upserted(owners: seq<OwnerReference>, ref: OwnerReference): seq<OwnerReference> {
    match IndexOf(owners, ref)
    case None => owners + [ref]
    case Some(i) => if i < |owners| then owners[i := ref] else owners
  }

  /** The last entry takes the place of the removed one. */
  function Removed(owners: seq<OwnerReference>, ref: OwnerReference): seq<OwnerReference> {
    match IndexOf(owners, ref)
    case None => owners
    case Some(i) => if i < |owners| then owners[i := owners[|owners| - 1]][..|owners| - 1] else owners
  }

  lemma {:induction false} OthersOfNone(owners: seq<OwnerReference>, ref: OwnerReference)
    requires forall j :: 0 <= j < |owners| ==> !ReferSameObject(owners[j], ref)
    ensures Others(owners, ref) == owners
  {
    if owners != [] {
      OthersOfNone(owners[1..], ref);
    }
  }

  lemma {:induction false} OthersWithout(owners: seq<OwnerReference>, ref: OwnerReference, i: nat)
    requires WellFormed(owners) && i < |owners| && ReferSameObject(owners[i], ref)
    ensures Others(owners, ref) == owners[..i] + owners[i + 1..]
  {
    if i == 0 {
      forall j | 0 <= j < |owners[1..]|
        ensures !ReferSameObject(owners[1..][j], ref)
      {
        ReferSameObjectEquivalence(owners[0], ref, owners[1..][j]);
        ReferSameObjectEquivalence(ref, owners[1..][j], ref);
      }
      OthersOfNone(owners[1..], ref);
    } else {
      assert !ReferSameObject(owners[0], ref) by {
        ReferSameObjectEquivalence(owners[i], ref, owners[0]);
        ReferSameObjectEquivalence(owners[0], ref, owners[i]);
      }
      OthersWithout(owners[1..], ref, i - 1);
      assert owners[1..][..i - 1] == owners[1..i];
      assert owners[1..][i..] == owners[i + 1..];
      assert owners[..i] == [owners[0]] + owners[1..i];
    }
  }

  /** An upsert leaves the entries about other objects alone and puts exactly one entry for this one. */
  lemma UpsertExact(owners: seq<OwnerReference>, ref: OwnerReference)
    requires WellFormed(owners)
    ensures multiset(Upserted(owners, ref)) == multiset(Others(owners, ref)) + multiset{ref}
  {
    match IndexOf(owners, ref)
    case None =>
      IndexOfNone(owners, ref);
      OthersOfNone(owners, ref);
    case Some(i) =>
      IndexOfIsFirst(owners, ref, i);
      OthersWithout(owners, ref, i);
      assert owners[i := ref] == owners[..i] + [ref] + owners[i + 1..];
  }

  lemma LastAnywhere<T>(a: seq<T>, b: seq<T>, x: T)
    ensures multiset(a + [x] + b) == multiset(a + (b + [x]))
  {
  }

  lemma RemovedWithout(owners: seq<OwnerReference>, ref: OwnerReference, i: nat)
    requires i < |owners| && IndexOf(owners, ref) == Some(i)
    ensures multiset(Removed(owners, ref)) == multiset(owners[..i] + owners[i + 1..])
  {
    var last := |owners| - 1;
    if i == last {
      assert Removed(owners, ref) == owners[..i] + owners[i + 1..];
    } else {
      assert Removed(owners, ref) == owners[..i] + [owners[last]] + owners[i + 1..last];
      assert owners[i + 1..] == owners[i + 1..last] + [owners[last]];
      LastAnywhere(owners[..i], owners[i + 1..last], owners[last]);
    }
  }

  /** A removal leaves exactly the entries about other objects. */
  lemma RemoveExact(owners: seq<OwnerReference>, ref: OwnerReference)
    requires WellFormed(owners)
    ensures multiset(Removed(owners, ref)) == multiset(Others(owners, ref))
  {
    hide WellFormed, ReferSameObject;
    match IndexOf(owners, ref)
    case None =>
      IndexOfNone(owners, ref);
      OthersOfNone(owners, ref);
    case Some(i) =>
      IndexOfIsFirst(owners, ref, i);
      OthersWithout(owners, ref, i);
      RemovedWithout(owners, ref, i);
  }

  /** Removing an owner that is not there changes nothing at all, and leaves a deprecated annotation in place. */
  lemma RemoveAbsent(a: Annotations, cluster: string, owner: Owner)
    requires !HasOwner(OwnersIn(a), cluster, owner)
    ensures Perform(a, RemoveOwner(cluster, owner)) == a
  {
    var owners, ref := OwnersIn(a), owner.Ref(cluster, None);
    assert forall j :: 0 <= j < |owners| ==> owners[j] in owners;
    IndexOfNone(owners, ref);
  }

  // ---------- The invariant ----------

  /** Adding or replacing keeps the list well formed; a controller only where there is no other one. */
  lemma UpsertWellFormed(owners: seq<OwnerReference>, ref: OwnerReference)
    requires WellFormed(owners)
    requires IsController(ref) && ControllerOf(owners).Some? ==> ReferSameObject(ControllerOf(owners).value, ref)
    ensures WellFormed(Upserted(owners, ref))
  {
    ControllerOfNone(owners);
    match IndexOf(owners, ref)
    case None =>
      IndexOfNone(owners, ref);
    case Some(i) =>
      IndexOfIsFirst(owners, ref, i);
      forall j | 0 <= j < |owners| && j != i
        ensures !ReferSameObject(owners[j], ref) && !ReferSameObject(ref, owners[j])
        ensures !(IsController(ref) && IsController(owners[j]))
      {
        ReferSameObjectEquivalence(owners[j], ref, owners[i]);
        ReferSameObjectEquivalence(owners[i], ref, owners[j]);
        if IsController(owners[j]) {
          ControllerOfIs(owners, j);
        }
      }
  }

  lemma RemoveWellFormed(owners: seq<OwnerReference>, ref: OwnerReference)
    requires WellFormed(owners)
    ensures WellFormed(Removed(owners, ref))
  {
    match IndexOf(owners, ref)
    case None =>
    case Some(i) =>
      IndexOfIsFirst(owners, ref, i);
      var last := owners[|owners| - 1];
      forall j | 0 <= j < |owners| - 1
        ensures !ReferSameObject(last, owners[j])
      {
        ReferSameObjectEquivalence(owners[j], last, last);
      }
  }

  // ---------- Any sequence of operations ----------

  datatype Op =
    | SetController(cluster: string, owner: Owner)
    | SetOwner(cluster: string, owner: Owner)
    | RemoveOwner(cluster: string, owner: Owner)

  /** Setting a controller is refused when another object is the controller already. */
  ghost predicate AlreadyOwned(owners: seq<OwnerReference>, ref: OwnerReference) {
    ControllerOf(owners).Some? && !ReferSameObject(ControllerOf(owners).value, ref)
  }

  ghost function Perform(a: Annotations, op: Op): Annotations {
    var owners := OwnersIn(a);
    match op
    case SetController(cluster, owner) =>
      var ref := owner.Ref(cluster, Some(true));
      if AlreadyOwned(owners, ref) then a else WithOwners(a, Upserted(owners, ref))
    case SetOwner(cluster, owner) => WithOwners(a, Upserted(owners, owner.Ref(cluster, None)))
    case RemoveOwner(cluster, owner) =>
      var ref := owner.Ref(cluster, None);
      if IndexOf(owners, ref).None? then a else WithOwners(a, Removed(owners, ref))
  }

  ghost function PerformAll(a: Annotations, ops: seq<Op>): Annotations {
    if ops == [] then a else Perform(PerformAll(a, ops[..|ops| - 1]), ops[|ops| - 1])
  }

  lemma PerformKeeps(a: Annotations, op: Op)
    requires WellFormed(OwnersIn(a))
    ensures WellFormed(OwnersIn(Perform(a, op)))
  {
    var owners := OwnersIn(a);
    match op
    case SetController(cluster, owner) =>
      if !AlreadyOwned(owners, owner.Ref(cluster, Some(true))) {
        UpsertWellFormed(owners, owner.Ref(cluster, Some(true)));
      }
    case SetOwner(cluster, owner) => UpsertWellFormed(owners, owner.Ref(cluster, None));
    case RemoveOwner(cluster, owner) => RemoveWellFormed(owners, owner.Ref(cluster, None));
  }

  /**
    No sequence of operations ever produces two entries for one object or two controllers, through
    the encoding and the migration of the deprecated annotation; no other annotation is touched.
   */
  lemma {:induction false} OwnerListInvariant(a: Annotations, ops: seq<Op>)
    requires WellFormed(OwnersIn(a))
    ensures WellFormed(OwnersIn(PerformAll(a, ops))) && OthersUntouched(a, PerformAll(a, ops))
  {
    if ops != [] {
      var init, last := ops[..|ops| - 1], ops[|ops| - 1];
      OwnerListInvariant(a, init);
      PerformKeeps(PerformAll(a, init), last);
    }
  }

  // ---------- Several clusters ----------

  lemma UpsertLeavesOthers(owners: seq<OwnerReference>, ref: OwnerReference, r: OwnerReference)
    requires r.cluster != ref.cluster
    ensures multiset(Upserted(owners, ref))[r] == multiset(owners)[r]
  {
    if i :| IndexOf(owners, ref) == Some(i) {
      IndexOfIsFirst(owners, ref, i);
    }
  }

  lemma RemovalLeavesOthers(owners: seq<OwnerReference>, ref: OwnerReference, r: OwnerReference)
    requires r.cluster != ref.cluster
    ensures multiset(Removed(owners, ref))[r] == multiset(owners)[r]
  {
    if i :| IndexOf(owners, ref) == Some(i) {
      IndexOfIsFirst(owners, ref, i);
      var last := owners[|owners| - 1];
      assert owners[..|owners| - 1] + [last] == owners;
      if i < |owners| - 1 {
        assert owners[i := last][..|owners| - 1] == owners[..|owners| - 1][i := last];
      }
    }
  }

  /** How often an entry is there, for entries of other clusters than that of the operation. */
  lemma PerformLeavesOthers(a: Annotations, op: Op, r: OwnerReference)
    requires r.cluster != op.cluster
    ensures multiset(OwnersIn(Perform(a, op)))[r] == multiset(OwnersIn(a))[r]
  {
    hide Upserted, Removed, ReferSameObject;
    var ref := op.owner.Ref(op.cluster, if op.SetController? then Some(true) else None);
    UpsertLeavesOthers(OwnersIn(a), ref, r);
    RemovalLeavesOthers(OwnersIn(a), ref, r);
  }

  lemma SameCountsSameOwners(owners: seq<OwnerReference>, owners': seq<OwnerReference>, cluster: string)
    requires forall r: OwnerReference :: r.cluster != cluster ==> multiset(owners')[r] == multiset(owners)[r]
    ensures forall d, owner: Owner :: d != cluster ==> (HasOwner(owners', d, owner) <==> HasOwner(owners, d, owner))
  {
    assert forall r: OwnerReference :: r in owners <==> multiset(owners)[r] > 0;
    assert forall r: OwnerReference :: r in owners' <==> multiset(owners')[r] > 0;
  }

  /**
    The operations of one cluster leave the entries of every other cluster alone, in any number; so what
    an owner in another cluster is told about its entry does not change either.
   */
  lemma {:induction false} OtherClustersUntouched(a: Annotations, ops: seq<Op>, cluster: string)
    requires forall i :: 0 <= i < |ops| ==> ops[i].cluster == cluster
    ensures forall r: OwnerReference :: r.cluster != cluster ==>
              multiset(OwnersIn(PerformAll(a, ops)))[r] == multiset(OwnersIn(a))[r]
    ensures forall d, owner: Owner :: d != cluster ==>
              (HasOwner(OwnersIn(PerformAll(a, ops)), d, owner) <==> HasOwner(OwnersIn(a), d, owner))
  {
    if ops != [] {
      var init, last := ops[..|ops| - 1], ops[|ops| - 1];
      OtherClustersUntouched(a, init, cluster);
      forall r: OwnerReference | r.cluster != cluster
        ensures multiset(OwnersIn(PerformAll(a, ops)))[r] == multiset(OwnersIn(a))[r]
      {
        PerformLeavesOthers(PerformAll(a, init), last, r);
      }
    }
    SameCountsSameOwners(OwnersIn(a), OwnersIn(PerformAll(a, ops)), cluster);
  }

  /** An object with the deprecated annotation alone is read from it, and the next write moves its owners over. */
  lemma DeprecatedMigrates(a: Annotations, owners: seq<OwnerReference>, cluster: string, owner: Owner)
    requires OBJECT_META_ANNOTATION !in a && DEPRECATED_ANNOTATION in a && a[DEPRECATED_ANNOTATION] == OwnerListText(owners)
    requires WellFormed(owners)
    ensures var a' := Perform(a, SetOwner(cluster, owner));
            && DEPRECATED_ANNOTATION !in a' && OBJECT_META_ANNOTATION in a' && a'[OBJECT_META_ANNOTATION].ObjectMetaText?
            && multiset(a'[OBJECT_META_ANNOTATION].refs) ==
               multiset(Others(owners, owner.Ref(cluster, None))) + multiset{owner.Ref(cluster, None)}
  {
    UpsertExact(owners, owner.Ref(cluster, None));
  }

  // ---------- Objects ----------

  /** An object that can be owned; what a write of the broker sets besides is its payload. */
  class Object<T> {
    var annotations: Annotations
    var resourceVersion: string // "" until the object has been created
    var payload: T

    constructor (payload: T)
      ensures annotations == map[] && resourceVersion == "" && this.payload == payload
    {
      annotations, resourceVersion, this.payload := map[], "", payload;
    }

    method GetOwnerReferences() returns (owners: seq<OwnerReference>)
      ensures owners == OwnersIn(annotations)
    {
      owners := [];
      if OBJECT_META_ANNOTATION !in annotations {
        if DEPRECATED_ANNOTATION in annotations {
          match annotations[DEPRECATED_ANNOTATION] {
            case OwnerListText(refs) => owners := refs;
            case _ =>
          }
        }
        return;
      }
      match annotations[OBJECT_META_ANNOTATION] {
        case ObjectMetaText(refs) => owners := refs;
        case _ =>
      }
    }

    method SetOwnerReferences(owners: seq<OwnerReference>)
      modifies this`annotations
      ensures annotations == WithOwners(old(annotations), owners)
    {
      annotations := annotations[OBJECT_META_ANNOTATION := ObjectMetaText(owners)];
      annotations := annotations - {DEPRECATED_ANNOTATION};
    }

    method GetControllerOf() returns (controller: Option<OwnerReference>)
      ensures controller == ControllerOf(OwnersIn(annotations))
    {
      var owners := GetOwnerReferences();
      for i := 0 to |owners|
        invariant ControllerOf(owners) == ControllerOf(owners[i..])
      {
        if IsController(owners[i]) {
          return Some(owners[i]);
        }
        assert owners[i..][1..] == owners[i + 1..];
      }
      return None;
    }

    method UpsertOwnerRef(ref: OwnerReference)
      modifies this`annotations
      ensures annotations == WithOwners(old(annotations), Upserted(old(OwnersIn(annotations)), ref))
    {
      var owners := GetOwnerReferences();
      var idx := IndexOwnerRef(owners, ref);
      if idx == -1 {
        owners := owners + [ref];
      } else {
        owners := owners[idx := ref];
      }
      SetOwnerReferences(owners);
    }

    method RemoveOwnerRef(ref: OwnerReference)
      modifies this`annotations
      ensures var owners := old(OwnersIn(annotations));
              annotations == if IndexOf(owners, ref).None? then old(annotations)
                             else WithOwners(old(annotations), Removed(owners, ref))
    {
      var owners := GetOwnerReferences();
      var idx := IndexOwnerRef(owners, ref);
      if idx >= 0 {
        owners := owners[idx := owners[|owners| - 1]];
        owners := owners[..|owners| - 1];
        SetOwnerReferences(owners);
      }
    }

    method SetControllerReference(cluster: string, owner: Owner) returns (ok: bool)
      modifies this`annotations
      ensures ok <==> !AlreadyOwned(old(OwnersIn(annotations)), owner.Ref(cluster, Some(true)))
      ensures annotations == Perform(old(annotations), SetController(cluster, owner))
    {
      var ref := owner.Ref(cluster, Some(true));
      var existing := GetControllerOf();
      if existing.Some? && !ReferSameObject(existing.value, ref) {
        return false;
      }
      UpsertOwnerRef(ref);
      return true;
    }

    method SetOwnerReference(cluster: string, owner: Owner)
      modifies this`annotations
      ensures annotations == Perform(old(annotations), SetOwner(cluster, owner))
    {
      UpsertOwnerRef(owner.Ref(cluster, None));
    }

    method RemoveOwnerReference(cluster: string, owner: Owner)
      modifies this`annotations
      ensures annotations == Perform(old(annotations), RemoveOwner(cluster, owner))
    {
      RemoveOwnerRef(owner.Ref(cluster, None));
    }

    method HasOwnerReference(cluster: string, owner: Owner) returns (has: bool)
      ensures has <==> HasOwner(OwnersIn(annotations), cluster, owner)
      ensures Printable(owner.gv) ==> (has <==> exists r :: r in OwnersIn(annotations) && Names(r, cluster, owner))
    {
      var owners := GetOwnerReferences();
      var ref := owner.Ref(cluster, None);
      var idx := IndexOwnerRef(owners, ref);
      IndexOfNone(owners, ref);
      has := idx != -1;
      if has {
        IndexOfIsFirst(owners, ref, idx);
        assert owners[idx] in owners;
      }
      if Printable(owner.gv) {
        forall r
          ensures ReferSameObject(r, ref) <==> Names(r, cluster, owner)
        {
          NamesExactly(r, cluster, owner, None);
        }
      }
    }

    method IsControlledBy(cluster: string, owner: Owner) returns (controlled: bool)
      ensures controlled <==> Controlled(annotations, cluster, owner.uid)
    {
      var existing := GetControllerOf();
      if existing.None? {
        return false;
      }
      return existing.value.cluster == cluster && existing.value.uid == owner.uid;
    }

    /**
      The mutation of a create-or-patch: refused exactly for an existing object that is not controlled
      by the owner; whenever it succeeds, the object is controlled by the owner afterwards.
     */
    method BrokerControlledMutate(cluster: string, owner: Owner, f: T -> Result<T, string>)
      returns (r: Result<(), MutateError>)
      modifies this`annotations, this`payload
      ensures r == Failure(NotControlled) <==>
              old(resourceVersion) != "" && !Controlled(old(annotations), cluster, owner.uid)
      ensures r.Success? ==> Controlled(annotations, cluster, owner.uid)
      ensures r.Success? ==> f(old(payload)) == Success(payload)
      ensures annotations == if r.Success? && resourceVersion == "" then Perform(old(annotations), SetController(cluster, owner))
                             else old(annotations)
      ensures forall e :: r == Failure(MutateFailed(e)) <==> r != Failure(NotControlled) && f(old(payload)) == Failure(e)
      ensures r == Failure(NotControlled) || f(old(payload)).Failure? ==> payload == old(payload)
      ensures resourceVersion == "" ==>
                (r == Failure(AnotherController) <==>
                   f(old(payload)).Success? && AlreadyOwned(old(OwnersIn(annotations)), owner.Ref(cluster, Some(true))))
      ensures WellFormed(old(OwnersIn(annotations))) ==> WellFormed(OwnersIn(annotations))
      ensures OthersUntouched(old(annotations), annotations)
    {
      if resourceVersion != "" {
        var controlled := IsControlledBy(cluster, owner);
        if !controlled {
          return Failure(NotControlled);
        }
        match f(payload) {
          case Failure(e) => return Failure(MutateFailed(e));
          case Success(p) => payload := p; return Success(());
        }
      }
      match f(payload) {
        case Failure(e) => return Failure(MutateFailed(e));
        case Success(p) => payload := p;
      }
      if WellFormed(OwnersIn(annotations)) {
        PerformKeeps(annotations, SetController(cluster, owner));
      }
      if !AlreadyOwned(OwnersIn(annotations), owner.Ref(cluster, Some(true))) {
        SetControllerControls(annotations, cluster, owner);
      }
      var ok := SetControllerReference(cluster, owner);
      return if ok then Success(()) else Failure(AnotherController);
    }
  }

  datatype MutateError = NotControlled | AnotherController | MutateFailed(e: string)

  ghost predicate Controlled(a: Annotations, cluster: string, uid: string) {
    var c := ControllerOf(OwnersIn(a));
    c.Some? && c.value.cluster == cluster && c.value.uid == uid
  }

  /** `indexOwnerRef`. */
  method IndexOwnerRef(owners: seq<OwnerReference>, ref: OwnerReference) returns (idx: int)
    ensures match IndexOf(owners, ref)
            case None => idx == -1
            case Some(i) => idx == i && i < |owners|
  {
    for i := 0 to |owners|
      invariant forall j :: 0 <= j < i ==> !ReferSameObject(owners[j], ref)
    {
      if ReferSameObject(owners[i], ref) {
        IndexOfIsFirst(owners, ref, i);
        return i;
      }
    }
    IndexOfNone(owners, ref);
    return -1;
  }

  lemma {:induction false} UpsertControls(owners: seq<OwnerReference>, ref: OwnerReference)
    requires IsController(ref) && !AlreadyOwned(owners, ref)
    ensures ControllerOf(Upserted(owners, ref)) == Some(ref)
  {
    if owners == [] {
    } else if ReferSameObject(owners[0], ref) {
      assert Upserted(owners, ref)[0] == ref;
    } else {
      UpsertControls(owners[1..], ref);
      assert Upserted(owners, ref) == [owners[0]] + Upserted(owners[1..], ref);
    }
  }

  /** An accepted controller is the controller, also when it replaces its own earlier entry, and nobody else is. */
  lemma SetControllerControls(a: Annotations, cluster: string, owner: Owner)
    requires !AlreadyOwned(OwnersIn(a), owner.Ref(cluster, Some(true)))
    ensures forall c, uid :: Controlled(Perform(a, SetController(cluster, owner)), c, uid) <==> c == cluster && uid == owner.uid
  {
    UpsertControls(OwnersIn(a), owner.Ref(cluster, Some(true)));
  }

  /**
    From then on every other object is refused, also one of the same name in another cluster, and the
    same object is not, also when it has been recreated or is served in another version.
   */
  lemma ControllerStays(a: Annotations, cluster: string, owner: Owner, c: string, other: Owner)
    requires !AlreadyOwned(OwnersIn(a), owner.Ref(cluster, Some(true)))
    requires Printable(owner.gv) && Printable(other.gv)
    ensures AlreadyOwned(OwnersIn(Perform(a, SetController(cluster, owner))), other.Ref(c, Some(true))) <==>
            !SameOwner(cluster, owner, c, other)
  {
    UpsertControls(OwnersIn(a), owner.Ref(cluster, Some(true)));
    OwnersReferSameObject(cluster, owner, c, other, Some(true), Some(true));
  }
}
