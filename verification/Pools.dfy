/** What the broker announces for its source pool: the sums and the union over all target pools. */
module Pools {

  type ResourceList = map<string, int>

  datatype VolumePool = VolumePool(classes: seq<string>, available: ResourceList, used: ResourceList)

  function Quantity(r: ResourceList, name: string): int {
    if name in r then r[name] else 0
  }

  /** `quotav1.Add`: key by key, over the keys of both. */
  function Add(a: ResourceList, b: ResourceList): ResourceList {
    map name | name in a.Keys + b.Keys :: Quantity(a, name) + Quantity(b, name)
  }

  // ---------- Order of names ----------

  predicate Less(a: string, b: string) {
    if b == "" then false
    else if a == "" then true
    else a[0] < b[0] || (a[0] == b[0] && Less(a[1..], b[1..]))
  }

  /** The two agree up to there, where `a` has ended and `b` has not, or has the smaller character. */
  ghost predicate DifferAt(a: string, b: string, i: nat) {
    i <= |a| && i < |b| && a[..i] == b[..i] && (i < |a| ==> a[i] < b[i])
  }

  /** The order is that of a dictionary, ascending by code points. */
  lemma {:induction false} LessExactly(a: string, b: string)
    ensures Less(a, b) <==> exists i: nat :: DifferAt(a, b, i)
  {
    if b != "" && a == "" {
      assert DifferAt(a, b, 0);
    } else if b != "" {
      LessExactly(a[1..], b[1..]);
      if a[0] < b[0] {
        assert DifferAt(a, b, 0);
      }
      if i: nat :| DifferAt(a[1..], b[1..], i) && a[0] == b[0] {
        assert a[..i + 1] == [a[0]] + a[1..][..i] && b[..i + 1] == [b[0]] + b[1..][..i];
        assert DifferAt(a, b, i + 1);
      }
      if i: nat :| DifferAt(a, b, i) && i > 0 {
        assert a[0] == a[..i][0] && b[0] == b[..i][0];
        assert a[1..][..i - 1] == a[..i][1..] && b[1..][..i - 1] == b[..i][1..];
        assert DifferAt(a[1..], b[1..], i - 1);
      }
    }
  }

  lemma {:induction false} LessTotal(a: string, b: string)
    ensures Less(a, b) || a == b || Less(b, a)
    ensures !(Less(a, b) && Less(b, a)) && !Less(a, a)
  {
    if a != "" && b != "" {
      LessTotal(a[1..], b[1..]);
      LessTotal(a[1..], a[1..]);
      if a[0] == b[0] && a[1..] == b[1..] {
        assert a == [a[0]] + a[1..] && b == [b[0]] + b[1..];
      }
    } else if a != "" {
      LessTotal(a[1..], a[1..]);
    }
  }

  lemma {:induction false} LessTransitive(a: string, b: string, c: string)
    requires Less(a, b) && Less(b, c)
    ensures Less(a, c)
  {
    if a != "" && b != "" && c != "" && a[0] == b[0] == c[0] {
      LessTransitive(a[1..], b[1..], c[1..]);
    }
  }

  ghost predicate StrictlySorted(l: seq<string>) {
    forall i, j :: 0 <= i < j < |l| ==> Less(l[i], l[j])
  }

  ghost predicate ListsExactly(l: seq<string>, names: set<string>) {
    forall n :: n in l <==> n in names
  }

  lemma FirstIsLeast(l: seq<string>, n: string)
    requires StrictlySorted(l) && n in l
    ensures l[0] == n || Less(l[0], n)
  {
  }

  lemma TailMembers(l: seq<string>)
    requires StrictlySorted(l) && l != []
    ensures forall n :: n in l[1..] <==> n in l && n != l[0]
  {
    forall n | n in l[1..]
      ensures n != l[0]
    {
      LessTotal(l[0], n);
    }
  }

  /** There is only one strictly sorted list of a set of names. */
  lemma {:induction false} SortedUnique(a: seq<string>, b: seq<string>)
    requires StrictlySorted(a) && StrictlySorted(b)
    requires forall n :: n in a <==> n in b
    ensures a == b
  {
    assert b == [] || b[0] in a;
    if a != [] {
      assert a[0] in b;
      FirstIsLeast(a, b[0]);
      FirstIsLeast(b, a[0]);
      LessTotal(a[0], b[0]);
      var x := a[0];
      TailMembers(a);
      TailMembers(b);
      SortedUnique(a[1..], b[1..]);
      assert a == [x] + a[1..] && b == [x] + b[1..];
    }
  }

  method Least(names: set<string>) returns (least: string)
    requires names != {}
    ensures least in names && forall n :: n in names ==> n == least || Less(least, n)
  {
    least :| least in names;
    var pending := names - {least};
    while pending != {}
      invariant pending <= names && least in names
      invariant forall n :: n in names && n !in pending ==> n == least || Less(least, n)
    {
      var n :| n in pending;
      pending := pending - {n};
      LessTotal(n, least);
      if Less(n, least) {
        forall m | m in names && m !in pending && m != n
          ensures Less(n, m)
        {
          if m != least {
            LessTransitive(n, least, m);
          }
        }
        least := n;
      }
    }
  }

  /** The sorted list of a set of names. */
  method List(names: set<string>) returns (l: seq<string>)
    ensures StrictlySorted(l) && ListsExactly(l, names)
  {
    l := [];
    var pending := names;
    while pending != {}
      invariant pending <= names && StrictlySorted(l) && ListsExactly(l, names - pending)
      invariant forall m, n :: m in l && n in pending ==> Less(m, n)
    {
      var n := Least(pending);
      pending := pending - {n};
      l := l + [n];
    }
  }

  // ---------- Accumulation ----------

  ghost function Sum(pools: seq<VolumePool>, q: VolumePool -> int): int {
    if pools == [] then 0 else Sum(pools[..|pools| - 1], q) + q(pools[|pools| - 1])
  }

  ghost function Amount(list: VolumePool -> ResourceList, name: string): VolumePool -> int {
    (p: VolumePool) => Quantity(list(p), name)
  }

  ghost predicate Announces(pools: seq<VolumePool>, list: VolumePool -> ResourceList, r: ResourceList) {
    && (forall name :: name in r <==> exists p :: p in pools && name in list(p))
    && (forall name :: Quantity(r, name) == Sum(pools, Amount(list, name)))
  }

  ghost predicate AnnouncesClasses(pools: seq<VolumePool>, classes: seq<string>) {
    StrictlySorted(classes) && forall n :: n in classes <==> exists p :: p in pools && n in p.classes
  }

  lemma AddOne(pools: seq<VolumePool>, i: nat, list: VolumePool -> ResourceList, r: ResourceList)
    requires i < |pools| && Announces(pools[..i], list, r)
    ensures Announces(pools[..i + 1], list, Add(r, list(pools[i])))
  {
    var next := pools[..i + 1];
    assert next[..i] == pools[..i];
    assert next == pools[..i] + [pools[i]];
    forall name
      ensures Quantity(Add(r, list(pools[i])), name) == Sum(next, Amount(list, name))
    {
      var q := Amount(list, name);
      assert Sum(next, q) == Sum(next[..|next| - 1], q) + q(next[|next| - 1]);
    }
  }

  /**
    Announced quantities are the sums per resource over all pools, announced classes are the
    union in strictly ascending order.
   */
  method AccumulatePools(pools: seq<VolumePool>)
    returns (classes: seq<string>, available: ResourceList, used: ResourceList)
    ensures AnnouncesClasses(pools, classes)
    ensures Announces(pools, (p: VolumePool) => p.available, available)
    ensures Announces(pools, (p: VolumePool) => p.used, used)
  {
    ghost var availableOf, usedOf := (p: VolumePool) => p.available, (p: VolumePool) => p.used;
    var names: set<string> := {};
    available, used := map[], map[];
    for i := 0 to |pools|
      invariant forall n :: n in names <==> exists p :: p in pools[..i] && n in p.classes
      invariant Announces(pools[..i], availableOf, available) && Announces(pools[..i], usedOf, used)
    {
      var before := names;
      for j := 0 to |pools[i].classes|
        invariant forall n :: n in names <==> n in before || n in pools[i].classes[..j]
      {
        names := names + {pools[i].classes[j]};
      }
      assert pools[..i + 1] == pools[..i] + [pools[i]];
      AddOne(pools, i, availableOf, available);
      AddOne(pools, i, usedOf, used);
      available := Add(available, pools[i].available);
      used := Add(used, pools[i].used);
    }
    assert pools[..|pools|] == pools;
    classes := List(names);
  }

  // ---------- The order of the pools does not matter ----------

  lemma {:induction false} SumWithout(pools: seq<VolumePool>, i: nat, q: VolumePool -> int)
    requires i < |pools|
    ensures Sum(pools, q) == Sum(pools[..i] + pools[i + 1..], q) + q(pools[i])
  {
    var last := |pools| - 1;
    var rest := pools[..i] + pools[i + 1..];
    if i == last {
      assert rest == pools[..last];
    } else {
      SumWithout(pools[..last], i, q);
      assert rest[..|rest| - 1] == pools[..last][..i] + pools[..last][i + 1..];
      assert rest[|rest| - 1] == pools[last];
    }
  }

  lemma WithoutOne<T>(a: seq<T>, b: seq<T>, i: nat)
    requires multiset(a) == multiset(b) && a != [] && i < |b| && b[i] == a[|a| - 1]
    ensures multiset(a[..|a| - 1]) == multiset(b[..i] + b[i + 1..])
  {
    assert a == a[..|a| - 1] + [b[i]];
    assert b == b[..i] + [b[i]] + b[i + 1..];
    assert multiset(b[..i] + b[i + 1..]) == multiset(b) - multiset{b[i]};
    assert multiset(a[..|a| - 1]) == multiset(a) - multiset{b[i]};
  }

  lemma {:induction false} SumReordered(a: seq<VolumePool>, b: seq<VolumePool>, q: VolumePool -> int)
    requires multiset(a) == multiset(b)
    ensures Sum(a, q) == Sum(b, q)
  {
    if a == [] {
      assert |multiset(b)| == 0;
    } else {
      var last := |a| - 1;
      assert a[last] in multiset(b);
      var i :| 0 <= i < |b| && b[i] == a[last];
      WithoutOne(a, b, i);
      SumWithout(b, i, q);
      SumReordered(a[..last], b[..i] + b[i + 1..], q);
    }
  }

  lemma SameAnnouncement(a: seq<VolumePool>, b: seq<VolumePool>, list: VolumePool -> ResourceList,
                         r: ResourceList, r': ResourceList)
    requires multiset(a) == multiset(b) && Announces(a, list, r) && Announces(b, list, r')
    ensures r == r'
  {
    assert forall p :: p in a <==> p in multiset(b);
    forall name
      ensures Quantity(r, name) == Quantity(r', name) && (name in r <==> name in r')
    {
      SumReordered(a, b, Amount(list, name));
    }
    forall name | name in r
      ensures r[name] == r'[name]
    {
      assert Quantity(r, name) == Quantity(r', name);
    }
  }

  /** Any reordering of the pools announces the same, down to the order of the classes. */
  lemma ReorderingInvariant(a: seq<VolumePool>, b: seq<VolumePool>, classes: seq<string>, classes': seq<string>,
                            available: ResourceList, available': ResourceList, used: ResourceList, used': ResourceList)
    requires multiset(a) == multiset(b)
    requires AnnouncesClasses(a, classes) && AnnouncesClasses(b, classes')
    requires Announces(a, (p: VolumePool) => p.available, available)
    requires Announces(b, (p: VolumePool) => p.available, available')
    requires Announces(a, (p: VolumePool) => p.used, used) && Announces(b, (p: VolumePool) => p.used, used')
    ensures classes == classes' && available == available' && used == used'
  {
    assert forall p :: p in a <==> p in multiset(b);
    SortedUnique(classes, classes');
    SameAnnouncement(a, b, (p: VolumePool) => p.available, available, available');
    SameAnnouncement(a, b, (p: VolumePool) => p.used, used, used');
  }
}
