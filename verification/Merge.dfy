/**
  How the machine reconciler brings a list of the target (volumes, network interfaces)
  in step with the list of the source.  In one round some source entries resolve to an
  image and some do not.  Existing target entries of unresolved names are kept, all other
  target entries are replaced by the images resolved in this round.
 */
module Merge {
  import opened Wrappers
  import opened Objects

  /** One source entry in one round: its name, and its image if it resolved. */
  datatype Item<T> = Item(name: string, image: Option<T>)

  type Round<T> = seq<Item<T>>

  function Unhandled<T>(round: Round<T>): set<string> {
    set i | 0 <= i < |round| && round[i].image.None? :: round[i].name
  }

  function Fresh<T>(round: Round<T>): seq<Entry<T>> {
    if round == [] then []
    else
      var rest := Fresh(round[..|round| - 1]);
      match round[|round| - 1].image
      case None => rest
      case Some(v) => rest + [Entry(round[|round| - 1].name, v)]
  }

  function Keep<T>(l: seq<Entry<T>>, names: set<string>): seq<Entry<T>> {
    if l == [] then []
    else
      var rest := Keep(l[..|l| - 1], names);
      if l[|l| - 1].name in names then rest + [l[|l| - 1]] else rest
  }

  function MergeRound<T>(l: seq<Entry<T>>, round: Round<T>): seq<Entry<T>> {
    Keep(l, Unhandled(round)) + Fresh(round)
  }

  /** Any number of rounds, first to last. */
  function MergeRounds<T>(l: seq<Entry<T>>, rounds: seq<Round<T>>): seq<Entry<T>> {
    if rounds == [] then l
    else MergeRound(MergeRounds(l, rounds[..|rounds| - 1]), rounds[|rounds| - 1])
  }

  /** The loop of the registered mutation: pick the target entries whose name is unhandled. */
  method KeepUnhandled<T>(l: seq<Entry<T>>, names: set<string>) returns (kept: seq<Entry<T>>)
    ensures kept == Keep(l, names)
  {
    kept := [];
    for i := 0 to |l|
      invariant kept == Keep(l[..i], names)
    {
      assert l[..i + 1][..i] == l[..i];
      if l[i].name in names {
        kept := kept + [l[i]];
      }
    }
    assert l[..|l|] == l;
  }

  // ---------- Vocabulary ----------

  ghost predicate Named<T>(l: seq<Entry<T>>, n: string) {
    exists i :: 0 <= i < |l| && l[i].name == n
  }

  ghost predicate RoundNames<T>(round: Round<T>, n: string) {
    exists i :: 0 <= i < |round| && round[i].name == n
  }

  ghost predicate UniqueEntries<T>(l: seq<Entry<T>>) {
    forall i, j :: 0 <= i < j < |l| ==> l[i].name != l[j].name
  }

  ghost predicate UniqueRound<T>(round: Round<T>) {
    forall i, j :: 0 <= i < j < |round| ==> round[i].name != round[j].name
  }

  ghost predicate FullyResolved<T>(round: Round<T>) {
    forall i :: 0 <= i < |round| ==> round[i].image.Some?
  }

  /** Every source name already has an entry in the list. */
  ghost predicate Covers<T>(l: seq<Entry<T>>, round: Round<T>) {
    forall i :: 0 <= i < |round| ==> Named(l, round[i].name)
  }

  /** From round `from` on, the name was listed by the source but never resolved. */
  ghost predicate UnresolvedSince<T>(rounds: seq<Round<T>>, from: nat, n: string) {
    forall i :: from <= i < |rounds| ==> Item(n, None) in rounds[i]
  }

  /** Round `j` is the latest round in which the name resolved, and it resolved to `v`. */
  ghost predicate LatestImage<T>(rounds: seq<Round<T>>, j: nat, n: string, v: T) {
    j < |rounds| && Item(n, Some(v)) in rounds[j] && UnresolvedSince(rounds, j + 1, n)
  }

  // ---------- One round ----------

  lemma {:induction false} KeepMembers<T>(l: seq<Entry<T>>, names: set<string>, e: Entry<T>)
    ensures e in Keep(l, names) <==> e in l && e.name in names
  {
    if l != [] {
      KeepMembers(l[..|l| - 1], names, e);
      assert l == l[..|l| - 1] + [l[|l| - 1]];
    }
  }

  lemma {:induction false} FreshMembers<T>(round: Round<T>, e: Entry<T>)
    ensures e in Fresh(round) <==> Item(e.name, Some(e.value)) in round
  {
    if round != [] {
      var last := round[|round| - 1];
      FreshMembers(round[..|round| - 1], e);
      assert round == round[..|round| - 1] + [last];
    }
  }

  /** What one round leaves in the list: this round's images, and the kept entries of unresolved names. */
  lemma RoundMembers<T>(l: seq<Entry<T>>, round: Round<T>, e: Entry<T>)
    ensures e in MergeRound(l, round) <==>
            Item(e.name, Some(e.value)) in round || (e in l && Item(e.name, None) in round)
  {
    KeepMembers(l, Unhandled(round), e);
    FreshMembers(round, e);
    if Item(e.name, None) in round {
      var i :| 0 <= i < |round| && round[i] == Item(e.name, None);
      assert round[i].name in Unhandled(round);
    }
  }

  lemma {:induction false} KeepUnique<T>(l: seq<Entry<T>>, names: set<string>)
    requires UniqueEntries(l)
    ensures UniqueEntries(Keep(l, names))
  {
    if l != [] {
      var init, last := l[..|l| - 1], l[|l| - 1];
      KeepUnique(init, names);
      forall i | 0 <= i < |Keep(init, names)|
        ensures Keep(init, names)[i].name != last.name
      {
        KeepMembers(init, names, Keep(init, names)[i]);
      }
    }
  }

  lemma {:induction false} FreshUnique<T>(round: Round<T>)
    requires UniqueRound(round)
    ensures UniqueEntries(Fresh(round))
  {
    if round != [] {
      var init, last := round[..|round| - 1], round[|round| - 1];
      FreshUnique(init);
      forall i | 0 <= i < |Fresh(init)|
        ensures Fresh(init)[i].name != last.name
      {
        FreshMembers(init, Fresh(init)[i]);
      }
    }
  }

  /** Names stay unique and within the names of the source. */
  lemma RoundNamesUnique<T>(l: seq<Entry<T>>, round: Round<T>)
    requires UniqueEntries(l) && UniqueRound(round)
    ensures UniqueEntries(MergeRound(l, round))
    ensures forall n :: Named(MergeRound(l, round), n) ==> RoundNames(round, n)
  {
    var m := MergeRound(l, round);
    var kept, images := Keep(l, Unhandled(round)), Fresh(round);
    KeepUnique(l, Unhandled(round));
    FreshUnique(round);
    forall i, j | 0 <= i < |kept| && 0 <= j < |images|
      ensures kept[i].name != images[j].name
    {
      KeepMembers(l, Unhandled(round), kept[i]);
      FreshMembers(round, images[j]);
    }
    forall n | Named(m, n)
      ensures RoundNames(round, n)
    {
      var i :| 0 <= i < |m| && m[i].name == n;
      RoundMembers(l, round, m[i]);
    }
  }

  lemma {:induction false} KeepConcat<T>(a: seq<Entry<T>>, b: seq<Entry<T>>, names: set<string>)
    ensures Keep(a + b, names) == Keep(a, names) + Keep(b, names)
  {
    if b == [] {
      assert a + b == a;
    } else {
      var init := b[..|b| - 1];
      KeepConcat(a, init, names);
      assert (a + b)[..|a + b| - 1] == a + init;
    }
  }

  lemma {:induction false} KeepAll<T>(l: seq<Entry<T>>, names: set<string>)
    requires forall i :: 0 <= i < |l| ==> l[i].name in names
    ensures Keep(l, names) == l
  {
    if l != [] {
      var init := l[..|l| - 1];
      KeepAll(init, names);
      assert l == init + [l[|l| - 1]];
    }
  }

  lemma {:induction false} KeepNone<T>(l: seq<Entry<T>>, names: set<string>)
    requires forall i :: 0 <= i < |l| ==> l[i].name !in names
    ensures Keep(l, names) == []
  {
    if l != [] {
      KeepNone(l[..|l| - 1], names);
    }
  }

  /** Repeating a round changes nothing. */
  lemma RoundIdempotent<T>(l: seq<Entry<T>>, round: Round<T>)
    requires UniqueRound(round)
    ensures MergeRound(MergeRound(l, round), round) == MergeRound(l, round)
  {
    var names := Unhandled(round);
    var kept, images := Keep(l, names), Fresh(round);
    forall i | 0 <= i < |kept|
      ensures kept[i].name in names
    {
      KeepMembers(l, names, kept[i]);
    }
    forall i | 0 <= i < |images|
      ensures images[i].name !in names
    {
      FreshMembers(round, images[i]);
    }
    KeepConcat(kept, images, names);
    KeepAll(kept, names);
    KeepNone(images, names);
  }

  lemma {:induction false} FreshFull<T>(round: Round<T>)
    requires FullyResolved(round)
    ensures |Fresh(round)| == |round|
    ensures forall i :: 0 <= i < |round| ==> Fresh(round)[i] == Entry(round[i].name, round[i].image.value)
  {
    if round != [] {
      FreshFull(round[..|round| - 1]);
    }
  }

  /** A fully resolved round leaves exactly the source list, in its order, whatever was there. */
  lemma RoundFull<T>(l: seq<Entry<T>>, round: Round<T>)
    requires FullyResolved(round)
    ensures |MergeRound(l, round)| == |round|
    ensures forall i :: 0 <= i < |round| ==>
              MergeRound(l, round)[i] == Entry(round[i].name, round[i].image.value)
  {
    FreshFull(round);
    KeepNone(l, Unhandled(round));
  }

  /** No entry of a source name is ever lost, resolved or not. */
  lemma RoundCovers<T>(l: seq<Entry<T>>, round: Round<T>)
    requires Covers(l, round)
    ensures Covers(MergeRound(l, round), round)
  {
    var m := MergeRound(l, round);
    forall i | 0 <= i < |round|
      ensures Named(m, round[i].name)
    {
      var n := round[i].name;
      match round[i].image
      case Some(v) =>
        assert round[i] == Item(n, Some(v));
        RoundMembers(l, round, Entry(n, v));
      case None =>
        assert round[i] == Item(n, None);
        var j :| 0 <= j < |l| && l[j].name == n;
        RoundMembers(l, round, l[j]);
        assert l[j] in m;
    }
  }

  // ---------- Runs of rounds ----------

  lemma LatestImageOneMore<T>(init: seq<Round<T>>, last: Round<T>, n: string, v: T)
    ensures (exists j: nat :: LatestImage(init + [last], j, n, v)) <==>
            Item(n, Some(v)) in last || ((exists j: nat :: LatestImage(init, j, n, v)) && Item(n, None) in last)
  {
    var rounds := init + [last];
    if Item(n, Some(v)) in last {
      assert LatestImage(rounds, |init|, n, v);
    }
    if Item(n, None) in last {
      forall j: nat | LatestImage(init, j, n, v)
        ensures LatestImage(rounds, j, n, v)
      {
      }
    }
    if j: nat :| LatestImage(rounds, j, n, v) {
      if j < |init| {
        assert rounds[|init|] == last;
        assert forall i :: 0 <= i < |init| ==> rounds[i] == init[i];
        assert LatestImage(init, j, n, v);
      }
    }
  }

  lemma UnresolvedOneMore<T>(init: seq<Round<T>>, last: Round<T>, n: string)
    ensures UnresolvedSince(init + [last], 0, n) <==> UnresolvedSince(init, 0, n) && Item(n, None) in last
  {
    assert (init + [last])[|init|] == last;
    assert forall i :: 0 <= i < |init| ==> (init + [last])[i] == init[i];
  }

  /**
    After any sequence of rounds, with arbitrary resolvability in each, the list holds exactly
    the images from the latest round in which their name resolved, and those initial entries
    whose name the source always listed and never resolved.
   */
  lemma {:induction false} RunMembers<T>(l: seq<Entry<T>>, rounds: seq<Round<T>>, n: string, v: T)
    ensures Entry(n, v) in MergeRounds(l, rounds) <==>
            (exists j: nat :: LatestImage(rounds, j, n, v)) ||
            (Entry(n, v) in l && UnresolvedSince(rounds, 0, n))
  {
    if rounds != [] {
      hide LatestImage, UnresolvedSince, MergeRound;
      var init, last := rounds[..|rounds| - 1], rounds[|rounds| - 1];
      RunMembers(l, init, n, v);
      RoundMembers(MergeRounds(l, init), last, Entry(n, v));
      LatestImageOneMore(init, last, n, v);
      UnresolvedOneMore(init, last, n);
      assert rounds == init + [last];
    }
  }

  /** Names stay unique, and within the source names from the first round on. */
  lemma {:induction false} RunUnique<T>(l: seq<Entry<T>>, rounds: seq<Round<T>>)
    requires UniqueEntries(l) && forall i :: 0 <= i < |rounds| ==> UniqueRound(rounds[i])
    ensures UniqueEntries(MergeRounds(l, rounds))
    ensures rounds != [] ==>
              forall n :: Named(MergeRounds(l, rounds), n) ==> RoundNames(rounds[|rounds| - 1], n)
  {
    if rounds != [] {
      var k := |rounds| - 1;
      RunUnique(l, rounds[..k]);
      RoundNamesUnique(MergeRounds(l, rounds[..k]), rounds[k]);
    }
  }
}
