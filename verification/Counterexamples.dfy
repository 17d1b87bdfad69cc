/**
  Where the broker does not do what one might expect of it: for each such property a run of the
  protocol, step by step from the empty clusters, at whose end it fails.
 */
module Counterexamples {
  import opened Wrappers
  import opened Objects
  import opened Sync
  import opened Protocol
  import opened ProtocolInvariant
  import opened ProtocolTheorems
  import opened Passes
  import opened Drain

  const NS := NsKey("a")
  const SECRET := ObjKey(Secret, "a", "x")
  const TARGET := TargetKey(0, Secret, "x")

  /** Nobody but the broker creates objects in the target namespaces. */
  ghost predicate Reaches(cfg: Config, s: State) {
    exists actions :: BrokerOnly(actions) && Run(cfg, INIT, actions) == s
  }

  lemma ReachesReachable(cfg: Config, s: State)
    requires Reaches(cfg, s)
    ensures Reachable(cfg, s) && Inv(s)
  {
    ReachableInv(cfg, s);
  }

  lemma ReachesOn(cfg: Config, s: State, actions: seq<Action>)
    requires Reaches(cfg, s) && BrokerOnly(actions)
    ensures Reaches(cfg, Run(cfg, s, actions))
  {
    hide Run;
    var first :| BrokerOnly(first) && Run(cfg, INIT, first) == s;
    RunConcat(cfg, INIT, first, actions);
    assert BrokerOnly(first + actions);
  }

  lemma PassReaches(cfg: Config, s: State, k: Key, c: Choice)
    requires Reaches(cfg, s) && k !in s.pcs
    ensures Reaches(cfg, FullPass(cfg, s, k, c))
  {
    hide Run, FullPass, Inv;
    ReachesReachable(cfg, s);
    FullPassIsRun(cfg, s, k, c);
    var n :| Run(cfg, s, Repeat(Pass(k, c), n)) == FullPass(cfg, s, k, c);
    ReachesOn(cfg, s, Repeat(Pass(k, c), n));
  }

  // ---------- Events, delivered at once ----------

  lemma TwoActions(cfg: Config, s: State, a: Action, b: Action)
    ensures Run(cfg, s, [a, b]) == Step(cfg, Step(cfg, s, a), b)
  {
    hide Step;
    assert [a, b][..1] == [a] && [a][..0] == [];
    assert Run(cfg, s, [a]) == Step(cfg, Run(cfg, s, [a][..0]), a);
  }

  lemma Delivered(cfg: Config, s: State, a: Action, k: Key, o: Option<SourceObject>, born': map<Uid, Key>)
    requires Reaches(cfg, s) && SourceSide(a) && |ViewOf(s, k)| == 1
    requires SourceStep(s, a) == Append(s.(born := born'), k, o)
    ensures Reaches(cfg, s.(views := s.views[k := [o]], born := born'))
  {
    hide PassStep, TargetStep, Reaches, Run;
    var s1 := Append(s.(born := born'), k, o);
    assert ViewOf(s1, k)[1..] == [o];
    assert SourceStep(s1, Deliver(k)) == s.(views := s.views[k := [o]], born := born');
    TwoActions(cfg, s, a, Deliver(k));
    ReachesOn(cfg, s, [a, Deliver(k)]);
  }

  /** The state with one more source object. */
  function With(s: State, k: Key, uid: Uid, spec: Spec): State {
    s.(views := s.views[k := [Some(SourceObject(uid, false, false, spec))]], born := s.born[uid := k])
  }

  lemma Created(cfg: Config, s: State, k: Key, uid: Uid, spec: Spec)
    requires Reaches(cfg, s) && ViewOf(s, k) == [None] && uid !in s.born && Typed(k, spec)
    ensures Reaches(cfg, With(s, k, uid, spec))
  {
    hide Reaches;
    Delivered(cfg, s, Create(k, uid, spec), k, Some(SourceObject(uid, false, false, spec)), s.born[uid := k]);
  }

  lemma Marked(cfg: Config, s: State, k: Key, o: SourceObject)
    requires Reaches(cfg, s) && ViewOf(s, k) == [Some(o)]
    ensures Reaches(cfg, s.(views := s.views[k := [Some(o.(deleting := true))]]))
  {
    hide Reaches;
    Delivered(cfg, s, Mark(k), k, Some(o.(deleting := true)), s.born);
  }

  lemma Vanished(cfg: Config, s: State, k: Key, o: SourceObject)
    requires Reaches(cfg, s) && ViewOf(s, k) == [Some(o)] && !o.fin
    ensures Reaches(cfg, s.(views := s.views[k := [None]]))
  {
    hide Reaches;
    Delivered(cfg, s, Vanish(k), k, None, s.born);
  }

  // ---------- A namespace with a secret in it ----------

  const NS_OBJECT := SourceObject(0, true, false, NamespaceSpec)

  function SecretObject(uid: Uid, fin: bool): SourceObject {
    SourceObject(uid, fin, false, SecretSpec(7))
  }

  /** The source namespace is held, and its target namespace is there. */
  ghost predicate Prepared(s: State) {
    && s.pcs == map[] && ViewOf(s, NS) == [Some(NS_OBJECT)]
    && s.namespaces == map[0 := TargetNamespace(0, 0, "a", false)]
  }

  lemma SingleIs(s: State, uid: Uid, t: TargetNs)
    requires Labelled(s, uid) == {t} && s.namespaces[t].owner == uid
    ensures ListSingle(s, uid) == One(t)
  {
  }

  lemma PreparedNamespace(s: State)
    requires Prepared(s)
    ensures ListSingle(s, 0) == One(0) && TargetNamespaceFor(s, SECRET) == One(0)
  {
    assert Labelled(s, 0) == {0};
    SingleIs(s, 0, 0);
  }

  const WANTED := Choice(true, true, map[], 10, 0)

  lemma NamespacePrepared(cfg: Config) returns (s: State)
    ensures Reaches(cfg, s) && Prepared(s) && s.targets == map[] && s.past == map[] && s.born == map[0 := NS]
    ensures ViewOf(s, SECRET) == [None]
  {
    assert BrokerOnly([]) && Run(cfg, INIT, []) == INIT;
    Created(cfg, INIT, NS, 0, NamespaceSpec);
    var o := SourceObject(0, false, false, NamespaceSpec);
    var s1 := INIT.(views := map[NS := [Some(o)]], born := map[0 := NS]);
    var s2 := s1.(views := map[NS := [Some(NS_OBJECT)]]);
    assert FullPass(cfg, s1, NS, WANTED) == s2 by {
      assert Labelled(s1, 0) == {};
      assert FullPass(cfg, s1, NS, WANTED) == ReconcileNamespace(s1, NS, o, WANTED) == AddFinalizer(s1, NS);
    }
    PassReaches(cfg, s1, NS, WANTED);
    assert FullPass(cfg, s2, NS, WANTED) == CreateNamespace(s2, NS, NS_OBJECT, 0) by {
      assert Labelled(s2, 0) == {};
    }
    PassReaches(cfg, s2, NS, WANTED);
    s := CreateNamespace(s2, NS, NS_OBJECT, 0);
  }

  /**
    A target namespace that somebody else marks and that is finished ends the assignment of a source
    namespace that nobody deletes.
   */
  lemma AssignmentEndedByOthers(cfg: Config) returns (s: State, t: TargetNs)
    ensures Reachable(cfg, s) && t in s.namespaces && MarkedWithSource(s, t)
    ensures var s' := Run(cfg, s, [NamespaceMark(t), NamespaceFinish(t)]);
            !SameAssignment(s, s', t) && !Ended(s', NsKey(s.namespaces[t].ownerName), s.namespaces[t].sourceUid)
  {
    hide PassStep, SourceStep, Run;
    s := NamespacePrepared(cfg);
    t := 0;
    ReachesReachable(cfg, s);
    TwoActions(cfg, s, NamespaceMark(t), NamespaceFinish(t));
  }

  lemma SecretHeld(cfg: Config, s: State, uid: Uid)
    requires Reaches(cfg, s) && Prepared(s) && ViewOf(s, SECRET) == [None] && uid !in s.born
    ensures var s' := s.(views := s.views[SECRET := [Some(SecretObject(uid, true))]], born := s.born[uid := SECRET]);
            Reaches(cfg, s') && Prepared(s')
  {
    hide Reaches, Run, TargetNamespaceFor;
    Created(cfg, s, SECRET, uid, SecretSpec(7));
    var o := SecretObject(uid, false);
    var s1 := s.(views := s.views[SECRET := [Some(o)]], born := s.born[uid := SECRET]);
    var s2 := s1.(views := s1.views[SECRET := [Some(SecretObject(uid, true))]]);
    assert Prepared(s1) && Prepared(s2);
    PreparedNamespace(s1);
    assert FullPass(cfg, s1, SECRET, WANTED) == ReconcileObject(cfg, s1, SECRET, o, WANTED) == AddFinalizer(s1, SECRET);
    assert AddFinalizer(s1, SECRET) == s2;
    PassReaches(cfg, s1, SECRET, WANTED);
    assert s2 == s.(views := s.views[SECRET := [Some(SecretObject(uid, true))]], born := s.born[uid := SECRET]);
  }

  /** The secret and its namespace are marked for deletion; the target namespace is there. */
  ghost predicate BothMarked(s: State) {
    && s.pcs == map[] && s.targets == map[]
    && ViewOf(s, NS) == [Some(NS_OBJECT.(deleting := true))]
    && ViewOf(s, SECRET) == [Some(SecretObject(1, true).(deleting := true))]
  }

  lemma DeletedTogether(cfg: Config) returns (s: State)
    ensures Reaches(cfg, s) && BothMarked(s) && s.namespaces == map[0 := TargetNamespace(0, 0, "a", false)]
  {
    hide Reaches;
    var s0 := NamespacePrepared(cfg);
    SecretHeld(cfg, s0, 1);
    var s1 := s0.(views := s0.views[SECRET := [Some(SecretObject(1, true))]], born := s0.born[1 := SECRET]);
    Marked(cfg, s1, SECRET, SecretObject(1, true));
    var s2 := s1.(views := s1.views[SECRET := [Some(SecretObject(1, true).(deleting := true))]]);
    Marked(cfg, s2, NS, NS_OBJECT);
    s := s2.(views := s2.views[NS := [Some(NS_OBJECT.(deleting := true))]]);
  }

  /** The pass on the namespace marks the target namespace, which is empty and goes away. */
  lemma NamespaceDrained(cfg: Config) returns (s: State)
    ensures Reaches(cfg, s) && BothMarked(s) && s.namespaces == map[]
  {
    hide Reaches, PassStep;
    var s3 := DeletedTogether(cfg);
    assert Labelled(s3, 0) == {0};
    SingleIs(s3, 0, 0);
    assert FullPass(cfg, s3, NS, WANTED) == MarkNamespace(s3, 0);
    PassReaches(cfg, s3, NS, WANTED);
    var s4 := MarkNamespace(s3, 0);
    s := TargetStep(s4, NamespaceFinish(0));
    var last := [NamespaceFinish(0)];
    assert last[..0] == [] && Run(cfg, s4, last[..0]) == s4;
    assert Run(cfg, s4, last) == s;
    ReachesOn(cfg, s4, last);
  }

  /**
    A secret is deleted together with its namespace, and the target namespace has gone before a pass on
    the secret gets to it: the secret keeps its finalizer, in that pass and in every further one.
   */
  lemma HeldWithoutNamespace(cfg: Config) returns (s: State)
    ensures Reachable(cfg, s) && Drain.Marked(cfg, s, SECRET) && TargetNamespaceFor(s, SECRET) == NotFound
    ensures forall c :: FullPass(cfg, s, SECRET, c) == s
  {
    hide FullPass, Run;
    s := NamespaceDrained(cfg);
    ReachesReachable(cfg, s);
    assert Labelled(s, 0) == {};
    forall c
      ensures FullPass(cfg, s, SECRET, c) == s
    {
      MarkedPass(cfg, s, SECRET, c);
    }
  }

  // ---------- A secret deleted and created again ----------

  const OLD_TARGET := TargetObject(Some(1), 10, false, SecretTarget(7))

  /** The first secret has its target. */
  ghost predicate FirstSynced(s: State) {
    && Prepared(s) && s.targets == map[TARGET := OLD_TARGET] && s.past == map[TARGET := {OLD_TARGET}]
    && s.born == map[0 := NS, 1 := SECRET]
  }

  lemma SyncPass(cfg: Config, s: State, o: SourceObject)
    requires TargetNamespaceFor(s, SECRET) == One(0) && ViewOf(s, SECRET) == [Some(o)] && o.fin && !o.deleting
    requires o.spec.SecretSpec?
    ensures FullPass(cfg, s, SECRET, WANTED)
            == WriteTarget(cfg, s, SECRET, o, 0, map[], ReadTarget(s, WANTED, TARGET), 10)
  {
    hide TargetNamespaceFor, WriteTarget, ReadTarget, NamespacePass, DeleteObject;
    assert LookupOrder(cfg, SECRET, o.spec) == [];
  }

  lemma FirstTarget(cfg: Config) returns (s: State)
    ensures Reaches(cfg, s) && FirstSynced(s) && ViewOf(s, SECRET) == [Some(SecretObject(1, true))]
  {
    hide Reaches, Run, TargetNamespaceFor;
    var s0 := NamespacePrepared(cfg);
    SecretHeld(cfg, s0, 1);
    var o := SecretObject(1, true);
    var s1 := s0.(views := s0.views[SECRET := [Some(o)]], born := s0.born[1 := SECRET]);
    PreparedNamespace(s1);
    s := PutTarget(s1, TARGET, OLD_TARGET);
    assert WriteTarget(cfg, s1, SECRET, o, 0, map[], None, 10) == s;
    assert ReadTarget(s1, WANTED, TARGET) == None;
    SyncPass(cfg, s1, o);
    PassReaches(cfg, s1, SECRET, WANTED);
    assert PastOf(s1, TARGET) + {OLD_TARGET} == {OLD_TARGET};
  }

  lemma DeletionPass(cfg: Config, s: State, o: SourceObject)
    requires Prepared(s) && ViewOf(s, SECRET) == [Some(o)] && o.fin && o.deleting && TARGET in s.targets
    ensures FullPass(cfg, s, SECRET, WANTED) == DropTarget(s, TARGET)
  {
    hide TargetNamespaceFor, DropTarget, FullPass;
    PreparedNamespace(s);
    MarkedPass(cfg, s, SECRET, WANTED);
  }

  lemma ReleasePass(cfg: Config, s: State, o: SourceObject)
    requires Prepared(s) && ViewOf(s, SECRET) == [Some(o)] && o.fin && o.deleting && TARGET !in s.targets
    ensures FullPass(cfg, s, SECRET, WANTED) == RemoveFinalizer(s, SECRET)
  {
    hide TargetNamespaceFor, RemoveFinalizer, FullPass;
    PreparedNamespace(s);
    MarkedPass(cfg, s, SECRET, WANTED);
  }

  lemma StillPrepared(s: State, s': State)
    requires Prepared(s) && s'.pcs == s.pcs && s'.namespaces == s.namespaces && ViewOf(s', NS) == ViewOf(s, NS)
    ensures Prepared(s')
  {
  }

  /** The pass on the marked secret deletes the target, the next one lets go, and the secret is gone. */
  lemma FirstGone(cfg: Config) returns (s: State)
    ensures Reaches(cfg, s) && Prepared(s) && s.targets == map[] && s.past == map[TARGET := {OLD_TARGET}]
    ensures s.born == map[0 := NS, 1 := SECRET] && ViewOf(s, SECRET) == [None]
  {
    hide Reaches, Run, TargetNamespaceFor, FullPass;
    var s1 := FirstTarget(cfg);
    var o := SecretObject(1, true).(deleting := true);
    Marked(cfg, s1, SECRET, SecretObject(1, true));
    var s2 := s1.(views := s1.views[SECRET := [Some(o)]]);
    var s3 := DropTarget(s2, TARGET);
    DeletionPass(cfg, s2, o);
    PassReaches(cfg, s2, SECRET, WANTED);
    ReleasePass(cfg, s3, o);
    PassReaches(cfg, s3, SECRET, WANTED);
    var s4 := RemoveFinalizer(s3, SECRET);
    Vanished(cfg, s4, SECRET, o.(fin := false));
    s := s4.(views := s4.views[SECRET := [None]]);
    StillPrepared(s2, s);
  }

  /** The choice of a pass whose target cache still holds the target of the first secret. */
  const LAGGING := Choice(true, true, map[TARGET := Some(OLD_TARGET)], 11, 1)

  /** The pass goes on to the write with what the target cache returned. */
  lemma LaggingPass(cfg: Config, s: State, o: SourceObject)
    requires Prepared(s) && ViewOf(s, SECRET) == [Some(o)] && o.fin && !o.deleting && o.spec.SecretSpec?
    requires s.past == map[TARGET := {OLD_TARGET}]
    ensures Drives(cfg, s, SECRET, LAGGING, Goto(s, SECRET, Write(o, 0, map[], Some(OLD_TARGET))))
  {
    hide Drives, Goto, TargetLookup, ListSingle;
    PreparedNamespace(s);
    StartOn(cfg, s, SECRET, LAGGING, o);
    RecNsRuns(cfg, s, SECRET, LAGGING, o);
    RecListRuns(cfg, s, SECRET, LAGGING, o, 0);
    ReadOn(cfg, s, SECRET, LAGGING, RecFin(o, 0), FirstLookup(cfg, SECRET, o, 0));
    assert LookupOrder(cfg, SECRET, o.spec) == [];
    ReadOn(cfg, s, SECRET, LAGGING, Lookup(o, 0, [], map[]), Fetch(o, 0, map[]));
    ReadOn(cfg, s, SECRET, LAGGING, Fetch(o, 0, map[]), Write(o, 0, map[], Some(OLD_TARGET)));
  }

  lemma DrivesReaches(cfg: Config, s: State, k: Key, c: Choice, s': State)
    requires Reaches(cfg, s) && Drives(cfg, s, k, c, s')
    ensures Reaches(cfg, s')
  {
    hide Run, Reaches;
    var n: nat :| Drive(cfg, s, k, c, n) == s';
    DriveIsRun(cfg, s, k, c, n);
    ReachesOn(cfg, s, Repeat(Pass(k, c), n));
  }

  /**
    The secret has been deleted and created again, and its first target has gone; a pass whose target cache
    lags behind reads that target and refuses to go on, although nobody but the broker has written.
   */
  lemma StaleReadRefused(cfg: Config) returns (s: State)
    ensures Reaches(cfg, s) && PcOf(s, SECRET) == Write(SecretObject(2, true), 0, map[], Some(OLD_TARGET))
    ensures Refused(SecretObject(2, true), Some(OLD_TARGET)) && TARGET !in s.targets
  {
    hide Reaches, Run, Drives, Prepared;
    var s0 := FirstGone(cfg);
    SecretHeld(cfg, s0, 2);
    var o := SecretObject(2, true);
    var s1 := s0.(views := s0.views[SECRET := [Some(o)]], born := s0.born[2 := SECRET]);
    LaggingPass(cfg, s1, o);
    s := Goto(s1, SECRET, Write(o, 0, map[], Some(OLD_TARGET)));
    DrivesReaches(cfg, s1, SECRET, LAGGING, s);
  }
}
