/**
  A network interface whose status is filled in only after it has been created.  No loss holds of it
  from its creation on, and it does come to have a target: the status is no part of what must stay.
 */
module LateStatus {
  import opened Wrappers
  import opened Objects
  import opened Sync
  import opened Usage
  import opened Protocol
  import opened ProtocolInvariant
  import opened ProtocolTheorems
  import opened Passes
  import opened Frozen
  import opened Convergence
  import opened Sweeps
  import opened NoLoss
  import opened Counterexamples

  const NETWORK := ObjKey(Network, "a", "net")
  const MACHINE := ObjKey(Machine, "a", "m")
  const NIC := ObjKey(NetworkInterface, "a", "n")

  function MachineOf(pool: string): Spec {
    MachineObjSpec(MachineSpec(Some(pool), None, None, [], [Entry("eth", NicRef("n"))], [], [Entry("eth", true)], 0))
  }

  /** With an address for its one family, or without. */
  function NicWith(ips: seq<IP>): Spec {
    NetworkInterfaceSpec(NicSpec("net", Some(UidRef("m", 2)), None, [IPv4], ips))
  }

  const READY := NicWith([IP(IPv4, 7)])
  const NOT_READY := NicWith([])

  function Sources(pool: string): Store {
    map[NsKey("a") := Record(0, NamespaceSpec), NETWORK := Record(1, NetworkSpec),
        MACHINE := Record(2, MachineOf(pool)), NIC := Record(3, READY)]
  }

  lemma NicAvailable(w: World)
    requires w.g == Sources(w.cfg.pool)
    ensures Needed(w, NIC) && Available(w, {}, NIC)
  {
    var m := w.g[MACHINE].spec.machine;
    assert EntryNicName("m", m.nics[0]) == Some("n");
    assert MachineHasNic("m", m, "n");
    assert Stores(w.g, Machine, "a", MACHINE) && InPool(m, w.cfg.pool);
    assert NicUsed(w.g, w.cfg.pool, "a", "n", w.g[NIC].spec.nic);
    assert Stores(w.g, NetworkInterface, "a", NIC);
    assert NetworkUsedLive(w.g, w.cfg.pool, "a", "net");
    assert Needed(w, NETWORK);
    assert BlockingPeers(NETWORK, w.g[NETWORK].spec) == {};
    assert Available(w, {}, NETWORK);
    assert BlockingPeers(NIC, READY) == {NETWORK};
  }

  function Views(pool: string): map<Key, View> {
    map k | k in Sources(pool) :: [Some(SourceObject(Sources(pool)[k].uid, false, false, Sources(pool)[k].spec))]
  }

  function Born(): map<Uid, Key> {
    map[0 := NsKey("a"), 1 := NETWORK, 2 := MACHINE, 3 := NIC]
  }

  lemma NothingReached(cfg: Config)
    ensures Reaches(cfg, INIT)
  {
    assert BrokerOnly([]) && Run(cfg, INIT, []) == INIT;
  }

  function BeforeNic(pool: string): State {
    With(With(With(INIT, NsKey("a"), 0, NamespaceSpec), NETWORK, 1, NetworkSpec), MACHINE, 2, MachineOf(pool))
  }

  /** Everything but the network interface has been created. */
  lemma BeforeNicReached(cfg: Config)
    ensures Reaches(cfg, BeforeNic(cfg.pool))
    ensures ViewOf(BeforeNic(cfg.pool), NIC) == [None] && 3 !in BeforeNic(cfg.pool).born
  {
    hide Reaches;
    NothingReached(cfg);
    Created(cfg, INIT, NsKey("a"), 0, NamespaceSpec);
    var s1 := With(INIT, NsKey("a"), 0, NamespaceSpec);
    Created(cfg, s1, NETWORK, 1, NetworkSpec);
    Created(cfg, With(s1, NETWORK, 1, NetworkSpec), MACHINE, 2, MachineOf(cfg.pool));
  }

  lemma AllCreated(pool: string)
    ensures With(BeforeNic(pool), NIC, 3, READY) == State(Views(pool), map[], map[], map[], Born(), map[], map[])
  {
  }

  /** Its status is filled in, and the cache hears of it. */
  function FilledIn(): seq<Action> {
    [Deliver(NIC), Edit(NIC, READY)] + [Deliver(NIC)]
  }

  lemma DeliverTwo(cfg: Config, s: State, k: Key, a: Option<SourceObject>, b: Option<SourceObject>)
    requires k in s.views && s.views[k] == [a, b]
    ensures Step(cfg, s, Deliver(k)) == s.(views := s.views[k := [b]])
  {
    assert [a, b][1..] == [b];
  }

  lemma EditOne(cfg: Config, s: State, k: Key, o: SourceObject, spec: Spec)
    requires k in s.views && s.views[k] == [Some(o)] && Typed(k, spec)
    ensures Step(cfg, s, Edit(k, spec)) == s.(views := s.views[k := [Some(o), Some(o.(spec := spec))]])
  {
    assert [Some(o)] + [Some(o.(spec := spec))] == [Some(o), Some(o.(spec := spec))];
  }

  lemma CreateOne(cfg: Config, s: State, k: Key, uid: Uid, spec: Spec)
    requires ViewOf(s, k) == [None] && uid !in s.born && Typed(k, spec)
    ensures Step(cfg, s, Create(k, uid, spec))
            == s.(views := s.views[k := [None, Some(SourceObject(uid, false, false, spec))]], born := s.born[uid := k])
  {
    assert [None] + [Some(SourceObject(uid, false, false, spec))] == [None, Some(SourceObject(uid, false, false, spec))];
  }

  lemma OneMore(cfg: Config, s: State, actions: seq<Action>, a: Action)
    ensures Run(cfg, s, actions + [a]) == Step(cfg, Run(cfg, s, actions), a)
  {
    hide Step;
    assert (actions + [a])[..|actions + [a]| - 1] == actions;
  }

  lemma NicFilledIn(cfg: Config, s: State)
    requires ViewOf(s, NIC) == [None] && 3 !in s.born
    ensures Run(cfg, Step(cfg, s, Create(NIC, 3, NOT_READY)), FilledIn())
            == With(s, NIC, 3, READY)
  {
    hide Run, Step;
    var o := SourceObject(3, false, false, NOT_READY);
    var s1 := Step(cfg, s, Create(NIC, 3, NOT_READY));
    CreateOne(cfg, s, NIC, 3, NOT_READY);
    var s2 := s1.(views := s1.views[NIC := [Some(o)]]);
    DeliverTwo(cfg, s1, NIC, None, Some(o));
    EditOne(cfg, s2, NIC, o, READY);
    var s3 := s2.(views := s2.views[NIC := [Some(o), Some(o.(spec := READY))]]);
    DeliverTwo(cfg, s3, NIC, Some(o), Some(o.(spec := READY)));
    TwoActions(cfg, s1, Deliver(NIC), Edit(NIC, READY));
    OneMore(cfg, s1, [Deliver(NIC), Edit(NIC, READY)], Deliver(NIC));
  }

  lemma NicUid(w: World, s: State)
    requires w.g == Sources(w.cfg.pool) && Graph(s) == w.g
    ensures Cached(s, NIC).Some? && Cached(s, NIC).value.uid == 3
  {
    assert NIC in Graph(s) && Graph(s)[NIC].uid == 3;
  }

  lemma ConvergedHasTarget(w: World, start: set<Key>, s: State) returns (tk: TargetKey)
    requires w.g == Sources(w.cfg.pool) && Settled(w, s) && Converged(w, start, s) && start == {}
    ensures tk in s.targets && s.targets[tk].owner == Some(3)
  {
    hide Inv, Closed, PcSettled, RestingTarget, Sources, Needed, Available, UpToDate, PcSince, LetGoFor;
    NicAvailable(w);
    assert ConvergedAt(w, start, s, NIC);
    var t :| IsNamespaceFor(s, "a", t) && TargetKeyOf(NIC, t) in s.targets;
    tk := TargetKeyOf(NIC, t);
    TargetOwned(w, s, NIC, t);
    NicUid(w, s);
  }

  lemma SourcesClosed(pool: string)
    ensures Closed(Sources(pool))
  {
  }

  lemma HonestLeaves(w: World, s: State, actions: seq<Action>, b: Subject)
    requires HonestRun(w, s, actions) && Fixed(b)
    ensures forall i :: 0 <= i < |actions| ==> Leaves(actions[i], b)
  {
    hide Wanted, Run;
    forall i | 0 <= i < |actions|
      ensures Leaves(actions[i], b)
    {
      assert HonestAt(w, s, actions, i);
    }
  }

  const SUBJECT := Subject(NIC, 3, NOT_READY)

  lemma FilledInLeaves()
    ensures Fixed(SUBJECT) && !StatusReady(NIC, NOT_READY)
    ensures forall i :: 0 <= i < |FilledIn()| ==> Leaves(FilledIn()[i], SUBJECT)
  {
  }

  lemma FilledInCreated(cfg: Config, s: State)
    requires s == State(Views(cfg.pool), map[], map[], map[], Born(), map[], map[])
    ensures JustCreated(Sources(cfg.pool), s)
  {
  }

  /**
    All that `NoLossInRuns` asks for is met, although the network interface is not ready when it is
    created, and a target of it is there at the end.
   */
  lemma LateStatusHasTarget(cfg: Config) returns (s: State, actions: seq<Action>, tk: TargetKey)
    ensures Reachable(cfg, s) && Fixed(SUBJECT) && Live(s, SUBJECT.k).None? && SUBJECT.uid !in s.born
    ensures !StatusReady(SUBJECT.k, SUBJECT.spec) && forall i :: 0 <= i < |actions| ==> Leaves(actions[i], SUBJECT)
    ensures var s' := Run(cfg, Step(cfg, s, Create(SUBJECT.k, SUBJECT.uid, SUBJECT.spec)), actions);
            tk in s'.targets && s'.targets[tk].owner == Some(SUBJECT.uid)
  {
    hide Run, Step, Converged, Settled, HonestRun, Closed, Leaves, Inv, Sources, BeforeNic, With;
    s := BeforeNic(cfg.pool);
    BeforeNicReached(cfg);
    AllCreated(cfg.pool);
    ReachesReachable(cfg, s);
    NicFilledIn(cfg, s);
    FilledInLeaves();
    var w := World(cfg, Sources(cfg.pool), {});
    var s1 := Step(cfg, s, Create(NIC, 3, NOT_READY));
    var s2 := Run(cfg, s1, FilledIn());
    SourcesClosed(cfg.pool);
    FilledInCreated(cfg, s2);
    JustCreatedSettled(w, s2);
    ConvergesByARun(w, s2);
    var syncing :| HonestRun(w, s2, syncing) && Settled(w, Run(cfg, s2, syncing)) &&
      Converged(w, Targeted(s2), Run(cfg, s2, syncing));
    tk := ConvergedHasTarget(w, {}, Run(cfg, s2, syncing));
    actions := FilledIn() + syncing;
    RunConcat(cfg, s1, FilledIn(), syncing);
    HonestLeaves(w, s2, syncing, SUBJECT);
  }
}
