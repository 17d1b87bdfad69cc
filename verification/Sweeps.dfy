/**
  The convergence theorem: stages, sweeps of interleaved passes that complete them one by one, the
  measure that every sweep shrinks, and the fixpoint that is reached.
 */
module Sweeps {
  import opened Wrappers
  import opened Objects
  import opened Sync
  import opened Usage
  import opened Protocol
  import opened ProtocolInvariant
  import opened ProtocolTheorems
  import opened Passes
  import opened Frozen
  import opened Convergence

  // ---------- Stages ----------

  const STAGES := 7

  /** Every target that can come about has come about. */
  ghost predicate AllThere(w: World, start: set<Key>, s: State) {
    forall k: Key :: k.ObjKey? && Available(w, start, k) ==> HasTarget(s, k)
  }

  /** The keys that the sweeps bring anywhere: to be synced, or to be let go of. */
  ghost predicate Tracked(w: World, k: Key) {
    Needed(w, k) || IsUnwanted(w, k)
  }

  /** An unwanted object is held only if its namespace has no target namespace and never will; volumes never are. */
  ghost predicate LetGoFor(w: World, s: State, k: Key)
    requires k.ObjKey?
  {
    HasFin(s, k) ==> !Mapped(w, k.ns) && k.kind != Volume
  }

  /** What sweep `i` brings about for a key; sweeps 4 to 6 go up the ranks of the kinds. */
  ghost predicate Done(w: World, start: set<Key>, s: State, i: nat, k: Key)
    requires Tracked(w, k)
  {
    if IsUnwanted(w, k) then i == 3 ==> LetGoFor(w, s, k)
    else if i == 1 then k.NsKey? ==> HasFin(s, k)
    else if i == 2 then k.NsKey? ==> HasNamespace(s, k.name)
    else if i == 3 then k.ObjKey? ==> HasFin(s, k)
    else if 4 <= i <= 6 then k.ObjKey? && KindRank(k.kind) <= i - 4 && Available(w, start, k) ==> HasTarget(s, k)
    else if i == 7 then
      k.ObjKey? && Available(w, start, k) ==>
        AllThere(w, start, s) && UpToDate(w, s, k) && PcSince(w, s, s, k)
    else true
  }

  ghost predicate Stage(w: World, start: set<Key>, s: State, i: nat) {
    forall k :: Tracked(w, k) ==> Done(w, start, s, i, k)
  }

  ghost predicate StagesBelow(w: World, start: set<Key>, s: State, i: nat) {
    forall j: nat :: j < i ==> Stage(w, start, s, j)
  }

  /** The states the sweeps move through. */
  ghost predicate OnTheWay(w: World, start: set<Key>, s: State) {
    Settled(w, s) && Between(w, start, s)
  }

  lemma StageAt(w: World, start: set<Key>, s: State, i: nat, j: nat, k: Key)
    requires StagesBelow(w, start, s, i) && j < i && Tracked(w, k)
    ensures Done(w, start, s, j, k)
  {
    hide Done, Tracked;
    assert Stage(w, start, s, j);
  }

  lemma NamespaceNeeded(w: World, k: Key)
    requires k.ObjKey? && Needed(w, k)
    ensures Needed(w, NsKey(k.ns))
  {
  }

  lemma NeededOrUnwanted(w: World, k: Key)
    ensures !(Needed(w, k) && IsUnwanted(w, k))
  {
    hide Wanted, Mapped;
  }

  lemma TrackedIn(w: World, k: Key)
    requires Tracked(w, k)
    ensures k in w.g && Typed(k, w.g[k].spec)
  {
  }

  lemma RankAtMostTwo(kind: Kind)
    ensures KindRank(kind) <= 2
  {
  }

  // ---------- Nothing achieved is lost ----------

  lemma StepOnTheWay(w: World, start: set<Key>, s: State, a: Action)
    requires OnTheWay(w, start, s) && Honest(w, s, a)
    ensures OnTheWay(w, start, Step(w.cfg, s, a))
    ensures Further(s, Step(w.cfg, s, a)) && HoldsRight(w, s, Step(w.cfg, s, a))
  {
    hide Settled, Between, Honest, Step, Further, HoldsRight;
    StepSettled(w, s, a);
    StepBetween(w, start, s, a);
  }

  lemma AllThereKept(w: World, start: set<Key>, s: State, s': State)
    requires Further(s, s') && AllThere(w, start, s)
    ensures AllThere(w, start, s')
  {
    hide Available, HasTarget, Further;
    forall k: Key | k.ObjKey? && Available(w, start, k)
      ensures HasTarget(s', k)
    {
      TargetOfFurther(s, s', k);
    }
  }

  lemma AllThereIsAll(w: World, start: set<Key>, s: State, s': State)
    requires AllThere(w, start, s) && Between(w, start, s')
    ensures NoNewTargets(s, s')
  {
    hide Available, HasTarget;
  }

  /** Where no targets come about any more, a round under way goes on without gaps. */
  lemma SinceKept(w: World, s: State, a: Action, k: Key)
    requires Settled(w, s) && Honest(w, s, a) && NoNewTargets(s, Step(w.cfg, s, a))
    requires Needed(w, k) && k in w.g && PcSince(w, s, s, k)
    ensures PcSince(w, Step(w.cfg, s, a), Step(w.cfg, s, a), k)
  {
    hide Settled, Honest, Step, Further, HasTarget, Needed, Peers;
    SameOnly(w, s, k);
    SinceStep(w, s, s, a, k);
  }

  lemma LastStageKept(w: World, start: set<Key>, s: State, a: Action, k: Key)
    requires OnTheWay(w, start, s) && Honest(w, s, a) && k.ObjKey? && Available(w, start, k)
    requires Needed(w, k) && Done(w, start, s, 7, k)
    ensures Done(w, start, Step(w.cfg, s, a), 7, k)
  {
    hide Settled, Between, Honest, Step, Further, HoldsRight, HasTarget, Needed, IsUnwanted, Available, UpToDate,
      PcSince, NoNewTargets;
    NeededOrUnwanted(w, k);
    StepOnTheWay(w, start, s, a);
    AllThereIsAll(w, start, s, Step(w.cfg, s, a));
    AllThereKept(w, start, s, Step(w.cfg, s, a));
    NeededIn(w, k);
    SinceKept(w, s, a, k);
    UpToDateKept(w, s, a, k);
  }

  /** No call, of a pass on whatever key, undoes a stage. */
  lemma DoneKept(w: World, start: set<Key>, s: State, a: Action, i: nat, j: Key)
    requires OnTheWay(w, start, s) && Honest(w, s, a)
    requires Tracked(w, j) && Done(w, start, s, i, j)
    ensures Done(w, start, Step(w.cfg, s, a), i, j)
  {
    hide Settled, Between, Honest, Step, Needed, IsUnwanted, Mapped, Available, HasTarget, HasFin, HasNamespace,
      UpToDate, AllThere, PcSince, HoldsRight;
    var s' := Step(w.cfg, s, a);
    StepOnTheWay(w, start, s, a);
    NoFinBefore(w, s, s', j);
    if IsUnwanted(w, j) {
    } else if j.NsKey? {
      if HasNamespace(s, j.name) {
        NamespaceOfFurther(s, s', j.name);
      }
    } else {
      if HasTarget(s, j) {
        TargetOfFurther(s, s', j);
      }
      if i == 7 && Available(w, start, j) {
        LastStageKept(w, start, s, a, j);
      }
    }
  }

  // ---------- What a pass on a key achieves ----------

  /** What is available is there once the stages of its rank are complete. */
  lemma AvailableThere(w: World, start: set<Key>, s: State, i: nat, k: Key)
    requires Between(w, start, s) && StagesBelow(w, start, s, i) && 4 < i <= 7
    requires k.ObjKey? && Available(w, start, k) && KindRank(k.kind) <= i - 5
    ensures HasTarget(s, k)
  {
    hide Needed, IsUnwanted, HasTarget, StatusReady, Fails, StagesBelow, BlockingPeers;
    if k !in start {
      NeededOrUnwanted(w, k);
      StageAt(w, start, s, i, i - 1, k);
    }
  }

  lemma AllThereBy(w: World, start: set<Key>, s: State)
    requires Between(w, start, s) && StagesBelow(w, start, s, 7)
    ensures AllThere(w, start, s)
  {
    hide Needed, HasTarget, StagesBelow, Between, Available;
    forall k: Key | k.ObjKey? && Available(w, start, k)
      ensures HasTarget(s, k)
    {
      RankAtMostTwo(k.kind);
      AvailableThere(w, start, s, 7, k);
    }
  }

  lemma AvailableWaits(w: World, start: set<Key>, k: Key, d: Key)
    requires k.ObjKey? && k in w.g && Typed(k, w.g[k].spec) && k !in start && Available(w, start, k)
    requires d in BlockingPeers(k, w.g[k].spec)
    ensures d.ObjKey? && KindRank(d.kind) < KindRank(k.kind) && Available(w, start, d)
    ensures !Fails(w.g[k].spec) && StatusReady(k, w.g[k].spec)
  {
  }

  /** What is available can be created once the lower ranks are complete. */
  lemma AvailableCreatable(w: World, start: set<Key>, b: State, i: nat, k: Key)
    requires OnTheWay(w, start, b) && StagesBelow(w, start, b, i) && 4 <= i <= 6
    requires k.ObjKey? && k in w.g && Typed(k, w.g[k].spec) && Needed(w, k)
    requires KindRank(k.kind) <= i - 4 && Available(w, start, k)
    ensures HasTarget(b, k) || Creatable(w, b, k)
  {
    hide Settled, Needed, HasTarget, StatusReady, Fails, StagesBelow, BlockingPeers;
    if k !in start {
      forall d | d in BlockingPeers(k, w.g[k].spec)
        ensures d.ObjKey? && HasTarget(b, d)
      {
        AvailableWaits(w, start, k, d);
        AvailableThere(w, start, b, i, d);
      }
    }
  }

  lemma IdleSince(w: World, s: State, k: Key)
    requires k in w.g && PcOf(s, k).Idle?
    ensures PcSince(w, s, s, k)
  {
  }

  lemma ThereAt(w: World, start: set<Key>, s: State, k: Key)
    requires AllThere(w, start, s) && k.ObjKey? && Available(w, start, k)
    ensures HasTarget(s, k)
  {
  }

  lemma ObjectProgress(w: World, start: set<Key>, b: State, s: State, i: nat, k: Key)
    requires OnTheWay(w, start, b) && OnTheWay(w, start, s) && Further(b, s)
    requires k.ObjKey? && Needed(w, k) && k in w.g && Typed(k, w.g[k].spec) && StagesBelow(w, start, b, i)
    requires Achieved(w, b, s, k) && PcOf(s, k).Idle? && Available(w, start, k) && 4 <= i
    ensures Done(w, start, s, i, k)
  {
    hide Settled, Between, Needed, IsUnwanted, Available, HasTarget, HasNamespace, UpToDate, HasFin, StagesBelow,
      Further, Creatable, AllThere, PcSince, NoNewTargets;
    NamespaceNeeded(w, k);
    NeededOrUnwanted(w, k);
    NeededOrUnwanted(w, NsKey(k.ns));
    StageAt(w, start, b, i, 2, NsKey(k.ns));
    StageAt(w, start, b, i, 3, k);
    if HasTarget(b, k) {
      TargetOfFurther(b, s, k);
    }
    if i <= 6 && KindRank(k.kind) <= i - 4 {
      AvailableCreatable(w, start, b, i, k);
    } else if i == 7 {
      AllThereBy(w, start, b);
      AllThereKept(w, start, b, s);
      AllThereIsAll(w, start, b, s);
      ThereAt(w, start, b, k);
      IdleSince(w, s, k);
    }
  }

  /** With the earlier stages complete when it began, a pass on a key completes this stage for the key. */
  lemma Progress(w: World, start: set<Key>, b: State, s: State, i: nat, k: Key)
    requires OnTheWay(w, start, b) && OnTheWay(w, start, s) && Further(b, s)
    requires Needed(w, k) && k in w.g && Typed(k, w.g[k].spec) && StagesBelow(w, start, b, i)
    requires Achieved(w, b, s, k) && PcOf(s, k).Idle?
    ensures Done(w, start, s, i, k)
  {
    hide Settled, Between, Needed, IsUnwanted, Available, HasTarget, HasNamespace, UpToDate, AllThere, HasFin,
      StagesBelow, Further, Creatable, PcSince, NoNewTargets;
    NeededOrUnwanted(w, k);
    if k.NsKey? {
      if i == 2 {
        StageAt(w, start, b, i, 1, k);
      }
    } else if i == 3 {
      NamespaceNeeded(w, k);
      NeededOrUnwanted(w, NsKey(k.ns));
      StageAt(w, start, b, i, 2, NsKey(k.ns));
    } else if Available(w, start, k) && 4 <= i {
      ObjectProgress(w, start, b, s, i, k);
    }
  }

  // ---------- Sweeps ----------

  ghost predicate HonestAt(w: World, s: State, actions: seq<Action>, n: nat)
    requires n < |actions|
  {
    Honest(w, StateAt(w.cfg, s, actions, n), actions[n])
  }

  /** Any interleaving of calls of passes on any keys, some of which may fail. */
  ghost predicate HonestRun(w: World, s: State, actions: seq<Action>) {
    forall n :: 0 <= n < |actions| ==> HonestAt(w, s, actions, n)
  }

  /** A sweep: on every key that is needed or unwanted a pass begins and ends, while others are under way. */
  ghost predicate Sweep(w: World, s: State, actions: seq<Action>) {
    HonestRun(w, s, actions) && forall k :: Tracked(w, k) ==> HasPass(w.cfg, s, actions, k)
  }

  lemma {:induction false} RunOnTheWay(w: World, start: set<Key>, s: State, actions: seq<Action>, n: nat)
    requires OnTheWay(w, start, s) && HonestRun(w, s, actions) && n <= |actions|
    ensures OnTheWay(w, start, StateAt(w.cfg, s, actions, n))
  {
    hide OnTheWay, Honest, Step, Run;
    if n == 0 {
      EndStates(w.cfg, s, actions);
    } else {
      RunOnTheWay(w, start, s, actions, n - 1);
      NextState(w.cfg, s, actions, n - 1);
      assert HonestAt(w, s, actions, n - 1);
      StepOnTheWay(w, start, StateAt(w.cfg, s, actions, n - 1), actions[n - 1]);
    }
  }

  /** What is done after `m` actions is done after `n`. */
  lemma {:induction false} RunKeepsDone(w: World, start: set<Key>, s: State, actions: seq<Action>,
                                        m: nat, n: nat, i: nat, j: Key)
    requires OnTheWay(w, start, s) && HonestRun(w, s, actions) && m <= n <= |actions|
    requires Tracked(w, j) && Done(w, start, StateAt(w.cfg, s, actions, m), i, j)
    ensures Done(w, start, StateAt(w.cfg, s, actions, n), i, j)
  {
    hide OnTheWay, Honest, Step, Tracked, Done, StateAt;
    if m < n {
      RunKeepsDone(w, start, s, actions, m, n - 1, i, j);
      RunOnTheWay(w, start, s, actions, n - 1);
      NextState(w.cfg, s, actions, n - 1);
      assert HonestAt(w, s, actions, n - 1);
      DoneKept(w, start, StateAt(w.cfg, s, actions, n - 1), actions[n - 1], i, j);
    }
  }

  lemma StagesKept(w: World, start: set<Key>, s: State, actions: seq<Action>, n: nat, i: nat)
    requires OnTheWay(w, start, s) && HonestRun(w, s, actions) && StagesBelow(w, start, s, i)
    requires n <= |actions|
    ensures StagesBelow(w, start, StateAt(w.cfg, s, actions, n), i)
  {
    hide OnTheWay, HonestRun, Run, Tracked, Done;
    EndStates(w.cfg, s, actions);
    forall j: nat, k | j < i && Tracked(w, k)
      ensures Done(w, start, StateAt(w.cfg, s, actions, n), j, k)
    {
      StageAt(w, start, s, i, j, k);
      RunKeepsDone(w, start, s, actions, 0, n, j, k);
    }
  }

  lemma FurtherTrans(w: World, a: State, b: State, c: State)
    requires Further(a, b) && Further(b, c) && HoldsRight(w, a, b) && HoldsRight(w, b, c)
    ensures Further(a, c) && HoldsRight(w, a, c)
  {
    hide Needed, IsUnwanted, HasFin;
  }

  lemma {:induction false} RunFurther(w: World, start: set<Key>, s: State, actions: seq<Action>, i: nat, m: nat)
    requires OnTheWay(w, start, s) && HonestRun(w, s, actions) && i <= m <= |actions|
    ensures Further(StateAt(w.cfg, s, actions, i), StateAt(w.cfg, s, actions, m))
    ensures HoldsRight(w, StateAt(w.cfg, s, actions, i), StateAt(w.cfg, s, actions, m))
  {
    hide OnTheWay, Honest, Step, StateAt, Further, HoldsRight;
    var b := StateAt(w.cfg, s, actions, i);
    if m == i {
      SameOnly(w, b, NsKey(""));
    } else {
      var before := StateAt(w.cfg, s, actions, m - 1);
      RunFurther(w, start, s, actions, i, m - 1);
      RunOnTheWay(w, start, s, actions, m - 1);
      NextState(w.cfg, s, actions, m - 1);
      assert HonestAt(w, s, actions, m - 1);
      StepOnTheWay(w, start, before, actions[m - 1]);
      FurtherTrans(w, b, before, StateAt(w.cfg, s, actions, m));
    }
  }

  /** From the beginning of a pass on, its round misses nothing that was there then. */
  lemma {:induction false} PassMissesNothing(w: World, start: set<Key>, s: State, actions: seq<Action>,
                                             k: Key, i: nat, m: nat)
    requires OnTheWay(w, start, s) && HonestRun(w, s, actions) && i <= m <= |actions|
    requires Needed(w, k) && k in w.g && PcOf(StateAt(w.cfg, s, actions, i), k).Idle?
    ensures PcSince(w, StateAt(w.cfg, s, actions, i), StateAt(w.cfg, s, actions, m), k)
  {
    hide Between, Honest, Step, Needed, StateAt, Settled, Further, HoldsRight, PcSince;
    var b := StateAt(w.cfg, s, actions, i);
    if m == i {
      IdleSince(w, b, k);
    } else {
      var before := StateAt(w.cfg, s, actions, m - 1);
      PassMissesNothing(w, start, s, actions, k, i, m - 1);
      RunFurther(w, start, s, actions, i, m - 1);
      RunOnTheWay(w, start, s, actions, m - 1);
      NextState(w.cfg, s, actions, m - 1);
      assert HonestAt(w, s, actions, m - 1);
      SinceStep(w, b, before, actions[m - 1], k);
    }
  }

  lemma PassAchieves(w: World, b: State, s: State, k: Key, c: Choice)
    requires Settled(w, s) && Honest(w, s, Pass(k, c)) && Needed(w, k) && Further(b, s) && HoldsRight(w, b, s)
    requires k in w.g && Typed(k, w.g[k].spec) && PcSince(w, b, s, k)
    requires !PcOf(s, k).Idle? && PcOf(PassStep(w.cfg, s, k, c), k).Idle?
    ensures Achieved(w, b, PassStep(w.cfg, s, k, c), k)
  {
    hide Settled, Honest, Needed, Further, HoldsRight, PcSince, Effect, NextPc, Achieved;
    if k.NsKey? {
      NamespacePassAchieves(w, b, s, k, c);
    } else {
      ObjectPassAchieves(w, b, s, k, c);
    }
  }

  lemma SettledClosed(w: World, s: State)
    requires Settled(w, s)
    ensures Closed(w.g)
  {
  }

  /** With the second stage complete when it began, a pass on an unwanted object has let go of it. */
  lemma ReleaseProgress(w: World, start: set<Key>, b: State, s: State, k: Key, c: Choice)
    requires Settled(w, s) && Honest(w, s, Pass(k, c)) && IsUnwanted(w, k) && Further(b, s)
    requires StagesBelow(w, start, b, 3) && Closed(w.g)
    requires !PcOf(s, k).Idle? && PcOf(PassStep(w.cfg, s, k, c), k).Idle?
    ensures LetGoFor(w, PassStep(w.cfg, s, k, c), k)
  {
    hide Calm, PcSettled, Honest, Further, Effect, NextPc, Wanted, HasFin, HasNamespace, StagesBelow, Mapped;
    SettledAt(w, s, k);
    UnwantedPassAchieves(w, b, s, k, c);
    if Mapped(w, k.ns) {
      NeededOrUnwanted(w, NsKey(k.ns));
      StageAt(w, start, b, 3, 2, NsKey(k.ns));
    }
  }

  /** A key on which a pass has begun and ended has completed the stage. */
  lemma PassCompletes(w: World, start: set<Key>, s: State, actions: seq<Action>, i: nat, k: Key,
                      first: nat, end: nat)
    requires OnTheWay(w, start, s) && HonestRun(w, s, actions) && StagesBelow(w, start, s, i)
    requires Tracked(w, k) && CompletePass(w.cfg, s, actions, k, first, end)
    ensures Done(w, start, StateAt(w.cfg, s, actions, end), i, k)
  {
    hide Between, Honest, PassStep, Needed, IsUnwanted, StagesBelow, StateAt, Calm, PcSettled, Further, HoldsRight,
      PcSince, Achieved, LetGoFor, Available, UpToDate, AllThere, HasFin, HasNamespace, HasTarget;
    var b, last := StateAt(w.cfg, s, actions, first), StateAt(w.cfg, s, actions, end - 1);
    RunOnTheWay(w, start, s, actions, first);
    RunOnTheWay(w, start, s, actions, end - 1);
    RunOnTheWay(w, start, s, actions, end);
    StagesKept(w, start, s, actions, first, i);
    RunFurther(w, start, s, actions, first, end - 1);
    RunFurther(w, start, s, actions, first, end);
    NextState(w.cfg, s, actions, end - 1);
    assert HonestAt(w, s, actions, end - 1);
    if IsUnwanted(w, k) {
      if i == 3 {
        SettledClosed(w, s);
        ReleaseProgress(w, start, b, last, k, actions[end - 1].c);
      }
    } else {
      NeededIn(w, k);
      PassMissesNothing(w, start, s, actions, k, first, end - 1);
      PassAchieves(w, b, last, k, actions[end - 1].c);
      Progress(w, start, b, StateAt(w.cfg, s, actions, end), i, k);
    }
  }

  lemma SweepDone(w: World, start: set<Key>, s: State, actions: seq<Action>, i: nat, k: Key)
    requires OnTheWay(w, start, s) && Sweep(w, s, actions) && StagesBelow(w, start, s, i)
    requires Tracked(w, k)
    ensures Done(w, start, Run(w.cfg, s, actions), i, k)
  {
    hide OnTheWay, HonestRun, Run, Tracked, Done, StagesBelow;
    EndStates(w.cfg, s, actions);
    assert HasPass(w.cfg, s, actions, k);
    var first, end :| CompletePass(w.cfg, s, actions, k, first, end);
    PassCompletes(w, start, s, actions, i, k, first, end);
    RunKeepsDone(w, start, s, actions, end, |actions|, i, k);
  }

  /** One sweep, however its passes interleave, completes the next stage. */
  lemma SweepCompletes(w: World, start: set<Key>, s: State, actions: seq<Action>, i: nat)
    requires OnTheWay(w, start, s) && Sweep(w, s, actions) && StagesBelow(w, start, s, i)
    ensures OnTheWay(w, start, Run(w.cfg, s, actions)) && StagesBelow(w, start, Run(w.cfg, s, actions), i + 1)
  {
    hide OnTheWay, HonestRun, Run, Tracked, Done, CompletePass;
    EndStates(w.cfg, s, actions);
    RunOnTheWay(w, start, s, actions, |actions|);
    StagesKept(w, start, s, actions, |actions|, i);
    forall k | Tracked(w, k)
      ensures Done(w, start, Run(w.cfg, s, actions), i, k)
    {
      SweepDone(w, start, s, actions, i, k);
    }
  }

  // ---------- Convergence ----------

  ghost function AllSweeps(cfg: Config, s: State, sweeps: seq<seq<Action>>): State {
    if sweeps == [] then s
    else Run(cfg, AllSweeps(cfg, s, sweeps[..|sweeps| - 1]), sweeps[|sweeps| - 1])
  }

  /** Sweeps one after the other; passes may be under way from one to the next. */
  ghost predicate AreSweeps(w: World, s: State, sweeps: seq<seq<Action>>) {
    sweeps != [] ==>
      var init, last := sweeps[..|sweeps| - 1], sweeps[|sweeps| - 1];
      AreSweeps(w, s, init) && Sweep(w, AllSweeps(w.cfg, s, init), last)
  }

  lemma StageZero(w: World, start: set<Key>, s: State)
    ensures StagesBelow(w, start, s, 1)
  {
    hide Needed;
  }

  lemma {:induction false} SweepsComplete(w: World, start: set<Key>, s: State, sweeps: seq<seq<Action>>)
    requires OnTheWay(w, start, s) && AreSweeps(w, s, sweeps)
    ensures OnTheWay(w, start, AllSweeps(w.cfg, s, sweeps))
    ensures StagesBelow(w, start, AllSweeps(w.cfg, s, sweeps), |sweeps| + 1)
  {
    hide OnTheWay, Run, StagesBelow, Sweep;
    if sweeps == [] {
      StageZero(w, start, s);
    } else {
      var init, last := sweeps[..|sweeps| - 1], sweeps[|sweeps| - 1];
      SweepsComplete(w, start, s, init);
      SweepCompletes(w, start, AllSweeps(w.cfg, s, init), last, |sweeps|);
    }
  }

  ghost predicate ConvergedAt(w: World, start: set<Key>, s: State, k: Key)
    requires Needed(w, k)
  {
    && HasFin(s, k)
    && (k.NsKey? ==> HasNamespace(s, k.name))
    && (k.ObjKey? ==> (HasTarget(s, k) <==> Available(w, start, k)))
    && (k.ObjKey? && HasTarget(s, k) ==> UpToDate(w, s, k) && PcSince(w, s, s, k))
  }

  /**
    Every needed object holds the finalizer, every needed namespace has its target namespace, exactly
    the available objects have targets, and each target is what the mutations make of it; the rounds
    under way have missed nothing; and what is unwanted has been let go of.
   */
  ghost predicate Converged(w: World, start: set<Key>, s: State) {
    && (forall k :: Needed(w, k) ==> ConvergedAt(w, start, s, k))
    && (forall k :: IsUnwanted(w, k) ==> LetGoFor(w, s, k))
  }

  lemma StagesConverge(w: World, start: set<Key>, s: State)
    requires OnTheWay(w, start, s) && StagesBelow(w, start, s, STAGES + 1)
    ensures Converged(w, start, s)
  {
    hide Settled, Needed, Wanted, Available, HasTarget, HasFin, HasNamespace, UpToDate, StagesBelow, PcSince,
      LetGoFor;
    forall k | Needed(w, k)
      ensures ConvergedAt(w, start, s, k)
    {
      NeededOrUnwanted(w, k);
      StageAt(w, start, s, 8, 1, k);
      StageAt(w, start, s, 8, 2, k);
      StageAt(w, start, s, 8, 3, k);
      StageAt(w, start, s, 8, 7, k);
    }
    forall k | IsUnwanted(w, k)
      ensures LetGoFor(w, s, k)
    {
      StageAt(w, start, s, 8, 3, k);
    }
  }

  lemma StagesBelowFewer(w: World, start: set<Key>, s: State, i: nat, j: nat)
    requires StagesBelow(w, start, s, i) && j <= i
    ensures StagesBelow(w, start, s, j)
  {
    hide Stage;
  }

  /**
    Seven sweeps suffice, for any number of objects, from any settled state, however the passes of a
    sweep interleave: exactly the available objects have targets then, although machines, network
    interfaces, virtual IPs and volumes refer to each other in cycles.
   */
  lemma SevenSweepsConverge(w: World, s: State, sweeps: seq<seq<Action>>)
    requires Settled(w, s) && AreSweeps(w, s, sweeps) && |sweeps| >= STAGES
    ensures Settled(w, AllSweeps(w.cfg, s, sweeps))
    ensures Converged(w, Targeted(s), AllSweeps(w.cfg, s, sweeps))
  {
    hide Calm, PcSettled, AreSweeps, AllSweeps, Between, Converged, StagesBelow;
    StartIsBetween(w, s);
    SweepsComplete(w, Targeted(s), s, sweeps);
    StagesBelowFewer(w, Targeted(s), AllSweeps(w.cfg, s, sweeps), |sweeps| + 1, STAGES + 1);
    StagesConverge(w, Targeted(s), AllSweeps(w.cfg, s, sweeps));
  }

  // ---------- The image ----------

  /** The target of `k` is the image of its source object. */
  ghost predicate ImageNow(w: World, s: State, k: Key)
    requires k.ObjKey? && k in w.g && Typed(k, w.g[k].spec)
  {
    exists t :: IsNamespaceFor(s, k.ns, t) && TargetKeyOf(k, t) in s.targets &&
      var x := s.targets[TargetKeyOf(k, t)];
      && TargetTyped(k.kind, x.spec)
      && IsImage(w.cfg, k, w.g[k].spec, FoundNow(w.cfg, s, Peers(w.cfg, k, w.g[k].spec)), x.spec)
  }

  /** Where all peers have targets, an up-to-date target is the image. */
  lemma UpToDateIsImage(w: World, s: State, k: Key)
    requires Settled(w, s) && k.ObjKey? && Needed(w, k) && HasTarget(s, k) && UpToDate(w, s, k)
    requires FullyFound(w.cfg, k, w.g[k].spec, FoundNow(w.cfg, s, Peers(w.cfg, k, w.g[k].spec)))
    ensures ImageNow(w, s, k)
  {
    hide Settled, Needed, FoundNow, Peers, IsImage, Apply;
    NeededIn(w, k);
    var found := FoundNow(w.cfg, s, Peers(w.cfg, k, w.g[k].spec));
    var t :| IsNamespaceFor(s, k.ns, t) && TargetKeyOf(k, t) in s.targets;
    FoundNowPreservesNames(w.cfg, s, Peers(w.cfg, k, w.g[k].spec));
    FullRoundIsImage(w.cfg, k, w.g[k].spec, found, s.targets[TargetKeyOf(k, t)].spec);
  }

  lemma PeerFound(w: World, start: set<Key>, s: State, k: Key, d: Key)
    requires Settled(w, s) && WellBound(w) && Converged(w, start, s) && k.ObjKey? && Needed(w, k)
    requires k in w.g && Typed(k, w.g[k].spec) && d in Peers(w.cfg, k, w.g[k].spec)
    ensures LookupNow(w.cfg, s, d).Hit?
  {
    hide Inv, AtRest, PcSettled, Needed, UpToDate, Available, HasTarget, StatusReady, Fails, Closed, BlockingPeers,
      BestEffortPeers, LookupNow, LookupOrder, PcSince, Lookable;
    LookupOrderMembers(w.cfg, k, w.g[k].spec, d);
    SettledClosed(w, s);
    if d in BlockingPeers(k, w.g[k].spec) {
      BlockingPeersNeeded(w, k, d);
    } else {
      BestEffortPeersNeeded(w, k, d);
    }
    PeersLookable(w, k, d);
    WellBoundAvailable(w, start, d);
    LookupExact(w, s, d);
  }

  /**
    In a well-bound graph every needed object has a target after the sweeps, and the target graph is
    the image of the source graph: all references commute, uid references carry the target peer's uid.
   */
  lemma ConvergedIsImage(w: World, start: set<Key>, s: State, k: Key)
    requires Settled(w, s) && WellBound(w) && Converged(w, start, s) && k.ObjKey? && Needed(w, k)
    ensures HasTarget(s, k) && ImageNow(w, s, k)
  {
    hide Settled, Needed, UpToDate, ImageNow, Available, HasTarget, StatusReady, Fails, Closed, BlockingPeers,
      BestEffortPeers, LookupNow, LookupOrder, PcSince;
    NeededIn(w, k);
    var spec := w.g[k].spec;
    var found := FoundNow(w.cfg, s, Peers(w.cfg, k, spec));
    forall d | d in BlockingPeers(k, spec) || d in BestEffortPeers(w.cfg, k, spec)
      ensures d in found
    {
      LookupOrderMembers(w.cfg, k, spec, d);
      PeerFound(w, start, s, k, d);
    }
    WellBoundAvailable(w, start, k);
    UpToDateIsImage(w, s, k);
  }

  // ---------- The measure ----------

  /** What is still missing: pairs of a stage and a needed key. */
  ghost function Defects(w: World, start: set<Key>, s: State): set<(nat, Key)> {
    set i: nat, k | k in w.g.Keys && i in {1, 2, 3, 4, 5, 6, 7} && Tracked(w, k) && !Done(w, start, s, i, k) :: (i, k)
  }

  lemma {:induction false} FirstOpenStage(w: World, start: set<Key>, s: State, n: nat) returns (i: nat)
    requires n <= STAGES + 1 && !StagesBelow(w, start, s, n)
    ensures 1 <= i < n && StagesBelow(w, start, s, i) && !Stage(w, start, s, i)
  {
    hide Done, Tracked;
    StageZero(w, start, s);
    if StagesBelow(w, start, s, n - 1) {
      i := n - 1;
      assert Stage(w, start, s, 0);
    } else {
      i := FirstOpenStage(w, start, s, n - 1);
    }
  }

  /** Every sweep before the end strictly shrinks the set of defects, however its passes interleave. */
  lemma SweepShrinksDefects(w: World, start: set<Key>, s: State, actions: seq<Action>)
    requires OnTheWay(w, start, s) && Sweep(w, s, actions)
    requires Defects(w, start, s) != {}
    ensures Defects(w, start, Run(w.cfg, s, actions)) < Defects(w, start, s)
  {
    hide OnTheWay, HonestRun, Run, Tracked, Done, HasPass;
    var s' := Run(w.cfg, s, actions);
    EndStates(w.cfg, s, actions);
    var d0: (nat, Key) :| d0 in Defects(w, start, s);
    assert !Stage(w, start, s, d0.0);
    var i := FirstOpenStage(w, start, s, STAGES + 1);
    var k :| Tracked(w, k) && !Done(w, start, s, i, k);
    TrackedIn(w, k);
    SweepDone(w, start, s, actions, i, k);
    assert (i, k) in Defects(w, start, s) && (i, k) !in Defects(w, start, s');
    forall d: (nat, Key) | d in Defects(w, start, s')
      ensures d in Defects(w, start, s)
    {
      if Done(w, start, s, d.0, d.1) {
        RunKeepsDone(w, start, s, actions, 0, |actions|, d.0, d.1);
      }
    }
  }

  lemma AvailableNeeded(w: World, start: set<Key>, k: Key)
    requires k.ObjKey? && Available(w, start, k) && k !in start
    ensures Needed(w, k)
  {
  }

  lemma ConvergedAllThere(w: World, start: set<Key>, s: State)
    requires Between(w, start, s) && Converged(w, start, s)
    ensures AllThere(w, start, s)
  {
    hide Needed, IsUnwanted, Available, HasTarget, HasFin, HasNamespace, UpToDate, PcSince, LetGoFor;
    forall k: Key | k.ObjKey? && Available(w, start, k)
      ensures HasTarget(s, k)
    {
      if k !in start {
        AvailableNeeded(w, start, k);
        assert ConvergedAt(w, start, s, k);
      }
    }
  }

  lemma ConvergedDone(w: World, start: set<Key>, s: State, i: nat, k: Key)
    requires Between(w, start, s) && Converged(w, start, s) && Tracked(w, k)
    ensures Done(w, start, s, i, k)
  {
    hide Needed, Wanted, Available, HasTarget, HasFin, HasNamespace, UpToDate, PcSince, LetGoFor, AllThere, Between;
    ConvergedAllThere(w, start, s);
    if !IsUnwanted(w, k) {
      assert ConvergedAt(w, start, s, k);
    }
  }

  /** There are no defects left exactly if the state has converged. */
  lemma NoDefectsConverged(w: World, start: set<Key>, s: State)
    requires OnTheWay(w, start, s)
    ensures Defects(w, start, s) == {} <==> Converged(w, start, s)
  {
    hide Settled, Between, Tracked, Done, Converged;
    if Converged(w, start, s) {
      forall i: nat, k | Tracked(w, k)
        ensures Done(w, start, s, i, k)
      {
        ConvergedDone(w, start, s, i, k);
      }
    }
    if Defects(w, start, s) == {} {
      StageZero(w, start, s);
      forall i: nat, k | i < 8 && Tracked(w, k)
        ensures Done(w, start, s, i, k)
      {
        TrackedIn(w, k);
        assert (i, k) !in Defects(w, start, s);
        if i == 0 {
          StageAt(w, start, s, 1, 0, k);
        }
      }
      assert StagesBelow(w, start, s, STAGES + 1);
      StagesConverge(w, start, s);
    }
  }

  // ---------- The fixpoint ----------

  lemma PutSame(s: State, tk: TargetKey)
    requires Inv(s) && tk in s.targets
    ensures PutTarget(s, tk, s.targets[tk]) == s
  {
    TargetKnown(s, tk);
    assert s.past[tk] + {s.targets[tk]} == s.past[tk];
    assert s.past[tk := s.past[tk]] == s.past && s.targets[tk := s.targets[tk]] == s.targets;
  }

  lemma IdleWrite(w: World, s: State, k: Key, c: Choice)
    requires Settled(w, s) && PcOf(s, k).Write? && k.ObjKey? && k in w.g && Typed(k, w.g[k].spec) && HasTarget(s, k)
    requires UpToDate(w, s, k) && PcSince(w, s, s, k)
    ensures PassStep(w.cfg, s, k, c) == Goto(s, k, Idle)
  {
    hide Inv, AtRest, PassStep, PutTarget, FoundNow, Peers, Apply, Fails, FoundSince, PcSettled, Goto, FoundSound;
    TargetReadIsThere(w, s, k);
    WriteKnows(w, s, k);
    UpdateStep(w, s, k, c);
    PutSame(s, TargetKeyOf(k, PcOf(s, k).t));
  }

  lemma UnavailableWrite(w: World, start: set<Key>, s: State, k: Key, c: Choice)
    requires OnTheWay(w, start, s) && Honest(w, s, Pass(k, c)) && PcOf(s, k).Write?
    requires k.ObjKey? && k in w.g && Typed(k, w.g[k].spec) && !HasTarget(s, k) && !Available(w, start, k)
    ensures PassStep(w.cfg, s, k, c) == Goto(s, k, Idle)
  {
    hide Settled, Honest, PassStep, Goto, HasTarget, Available, Fails, StatusReady, BlockingPeers;
    TargetReadIsThere(w, s, k);
    StepOnTheWay(w, start, s, Pass(k, c));
    CreatesExactly(w, s, k, c);
  }

  lemma ConvergedWrite(w: World, start: set<Key>, s: State, k: Key, c: Choice)
    requires OnTheWay(w, start, s) && Converged(w, start, s) && Honest(w, s, Pass(k, c)) && PcOf(s, k).Write?
    ensures PassStep(w.cfg, s, k, c) == Goto(s, k, Idle)
  {
    hide Settled, Honest, PassStep, Goto, HasTarget, Available, UpToDate, PcSince, Needed, HasFin, HasNamespace,
      FoundSound;
    WriteKnows(w, s, k);
    if HasTarget(s, k) {
      IdleWrite(w, s, k, c);
    } else {
      UnavailableWrite(w, start, s, k, c);
    }
  }

  lemma GeneratorNeeded(w: World, s: State, k: Key)
    requires AtRest(w, s) && PcSettled(w, s, k)
    ensures PcOf(s, k).NsFin? || PcOf(s, k).NsCreate? ==> Needed(w, k)
  {
    hide NamespaceUsed;
    if PcOf(s, k).NsFin? || PcOf(s, k).NsCreate? {
      CachedSpec(w, s, k);
    }
  }

  /** Where everything has converged there is no finalizer to add and no namespace to create. */
  lemma NothingToAdd(w: World, start: set<Key>, s: State, k: Key, c: Choice)
    requires OnTheWay(w, start, s) && Converged(w, start, s) && !PcOf(s, k).Write?
    ensures HonestEffect(w.cfg, s, k, c) == s
  {
    hide Inv, Between, Available, HasTarget, UpToDate, PcSince, AddFinalizer, CreateNamespace, Needed;
    SettledAt(w, s, k);
    GeneratorNeeded(w, s, k);
  }

  /** On a converged state no call of any pass changes anything in the clusters, on whatever key. */
  lemma ConvergedIsFixpoint(w: World, start: set<Key>, s: State, a: Action)
    requires OnTheWay(w, start, s) && Converged(w, start, s) && Honest(w, s, a)
    ensures exists pc :: Step(w.cfg, s, a) == Goto(s, a.k, pc)
  {
    hide Calm, PcSettled, Between, Converged, Wanted, Goto, PassStep, HonestEffect, NextPc;
    if a.Pass? {
      if PcOf(s, a.k).Write? {
        ConvergedWrite(w, start, s, a.k, a.c);
        assert Step(w.cfg, s, a) == Goto(s, a.k, Idle);
      } else {
        SettledAt(w, s, a.k);
        SettledIsFresh(w, s, a.k);
        HonestStep(w, s, a.k, a.c);
        NothingToAdd(w, start, s, a.k, a.c);
        assert Step(w.cfg, s, a) == Goto(s, a.k, NextPc(w.cfg, s, a.k, PcOf(s, a.k), a.c));
      }
    } else {
      assert Step(w.cfg, s, a) == Goto(s, a.k, Idle);
    }
  }

  // ---------- Sweeps are runs ----------

  function Flattened(sweeps: seq<seq<Action>>): seq<Action> {
    if sweeps == [] then [] else Flattened(sweeps[..|sweeps| - 1]) + sweeps[|sweeps| - 1]
  }

  /** What sweeps reach is reached by one run of the protocol: every safety result holds of it too. */
  lemma {:induction false} SweepsAreRun(cfg: Config, s: State, sweeps: seq<seq<Action>>)
    ensures Run(cfg, s, Flattened(sweeps)) == AllSweeps(cfg, s, sweeps)
  {
    hide Run;
    if sweeps == [] {
      EndStates(cfg, s, []);
    } else {
      var init, last := sweeps[..|sweeps| - 1], sweeps[|sweeps| - 1];
      SweepsAreRun(cfg, s, init);
      RunConcat(cfg, s, Flattened(init), last);
    }
  }

  // ---------- Sweeps exist ----------

  lemma {:induction false} NatAbove(l: set<nat>) returns (n: nat)
    ensures forall x :: x in l ==> x < n
    decreases l
  {
    if l == {} {
      n := 0;
    } else {
      var x :| x in l;
      var m := NatAbove(l - {x});
      n := if x < m then m else x + 1;
      forall y | y in l
        ensures y < n
      {
        assert y == x || y in l - {x};
      }
    }
  }

  lemma HonestCall(w: World, s: State, k: Key) returns (a: Action)
    ensures a.Pass? && a.k == k && Honest(w, s, a)
  {
    hide Wanted;
    var n := NatAbove(s.issued.Keys);
    assert n !in s.issued.Keys;
    var wanted := k in w.g && Typed(k, w.g[k].spec) && Wanted(w.g, w.cfg.pool, k);
    a := Pass(k, Choice(wanted, false, map[], 0, n));
    assert a.c.generated !in s.issued;
    assert a.c.stale == map[];
    assert k in w.g && Typed(k, w.g[k].spec) ==> (a.c.wanted <==> Wanted(w.g, w.cfg.pool, k));
  }

  lemma HonestOneMore(w: World, s: State, actions: seq<Action>, a: Action)
    requires HonestRun(w, s, actions) && Honest(w, Run(w.cfg, s, actions), a)
    ensures HonestRun(w, s, actions + [a])
    ensures Run(w.cfg, s, actions + [a]) == Step(w.cfg, Run(w.cfg, s, actions), a)
  {
    hide Honest, Step;
    var longer := actions + [a];
    assert longer[..|actions|] == actions;
    forall n | 0 <= n < |longer|
      ensures HonestAt(w, s, longer, n)
    {
      assert longer[..n] == actions[..n];
      if n < |actions| {
        assert HonestAt(w, s, actions, n);
      } else {
        assert actions[..n] == actions;
      }
    }
  }

  /** An honest run can go on with calls of the pass on `k` until that pass has ended. */
  lemma {:induction false} PassCanEnd(w: World, s: State, actions: seq<Action>, k: Key)
    returns (longer: seq<Action>)
    requires HonestRun(w, s, actions)
    ensures HonestRun(w, s, longer) && actions <= longer && PcOf(Run(w.cfg, s, longer), k).Idle?
    ensures forall n :: |actions| <= n < |longer| ==> longer[n].Pass? && longer[n].k == k
    ensures forall n :: |actions| <= n < |longer| ==> !PcOf(StateAt(w.cfg, s, longer, n), k).Idle?
    decreases Remaining(w.cfg, k, PcOf(Run(w.cfg, s, actions), k))
  {
    hide HonestRun, Honest, PassStep, Run;
    longer := actions;
    if !PcOf(Run(w.cfg, s, actions), k).Idle? {
      var a := HonestCall(w, Run(w.cfg, s, actions), k);
      HonestOneMore(w, s, actions, a);
      PassShrinks(w.cfg, Run(w.cfg, s, actions), k, a.c);
      longer := PassCanEnd(w, s, actions + [a], k);
      assert longer[..|actions|] == actions;
      assert longer[|actions|] == (actions + [a])[|actions|];
    }
  }

  lemma Began(cfg: Config, s: State, k: Key, c: Choice)
    requires PcOf(s, k).Idle? && Cached(s, k).Some?
    ensures !PcOf(PassStep(cfg, s, k, c), k).Idle?
  {
  }

  lemma TrackedIsRead(w: World, s: State, k: Key)
    requires Settled(w, s) && Tracked(w, k)
    ensures Cached(s, k).Some?
  {
    hide Inv, PcSettled, Closed, Tracked;
    TrackedIn(w, k);
    assert k in Graph(s);
  }

  lemma RunSettled(w: World, s: State, actions: seq<Action>)
    requires Settled(w, s) && HonestRun(w, s, actions)
    ensures Settled(w, Run(w.cfg, s, actions))
  {
    hide Calm, PcSettled, Between, Run, HonestRun;
    StartIsBetween(w, s);
    RunOnTheWay(w, Targeted(s), s, actions, |actions|);
    EndStates(w.cfg, s, actions);
  }

  lemma HasPassLonger(cfg: Config, s: State, actions: seq<Action>, longer: seq<Action>, k: Key)
    requires HasPass(cfg, s, actions, k) && actions <= longer
    ensures HasPass(cfg, s, longer, k)
  {
    hide Run;
    var i, j :| CompletePass(cfg, s, actions, k, i, j);
    forall n | 0 <= n <= |actions|
      ensures StateAt(cfg, s, longer, n) == StateAt(cfg, s, actions, n)
    {
      assert longer[..n] == actions[..n];
    }
    assert CompletePass(cfg, s, longer, k, i, j);
  }

  /** Where a key is idle and its object is there, an honest run can go on so that a pass begins and ends. */
  lemma PassFrom(w: World, s: State, actions: seq<Action>, k: Key) returns (longer: seq<Action>)
    requires HonestRun(w, s, actions) && PcOf(Run(w.cfg, s, actions), k).Idle? && Cached(Run(w.cfg, s, actions), k).Some?
    ensures HonestRun(w, s, longer) && actions <= longer && HasPass(w.cfg, s, longer, k)
  {
    hide HonestRun, Honest, PassStep, Run;
    var a := HonestCall(w, Run(w.cfg, s, actions), k);
    HonestOneMore(w, s, actions, a);
    Began(w.cfg, Run(w.cfg, s, actions), k, a.c);
    longer := PassCanEnd(w, s, actions + [a], k);
    EndStates(w.cfg, s, longer);
    assert longer[..|actions|] == actions;
    assert longer != actions + [a];
    assert CompletePass(w.cfg, s, longer, k, |actions|, |longer|);
  }

  /** An honest run can go on so that a pass on a tracked key begins and ends. */
  lemma PassCanRun(w: World, s: State, actions: seq<Action>, k: Key) returns (longer: seq<Action>)
    requires Settled(w, s) && HonestRun(w, s, actions) && Tracked(w, k)
    ensures HonestRun(w, s, longer) && actions <= longer && HasPass(w.cfg, s, longer, k)
  {
    hide Settled, HonestRun, Honest, Run, Tracked, HasPass;
    var idle := PassCanEnd(w, s, actions, k);
    RunSettled(w, s, idle);
    TrackedIsRead(w, Run(w.cfg, s, idle), k);
    longer := PassFrom(w, s, idle, k);
  }

  lemma {:induction false} PassesCanRun(w: World, s: State, keys: set<Key>) returns (actions: seq<Action>)
    requires Settled(w, s) && forall k :: k in keys ==> Tracked(w, k)
    ensures HonestRun(w, s, actions) && forall k :: k in keys ==> HasPass(w.cfg, s, actions, k)
    decreases keys
  {
    hide Settled, Run, Tracked, HasPass, Honest;
    if keys == {} {
      actions := [];
    } else {
      var k :| k in keys;
      var shorter := PassesCanRun(w, s, keys - {k});
      actions := PassCanRun(w, s, shorter, k);
      forall j | j in keys && j != k {
        HasPassLonger(w.cfg, s, shorter, actions, j);
      }
    }
  }

  /** From every settled state there is a sweep, whatever passes are under way in it. */
  lemma SweepExists(w: World, s: State) returns (actions: seq<Action>)
    requires Settled(w, s)
    ensures Sweep(w, s, actions)
  {
    hide Settled, Tracked, HonestRun, HasPass;
    var keys := set k | k in w.g.Keys && Tracked(w, k);
    actions := PassesCanRun(w, s, keys);
    forall k | Tracked(w, k)
      ensures HasPass(w.cfg, s, actions, k)
    {
      TrackedIn(w, k);
      assert k in keys;
    }
  }

  lemma {:induction false} SweepsExist(w: World, s: State, n: nat) returns (sweeps: seq<seq<Action>>)
    requires Settled(w, s)
    ensures |sweeps| == n && AreSweeps(w, s, sweeps) && Settled(w, AllSweeps(w.cfg, s, sweeps))
  {
    hide Settled, HonestRun, HasPass, Tracked, Run;
    sweeps := [];
    if n > 0 {
      var init := SweepsExist(w, s, n - 1);
      var last := SweepExists(w, AllSweeps(w.cfg, s, init));
      sweeps := init + [last];
      assert sweeps[..|sweeps| - 1] == init;
      RunSettled(w, AllSweeps(w.cfg, s, init), last);
    }
  }

  lemma HonestConcat(w: World, s: State, a: seq<Action>, b: seq<Action>)
    requires HonestRun(w, s, a) && HonestRun(w, Run(w.cfg, s, a), b)
    ensures HonestRun(w, s, a + b)
  {
    hide Honest, Run;
    forall n | 0 <= n < |a + b|
      ensures HonestAt(w, s, a + b, n)
    {
      if n < |a| {
        assert (a + b)[..n] == a[..n];
        assert HonestAt(w, s, a, n);
      } else {
        assert (a + b)[..n] == a + b[..n - |a|];
        RunConcat(w.cfg, s, a, b[..n - |a|]);
        assert HonestAt(w, Run(w.cfg, s, a), b, n - |a|);
      }
    }
  }

  lemma NothingIsHonest(w: World, s: State)
    ensures HonestRun(w, s, [])
  {
  }

  lemma {:induction false} SweepsAreHonest(w: World, s: State, sweeps: seq<seq<Action>>)
    requires AreSweeps(w, s, sweeps)
    ensures HonestRun(w, s, Flattened(sweeps))
  {
    hide HonestRun, Run, Tracked, HasPass;
    if sweeps == [] {
      NothingIsHonest(w, s);
    } else {
      var init, last := sweeps[..|sweeps| - 1], sweeps[|sweeps| - 1];
      SweepsAreHonest(w, s, init);
      SweepsAreRun(w.cfg, s, init);
      HonestConcat(w, s, Flattened(init), last);
    }
  }

  /** So from every settled state calls of passes alone lead to a converged one. */
  lemma ConvergesByARun(w: World, s: State)
    requires Settled(w, s)
    ensures exists actions :: HonestRun(w, s, actions) &&
              Settled(w, Run(w.cfg, s, actions)) && Converged(w, Targeted(s), Run(w.cfg, s, actions))
  {
    hide Settled, AreSweeps, AllSweeps, Converged, Run, HonestRun;
    var sweeps := SweepsExist(w, s, STAGES);
    SevenSweepsConverge(w, s, sweeps);
    SweepsAreRun(w.cfg, s, sweeps);
    SweepsAreHonest(w, s, sweeps);
    assert HonestRun(w, s, Flattened(sweeps));
  }

  // ---------- Starting points ----------

  /** Users have just created the objects of `g`; the broker has not run yet. */
  ghost predicate JustCreated(g: Store, s: State) {
    && s.views.Keys == g.Keys
    && (forall k :: k in g ==>
          s.views[k] == [Some(SourceObject(g[k].uid, false, false, g[k].spec))] &&
          g[k].uid in s.born && s.born[g[k].uid] == k)
    && s.namespaces == map[] && s.targets == map[] && s.pcs == map[] && s.issued == map[] && s.past == map[]
  }

  lemma JustCreatedSettled(w: World, s: State)
    requires Closed(w.g) && JustCreated(w.g, s) && w.kept == {}
    ensures Settled(w, s) && Targeted(s) == {}
  {
    hide Needed, Wanted, NamespaceUsed;
    forall k | k in s.views
      ensures ViewOk(s.born, k, s.views[k])
    {
      assert Typed(k, w.g[k].spec);
    }
    assert Graph(s) == w.g;
    forall k | k in w.g
      ensures !HasFin(s, k)
    {
    }
  }

  /** From scratch: exactly the available objects among what users created get targets. */
  lemma FromScratch(w: World, s: State, sweeps: seq<seq<Action>>)
    requires Closed(w.g) && JustCreated(w.g, s) && w.kept == {}
    requires AreSweeps(w, s, sweeps) && |sweeps| >= STAGES
    ensures Converged(w, {}, AllSweeps(w.cfg, s, sweeps))
  {
    hide Settled, Converged, AreSweeps, AllSweeps, Closed, JustCreated;
    JustCreatedSettled(w, s);
    SevenSweepsConverge(w, s, sweeps);
  }

  // ---------- A cycle ----------

  /** A machine, its network interface and volume, and a virtual IP, all bound both ways. */
  const CYCLIC_GRAPH: Store := map[
    NsKey("a") := Record(0, NamespaceSpec),
    ObjKey(Machine, "a", "m") := Record(1, MachineObjSpec(MachineSpec(Some("p"), None, None,
      [Entry("disk", MachineVolume("oda", VolumeRef("v")))], [Entry("eth", NicRef("n"))],
      [Entry("disk", true)], [Entry("eth", true)], 0))),
    ObjKey(NetworkInterface, "a", "n") := Record(2, NetworkInterfaceSpec(
      NicSpec("net", Some(UidRef("m", 1)), Some(VipRef("ip")), [IPv4], [IP(IPv4, 7)]))),
    ObjKey(Volume, "a", "v") := Record(3, VolumeObjSpec(VolumeSpec(None, Some(UidRef("m", 1)), 0))),
    ObjKey(VirtualIP, "a", "ip") := Record(4, VirtualIPSpec(VipSpec(Some(UidRef("n", 2)), 0))),
    ObjKey(Network, "a", "net") := Record(5, NetworkSpec)]

  lemma CyclicGraphReady(k: Key)
    requires k in CYCLIC_GRAPH && k.ObjKey?
    ensures Typed(k, CYCLIC_GRAPH[k].spec) && !Fails(CYCLIC_GRAPH[k].spec) && StatusReady(k, CYCLIC_GRAPH[k].spec)
  {
    var m := CYCLIC_GRAPH[ObjKey(Machine, "a", "m")].spec.machine;
    assert StatusBound(m.volumeBound, "disk") && StatusBound(m.nicBound, "eth");
  }

  lemma CyclicGraphPeers(k: Key, d: Key)
    requires k in CYCLIC_GRAPH && k.ObjKey? && Typed(k, CYCLIC_GRAPH[k].spec)
    requires d in BlockingPeers(k, CYCLIC_GRAPH[k].spec)
    ensures d in CYCLIC_GRAPH && d.ObjKey? && Typed(d, CYCLIC_GRAPH[d].spec)
    ensures BoundBack(k, CYCLIC_GRAPH[k].uid, d, CYCLIC_GRAPH[d].spec)
  {
  }

  /** The cycles are within what `WellBound` allows. */
  lemma CyclicGraphWellBound(cfg: Config)
    ensures WellBound(World(cfg, CYCLIC_GRAPH, {}))
  {
    hide Wanted, NamespaceUsed, BlockingPeers, StatusReady, Fails, BoundBack;
    forall k: Key | k in CYCLIC_GRAPH && k.ObjKey? {
      CyclicGraphReady(k);
    }
    forall k: Key, d: Key | k in CYCLIC_GRAPH && k.ObjKey? && d in BlockingPeers(k, CYCLIC_GRAPH[k].spec)
      ensures d in CYCLIC_GRAPH && d.ObjKey? && Typed(d, CYCLIC_GRAPH[d].spec)
      ensures BoundBack(k, CYCLIC_GRAPH[k].uid, d, CYCLIC_GRAPH[d].spec)
    {
      CyclicGraphPeers(k, d);
    }
  }

  lemma CyclicGraphUsed(pool: string)
    requires pool == "p"
    ensures NamespaceUsed(CYCLIC_GRAPH, pool, "a")
    ensures NicUsed(CYCLIC_GRAPH, pool, "a", "n", CYCLIC_GRAPH[ObjKey(NetworkInterface, "a", "n")].spec.nic)
  {
    var m := CYCLIC_GRAPH[ObjKey(Machine, "a", "m")].spec.machine;
    assert Stores(CYCLIC_GRAPH, Machine, "a", ObjKey(Machine, "a", "m")) && InPool(m, pool);
    assert EntryNicName("m", m.nics[0]) == Some("n");
    assert MachineHasNic("m", m, "n");
  }

  /** The machine and the network interface are needed, block on and wait for each other. */
  lemma CyclicGraphNeeded(cfg: Config)
    requires cfg.pool == "p"
    ensures var w := World(cfg, CYCLIC_GRAPH, {});
            var mk, nk := ObjKey(Machine, "a", "m"), ObjKey(NetworkInterface, "a", "n");
            && Needed(w, mk) && Needed(w, nk)
            && nk in BlockingPeers(mk, w.g[mk].spec) && mk in BestEffortPeers(cfg, nk, w.g[nk].spec)
  {
    hide NamespaceUsed, NicUsed;
    CyclicGraphUsed(cfg.pool);
    var m := CYCLIC_GRAPH[ObjKey(Machine, "a", "m")].spec.machine;
    assert EntryNicName("m", m.nics[0]) == Some("n");
  }
}
