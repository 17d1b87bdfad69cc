/**
  The reconcilers as programs: each makes its API calls one after the other, and anybody else may
  act between any two calls.  Every call is proved to be one step of the protocol, so whatever
  holds of all its runs holds of these programs; and a pass that nobody interferes with is proved
  to do exactly what the direct-style pass does.
 */
module Reconcilers {
  import opened Wrappers
  import opened Objects
  import opened Sync
  import opened Usage
  import opened Protocol
  import opened ProtocolInvariant
  import opened ProtocolTheorems
  import opened Passes
  import opened Appliers
  import UsageQueries
  import Frozen

  lemma RunOneMore(cfg: Config, s: State, actions: seq<Action>, a: Action)
    ensures Run(cfg, s, actions + [a]) == Step(cfg, Run(cfg, s, actions), a)
  {
    assert (actions + [a])[..|actions + [a]| - 1] == actions;
  }

  /** What a single match looks like. */
  lemma SingleMatch(s: State, uid: Uid, t: TargetNs)
    requires t in Labelled(s, uid)
    ensures |Labelled(s, uid)| == 1 <==> Labelled(s, uid) == {t}
  {
    var m := Labelled(s, uid);
    if |m| == 1 {
      assert |m - {t}| == 0;
      assert m == {t};
    }
  }

  /** The calls and failures of passes on `k`. */
  function CallsOn(history: seq<Action>, k: Key): seq<Action> {
    if history == [] then []
    else
      var last := history[|history| - 1];
      CallsOn(history[..|history| - 1], k) + if (last.Pass? || last.Fail?) && last.k == k then [last] else []
  }

  lemma CallsOneMore(history: seq<Action>, a: Action, k: Key)
    ensures CallsOn(history + [a], k) == CallsOn(history, k) + if (a.Pass? || a.Fail?) && a.k == k then [a] else []
  {
    assert (history + [a])[..|history + [a]| - 1] == history;
  }

  /** What is in the source cluster, with its cache. */
  function LiveGraph(s: State): Store {
    map k | k in s.views && Live(s, k).Some? :: Record(Live(s, k).value.uid, Live(s, k).value.spec)
  }

  /** The answer of the queries on the cache in `s` and, if that is no, of the live queries in `s'`. */
  predicate InUseBetween(cfg: Config, s: State, s': State, k: Key, spec: Spec)
    requires Typed(k, spec)
  {
    || WantedCached(Frozen.Graph(s), cfg.pool, k, spec)
    || WantedLive(if k.NsKey? then Frozen.Graph(s') else LiveGraph(s'), cfg.pool, k, spec)
  }

  /**
    A yes has a reason, in what the first queries or the second ones saw; a no leaves none in the source
    cluster, or for a namespace in its cache, at the time of the second.
   */
  lemma InUseExactly(cfg: Config, s: State, s': State, k: Key, spec: Spec)
    requires Typed(k, spec)
    ensures var second := if k.NsKey? then Frozen.Graph(s') else LiveGraph(s');
            && (InUseBetween(cfg, s, s', k, spec) ==>
                  HasReason(Frozen.Graph(s), cfg.pool, k, spec) || HasReason(second, cfg.pool, k, spec))
            && (HasReason(second, cfg.pool, k, spec) ==> InUseBetween(cfg, s, s', k, spec))
  {
    hide WantedCached, WantedLive, WantedBy, HasReason;
    var first, second := Frozen.Graph(s), if k.NsKey? then Frozen.Graph(s') else LiveGraph(s');
    CachedOrLive(first, cfg.pool, k, spec);
    CachedOrLive(second, cfg.pool, k, spec);
    WantedExactly(first, cfg.pool, k, spec);
    WantedExactly(second, cfg.pool, k, spec);
    LiveIsAll(second, cfg.pool, k, spec);
  }

  predicate InUse(cfg: Config, s: State, k: Key, spec: Spec)
    requires Typed(k, spec)
  {
    InUseBetween(cfg, s, s, k, spec)
  }

  // ---------- Where a pass goes from what a call returned ----------

  function AfterNamespace(pc: Pc, n: Option<SourceObject>): Pc
    requires pc.DelNs? || pc.RecNs?
  {
    if n.None? then Idle
    else if pc.DelNs? then DelList(pc.o, n.value.uid)
    else RecList(pc.o, n.value.uid)
  }

  function AfterLookup(cfg: Config, k: Key, o: SourceObject, deleting: bool, r: Single): Pc {
    match r
    case One(t) =>
      if deleting then DelIssue(o, t) else if k.ObjKey? && k.kind == Volume then FirstLookup(cfg, k, o, t) else RecFin(o, t)
    case NotFound => if deleting && k.ObjKey? && k.kind == Volume then DelFin(o) else Idle
    case Rejected => Idle
  }

  function AfterList(cfg: Config, k: Key, pc: Pc, r: Single): Pc
    requires pc.DelList? || pc.RecList? || pc.NsDelList? || pc.NsList?
  {
    match pc
    case NsDelList(o) =>
      (match r case NotFound => DelFin(o) case One(t) => NsDelIssue(o, t) case Rejected => Idle)
    case NsList(o) =>
      (match r case NotFound => NsRef(o) case One(_) => NsKeep(o) case Rejected => Idle)
    case _ => AfterLookup(cfg, k, pc.o, pc.DelList?, r)
  }

  function AfterEnsure(cfg: Config, k: Key, pc: Pc): Pc
    requires pc.VolumeFin? || pc.RecFin? || pc.NsKeep? || pc.NsFin?
  {
    if !pc.o.fin then Idle
    else match pc
      case VolumeFin(o) => RecNs(o)
      case RecFin(o, t) => FirstLookup(cfg, k, o, t)
      case NsFin(o) => NsCreate(o)
      case _ => Idle
  }

  lemma EnsureNext(cfg: Config, s: State, k: Key, pc: Pc, c: Choice)
    requires pc.VolumeFin? || pc.RecFin? || pc.NsKeep? || pc.NsFin?
    ensures NextPc(cfg, s, k, pc, c) == AfterEnsure(cfg, k, pc)
    ensures Effect(cfg, s, k, pc, c) == EnsureFinalizer(s, k, pc.o)
  {
    hide WriteTarget, EnsureFinalizer;
  }

  lemma ReleaseNext(cfg: Config, s: State, k: Key, pc: Pc, c: Choice)
    requires pc.DelFin?
    ensures NextPc(cfg, s, k, pc, c) == Idle && Effect(cfg, s, k, pc, c) == RemoveFinalizer(s, k)
  {
    hide RemoveFinalizer;
  }

  lemma MarkNext(cfg: Config, s: State, k: Key, pc: Pc, c: Choice)
    requires pc.NsDelIssue?
    ensures NextPc(cfg, s, k, pc, c) == if pc.t in s.namespaces then Idle else DelFin(pc.o)
    ensures Effect(cfg, s, k, pc, c) == MarkNamespace(s, pc.t)
  {
    hide MarkNamespace;
  }

  lemma WriteNext(cfg: Config, s: State, k: Key, pc: Pc, c: Choice)
    requires pc.Write?
    ensures var Write(o, t, found, current) := pc;
            Effect(cfg, s, k, pc, c) == WriteTarget(cfg, s, k, o, t, found, current, c.uid)
    ensures NextPc(cfg, s, k, pc, c) == Idle
  {
    hide WriteTarget;
  }

  lemma DecidedNext(cfg: Config, s: State, k: Key, pc: Pc, c: Choice)
    requires pc.Got? || pc.NsRef?
    ensures Effect(cfg, s, k, pc, c) == s
    ensures NextPc(cfg, s, k, pc, c) ==
            if pc.Got? then BranchPc(cfg, k, pc.o, c.wanted) else if c.wanted then NsFin(pc.o) else Idle
  {
    hide BranchPc;
  }

  lemma ListNext(cfg: Config, s: State, k: Key, pc: Pc, uid: Uid, c: Choice)
    requires pc.DelList? || pc.RecList? || pc.NsDelList? || pc.NsList?
    requires uid == if pc.DelList? || pc.RecList? then pc.nsUid else pc.o.uid
    ensures NextPc(cfg, s, k, pc, c) == AfterList(cfg, k, pc, ListSingle(s, uid))
  {
    hide ListSingle;
  }

  lemma GotoIdle(s: State, k: Key)
    requires k !in s.pcs
    ensures Goto(s, k, Idle) == s
  {
  }

  /** A call that only reads, seen from a state without the pass. */
  lemma ReadStep(cfg: Config, s0: State, k: Key, pc: Pc, c: Choice)
    requires k !in s0.pcs
    requires pc.DelNs? || pc.RecNs? || pc.DelList? || pc.RecList? || pc.Lookup? || pc.Fetch? || pc.Idle? || pc.Got? ||
      pc.NsDelList? || pc.NsList? || pc.NsRef?
    ensures var s' := PassStep(cfg, Goto(s0, k, pc), k, c);
            s' == Goto(s0, k, PcOf(s', k)) && (PcOf(s', k).Idle? ==> s' == s0)
    ensures Cached(Goto(s0, k, pc), NamespaceOf(k)) == Cached(s0, NamespaceOf(k))
    ensures pc.DelList? || pc.RecList? ==> ListSingle(Goto(s0, k, pc), pc.nsUid) == ListSingle(s0, pc.nsUid)
    ensures pc.NsDelList? || pc.NsList? ==> ListSingle(Goto(s0, k, pc), pc.o.uid) == ListSingle(s0, pc.o.uid)
    ensures k.ObjKey? && pc.Fetch? ==>
              ReadTarget(Goto(s0, k, pc), c, TargetKeyOf(k, pc.t)) == ReadTarget(s0, c, TargetKeyOf(k, pc.t))
    ensures Cached(Goto(s0, k, pc), k) == Cached(s0, k)
  {
    hide WriteTarget, NextPc, PassStep, ListSingle;
    assert Effect(cfg, s0, k, pc, c) == s0;
    PassStepAt(cfg, s0, k, pc, c, s0, NextPc(cfg, s0, k, pc, c));
    GotoIdle(s0, k);
    if pc.DelList? || pc.RecList? {
      ListSingleSame(s0, Goto(s0, k, pc), pc.nsUid);
    } else if pc.NsDelList? || pc.NsList? {
      ListSingleSame(s0, Goto(s0, k, pc), pc.o.uid);
    }
  }

  // ---------- Writing calls, seen from a state without the pass ----------

  lemma DeleteIssueStep(cfg: Config, s0: State, k: Key, o: SourceObject, t: TargetNs, c: Choice)
    requires k !in s0.pcs && k.ObjKey?
    ensures PassStep(cfg, Goto(s0, k, DelIssue(o, t)), k, c)
            == if TargetAt(s0, k, t).None? then Goto(s0, k, DelFin(o)) else DeleteTarget(s0, k, t, c.vanish)
    ensures TargetKeyOf(k, t) in Goto(s0, k, DelIssue(o, t)).targets <==> TargetAt(s0, k, t).Some?
  {
    var s', next := DeleteTarget(s0, k, t, c.vanish), if TargetAt(s0, k, t).None? then DelFin(o) else Idle;
    PassStepAt(cfg, s0, k, DelIssue(o, t), c, s', next);
    assert Goto(s', k, Idle) == s';
  }

  lemma ReleaseStep(cfg: Config, s0: State, k: Key, o: SourceObject, c: Choice)
    requires k !in s0.pcs
    ensures PassStep(cfg, Goto(s0, k, DelFin(o)), k, c) == RemoveFinalizer(s0, k)
  {
    PassStepAt(cfg, s0, k, DelFin(o), c, RemoveFinalizer(s0, k), Idle);
    assert Goto(RemoveFinalizer(s0, k), k, Idle) == RemoveFinalizer(s0, k);
  }

  lemma EnsureStep(cfg: Config, s0: State, k: Key, pc: Pc, c: Choice)
    requires k !in s0.pcs && (pc.VolumeFin? || pc.RecFin? || pc.NsKeep? || pc.NsFin?)
    ensures var s' := PassStep(cfg, Goto(s0, k, pc), k, c);
            if pc.o.fin then s' == Goto(s0, k, PcOf(s', k)) && (PcOf(s', k).Idle? ==> s' == s0)
            else s' == AddFinalizer(s0, k)
  {
    hide WriteTarget, DeleteTarget;
    var s' := EnsureFinalizer(s0, k, pc.o);
    PassStepAt(cfg, s0, k, pc, c, s', NextPc(cfg, s0, k, pc, c));
    GotoIdle(s', k);
  }

  lemma WriteStep(cfg: Config, s0: State, k: Key, o: SourceObject, t: TargetNs, found: Found,
                  current: Option<TargetObject>, c: Choice)
    requires k !in s0.pcs
    ensures PassStep(cfg, Goto(s0, k, Write(o, t, found, current)), k, c)
            == WriteTarget(cfg, s0, k, o, t, found, current, c.uid)
  {
    hide WriteTarget;
    var s' := WriteTarget(cfg, s0, k, o, t, found, current, c.uid);
    PassStepAt(cfg, s0, k, Write(o, t, found, current), c, s', Idle);
    assert Goto(s', k, Idle) == s';
  }

  lemma MarkStep(cfg: Config, s0: State, k: Key, o: SourceObject, t: TargetNs, c: Choice)
    requires k !in s0.pcs && t in s0.namespaces
    ensures PassStep(cfg, Goto(s0, k, NsDelIssue(o, t)), k, c) == MarkNamespace(s0, t)
    ensures t in Goto(s0, k, NsDelIssue(o, t)).namespaces
  {
    hide WriteTarget, DeleteTarget;
    PassStepAt(cfg, s0, k, NsDelIssue(o, t), c, MarkNamespace(s0, t), Idle);
    assert Goto(MarkNamespace(s0, t), k, Idle) == MarkNamespace(s0, t);
  }

  lemma GenerateStep(cfg: Config, s0: State, k: Key, o: SourceObject, c: Choice)
    requires k !in s0.pcs
    ensures PassStep(cfg, Goto(s0, k, NsCreate(o)), k, c) == CreateNamespace(s0, k, o, c.generated)
  {
    hide WriteTarget, DeleteTarget;
    var s' := CreateNamespace(s0, k, o, c.generated);
    PassStepAt(cfg, s0, k, NsCreate(o), c, s', Idle);
    assert Goto(s', k, Idle) == s';
  }

  // ---------- The queries ----------

  /** An object that was read has the spec of its kind. */
  lemma ReadIsTyped(s: State, k: Key)
    requires Inv(s) && (PcOf(s, k).Got? || PcOf(s, k).NsRef?)
    ensures Typed(k, PcOf(s, k).o.spec)
  {
    PcsAreOk(s, k);
  }

  lemma WriteIsTyped(s: State, k: Key)
    requires Inv(s) && k.ObjKey? && PcOf(s, k).Write?
    ensures Typed(k, PcOf(s, k).o.spec)
    ensures PcOf(s, k).current.Some? ==> TargetTyped(k.kind, PcOf(s, k).current.value.spec)
  {
    PcsAreOk(s, k);
    assert PastOk(s, TargetKeyOf(k, PcOf(s, k).t));
  }

  lemma InUseCommutes(cfg: Config, s0: State, k: Key, pc: Pc, spec: Spec)
    requires Typed(k, spec)
    ensures InUse(cfg, Goto(s0, k, pc), k, spec) == InUse(cfg, s0, k, spec)
  {
    hide WantedCached, WantedLive;
    var s1 := Goto(s0, k, pc);
    assert forall j :: Cached(s1, j) == Cached(s0, j) && Live(s1, j) == Live(s0, j);
    assert Frozen.Graph(s1) == Frozen.Graph(s0) && LiveGraph(s1) == LiveGraph(s0);
  }

  lemma RoundOf(cfg: Config, s: State, k: Key, o: SourceObject, t: TargetNs, c: Choice, found: Option<Found>)
    requires k.ObjKey? && found == LookupAll(cfg, s, c, LookupOrder(cfg, k, o.spec), map[])
    ensures ApplyRound(cfg, s, k, o, t, c, LookupOrder(cfg, k, o.spec), map[])
            == if found.None? then s
               else WriteTarget(cfg, s, k, o, t, found.value, ReadTarget(s, c, TargetKeyOf(k, t)), c.uid)
  {
    hide LookupAll, LookupOrder, WriteTarget;
  }

  /** The passes that ask whether their object is wanted. */
  ghost predicate Queries(s: State, k: Key) {
    && Cached(s, k).Some? && !Cached(s, k).value.deleting
    && (if k.NsKey? then ListSingle(s, Cached(s, k).value.uid).NotFound? else k.kind != Machine)
  }

  // ---------- The program ----------

  class Broker {
    const cfg: Config
    ghost const quiet: bool // nobody interferes

    // what the API servers and the caches hold
    var views: map<Key, View>
    var namespaces: map<TargetNs, TargetNamespace>
    var targets: map<TargetKey, TargetObject>
    var born: map<Uid, Key>
    var issued: map<TargetNs, string>
    var past: map<TargetKey, set<TargetObject>>

    var env: Choice                    // what the clusters choose at the next call, and how far the target cache lags

    ghost var pcs: map<Key, Pc>        // where the passes stand
    ghost var history: seq<Action>     // everything that has happened
    ghost var origin: seq<Action>      // the history when the pass under way began
    ghost var key: Key                 // the key of that pass
    ghost var calls: seq<Action>       // the calls it has made

    constructor (cfg: Config, env: Choice, ghost quiet: bool)
      ensures Valid() && this.cfg == cfg && this.quiet == quiet && this.env == env && history == []
    {
      this.cfg, this.env, this.quiet := cfg, env, quiet;
      views, namespaces, targets, born, issued, past := map[], map[], map[], map[], map[], map[];
      pcs, history, origin, key, calls := map[], [], [], NsKey(""), [];
    }

    ghost function Now(): State
      reads this
    {
      State(views, namespaces, targets, pcs, born, issued, past)
    }

    /** The state before the last thing that happened. */
    ghost function Before(): State
      reads this
    {
      Run(cfg, INIT, if history == [] then [] else history[..|history| - 1])
    }

    /**
      What is in the clusters is what the history of calls and events has made of them.  Since the pass
      under way began, there has been no call on its key but its own; anybody else may have done anything.
     */
    ghost predicate Valid()
      reads this
    {
      && Now() == Run(cfg, INIT, history) && Inv(Now())
      && origin <= history && CallsOn(history[|origin|..], key) == calls
      && forall i :: 0 <= i < |calls| ==> calls[i].Pass?
    }

    /** The pass under way is still the same one. */
    twostate predicate Kept()
      reads this
    {
      Valid() && key == old(key) && origin == old(origin) && (quiet ==> env == old(env))
    }

    /** The method made one call of the pass on `k`, and nothing else happened meanwhile. */
    twostate predicate Stepped(k: Key)
      reads this
    {
      Kept() && env == old(env) && history == old(history) + [Pass(k, env)] && Now() == PassStep(cfg, old(Now()), k, env)
    }

    /** One call of the pass on `k`: the other half of the call is what the method body did. */
    ghost method Called(k: Key, before: State)
      requires before == Run(cfg, INIT, history) && Inv(before) && key == k && origin <= history
      requires CallsOn(history[|origin|..], k) == calls && forall i :: 0 <= i < |calls| ==> calls[i].Pass?
      requires Now() == Effect(cfg, before, k, PcOf(before, k), env)
      modifies this`pcs, this`history, this`calls
      ensures Valid() && Now() == PassStep(cfg, before, k, env)
      ensures PcOf(Now(), k) == NextPc(cfg, before, k, PcOf(before, k), env)
      ensures history == old(history) + [Pass(k, env)]
    {
      hide Inv, Effect, NextPc;
      RunOneMore(cfg, INIT, history, Pass(k, env));
      CallsOneMore(history[|origin|..], Pass(k, env), k);
      assert (history + [Pass(k, env)])[|origin|..] == history[|origin|..] + [Pass(k, env)];
      StepKeeps(cfg, before, Pass(k, env));
      pcs := PassStep(cfg, before, k, env).pcs;
      history, calls := history + [Pass(k, env)], calls + [Pass(k, env)];
    }

    /** Between two calls anything may happen; callers rely on no more than this contract. */
    method Interfere(k: Key)
      requires Valid() && key == k
      modifies this
      ensures Kept() && calls == old(calls) && PcOf(Now(), k) == old(PcOf(Now(), k))
      ensures old(history) <= history
      ensures quiet ==> Now() == old(Now()) && history == old(history)
    {
    }

    /** A step of the pass that makes no call. */
    ghost method Decided(k: Key)
      requires Valid() && key == k
      requires var pc := PcOf(Now(), k); pc.Got? || (pc.Lookup? && pc.rest == [])
      modifies this`pcs, this`history, this`calls
      ensures Stepped(k)
      ensures PcOf(Now(), k) == NextPc(cfg, old(Now()), k, old(PcOf(Now(), k)), env)
    {
      hide Inv, NextPc;
      Called(k, Now());
    }

    // ---------- Reads of the source cluster ----------

    method Get(k: Key) returns (o: Option<SourceObject>)
      requires Valid() && key == k && PcOf(Now(), k).Idle?
      modifies this
      ensures Stepped(k)
      ensures PcOf(Now(), k) == if o.None? then Idle else Got(o.value)
      ensures o == Cached(old(Now()), k)
    {
      hide Inv, WriteTarget;
      o := if k in views && views[k] != [] then views[k][0] else None;
      Called(k, Now());
    }

    method GetNamespace(k: Key) returns (n: Option<SourceObject>)
      requires Valid() && key == k && (PcOf(Now(), k).DelNs? || PcOf(Now(), k).RecNs?)
      modifies this
      ensures Stepped(k)
      ensures PcOf(Now(), k) == AfterNamespace(old(PcOf(Now(), k)), n)
      ensures n == Cached(old(Now()), NamespaceOf(k))
    {
      hide Inv, WriteTarget;
      var nk := NamespaceOf(k);
      n := if nk in views && views[nk] != [] then views[nk][0] else None;
      Called(k, Now());
    }

    /** What the cache, or the source cluster itself, holds. */
    method Snapshot(live: bool) returns (g: Store)
      ensures g == if live then LiveGraph(Now()) else Frozen.Graph(Now())
    {
      g := map k | k in views && views[k] != [] && (if live then views[k][|views[k]| - 1] else views[k][0]).Some? ::
        var o := (if live then views[k][|views[k]| - 1] else views[k][0]).value; Record(o.uid, o.spec);
    }

    /** The usage or reference queries on the cache, and if they answer no, the live ones. */
    method QueryWanted(k: Key, spec: Spec) returns (wanted: bool)
      requires Valid() && key == k && Typed(k, spec)
      modifies this
      ensures Kept() && calls == old(calls) && PcOf(Now(), k) == old(PcOf(Now(), k)) && old(history) <= history
      ensures wanted == InUseBetween(cfg, old(Now()), Now(), k, spec)
      ensures !wanted ==>
                !HasReason(if k.NsKey? then Frozen.Graph(Now()) else LiveGraph(Now()), cfg.pool, k, spec)
      ensures quiet ==> Now() == old(Now()) && history == old(history) && wanted == InUse(cfg, old(Now()), k, spec)
    {
      hide Inv, WantedCached, WantedLive, HasReason;
      var cached := Snapshot(false);
      wanted := UsageQueries.Ask(cached, cfg.pool, k, spec, false);
      if !wanted {
        Interfere(k);
        var g := Snapshot(k.ObjKey?);
        wanted := UsageQueries.Ask(g, cfg.pool, k, spec, true);
      }
      InUseExactly(cfg, old(Now()), Now(), k, spec);
    }

    /** Whether an object that is not marked is to be reconciled. */
    method IsWanted(k: Key, o: SourceObject) returns (wanted: bool)
      requires Valid() && key == k && PcOf(Now(), k) == Got(o)
      modifies this
      ensures Valid() && key == old(key) && origin == old(origin)
      ensures PcOf(Now(), k) == BranchPc(cfg, k, o, wanted) && Typed(k, o.spec)
      ensures wanted == InUseBetween(cfg, old(Now()), Before(), k, o.spec)
      ensures quiet ==> Now() == PassStep(cfg, old(Now()), k, env) && env == old(env).(wanted := wanted)
      ensures quiet ==> wanted == InUse(cfg, old(Now()), k, o.spec)
    {
      hide Inv, PassStep, InUse, Effect, NextPc, BranchPc, WantedCached, WantedLive;
      ReadIsTyped(Now(), k);
      wanted := QueryWanted(k, o.spec);
      env := env.(wanted := wanted);
      DecidedNext(cfg, Now(), k, Got(o), env);
      Called(k, Now());
    }

    /** Whether anything that is synced refers to the namespace. */
    method IsReferenced(k: Key, o: SourceObject) returns (referenced: bool)
      requires Valid() && key == k && PcOf(Now(), k) == NsRef(o)
      modifies this
      ensures Valid() && key == old(key) && origin == old(origin)
      ensures PcOf(Now(), k) == (if referenced then NsFin(o) else Idle) && Typed(k, o.spec)
      ensures referenced == InUseBetween(cfg, old(Now()), Before(), k, o.spec)
      ensures quiet ==> Now() == PassStep(cfg, old(Now()), k, env) && env == old(env).(wanted := referenced)
      ensures quiet ==> referenced == InUse(cfg, old(Now()), k, o.spec)
    {
      hide Inv, PassStep, InUse, Effect, NextPc, BranchPc, WantedCached, WantedLive;
      ReadIsTyped(Now(), k);
      referenced := QueryWanted(k, o.spec);
      env := env.(wanted := referenced);
      DecidedNext(cfg, Now(), k, NsRef(o), env);
      Called(k, Now());
    }

    // ---------- Reads of the target cluster ----------

    /** The live list by label. */
    method ListByLabel(uid: Uid) returns (r: Single)
      ensures r == ListSingle(Now(), uid)
    {
      var matches := set t | t in namespaces && namespaces[t].sourceUid == uid;
      assert matches == Labelled(Now(), uid);
      if |matches| == 0 {
        return NotFound;
      } else if |matches| == 1 {
        var t :| t in matches;
        SingleMatch(Now(), uid, t);
        return if namespaces[t].owner == uid then One(t) else Rejected;
      }
      forall t | t in matches {
        SingleMatch(Now(), uid, t);
      }
      return Rejected;
    }

    method BrokerControlledListSingle(k: Key, uid: Uid) returns (r: Single)
      requires Valid() && key == k
      requires var pc := PcOf(Now(), k);
               if pc.DelList? || pc.RecList? then uid == pc.nsUid else (pc.NsDelList? || pc.NsList?) && uid == pc.o.uid
      modifies this
      ensures Stepped(k)
      ensures PcOf(Now(), k) == AfterList(cfg, k, old(PcOf(Now(), k)), r)
      ensures r == ListSingle(old(Now()), uid)
    {
      hide Inv, Effect, NextPc, ListSingle;
      r := ListByLabel(uid);
      ListsReadOnly(cfg, Now(), k, PcOf(Now(), k), env);
      ListNext(cfg, Now(), k, PcOf(Now(), k), uid, env);
      Called(k, Now());
    }

    /** A read from the target cache, which returns what there is, or any earlier version, or nothing. */
    method ReadCachedTarget(tk: TargetKey) returns (x: Option<TargetObject>)
      ensures x == ReadTarget(Now(), env, tk)
    {
      var versions := if tk in past then past[tk] else {};
      if tk in env.stale && (env.stale[tk].Some? ==> env.stale[tk].value in versions) {
        return env.stale[tk];
      }
      return if tk in targets then Some(targets[tk]) else None;
    }

    /** The target of one peer, by way of the target namespace of its namespace. */
    method Target(d: Key) returns (a: Answer)
      ensures a == TargetLookup(cfg, Now(), env, d)
    {
      hide ListSingle, ReadTarget;
      var o := if d in views && views[d] != [] then views[d][0] else None;
      if o.None? || d.NsKey? {
        return Missing;
      }
      if d.kind == Machine && !(o.value.spec.MachineObjSpec? && InPool(o.value.spec.machine, cfg.pool)) {
        return Error;
      }
      var nk := NamespaceOf(d);
      var n := if nk in views && views[nk] != [] then views[nk][0] else None;
      if n.None? {
        return Missing;
      }
      var r := ListByLabel(n.value.uid);
      match r {
        case NotFound => return Missing;
        case Rejected => return Error;
        case One(t) =>
          var x := ReadCachedTarget(TargetKeyOf(d, t));
          return if x.None? then Missing else Hit(UidRef(d.name, x.value.uid));
      }
    }

    method LookupPeer(k: Key, d: Key) returns (a: Answer)
      requires Valid() && key == k && PcOf(Now(), k).Lookup? && PcOf(Now(), k).rest != [] && PcOf(Now(), k).rest[0] == d
      modifies this
      ensures Stepped(k)
      ensures a == TargetLookup(cfg, old(Now()), env, d)
      ensures var Lookup(o, t, rest, found) := old(PcOf(Now(), k));
              PcOf(Now(), k) == if a.Error? then Idle else Lookup(o, t, rest[1..], Noted(found, rest[0], a))
    {
      hide Inv, TargetLookup;
      a := Target(d);
      Called(k, Now());
    }

    method GetTarget(k: Key, t: TargetNs) returns (x: Option<TargetObject>)
      requires Valid() && key == k && k.ObjKey? && PcOf(Now(), k).Fetch? && PcOf(Now(), k).t == t
      modifies this
      ensures Stepped(k)
      ensures PcOf(Now(), k) == Write(old(PcOf(Now(), k)).o, t, old(PcOf(Now(), k)).found, x)
      ensures x == ReadTarget(old(Now()), env, TargetKeyOf(k, t))
    {
      hide Inv, WriteTarget, ReadTarget;
      x := ReadCachedTarget(TargetKeyOf(k, t));
      Called(k, Now());
    }

    // ---------- Writes ----------

    method PutObject(tk: TargetKey, x: TargetObject)
      modifies this`targets, this`past
      ensures Now() == PutTarget(old(Now()), tk, x)
    {
      past := past[tk := (if tk in past then past[tk] else {}) + {x}];
      targets := targets[tk := x];
    }

    method DeleteIfExists(k: Key, t: TargetNs) returns (existed: bool)
      requires Valid() && key == k && k.ObjKey? && PcOf(Now(), k).DelIssue? && PcOf(Now(), k).t == t
      modifies this
      ensures Stepped(k)
      ensures PcOf(Now(), k) == if existed then Idle else DelFin(old(PcOf(Now(), k)).o)
      ensures existed <==> TargetKeyOf(k, t) in old(targets)
    {
      hide Inv, WriteTarget, PutTarget;
      ghost var before := Now();
      var tk := TargetKeyOf(k, t);
      existed := tk in targets;
      if existed && env.vanish {
        targets := targets - {tk};
      } else if existed {
        PutObject(tk, targets[tk].(deleting := true));
      }
      Called(k, before);
    }

    /** The patch that sets or takes off the finalizer, on the object as it is. */
    method PatchFinalizer(k: Key, fin: bool)
      modifies this`views
      ensures Now() == if fin then AddFinalizer(old(Now()), k) else RemoveFinalizer(old(Now()), k)
    {
      if k in views && views[k] != [] {
        var live := views[k][|views[k]| - 1];
        if live.Some? && !(fin && live.value.deleting) {
          views := views[k := [Some(live.value.(fin := fin))]];
        }
      }
    }

    method PatchRemoveFinalizer(k: Key)
      requires Valid() && key == k && PcOf(Now(), k).DelFin?
      modifies this
      ensures Stepped(k)
      ensures PcOf(Now(), k).Idle?
    {
      hide Inv, Effect, NextPc, RemoveFinalizer, AddFinalizer;
      ghost var before := Now();
      PatchFinalizer(k, false);
      ReleaseNext(cfg, before, k, PcOf(before, k), env);
      Called(k, before);
    }

    /** Modified, or failed to: in either case the pass ends here. */
    method PatchEnsureFinalizer(k: Key, o: SourceObject) returns (modified: bool)
      requires Valid() && key == k
      requires var pc := PcOf(Now(), k); (pc.VolumeFin? || pc.RecFin? || pc.NsKeep? || pc.NsFin?) && pc.o == o
      modifies this
      ensures Stepped(k)
      ensures PcOf(Now(), k) == AfterEnsure(cfg, k, old(PcOf(Now(), k)))
      ensures modified == !o.fin
    {
      hide Inv, Effect, NextPc, RemoveFinalizer, AddFinalizer;
      ghost var before := Now();
      modified := !o.fin;
      if modified {
        PatchFinalizer(k, true);
      }
      EnsureNext(cfg, before, k, PcOf(before, k), env);
      Called(k, before);
    }

    /** The write half of the create-or-patch: mutate what was read, or the empty object, then patch or create. */
    method Store(k: Key, o: SourceObject, t: TargetNs, found: Found, current: Option<TargetObject>, uid: Uid)
      requires k.ObjKey? && Typed(k, o.spec)
      requires current.Some? ==> TargetTyped(k.kind, current.value.spec)
      modifies this`targets, this`past
      ensures Now() == WriteTarget(cfg, old(Now()), k, o, t, found, current, uid)
    {
      hide Apply, Partial, Fails, MergePatch, PutTarget;
      var tk := TargetKeyOf(k, t);
      match current {
        case None =>
          var r := Render(cfg, k, o.spec, found, true, ZeroTarget(k.kind));
          if r.Success? && t in namespaces && !namespaces[t].deleting && tk !in targets {
            PutObject(tk, TargetObject(Some(o.uid), uid, false, r.value));
          }
        case Some(x) =>
          if x.owner == Some(o.uid) {
            var r := Render(cfg, k, o.spec, found, false, x.spec);
            if r.Success? && tk in targets {
              PutObject(tk, targets[tk].(spec := MergePatch(x.spec, r.value, targets[tk].spec)));
            }
          }
      }
    }

    method CreateOrPatch(k: Key, o: SourceObject, t: TargetNs, found: Found, current: Option<TargetObject>)
      requires Valid() && key == k && k.ObjKey? && PcOf(Now(), k) == Write(o, t, found, current)
      modifies this
      ensures Stepped(k)
      ensures PcOf(Now(), k).Idle?
    {
      hide WriteTarget, Inv, Effect, NextPc;
      ghost var before := Now();
      WriteIsTyped(before, k);
      Store(k, o, t, found, current, env.uid);
      WriteNext(cfg, before, k, PcOf(before, k), env);
      Called(k, before);
    }

    method DeleteTargetNamespace(k: Key, t: TargetNs) returns (existed: bool)
      requires Valid() && key == k && PcOf(Now(), k).NsDelIssue? && PcOf(Now(), k).t == t
      modifies this
      ensures Stepped(k)
      ensures PcOf(Now(), k) == if existed then Idle else DelFin(old(PcOf(Now(), k)).o)
      ensures existed <==> t in old(namespaces)
    {
      hide Inv, Effect, NextPc;
      ghost var before := Now();
      existed := t in namespaces;
      if existed {
        namespaces := namespaces[t := namespaces[t].(deleting := true)];
      }
      MarkNext(cfg, before, k, PcOf(before, k), env);
      Called(k, before);
    }

    method GenerateTargetNamespace(k: Key, o: SourceObject)
      requires Valid() && key == k && k.NsKey? && PcOf(Now(), k) == NsCreate(o)
      modifies this
      ensures Stepped(k)
      ensures PcOf(Now(), k).Idle?
    {
      hide Inv, WriteTarget;
      ghost var before := Now();
      if env.generated !in issued {
        namespaces := namespaces[env.generated := TargetNamespace(o.uid, o.uid, k.name, false)];
        issued := issued[env.generated := k.name];
      }
      Called(k, before);
    }

    // ---------- Passes on objects ----------

    /** In a quiet run the pass stands at `pc` and has done to the clusters what led to `s0`. */
    ghost predicate QuietAt(s0: State, k: Key, pc: Pc)
      reads this
    {
      quiet ==> k !in s0.pcs && Now() == Goto(s0, k, pc)
    }

    method TargetNamespaceOf(k: Key, o: SourceObject, deleting: bool, ghost s0: State) returns (r: Single)
      requires Valid() && key == k && k.ObjKey?
      requires PcOf(Now(), k) == (if deleting then DelNs(o) else RecNs(o)) && QuietAt(s0, k, PcOf(Now(), k))
      modifies this
      ensures Kept()
      ensures PcOf(Now(), k) == AfterLookup(cfg, k, o, deleting, r) && QuietAt(s0, k, PcOf(Now(), k))
      ensures quiet ==> r == TargetNamespaceFor(s0, k)
    {
      hide Valid, Inv, Effect, NextPc, PassStep, Goto, PcOf, ListSingle, TargetAt;
      var n := GetNamespace(k);
      if quiet {
        ReadStep(cfg, s0, k, if deleting then DelNs(o) else RecNs(o), env);
      }
      if n.None? {
        return Rejected;
      }
      Interfere(k);
      r := BrokerControlledListSingle(k, n.value.uid);
      if quiet {
        ReadStep(cfg, s0, k, if deleting then DelList(o, n.value.uid) else RecList(o, n.value.uid), env);
      }
    }

    method DeleteObjectTarget(k: Key, o: SourceObject, ghost s0: State)
      requires Valid() && key == k
      requires k.ObjKey? && PcOf(Now(), k) == DeletePc(k, o) && QuietAt(s0, k, DeletePc(k, o))
      modifies this
      ensures Kept() && PcOf(Now(), k).Idle?
      ensures quiet ==> Now() == if o.fin then DeleteObject(s0, k, env) else s0
    {
      hide Valid, Inv, Effect, NextPc, PassStep, Goto, PcOf, ListSingle, Cached, RemoveFinalizer, DeleteTarget;
      if !o.fin {
        if quiet {
          GotoIdle(s0, k);
        }
        return;
      }
      Interfere(k);
      var r := TargetNamespaceOf(k, o, true, s0);
      if quiet {
        GotoIdle(s0, k);
      }
      match r {
        case Rejected => return;
        case NotFound =>
          if k.kind != Volume {
            return;
          }
        case One(t) =>
          Interfere(k);
          var existed := DeleteIfExists(k, t);
          if quiet {
            DeleteIssueStep(cfg, s0, k, o, t, env);
          }
          if existed {
            return;
          }
      }
      Interfere(k);
      PatchRemoveFinalizer(k);
      if quiet {
        ReleaseStep(cfg, s0, k, o, env);
      }
    }

    /** The target lookups of a round, one after the other; none is made after one has failed. */
    method LookupPeers(k: Key, o: SourceObject, t: TargetNs, ghost s0: State) returns (found: Option<Found>)
      requires Valid() && key == k && k.ObjKey?
      requires PcOf(Now(), k) == FirstLookup(cfg, k, o, t) && QuietAt(s0, k, FirstLookup(cfg, k, o, t))
      modifies this
      ensures Kept()
      ensures PcOf(Now(), k) == (if found.None? then Idle else Fetch(o, t, found.value)) && QuietAt(s0, k, PcOf(Now(), k))
      ensures quiet ==> found == LookupAll(cfg, s0, env, LookupOrder(cfg, k, o.spec), map[])
    {
      hide Valid, Inv, Effect, PassStep, Goto, PcOf, ListSingle, Cached, TargetLookup, LookupOrder;
      var order, answers: Found := LookupOrder(cfg, k, o.spec), map[];
      var i := 0;
      assert order[0..] == order;
      while i < |order|
        invariant 0 <= i <= |order| && Kept()
        invariant PcOf(Now(), k) == Lookup(o, t, order[i..], answers) && QuietAt(s0, k, Lookup(o, t, order[i..], answers))
        invariant quiet ==> LookupAll(cfg, s0, env, order, map[]) == LookupAll(cfg, s0, env, order[i..], answers)
      {
        Interfere(k);
        var a := LookupPeer(k, order[i]);
        if quiet {
          ReadStep(cfg, s0, k, Lookup(o, t, order[i..], answers), env);
          LookupCommutes(cfg, s0, k, env, Lookup(o, t, order[i..], answers), order[i]);
        }
        if a.Error? {
          return None;
        }
        assert order[i..][1..] == order[i + 1..];
        answers := Noted(answers, order[i], a);
        i := i + 1;
      }
      assert order[i..] == [];
      Decided(k);
      if quiet {
        ReadStep(cfg, s0, k, Lookup(o, t, [], answers), env);
      }
      return Some(answers);
    }

    method ApplyTarget(k: Key, o: SourceObject, t: TargetNs, ghost s0: State)
      requires Valid() && key == k
      requires k.ObjKey? && PcOf(Now(), k) == FirstLookup(cfg, k, o, t) && QuietAt(s0, k, FirstLookup(cfg, k, o, t))
      modifies this
      ensures Kept() && PcOf(Now(), k).Idle?
      ensures quiet ==> Now() == ApplyRound(cfg, s0, k, o, t, env, LookupOrder(cfg, k, o.spec), map[])
    {
      hide Valid, Inv, Effect, NextPc, PassStep, Goto, PcOf, ListSingle, Cached, WriteTarget, LookupOrder, ReadTarget;
      var found := LookupPeers(k, o, t, s0);
      if quiet {
        GotoIdle(s0, k);
        RoundOf(cfg, s0, k, o, t, env, found);
      }
      if found.None? {
        return;
      }
      Interfere(k);
      var current := GetTarget(k, t);
      if quiet {
        ReadStep(cfg, s0, k, Fetch(o, t, found.value), env);
      }
      Interfere(k);
      CreateOrPatch(k, o, t, found.value, current);
      if quiet {
        WriteStep(cfg, s0, k, o, t, found.value, current, env);
      }
    }

    method ReconcileResolved(k: Key, o: SourceObject, t: TargetNs, ghost s0: State)
      requires Valid() && key == k && k.ObjKey? && k.kind != Volume
      requires PcOf(Now(), k) == RecFin(o, t) && QuietAt(s0, k, RecFin(o, t))
      modifies this
      ensures Kept() && PcOf(Now(), k).Idle?
      ensures quiet ==> Now() == if !o.fin then AddFinalizer(s0, k)
                                 else ApplyRound(cfg, s0, k, o, t, env, LookupOrder(cfg, k, o.spec), map[])
    {
      hide Valid, Inv, Effect, NextPc, PassStep, Goto, PcOf, ListSingle, TargetAt, Cached, AddFinalizer, WriteTarget,
        LookupOrder, ApplyRound;
      Interfere(k);
      var modified := PatchEnsureFinalizer(k, o);
      if quiet {
        EnsureStep(cfg, s0, k, RecFin(o, t), env);
      }
      if modified {
        return;
      }
      ApplyTarget(k, o, t, s0);
    }

    method ReconcileTarget(k: Key, o: SourceObject, ghost s0: State)
      requires Valid() && key == k
      requires k.ObjKey? && PcOf(Now(), k) == ReconcilePc(k, o) && QuietAt(s0, k, ReconcilePc(k, o))
      modifies this
      ensures Kept() && PcOf(Now(), k).Idle?
      ensures quiet ==> Now() == ReconcileObject(cfg, s0, k, o, env)
    {
      hide Valid, Inv, Effect, NextPc, PassStep, Goto, PcOf, ListSingle, TargetAt, Cached, AddFinalizer, WriteTarget,
        LookupOrder, ApplyRound;
      if k.kind == Volume {
        Interfere(k);
        var modified := PatchEnsureFinalizer(k, o);
        if quiet {
          EnsureStep(cfg, s0, k, VolumeFin(o), env);
        }
        if modified {
          return;
        }
      }
      Interfere(k);
      var r := TargetNamespaceOf(k, o, false, s0);
      if quiet {
        GotoIdle(s0, k);
      }
      match r {
        case One(t) =>
          if k.kind == Volume {
            ApplyTarget(k, o, t, s0);
          } else {
            ReconcileResolved(k, o, t, s0);
          }
        case _ =>
      }
    }

    /** Machines are not queried for usage: their pool decides. */
    method ReconcileMachine(k: Key, o: SourceObject, ghost s0: State)
      requires Valid() && key == k
      requires k.ObjKey? && k.kind == Machine && PcOf(Now(), k) == Got(o) && QuietAt(s0, k, Got(o))
      modifies this
      ensures Kept() && PcOf(Now(), k).Idle?
      ensures quiet ==> Now() == ObjectPass(cfg, s0, k, o, env)
    {
      hide Valid, Inv, Effect, PassStep, Goto, PcOf, ListSingle, TargetAt, Cached, ReconcileObject, DeleteObject;
      Decided(k);
      if quiet {
        ReadStep(cfg, s0, k, Got(o), env);
      }
      if !o.spec.MachineObjSpec? || !InPool(o.spec.machine, cfg.pool) {
        return;
      }
      if o.deleting {
        DeleteObjectTarget(k, o, s0);
      } else {
        ReconcileTarget(k, o, s0);
      }
    }

    /** All other kinds: deleted, or not in use, or to be reconciled. */
    method ReconcileDependent(k: Key, o: SourceObject, ghost s0: State)
      requires Valid() && key == k
      requires k.ObjKey? && k.kind != Machine && PcOf(Now(), k) == Got(o) && QuietAt(s0, k, Got(o))
      modifies this
      ensures Valid() && key == old(key) && origin == old(origin) && PcOf(Now(), k).Idle?
      ensures quiet ==> Now() == ObjectPass(cfg, s0, k, o, env) && env == old(env).(wanted := env.wanted)
      ensures Typed(k, o.spec) && (quiet && !o.deleting ==> env.wanted == InUse(cfg, s0, k, o.spec))
    {
      hide Inv, Effect, PassStep, Goto, PcOf, ListSingle, TargetAt, Cached, ReconcileObject, DeleteObject, InUse, Run,
        CallsOn;
      ReadIsTyped(Now(), k);
      if o.deleting {
        Decided(k);
        if quiet {
          ReadStep(cfg, s0, k, Got(o), env);
        }
        DeleteObjectTarget(k, o, s0);
        return;
      }
      var wanted := IsWanted(k, o);
      if quiet {
        ReadStep(cfg, s0, k, Got(o), env);
        InUseCommutes(cfg, s0, k, Got(o), o.spec);
      }
      if wanted {
        ReconcileTarget(k, o, s0);
      } else {
        DeleteObjectTarget(k, o, s0);
      }
    }

    // ---------- Passes on namespaces ----------

    method DeleteNamespaceTarget(k: Key, o: SourceObject, ghost s0: State)
      requires Valid() && key == k
      requires k.NsKey? && PcOf(Now(), k) == DeletePc(k, o) && QuietAt(s0, k, DeletePc(k, o))
      modifies this
      ensures Kept() && PcOf(Now(), k).Idle?
      ensures quiet && Inv(s0) ==> Now() == if o.fin then DeleteNamespace(s0, k, o) else s0
    {
      hide Valid, Inv, Effect, NextPc, PassStep, Goto, PcOf, ListSingle, TargetAt, Cached, RemoveFinalizer,
        MarkNamespace;
      if !o.fin {
        if quiet {
          GotoIdle(s0, k);
        }
        return;
      }
      Interfere(k);
      var r := BrokerControlledListSingle(k, o.uid);
      if quiet {
        ReadStep(cfg, s0, k, NsDelList(o), env);
      }
      match r {
        case Rejected => return;
        case NotFound =>
        case One(t) =>
          Interfere(k);
          var existed := DeleteTargetNamespace(k, t);
          if quiet && Inv(s0) {
            ListSingleExact(s0, o.uid);
            MarkStep(cfg, s0, k, o, t, env);
          }
          if existed {
            return;
          }
      }
      Interfere(k);
      PatchRemoveFinalizer(k);
      if quiet {
        ReleaseStep(cfg, s0, k, o, env);
      }
    }

    method GenerateTarget(k: Key, o: SourceObject, ghost s0: State)
      requires Valid() && key == k && k.NsKey? && PcOf(Now(), k) == NsFin(o) && QuietAt(s0, k, NsFin(o))
      modifies this
      ensures Kept() && PcOf(Now(), k).Idle?
      ensures quiet ==> Now() == if o.fin then CreateNamespace(s0, k, o, env.generated) else AddFinalizer(s0, k)
    {
      hide Valid, Inv, Effect, NextPc, PassStep, Goto, PcOf, ListSingle, TargetAt, Cached, AddFinalizer,
        CreateNamespace;
      Interfere(k);
      var modified := PatchEnsureFinalizer(k, o);
      if quiet {
        EnsureStep(cfg, s0, k, NsFin(o), env);
      }
      if modified {
        return;
      }
      Interfere(k);
      GenerateTargetNamespace(k, o);
      if quiet {
        GenerateStep(cfg, s0, k, o, env);
      }
    }

    method CreateNamespaceTarget(k: Key, o: SourceObject, ghost s0: State)
      requires Valid() && key == k && k.NsKey? && PcOf(Now(), k) == NsRef(o) && QuietAt(s0, k, NsRef(o))
      modifies this
      ensures Valid() && key == old(key) && origin == old(origin) && PcOf(Now(), k).Idle?
      ensures quiet ==> Now() == if !env.wanted then s0 else if o.fin then CreateNamespace(s0, k, o, env.generated)
                                 else AddFinalizer(s0, k)
      ensures quiet ==> env == old(env).(wanted := env.wanted)
      ensures Typed(k, o.spec) && (quiet ==> env.wanted == InUse(cfg, s0, k, o.spec))
    {
      hide Inv, Effect, NextPc, PassStep, Goto, PcOf, ListSingle, TargetAt, Cached, AddFinalizer, CreateNamespace,
        InUse, Run, CallsOn;
      Interfere(k);
      var referenced := IsReferenced(k, o);
      if quiet {
        ReadStep(cfg, s0, k, NsRef(o), env);
        InUseCommutes(cfg, s0, k, NsRef(o), o.spec);
      }
      if referenced {
        GenerateTarget(k, o, s0);
      }
    }

    method ReconcileNamespaceTarget(k: Key, o: SourceObject, ghost s0: State)
      requires Valid() && key == k && k.NsKey? && PcOf(Now(), k) == NsList(o) && QuietAt(s0, k, NsList(o))
      modifies this
      ensures Valid() && key == old(key) && origin == old(origin) && PcOf(Now(), k).Idle?
      ensures quiet ==> Now() == ReconcileNamespace(s0, k, o, env) && env == old(env).(wanted := env.wanted)
      ensures quiet && ListSingle(s0, o.uid).NotFound? ==> Typed(k, o.spec) && env.wanted == InUse(cfg, s0, k, o.spec)
    {
      hide Inv, Effect, NextPc, PassStep, Goto, PcOf, ListSingle, TargetAt, Cached, AddFinalizer, CreateNamespace,
        InUse, Run, CallsOn;
      Interfere(k);
      var r := BrokerControlledListSingle(k, o.uid);
      if quiet {
        ReadStep(cfg, s0, k, NsList(o), env);
      }
      match r {
        case Rejected => return;
        case NotFound => CreateNamespaceTarget(k, o, s0);
        case One(_) =>
          Interfere(k);
          var modified := PatchEnsureFinalizer(k, o);
          if quiet {
            EnsureStep(cfg, s0, k, NsKeep(o), env);
          }
      }
    }

    method ReconcileNamespaceKey(k: Key, o: SourceObject, ghost s0: State)
      requires Valid() && key == k && k.NsKey? && PcOf(Now(), k) == Got(o) && QuietAt(s0, k, Got(o))
      modifies this
      ensures Valid() && key == old(key) && origin == old(origin) && PcOf(Now(), k).Idle?
      ensures quiet && Inv(s0) ==> Now() == NamespacePass(s0, k, o, env)
      ensures quiet ==> env == old(env).(wanted := env.wanted)
      ensures quiet && !o.deleting && ListSingle(s0, o.uid).NotFound? ==>
                Typed(k, o.spec) && env.wanted == InUse(cfg, s0, k, o.spec)
    {
      hide Inv, Effect, PassStep, Goto, PcOf, ListSingle, TargetAt, Cached, ReconcileNamespace, DeleteNamespace,
        InUse, Run, CallsOn;
      Decided(k);
      if quiet {
        ReadStep(cfg, s0, k, Got(o), env);
      }
      if o.deleting {
        DeleteNamespaceTarget(k, o, s0);
      } else {
        ReconcileNamespaceTarget(k, o, s0);
      }
    }

    // ---------- Reconcile ----------

    /**
      One pass on a key.  It is a run of the protocol in which the only calls on the key are those of the
      program; without interference it does to the clusters exactly what `FullPass` says, for the answer
      that the queries give on the state it began in.
     */
    method Reconcile(k: Key)
      requires Valid() && k !in pcs
      modifies this
      ensures Valid() && PcOf(Now(), k).Idle? && origin == old(history) && key == k
      ensures quiet ==> Now() == FullPass(cfg, old(Now()), k, env) && env == old(env).(wanted := env.wanted)
      ensures quiet && Queries(old(Now()), k) ==>
                var spec := Cached(old(Now()), k).value.spec;
                Typed(k, spec) && env.wanted == InUse(cfg, old(Now()), k, spec)
    {
      hide Inv, Effect, ListSingle, PassStep, ObjectPass, NamespacePass, Run, InUse;
      ghost var s0 := Now();
      origin, key, calls := history, k, [];
      assert history[|origin|..] == [];
      var o := Get(k);
      GotoIdle(s0, k);
      ReadStep(cfg, s0, k, Idle, env);
      if o.None? {
        return;
      }
      Interfere(k);
      if k.NsKey? {
        ReconcileNamespaceKey(k, o.value, s0);
      } else if k.kind == Machine {
        ReconcileMachine(k, o.value, s0);
      } else {
        ReconcileDependent(k, o.value, s0);
      }
    }
  }

  /** So what is proved of every reachable state holds before, between and after all calls. */
  lemma ValidIsReachable(b: Broker)
    requires b.Valid()
    ensures Reachable(b.cfg, b.Now())
  {
    assert Run(b.cfg, INIT, b.history) == b.Now();
  }
}
