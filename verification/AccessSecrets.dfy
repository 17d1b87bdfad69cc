/**
  The access secret of a volume: a copy of the secret that gives access to the target volume,
  found again by a label that carries the volume's uid.  A pass lists and then writes; anything
  may happen in between, passes on other volumes included.
 */
module AccessSecrets {
  import opened Wrappers
  import opened Objects

  /** A volume as it was read: its key and its uid. */
  datatype VolumeId = VolumeId(ns: string, name: string, uid: Uid) {
    function Key(): (string, string) {
      (ns, name)
    }
  }

  datatype SecretName = SecretName(ns: string, name: string)

  /** `volume` is the value of the access label, `controller` the uid in the controller reference. */
  datatype AccessSecret = AccessSecret(volume: Option<Uid>, controller: Option<Uid>, data: int)

  /** What the target volume says about access; the data is that of the target's access secret. */
  datatype TargetAccess = NoAccess | NoSecretRef | WithSecret(data: int)

  /** Where a pass stands: which call it makes next, and what it has read. */
  datatype Pc =
    | Prune(v: VolumeId)
    | PruneDelete(v: VolumeId, secret: SecretName)
    | Generate(v: VolumeId, data: int)
    | Create(v: VolumeId, data: int)
    | Patch(v: VolumeId, secret: SecretName, read: AccessSecret, data: int)

  datatype State = State(
    secrets: map<SecretName, AccessSecret>,
    pcs: map<(string, string), Pc>,
    born: map<Uid, (string, string)>, // the volumes there have ever been
    issued: set<SecretName>)          // the secrets there have ever been

  const INIT := State(map[], map[], map[], {})

  // ---------- The calls of a pass ----------

  function Labelled(s: State, v: VolumeId): set<SecretName> {
    set n | n in s.secrets && n.ns == v.ns && s.secrets[n].volume == Some(v.uid)
  }

  datatype Single = NotFound | One(secret: SecretName) | Rejected

  /** The live list by namespace and label, then the check of the controller reference. */
  ghost function ListSingle(s: State, v: VolumeId): Single {
    var matches := Labelled(s, v);
    if matches == {} then NotFound
    else if n :| matches == {n} then
      if s.secrets[n].controller == Some(v.uid) then One(n) else Rejected
    else Rejected
  }

  function Leave(s: State, k: (string, string)): State {
    s.(pcs := s.pcs - {k})
  }

  function Put(s: State, n: SecretName, a: AccessSecret): State {
    s.(secrets := s.secrets[n := a], issued := s.issued + {n})
  }

  /** The mutation sets the label and the data; a patch carries only what differs from what was read. */
  function Patched(read: AccessSecret, now: AccessSecret, v: VolumeId, data: int): AccessSecret {
    AccessSecret(
      if read.volume == Some(v.uid) then now.volume else Some(v.uid),
      now.controller,
      if read.data == data then now.data else data)
  }

  /** The next call of the pass on `k`; a generated name is one that has never been used. */
  ghost function PassStep(s: State, k: (string, string), generated: string): State {
    if k !in s.pcs then s
    else match s.pcs[k]
      case Prune(v) =>
        (match ListSingle(s, v)
         case One(n) => s.(pcs := s.pcs[k := PruneDelete(v, n)])
         case _ => Leave(s, k))
      case PruneDelete(v, n) => Leave(s.(secrets := s.secrets - {n}), k)
      case Generate(v, data) =>
        (match ListSingle(s, v)
         case NotFound => s.(pcs := s.pcs[k := Create(v, data)])
         case One(n) => s.(pcs := s.pcs[k := Patch(v, n, s.secrets[n], data)])
         case Rejected => Leave(s, k))
      case Create(v, data) =>
        var n := SecretName(v.ns, generated);
        if n in s.issued then Leave(s, k)
        else Leave(Put(s, n, AccessSecret(Some(v.uid), Some(v.uid), data)), k)
      case Patch(v, n, read, data) =>
        if n !in s.secrets then Leave(s, k)
        else Leave(Put(s, n, Patched(read, s.secrets[n], v, data)), k)
  }

  /** The secret named in the access that the pass returns, if its write succeeds. */
  function Returned(s: State, k: (string, string), generated: string): Option<SecretName> {
    if k !in s.pcs then None
    else match s.pcs[k]
      case Create(v, _) => if SecretName(v.ns, generated) in s.issued then None else Some(SecretName(v.ns, generated))
      case Patch(_, n, _, _) => if n in s.secrets then Some(n) else None
      case _ => None
  }

  datatype Action =
    | Start(v: VolumeId, access: TargetAccess)
    | Step(k: (string, string), generated: string)
    | Fail(k: (string, string))
    // everybody else: nobody writes the broker's label, and no name is used twice
    | Remove(n: SecretName)
    | Edit(n: SecretName, data: int)
    | Foreign(n: SecretName, controller: Option<Uid>, data: int)

  /** A uid belongs to one volume for good, and passes on one volume do not overlap. */
  ghost function Next(s: State, a: Action): State {
    match a
    case Start(v, access) =>
      if v.Key() in s.pcs || (v.uid in s.born && s.born[v.uid] != v.Key()) then s
      else s.(
        born := s.born[v.uid := v.Key()],
        pcs := s.pcs[v.Key() := if access.WithSecret? then Generate(v, access.data) else Prune(v)])
    case Step(k, generated) => PassStep(s, k, generated)
    case Fail(k) => Leave(s, k)
    case Remove(n) => s.(secrets := s.secrets - {n})
    case Edit(n, data) => if n in s.secrets then Put(s, n, s.secrets[n].(data := data)) else s
    case Foreign(n, controller, data) =>
      if n in s.issued then s else Put(s, n, AccessSecret(None, controller, data))
  }

  ghost function Run(s: State, actions: seq<Action>): State {
    if actions == [] then s else Next(Run(s, actions[..|actions| - 1]), actions[|actions| - 1])
  }

  // ---------- The invariant ----------

  ghost predicate AtMostOne(s: State) {
    forall n, n' :: n in s.secrets && n' in s.secrets ==>
      s.secrets[n].volume.Some? && s.secrets[n].volume == s.secrets[n'].volume ==> n == n'
  }

  ghost predicate NoneFor(s: State, uid: Uid) {
    forall n :: n in s.secrets ==> s.secrets[n].volume != Some(uid)
  }

  ghost predicate PcOk(s: State, k: (string, string), pc: Pc) {
    && pc.v.Key() == k && pc.v.uid in s.born && s.born[pc.v.uid] == k
    && (pc.Create? ==> NoneFor(s, pc.v.uid))
    && (pc.Patch? ==>
          && pc.secret in s.issued && pc.secret.ns == pc.v.ns && pc.read.volume == Some(pc.v.uid)
          && (pc.secret in s.secrets ==>
                s.secrets[pc.secret].volume == Some(pc.v.uid) && s.secrets[pc.secret].controller == Some(pc.v.uid)))
  }

  /** Every labelled secret is controlled by the volume of that uid and lies in its namespace. */
  ghost predicate LabelOk(s: State, n: SecretName)
    requires n in s.secrets
  {
    s.secrets[n].volume.Some? ==>
      var uid := s.secrets[n].volume.value;
      s.secrets[n].controller == Some(uid) && uid in s.born && s.born[uid].0 == n.ns
  }

  ghost predicate Inv(s: State) {
    && (forall n :: n in s.secrets ==> n in s.issued && LabelOk(s, n))
    && AtMostOne(s)
    && (forall k :: k in s.pcs ==> PcOk(s, k, s.pcs[k]))
  }

  ghost predicate HasLabel(s: State, v: VolumeId, n: SecretName) {
    n in s.secrets && n.ns == v.ns && s.secrets[n].volume == Some(v.uid)
  }

  /** In any state: what is found is the only secret of that label in the namespace, controlled by the volume. */
  lemma ListSingleRejects(s: State, v: VolumeId, n: SecretName)
    ensures ListSingle(s, v) == One(n) <==>
            HasLabel(s, v, n) && s.secrets[n].controller == Some(v.uid) && forall n' :: HasLabel(s, v, n') ==> n' == n
  {
    var matches := Labelled(s, v);
    assert forall x :: x in matches <==> HasLabel(s, v, x);
    if HasLabel(s, v, n) && forall n' :: HasLabel(s, v, n') ==> n' == n {
      assert matches == {n};
    }
  }

  /** The list by namespace and label finds every secret that carries the label, and no two. */
  lemma ListSingleExact(s: State, v: VolumeId)
    requires Inv(s) && v.uid in s.born && s.born[v.uid] == v.Key()
    ensures match ListSingle(s, v)
            case NotFound => NoneFor(s, v.uid)
            case One(n) => n in s.secrets && s.secrets[n].volume == Some(v.uid) && n.ns == v.ns
            case Rejected => false
  {
    var matches := Labelled(s, v);
    if matches == {} {
      forall n | n in s.secrets
        ensures s.secrets[n].volume != Some(v.uid)
      {
        assert LabelOk(s, n) && n !in matches;
      }
    } else {
      var n :| n in matches;
      assert LabelOk(s, n);
      assert matches == {n};
    }
  }

  lemma CreateKeeps(s: State, k: (string, string), generated: string)
    requires Inv(s) && k in s.pcs && s.pcs[k].Create?
    ensures Inv(PassStep(s, k, generated))
  {
    var Create(v, data) := s.pcs[k];
    assert PcOk(s, k, s.pcs[k]);
    var n := SecretName(v.ns, generated);
    var s' := PassStep(s, k, generated);
    if n !in s.issued {
      forall j | j in s'.pcs
        ensures PcOk(s', j, s'.pcs[j])
      {
        assert PcOk(s, j, s.pcs[j]);
      }
      forall x | x in s'.secrets
        ensures x in s'.issued && LabelOk(s', x)
      {
        if x != n {
          assert LabelOk(s, x);
        }
      }
    }
  }

  lemma StepKeeps(s: State, k: (string, string), generated: string)
    requires Inv(s)
    ensures Inv(PassStep(s, k, generated))
  {
    if k in s.pcs {
      assert PcOk(s, k, s.pcs[k]);
      match s.pcs[k]
      case Prune(v) => ListSingleExact(s, v);
      case Generate(v, _) =>
        ListSingleExact(s, v);
        if ListSingle(s, v).One? {
          assert LabelOk(s, ListSingle(s, v).secret);
        }
      case Create(v, data) => CreateKeeps(s, k, generated);
      case _ =>
    }
  }

  lemma NextKeeps(s: State, a: Action)
    requires Inv(s)
    ensures Inv(Next(s, a))
  {
    var s' := Next(s, a);
    if a.Step? {
      StepKeeps(s, a.k, a.generated);
    } else {
      forall n | n in s'.secrets
        ensures n in s'.issued && LabelOk(s', n)
      {
        if n in s.secrets {
          assert LabelOk(s, n);
        }
      }
      forall k | k in s'.pcs
        ensures PcOk(s', k, s'.pcs[k])
      {
        if k in s.pcs {
          assert PcOk(s, k, s.pcs[k]);
        }
      }
    }
  }

  /** Over every run, a volume has at most one access secret, and the broker controls it. */
  lemma {:induction false} AtMostOneSecret(actions: seq<Action>)
    ensures Inv(Run(INIT, actions))
  {
    if actions != [] {
      AtMostOneSecret(actions[..|actions| - 1]);
      NextKeeps(Run(INIT, actions[..|actions| - 1]), actions[|actions| - 1]);
    }
  }

  // ---------- What a pass leaves behind ----------

  /**
    A pass that returns an access with a secret leaves the volume with exactly that one labelled
    secret, controlled by the volume.  Its data is that of the target, exactly if nobody has
    changed it since it was read, or what was read was not that of the target already.
   */
  lemma ReturnedIsTheSecret(actions: seq<Action>, k: (string, string), generated: string)
    requires var s := Run(INIT, actions); k in s.pcs && Returned(s, k, generated).Some?
    ensures var s := Run(INIT, actions);
            var s', n, v := PassStep(s, k, generated), Returned(s, k, generated).value, s.pcs[k].v;
            && n in s'.secrets && Labelled(s', v) == {n}
            && s'.secrets[n].controller == Some(v.uid)
            && (s'.secrets[n].data == s.pcs[k].data <==>
                  s.pcs[k].Patch? ==> s.pcs[k].read.data != s.pcs[k].data || s.secrets[n].data == s.pcs[k].data)
  {
    AtMostOneSecret(actions);
    var s := Run(INIT, actions);
    assert PcOk(s, k, s.pcs[k]);
    NextKeeps(s, Step(k, generated));
    var s', n, v := PassStep(s, k, generated), Returned(s, k, generated).value, s.pcs[k].v;
    assert s'.secrets[n].volume == Some(v.uid);
    forall x | x in Labelled(s', v)
      ensures x == n
    {
    }
  }

  /** What a pass found, or did not find, is never refused as somebody else's. */
  lemma NeverRejected(actions: seq<Action>, k: (string, string))
    requires k in Run(INIT, actions).pcs
    ensures ListSingle(Run(INIT, actions), Run(INIT, actions).pcs[k].v) != Rejected
  {
    AtMostOneSecret(actions);
    var s := Run(INIT, actions);
    assert PcOk(s, k, s.pcs[k]);
    ListSingleExact(s, s.pcs[k].v);
  }

  lemma RunOneMore(actions: seq<Action>, a: Action)
    ensures Run(INIT, actions + [a]) == Next(Run(INIT, actions), a)
  {
    assert (actions + [a])[..|actions + [a]| - 1] == actions;
  }

  const VOLUME := VolumeId("a", "v", 1)
  const SECRET := SecretName("a", "s")

  /** One pass has created the secret. */
  function CreatedBefore(): seq<Action> {
    [Start(VOLUME, WithSecret(7))] + [Step(VOLUME.Key(), "s")] + [Step(VOLUME.Key(), "s")]
  }

  lemma CreatedState()
    ensures Run(INIT, CreatedBefore()) ==
            State(map[SECRET := AccessSecret(Some(1), Some(1), 7)], map[], map[1 := VOLUME.Key()], {SECRET})
  {
    var k := VOLUME.Key();
    var first := [Start(VOLUME, WithSecret(7))];
    var s1 := Next(INIT, first[0]);
    assert first[..0] == [] && Run(INIT, first) == s1;
    RunOneMore(first, Step(k, "s"));
    assert Labelled(s1, VOLUME) == {};
    RunOneMore(first + [Step(k, "s")], Step(k, "s"));
  }

  /** The next one has listed it, and then somebody edits it. */
  function EditedMeanwhile(): seq<Action> {
    CreatedBefore() + [Start(VOLUME, WithSecret(7))] + [Step(VOLUME.Key(), "t")] + [Edit(SECRET, 9)]
  }

  /** The pass then returns the secret with data that is not the target's: its patch carries no data. */
  lemma ReturnedIsForeign()
    ensures var s, k := Run(INIT, EditedMeanwhile()), VOLUME.Key();
            && k in s.pcs && s.pcs[k].Patch? && s.pcs[k].data == 7
            && Returned(s, k, "t") == Some(SECRET)
            && SECRET in PassStep(s, k, "t").secrets && PassStep(s, k, "t").secrets[SECRET].data == 9
  {
    var start, list := Start(VOLUME, WithSecret(7)), Step(VOLUME.Key(), "t");
    CreatedState();
    RunOneMore(CreatedBefore(), start);
    var s := Run(INIT, CreatedBefore() + [start]);
    assert Labelled(s, VOLUME) == {SECRET};
    assert ListSingle(s, VOLUME) == One(SECRET);
    RunOneMore(CreatedBefore() + [start], list);
    RunOneMore(CreatedBefore() + [start] + [list], Edit(SECRET, 9));
  }

  // ---------- A whole pass in a quiet cluster ----------

  /** `ApplyAccess` from its list call to its write, with nothing in between. */
  ghost function Pass(s: State, v: VolumeId, access: TargetAccess, generated: string): State {
    PassStep(PassStep(Next(s, Start(v, access)), v.Key(), generated), v.Key(), generated)
  }

  lemma OnlyOne(s: State, v: VolumeId, n: SecretName)
    requires Inv(s) && n in s.secrets && n.ns == v.ns && s.secrets[n].volume == Some(v.uid)
    ensures Labelled(s, v) == {n}
  {
  }

  /**
    With a target secret there is exactly one access secret afterwards and it has the target's data;
    without one there is none.
   */
  lemma QuietPass(actions: seq<Action>, v: VolumeId, access: TargetAccess, generated: string)
    requires var s := Run(INIT, actions);
             && v.Key() !in s.pcs && (v.uid in s.born ==> s.born[v.uid] == v.Key())
             && SecretName(v.ns, generated) !in s.issued
    ensures var s' := Pass(Run(INIT, actions), v, access, generated);
            if access.WithSecret? then
              exists n :: n in s'.secrets && Labelled(s', v) == {n} && s'.secrets[n].data == access.data
            else Labelled(s', v) == {}
  {
    AtMostOneSecret(actions);
    var s := Run(INIT, actions);
    var s1 := Next(s, Start(v, access));
    NextKeeps(s, Start(v, access));
    ListSingleExact(s1, v);
    var s2 := PassStep(s1, v.Key(), generated);
    NextKeeps(s1, Step(v.Key(), generated));
    var s3 := PassStep(s2, v.Key(), generated);
    NextKeeps(s2, Step(v.Key(), generated));
    match ListSingle(s1, v)
    case NotFound =>
      if access.WithSecret? {
        OnlyOne(s3, v, SecretName(v.ns, generated));
      } else {
        assert Labelled(s3, v) == {};
      }
    case One(n) =>
      if access.WithSecret? {
        OnlyOne(s3, v, n);
      } else {
        assert Labelled(s3, v) == {};
      }
  }

  // ---------- The applier ----------

  lemma OneMatch(matches: set<SecretName>, n: SecretName)
    requires n in matches && |matches| == 1
    ensures matches == {n}
  {
    assert |matches - {n}| == 0;
  }

  lemma ReturnedWhenValid(actions: seq<Action>, k: (string, string), generated: string)
    requires k in Run(INIT, actions).pcs
    ensures var s := Run(INIT, actions);
            Returned(s, k, generated).Some? ==>
              Labelled(PassStep(s, k, generated), s.pcs[k].v) == {Returned(s, k, generated).value}
  {
    if Returned(Run(INIT, actions), k, generated).Some? {
      ReturnedIsTheSecret(actions, k, generated);
    }
  }

  class AccessApplier {
    ghost const quiet: bool // nobody interferes
    var secrets: map<SecretName, AccessSecret>
    var issued: set<SecretName>
    ghost var pcs: map<(string, string), Pc>
    ghost var born: map<Uid, (string, string)>
    ghost var history: seq<Action>

    constructor (ghost quiet: bool)
      ensures Valid() && history == []
    {
      this.quiet, secrets, issued, pcs, born, history := quiet, map[], {}, map[], map[], [];
    }

    ghost function Now(): State
      reads this
    {
      State(secrets, pcs, born, issued)
    }

    ghost predicate Valid()
      reads this
    {
      Now() == Run(INIT, history)
    }

    /** A volume that has no pass under way, and the only one of its uid. */
    ghost predicate Startable(v: VolumeId)
      reads this
    {
      v.Key() !in pcs && (v.uid in born ==> born[v.uid] == v.Key())
    }

    /** An action whose effect on the secrets has just been carried out. */
    ghost method Record(a: Action, before: State)
      requires before == Run(INIT, history)
      requires Next(before, a).secrets == secrets && Next(before, a).issued == issued
      modifies this`pcs, this`born, this`history
      ensures Valid() && Now() == Next(before, a) && history == old(history) + [a]
    {
      RunOneMore(history, a);
      pcs, born, history := Next(before, a).pcs, Next(before, a).born, history + [a];
    }

    /** Between the list and the write anything may happen; callers rely on no more than this contract. */
    method Interfere(k: (string, string))
      requires Valid() && k in pcs
      modifies this
      ensures Valid()
      ensures k in pcs && pcs[k] == old(pcs[k]) && old(history) <= history
      ensures quiet ==> Now() == old(Now())
    {
    }

    method ControlledListSingle(v: VolumeId, ghost generated: string) returns (r: Single)
      requires Valid() && v.Key() in pcs && (pcs[v.Key()].Prune? || pcs[v.Key()].Generate?) && pcs[v.Key()].v == v
      modifies this
      ensures Valid() && Now() == PassStep(old(Now()), v.Key(), generated)
      ensures r == ListSingle(old(Now()), v) && (r.NotFound? <==> Labelled(old(Now()), v) == {})
      ensures secrets == old(secrets) && issued == old(issued) && old(history) <= history
    {
      var matches := set n | n in secrets && n.ns == v.ns && secrets[n].volume == Some(v.uid);
      assert matches == Labelled(Now(), v);
      if |matches| == 0 {
        r := NotFound;
      } else if |matches| == 1 {
        var n :| n in matches;
        OneMatch(matches, n);
        r := if secrets[n].controller == Some(v.uid) then One(n) else Rejected;
      } else {
        r := Rejected;
      }
      Record(Step(v.Key(), generated), Now());
    }

    method Delete(k: (string, string), n: SecretName, ghost generated: string)
      requires Valid() && k in pcs && pcs[k].PruneDelete? && pcs[k].secret == n
      modifies this
      ensures Valid() && Now() == PassStep(old(Now()), k, generated) && old(history) <= history
    {
      ghost var before := Now();
      secrets := secrets - {n};
      Record(Step(k, generated), before);
    }

    method CreateSecret(v: VolumeId, data: int, generated: string) returns (r: Option<SecretName>)
      requires Valid() && v.Key() in pcs && pcs[v.Key()] == Create(v, data)
      modifies this
      ensures Valid() && Now() == PassStep(old(Now()), v.Key(), generated) && old(history) <= history
      ensures r == Returned(old(Now()), v.Key(), generated)
    {
      ghost var before := Now();
      var n := SecretName(v.ns, generated);
      if n in issued {
        r := None;
      } else {
        secrets, issued := secrets[n := AccessSecret(Some(v.uid), Some(v.uid), data)], issued + {n};
        r := Some(n);
      }
      Record(Step(v.Key(), generated), before);
    }

    method PatchSecret(v: VolumeId, n: SecretName, read: AccessSecret, data: int, ghost generated: string)
      returns (r: Option<SecretName>)
      requires Valid() && v.Key() in pcs && pcs[v.Key()] == Patch(v, n, read, data)
      modifies this
      ensures Valid() && Now() == PassStep(old(Now()), v.Key(), generated) && old(history) <= history
      ensures r == Returned(old(Now()), v.Key(), generated)
    {
      ghost var before := Now();
      if n !in secrets {
        r := None;
      } else {
        var now := secrets[n];
        if read.volume != Some(v.uid) {
          now := now.(volume := Some(v.uid));
        }
        if read.data != data {
          now := now.(data := data);
        }
        secrets, issued := secrets[n := now], issued + {n};
        r := Some(n);
      }
      Record(Step(v.Key(), generated), before);
    }

    /**
      The access of a volume: no secret is returned but the only one the volume has, in any run;
      in a quiet cluster the pass does exactly what `Pass` says.
     */
    method ApplyAccess(v: VolumeId, access: TargetAccess, generated: string) returns (r: Option<SecretName>)
      requires Valid() && Startable(v)
      modifies this
      ensures Valid()
      ensures v.Key() !in pcs && old(history) + [Start(v, access)] <= history
      ensures r.Some? ==> access.WithSecret? && Labelled(Now(), v) == {r.value}
      ensures quiet ==> Now() == Pass(old(Now()), v, access, generated)
      ensures quiet && access.WithSecret? ==>
                (r.None? <==> Labelled(old(Now()), v) == {} && SecretName(v.ns, generated) in old(issued))
      ensures quiet && r.Some? ==> secrets[r.value].data == access.data
    {
      hide Inv, ListSingle, Run;
      ghost var k := v.Key();
      ghost var before := Now();
      Record(Start(v, access), Now());
      AtMostOneSecret(history);
      ListSingleExact(Now(), v);
      var single := ControlledListSingle(v, generated);
      AtMostOneSecret(history);
      if !access.WithSecret? {
        r := None;
        if single.One? {
          Interfere(v.Key());
          Delete(v.Key(), single.secret, generated);
        }
      } else if single.NotFound? {
        Interfere(v.Key());
        ReturnedWhenValid(history, k, generated);
        r := CreateSecret(v, access.data, generated);
      } else if single.One? {
        var read := secrets[single.secret];
        Interfere(v.Key());
        ReturnedWhenValid(history, k, generated);
        r := PatchSecret(v, single.secret, read, access.data, generated);
      } else {
        r := None;
      }
    }
  }
}
