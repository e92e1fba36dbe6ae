/** What the operator guarantees in every run, whatever users, other controllers, the collector, faults and
    crashes do in between.  A run is any list of moves from the empty store. */
module Safety {
  import opened Types
  import opened Conditions
  import opened Builders
  import opened Store
  import opened Machine
  import opened Invariants
  import opened Preservation
  import opened Runs

  lemma LocalAt(acts: seq<Action>, id: Id)
    ensures Local(Exec(START, acts).s, id, ThreadOf(Exec(START, acts), id))
  {
    hide Local, Exec;
    Reachable(acts);
  }

  /* ----- What the operator writes to objects ----- */

  /** The object of `id` gains or loses the operator's finalizer, and nothing else. */
  ghost predicate FinalizerWrite(s: State, s': State, id: Id) {
    && id in s.objs
    && var o := s.objs[id];
       s' == Commit(s, id, o.(finalizers := if o.deleting then o.finalizers - {Own(id.kind)}
                              else o.finalizers + {Own(id.kind)}))
  }

  /** The object of `id` gets the status of the copy `o`, which is of the same incarnation and holds the
      finalizer; the write is based on the version that was stored. */
  ghost predicate StatusWrite(s: State, s': State, id: Id, o: Object, latest: Object) {
    && id in s.objs && s.objs[id].uid == o.uid && s.objs[id].rv == latest.rv && Own(id.kind) in s.objs[id].finalizers
    && s.objs[id].status.observedGeneration <= o.status.observedGeneration
    && s' == Commit(s, id, s.objs[id].(status := CopiedStatus(id.kind, o.status, latest.status)))
  }

  /** `s'` has the objects and ConfigMaps of `s`, and every Secret of `s`. */
  ghost predicate ObjectsKept(s: State, s': State) {
    && s'.objs == s.objs && s'.configs == s.configs && s.next <= s'.next
    && forall k :: k in s.secrets ==> k in s'.secrets && s'.secrets[k] == s.secrets[k]
  }

  lemma SetWritesKeep(s: State, k: Key, v: StatefulSet, b: Built, f: Fault)
    ensures ObjectsKept(s, CreateSet(s, k, v, b, f).0) && ObjectsKept(s, UpdateSet(s, k, v, b, f).0)
  {
    hide ReplaceSet;
    Replaced(s, k, v, b);
    ReplacedRest(s, k, v, b);
  }

  lemma ReplacedRest(s: State, k: Key, v: StatefulSet, b: Built)
    ensures ReplaceSet(s, k, v, b).configs == s.configs
  {
  }

  lemma ServiceWritesKeep(s: State, k: Key, v: Service, f: Fault)
    ensures ObjectsKept(s, CreateService(s, k, v, f).0) && ObjectsKept(s, UpdateService(s, k, v, f).0)
  {
  }

  lemma SecretWritesKeep(s: State, k: Key, v: Secret, f: Fault)
    ensures ObjectsKept(s, CreateSecret(s, k, v, f).0)
  {
  }

  lemma NodeWriteObjects(s: State, id: Id, pc: Pc, o: Object, n: OpNodeSpec, x: Ext)
    ensures ObjectsKept(s, NodeWrite(s, id, pc, o, n, x).0)
  {
    hide CreateSecret, CreateSet, UpdateSet, CreateService, UpdateService;
    hide NewSetOf, EditedSet, NewServiceOf, EditedService, JwtKey, P2pKey, KeyOf;
    match pc
    case NewJwt(_) => SecretWritesKeep(s, JwtKey(id), NewJwtOf(o, x.key), x.fault);
    case NewP2p(_) => SecretWritesKeep(s, P2pKey(id), NewP2pOf(o, x.key), x.fault);
    case NewSet(net) => SetWritesKeep(s, KeyOf(id), NewSetOf(id, o, n, net), Built(n, net), x.fault);
    case PutSet(net, cur) => SetWritesKeep(s, KeyOf(id), EditedSet(id, cur, n, net), Built(n, net), x.fault);
    case NewSvc(net) => ServiceWritesKeep(s, KeyOf(id), NewServiceOf(id, o, n, net), x.fault);
    case PutSvc(net, cur) => ServiceWritesKeep(s, KeyOf(id), EditedService(id, cur, n, net), x.fault);
    case _ =>
  }

  lemma ConfigWritesKeep(s: State, k: Key, v: ConfigMap, f: Fault)
    ensures var s' := CreateConfig(s, k, v, f).0; s' == s.(configs := s'.configs, next := s'.next) && s.next <= s'.next
    ensures var s' := UpdateConfig(s, k, v, f).0; s' == s.(configs := s'.configs, next := s'.next) && s.next <= s'.next
  {
  }

  lemma NetworkWriteObjects(s: State, id: Id, pc: Pc, o: Object, n: OptimismNetworkSpec, x: Ext)
    ensures var s' := NetworkWrite(s, id, pc, o, n, x).0;
            s'.objs == s.objs && s'.secrets == s.secrets && s.next <= s'.next
  {
    hide CreateConfig, UpdateConfig, RollupOf, GenesisOf, RollupKey, GenesisKey;
    match pc
    case NewRollup(a) => ConfigWritesKeep(s, RollupKey(id), ConfigMap(o.uid, 0, RollupOf(n, a)), x.fault);
    case PutRollup(a, cur) => ConfigWritesKeep(s, RollupKey(id), cur.(data := RollupOf(n, a)), x.fault);
    case NewGenesis(_) => ConfigWritesKeep(s, GenesisKey(id), ConfigMap(o.uid, 0, GenesisOf(n)), x.fault);
    case PutGenesis(_, cur) => ConfigWritesKeep(s, GenesisKey(id), cur.(data := GenesisOf(n)), x.fault);
    case _ =>
  }

  lemma FinalizerUpdate(s: State, id: Id, o: Object, f: Fault)
    requires FinalizerOnly(s, id, o)
    ensures var s' := UpdateObject(s, id, o, f).0; s' == s || FinalizerWrite(s, s', id)
  {
    hide Commit;
  }

  /** All the operator ever writes to objects. */
  lemma OperatorWrites(s: State, id: Id, t: Thread, x: Ext)
    requires ThreadOk(s, id, t)
    ensures var s' := Step(s, id, t, x).0;
            || s'.objs == s.objs
            || (t.Busy? && t.pc.PutFinalizer? && FinalizerWrite(s, s', id))
            || (t.Busy? && t.pc.StatusPut? && StatusWrite(s, s', id, t.obj, t.pc.latest))
  {
    hide Next, Stage, NodeWrite, NetworkWrite, CopiedStatus, Commit, FinalizerWrite, FinalizerOnly;
    if t.Busy? {
      var pc, o := t.pc, t.obj;
      if pc.PutFinalizer? {
        hide UpdateObject;
        FinalizerUpdate(s, id, o, x.fault);
      } else if !pc.StatusGet? && !pc.StatusPut? {
        match o.spec
        case NodeSpec(n) => NodeWriteObjects(s, id, pc, o, n, x);
        case NetworkSpec(n) => NetworkWriteObjects(s, id, pc, o, n, x);
      }
    }
  }

  /* ----- No lost updates ----- */

  /** `o'` differs from `o` at most in its status, its resource version and the finalizer `own`. */
  ghost predicate OnlyOwn(own: Finalizer, o: Object, o': Object) {
    && o'.uid == o.uid && o'.past == o.past && o'.spec == o.spec && o'.deleting == o.deleting
    && o'.finalizers - {own} == o.finalizers - {own}
  }

  lemma CommitOnlyOwn(s: State, id: Id, o: Object, j: Id)
    requires id in s.objs && OnlyOwn(Own(id.kind), s.objs[id], o)
    ensures var s' := Commit(s, id, o);
            && (j in s.objs && j in s'.objs ==> OnlyOwn(Own(j.kind), s.objs[j], s'.objs[j]))
            && (j in s.objs && j !in s'.objs ==> j == id && o.deleting && o.finalizers == {})
            && (j in s'.objs ==> j in s.objs)
  {
  }

  /** No micro-step changes the spec, the deletion mark or another party's finalizer of any object, and it
      removes only an object that is being deleted and waits for nobody else. */
  lemma NoLostUpdates(acts: seq<Action>, id: Id, x: Ext, j: Id)
    ensures var s := Exec(START, acts).s;
            var s' := Apply(Exec(START, acts), Tick(id, x)).s;
            && (j in s.objs && j in s'.objs ==> OnlyOwn(Own(j.kind), s.objs[j], s'.objs[j]))
            && (j in s.objs && j !in s'.objs ==> s.objs[j].deleting && s.objs[j].finalizers <= {Own(j.kind)})
            && (j in s'.objs ==> j in s.objs)
  {
    hide Local, Exec, Step, ThreadOk;
    var w := Exec(START, acts);
    LocalAt(acts, id);
    LocalThread(w.s, id, ThreadOf(w, id));
    StepOnlyOwn(w.s, id, ThreadOf(w, id), x, j);
  }

  lemma StepOnlyOwn(s: State, id: Id, t: Thread, x: Ext, j: Id)
    requires ThreadOk(s, id, t)
    ensures var s' := Step(s, id, t, x).0;
            && (j in s.objs && j in s'.objs ==> OnlyOwn(Own(j.kind), s.objs[j], s'.objs[j]))
            && (j in s.objs && j !in s'.objs ==> s.objs[j].deleting && s.objs[j].finalizers <= {Own(j.kind)})
            && (j in s'.objs ==> j in s.objs)
  {
    hide Step, ThreadOk, CopiedStatus, Commit;
    OperatorWrites(s, id, t, x);
    if id in s.objs {
      var o := s.objs[id];
      CommitOnlyOwn(s, id, o.(finalizers := if o.deleting then o.finalizers - {Own(id.kind)}
                              else o.finalizers + {Own(id.kind)}), j);
      if t.Busy? && t.pc.StatusPut? {
        CommitOnlyOwn(s, id, o.(status := CopiedStatus(id.kind, t.obj.status, t.pc.latest.status)), j);
      }
    }
  }

  /* ----- One incarnation ----- */

  ghost predicate WroteChild(s: State, s': State) {
    s'.secrets != s.secrets || s'.sets != s.sets || s'.svcs != s.svcs || s'.configs != s.configs
  }

  /** Whenever a micro-step writes a status or a child, the object it started from is still the one in the
      store: same UID, holding the operator's finalizer.  The re-read by name cannot hit a successor. */
  lemma WritesHitTheirIncarnation(acts: seq<Action>, id: Id, x: Ext)
    ensures var w := Exec(START, acts);
            var s' := Apply(w, Tick(id, x)).s;
            (WroteChild(w.s, s')
             || exists j :: j in w.s.objs && j in s'.objs && s'.objs[j].status != w.s.objs[j].status) ==>
              && ThreadOf(w, id).Busy? && id in w.s.objs
              && w.s.objs[id].uid == ThreadOf(w, id).obj.uid
              && Own(id.kind) in w.s.objs[id].finalizers
              && id in s'.objs && s'.objs[id].uid == w.s.objs[id].uid
  {
    hide Local, Exec, CopiedStatus;
    var w := Exec(START, acts);
    LocalAt(acts, id);
    LocalThread(w.s, id, ThreadOf(w, id));
    StepHitsItsIncarnation(w.s, id, ThreadOf(w, id), x);
  }

  lemma FinalizerWriteStatus(s: State, s': State, id: Id)
    requires FinalizerWrite(s, s', id)
    ensures !WroteChild(s, s') && forall j :: j in s.objs && j in s'.objs ==> s'.objs[j].status == s.objs[j].status
  {
  }

  lemma FinalizerStep(s: State, id: Id, t: Thread, x: Ext)
    requires ThreadOk(s, id, t) && t.Busy? && t.pc.PutFinalizer?
    ensures var s' := Step(s, id, t, x).0; s' == s || FinalizerWrite(s, s', id)
  {
    hide Next, Stage, UpdateObject, FinalizerWrite, FinalizerOnly;
    FinalizerUpdate(s, id, t.obj, x.fault);
  }

  lemma LiveStep(s: State, id: Id, t: Thread, x: Ext)
    requires ThreadOk(s, id, t) && t.Busy? && !t.pc.PutFinalizer?
    ensures var s' := Step(s, id, t, x).0; Live(s, id, t.obj) && id in s'.objs && s'.objs[id].uid == t.obj.uid
  {
    hide Step, Stage, CopiedStatus;
    OperatorWrites(s, id, t, x);
  }

  lemma StepHitsItsIncarnation(s: State, id: Id, t: Thread, x: Ext)
    requires ThreadOk(s, id, t)
    ensures var s' := Step(s, id, t, x).0;
            || (!WroteChild(s, s') && forall j :: j in s.objs && j in s'.objs ==> s'.objs[j].status == s.objs[j].status)
            || (t.Busy? && Live(s, id, t.obj) && id in s'.objs && s'.objs[id].uid == t.obj.uid)
  {
    if t.Busy? {
      hide Step, ThreadOk, Live, FinalizerWrite;
      if t.pc.PutFinalizer? {
        FinalizerStep(s, id, t, x);
        if Step(s, id, t, x).0 != s {
          FinalizerWriteStatus(s, Step(s, id, t, x).0, id);
        }
      } else {
        LiveStep(s, id, t, x);
      }
    }
  }

  /* ----- Observed generations ----- */

  /** In every reachable state: a written OpNode status observes a generation the object has had, and its
      ConfigurationValid condition is the verdict on the spec of exactly that generation, however many
      edits landed since. */
  lemma ObservedGenerationIsTrue(acts: seq<Action>, id: Id)
    ensures var s := Exec(START, acts).s;
            id in s.objs && id.kind.NodeKind? && s.objs[id].status != EMPTY_STATUS ==>
              var o := s.objs[id];
              var g := o.status.observedGeneration;
              && 1 <= g <= o.Generation()
              && o.History()[g - 1].NodeSpec?
              && (IsTrue(o.status.conditions, ConfigurationValid) <==> NodeSpecError(o.History()[g - 1].node).None?)
  {
    hide Exec, IsTrue, NodeSpecError, PhaseOf;
    LocalAt(acts, id);
  }

  /** Same incarnation, later: the history has grown and no older generation is observed. */
  ghost predicate Evolves(o: Object, o': Object) {
    o'.uid == o.uid && o.History() <= o'.History() && o.status.observedGeneration <= o'.status.observedGeneration
  }

  lemma CommitEvolves(s: State, id: Id, o: Object, j: Id)
    requires id in s.objs && Evolves(s.objs[id], o)
    ensures s.next <= Commit(s, id, o).next
    ensures j in Commit(s, id, o).objs ==> j in s.objs && Evolves(s.objs[j], Commit(s, id, o).objs[j])
  {
    hide Evolves;
    VersionEvolves(s.objs[id], o, s.next);
    if j in s.objs {
      StaysEvolved(s.objs[j]);
    }
  }

  lemma VersionEvolves(o: Object, o': Object, rv: nat)
    requires Evolves(o, o')
    ensures Evolves(o, o'.(rv := rv))
  {
  }

  lemma StaysEvolved(o: Object)
    ensures Evolves(o, o)
  {
  }

  lemma OthersEvolve(s: State, a: Action, j: Id)
    ensures s.next <= Others(s, a).next
    ensures j in Others(s, a).objs ==>
              Others(s, a).objs[j].uid >= s.next || (j in s.objs && Evolves(s.objs[j], Others(s, a).objs[j]))
  {
    hide Clean, Dead, Commit;
    if OfObject(a) && a.id in s.objs && !a.Create? && !a.Touch? {
      var o := s.objs[a.id];
      CommitEvolves(s, a.id,
                    match a
                    case Edit(_, spec) => o.WithSpec(spec)
                    case Finalizers(_, fs) => o.(finalizers := fs)
                    case _ => o.(deleting := true), j);
    }
  }

  lemma TickEvolves(s: State, id: Id, t: Thread, x: Ext, j: Id)
    requires ThreadOk(s, id, t) && j in Step(s, id, t, x).0.objs
    ensures j in s.objs && Evolves(s.objs[j], Step(s, id, t, x).0.objs[j])
  {
    hide Step, ThreadOk, CopiedStatus, Commit;
    OperatorWrites(s, id, t, x);
    CopyObserves(id.kind, t);
    if j != id {
      StepFrame(s, id, t, x, j);
    } else if id in s.objs {
      var o := s.objs[id];
      CommitEvolves(s, id, o.(finalizers := if o.deleting then o.finalizers - {Own(id.kind)}
                              else o.finalizers + {Own(id.kind)}), j);
      if t.Busy? && t.pc.StatusPut? && o.status.observedGeneration <= t.obj.status.observedGeneration {
        CommitEvolves(s, id, o.(status := CopiedStatus(id.kind, t.obj.status, t.pc.latest.status)), j);
      }
    }
  }

  lemma CopyObserves(k: Kind, t: Thread)
    ensures t.Busy? && t.pc.StatusPut? ==>
              CopiedStatus(k, t.obj.status, t.pc.latest.status).observedGeneration == t.obj.status.observedGeneration
  {
  }

  lemma TickNext(s: State, id: Id, t: Thread, x: Ext)
    requires ThreadOk(s, id, t)
    ensures s.next <= Step(s, id, t, x).0.next
  {
    hide Step, ThreadOk;
    StepWrites(s, id, t, x);
  }

  lemma MoveEvolves(w: World, a: Action, id: Id)
    requires Inv(w)
    ensures var w' := Apply(w, a);
            w.s.next <= w'.s.next
            && (id in w'.s.objs ==>
                  w'.s.objs[id].uid >= w.s.next || (id in w.s.objs && Evolves(w.s.objs[id], w'.s.objs[id])))
  {
    hide Local, Step, Others, Evolves;
    if a.Tick? {
      assert Local(w.s, a.id, ThreadOf(w, a.id));
      LocalThread(w.s, a.id, ThreadOf(w, a.id));
      TickNext(w.s, a.id, ThreadOf(w, a.id), a.x);
      if id in Apply(w, a).s.objs {
        TickEvolves(w.s, a.id, ThreadOf(w, a.id), a.x, id);
      }
    } else if a.Crash? {
      SelfEvolves(w.s, id);
    } else {
      OthersEvolve(w.s, a, id);
    }
  }

  /** Between any two states of a run, as long as the object is the same incarnation, its observed generation
      does not decrease and its history only grows. */
  lemma {:induction false} ObservedGenerationNeverDecreases(acts: seq<Action>, more: seq<Action>, id: Id)
    ensures var s := Exec(START, acts).s;
            var s' := Exec(Exec(START, acts), more).s;
            && s.next <= s'.next
            && (id in s'.objs ==> s'.objs[id].uid >= s.next || (id in s.objs && Evolves(s.objs[id], s'.objs[id])))
  {
    if more != [] {
      var init, a := more[..|more| - 1], more[|more| - 1];
      ObservedGenerationNeverDecreases(acts, init, id);
      ExecConcat(START, acts, init);
      Reachable(acts + init);
      var w := Exec(Exec(START, acts), init);
      hide Inv, Apply, Exec;
      MoveEvolves(w, a, id);
      EvolvesTransitive(Exec(START, acts).s, w.s, Apply(w, a).s, id);
      ExecSnoc(Exec(START, acts), more);
    } else {
      SelfEvolves(Exec(START, acts).s, id);
    }
  }

  lemma SelfEvolves(s: State, id: Id)
    ensures id in s.objs ==> Evolves(s.objs[id], s.objs[id])
  {
  }

  lemma EvolvesTransitive(s0: State, s1: State, s2: State, id: Id)
    requires s0.next <= s1.next
    requires id in s1.objs ==> s1.objs[id].uid >= s0.next || (id in s0.objs && Evolves(s0.objs[id], s1.objs[id]))
    requires id in s2.objs ==> s2.objs[id].uid >= s1.next || (id in s1.objs && Evolves(s1.objs[id], s2.objs[id]))
    ensures id in s2.objs ==> s2.objs[id].uid >= s0.next || (id in s0.objs && Evolves(s0.objs[id], s2.objs[id]))
  {
  }

  lemma ExecSnoc(w: World, acts: seq<Action>)
    requires acts != []
    ensures Exec(w, acts) == Apply(Exec(w, acts[..|acts| - 1]), acts[|acts| - 1])
  {
    hide Apply;
  }

  lemma {:induction false} ExecConcat(w: World, a: seq<Action>, b: seq<Action>)
    ensures Exec(w, a + b) == Exec(Exec(w, a), b)
    decreases |b|
  {
    hide Apply;
    if b == [] {
      assert a + b == a;
    } else {
      var init := b[..|b| - 1];
      assert (a + b)[..|a + b| - 1] == a + init;
      ExecConcat(w, a, init);
    }
  }

  lemma NoMove(w: World)
    ensures Exec(w, []) == w
  {
  }

  lemma ThreeMoves(w: World, a: Action, b: Action, c: Action)
    ensures Exec(w, [a] + [b] + [c]) == Apply(Apply(Apply(w, a), b), c)
  {
    hide Apply;
    OneMove(w, a);
    ExecConcat(w, [a], [b]);
    ExecConcat(w, [a] + [b], [c]);
    OneMove(Apply(w, a), b);
    OneMove(Apply(Apply(w, a), b), c);
  }

  lemma FiveMoves(w: World, a: Action, b: Action, c: Action, d: Action, e: Action)
    ensures Exec(w, [a] + [b] + [c] + [d] + [e]) == Apply(Apply(Apply(Apply(Apply(w, a), b), c), d), e)
  {
    hide Apply;
    assert Exec(w, []) == w;
    assert [a][..0] == [];
    assert Exec(w, [a]) == Apply(w, a);
    ExecConcat(w, [a], [b]);
    ExecConcat(w, [a] + [b], [c]);
    ExecConcat(w, [a] + [b] + [c], [d]);
    ExecConcat(w, [a] + [b] + [c] + [d], [e]);
    OneMove(Apply(w, a), b);
    OneMove(Apply(Apply(w, a), b), c);
    OneMove(Apply(Apply(Apply(w, a), b), c), d);
    OneMove(Apply(Apply(Apply(Apply(w, a), b), c), d), e);
  }

  lemma OneMove(w: World, a: Action)
    ensures Exec(w, [a]) == Apply(w, a)
  {
    hide Apply;
    assert [a][..0] == [];
    assert Exec(w, []) == w;
  }

  /* ----- Phases ----- */

  /** Every stored OpNode phase is the one its conditions call for in pipeline order: Running exactly when all
      six are True, Pending exactly when the first that is not is NetworkReady, else Error.  Initializing
      and Stopped are never stored. */
  lemma PhaseFollowsConditions(acts: seq<Action>, id: Id)
    ensures var s := Exec(START, acts).s;
            id in s.objs && id.kind.NodeKind? && s.objs[id].status != EMPTY_STATUS ==>
              var st := s.objs[id].status;
              var on := (c: ConditionType) => IsTrue(st.conditions, c);
              && (st.phase.Running? <==>
                    on(ConfigurationValid) && on(NetworkReference) && on(ConditionType.NetworkReady)
                    && on(SecretsReady) && on(StatefulSetReady) && on(ServiceReady))
              && (st.phase.Pending? <==>
                    on(ConfigurationValid) && on(NetworkReference) && !on(ConditionType.NetworkReady))
              && st.phase in {Running, Pending, Phase.Error}
  {
    hide Exec, IsTrue, NodeSpecError;
    LocalAt(acts, id);
  }

  /* ----- OptimismNetwork ----- */

  /** In every reachable state: a Ready OptimismNetwork whose status observes the present generation has a valid
      spec, all three conditions True, and contracts on record. */
  lemma ReadyIsTrue(acts: seq<Action>, id: Id)
    ensures var s := Exec(START, acts).s;
            id in s.objs && id.kind.NetworkKind? && s.objs[id].status.phase.Ready?
            && s.objs[id].status.observedGeneration == s.objs[id].Generation() ==>
              var o := s.objs[id];
              && o.spec.NetworkSpec? && NetworkSpecError(o.spec.network).None?
              && IsTrue(o.status.conditions, ConfigurationValid) && IsTrue(o.status.conditions, L1Connected)
              && IsTrue(o.status.conditions, ContractsDiscovered)
              && o.status.networkInfo.Some? && o.status.networkInfo.value.contracts.Some?
  {
    hide Exec, IsTrue, NetworkSpecError, RollupThere, GenesisThere;
    LocalAt(acts, id);
    var s := Exec(START, acts).s;
    if id in s.objs {
      LastSpec(s.objs[id]);
    }
  }

  /** Ready or not, a status observes a generation the network has had, and Ready is a claim about that one. */
  lemma ReadyObservesAValidSpec(acts: seq<Action>, id: Id)
    ensures var s := Exec(START, acts).s;
            id in s.objs && id.kind.NetworkKind? ==>
              var o := s.objs[id];
              var g := o.status.observedGeneration;
              && 0 <= g <= o.Generation()
              && o.status.phase in {NoPhase, Phase.Error, Ready}
              && (o.status.phase.Ready? ==> g >= 1 && o.History()[g - 1].NetworkSpec?
                                            && NetworkSpecError(o.History()[g - 1].network).None?)
  {
    hide Exec, IsTrue, NetworkSpecError, RollupThere, GenesisThere;
    LocalAt(acts, id);
  }

  /* ----- Write-once keys ----- */

  lemma UpdatesKeepSecrets(s: State, id: Id, o: Object, f: Fault)
    ensures UpdateObject(s, id, o, f).0.secrets == s.secrets && UpdateStatus(s, id, o, f).0.secrets == s.secrets
  {
  }

  lemma OthersKeepSecret(s: State, a: Action, k: Key)
    requires k in s.secrets && a != CollectSecret(k)
    ensures k in Others(s, a).secrets && Others(s, a).secrets[k] == s.secrets[k]
  {
    hide Others;
    if a.MakeSecret? || a.CollectSecret? {
      SecretMove(s, a, k);
    } else {
      OtherMove(s, a);
    }
  }

  lemma SecretMove(s: State, a: Action, k: Key)
    requires (a.MakeSecret? || a.CollectSecret?) && k in s.secrets && a != CollectSecret(k)
    ensures k in Others(s, a).secrets && Others(s, a).secrets[k] == s.secrets[k]
  {
    hide Dead;
  }

  lemma OtherMove(s: State, a: Action)
    requires !a.MakeSecret? && !a.CollectSecret?
    ensures Others(s, a).secrets == s.secrets
  {
    if OfObject(a) {
      ObjectMoveSecrets(s, a);
    } else {
      hide Others;
      ChildMoveSecrets(s, a);
    }
  }

  lemma ObjectMoveSecrets(s: State, a: Action)
    requires OfObject(a)
    ensures Others(s, a).secrets == s.secrets
  {
    hide Clean, Fits, Commit;
    forall id, o | id in s.objs ensures Commit(s, id, o).secrets == s.secrets {
      CommitSecrets(s, id, o);
    }
  }

  lemma CommitSecrets(s: State, id: Id, o: Object)
    requires id in s.objs
    ensures Commit(s, id, o).secrets == s.secrets
  {
  }

  lemma ChildMoveSecrets(s: State, a: Action)
    requires !a.MakeSecret? && !a.CollectSecret? && !OfObject(a)
    ensures Others(s, a).secrets == s.secrets
  {
    hide Dead;
  }

  /** No micro-step of any reconcile changes or removes a stored Secret, in any state. */
  lemma SecretsAreWriteOnce(s: State, id: Id, t: Thread, x: Ext, k: Key)
    requires k in s.secrets
    ensures var s' := Step(s, id, t, x).0;
            k in s'.secrets && s'.secrets[k] == s.secrets[k]
  {
    hide Next, NodeWrite, NetworkWrite, CopiedStatus, UpdateObject, UpdateStatus;
    if t.Busy? {
      UpdatesKeepSecrets(s, id, t.obj, x.fault);
      if t.pc.StatusPut? {
        UpdatesKeepSecrets(s, id, t.pc.latest.(status := CopiedStatus(id.kind, t.obj.status, t.pc.latest.status)),
                           x.fault);
      }
      match t.obj.spec
      case NodeSpec(n) => NodeWriteObjects(s, id, t.pc, t.obj, n, x);
      case NetworkSpec(n) => NetworkWriteObjects(s, id, t.pc, t.obj, n, x);
    }
  }

  /** Over a whole run a Secret keeps its data for as long as the collector does not take it. */
  lemma {:induction false} KeysNeverChange(w: World, acts: seq<Action>, k: Key)
    requires k in w.s.secrets
    requires CollectSecret(k) !in acts
    ensures k in Exec(w, acts).s.secrets && Exec(w, acts).s.secrets[k] == w.s.secrets[k]
  {
    if acts != [] {
      var init, a := acts[..|acts| - 1], acts[|acts| - 1];
      hide Step, Others;
      KeysNeverChange(w, init, k);
      var v := Exec(w, init);
      assert a in acts;
      if a.Tick? {
        SecretsAreWriteOnce(v.s, a.id, ThreadOf(v, a.id), a.x, k);
      } else {
        OthersKeepSecret(v.s, a, k);
      }
    }
  }

  /* ----- Non-interference ----- */

  /** A micro-step of one reconcile changes neither the object, nor a child, nor the thread of any other resource. */
  lemma ReconcilesDoNotInterfere(acts: seq<Action>, id: Id, x: Ext, other: Id)
    requires other != id
    ensures var w := Exec(START, acts);
            var w' := Apply(w, Tick(id, x));
            Untouched(w.s, w'.s, other) && ThreadOf(w', other) == ThreadOf(w, other)
  {
    hide Local, Exec, Step, Untouched;
    var w := Exec(START, acts);
    LocalAt(acts, id);
    LocalThread(w.s, id, ThreadOf(w, id));
    StepFrame(w.s, id, ThreadOf(w, id), x, other);
  }

  /* ----- Every reconcile ends ----- */

  /** An upper bound on the calls a thread still makes. */
  function CallsLeft(t: Thread): nat {
    match t
    case Idle(_) => 0
    case Busy(pc, _) =>
      match pc
      case PutFinalizer(_) => 1
      case StatusGet(left, _, _) => 2 * left
      case StatusPut(left, _, _, _) => if left == 0 then 1 else 2 * left - 1
      case NewSvc(_) => 11 case PutSvc(_, _) => 11 case GetSvc(_) => 12
      case NewSet(_) => 13 case PutSet(_, _) => 13 case GetSet(_) => 14
      case NewP2p(_) => 15 case GetP2p(_) => 16 case NewJwt(_) => 17 case GetJwt(_) => 18
      case GetNetwork => 19
      case NewGenesis(_) => 11 case PutGenesis(_, _) => 11 case GetGenesis(_) => 12
      case NewRollup(_) => 13 case PutRollup(_, _) => 13 case GetRollup(_) => 14
      case Discover => 15
      case DialL1 => 16
  }

  lemma NodeNextCalls(s: State, id: Id, pc: Pc, o: Object, n: OpNodeSpec, x: Ext, a: Ack)
    requires !pc.PutFinalizer? && !pc.StatusGet? && !pc.StatusPut?
    ensures CallsLeft(NodeNext(s, id, pc, o, n, x, a)) < CallsLeft(Busy(pc, o))
  {
    hide Mark, Observed, NodeInfoOf;
  }

  lemma NetworkNextCalls(s: State, id: Id, pc: Pc, o: Object, n: OptimismNetworkSpec, x: Ext, a: Ack)
    requires !pc.PutFinalizer? && !pc.StatusGet? && !pc.StatusPut?
    ensures CallsLeft(NetworkNext(s, id, pc, o, n, x, a)) < CallsLeft(Busy(pc, o))
  {
    hide Mark, Observed;
  }

  /** Each answer brings a reconcile closer to its end, whatever the answer is and whatever happened meanwhile. */
  lemma StepCalls(s: State, id: Id, t: Thread, x: Ext)
    ensures t.Busy? && (t.pc.StatusGet? ==> t.pc.left > 0) ==> CallsLeft(Step(s, id, t, x).1) < CallsLeft(t)
  {
    hide Write, NodeNext, NetworkNext, Mark, Observed, NodeSpecError, NetworkSpecError;
    if t.Busy? && !t.pc.PutFinalizer? && !t.pc.StatusGet? && !t.pc.StatusPut? {
      match t.obj.spec
      case NodeSpec(n) => NodeNextCalls(s, id, t.pc, t.obj, n, x, Write(s, id, t, x).1);
      case NetworkSpec(n) => NetworkNextCalls(s, id, t.pc, t.obj, n, x, Write(s, id, t, x).1);
    }
  }

  /** Every call a reconcile makes after its first: nine for the stages of an OpNode, ten for the status. */
  const LONGEST := 19

  function OwnTicks(acts: seq<Action>, id: Id): nat {
    if acts == [] then 0
    else OwnTicks(acts[..|acts| - 1], id) + if acts[|acts| - 1].Tick? && acts[|acts| - 1].id == id then 1 else 0
  }

  lemma BusyBound(s: State, id: Id, t: Thread)
    requires ThreadOk(s, id, t)
    ensures CallsLeft(t) <= LONGEST && (t.Busy? ==> CallsLeft(t) > 0 && (t.pc.StatusGet? ==> t.pc.left > 0))
  {
    hide Live, FinalizerOnly, Writable, Secured, Stateful, Networked, Validated, NetworkRunning, Found;
    hide RollupKept, GenesisKept;
  }

  lemma MoveCalls(w: World, a: Action, id: Id)
    requires Inv(w) && ThreadOf(w, id).Busy? && ThreadOf(Apply(w, a), id).Busy?
    ensures CallsLeft(ThreadOf(Apply(w, a), id)) + OwnTicks([a], id) <= CallsLeft(ThreadOf(w, id))
  {
    hide Local, Step, Others, ThreadOk;
    assert [a][..0] == [];
    assert Local(w.s, id, ThreadOf(w, id));
    LocalThread(w.s, id, ThreadOf(w, id));
    BusyBound(w.s, id, ThreadOf(w, id));
    if a.Tick? && a.id == id {
      StepCalls(w.s, id, ThreadOf(w, id), a.x);
    }
  }

  /** As long as a reconcile goes on, each of its steps uses up a call. */
  lemma {:induction false} CallsUsed(acts: seq<Action>, more: seq<Action>, id: Id)
    requires forall k :: 0 <= k <= |more| ==> ThreadOf(Exec(Exec(START, acts), more[..k]), id).Busy?
    ensures CallsLeft(ThreadOf(Exec(Exec(START, acts), more), id)) + OwnTicks(more, id)
            <= CallsLeft(ThreadOf(Exec(START, acts), id))
  {
    var w := Exec(START, acts);
    assert more[..|more|] == more;
    if more != [] {
      var init, a := more[..|more| - 1], more[|more| - 1];
      forall k | 0 <= k <= |init| ensures ThreadOf(Exec(w, init[..k]), id).Busy? {
        assert init[..k] == more[..k];
      }
      CallsUsed(acts, init, id);
      ExecConcat(START, acts, init);
      Reachable(acts + init);
      ExecSnoc(w, more);
      assert [a][..0] == [];
      hide Inv, Apply, Exec;
      MoveCalls(Exec(w, init), a, id);
    }
  }

  /** In every run, under every schedule of conflicts, faults and moves of the others: within any stretch that has
      nineteen steps of a reconcile, the reconcile is at its end. */
  lemma EveryReconcileEnds(acts: seq<Action>, more: seq<Action>, id: Id)
    requires OwnTicks(more, id) >= LONGEST
    ensures exists k :: 0 <= k <= |more| && ThreadOf(Exec(Exec(START, acts), more[..k]), id).Idle?
  {
    hide Exec;
    var w := Exec(START, acts);
    BusyAt(acts, id);
    BusyAt(acts + more, id);
    ExecConcat(START, acts, more);
    assert more[..|more|] == more;
    if forall k :: 0 <= k <= |more| ==> ThreadOf(Exec(w, more[..k]), id).Busy? {
      CallsUsed(acts, more, id);
    }
  }

  lemma BusyAt(acts: seq<Action>, id: Id)
    ensures var t := ThreadOf(Exec(START, acts), id); CallsLeft(t) <= LONGEST && (t.Busy? ==> CallsLeft(t) > 0)
  {
    hide Local, ThreadOk, Exec;
    var w := Exec(START, acts);
    LocalAt(acts, id);
    LocalThread(w.s, id, ThreadOf(w, id));
    BusyBound(w.s, id, ThreadOf(w, id));
  }
}
