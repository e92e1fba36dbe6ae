/** The claims about the children of an object that is being deleted.  It is not reconciled any more: nothing brings
    it a child, and only an orphan that a claim needs is a danger. */
module Departure {
  import opened Types
  import opened Builders
  import opened Store
  import opened Machine
  import opened Invariants
  import opened Runs
  import opened Safety
  import opened Lineage
  import opened Ownership
  import opened Claims
  import Conditions

  /** A Secret or ConfigMap the collector leaves alone as long as the object `u` is there. */
  predicate SafeSecret(s: State, k: Key, u: nat) {
    k in s.secrets && s.secrets[k].owner in {None, Some(u)}
  }

  predicate SafeConfig(s: State, k: Key, u: nat) {
    k in s.configs && s.configs[k].owner == u
  }

  ghost predicate DepartingNode(s: State, id: Id, u: nat) {
    && NodeClaims(s, id, u)
    && (KeyOf(id) in s.sets ==>
          SafeSecret(s, JwtKey(id), u) && (Generates(s.built[KeyOf(id)].spec) ==> SafeSecret(s, P2pKey(id), u)))
  }

  /** The network says it is Ready for the spec it has. */
  predicate SaysReady(o: Object) {
    o.status.phase.Ready? && o.status.observedGeneration == o.Generation() && o.spec.NetworkSpec?
  }

  ghost predicate DepartingNetwork(s: State, id: Id, o: Object) {
    && NetworkClaims(s, id, o)
    && (SaysReady(o) ==>
          && (AutoDiscovers(o.spec.network.rollupConfig) ==> SafeConfig(s, RollupKey(id), o.uid))
          && (AutoDiscovers(o.spec.network.l2Genesis) ==> SafeConfig(s, GenesisKey(id), o.uid)))
  }

  ghost predicate Departing(s: State, id: Id, t: Thread)
    requires id in s.objs
  {
    && s.objs[id].deleting && Rested(t)
    && match id.kind
       case NodeKind => DepartingNode(s, id, s.objs[id].uid)
       case NetworkKind => DepartingNetwork(s, id, s.objs[id])
  }

  /* ----- Moves of the others ----- */

  lemma SafeSecretStays(s: State, a: Action, id: Id, k: Key)
    requires id in s.objs && SafeSecret(s, k, s.objs[id].uid)
    ensures k in Others(s, a).secrets && Others(s, a).secrets[k] == s.secrets[k]
  {
    hide Others;
    if a == CollectSecret(k) {
      Uncollectable(s, id, k);
    } else {
      OthersKeepSecret(s, a, k);
    }
  }

  lemma Uncollectable(s: State, id: Id, k: Key)
    requires id in s.objs && SafeSecret(s, k, s.objs[id].uid)
    ensures Others(s, CollectSecret(k)) == s
  {
  }

  lemma OwnSetStays(s: State, a: Action, id: Id)
    requires !OfObject(a) && id in s.objs && KeyOf(id) in s.sets && s.sets[KeyOf(id)].owner == s.objs[id].uid
    ensures KeyOf(id) in Others(s, a).sets
  {
    hide KeyOf;
  }

  lemma SafeConfigStays(s: State, a: Action, id: Id, k: Key)
    requires !OfObject(a) && id in s.objs && SafeConfig(s, k, s.objs[id].uid)
    ensures SafeConfig(Others(s, a), k, s.objs[id].uid) && Others(s, a).configs[k].data == s.configs[k].data
  {
  }

  lemma CommitStores(s: State, i: Id, o: Object, id: Id)
    requires i in s.objs && id in Commit(s, i, o).objs
    ensures id in s.objs
    ensures Commit(s, i, o).objs[id] == if id == i then o.(rv := Commit(s, i, o).objs[id].rv) else s.objs[id]
  {
    if o == s.objs[i] {
      assert Commit(s, i, o) == s;
    } else if o.deleting && o.finalizers == {} {
      assert Commit(s, i, o).objs == s.objs - {i};
    } else {
      assert Commit(s, i, o).objs == s.objs[i := o.(rv := s.next)];
    }
  }

  /** What happens to an object: its status stays, and its spec changes only together with the generation. */
  ghost predicate Later(o: Object, o': Object) {
    && (o.deleting ==> o'.deleting) && o'.status == o.status && o'.uid == o.uid
    && (o' == o.(rv := o'.rv, finalizers := o'.finalizers, deleting := o'.deleting) || o'.past == o.History())
  }

  lemma EditsKeep(s: State, a: Action, id: Id)
    requires OfObject(a) && id in s.objs && id in Others(s, a).objs
    ensures Later(s.objs[id], Others(s, a).objs[id])
  {
    hide Clean, Fits, Commit;
    if a.id in s.objs && !a.Create? && !a.Touch? {
      var o := s.objs[a.id];
      var o' := match a
                case Edit(_, spec) => o.WithSpec(spec)
                case Finalizers(_, fs) => o.(finalizers := fs)
                case _ => o.(deleting := true);
      assert Others(s, a) == s || Others(s, a) == Commit(s, a.id, o');
      if Others(s, a) != s {
        CommitStores(s, a.id, o', id);
      }
    }
  }

  lemma NodeDeparts(s: State, a: Action, id: Id)
    requires id in s.objs && id.kind.NodeKind? && DepartingNode(s, id, s.objs[id].uid)
    ensures DepartingNode(Others(s, a), id, s.objs[id].uid)
  {
    hide Others, Generates, JwtKey, P2pKey, KeyOf;
    var u := s.objs[id].uid;
    OthersChildren(s, a);
    if SafeSecret(s, JwtKey(id), u) {
      SafeSecretStays(s, a, id, JwtKey(id));
    }
    if SafeSecret(s, P2pKey(id), u) {
      SafeSecretStays(s, a, id, P2pKey(id));
    }
    if OfObject(a) {
      ObjectMoveRest(s, a, id);
    } else if KeyOf(id) in s.svcs {
      OwnSetStays(s, a, id);
    }
  }

  /** If the network says so after the move, it said so before, of the same spec. */
  lemma LaterSays(o: Object, o': Object)
    requires Later(o, o') && SaysReady(o') && o.status.observedGeneration <= o.Generation()
    ensures SaysReady(o) && o'.spec == o.spec
  {
  }

  lemma NetworkDeparts(s: State, a: Action, id: Id)
    requires id in s.objs && id.kind.NetworkKind? && DepartingNetwork(s, id, s.objs[id])
    requires s.objs[id].status.observedGeneration <= s.objs[id].Generation()
    requires id in Others(s, a).objs
    ensures DepartingNetwork(Others(s, a), id, Others(s, a).objs[id])
  {
    hide Others, RollupKey, GenesisKey;
    if OfObject(a) {
      EditsKeep(s, a, id);
      ObjectMoveRest(s, a, id);
      if SaysReady(Others(s, a).objs[id]) {
        LaterSays(s.objs[id], Others(s, a).objs[id]);
      }
    } else {
      hide SafeConfig;
      OtherMoveObjects(s, a);
      ConfigsDepart(s, a, id);
    }
  }

  lemma ConfigsDepart(s: State, a: Action, id: Id)
    requires !OfObject(a) && id in s.objs && Others(s, a).objs == s.objs && DepartingNetwork(s, id, s.objs[id])
    ensures DepartingNetwork(Others(s, a), id, s.objs[id])
  {
    hide Others, RollupKey, GenesisKey;
    var u := s.objs[id].uid;
    if SafeConfig(s, RollupKey(id), u) {
      SafeConfigStays(s, a, id, RollupKey(id));
    }
    if SafeConfig(s, GenesisKey(id), u) {
      SafeConfigStays(s, a, id, GenesisKey(id));
    }
  }

  /* ----- Micro-steps ----- */

  /** The reconcile of an object that is being deleted takes its finalizer away, and that is all. */
  lemma LastSteps(s: State, id: Id, t: Thread, x: Ext)
    requires id in s.objs && ThreadOk(s, id, t) && Rested(t) && s.objs[id].deleting
    ensures var (s', t') := Step(s, id, t, x);
            && Rested(t') && s' == s.(objs := s'.objs, next := s'.next)
            && (id in s'.objs ==> Later(s.objs[id], s'.objs[id]))
  {
    hide NodeChecked, NetworkChecked, NodeWrite, NetworkWrite, NodeNext, NetworkNext, Commit, UpdateStatus, Stage;
    if t.Busy? {
      hide FinalizerOnly, UpdateObject;
      UpdateRest(s, id, t.obj, x.fault, id);
      FinalizerLater(s, id, t.obj, x.fault);
    }
  }

  lemma FinalizerLater(s: State, id: Id, o: Object, f: Fault)
    requires id in s.objs && FinalizerOnly(s, id, o)
    ensures var s' := UpdateObject(s, id, o, f).0; id in s'.objs ==> Later(s.objs[id], s'.objs[id])
  {
    hide Commit;
    var o' := s.objs[id].WithSpec(o.spec).(finalizers := o.finalizers);
    if UpdateObject(s, id, o, f).0 != s && id in UpdateObject(s, id, o, f).0.objs {
      CommitStores(s, id, o', id);
    }
  }

  lemma DepartsByOwnStep(s: State, s': State, id: Id)
    requires id in s.objs && id in s'.objs && s' == s.(objs := s'.objs, next := s'.next)
             && Later(s.objs[id], s'.objs[id])
    requires s.objs[id].status.observedGeneration <= s.objs[id].Generation()
    ensures DepartingNode(s, id, s.objs[id].uid) ==> DepartingNode(s', id, s'.objs[id].uid)
    ensures DepartingNetwork(s, id, s.objs[id]) ==> DepartingNetwork(s', id, s'.objs[id])
  {
    hide Generates;
    if SaysReady(s'.objs[id]) {
      LaterSays(s.objs[id], s'.objs[id]);
    }
  }

  lemma DepartsBesides(s: State, s': State, id: Id)
    requires id in s.objs && Untouched(s, s', id)
    ensures id in s'.objs && s'.objs[id] == s.objs[id]
    ensures id.kind.NodeKind? && DepartingNode(s, id, s.objs[id].uid) ==> DepartingNode(s', id, s'.objs[id].uid)
    ensures id.kind.NetworkKind? && DepartingNetwork(s, id, s.objs[id]) ==> DepartingNetwork(s', id, s'.objs[id])
  {
    hide Generates, JwtKey, P2pKey, KeyOf, RollupKey, GenesisKey;
  }

  lemma ObservesPast(s: State, id: Id, t: Thread)
    requires Local(s, id, t) && id in s.objs
    ensures s.objs[id].status.observedGeneration <= s.objs[id].Generation()
  {
    hide ThreadOk, ChildrenOk, Conditions.IsTrue, NodeSpecError, NetworkSpecError;
  }

  lemma MoveDeparts(w: World, a: Action, id: Id)
    requires Inv(w) && id in w.s.objs && Departing(w.s, id, ThreadOf(w, id)) && SameObject(w, Apply(w, a), id)
    ensures Departing(Apply(w, a).s, id, ThreadOf(Apply(w, a), id))
  {
    hide Local, Step, Others, DepartingNode, DepartingNetwork, Rested, ThreadOk, Untouched;
    var s, t := w.s, ThreadOf(w, id);
    InvAt(w, id);
    ObservesPast(s, id, t);
    if a.Tick? && a.id == id {
      LocalThread(s, id, t);
      LastSteps(s, id, t, a.x);
      DepartsByOwnStep(s, Apply(w, a).s, id);
    } else if a.Tick? {
      InvAt(w, a.id);
      LocalThread(s, a.id, ThreadOf(w, a.id));
      StepFrame(s, a.id, ThreadOf(w, a.id), a.x, id);
      DepartsBesides(s, Apply(w, a).s, id);
    } else if a.Crash? {
      RestedIdle();
    } else {
      if OfObject(a) {
        EditsKeep(s, a, id);
      } else {
        OtherMoveObjects(s, a);
      }
      if id.kind.NodeKind? {
        NodeDeparts(s, a, id);
      } else {
        NetworkDeparts(s, a, id);
      }
    }
  }

  lemma RestedIdle()
    ensures Rested(Idle(Nothing))
  {
  }

  /** An object that is being deleted and departs well does so until it is gone. */
  lemma {:induction false} DepartsForLife(w: World, acts: seq<Action>, id: Id)
    requires Inv(w) && id in w.s.objs && Departing(w.s, id, ThreadOf(w, id))
    ensures SameObject(w, Exec(w, acts), id) ==> Departing(Exec(w, acts).s, id, ThreadOf(Exec(w, acts), id))
    ensures w.s.next <= Exec(w, acts).s.next
  {
    OldUid(w, id);
    if acts != [] {
      var init, a := acts[..|acts| - 1], acts[|acts| - 1];
      DepartsForLife(w, init, id);
      InvStays(w, init);
      hide Inv, Apply, Departing;
      MoveEvolves(Exec(w, init), a, id);
      if SameObject(w, Exec(w, acts), id) {
        MoveDeparts(Exec(w, init), a, id);
      }
    }
  }

  /* ----- Secrets ----- */

  lemma SafeSecretMove(w: World, a: Action, id: Id, k: Key)
    requires SameObject(w, Apply(w, a), id) && SafeSecret(w.s, k, w.s.objs[id].uid)
    ensures k in Apply(w, a).s.secrets && Apply(w, a).s.secrets[k] == w.s.secrets[k]
  {
    hide Step, Others;
    if a.Tick? {
      SecretsAreWriteOnce(w.s, a.id, ThreadOf(w, a.id), a.x, k);
    } else if !a.Crash? {
      SafeSecretStays(w.s, a, id, k);
    }
  }

  /** A Secret that the OpNode, or nobody, owns stays as it is for the life of the OpNode. */
  lemma {:induction false} SecretStaysForLife(w: World, acts: seq<Action>, id: Id, k: Key)
    requires Inv(w) && id in w.s.objs && SafeSecret(w.s, k, w.s.objs[id].uid)
    ensures SameObject(w, Exec(w, acts), id) ==>
              k in Exec(w, acts).s.secrets && Exec(w, acts).s.secrets[k] == w.s.secrets[k]
    ensures w.s.next <= Exec(w, acts).s.next
  {
    OldUid(w, id);
    if acts != [] {
      var init, a := acts[..|acts| - 1], acts[|acts| - 1];
      SecretStaysForLife(w, init, id, k);
      InvStays(w, init);
      hide Inv, Apply;
      MoveEvolves(Exec(w, init), a, id);
      if SameObject(w, Exec(w, acts), id) {
        SafeSecretMove(Exec(w, init), a, id, k);
      }
    }
  }

  /** In every run: a Secret of a stored OpNode that it made, or somebody else made for it, stays as long as the OpNode
      lives. */
  lemma LiveSecretsStay(acts: seq<Action>, more: seq<Action>, id: Id, k: Key)
    requires var w := Exec(START, acts);
             SameObject(w, Exec(w, more), id) && SafeSecret(w.s, k, w.s.objs[id].uid)
    ensures var w, v := Exec(START, acts), Exec(Exec(START, acts), more);
            k in v.s.secrets && v.s.secrets[k] == w.s.secrets[k]
  {
    hide Exec;
    Reachable(acts);
    SecretStaysForLife(Exec(START, acts), more, id, k);
  }
}
