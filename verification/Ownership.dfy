/** When the claims about children hold.  An object may be created while children of an earlier object of its name are
    left, and the collector may take those at any time; the invariant leaves such objects, the heirs, out.  Here it is
    shown that no step depends on who is an heir, so the claims come back as soon as they hold and no leftover is there,
    and, conversely, that a leftover always leads to a state where they fail. */
module Ownership {
  import opened Types
  import opened Builders
  import opened Store
  import opened Machine
  import opened Invariants
  import opened Runs
  import opened Safety

  /* ----- Nobody reads who is an heir ----- */

  function With(s: State, heirs: set<Id>): State {
    s.(heirs := heirs)
  }

  lemma CommitWith(s: State, h: set<Id>, id: Id, o: Object)
    requires id in s.objs
    ensures Commit(With(s, h), id, o) == With(Commit(s, id, o), h)
  {
  }

  lemma UpdatesWith(s: State, h: set<Id>, id: Id, o: Object, f: Fault)
    ensures var (r, r') := (UpdateObject(s, id, o, f), UpdateObject(With(s, h), id, o, f)); r' == (With(r.0, h), r.1)
    ensures var (r, r') := (UpdateStatus(s, id, o, f), UpdateStatus(With(s, h), id, o, f)); r' == (With(r.0, h), r.1)
  {
    hide Commit;
    if id in s.objs {
      CommitWith(s, h, id, s.objs[id].WithSpec(o.spec).(finalizers := o.finalizers));
      CommitWith(s, h, id, s.objs[id].(status := o.status));
    }
  }

  lemma SecretWith(s: State, h: set<Id>, k: Key, v: Secret, f: Fault)
    ensures var (r, r') := (CreateSecret(s, k, v, f), CreateSecret(With(s, h), k, v, f)); r' == (With(r.0, h), r.1)
  {
  }

  lemma ReplaceWith(s: State, h: set<Id>, k: Key, v: StatefulSet, b: Built)
    ensures ReplaceSet(With(s, h), k, v, b) == With(ReplaceSet(s, k, v, b), h)
  {
    var built := s.built[k := b];
    if k in s.sets && s.sets[k] == v {
      assert ReplaceSet(s, k, v, b) == s.(built := built);
    } else {
      assert ReplaceSet(s, k, v, b) == s.(sets := s.sets[k := v.(rv := s.next)], built := built, next := s.next + 1);
    }
  }

  lemma SetsWith(s: State, h: set<Id>, k: Key, v: StatefulSet, b: Built, f: Fault)
    ensures var (r, r') := (CreateSet(s, k, v, b, f), CreateSet(With(s, h), k, v, b, f)); r' == (With(r.0, h), r.1)
    ensures var (r, r') := (UpdateSet(s, k, v, b, f), UpdateSet(With(s, h), k, v, b, f)); r' == (With(r.0, h), r.1)
  {
    hide ReplaceSet, Replaceable;
    ReplaceWith(s, h, k, v, b);
  }

  lemma ServicesWith(s: State, h: set<Id>, k: Key, v: Service, f: Fault)
    ensures var (r, r') := (CreateService(s, k, v, f), CreateService(With(s, h), k, v, f)); r' == (With(r.0, h), r.1)
    ensures var (r, r') := (UpdateService(s, k, v, f), UpdateService(With(s, h), k, v, f)); r' == (With(r.0, h), r.1)
  {
  }

  lemma ConfigsWith(s: State, h: set<Id>, k: Key, v: ConfigMap, f: Fault)
    ensures var (r, r') := (CreateConfig(s, k, v, f), CreateConfig(With(s, h), k, v, f)); r' == (With(r.0, h), r.1)
    ensures var (r, r') := (UpdateConfig(s, k, v, f), UpdateConfig(With(s, h), k, v, f)); r' == (With(r.0, h), r.1)
  {
  }

  lemma NodeWriteWith(s: State, h: set<Id>, id: Id, pc: Pc, o: Object, n: OpNodeSpec, x: Ext)
    ensures var (r, r') := (NodeWrite(s, id, pc, o, n, x), NodeWrite(With(s, h), id, pc, o, n, x));
            r' == (With(r.0, h), r.1)
  {
    hide With, CreateSecret, CreateSet, UpdateSet, CreateService, UpdateService;
    hide NewSetOf, EditedSet, NewServiceOf, EditedService, NewJwtOf, NewP2pOf, JwtKey, P2pKey, KeyOf;
    match pc
    case NewJwt(_) => SecretWith(s, h, JwtKey(id), NewJwtOf(o, x.key), x.fault);
    case NewP2p(_) => SecretWith(s, h, P2pKey(id), NewP2pOf(o, x.key), x.fault);
    case NewSet(net) => SetsWith(s, h, KeyOf(id), NewSetOf(id, o, n, net), Built(n, net), x.fault);
    case PutSet(net, cur) => SetsWith(s, h, KeyOf(id), EditedSet(id, cur, n, net), Built(n, net), x.fault);
    case NewSvc(net) => ServicesWith(s, h, KeyOf(id), NewServiceOf(id, o, n, net), x.fault);
    case PutSvc(net, cur) => ServicesWith(s, h, KeyOf(id), EditedService(id, cur, n, net), x.fault);
    case _ =>
  }

  lemma NetworkWriteWith(s: State, h: set<Id>, id: Id, pc: Pc, o: Object, n: OptimismNetworkSpec, x: Ext)
    ensures var (r, r') := (NetworkWrite(s, id, pc, o, n, x), NetworkWrite(With(s, h), id, pc, o, n, x));
            r' == (With(r.0, h), r.1)
  {
    hide With, CreateConfig, UpdateConfig, RollupOf, GenesisOf, RollupKey, GenesisKey;
    match pc
    case NewRollup(a) => ConfigsWith(s, h, RollupKey(id), ConfigMap(o.uid, 0, RollupOf(n, a)), x.fault);
    case PutRollup(a, cur) => ConfigsWith(s, h, RollupKey(id), cur.(data := RollupOf(n, a)), x.fault);
    case NewGenesis(_) => ConfigsWith(s, h, GenesisKey(id), ConfigMap(o.uid, 0, GenesisOf(n)), x.fault);
    case PutGenesis(_, cur) => ConfigsWith(s, h, GenesisKey(id), cur.(data := GenesisOf(n)), x.fault);
    case _ =>
  }

  lemma NextWith(s: State, h: set<Id>, id: Id, t: Thread, x: Ext, a: Ack)
    ensures Next(With(s, h), id, t, x, a) == Next(s, id, t, x, a)
  {
    hide Fetched, NetworkFetched, JwtDone, SecretsDone, SecretsFailed, SetDone, SetFailed, SvcDone, SvcFailed;
    hide RollupDone, NetworkDone, ConfigFailed, Discovered, Mark, InPhase, WriteStatus;
  }

  lemma StepWith(s: State, h: set<Id>, id: Id, t: Thread, x: Ext)
    ensures var (r, r') := (Step(s, id, t, x), Step(With(s, h), id, t, x)); r' == (With(r.0, h), r.1)
  {
    hide Next, NodeWrite, NetworkWrite, UpdateObject, UpdateStatus, CopiedStatus, With;
    NextWith(s, h, id, t, x, Write(s, id, t, x).1);
    if t.Busy? {
      UpdatesWith(s, h, id, t.obj, x.fault);
      if t.pc.StatusPut? {
        UpdatesWith(s, h, id, t.pc.latest.(status := CopiedStatus(id.kind, t.obj.status, t.pc.latest.status)), x.fault);
      } else {
        match t.obj.spec
        case NodeSpec(n) => NodeWriteWith(s, h, id, t.pc, t.obj, n, x);
        case NetworkSpec(n) => NetworkWriteWith(s, h, id, t.pc, t.obj, n, x);
      }
    }
  }

  lemma CreateWith(s: State, h: set<Id>, id: Id, spec: Spec, fs: set<Finalizer>)
    ensures var a := Create(id, spec, fs);
            Others(With(s, h), a) == With(Others(s, a), Others(With(s, h), a).heirs)
  {
    hide Clean, Fits;
    var s', h' := Others(s, Create(id, spec, fs)), Others(With(s, h), Create(id, spec, fs)).heirs;
    if id in s.objs || !Fits(id.kind, spec) {
      assert s' == s && h' == h;
    } else {
      assert s' == s.(objs := s'.objs, heirs := s'.heirs, next := s.next + 1);
    }
  }

  lemma TouchWith(s: State, h: set<Id>, id: Id)
    ensures Others(With(s, h), Touch(id)) == With(Others(s, Touch(id)), h)
  {
  }

  lemma EditWith(s: State, h: set<Id>, a: Action)
    requires a.Edit? || a.Finalizers? || a.Delete?
    ensures Others(With(s, h), a) == With(Others(s, a), h)
  {
    hide Fits, Commit;
    if a.id in s.objs {
      var o := s.objs[a.id];
      CommitWith(s, h, a.id, match a
                             case Edit(_, spec) => o.WithSpec(spec)
                             case Finalizers(_, fs) => o.(finalizers := fs)
                             case _ => o.(deleting := true));
    }
  }

  lemma DeadWith(s: State, h: set<Id>, u: nat)
    ensures Dead(With(s, h), u) <==> Dead(s, u)
  {
  }

  lemma SecretMoveWith(s: State, h: set<Id>, a: Action)
    requires a.MakeSecret? || a.CollectSecret?
    ensures Others(With(s, h), a) == With(Others(s, a), h)
  {
    hide Dead;
    forall u: nat ensures Dead(With(s, h), u) <==> Dead(s, u) { DeadWith(s, h, u); }
  }

  lemma SetMoveWith(s: State, h: set<Id>, a: Action)
    requires a.TouchSet? || a.CollectSet?
    ensures Others(With(s, h), a) == With(Others(s, a), h)
  {
    hide Dead;
    forall u: nat ensures Dead(With(s, h), u) <==> Dead(s, u) { DeadWith(s, h, u); }
  }

  lemma ServiceMoveWith(s: State, h: set<Id>, a: Action)
    requires a.TouchService? || a.CollectService?
    ensures Others(With(s, h), a) == With(Others(s, a), h)
  {
    hide Dead;
    forall u: nat ensures Dead(With(s, h), u) <==> Dead(s, u) { DeadWith(s, h, u); }
  }

  lemma ConfigMoveWith(s: State, h: set<Id>, a: Action)
    requires a.TouchConfig? || a.CollectConfig?
    ensures Others(With(s, h), a) == With(Others(s, a), h)
  {
    hide Dead;
    forall u: nat ensures Dead(With(s, h), u) <==> Dead(s, u) { DeadWith(s, h, u); }
  }

  /** A move of another party makes heirs of those it made heirs of before, and is else the same. */
  lemma OthersWith(s: State, h: set<Id>, a: Action)
    ensures Others(With(s, h), a) == With(Others(s, a), Others(With(s, h), a).heirs)
  {
    hide Others;
    match a
    case Create(id, spec, fs) => CreateWith(s, h, id, spec, fs);
    case Touch(id) => TouchWith(s, h, id);
    case Edit(_, _) => EditWith(s, h, a);
    case Finalizers(_, _) => EditWith(s, h, a);
    case Delete(_) => EditWith(s, h, a);
    case MakeSecret(_, _) => SecretMoveWith(s, h, a);
    case CollectSecret(_) => SecretMoveWith(s, h, a);
    case TouchSet(_) => SetMoveWith(s, h, a);
    case CollectSet(_) => SetMoveWith(s, h, a);
    case TouchService(_) => ServiceMoveWith(s, h, a);
    case CollectService(_) => ServiceMoveWith(s, h, a);
    case TouchConfig(_) => ConfigMoveWith(s, h, a);
    case CollectConfig(_) => ConfigMoveWith(s, h, a);
    case Tick(_, _) =>
      OperatorMove(s, a);
      OperatorMove(With(s, h), a);
    case Crash(_) =>
      OperatorMove(s, a);
      OperatorMove(With(s, h), a);
  }

  /** The same world but for who is an heir. */
  ghost predicate Alike(w: World, w': World) {
    w'.threads == w.threads && w'.s == With(w.s, w'.s.heirs)
  }

  lemma ApplyAlike(w: World, w': World, a: Action)
    requires Alike(w, w')
    ensures Alike(Apply(w, a), Apply(w', a))
  {
    hide Step, Others;
    var h := w'.s.heirs;
    if a.Tick? {
      StepWith(w.s, h, a.id, ThreadOf(w, a.id), a.x);
    } else if a.Crash? {
    } else {
      OthersWith(w.s, h, a);
    }
  }

  lemma {:induction false} ExecAlike(w: World, w': World, acts: seq<Action>)
    requires Alike(w, w')
    ensures Alike(Exec(w, acts), Exec(w', acts))
  {
    if acts != [] {
      hide Apply, Alike;
      ExecAlike(w, w', acts[..|acts| - 1]);
      ApplyAlike(Exec(w, acts[..|acts| - 1]), Exec(w', acts[..|acts| - 1]), acts[|acts| - 1]);
    }
  }

  /* ----- Starting over ----- */

  /** No reconcile is at work on the object, or only at its finalizer. */
  predicate Rested(t: Thread) {
    t.Busy? ==> t.pc.PutFinalizer?
  }

  /** The children are the object's own and in order. */
  ghost predicate Owns(s: State, id: Id) {
    id in s.objs ==>
      match id.kind
      case NodeKind => OwnNodeChildren(s, id, s.objs[id].uid)
      case NetworkKind => OwnConfigs(s, id, s.objs[id])
  }

  /** The world in which `id` counts as no heir. */
  function Cleared(w: World, id: Id): World {
    w.(s := With(w.s, w.s.heirs - {id}))
  }

  lemma ClearedLocal(s: State, id: Id, t: Thread)
    requires Local(s, id, t) && Rested(t) && Owns(s, id)
    ensures Local(With(s, s.heirs - {id}), id, t)
  {
    hide StatusOk, OwnNodeChildren, OwnConfigs;
    if id in s.objs {
      OwnsWith(s, s.heirs - {id}, id, s.objs[id]);
    }
  }

  lemma OwnsWith(s: State, h: set<Id>, id: Id, o: Object)
    ensures OwnNodeChildren(With(s, h), id, o.uid) <==> OwnNodeChildren(s, id, o.uid)
    ensures OwnConfigs(With(s, h), id, o) <==> OwnConfigs(s, id, o)
  {
    hide DesiredSet;
  }

  lemma ClearedInv(w: World, id: Id)
    requires Inv(w) && Rested(ThreadOf(w, id)) && Owns(w.s, id)
    ensures Inv(Cleared(w, id)) && Alike(w, Cleared(w, id))
  {
    hide Local, Owns, Untouched;
    var v := Cleared(w, id);
    forall j ensures Local(v.s, j, ThreadOf(v, j)) {
      assert Local(w.s, j, ThreadOf(w, j));
      if j == id {
        ClearedLocal(w.s, id, ThreadOf(w, id));
      } else {
        ClearedFrame(w.s, id, j);
        Frame(w.s, v.s, j, ThreadOf(w, j));
      }
    }
  }

  lemma ClearedFrame(s: State, id: Id, j: Id)
    requires j != id
    ensures Untouched(s, With(s, s.heirs - {id}), j)
  {
  }

  lemma {:induction false} InvStays(w: World, acts: seq<Action>)
    requires Inv(w)
    ensures Inv(Exec(w, acts))
  {
    if acts != [] {
      hide Inv, Apply;
      InvStays(w, acts[..|acts| - 1]);
      ApplyInv(Exec(w, acts[..|acts| - 1]), acts[|acts| - 1]);
    }
  }

  /** Only its creation can make a stored object an heir. */
  lemma HeirsKept(w: World, a: Action, id: Id)
    requires id in w.s.objs
    ensures id in Apply(w, a).s.heirs <==> id in w.s.heirs
  {
    hide Step, Others;
    if a.Tick? {
      StepHeirs(w.s, a.id, ThreadOf(w, a.id), a.x);
    } else if !a.Crash? {
      OthersHeirs(w.s, a, id);
    }
  }

  lemma OthersHeirs(s: State, a: Action, id: Id)
    requires id in s.objs
    ensures id in Others(s, a).heirs <==> id in s.heirs
  {
    hide Clean, Fits, Dead, Commit;
    if OfObject(a) && a.id in s.objs {
      var o := s.objs[a.id];
      CommitHeirs(s, a.id, match a
                           case Edit(_, spec) => o.WithSpec(spec)
                           case Finalizers(_, fs) => o.(finalizers := fs)
                           case _ => o.(deleting := true));
    }
  }

  lemma CommitHeirs(s: State, id: Id, o: Object)
    requires id in s.objs
    ensures Commit(s, id, o).heirs == s.heirs
  {
  }

  lemma StepHeirs(s: State, id: Id, t: Thread, x: Ext)
    ensures Step(s, id, t, x).0.heirs == s.heirs
  {
    hide Step, Next;
    StepWith(s, {}, id, t, x);
    StepWith(s, s.heirs, id, t, x);
  }

  /** In both worlds the object of `id` is there, and it is the same incarnation. */
  ghost predicate SameObject(w: World, v: World, id: Id) {
    id in w.s.objs && id in v.s.objs && v.s.objs[id].uid == w.s.objs[id].uid
  }

  /** Who is no heir stays none for the life of the object. */
  lemma {:induction false} NoHeirStays(w: World, acts: seq<Action>, id: Id)
    requires Inv(w) && id in w.s.objs && id !in w.s.heirs
    ensures w.s.next <= Exec(w, acts).s.next
    ensures SameObject(w, Exec(w, acts), id) ==> id !in Exec(w, acts).s.heirs
  {
    OldUid(w, id);
    if acts != [] {
      var init, a := acts[..|acts| - 1], acts[|acts| - 1];
      NoHeirStays(w, init, id);
      InvStays(w, init);
      hide Inv, Apply;
      MoveEvolves(Exec(w, init), a, id);
      if id in Exec(w, init).s.objs {
        HeirsKept(Exec(w, init), a, id);
      }
    }
  }

  lemma OldUid(w: World, id: Id)
    requires Inv(w) && id in w.s.objs
    ensures w.s.objs[id].uid < w.s.next
  {
    hide ThreadOk, StatusOk, ChildrenOk;
    assert Local(w.s, id, ThreadOf(w, id));
  }

  /** From any world on in which an object at rest owns its children, it owns them for as long as it lives. */
  lemma OwnsForLife(w: World, acts: seq<Action>, id: Id)
    requires Inv(w) && id in w.s.objs && Rested(ThreadOf(w, id)) && Owns(w.s, id)
    requires SameObject(w, Exec(w, acts), id)
    ensures Owns(Exec(w, acts).s, id)
  {
    hide Inv, Exec, Alike, Local, Owns;
    var w', v := Cleared(w, id), Exec(w, acts);
    ClearedInv(w, id);
    InvStays(w', acts);
    NoHeirStays(w', acts, id);
    ExecAlike(w, w', acts);
    var v' := Exec(w', acts);
    AlikeObject(v, v', id);
    InvAt(v', id);
    LocalOwns(v'.s, id, ThreadOf(v', id));
    AlikeOwns(v, v', id);
  }

  lemma InvAt(w: World, id: Id)
    requires Inv(w)
    ensures Local(w.s, id, ThreadOf(w, id))
  {
  }

  lemma AlikeObject(w: World, w': World, id: Id)
    requires Alike(w, w')
    ensures w'.s.objs == w.s.objs
  {
  }

  lemma LocalOwns(s: State, id: Id, t: Thread)
    requires Local(s, id, t) && id !in s.heirs
    ensures Owns(s, id)
  {
    hide OwnNodeChildren, OwnConfigs, StatusOk, ThreadOk;
  }

  lemma AlikeOwns(w: World, w': World, id: Id)
    requires Alike(w, w')
    ensures Owns(w.s, id) <==> Owns(w'.s, id)
  {
    hide OwnNodeChildren, OwnConfigs;
    if id in w.s.objs {
      OwnsWith(w.s, w'.s.heirs, id, w.s.objs[id]);
    }
  }
}
