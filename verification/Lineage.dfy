/** Where children come from, whoever their owner is: a second invariant, without exceptions.  Every child at the names
    of an id was made by some object of that id, from a validated spec; no two objects ever share a UID. */
module Lineage {
  import opened Types
  import opened Builders
  import opened Store
  import opened Machine
  import opened Invariants
  import opened Runs
  import opened Safety

  /** `u` has been given out, and no object but the one of `id` can have it. */
  ghost predicate OwnerOk(s: State, id: Id, u: nat) {
    u < s.next && forall j :: j in s.objs && s.objs[j].uid == u ==> j == id
  }

  ghost predicate SecretOk(s: State, id: Id, k: Key, entry: string) {
    k in s.secrets && s.secrets[k].owner.Some? ==>
      OwnerOk(s, id, s.secrets[k].owner.value) && s.secrets[k].data.Keys == {entry}
  }

  ghost predicate SetOk(s: State, id: Id) {
    KeyOf(id) in s.sets ==>
      && OwnerOk(s, id, s.sets[KeyOf(id)].owner)
      && KeyOf(id) in s.built
      && s.sets[KeyOf(id)].spec == DesiredSet(KeyOf(id), s.built[KeyOf(id)].spec, s.built[KeyOf(id)].net)
      && NodeSpecError(s.built[KeyOf(id)].spec).None?
  }

  /** The selector asks for pods of an OpNode of this name. */
  predicate OfName(selector: map<string, string>, name: string) {
    "app.kubernetes.io/instance" in selector && selector["app.kubernetes.io/instance"] == name
  }

  ghost predicate ServiceOk(s: State, id: Id) {
    KeyOf(id) in s.svcs ==>
      OwnerOk(s, id, s.svcs[KeyOf(id)].owner) && OfName(s.svcs[KeyOf(id)].spec.selector, id.name)
  }

  ghost predicate ConfigOk(s: State, id: Id, k: Key) {
    k in s.configs ==> OwnerOk(s, id, s.configs[k].owner)
  }

  ghost predicate ChildrenLineage(s: State, id: Id) {
    match id.kind
    case NodeKind =>
      && SecretOk(s, id, JwtKey(id), JWT_ENTRY) && SecretOk(s, id, P2pKey(id), P2P_ENTRY)
      && SetOk(s, id) && ServiceOk(s, id)
    case NetworkKind => ConfigOk(s, id, RollupKey(id)) && ConfigOk(s, id, GenesisKey(id))
  }

  /** The same of a child a reconcile has read and is about to write back. */
  ghost predicate ThreadLineage(s: State, id: Id, t: Thread) {
    t.Busy? ==>
      match t.pc
      case PutSet(_, cur) => OwnerOk(s, id, cur.owner)
      case PutSvc(_, cur) => OwnerOk(s, id, cur.owner) && OfName(cur.spec.selector, id.name)
      case PutRollup(_, cur) => OwnerOk(s, id, cur.owner)
      case PutGenesis(_, cur) => OwnerOk(s, id, cur.owner)
      case _ => true
  }

  ghost predicate Descent(s: State, id: Id, t: Thread) {
    && (id in s.objs ==> OwnerOk(s, id, s.objs[id].uid))
    && ChildrenLineage(s, id) && ThreadLineage(s, id, t)
  }

  ghost predicate Lineages(w: World) {
    forall id :: Descent(w.s, id, ThreadOf(w, id))
  }

  /* ----- Moves of the others ----- */

  ghost predicate SecretsFrom(s: State, s': State) {
    forall k :: k in s'.secrets ==> s'.secrets[k].owner.None? || (k in s.secrets && s'.secrets[k] == s.secrets[k])
  }

  ghost predicate SetsFrom(s: State, s': State) {
    && s'.built == s.built
    && forall k :: k in s'.sets ==> k in s.sets && s'.sets[k] == s.sets[k].(rv := s'.sets[k].rv)
  }

  ghost predicate ServicesFrom(s: State, s': State) {
    forall k :: k in s'.svcs ==> k in s.svcs && s'.svcs[k] == s.svcs[k].(rv := s'.svcs[k].rv)
  }

  ghost predicate ConfigsFrom(s: State, s': State) {
    forall k :: k in s'.configs ==> k in s.configs && s'.configs[k] == s.configs[k].(rv := s'.configs[k].rv)
  }

  /** Nobody but the operator makes or edits a child; others only touch and collect, or make Secrets of their own. */
  ghost predicate ChildrenFrom(s: State, s': State) {
    SecretsFrom(s, s') && SetsFrom(s, s') && ServicesFrom(s, s') && ConfigsFrom(s, s')
  }

  lemma CommitRest(s: State, id: Id, o: Object, j: Id)
    requires id in s.objs && o.uid == s.objs[id].uid
    ensures var s' := Commit(s, id, o);
            && s' == s.(objs := s'.objs, next := s'.next) && s.next <= s'.next
            && (j in s'.objs ==> j in s.objs && s.objs[j].uid == s'.objs[j].uid)
  {
  }

  /** A move on an object touches no child; it makes at most one object, with a new UID. */
  lemma ObjectMoveRest(s: State, a: Action, j: Id)
    requires OfObject(a)
    ensures var s' := Others(s, a);
            && s' == s.(objs := s'.objs, heirs := s'.heirs, next := s'.next) && s.next <= s'.next
            && (j in s'.objs ==>
                  || (j in s.objs && s.objs[j].uid == s'.objs[j].uid)
                  || (a.Create? && a.id == j && j !in s.objs && s'.objs[j].uid == s.next < s'.next))
  {
    hide Clean, Fits, Commit;
    if a.id in s.objs && !a.Create? && !a.Touch? {
      var o := s.objs[a.id];
      CommitRest(s, a.id,
                 match a
                 case Edit(_, spec) => o.WithSpec(spec)
                 case Finalizers(_, fs) => o.(finalizers := fs)
                 case _ => o.(deleting := true), j);
    }
  }

  lemma ObjectMoveChildren(s: State, a: Action)
    requires OfObject(a)
    ensures ChildrenFrom(s, Others(s, a))
  {
    hide Others;
    ObjectMoveRest(s, a, a.id);
  }

  lemma SecretMoves(s: State, a: Action)
    requires !OfObject(a)
    ensures SecretsFrom(s, Others(s, a))
  {
    hide Dead;
  }

  lemma SetMoves(s: State, a: Action)
    requires !OfObject(a)
    ensures SetsFrom(s, Others(s, a))
  {
    hide Dead;
  }

  lemma ServiceMoves(s: State, a: Action)
    requires !OfObject(a)
    ensures ServicesFrom(s, Others(s, a))
  {
    hide Dead;
  }

  lemma ConfigMoves(s: State, a: Action)
    requires !OfObject(a)
    ensures ConfigsFrom(s, Others(s, a))
  {
    hide Dead;
  }

  lemma OthersChildren(s: State, a: Action)
    ensures ChildrenFrom(s, Others(s, a))
  {
    hide Others, SecretsFrom, SetsFrom, ServicesFrom, ConfigsFrom;
    if OfObject(a) {
      ObjectMoveChildren(s, a);
    } else {
      SecretMoves(s, a);
      SetMoves(s, a);
      ServiceMoves(s, a);
      ConfigMoves(s, a);
    }
  }

  /** An object made by a move of another party is new; every other object keeps its UID. */
  lemma OthersUids(s: State, a: Action, j: Id)
    ensures s.next <= Others(s, a).next
    ensures j in Others(s, a).objs ==>
              || (j in s.objs && s.objs[j].uid == Others(s, a).objs[j].uid)
              || (a.Create? && a.id == j && j !in s.objs && Others(s, a).objs[j].uid == s.next < Others(s, a).next)
  {
    hide Others;
    if OfObject(a) {
      ObjectMoveRest(s, a, j);
    } else {
      OtherMoveObjects(s, a);
    }
  }

  lemma OtherMoveObjects(s: State, a: Action)
    requires !OfObject(a)
    ensures Others(s, a).objs == s.objs && Others(s, a).heirs == s.heirs && s.next <= Others(s, a).next
  {
    hide Dead;
  }

  /** A child that came from one of `s` has an owner of the same descent. */
  lemma ChildrenDescend(s: State, s': State, id: Id)
    requires ChildrenFrom(s, s') && ChildrenLineage(s, id)
    requires forall u: nat :: OwnerOk(s, id, u) ==> OwnerOk(s', id, u)
    ensures ChildrenLineage(s', id)
  {
    hide OwnerOk, OfName, DesiredSet, NodeSpecError, KeyOf, JwtKey, P2pKey, RollupKey, GenesisKey;
  }

  ghost predicate UidsOld(s: State) {
    forall j :: j in s.objs ==> s.objs[j].uid < s.next
  }

  lemma OthersDescent(s: State, a: Action, id: Id, t: Thread)
    requires Descent(s, id, t) && UidsOld(s)
    ensures Descent(Others(s, a), id, t)
  {
    hide Others, ChildrenFrom, ChildrenLineage, ThreadLineage;
    var s' := Others(s, a);
    forall j ensures s.next <= s'.next
      ensures j in s'.objs ==>
                || (j in s.objs && s.objs[j].uid == s'.objs[j].uid)
                || (a.Create? && a.id == j && j !in s.objs && s'.objs[j].uid == s.next < s'.next)
    {
      OthersUids(s, a, j);
    }
    OthersChildren(s, a);
    ChildrenDescend(s, s', id);
    ThreadDescends(s, s', id, t);
  }

  lemma ThreadDescends(s: State, s': State, id: Id, t: Thread)
    requires ThreadLineage(s, id, t) && forall u: nat :: OwnerOk(s, id, u) ==> OwnerOk(s', id, u)
    ensures ThreadLineage(s', id, t)
  {
    hide OwnerOk, OfName;
  }

  /* ----- Micro-steps ----- */

  lemma SameObjects(s: State, s': State, id: Id)
    requires s'.objs == s.objs && s.next <= s'.next
    ensures forall u: nat :: OwnerOk(s, id, u) ==> OwnerOk(s', id, u)
  {
  }

  lemma SecretWritten(s: State, id: Id, k: Key, entry: string, v: Secret, f: Fault)
    requires id.kind.NodeKind? && ChildrenLineage(s, id)
    requires (k == JwtKey(id) && entry == JWT_ENTRY) || (k == P2pKey(id) && entry == P2P_ENTRY)
    requires v.owner.Some? && OwnerOk(s, id, v.owner.value) && v.data.Keys == {entry}
    ensures ChildrenLineage(CreateSecret(s, k, v, f).0, id)
  {
    hide OwnerOk, DesiredSet, NodeSpecError, KeyOf, JwtKey, P2pKey, JWT_ENTRY, P2P_ENTRY;
    DerivedNames(id, id);
    SameObjects(s, CreateSecret(s, k, v, f).0, id);
  }

  lemma SetReplaced(s: State, id: Id, v: StatefulSet, b: Built)
    requires id.kind.NodeKind? && ChildrenLineage(s, id) && OwnerOk(s, id, v.owner)
    requires v.spec == DesiredSet(KeyOf(id), b.spec, b.net) && NodeSpecError(b.spec).None?
    ensures ChildrenLineage(ReplaceSet(s, KeyOf(id), v, b), id)
  {
    hide OwnerOk, DesiredSet, NodeSpecError, KeyOf, JwtKey, P2pKey;
    SameObjects(s, ReplaceSet(s, KeyOf(id), v, b), id);
  }

  lemma SetWritten(s: State, id: Id, v: StatefulSet, b: Built, f: Fault)
    requires id.kind.NodeKind? && ChildrenLineage(s, id) && OwnerOk(s, id, v.owner)
    requires v.spec == DesiredSet(KeyOf(id), b.spec, b.net) && NodeSpecError(b.spec).None?
    ensures ChildrenLineage(CreateSet(s, KeyOf(id), v, b, f).0, id)
            && ChildrenLineage(UpdateSet(s, KeyOf(id), v, b, f).0, id)
  {
    hide OwnerOk, DesiredSet, NodeSpecError, KeyOf, ChildrenLineage, ReplaceSet, Replaceable;
    SetReplaced(s, id, v, b);
  }

  lemma ServiceWritten(s: State, id: Id, v: Service, f: Fault)
    requires id.kind.NodeKind? && ChildrenLineage(s, id) && OwnerOk(s, id, v.owner) && OfName(v.spec.selector, id.name)
    ensures ChildrenLineage(CreateService(s, KeyOf(id), v, f).0, id)
            && ChildrenLineage(UpdateService(s, KeyOf(id), v, f).0, id)
  {
    hide OwnerOk, OfName, DesiredSet, NodeSpecError, KeyOf, JwtKey, P2pKey;
    SameObjects(s, CreateService(s, KeyOf(id), v, f).0, id);
    SameObjects(s, UpdateService(s, KeyOf(id), v, f).0, id);
  }

  lemma ConfigWrites(s: State, id: Id, k: Key, v: ConfigMap, f: Fault)
    requires id.kind.NetworkKind? && ChildrenLineage(s, id) && OwnerOk(s, id, v.owner)
    requires k == RollupKey(id) || k == GenesisKey(id)
    ensures ChildrenLineage(CreateConfig(s, k, v, f).0, id) && ChildrenLineage(UpdateConfig(s, k, v, f).0, id)
  {
    hide OwnerOk, RollupKey, GenesisKey;
    SameObjects(s, CreateConfig(s, k, v, f).0, id);
    SameObjects(s, UpdateConfig(s, k, v, f).0, id);
  }

  lemma StageValidates(s: State, id: Id, pc: Pc, o: Object)
    requires Stage(s, id, pc, o) && (pc.NewSet? || pc.PutSet?)
    ensures o.spec.NodeSpec? && NodeSpecError(o.spec.node).None?
  {
    hide NodeSpecError;
  }

  lemma NodeWriteDescends(s: State, id: Id, pc: Pc, o: Object, x: Ext)
    requires id.kind.NodeKind? && Live(s, id, o) && Stage(s, id, pc, o) && o.spec.NodeSpec?
             && Descent(s, id, Busy(pc, o))
    ensures ChildrenLineage(NodeWrite(s, id, pc, o, o.spec.node, x).0, id)
  {
    hide OwnerOk, DesiredSet, DesiredService, NodeSpecError, ChildrenLineage, Stage, Labels, Live;
    hide CreateSecret, CreateSet, UpdateSet, CreateService, UpdateService, JwtKey, P2pKey, OfName;
    LiveUid(s, id, o);
    var n := o.spec.node;
    match pc
    case NewJwt(_) => SecretWritten(s, id, JwtKey(id), JWT_ENTRY, NewJwtOf(o, x.key), x.fault);
    case NewP2p(_) => SecretWritten(s, id, P2pKey(id), P2P_ENTRY, NewP2pOf(o, x.key), x.fault);
    case NewSet(net) =>
      StageValidates(s, id, pc, o);
      SetWritten(s, id, NewSetOf(id, o, n, net), Built(n, net), x.fault);
    case PutSet(net, cur) =>
      StageValidates(s, id, pc, o);
      SetWritten(s, id, EditedSet(id, cur, n, net), Built(n, net), x.fault);
    case NewSvc(net) =>
      ServiceOfName(id, o, n, net);
      ServiceWritten(s, id, NewServiceOf(id, o, n, net), x.fault);
    case PutSvc(net, cur) =>
      EditedOfName(id, cur, n, net);
      ServiceWritten(s, id, EditedService(id, cur, n, net), x.fault);
    case _ =>
  }

  /** The Service of an OpNode asks for pods of that name, and an update does not change what it asks for. */
  lemma ServiceOfName(id: Id, o: Object, n: OpNodeSpec, net: Net)
    ensures OfName(NewServiceOf(id, o, n, net).spec.selector, id.name)
  {
    hide Ports;
  }

  lemma EditedOfName(id: Id, cur: Service, n: OpNodeSpec, net: Net)
    ensures EditedService(id, cur, n, net).spec.selector == cur.spec.selector
            && EditedService(id, cur, n, net).owner == cur.owner
  {
    hide Ports, Labels;
  }

  lemma LiveUid(s: State, id: Id, o: Object)
    requires Live(s, id, o)
    ensures id in s.objs && s.objs[id].uid == o.uid && Fits(id.kind, o.spec)
  {
  }

  lemma NetworkWriteDescends(s: State, id: Id, pc: Pc, o: Object, x: Ext)
    requires id.kind.NetworkKind? && Live(s, id, o) && o.spec.NetworkSpec? && Descent(s, id, Busy(pc, o))
    ensures ChildrenLineage(NetworkWrite(s, id, pc, o, o.spec.network, x).0, id)
  {
    hide OwnerOk, ChildrenLineage, Live, CreateConfig, UpdateConfig, RollupKey, GenesisKey, RollupOf, GenesisOf;
    LiveUid(s, id, o);
    var n := o.spec.network;
    match pc
    case NewRollup(a) => ConfigWrites(s, id, RollupKey(id), ConfigMap(o.uid, 0, RollupOf(n, a)), x.fault);
    case PutRollup(a, cur) => ConfigWrites(s, id, RollupKey(id), cur.(data := RollupOf(n, a)), x.fault);
    case NewGenesis(_) => ConfigWrites(s, id, GenesisKey(id), ConfigMap(o.uid, 0, GenesisOf(n)), x.fault);
    case PutGenesis(_, cur) => ConfigWrites(s, id, GenesisKey(id), cur.(data := GenesisOf(n)), x.fault);
    case _ =>
  }

  /** The thread after a micro-step holds a child to write back only if it has just read it. */
  ghost predicate Reads(pc: Pc) {
    pc.GetSet? || pc.GetSvc? || pc.GetRollup? || pc.GetGenesis?
  }

  ghost predicate HoldsNone(t: Thread) {
    t.Busy? ==> !t.pc.PutSet? && !t.pc.PutSvc? && !t.pc.PutRollup? && !t.pc.PutGenesis?
  }

  lemma NodeNextHolds(s: State, id: Id, pc: Pc, o: Object, n: OpNodeSpec, x: Ext, a: Ack)
    requires !Reads(pc)
    ensures HoldsNone(NodeNext(s, id, pc, o, n, x, a))
  {
    hide Mark, Observed, NodeInfoOf;
  }

  lemma NetworkNextHolds(s: State, id: Id, pc: Pc, o: Object, n: OptimismNetworkSpec, x: Ext, a: Ack)
    requires !Reads(pc)
    ensures HoldsNone(NetworkNext(s, id, pc, o, n, x, a))
  {
    hide Mark, Observed;
  }

  lemma NodeReadDescends(s: State, id: Id, pc: Pc, o: Object, n: OpNodeSpec, x: Ext, a: Ack)
    requires id.kind.NodeKind? && ChildrenLineage(s, id) && (pc.GetSet? || pc.GetSvc?)
    ensures ThreadLineage(s, id, NodeNext(s, id, pc, o, n, x, a))
  {
    hide OwnerOk, OfName, Mark, Observed, DesiredSet, NodeSpecError;
  }

  lemma NetworkReadDescends(s: State, id: Id, pc: Pc, o: Object, n: OptimismNetworkSpec, x: Ext, a: Ack)
    requires id.kind.NetworkKind? && ChildrenLineage(s, id) && (pc.GetRollup? || pc.GetGenesis?)
    ensures ThreadLineage(s, id, NetworkNext(s, id, pc, o, n, x, a))
  {
    hide OwnerOk, Mark, Observed;
  }

  lemma UpdateRest(s: State, id: Id, o: Object, f: Fault, j: Id)
    ensures var s' := UpdateObject(s, id, o, f).0;
            && s' == s.(objs := s'.objs, next := s'.next) && s.next <= s'.next
            && (j in s'.objs ==> j in s.objs && s.objs[j].uid == s'.objs[j].uid)
    ensures var s' := UpdateStatus(s, id, o, f).0;
            && s' == s.(objs := s'.objs, next := s'.next) && s.next <= s'.next
            && (j in s'.objs ==> j in s.objs && s.objs[j].uid == s'.objs[j].uid)
  {
    hide Commit;
    if id in s.objs {
      CommitRest(s, id, s.objs[id].WithSpec(o.spec).(finalizers := o.finalizers), j);
      CommitRest(s, id, s.objs[id].(status := o.status), j);
    }
  }

  /** A micro-step makes no object and changes no UID. */
  lemma StepUids(s: State, id: Id, t: Thread, x: Ext, j: Id)
    requires ThreadOk(s, id, t) && j in Step(s, id, t, x).0.objs
    ensures j in s.objs && s.objs[j].uid == Step(s, id, t, x).0.objs[j].uid && s.next <= Step(s, id, t, x).0.next
  {
    hide Step, ThreadOk;
    TickEvolves(s, id, t, x, j);
    TickNext(s, id, t, x);
  }

  lemma StepOwners(s: State, id: Id, t: Thread, x: Ext, j: Id)
    requires ThreadOk(s, id, t)
    ensures forall u: nat :: OwnerOk(s, j, u) ==> OwnerOk(Step(s, id, t, x).0, j, u)
  {
    hide Step, ThreadOk;
    var s' := Step(s, id, t, x).0;
    forall i | i in s'.objs ensures i in s.objs && s.objs[i].uid == s'.objs[i].uid {
      StepUids(s, id, t, x, i);
    }
    TickNext(s, id, t, x);
  }

  lemma SameChildren(s: State, s': State)
    requires s' == s.(objs := s'.objs, next := s'.next)
    ensures ChildrenFrom(s, s')
  {
  }

  /** A read finds children as they are; a write of the pipeline leaves them in order. */
  lemma StepChildren(s: State, id: Id, t: Thread, x: Ext)
    requires ThreadOk(s, id, t) && Descent(s, id, t)
    requires forall u: nat :: OwnerOk(s, id, u) ==> OwnerOk(Step(s, id, t, x).0, id, u)
    ensures ChildrenLineage(Step(s, id, t, x).0, id)
  {
    hide OwnerOk, Stage, Live, FinalizerOnly, NodeWrite, NetworkWrite, UpdateObject, UpdateStatus, CopiedStatus, Next;
    hide ChildrenLineage, ChildrenFrom;
    var s' := Step(s, id, t, x).0;
    if t.Idle? || t.pc.PutFinalizer? || t.pc.StatusGet? || t.pc.StatusPut? {
      if t.Busy? {
        UpdateRest(s, id, t.obj, x.fault, id);
        if t.pc.StatusPut? {
          UpdateRest(s, id, t.pc.latest.(status := CopiedStatus(id.kind, t.obj.status, t.pc.latest.status)), x.fault,
                     id);
        }
      }
      SameChildren(s, s');
      ChildrenDescend(s, s', id);
    } else {
      LiveUid(s, id, t.obj);
      match t.obj.spec
      case NodeSpec(_) => NodeWriteDescends(s, id, t.pc, t.obj, x);
      case NetworkSpec(_) => NetworkWriteDescends(s, id, t.pc, t.obj, x);
    }
  }

  lemma StepThread(s: State, id: Id, t: Thread, x: Ext)
    requires ThreadOk(s, id, t) && Descent(s, id, t)
    requires forall u: nat :: OwnerOk(s, id, u) ==> OwnerOk(Step(s, id, t, x).0, id, u)
    ensures ThreadLineage(Step(s, id, t, x).0, id, Step(s, id, t, x).1)
  {
    hide OwnerOk, Stage, Live, FinalizerOnly, Write, NodeNext, NetworkNext, ChildrenLineage, Mark;
    hide NodeSpecError, NetworkSpecError;
    if t.Busy? && !t.pc.PutFinalizer? && !t.pc.StatusGet? && !t.pc.StatusPut? {
      var pc, o, a := t.pc, t.obj, Write(s, id, t, x).1;
      var s', t' := Step(s, id, t, x).0, Step(s, id, t, x).1;
      LiveUid(s, id, o);
      if Reads(pc) {
        if o.spec.NodeSpec? {
          NodeReading(s, id, pc, o, x);
        } else {
          NetworkReading(s, id, pc, o, x);
        }
        ThreadDescends(s, s', id, t');
      } else if o.spec.NodeSpec? {
        NodeNextHolds(s, id, pc, o, o.spec.node, x, a);
      } else {
        NetworkNextHolds(s, id, pc, o, o.spec.network, x, a);
      }
    }
  }

  lemma NodeReading(s: State, id: Id, pc: Pc, o: Object, x: Ext)
    requires id.kind.NodeKind? && ChildrenLineage(s, id) && Reads(pc) && o.spec.NodeSpec?
    ensures ThreadLineage(s, id, Step(s, id, Busy(pc, o), x).1)
  {
    hide OwnerOk, NodeNext, ChildrenLineage;
    if pc.GetSet? || pc.GetSvc? {
      NodeReadDescends(s, id, pc, o, o.spec.node, x, Ok);
    } else {
      UnknownCall(s, id, pc, o, o.spec.node, x);
    }
  }

  lemma UnknownCall(s: State, id: Id, pc: Pc, o: Object, n: OpNodeSpec, x: Ext)
    requires pc.GetRollup? || pc.GetGenesis?
    ensures NodeNext(s, id, pc, o, n, x, Ok) == Idle(Failure)
  {
  }

  lemma NetworkReading(s: State, id: Id, pc: Pc, o: Object, x: Ext)
    requires id.kind.NetworkKind? && ChildrenLineage(s, id) && Reads(pc) && o.spec.NetworkSpec?
    ensures ThreadLineage(s, id, Step(s, id, Busy(pc, o), x).1)
  {
    hide OwnerOk, NetworkNext, ChildrenLineage;
    if pc.GetRollup? || pc.GetGenesis? {
      NetworkReadDescends(s, id, pc, o, o.spec.network, x, Ok);
    } else {
      UnknownNetworkCall(s, id, pc, o, o.spec.network, x);
    }
  }

  lemma UnknownNetworkCall(s: State, id: Id, pc: Pc, o: Object, n: OptimismNetworkSpec, x: Ext)
    requires pc.GetSet? || pc.GetSvc?
    ensures NetworkNext(s, id, pc, o, n, x, Ok) == Idle(Failure)
  {
  }

  lemma StepDescent(s: State, id: Id, t: Thread, x: Ext)
    requires ThreadOk(s, id, t) && Descent(s, id, t)
    ensures Descent(Step(s, id, t, x).0, id, Step(s, id, t, x).1)
  {
    hide ThreadOk, Step, OwnerOk, ChildrenLineage, ThreadLineage;
    StepOwners(s, id, t, x, id);
    StepChildren(s, id, t, x);
    StepThread(s, id, t, x);
    if id in Step(s, id, t, x).0.objs {
      StepUids(s, id, t, x, id);
    }
  }

  /** The others' descent is not touched by a step of `id`. */
  lemma StepLeavesDescent(s: State, id: Id, t: Thread, x: Ext, other: Id, t': Thread)
    requires other != id && ThreadOk(s, id, t) && Descent(s, other, t')
    ensures Descent(Step(s, id, t, x).0, other, t')
  {
    hide ThreadOk, Step, OwnerOk, ThreadLineage;
    var s' := Step(s, id, t, x).0;
    StepFrame(s, id, t, x, other);
    StepOwners(s, id, t, x, other);
    ThreadDescends(s, s', other, t');
    FramedChildren(s, s', other);
  }

  lemma FramedChildren(s: State, s': State, id: Id)
    requires Untouched(s, s', id) && ChildrenLineage(s, id)
    requires forall u: nat :: OwnerOk(s, id, u) ==> OwnerOk(s', id, u)
    ensures ChildrenLineage(s', id)
  {
    hide OwnerOk, OfName, DesiredSet, NodeSpecError, KeyOf, JwtKey, P2pKey, RollupKey, GenesisKey;
  }

  lemma ApplyLineages(w: World, a: Action)
    requires Inv(w) && Lineages(w)
    ensures Lineages(Apply(w, a))
  {
    hide Local, Step, Others, Descent, ThreadOk;
    var w' := Apply(w, a);
    forall id ensures Descent(w'.s, id, ThreadOf(w', id)) {
      assert Descent(w.s, id, ThreadOf(w, id));
      if a.Tick? {
        assert Local(w.s, a.id, ThreadOf(w, a.id));
        LocalThread(w.s, a.id, ThreadOf(w, a.id));
        if id == a.id {
          StepDescent(w.s, id, ThreadOf(w, id), a.x);
        } else {
          StepLeavesDescent(w.s, a.id, ThreadOf(w, a.id), a.x, id, ThreadOf(w, id));
        }
      } else if a.Crash? {
        if id == a.id {
          CrashDescent(w.s, id, ThreadOf(w, id));
        }
      } else {
        OldUids(w);
        OthersDescent(w.s, a, id, ThreadOf(w, id));
      }
    }
  }

  lemma CrashDescent(s: State, id: Id, t: Thread)
    requires Descent(s, id, t)
    ensures Descent(s, id, Idle(Nothing))
  {
    hide OwnerOk, ChildrenLineage;
  }

  lemma OldUids(w: World)
    requires Lineages(w)
    ensures UidsOld(w.s)
  {
    hide ChildrenLineage, ThreadLineage;
    forall j | j in w.s.objs ensures w.s.objs[j].uid < w.s.next {
      assert Descent(w.s, j, ThreadOf(w, j));
    }
  }

  /** In every state of every run, whoever owns them: each child at the names of an id was made by some object of that
      id, with the entry its Secret is mounted for, and each StatefulSet is the desired one of some validated spec. */
  lemma {:induction false} EveryChildDescends(acts: seq<Action>)
    ensures Lineages(Exec(START, acts))
  {
    if acts != [] {
      hide Inv, Lineages, Apply;
      var init := acts[..|acts| - 1];
      Reachable(init);
      EveryChildDescends(init);
      ApplyLineages(Exec(START, init), acts[|acts| - 1]);
    }
  }

  /** Every StatefulSet at the name of an OpNode, in every run, whoever owns it: it is the desired one of some validated
      spec and some network, and it selects the pods it makes. */
  lemma SetsAreDesired(acts: seq<Action>, id: Id)
    requires id.kind.NodeKind?
    ensures var s := Exec(START, acts).s;
            KeyOf(id) in s.sets ==>
              && KeyOf(id) in s.built && NodeSpecError(s.built[KeyOf(id)].spec).None?
              && s.sets[KeyOf(id)].spec == DesiredSet(KeyOf(id), s.built[KeyOf(id)].spec, s.built[KeyOf(id)].net)
              && s.sets[KeyOf(id)].spec.selector == s.sets[KeyOf(id)].spec.podLabels
  {
    hide Exec, Labels, Geth, Node, NodeSpecError, OwnerOk;
    EveryChildDescends(acts);
    assert Descent(Exec(START, acts).s, id, ThreadOf(Exec(START, acts), id));
  }

  /** In every run no Service of an OpNode, whoever owns it, selects the pods of an OpNode of another name. */
  lemma ServicesKeepApart(acts: seq<Action>, id: Id, other: Id)
    requires id.kind.NodeKind? && other.kind.NodeKind? && id.name != other.name
    ensures var s := Exec(START, acts).s;
            KeyOf(id) in s.svcs && KeyOf(other) in s.sets ==>
              !Selects(s.svcs[KeyOf(id)].spec.selector, s.sets[KeyOf(other)].spec.podLabels)
  {
    hide Exec, Geth, Node, NodeSpecError, OwnerOk;
    EveryChildDescends(acts);
    assert Descent(Exec(START, acts).s, id, ThreadOf(Exec(START, acts), id));
    assert Descent(Exec(START, acts).s, other, ThreadOf(Exec(START, acts), other));
  }

  /** Every Secret the operator made has the entry its file is named for. */
  lemma SecretsHaveTheirEntries(acts: seq<Action>, id: Id)
    requires id.kind.NodeKind?
    ensures var s := Exec(START, acts).s;
            && (JwtKey(id) in s.secrets && s.secrets[JwtKey(id)].owner.Some? ==>
                s.secrets[JwtKey(id)].data.Keys == {JWT_ENTRY})
            && (P2pKey(id) in s.secrets && s.secrets[P2pKey(id)].owner.Some? ==>
                s.secrets[P2pKey(id)].data.Keys == {P2P_ENTRY})
  {
    hide Exec, DesiredSet, NodeSpecError, OwnerOk, JwtKey, P2pKey;
    EveryChildDescends(acts);
    assert Descent(Exec(START, acts).s, id, ThreadOf(Exec(START, acts), id));
  }
}
