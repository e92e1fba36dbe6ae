/** The inductive invariant.  It is local: `Local` speaks of one id, its object, its children and its reconcile
    thread.  A move keeps it for the id it is about, and leaves alone what it says of every other id. */
module Invariants {
  import opened Types
  import opened Conditions
  import opened Builders
  import opened Store
  import opened Machine

  /* ----- What a stored status claims ----- */

  /** The phase an OpNode's conditions call for, in pipeline order. */
  function PhaseOf(cs: seq<Condition>): Phase {
    if !IsTrue(cs, ConfigurationValid) then Phase.Error
    else if !IsTrue(cs, NetworkReference) then Phase.Error
    else if !IsTrue(cs, ConditionType.NetworkReady) then Pending
    else if !IsTrue(cs, SecretsReady) then Phase.Error
    else if !IsTrue(cs, StatefulSetReady) then Phase.Error
    else if !IsTrue(cs, ServiceReady) then Phase.Error
    else Running
  }

  /** An OpNode status is of some generation; its ConfigurationValid condition is the verdict on the spec of
      that generation, and its phase is the one its conditions call for. */
  ghost predicate NodeStatusOk(h: seq<Spec>, st: Status) {
    && 1 <= st.observedGeneration <= |h|
    && h[st.observedGeneration - 1].NodeSpec?
    && (IsTrue(st.conditions, ConfigurationValid) <==> NodeSpecError(h[st.observedGeneration - 1].node).None?)
    && st.phase == PhaseOf(st.conditions)
  }

  /** A Ready OptimismNetwork status is of some generation whose spec is valid, with all three conditions True
      and contracts recorded.  Otherwise the phase is Error. */
  ghost predicate NetworkStatusOk(h: seq<Spec>, st: Status) {
    && 0 <= st.observedGeneration <= |h|
    && (st.phase.Error? || st.phase.Ready?)
    && (st.phase.Ready? ==>
          && 1 <= st.observedGeneration
          && h[st.observedGeneration - 1].NetworkSpec?
          && NetworkSpecError(h[st.observedGeneration - 1].network).None?
          && IsTrue(st.conditions, ConfigurationValid)
          && IsTrue(st.conditions, L1Connected)
          && IsTrue(st.conditions, ContractsDiscovered)
          && st.networkInfo.Some? && st.networkInfo.value.contracts.Some?)
  }

  ghost predicate StatusOk(k: Kind, h: seq<Spec>, st: Status) {
    match k
    case NodeKind => NodeStatusOk(h, st)
    case NetworkKind => NetworkStatusOk(h, st)
  }

  /* ----- Children of a live object ----- */

  predicate SecretsThere(s: State, id: Id, n: OpNodeSpec) {
    JwtKey(id) in s.secrets && (Generates(n) ==> P2pKey(id) in s.secrets)
  }

  ghost predicate OwnNodeChildren(s: State, id: Id, uid: nat) {
    && (JwtKey(id) in s.secrets ==> s.secrets[JwtKey(id)].owner in {None, Some(uid)})
    && (P2pKey(id) in s.secrets ==> s.secrets[P2pKey(id)].owner in {None, Some(uid)})
    && (KeyOf(id) in s.sets ==>
          && s.sets[KeyOf(id)].owner == uid
          && KeyOf(id) in s.built
          && s.sets[KeyOf(id)].spec == DesiredSet(KeyOf(id), s.built[KeyOf(id)].spec, s.built[KeyOf(id)].net)
          && SecretsThere(s, id, s.built[KeyOf(id)].spec))
    && (KeyOf(id) in s.svcs ==>
          && s.svcs[KeyOf(id)].owner == uid
          && KeyOf(id) in s.sets
          && s.svcs[KeyOf(id)].spec.selector == s.sets[KeyOf(id)].spec.selector)
  }

  ghost predicate NodeChildrenOk(s: State, id: Id, uid: nat) {
    id !in s.heirs ==> OwnNodeChildren(s, id, uid)
  }

  predicate RollupThere(s: State, id: Id, n: OptimismNetworkSpec) {
    AutoDiscovers(n.rollupConfig) ==>
      && RollupKey(id) in s.configs && s.configs[RollupKey(id)].data.RollupJson?
      && s.configs[RollupKey(id)].data.l1ChainID == n.l1ChainID
      && s.configs[RollupKey(id)].data.l2ChainID == n.chainID
  }

  predicate GenesisThere(s: State, id: Id, n: OptimismNetworkSpec) {
    AutoDiscovers(n.l2Genesis) ==>
      && GenesisKey(id) in s.configs && s.configs[GenesisKey(id)].data.GenesisJson?
      && s.configs[GenesisKey(id)].data.chainID == n.chainID
  }

  /** The same for whoever did not inherit children that may be collected at any time. */
  predicate RollupKept(s: State, id: Id, n: OptimismNetworkSpec) {
    id !in s.heirs ==> RollupThere(s, id, n)
  }

  predicate GenesisKept(s: State, id: Id, n: OptimismNetworkSpec) {
    id !in s.heirs ==> GenesisThere(s, id, n)
  }

  ghost predicate OwnConfigs(s: State, id: Id, o: Object) {
    && (RollupKey(id) in s.configs ==> s.configs[RollupKey(id)].owner == o.uid)
    && (GenesisKey(id) in s.configs ==> s.configs[GenesisKey(id)].owner == o.uid)
    && (o.status.phase.Ready? && o.status.observedGeneration == o.Generation() && o.spec.NetworkSpec? ==>
          RollupThere(s, id, o.spec.network) && GenesisThere(s, id, o.spec.network))
  }

  ghost predicate ConfigsOk(s: State, id: Id, o: Object) {
    id !in s.heirs ==> OwnConfigs(s, id, o)
  }

  ghost predicate ChildrenOk(s: State, id: Id, o: Object) {
    match id.kind
    case NodeKind => NodeChildrenOk(s, id, o.uid)
    case NetworkKind => ConfigsOk(s, id, o)
  }

  ghost predicate ObjectOk(s: State, id: Id, o: Object) {
    && o.uid < s.next && o.rv < s.next
    && Fits(id.kind, o.spec)
    && (o.status == EMPTY_STATUS || StatusOk(id.kind, o.History(), o.status))
    && ChildrenOk(s, id, o)
  }

  /* ----- A reconcile in flight ----- */

  /** The stored object and the working copy are of the same incarnation, which cannot go away: it holds the
      operator's finalizer.  Nobody else writes its status, and its history extends the copy's. */
  ghost predicate Live(s: State, id: Id, o: Object) {
    && id in s.objs && s.objs[id].uid == o.uid
    && Own(id.kind) in s.objs[id].finalizers
    && o.History() <= s.objs[id].History()
    && s.objs[id].status.observedGeneration <= o.status.observedGeneration <= o.Generation()
    && Fits(id.kind, o.spec)
  }

  /** The pending finalizer update would change nothing but the operator's own finalizer. */
  ghost predicate FinalizerOnly(s: State, id: Id, o: Object) {
    id in s.objs && s.objs[id].rv == o.rv ==>
      && s.objs[id].(finalizers := o.finalizers) == o
      && o.finalizers == if o.deleting then s.objs[id].finalizers - {Own(id.kind)}
                         else s.objs[id].finalizers + {Own(id.kind)}
  }

  predicate C(o: Object, c: ConditionType) {
    IsTrue(o.status.conditions, c)
  }

  predicate Validated(o: Object) {
    o.spec.NodeSpec? && NodeSpecError(o.spec.node).None? && C(o, ConfigurationValid)
  }

  predicate Networked(o: Object) {
    Validated(o) && C(o, NetworkReference) && C(o, ConditionType.NetworkReady)
  }

  predicate Secured(s: State, id: Id, o: Object) {
    Networked(o) && C(o, SecretsReady) && (id !in s.heirs ==> SecretsThere(s, id, o.spec.node))
  }

  predicate Stateful(s: State, id: Id, o: Object, net: Net) {
    && Secured(s, id, o) && C(o, StatefulSetReady)
    && (id !in s.heirs ==>
          KeyOf(id) in s.sets && s.sets[KeyOf(id)].spec.selector == Labels(KeyOf(id), o.spec.node, net))
  }

  ghost predicate NetworkRunning(s: State, id: Id, o: Object) {
    && o.spec.NetworkSpec? && NetworkSpecError(o.spec.network).None?
    && C(o, ConfigurationValid)
    && 0 <= o.status.observedGeneration
  }

  predicate Found(o: Object) {
    C(o, L1Connected) && C(o, ContractsDiscovered) && o.status.networkInfo.Some?
        && o.status.networkInfo.value.contracts.Some?
  }

  /** What a status about to be written has to satisfy. */
  ghost predicate Writable(s: State, id: Id, o: Object) {
    && StatusOk(id.kind, o.History(), o.status)
    && match id.kind
       case NodeKind => o.status.observedGeneration == o.Generation()
       case NetworkKind => o.status.phase.Ready? && o.spec.NetworkSpec? ==>
         RollupKept(s, id, o.spec.network) && GenesisKept(s, id, o.spec.network)
  }

  ghost predicate Stage(s: State, id: Id, pc: Pc, o: Object) {
    match pc
    case PutFinalizer(_) => true
    case GetNetwork => Validated(o)
    case GetJwt(_) => Networked(o)
    case NewJwt(_) => Networked(o)
    case GetP2p(_) => Networked(o) && (id !in s.heirs ==> JwtKey(id) in s.secrets)
    case NewP2p(_) => Networked(o) && (id !in s.heirs ==> JwtKey(id) in s.secrets)
    case GetSet(_) => Secured(s, id, o)
    case NewSet(_) => Secured(s, id, o)
    case PutSet(_, cur) => Secured(s, id, o) && (id !in s.heirs ==> cur.owner == o.uid)
    case GetSvc(net) => Stateful(s, id, o, net)
    case NewSvc(net) => Stateful(s, id, o, net)
    case PutSvc(net, cur) =>
      && Stateful(s, id, o, net)
      && (id !in s.heirs ==> cur.owner == o.uid && cur.spec.selector == Labels(KeyOf(id), o.spec.node, net))
    case DialL1 => NetworkRunning(s, id, o)
    case Discover => NetworkRunning(s, id, o) && C(o, L1Connected)
    case GetRollup(_) => NetworkRunning(s, id, o) && Found(o) && AutoDiscovers(o.spec.network.rollupConfig)
    case NewRollup(_) => NetworkRunning(s, id, o) && Found(o) && AutoDiscovers(o.spec.network.rollupConfig)
    case PutRollup(_, cur) =>
      NetworkRunning(s, id, o) && Found(o) && AutoDiscovers(o.spec.network.rollupConfig)
          && (id !in s.heirs ==> cur.owner == o.uid)
    case GetGenesis(_) => NetworkRunning(s, id, o) && Found(o) && RollupKept(s, id, o.spec.network)
    case NewGenesis(_) => NetworkRunning(s, id, o) && Found(o) && RollupKept(s, id, o.spec.network)
    case PutGenesis(_, cur) =>
      NetworkRunning(s, id, o) && Found(o) && RollupKept(s, id, o.spec.network)
          && (id !in s.heirs ==> cur.owner == o.uid)
    case StatusGet(left, _, _) => 1 <= left <= RETRIES && Writable(s, id, o)
    case StatusPut(left, _, _, latest) => 1 <= left <= RETRIES && Writable(s, id, o)
  }

  ghost predicate ThreadOk(s: State, id: Id, t: Thread) {
    match t
    case Idle(_) => true
    case Busy(pc, o) =>
      && o.rv < s.next
      && (if pc.PutFinalizer? then FinalizerOnly(s, id, o) else Live(s, id, o))
      && Stage(s, id, pc, o)
  }

  ghost predicate Local(s: State, id: Id, t: Thread) {
    && (id in s.objs ==> ObjectOk(s, id, s.objs[id]))
    && ThreadOk(s, id, t)
  }

  ghost predicate Inv(w: World) {
    forall id :: Local(w.s, id, ThreadOf(w, id))
  }

  /* ----- Frame: what `Local` reads ----- */

  ghost predicate Same<K, V>(m: map<K, V>, m': map<K, V>, k: K) {
    (k in m <==> k in m') && (k in m ==> m[k] == m'[k])
  }

  /** The object and the children of `id` are the same in both states. */
  ghost predicate Untouched(s: State, s': State, id: Id) {
    && s.next <= s'.next && (id in s.heirs <==> id in s'.heirs)
    && Same(s.objs, s'.objs, id)
    && (id.kind.NodeKind? ==>
          && Same(s.secrets, s'.secrets, JwtKey(id)) && Same(s.secrets, s'.secrets, P2pKey(id))
          && Same(s.sets, s'.sets, KeyOf(id)) && Same(s.built, s'.built, KeyOf(id)) && Same(s.svcs, s'.svcs, KeyOf(id)))
    && (id.kind.NetworkKind? ==>
          && Same(s.configs, s'.configs, RollupKey(id)) && Same(s.configs, s'.configs, GenesisKey(id)))
  }

  lemma FrameObject(s: State, s': State, id: Id)
    requires Untouched(s, s', id) && id in s.objs && ObjectOk(s, id, s.objs[id])
    ensures id in s'.objs && ObjectOk(s', id, s'.objs[id])
  {
    hide StatusOk;
  }

  lemma FrameThread(s: State, s': State, id: Id, t: Thread)
    requires Untouched(s, s', id) && ThreadOk(s, id, t)
    ensures ThreadOk(s', id, t)
  {
    hide StatusOk, IsTrue, NodeSpecError, NetworkSpecError, Labels;
  }

  lemma Frame(s: State, s': State, id: Id, t: Thread)
    requires Untouched(s, s', id) && Local(s, id, t)
    ensures Local(s', id, t)
  {
    hide ObjectOk, ThreadOk;
    FrameThread(s, s', id, t);
    if id in s.objs {
      FrameObject(s, s', id);
    }
  }

  /* ----- Derived names never clash ----- */

  lemma SameSuffix(m: string, n: string, suffix: string)
    requires m + suffix == n + suffix
    ensures m == n
  {
    assert |m + suffix| == |n + suffix|;
    assert m == (m + suffix)[..|m|] && n == (n + suffix)[..|n|];
  }

  /** For all strings: each derived name determines the name it is derived from, and the two names derived
      for one kind of child never meet. */
  lemma DerivedNames(i: Id, j: Id)
    ensures JwtKey(i) == JwtKey(j) <==> i.ns == j.ns && i.name == j.name
    ensures P2pKey(i) == P2pKey(j) <==> i.ns == j.ns && i.name == j.name
    ensures RollupKey(i) == RollupKey(j) <==> i.ns == j.ns && i.name == j.name
    ensures GenesisKey(i) == GenesisKey(j) <==> i.ns == j.ns && i.name == j.name
    ensures JwtKey(i) != P2pKey(j) && RollupKey(i) != GenesisKey(j)
  {
    if JwtKey(i) == JwtKey(j) {
      SameSuffix(i.name, j.name, "-jwt");
    }
    if P2pKey(i) == P2pKey(j) {
      SameSuffix(i.name, j.name, "-p2p");
    }
    if RollupKey(i) == RollupKey(j) {
      SameSuffix(i.name, j.name, "-rollup-config");
    }
    if GenesisKey(i) == GenesisKey(j) {
      SameSuffix(i.name, j.name, "-genesis");
    }
    assert JwtKey(i).name[|JwtKey(i).name| - 1] == 't' && P2pKey(j).name[|P2pKey(j).name| - 1] == 'p';
    assert RollupKey(i).name[|RollupKey(i).name| - 1] == 'g' && GenesisKey(j).name[|GenesisKey(j).name| - 1] == 's';
  }

  /** A state that differs from `s` at most in the object of `id` and in children of that name. */
  ghost predicate WritesOnly(s: State, s': State, id: Id) {
    && s.next <= s'.next && s'.heirs == s.heirs
    && (forall j :: j != id ==> Same(s.objs, s'.objs, j))
    && (id.kind.NodeKind? ==>
          && (forall k :: k != JwtKey(id) && k != P2pKey(id) ==> Same(s.secrets, s'.secrets, k))
          && (forall k :: k != KeyOf(id) ==>
                Same(s.sets, s'.sets, k) && Same(s.built, s'.built, k) && Same(s.svcs, s'.svcs, k))
          && s'.configs == s.configs)
    && (id.kind.NetworkKind? ==>
          && (forall k :: k != RollupKey(id) && k != GenesisKey(id) ==> Same(s.configs, s'.configs, k))
          && s'.secrets == s.secrets && s'.sets == s.sets && s'.built == s.built && s'.svcs == s.svcs)
  }

  lemma CommitWritesOnly(s: State, id: Id, o: Object)
    requires id in s.objs
    ensures WritesOnly(s, Commit(s, id, o), id)
  {
    var s' := Commit(s, id, o);
    assert s' == s.(objs := s'.objs, next := s'.next);
    ObjectsWriteOnly(s, id, s'.objs, s'.next);
  }

  lemma ObjectsWriteOnly(s: State, id: Id, objs: map<Id, Object>, next: nat)
    requires s.next <= next && forall j :: j != id ==> Same(s.objs, objs, j)
    ensures WritesOnly(s, s.(objs := objs, next := next), id)
  {
  }

  lemma ObjectWritesOnly(s: State, id: Id, o: Object, f: Fault)
    ensures WritesOnly(s, UpdateObject(s, id, o, f).0, id) && WritesOnly(s, UpdateStatus(s, id, o, f).0, id)
  {
    hide Commit;
    if id in s.objs {
      CommitWritesOnly(s, id, s.objs[id].WithSpec(o.spec).(finalizers := o.finalizers));
      CommitWritesOnly(s, id, s.objs[id].(status := o.status));
    }
  }

  lemma SecretWritesOnly(s: State, id: Id, k: Key, v: Secret, f: Fault)
    requires id.kind.NodeKind? && (k == JwtKey(id) || k == P2pKey(id))
    ensures WritesOnly(s, CreateSecret(s, k, v, f).0, id)
  {
  }

  lemma ReplaceSetWritesOnly(s: State, id: Id, v: StatefulSet, b: Built)
    requires id.kind.NodeKind?
    ensures WritesOnly(s, ReplaceSet(s, KeyOf(id), v, b), id)
  {
    hide WritesOnly, KeyOf;
    var s' := ReplaceSet(s, KeyOf(id), v, b);
    NodeChildrenWriteOnly(s, id, s'.sets, s'.built, s.svcs, s'.next);
  }

  lemma NodeChildrenWriteOnly(s: State, id: Id, sets: map<Key, StatefulSet>, built: map<Key, Built>,
                              svcs: map<Key, Service>, next: nat)
    requires id.kind.NodeKind? && s.next <= next
    requires forall k :: k != KeyOf(id) ==> Same(s.sets, sets, k) && Same(s.built, built, k) && Same(s.svcs, svcs, k)
    ensures WritesOnly(s, s.(sets := sets, built := built, svcs := svcs, next := next), id)
  {
    hide KeyOf;
  }

  lemma SetWritesOnly(s: State, id: Id, v: StatefulSet, b: Built, f: Fault)
    requires id.kind.NodeKind?
    ensures WritesOnly(s, CreateSet(s, KeyOf(id), v, b, f).0, id)
            && WritesOnly(s, UpdateSet(s, KeyOf(id), v, b, f).0, id)
  {
    hide ReplaceSet;
    ReplaceSetWritesOnly(s, id, v, b);
  }

  lemma ServiceWritesOnly(s: State, id: Id, v: Service, f: Fault)
    requires id.kind.NodeKind?
    ensures WritesOnly(s, CreateService(s, KeyOf(id), v, f).0, id)
            && WritesOnly(s, UpdateService(s, KeyOf(id), v, f).0, id)
  {
    hide WritesOnly, KeyOf;
    var c, u := CreateService(s, KeyOf(id), v, f).0, UpdateService(s, KeyOf(id), v, f).0;
    NodeChildrenWriteOnly(s, id, s.sets, s.built, c.svcs, c.next);
    NodeChildrenWriteOnly(s, id, s.sets, s.built, u.svcs, u.next);
  }

  lemma ConfigWritesOnly(s: State, id: Id, k: Key, v: ConfigMap, f: Fault)
    requires id.kind.NetworkKind? && (k == RollupKey(id) || k == GenesisKey(id))
    ensures WritesOnly(s, CreateConfig(s, k, v, f).0, id) && WritesOnly(s, UpdateConfig(s, k, v, f).0, id)
  {
    hide WritesOnly, RollupKey, GenesisKey;
    var c, u := CreateConfig(s, k, v, f).0, UpdateConfig(s, k, v, f).0;
    ConfigsWriteOnly(s, id, k, c.configs, c.next);
    ConfigsWriteOnly(s, id, k, u.configs, u.next);
  }

  lemma ConfigsWriteOnly(s: State, id: Id, k: Key, configs: map<Key, ConfigMap>, next: nat)
    requires id.kind.NetworkKind? && (k == RollupKey(id) || k == GenesisKey(id))
    requires s.next <= next && forall j :: j != k ==> Same(s.configs, configs, j)
    ensures WritesOnly(s, s.(configs := configs, next := next), id)
  {
    hide RollupKey, GenesisKey;
  }

  lemma WritesNothing(s: State, id: Id)
    ensures WritesOnly(s, s, id)
  {
  }

  lemma NodeWritesOnly(s: State, id: Id, pc: Pc, o: Object, n: OpNodeSpec, x: Ext)
    requires id.kind.NodeKind?
    ensures WritesOnly(s, NodeWrite(s, id, pc, o, n, x).0, id)
  {
    hide CreateSecret, CreateSet, UpdateSet, CreateService, UpdateService;
    hide NewSetOf, EditedSet, NewServiceOf, EditedService, JwtKey, P2pKey, KeyOf, WritesOnly;
    WritesNothing(s, id);
    match pc
    case NewJwt(_) => SecretWritesOnly(s, id, JwtKey(id), NewJwtOf(o, x.key), x.fault);
    case NewP2p(_) => SecretWritesOnly(s, id, P2pKey(id), NewP2pOf(o, x.key), x.fault);
    case NewSet(net) => SetWritesOnly(s, id, NewSetOf(id, o, n, net), Built(n, net), x.fault);
    case PutSet(net, cur) => SetWritesOnly(s, id, EditedSet(id, cur, n, net), Built(n, net), x.fault);
    case NewSvc(net) => ServiceWritesOnly(s, id, NewServiceOf(id, o, n, net), x.fault);
    case PutSvc(net, cur) => ServiceWritesOnly(s, id, EditedService(id, cur, n, net), x.fault);
    case _ =>
  }

  lemma NetworkWritesOnly(s: State, id: Id, pc: Pc, o: Object, n: OptimismNetworkSpec, x: Ext)
    requires id.kind.NetworkKind?
    ensures WritesOnly(s, NetworkWrite(s, id, pc, o, n, x).0, id)
  {
    hide CreateConfig, UpdateConfig, RollupOf, GenesisOf, RollupKey, GenesisKey, WritesOnly;
    WritesNothing(s, id);
    match pc
    case NewRollup(a) => ConfigWritesOnly(s, id, RollupKey(id), ConfigMap(o.uid, 0, RollupOf(n, a)), x.fault);
    case PutRollup(a, cur) => ConfigWritesOnly(s, id, RollupKey(id), cur.(data := RollupOf(n, a)), x.fault);
    case NewGenesis(_) => ConfigWritesOnly(s, id, GenesisKey(id), ConfigMap(o.uid, 0, GenesisOf(n)), x.fault);
    case PutGenesis(_, cur) => ConfigWritesOnly(s, id, GenesisKey(id), cur.(data := GenesisOf(n)), x.fault);
    case _ =>
  }

  lemma StepWrites(s: State, id: Id, t: Thread, x: Ext)
    requires ThreadOk(s, id, t)
    ensures WritesOnly(s, Step(s, id, t, x).0, id)
  {
    hide NodeWrite, NetworkWrite, Next, Stage, FinalizerOnly, CopiedStatus, UpdateObject, UpdateStatus;
    match t
    case Idle(_) =>
    case Busy(pc, o) =>
      match pc
      case PutFinalizer(_) => ObjectWritesOnly(s, id, o, x.fault);
      case StatusGet(_, _, _) =>
      case StatusPut(_, _, _, latest) =>
        ObjectWritesOnly(s, id, latest.(status := CopiedStatus(id.kind, o.status, latest.status)), x.fault);
      case _ =>
        match o.spec
        case NodeSpec(n) => NodeWritesOnly(s, id, pc, o, n, x);
        case NetworkSpec(n) => NetworkWritesOnly(s, id, pc, o, n, x);
  }

  /** Non-interference: a micro-step of one reconcile leaves the object and the children of every other
      resource alone. */
  lemma StepFrame(s: State, id: Id, t: Thread, x: Ext, other: Id)
    requires ThreadOk(s, id, t) && other != id
    ensures Untouched(s, Step(s, id, t, x).0, other)
  {
    hide Step, ThreadOk;
    StepWrites(s, id, t, x);
    DerivedNames(id, other);
    DerivedNames(other, id);
  }
}
