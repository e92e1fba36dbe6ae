/** The operator as a state machine: one micro-step per API call, interleaved with other reconciles, users,
    the garbage collector and crashes.  Between two calls a reconcile only computes, so a thread is its
    program counter and its working copy of the object. */
module Machine {
  import opened Types
  import opened Conditions
  import opened Builders
  import opened Store

  /** What Reconcile returns: `After` is RequeueAfter in minutes, `Failure` a returned error. */
  datatype Outcome = Nothing | Requeue | After(minutes: nat) | Failure

  /** The next API call of a reconcile, with the locals it still needs. */
  datatype Pc =
    | PutFinalizer(done: Outcome)
    | GetNetwork
    | GetJwt(net: Net) | NewJwt(net: Net) | GetP2p(net: Net) | NewP2p(net: Net)
    | GetSet(net: Net) | NewSet(net: Net) | PutSet(net: Net, current: StatefulSet)
    | GetSvc(net: Net) | NewSvc(net: Net) | PutSvc(net: Net, svc: Service)
    | DialL1 | Discover
    | GetRollup(found: Addresses) | NewRollup(found: Addresses) | PutRollup(found: Addresses, config: ConfigMap)
    | GetGenesis(found: Addresses) | NewGenesis(found: Addresses) | PutGenesis(found: Addresses, config: ConfigMap)
    | StatusGet(left: nat, good: Outcome, bad: Outcome)
    | StatusPut(left: nat, good: Outcome, bad: Outcome, latest: Object)

  /** `obj` is the working copy taken by the first Get, with its status edited on the way. */
  datatype Thread = Idle(last: Outcome) | Busy(pc: Pc, obj: Object)

  /** What the outside world contributes to one micro-step: the fate of the call, the clock before and after
      the first condition is set, random key material, error texts, the answer of the L1 endpoint and of
      contract discovery. */
  datatype Ext = Ext(fault: Fault, now: int, later: int, key: string, text: string, l1: bool, found: Option<Addresses>)

  const CALM := Ext(NoFault, 0, 0, "", "", true, None)

  const RETRIES: nat := 5

  /* ----- Pieces shared by the steps ----- */

  function Mark(o: Object, c: ConditionType, st: ConditionStatus, reason: string, message: string, now: int): Object {
    o.(status := o.status.(conditions := Set(o.status.conditions, Update(c, st, reason, message, now))))
  }

  function InPhase(o: Object, p: Phase): Object {
    o.(status := o.status.(phase := p))
  }

  function Observed(o: Object): Object {
    o.(status := o.status.(observedGeneration := o.Generation()))
  }

  function WriteStatus(o: Object, good: Outcome, bad: Outcome): Thread {
    Busy(StatusGet(RETRIES, good, bad), o)
  }

  /** The shared exit of the OpNode pipeline after a failed stage. */
  function StageFailed(o: Object, c: ConditionType, reason: string, x: Ext): Thread {
    WriteStatus(Observed(InPhase(Mark(o, c, False, reason, x.text, x.now), Phase.Error)), After(2), After(2))
  }

  /** The fields `updateStatusWithRetry` copies; an OpNode keeps its stored NodeInfo if the source has none. */
  function CopiedStatus(k: Kind, src: Status, latest: Status): Status {
    match k
    case NodeKind => Status(src.phase, src.conditions, src.observedGeneration,
                            if src.nodeInfo.Some? then src.nodeInfo else latest.nodeInfo, latest.networkInfo)
    case NetworkKind => Status(src.phase, src.conditions, src.observedGeneration, latest.nodeInfo, src.networkInfo)
  }

  function RollupOf(n: OptimismNetworkSpec, a: Addresses): ConfigData {
    RollupJson(n.l1ChainID, n.chainID, a.optimismPortal, a.systemConfig)
  }

  function GenesisOf(n: OptimismNetworkSpec): ConfigData {
    GenesisJson(n.chainID)
  }

  /* ----- OpNode ----- */

  function NodeChecked(o: Object, n: OpNodeSpec, x: Ext): Thread {
    match NodeSpecError(n)
    case Some(e) =>
      WriteStatus(Observed(InPhase(Mark(o, ConfigurationValid, False, "InvalidConfiguration", e, x.now), Phase.Error)),
                  After(5), After(5))
    case None =>
      Busy(GetNetwork, Mark(o, ConfigurationValid, True, "ValidConfiguration", "OpNode configuration is valid", x.now))
  }

  function NetworkId(id: Id, n: OpNodeSpec): Id {
    Id(NetworkKind, if n.networkRef.namespace == "" then id.ns else n.networkRef.namespace, n.networkRef.name)
  }

  function NetworkFetched(o: Object, name: string, r: Reply<Object>, x: Ext): Thread {
    if r.Got? && r.value.spec.NetworkSpec? then
      var o1 := Mark(o, NetworkReference, True, "NetworkFound", "OptimismNetwork reference resolved successfully",
                     x.now);
      if r.value.status.phase != Ready then
        var o2 := Mark(o1, ConditionType.NetworkReady, False, "NetworkNotReady", "OptimismNetwork is not ready",
                       x.later);
        WriteStatus(Observed(InPhase(o2, Pending)), After(1), After(1))
      else
        Busy(GetJwt(Net(name, r.value.spec.network)),
             InPhase(Mark(o1, ConditionType.NetworkReady, True, "NetworkReady", "OptimismNetwork is ready", x.later),
                     Initializing))
    else StageFailed(o, NetworkReference, "NetworkNotFound", x)
  }

  function SecretsFailed(o: Object, x: Ext): Thread {
    StageFailed(o, SecretsReady, "SecretReconciliationFailed", x)
  }

  function SecretsDone(net: Net, o: Object, x: Ext): Thread {
    Busy(GetSet(net), Mark(o, SecretsReady, True, "SecretsReconciled", "All required secrets are ready", x.now))
  }

  function JwtDone(net: Net, o: Object, n: OpNodeSpec, x: Ext): Thread {
    if Generates(n) then Busy(GetP2p(net), o) else SecretsDone(net, o, x)
  }

  function SetFailed(o: Object, x: Ext): Thread {
    StageFailed(o, StatefulSetReady, "StatefulSetReconciliationFailed", x)
  }

  function SetDone(net: Net, o: Object, x: Ext): Thread {
    Busy(GetSvc(net), Mark(o, StatefulSetReady, True, "StatefulSetReconciled", "StatefulSet is ready", x.now))
  }

  function SvcFailed(o: Object, x: Ext): Thread {
    StageFailed(o, ServiceReady, "ServiceReconciliationFailed", x)
  }

  /** What the node information says afterwards: engine connected, no peers, not syncing; the chain head and the block
      numbers are kept. */
  predicate Connected(before: Option<NodeInfo>, after: Option<NodeInfo>) {
    && after.Some? && after.value.engineConnected && after.value.peerCount == 0
    && after.value.syncStatus.Some? && !after.value.syncStatus.value.syncing
    && after.value.chainHead == (if before.Some? then before.value.chainHead else None)
    && var (from, to) := (if before.Some? then before.value.syncStatus else None, after.value.syncStatus.value);
       if from.Some? then to.currentBlock == from.value.currentBlock && to.highestBlock == from.value.highestBlock
       else to.currentBlock == to.highestBlock == 0
  }

  /** `updateNodeStatus` */
  function NodeInfoOf(i: Option<NodeInfo>): (r: NodeInfo)
    ensures Connected(i, Some(r))
  {
    var info := i.GetOr(NodeInfo(None, None, 0, false));
    var sync := info.syncStatus.GetOr(SyncStatus(0, 0, false));
    info.(engineConnected := true, peerCount := 0, syncStatus := Some(sync.(syncing := false)))
  }

  function SvcDone(o: Object, x: Ext): Thread {
    var o1 := Mark(o, ServiceReady, True, "ServiceReconciled", "Service is ready", x.now);
    var o2 := o1.(status := o1.status.(nodeInfo := Some(NodeInfoOf(o1.status.nodeInfo))));
    WriteStatus(Observed(InPhase(o2, Running)), After(5), After(5))
  }

  function NewJwtOf(o: Object, token: string): Secret {
    Secret(Some(o.uid), map[JWT_ENTRY := token])
  }

  function NewP2pOf(o: Object, privateKey: string): Secret {
    Secret(Some(o.uid), map[P2P_ENTRY := privateKey])
  }

  function NewSetOf(id: Id, o: Object, n: OpNodeSpec, net: Net): StatefulSet {
    StatefulSet(o.uid, 0, Labels(KeyOf(id), n, net), map[], DesiredSet(KeyOf(id), n, net))
  }

  function EditedSet(id: Id, cur: StatefulSet, n: OpNodeSpec, net: Net): StatefulSet {
    cur.(spec := DesiredSet(KeyOf(id), n, net), labels := Labels(KeyOf(id), n, net), annotations := map[])
  }

  function NewServiceOf(id: Id, o: Object, n: OpNodeSpec, net: Net): Service {
    Service(o.uid, 0, Labels(KeyOf(id), n, net), ServiceAnnotations(n), DesiredService(KeyOf(id), n, net))
  }

  /** The update writes ports, type, labels and annotations, and leaves the selector as it is. */
  function EditedService(id: Id, cur: Service, n: OpNodeSpec, net: Net): Service {
    var d := DesiredService(KeyOf(id), n, net);
    cur.(spec := cur.spec.(ports := d.ports, serviceType := d.serviceType),
         labels := Labels(KeyOf(id), n, net), annotations := ServiceAnnotations(n))
  }

  /** The effect on the store of the call at `pc`, and its acknowledgement; a read has no effect. */
  function NodeWrite(s: State, id: Id, pc: Pc, o: Object, n: OpNodeSpec, x: Ext): (State, Ack) {
    match pc
    case NewJwt(_) => CreateSecret(s, JwtKey(id), NewJwtOf(o, x.key), x.fault)
    case NewP2p(_) => CreateSecret(s, P2pKey(id), NewP2pOf(o, x.key), x.fault)
    case NewSet(net) => CreateSet(s, KeyOf(id), NewSetOf(id, o, n, net), Built(n, net), x.fault)
    case PutSet(net, cur) => UpdateSet(s, KeyOf(id), EditedSet(id, cur, n, net), Built(n, net), x.fault)
    case NewSvc(net) => CreateService(s, KeyOf(id), NewServiceOf(id, o, n, net), x.fault)
    case PutSvc(net, cur) => UpdateService(s, KeyOf(id), EditedService(id, cur, n, net), x.fault)
    case _ => (s, Ok)
  }

  /** What the reconcile computes from the answer, up to its next call. */
  function NodeNext(s: State, id: Id, pc: Pc, o: Object, n: OpNodeSpec, x: Ext, a: Ack): Thread {
    match pc
    case GetNetwork => NetworkFetched(o, n.networkRef.name, Lookup(s.objs, NetworkId(id, n), x.fault), x)
    case GetJwt(net) =>
      (match Lookup(s.secrets, JwtKey(id), x.fault)
       case Got(_) => JwtDone(net, o, n, x)
       case Missing => Busy(NewJwt(net), o)
       case Unavailable => SecretsFailed(o, x))
    case NewJwt(net) => if a.Ok? then JwtDone(net, o, n, x) else SecretsFailed(o, x)
    case GetP2p(net) =>
      (match Lookup(s.secrets, P2pKey(id), x.fault)
       case Got(_) => SecretsDone(net, o, x)
       case Missing => Busy(NewP2p(net), o)
       case Unavailable => SecretsFailed(o, x))
    case NewP2p(net) => if a.Ok? then SecretsDone(net, o, x) else SecretsFailed(o, x)
    case GetSet(net) =>
      (match Lookup(s.sets, KeyOf(id), x.fault)
       case Got(cur) => Busy(PutSet(net, cur), o)
       case Missing => Busy(NewSet(net), o)
       case Unavailable => SetFailed(o, x))
    case NewSet(net) => if a.Ok? then SetDone(net, o, x) else SetFailed(o, x)
    case PutSet(net, _) => if a.Ok? then SetDone(net, o, x) else SetFailed(o, x)
    case GetSvc(net) =>
      (match Lookup(s.svcs, KeyOf(id), x.fault)
       case Got(cur) => Busy(PutSvc(net, cur), o)
       case Missing => Busy(NewSvc(net), o)
       case Unavailable => SvcFailed(o, x))
    case NewSvc(net) => if a.Ok? then SvcDone(o, x) else SvcFailed(o, x)
    case PutSvc(net, _) => if a.Ok? then SvcDone(o, x) else SvcFailed(o, x)
    case _ => Idle(Failure)
  }

  /* ----- OptimismNetwork ----- */

  function NetworkChecked(o: Object, n: OptimismNetworkSpec, x: Ext): Thread {
    match NetworkSpecError(n)
    case Some(e) =>
      WriteStatus(InPhase(Mark(o, ConfigurationValid, False, "InvalidConfiguration", e, x.now), Phase.Error),
                  After(5), After(5))
    case None =>
      Busy(DialL1, Mark(o, ConfigurationValid, True, "ValidConfiguration", "Network configuration is valid", x.now))
  }

  function ConfigFailed(o: Object): Thread {
    WriteStatus(InPhase(o, Phase.Error), After(2), After(2))
  }

  function NetworkDone(o: Object): Thread {
    WriteStatus(Observed(InPhase(o, Ready)), After(60), Failure)
  }

  function RollupDone(o: Object, n: OptimismNetworkSpec, a: Addresses): Thread {
    if AutoDiscovers(n.l2Genesis) then Busy(GetGenesis(a), o) else NetworkDone(o)
  }

  function Discovered(o: Object, n: OptimismNetworkSpec, a: Addresses, x: Ext): Thread {
    var o1 := Mark(o, ContractsDiscovered, True, "AddressesResolved",
                   "Contract addresses discovered via " + a.discoveryMethod, x.now);
    var info := o1.status.networkInfo.GetOr(NetworkInfo(0, 0, None));
    var o2 := o1.(status := o1.status.(networkInfo := Some(info.(contracts := Some(a), lastUpdated := x.later))));
    if AutoDiscovers(n.rollupConfig) then Busy(GetRollup(a), o2) else RollupDone(o2, n, a)
  }

  function NetworkWrite(s: State, id: Id, pc: Pc, o: Object, n: OptimismNetworkSpec, x: Ext): (State, Ack) {
    match pc
    case NewRollup(a) => CreateConfig(s, RollupKey(id), ConfigMap(o.uid, 0, RollupOf(n, a)), x.fault)
    case PutRollup(a, cur) => UpdateConfig(s, RollupKey(id), cur.(data := RollupOf(n, a)), x.fault)
    case NewGenesis(_) => CreateConfig(s, GenesisKey(id), ConfigMap(o.uid, 0, GenesisOf(n)), x.fault)
    case PutGenesis(_, cur) => UpdateConfig(s, GenesisKey(id), cur.(data := GenesisOf(n)), x.fault)
    case _ => (s, Ok)
  }

  function NetworkNext(s: State, id: Id, pc: Pc, o: Object, n: OptimismNetworkSpec, x: Ext, r: Ack): Thread {
    match pc
    case DialL1 =>
      if x.l1 then Busy(Discover, Mark(o, L1Connected, True, "L1ConnectionSuccess",
                                       "Successfully connected to L1 RPC endpoint", x.now))
      else WriteStatus(InPhase(Mark(o, L1Connected, False, "L1ConnectionFailed", x.text, x.now), Phase.Error),
                       After(2), After(2))
    case Discover =>
      (match x.found
       case Some(a) => Discovered(o, n, a, x)
       case None => WriteStatus(InPhase(Mark(o, ContractsDiscovered, False, "DiscoveryFailed", x.text, x.now),
                                        Phase.Error),
                                After(5), After(5)))
    case GetRollup(a) =>
      (match Lookup(s.configs, RollupKey(id), x.fault)
       case Got(cur) => Busy(PutRollup(a, cur), o)
       case Missing => Busy(NewRollup(a), o)
       case Unavailable => ConfigFailed(o))
    case NewRollup(a) => if r.Ok? then RollupDone(o, n, a) else ConfigFailed(o)
    case PutRollup(a, _) => if r.Ok? then RollupDone(o, n, a) else ConfigFailed(o)
    case GetGenesis(a) =>
      (match Lookup(s.configs, GenesisKey(id), x.fault)
       case Got(cur) => Busy(PutGenesis(a, cur), o)
       case Missing => Busy(NewGenesis(a), o)
       case Unavailable => ConfigFailed(o))
    case NewGenesis(_) => if r.Ok? then NetworkDone(o) else ConfigFailed(o)
    case PutGenesis(_, _) => if r.Ok? then NetworkDone(o) else ConfigFailed(o)
    case _ => Idle(Failure)
  }

  /* ----- Both ----- */

  /** The first Get, and everything up to the next call. */
  function Fetched(id: Id, r: Reply<Object>, x: Ext): Thread {
    match r
    case Missing => Idle(Nothing)
    case Unavailable => Idle(Failure)
    case Got(o) =>
      if !Fits(id.kind, o.spec) then Idle(Failure)
      else if o.deleting then Busy(PutFinalizer(Nothing), o.(finalizers := o.finalizers - {Own(id.kind)}))
      else if Own(id.kind) !in o.finalizers then Busy(PutFinalizer(Requeue),
                                                      o.(finalizers := o.finalizers + {Own(id.kind)}))
      else match o.spec
           case NodeSpec(n) => NodeChecked(o, n, x)
           case NetworkSpec(n) => NetworkChecked(o, n, x)
  }

  function StatusFetched(left: nat, good: Outcome, bad: Outcome, o: Object, r: Reply<Object>): Thread {
    if r.Got? then Busy(StatusPut(left, good, bad, r.value), o) else Idle(bad)
  }

  function StatusWritten(left: nat, good: Outcome, bad: Outcome, o: Object, a: Ack): Thread {
    if a.Ok? then Idle(good)
    else if a.Conflict? && left > 1 then Busy(StatusGet(left - 1, good, bad), o)
    else Idle(bad)
  }

  /** The store after the call a thread is at, and the acknowledgement. */
  function Write(s: State, id: Id, t: Thread, x: Ext): (State, Ack) {
    match t
    case Idle(_) => (s, Ok)
    case Busy(pc, o) =>
      match pc
      case PutFinalizer(_) => UpdateObject(s, id, o, x.fault)
      case StatusGet(_, _, _) => (s, Ok)
      case StatusPut(_, _, _, latest) =>
        UpdateStatus(s, id, latest.(status := CopiedStatus(id.kind, o.status, latest.status)), x.fault)
      case _ =>
        match o.spec
        case NodeSpec(n) => NodeWrite(s, id, pc, o, n, x)
        case NetworkSpec(n) => NetworkWrite(s, id, pc, o, n, x)
  }

  /** The thread at its next call. */
  function Next(s: State, id: Id, t: Thread, x: Ext, a: Ack): Thread {
    match t
    case Idle(_) => Fetched(id, Lookup(s.objs, id, x.fault), x)
    case Busy(pc, o) =>
      match pc
      case PutFinalizer(done) => Idle(if a.Ok? then done else Failure)
      case StatusGet(left, good, bad) => StatusFetched(left, good, bad, o, Lookup(s.objs, id, x.fault))
      case StatusPut(left, good, bad, _) => StatusWritten(left, good, bad, o, a)
      case _ =>
        match o.spec
        case NodeSpec(n) => NodeNext(s, id, pc, o, n, x, a)
        case NetworkSpec(n) => NetworkNext(s, id, pc, o, n, x, a)
  }

  /** One micro-step of the reconcile of `id`. */
  function Step(s: State, id: Id, t: Thread, x: Ext): (State, Thread) {
    var (s', a) := Write(s, id, t, x);
    (s', Next(s, id, t, x, a))
  }

  /* ----- Runs ----- */

  /** Every party's moves.  `Tick` is one micro-step of the reconcile of `id` (or the start of one), `Crash` its
      loss; users create, edit and delete objects and make Secrets; other controllers touch children;
      the garbage collector takes a child whose owner is gone. */
  datatype Action =
    | Tick(id: Id, x: Ext)
    | Crash(id: Id)
    | Create(id: Id, spec: Spec, finalizers: set<Finalizer>)
    | Edit(id: Id, spec: Spec)
    | Finalizers(id: Id, finalizers: set<Finalizer>)
    | Delete(id: Id)
    | Touch(id: Id)
    | MakeSecret(key: Key, data: map<string, string>)
    | TouchSet(key: Key)
    | TouchService(key: Key)
    | TouchConfig(key: Key)
    | CollectSecret(key: Key)
    | CollectSet(key: Key)
    | CollectService(key: Key)
    | CollectConfig(key: Key)

  datatype World = World(s: State, threads: map<Id, Thread>)

  function ThreadOf(w: World, id: Id): Thread {
    if id in w.threads then w.threads[id] else Idle(Nothing)
  }

  predicate Dead(s: State, uid: nat) {
    forall id | id in s.objs :: s.objs[id].uid != uid
  }

  /** No child of an earlier object of this name is left. */
  predicate Clean(s: State, id: Id) {
    match id.kind
    case NodeKind =>
      && (JwtKey(id) in s.secrets ==> s.secrets[JwtKey(id)].owner.None?)
      && (P2pKey(id) in s.secrets ==> s.secrets[P2pKey(id)].owner.None?)
      && KeyOf(id) !in s.sets && KeyOf(id) !in s.svcs
    case NetworkKind => RollupKey(id) !in s.configs && GenesisKey(id) !in s.configs
  }

  /** A move of somebody else than the operator.  One that is not allowed changes nothing: nobody but the
      operator removes its finalizer or writes a status, and nobody takes a child from a live owner. */
  function Others(s: State, a: Action): State {
    match a
    case Create(id, spec, fs) =>
      if id in s.objs || !Fits(id.kind, spec) then s
      else s.(objs := s.objs[id := Object(s.next, s.next, [], spec, fs, false, EMPTY_STATUS)],
              heirs := if Clean(s, id) then s.heirs - {id} else s.heirs + {id}, next := s.next + 1)
    case Edit(id, spec) =>
      if id !in s.objs || !Fits(id.kind, spec) then s else Commit(s, id, s.objs[id].WithSpec(spec))
    case Finalizers(id, fs) =>
      if id !in s.objs || (Own(id.kind) in s.objs[id].finalizers && Own(id.kind) !in fs) then s
      else Commit(s, id, s.objs[id].(finalizers := fs))
    case Delete(id) =>
      if id !in s.objs then s else Commit(s, id, s.objs[id].(deleting := true))
    case Touch(id) =>
      if id !in s.objs then s else s.(objs := s.objs[id := s.objs[id].(rv := s.next)], next := s.next + 1)
    case MakeSecret(k, data) =>
      if k in s.secrets then s else s.(secrets := s.secrets[k := Secret(None, data)])
    case TouchSet(k) =>
      if k !in s.sets then s else s.(sets := s.sets[k := s.sets[k].(rv := s.next)], next := s.next + 1)
    case TouchService(k) =>
      if k !in s.svcs then s else s.(svcs := s.svcs[k := s.svcs[k].(rv := s.next)], next := s.next + 1)
    case TouchConfig(k) =>
      if k !in s.configs then s else s.(configs := s.configs[k := s.configs[k].(rv := s.next)], next := s.next + 1)
    case CollectSecret(k) =>
      if k in s.secrets && s.secrets[k].owner.Some? && Dead(s, s.secrets[k].owner.value)
      then s.(secrets := s.secrets - {k}) else s
    case CollectSet(k) =>
      if k in s.sets && Dead(s, s.sets[k].owner) then s.(sets := s.sets - {k}) else s
    case CollectService(k) =>
      if k in s.svcs && Dead(s, s.svcs[k].owner) then s.(svcs := s.svcs - {k}) else s
    case CollectConfig(k) =>
      if k in s.configs && Dead(s, s.configs[k].owner) then s.(configs := s.configs - {k}) else s
    case Tick(_, _) => s
    case Crash(_) => s
  }

  function Apply(w: World, a: Action): World {
    match a
    case Tick(id, x) =>
      var (s', t') := Step(w.s, id, ThreadOf(w, id), x);
      World(s', w.threads[id := t'])
    case Crash(id) => w.(threads := w.threads[id := Idle(Nothing)])
    case _ => w.(s := Others(w.s, a))
  }

  /** A run is a list of moves. */
  function Exec(w: World, acts: seq<Action>): World {
    if acts == [] then w else Apply(Exec(w, acts[..|acts| - 1]), acts[|acts| - 1])
  }

  const START := World(State(map[], map[], map[], map[], map[], map[], {}, 1), map[])
}
