/** What a reconcile makes of the answer to each of its calls.  Success is described by the store and the fate of the
    call, the verdict by the next call and by the conditions as a reader sees them. */
module Verdicts {
  import opened Types
  import opened Conditions
  import opened Builders
  import opened Store
  import opened Machine
  import opened Steps
  import opened Invariants
  import opened Preservation
  import opened Runs
  import opened Safety
  import opened Convergence

  /** What a reader of the conditions finds under one type. */
  predicate Reads(o: Object, c: ConditionType, status: ConditionStatus, reason: string, message: string) {
    var v := Get(o.status.conditions, c);
    v.Some? && v.value.status == status && v.value.reason == reason && v.value.message == message
  }

  /** Nothing but these two types reads differently. */
  ghost predicate ElseAsBefore(o: Object, o': Object, c: ConditionType, d: ConditionType) {
    forall e :: e != c && e != d ==> Get(o'.status.conditions, e) == Get(o.status.conditions, e)
  }

  lemma MarkReads(o: Object, c: ConditionType, st: ConditionStatus, reason: string, message: string, now: int)
    ensures var o' := Mark(o, c, st, reason, message, now);
            && Reads(o', c, st, reason, message)
            && (forall d :: d != c ==> Get(o'.status.conditions, d) == Get(o.status.conditions, d))
            && o' == o.(status := o.status.(conditions := o'.status.conditions))
  {
    var u := Update(c, st, reason, message, now);
    forall d
      ensures Get(Set(o.status.conditions, u), d) ==
              if d == c then Some(Condition(c, st, reason, message, now, Conditions.Generation(o.status.conditions, c)))
              else Get(o.status.conditions, d)
    {
      GetAfterSet(o.status.conditions, u, d);
    }
  }

  /** The reconcile stops here: it goes on to write this phase for the present generation, and to come back in `m`
      minutes whether the write succeeds or not. */
  ghost predicate Stops(o: Object, t: Thread, phase: Phase, m: nat) {
    && t.Busy? && t.pc == StatusGet(5, After(m), After(m))
    && t.obj.status.phase == phase && t.obj.status.observedGeneration == |o.past| + 1
  }

  /* ----- The network of an OpNode ----- */

  ghost predicate NetworkStored(s: State, nid: Id) {
    nid in s.objs && s.objs[nid].spec.NetworkSpec?
  }

  /** An OpNode waits for its network: the step goes on to the Secrets exactly if the call is answered and the object
      stored under the reference, in the OpNode's own namespace unless another is given, is a network in phase Ready.
      */
  lemma NetworkDecides(s: State, id: Id, o: Object, x: Ext)
    requires o.spec.NodeSpec?
    ensures var ref := o.spec.node.networkRef;
            var nid := Id(NetworkKind, if ref.namespace == "" then id.ns else ref.namespace, ref.name);
            var (s', t) := Step(s, id, Busy(GetNetwork, o), x);
            && s' == s && t.Busy?
            && (t.pc.GetJwt? <==> x.fault.NoFault? && NetworkStored(s, nid) && s.objs[nid].status.phase == Ready)
            && (t.pc.GetJwt? ==> t.pc.net == Net(ref.name, s.objs[nid].spec.network))
            && (t.pc.GetJwt? || t.pc.StatusGet?)
  {
    hide Mark, Step;
    FetchesNetwork(s, id, o, x);
  }

  /** What it reports: NetworkReference and NetworkReady after a found network, in phase Pending if it is not Ready;
      NetworkReference alone, and Error, after any other answer. */
  lemma NetworkVerdict(s: State, id: Id, o: Object, x: Ext)
    requires o.spec.NodeSpec?
    ensures var nid := Machine.NetworkId(id, o.spec.node);
            var t := Step(s, id, Busy(GetNetwork, o), x).1;
            if x.fault.NoFault? && NetworkStored(s, nid) then
              && Reads(t.obj, NetworkReference, True, "NetworkFound", "OptimismNetwork reference resolved successfully")
              && ElseAsBefore(o, t.obj, NetworkReference, ConditionType.NetworkReady)
              && if s.objs[nid].status.phase == Ready then
                   Reads(t.obj, ConditionType.NetworkReady, True, "NetworkReady", "OptimismNetwork is ready")
                 else
                   && Stops(o, t, Pending, 1)
                   && Reads(t.obj, ConditionType.NetworkReady, False, "NetworkNotReady", "OptimismNetwork is not ready")
            else
              Fails(o, t, NetworkReference, "NetworkNotFound", x.text, 2)
  {
    hide Mark, Get, Next, Write;
    FetchesNetwork(s, id, o, x);
    hide Step;
    var o1 := Mark(o, NetworkReference, True, "NetworkFound", "OptimismNetwork reference resolved successfully", x.now);
    MarkReads(o, NetworkReference, True, "NetworkFound", "OptimismNetwork reference resolved successfully", x.now);
    MarkReads(o1, ConditionType.NetworkReady, True, "NetworkReady", "OptimismNetwork is ready", x.later);
    MarkReads(o1, ConditionType.NetworkReady, False, "NetworkNotReady", "OptimismNetwork is not ready", x.later);
    MarkReads(o, NetworkReference, False, "NetworkNotFound", x.text, x.now);
  }

  /* ----- The children of an OpNode ----- */

  predicate SecretCall(pc: Pc) {
    pc.GetJwt? || pc.NewJwt? || pc.GetP2p? || pc.NewP2p?
  }

  predicate SetCall(pc: Pc) {
    pc.GetSet? || pc.NewSet? || pc.PutSet?
  }

  predicate ServiceCall(pc: Pc) {
    pc.GetSvc? || pc.NewSvc? || pc.PutSvc?
  }

  /** The store grants the call: it is answered, a Create finds its name free, and an Update finds the version that was
      read, and of a StatefulSet nothing changed that must not change. */
  ghost predicate Granted(s: State, id: Id, pc: Pc, n: OpNodeSpec, x: Ext) {
    var k := Key(id.ns, id.name);
    && x.fault.NoFault?
    && match pc
       case NewJwt(_) => Key(id.ns, id.name + "-jwt") !in s.secrets
       case NewP2p(_) => Key(id.ns, id.name + "-p2p") !in s.secrets
       case NewSet(_) => k !in s.sets
       case PutSet(net, cur) =>
         k in s.sets && s.sets[k].rv == cur.rv && Replaceable(s.sets[k].spec, DesiredSet(k, n, net))
       case NewSvc(_) => k !in s.svcs
       case PutSvc(_, cur) => k in s.svcs && s.svcs[k].rv == cur.rv
       case _ => true
  }

  /** The next call after a granted one: what is there is updated, but a Secret is left alone; what is missing is made;
      the P2P Secret is looked at if the key is to be generated, and the StatefulSet comes after the Secrets and before
      the Service. */
  function Onward(s: State, id: Id, pc: Pc, n: OpNodeSpec): Pc {
    var k := Key(id.ns, id.name);
    match pc
    case GetJwt(net) => if Key(id.ns, id.name + "-jwt") in s.secrets then PastJwt(net, n) else NewJwt(net)
    case NewJwt(net) => PastJwt(net, n)
    case GetP2p(net) => if Key(id.ns, id.name + "-p2p") in s.secrets then GetSet(net) else NewP2p(net)
    case NewP2p(net) => GetSet(net)
    case GetSet(net) => if k in s.sets then PutSet(net, s.sets[k]) else NewSet(net)
    case NewSet(net) => GetSvc(net)
    case PutSet(net, _) => GetSvc(net)
    case GetSvc(net) => if k in s.svcs then PutSvc(net, s.svcs[k]) else NewSvc(net)
    case _ => StatusGet(5, After(5), After(5))
  }

  function PastJwt(net: Net, n: OpNodeSpec): Pc {
    if n.opNode.p2p.Some? && n.opNode.p2p.value.privateKey.Some? && n.opNode.p2p.value.privateKey.value.generate
    then GetP2p(net) else GetSet(net)
  }

  /** A refused or lost call ends the pipeline: the condition of its stage tells why, the others stay. */
  ghost predicate Fails(o: Object, t: Thread, c: ConditionType, reason: string, text: string, m: nat) {
    Stops(o, t, Phase.Error, m) && Reads(t.obj, c, False, reason, text) && ElseAsBefore(o, t.obj, c, c)
  }

  /** The condition of a stage is set at its last call. */
  ghost predicate Passes(o: Object, t: Thread, done: bool, c: ConditionType, reason: string, message: string) {
    && t.Busy? && ElseAsBefore(o, t.obj, c, c)
    && if done then Reads(t.obj, c, True, reason, message) else t.obj == o
  }

  lemma Failing(o: Object, c: ConditionType, reason: string, x: Ext)
    ensures Fails(o, StageFailed(o, c, reason, x), c, reason, x.text, 2)
  {
    hide Mark, Get;
    MarkReads(o, c, False, reason, x.text, x.now);
  }

  lemma SecretCallDecides(s: State, id: Id, pc: Pc, o: Object, x: Ext)
    requires o.spec.NodeSpec? && SecretCall(pc)
    ensures var t := Step(s, id, Busy(pc, o), x).1;
            if Granted(s, id, pc, o.spec.node, x) then
              && t.Busy? && t.pc == Onward(s, id, pc, o.spec.node)
              && Passes(o, t, t.pc.GetSet?, SecretsReady, "SecretsReconciled", "All required secrets are ready")
            else Fails(o, t, SecretsReady, "SecretReconciliationFailed", x.text, 2)
  {
    hide Mark, Get, Fails, StageFailed, NetworkNext, NetworkWrite, Fetched, DesiredSet, Reads;
    MarkReads(o, SecretsReady, True, "SecretsReconciled", "All required secrets are ready", x.now);
    Failing(o, SecretsReady, "SecretReconciliationFailed", x);
  }

  lemma SetCallDecides(s: State, id: Id, pc: Pc, o: Object, x: Ext)
    requires o.spec.NodeSpec? && SetCall(pc)
    ensures var t := Step(s, id, Busy(pc, o), x).1;
            if Granted(s, id, pc, o.spec.node, x) then
              && t.Busy? && t.pc == Onward(s, id, pc, o.spec.node)
              && Passes(o, t, t.pc.GetSvc?, StatefulSetReady, "StatefulSetReconciled", "StatefulSet is ready")
            else Fails(o, t, StatefulSetReady, "StatefulSetReconciliationFailed", x.text, 2)
  {
    hide Mark, Get, Fails, StageFailed, Step, DesiredSet, Labels, ReplaceSet, Reads;
    if pc.GetSet? {
      SetGetStep(s, id, pc.net, o, x);
    } else if pc.NewSet? {
      SetNewStep(s, id, pc.net, o, x);
    } else {
      SetPutStep(s, id, pc.net, pc.current, o, x);
    }
    MarkReads(o, StatefulSetReady, True, "StatefulSetReconciled", "StatefulSet is ready", x.now);
    Failing(o, StatefulSetReady, "StatefulSetReconciliationFailed", x);
  }

  /** The last stage, done, also says Running, for the present generation, to look again in five minutes. */
  lemma ServiceCallDecides(s: State, id: Id, pc: Pc, o: Object, x: Ext)
    requires o.spec.NodeSpec? && ServiceCall(pc)
    ensures var t := Step(s, id, Busy(pc, o), x).1;
            if Granted(s, id, pc, o.spec.node, x) then
              && t.Busy? && t.pc == Onward(s, id, pc, o.spec.node)
              && Passes(o, t, t.pc.StatusGet?, ServiceReady, "ServiceReconciled", "Service is ready")
              && (t.pc.StatusGet? ==> Stops(o, t, Running, 5) && Connected(o.status.nodeInfo, t.obj.status.nodeInfo))
            else Fails(o, t, ServiceReady, "ServiceReconciliationFailed", x.text, 2)
  {
    hide Mark, Get, Fails, StageFailed, Step, DesiredService, Labels, NodeInfoOf;
    if pc.GetSvc? {
      ServiceGetStep(s, id, pc.net, o, x);
    } else if pc.NewSvc? {
      ServiceNewStep(s, id, pc.net, o, x);
    } else {
      ServicePutStep(s, id, pc.net, pc.svc, o, x);
    }
    MarkReads(o, ServiceReady, True, "ServiceReconciled", "Service is ready", x.now);
    Failing(o, ServiceReady, "ServiceReconciliationFailed", x);
  }

  /** A Secret the operator makes holds the key that was generated, under the entry its file is named for, and belongs
      to the OpNode. */
  lemma SecretHoldsKey(s: State, id: Id, pc: Pc, o: Object, x: Ext)
    requires o.spec.NodeSpec? && (pc.NewJwt? || pc.NewP2p?) && Granted(s, id, pc, o.spec.node, x)
    ensures var (k, entry) := if pc.NewJwt? then (Key(id.ns, id.name + "-jwt"), "jwt")
                              else (Key(id.ns, id.name + "-p2p"), "private-key");
            Step(s, id, Busy(pc, o), x).0 == s.(secrets := s.secrets[k := Secret(Some(o.uid), map[entry := x.key])])
  {
    hide Next, NetworkWrite;
  }

  /* ----- The first call, and the two that end a reconcile ----- */

  /** The reconcile goes on if it finds an object of its kind, is done if there is none, and fails otherwise. */
  lemma StartDecides(s: State, id: Id, x: Ext)
    ensures var (s', t) := Step(s, id, Idle(Nothing), x);
            && s' == s
            && (t == Idle(Nothing) <==> x.fault.NoFault? && id !in s.objs)
            && (t.Busy? <==> x.fault.NoFault? && id in s.objs && (id.kind.NodeKind? <==> s.objs[id].spec.NodeSpec?))
            && (t.Idle? ==> t.last in {Nothing, Failure})
  {
    hide Mark, NodeSpecError, NetworkSpecError, Step;
    StartStep(s, id, Nothing, x);
  }

  /** The finalizer is dealt with before anything else, and it is the operator's own that is taken off or put on. */
  lemma FinalizerFirst(s: State, id: Id, x: Ext)
    requires id in s.objs && x.fault.NoFault? && Fits(id.kind, s.objs[id].spec)
    ensures var own := if id.kind.NodeKind? then NodeFinalizer else NetworkFinalizer;
            var (o, t) := (s.objs[id], Step(s, id, Idle(Nothing), x).1);
            && (o.deleting ==> t == Busy(PutFinalizer(Nothing), o.(finalizers := o.finalizers - {own})))
            && (!o.deleting && own !in o.finalizers ==>
                  t == Busy(PutFinalizer(Requeue), o.(finalizers := o.finalizers + {own})))
  {
    hide NodeChecked, NetworkChecked, Step;
    StartStep(s, id, Nothing, x);
  }

  /** Past the finalizer. */
  predicate Proper(s: State, id: Id) {
    id in s.objs && Fits(id.kind, s.objs[id].spec) && !s.objs[id].deleting && Own(id.kind) in s.objs[id].finalizers
  }

  /** Validation comes next.  An OpNode that fails it is to say so for its present generation, a network for the one it
      observed before; both look again in five minutes. */
  lemma NodeValidated(s: State, id: Id, x: Ext)
    requires id.kind.NodeKind? && Proper(s, id) && x.fault.NoFault?
    ensures var o := s.objs[id];
            var t := Step(s, id, Idle(Nothing), x).1;
            match NodeSpecError(o.spec.node)
            case Some(e) => Fails(o, t, ConfigurationValid, "InvalidConfiguration", e, 5)
            case None =>
              && Enters(o, t, GetNetwork)
              && Reads(t.obj, ConfigurationValid, True, "ValidConfiguration", "OpNode configuration is valid")
  {
    hide Mark, NodeSpecError, Step, Get;
    StartStep(s, id, Nothing, x);
    var o := s.objs[id];
    MarkReads(o, ConfigurationValid, True, "ValidConfiguration", "OpNode configuration is valid", x.now);
    if NodeSpecError(o.spec.node).Some? {
      MarkReads(o, ConfigurationValid, False, "InvalidConfiguration", NodeSpecError(o.spec.node).value, x.now);
    }
  }

  lemma NetworkValidated(s: State, id: Id, x: Ext)
    requires id.kind.NetworkKind? && Proper(s, id) && x.fault.NoFault?
    ensures var o := s.objs[id];
            var t := Step(s, id, Idle(Nothing), x).1;
            match NetworkSpecError(o.spec.network)
            case Some(e) => Halts(o, t, ConfigurationValid, "InvalidConfiguration", e, 5)
            case None =>
              && Enters(o, t, DialL1)
              && Reads(t.obj, ConfigurationValid, True, "ValidConfiguration", "Network configuration is valid")
  {
    hide Mark, NetworkSpecError, Step, Get;
    StartStep(s, id, Nothing, x);
    var o := s.objs[id];
    MarkReads(o, ConfigurationValid, True, "ValidConfiguration", "Network configuration is valid", x.now);
    if NetworkSpecError(o.spec.network).Some? {
      MarkReads(o, ConfigurationValid, False, "InvalidConfiguration", NetworkSpecError(o.spec.network).value, x.now);
    }
  }

  /** On to the pipeline, with one condition set. */
  ghost predicate Enters(o: Object, t: Thread, pc: Pc) {
    && t.Busy? && t.pc == pc && ElseAsBefore(o, t.obj, ConfigurationValid, ConfigurationValid)
    && t.obj == o.(status := o.status.(conditions := t.obj.status.conditions))
  }

  /** A network that fails keeps the generation it observed. */
  ghost predicate Halts(o: Object, t: Thread, c: ConditionType, reason: string, text: string, m: nat) {
    && t.Busy? && t.pc == StatusGet(5, After(m), After(m)) && t.obj.status.phase == Phase.Error
    && t.obj.status.observedGeneration == o.status.observedGeneration
    && Reads(t.obj, c, False, reason, text) && ElseAsBefore(o, t.obj, c, c)
  }

  /** The finalizer update ends the reconcile, as a failure unless the version it started from was the stored one. */
  lemma FinalizerDecides(s: State, id: Id, done: Outcome, o: Object, x: Ext)
    ensures Step(s, id, Busy(PutFinalizer(done), o), x).1 ==
            Idle(if x.fault.NoFault? && id in s.objs && s.objs[id].rv == o.rv then done else Failure)
  {
    hide Commit, NodeNext, NetworkNext;
  }

  /** A status write starts from the version just read and succeeds if that is still the stored one; on a conflict it
      starts over until five writes are used up, and any other answer ends it. */
  lemma StatusDecides(s: State, id: Id, left: nat, good: Outcome, bad: Outcome, o: Object, latest: Object, x: Ext)
    ensures Step(s, id, Busy(StatusGet(left, good, bad), o), x) ==
            (s, if x.fault.NoFault? && id in s.objs then Busy(StatusPut(left, good, bad, s.objs[id]), o) else Idle(bad))
    ensures Step(s, id, Busy(StatusPut(left, good, bad, latest), o), x).1 ==
            if !x.fault.NoFault? || id !in s.objs then Idle(bad)
            else if s.objs[id].rv == latest.rv then Idle(good)
            else if left <= 1 then Idle(bad)
            else Busy(StatusGet(left - 1, good, bad), o)
  {
    hide Commit, CopiedStatus;
    StatusGetStep(s, id, left, good, bad, o, x);
    StatusPutStep(s, id, left, good, bad, o, latest, x);
  }

  /* ----- OptimismNetwork ----- */

  /** Discovery is asked only if the L1 endpoint answers. */
  lemma DialDecides(s: State, id: Id, o: Object, x: Ext)
    requires o.spec.NetworkSpec?
    ensures var (s', t) := Step(s, id, Busy(DialL1, o), x);
            && s' == s
            && if x.l1 then
                 && t.Busy? && t.pc.Discover? && ElseAsBefore(o, t.obj, L1Connected, L1Connected)
                 && Reads(t.obj, L1Connected, True, "L1ConnectionSuccess", "Successfully connected to L1 RPC endpoint")
               else Halts(o, t, L1Connected, "L1ConnectionFailed", x.text, 2)
  {
    hide Mark, Get, Step;
    DialStep(s, id, o, x);
    MarkReads(o, L1Connected, True, "L1ConnectionSuccess", "Successfully connected to L1 RPC endpoint", x.now);
    MarkReads(o, L1Connected, False, "L1ConnectionFailed", x.text, x.now);
  }

  /** The call after the ConfigMaps that come before: the rollup ConfigMap if it is to be discovered, then the genesis
      ConfigMap, then the status. */
  function Ahead(n: OptimismNetworkSpec, a: Addresses, rollup: bool): Pc {
    if rollup && n.rollupConfig.Some? && n.rollupConfig.value.autoDiscover then GetRollup(a)
    else if n.l2Genesis.Some? && n.l2Genesis.value.autoDiscover then GetGenesis(a)
    else StatusGet(5, After(60), Failure)
  }

  ghost predicate Proceeds(o: Object, t: Thread, pc: Pc) {
    && t.Busy? && t.pc == pc
    && (pc.StatusGet? ==> t.obj.status.phase == Ready && t.obj.status.observedGeneration == |o.past| + 1)
  }

  lemma DiscoverDecides(s: State, id: Id, o: Object, x: Ext)
    requires o.spec.NetworkSpec?
    ensures var (s', t) := Step(s, id, Busy(Discover, o), x);
            && s' == s
            && match x.found
               case None => Halts(o, t, ContractsDiscovered, "DiscoveryFailed", x.text, 5)
               case Some(a) =>
                 && Proceeds(o, t, Ahead(o.spec.network, a, true))
                 && ElseAsBefore(o, t.obj, ContractsDiscovered, ContractsDiscovered)
                 && Reads(t.obj, ContractsDiscovered, True, "AddressesResolved",
                          "Contract addresses discovered via " + a.discoveryMethod)
                 && t.obj.status.networkInfo.Some? && t.obj.status.networkInfo.value.contracts == Some(a)
  {
    hide Mark, Get, Step;
    Steps.DiscoverStep(s, id, o, x);
    match x.found
    case None => MarkReads(o, ContractsDiscovered, False, "DiscoveryFailed", x.text, x.now);
    case Some(a) =>
      MarkReads(o, ContractsDiscovered, True, "AddressesResolved",
                "Contract addresses discovered via " + a.discoveryMethod, x.now);
  }

  /** The store grants the call about a ConfigMap. */
  ghost predicate ConfigGranted(s: State, k: Key, pc: Pc, x: Ext) {
    && x.fault.NoFault?
    && (pc.NewRollup? || pc.NewGenesis? ==> k !in s.configs)
    && (pc.PutRollup? || pc.PutGenesis? ==> k in s.configs && s.configs[k].rv == pc.config.rv)
  }

  /** A read goes on to an update of what is there or to a creation; a write to the next ConfigMap or the status.  A
      call that is not granted ends in Error, after which nothing but the phase is different. */
  lemma ConfigCallDecides(s: State, id: Id, rollup: bool, pc: Pc, o: Object, x: Ext)
    requires o.spec.NetworkSpec?
    requires if rollup then pc.GetRollup? || pc.NewRollup? || pc.PutRollup?
             else pc.GetGenesis? || pc.NewGenesis? || pc.PutGenesis?
    ensures var k := Key(id.ns, id.name + if rollup then "-rollup-config" else "-genesis");
            var t := Step(s, id, Busy(pc, o), x).1;
            if !ConfigGranted(s, k, pc, x) then
              t == Busy(StatusGet(5, After(2), After(2)), o.(status := o.status.(phase := Phase.Error)))
            else if pc.GetRollup? || pc.GetGenesis? then
              t == Busy(if rollup then (if k in s.configs then PutRollup(pc.found, s.configs[k])
                                        else NewRollup(pc.found))
                        else (if k in s.configs then PutGenesis(pc.found, s.configs[k]) else NewGenesis(pc.found)), o)
            else
              && Proceeds(o, t, if rollup then Ahead(o.spec.network, pc.found, false)
                                else StatusGet(5, After(60), Failure))
              && t.obj.status.conditions == o.status.conditions
  {
    hide Step, RollupOf, GenesisOf;
    var a := pc.found;
    if pc == ConfigGet(rollup, a) {
      ConfigGetStep(s, id, rollup, a, o, x);
    } else if pc == ConfigNew(rollup, a) {
      ConfigNewStep(s, id, rollup, a, o, x);
    } else {
      assert pc == ConfigPut(rollup, a, pc.config);
      ConfigPutStep(s, id, rollup, a, pc.config, o, x);
    }
  }

  /** A ConfigMap call that takes effect writes the chain IDs of the spec, and the portal and system config found. */
  lemma ConfigHolds(s: State, id: Id, rollup: bool, pc: Pc, o: Object, x: Ext)
    requires o.spec.NetworkSpec? && !x.fault.Lost?
    requires if rollup then pc.NewRollup? || pc.PutRollup? else pc.NewGenesis? || pc.PutGenesis?
    requires ConfigGranted(s, Key(id.ns, id.name + if rollup then "-rollup-config" else "-genesis"), pc, x)
    ensures var k := Key(id.ns, id.name + if rollup then "-rollup-config" else "-genesis");
            var (n, s') := (o.spec.network, Step(s, id, Busy(pc, o), x).0);
            && k in s'.configs && s'.configs == s.configs[k := s'.configs[k]]
            && s'.configs[k].data == (if rollup
                                      then RollupJson(n.l1ChainID, n.chainID, pc.found.optimismPortal,
                                                      pc.found.systemConfig)
                                      else GenesisJson(n.chainID))
  {
    hide Step, AfterConfig;
    var a := pc.found;
    if pc == ConfigNew(rollup, a) {
      ConfigNewStep(s, id, rollup, a, o, x);
    } else {
      assert pc == ConfigPut(rollup, a, pc.config);
      ConfigPutStep(s, id, rollup, a, pc.config, o, x);
    }
  }

  /* ----- In every run ----- */

  /** In every run an OpNode waits for its network: whatever else is going on, a reconcile that is at the fetch of its
      network goes on to the Secrets exactly if the call is answered and the network stored under the reference, in
      the OpNode's own namespace unless another is given, is Ready at that moment.  If it is not, the status to be
      written is Pending with NetworkReady False, and the store is untouched. */
  lemma WaitsForNetwork(acts: seq<Action>, id: Id, x: Ext)
    requires id.kind.NodeKind?
    requires var t := ThreadOf(Exec(START, acts), id); t.Busy? && t.pc.GetNetwork?
    ensures var w := Exec(START, acts);
            var o := ThreadOf(w, id).obj;
            && o.spec.NodeSpec?
            && var ref := o.spec.node.networkRef;
               var nid := Id(NetworkKind, if ref.namespace == "" then id.ns else ref.namespace, ref.name);
               var v := Apply(w, Tick(id, x));
               var t := ThreadOf(v, id);
               && v.s == w.s && t.Busy?
               && (t.pc.GetJwt? <==> x.fault.NoFault? && nid in w.s.objs && w.s.objs[nid].status.phase == Ready)
               && (x.fault.NoFault? && nid in w.s.objs && w.s.objs[nid].status.phase != Ready ==>
                     && Stops(o, t, Pending, 1)
                     && Reads(t.obj, ConditionType.NetworkReady, False, "NetworkNotReady",
                              "OptimismNetwork is not ready"))
               && (x.fault.NoFault? && nid !in w.s.objs ==>
                     Fails(o, t, NetworkReference, "NetworkNotFound", x.text, 2))
  {
    hide Exec, Local, Live, Step, Reads, Get, IsTrue, NodeSpecError, NetworkSpecError;
    var w := Exec(START, acts);
    LocalAt(acts, id);
    LocalThread(w.s, id, ThreadOf(w, id));
    LiveFits(w.s, id, ThreadOf(w, id).obj);
    var o := ThreadOf(w, id).obj;
    var nid := Machine.NetworkId(id, o.spec.node);
    StoredFits(acts, nid);
    NetworkDecides(w.s, id, o, x);
    NetworkVerdict(w.s, id, o, x);
  }

  lemma StoredFits(acts: seq<Action>, id: Id)
    ensures var s := Exec(START, acts).s; id in s.objs ==> Fits(id.kind, s.objs[id].spec)
  {
    hide Exec, StatusOk, ChildrenOk;
    LocalAt(acts, id);
  }

  /* ----- Undisturbed reconciles that end early ----- */

  /** The object has this phase for its present generation, and nothing but its status and version has changed. */
  ghost predicate Told(s: State, s': State, id: Id, phase: Phase) {
    && id in s.objs && id in s'.objs
    && s' == s.(objs := s.objs[id := s'.objs[id]], next := s'.next)
    && s'.objs[id] == s.objs[id].(status := s'.objs[id].status, rv := s'.objs[id].rv)
    && s'.objs[id].status.phase == phase && s'.objs[id].status.observedGeneration == |s.objs[id].past| + 1
  }

  lemma FromStop(s: State, id: Id, o: Object, t: Thread, phase: Phase, m: nat, xs: seq<Ext>)
    requires id.kind.NodeKind? && id in s.objs && !s.objs[id].deleting && |xs| >= 2 && Calm(xs)
    requires Stops(o, t, phase, m) && o.past == s.objs[id].past
    ensures var (s', t') := Finish(s, id, t, xs);
            && t' == Idle(After(m)) && Told(s, s', id, phase)
            && s'.objs[id].status.conditions == t.obj.status.conditions
  {
    hide Finish, Stored;
    FromStatus(s, id, t.obj, After(m), After(m), xs);
    StoredKeeps(s, id, CopiedStatus(id.kind, t.obj.status, s.objs[id].status));
  }

  /** An OpNode with an invalid spec is told what is wrong, and nothing else happens. */
  lemma InvalidStops(s: State, id: Id, xs: seq<Ext>)
    requires id.kind.NodeKind? && Proper(s, id) && NodeSpecError(s.objs[id].spec.node).Some? && |xs| >= 3 && Calm(xs)
    ensures var (s', t') := Alone(s, id, xs);
            && t' == Idle(After(5)) && Told(s, s', id, Phase.Error)
            && Reads(s'.objs[id], ConfigurationValid, False, "InvalidConfiguration",
                     NodeSpecError(s.objs[id].spec.node).value)
  {
    hide Step, Finish, NodeSpecError, Get;
    NodeValidated(s, id, xs[0]);
    StartStep(s, id, Nothing, xs[0]);
    FromStop(s, id, s.objs[id], Step(s, id, Idle(Nothing), xs[0]).1, Phase.Error, 5, xs[1..]);
  }

  /** A valid OpNode whose network is missing or not Ready: its children are left as they are, and it is told which of
      the two it is. */
  lemma WithoutNetworkWaits(s: State, id: Id, xs: seq<Ext>)
    requires id.kind.NodeKind? && Proper(s, id) && NodeSpecError(s.objs[id].spec.node).None? && |xs| >= 4 && Calm(xs)
    requires var nid := Machine.NetworkId(id, s.objs[id].spec.node);
             NetworkStored(s, nid) ==> s.objs[nid].status.phase != Ready
    ensures var (s', t') := Alone(s, id, xs);
            var nid := Machine.NetworkId(id, s.objs[id].spec.node);
            if NetworkStored(s, nid) then
              && t' == Idle(After(1)) && Told(s, s', id, Pending)
              && Reads(s'.objs[id], ConditionType.NetworkReady, False, "NetworkNotReady",
                       "OptimismNetwork is not ready")
            else
              && t' == Idle(After(2)) && Told(s, s', id, Phase.Error)
              && Reads(s'.objs[id], NetworkReference, False, "NetworkNotFound", xs[1].text)
  {
    hide Step, Finish, NodeSpecError, Get;
    NodeValidated(s, id, xs[0]);
    StartStep(s, id, Nothing, xs[0]);
    var t1 := Step(s, id, Idle(Nothing), xs[0]).1;
    OneStep(s, id, t1, xs[1..]);
    NetworkVerdict(s, id, t1.obj, xs[1]);
    NetworkDecides(s, id, t1.obj, xs[1]);
    var t2 := Step(s, id, t1, xs[1]).1;
    assert xs[1..][1..] == xs[2..];
    if NetworkStored(s, Machine.NetworkId(id, s.objs[id].spec.node)) {
      FromStop(s, id, t1.obj, t2, Pending, 1, xs[2..]);
    } else {
      FromStop(s, id, t1.obj, t2, Phase.Error, 2, xs[2..]);
    }
  }

  /** An undisturbed reconcile of an object that is being deleted takes the operator's finalizer off; with that the
      object is gone, unless somebody else holds one. */
  lemma DeletionReleases(s: State, id: Id, xs: seq<Ext>)
    requires id in s.objs && Fits(id.kind, s.objs[id].spec) && s.objs[id].deleting && |xs| >= 2 && Calm(xs)
    ensures var own := if id.kind.NodeKind? then NodeFinalizer else NetworkFinalizer;
            var (o, s', t') := (s.objs[id], Alone(s, id, xs).0, Alone(s, id, xs).1);
            && t' == Idle(Nothing)
            && s' == (if own !in o.finalizers then s
                      else if o.finalizers == {own} then s.(objs := s.objs - {id}, next := s.next + 1)
                      else s.(objs := s.objs[id := o.(finalizers := o.finalizers - {own}, rv := s.next)],
                              next := s.next + 1))
  {
    hide Step;
    FinalizerFirst(s, id, xs[0]);
    StartStep(s, id, Nothing, xs[0]);
    var t := Step(s, id, Idle(Nothing), xs[0]).1;
    OneStep(s, id, t, xs[1..]);
    FinalizerTaken(s, id, xs[1]);
  }

  lemma FinalizerTaken(s: State, id: Id, x: Ext)
    requires id in s.objs && s.objs[id].deleting && x.fault.NoFault?
    ensures var o, own := s.objs[id], Own(id.kind);
            Step(s, id, Busy(PutFinalizer(Nothing), o.(finalizers := o.finalizers - {own})), x) ==
            (if own !in o.finalizers then s
             else if o.finalizers == {own} then s.(objs := s.objs - {id}, next := s.next + 1)
             else s.(objs := s.objs[id := o.(finalizers := o.finalizers - {own}, rv := s.next)], next := s.next + 1),
             Idle(Nothing))
  {
    var o, own := s.objs[id], Own(id.kind);
    var fs := o.finalizers - {own};
    assert own !in o.finalizers ==> fs == o.finalizers;
    assert own in o.finalizers ==> fs != o.finalizers;
    assert fs == {} && own in o.finalizers ==> o.finalizers == {own};
    assert s.objs[id].WithSpec(o.spec).(finalizers := fs) == o.(finalizers := fs);
  }
}
