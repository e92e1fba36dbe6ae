/** Convergence of an OptimismNetwork: undisturbed, with its L1 endpoint reachable and its contracts found, it becomes
    Ready with the ConfigMaps it asks for. */
module NetworkConvergence {
  import opened Types
  import opened Conditions
  import opened Builders
  import opened Store
  import opened Machine
  import opened Steps
  import opened Invariants
  import opened Preservation
  import opened Safety
  import opened Convergence

  /** The state after one ConfigMap has been created or overwritten. */
  function WithConfig(s: State, k: Key, owner: nat, data: ConfigData): State {
    if k in s.configs then UpdateConfig(s, k, s.configs[k].(data := data), NoFault).0
    else CreateConfig(s, k, ConfigMap(owner, 0, data), NoFault).0
  }

  /** `s'` has `data` under `k` and is otherwise as `s`, versions aside. */
  ghost predicate Has(s: State, s': State, k: Key, data: ConfigData) {
    && s' == s.(configs := s'.configs, next := s'.next)
    && k in s'.configs && s'.configs[k].data == data && s'.configs == s.configs[k := s'.configs[k]]
  }

  lemma ConfigCreated(s: State, k: Key, v: ConfigMap)
    requires k !in s.configs
    ensures Has(s, CreateConfig(s, k, v, NoFault).0, k, v.data)
  {
  }

  lemma ConfigUpdated(s: State, k: Key, data: ConfigData)
    requires k in s.configs
    ensures Has(s, UpdateConfig(s, k, s.configs[k].(data := data), NoFault).0, k, data)
  {
    if s.configs[k] == s.configs[k].(data := data) {
      assert s.configs == s.configs[k := s.configs[k]];
    }
  }

  lemma ConfigSet(s: State, k: Key, owner: nat, data: ConfigData)
    ensures Has(s, WithConfig(s, k, owner, data), k, data)
  {
    hide Has, CreateConfig, UpdateConfig;
    if k in s.configs {
      ConfigUpdated(s, k, data);
    } else {
      ConfigCreated(s, k, ConfigMap(owner, 0, data));
    }
  }

  lemma FromConfig(s: State, id: Id, rollup: bool, o: Object, a: Addresses, xs: seq<Ext>)
    requires o.spec.NetworkSpec? && |xs| >= 2 && Calm(xs)
    ensures var n := o.spec.network;
            Finish(s, id, Busy(ConfigGet(rollup, a), o), xs) ==
            Finish(WithConfig(s, ConfigKey(rollup, id), o.uid, ConfigOf(rollup, n, a)), id,
                   AfterConfig(rollup, true, o, n, a), xs[2..])
    ensures Calm(xs[2..])
  {
    hide Step, Finish, ConfigOf, ConfigKey, AfterConfig;
    var n, k := o.spec.network, ConfigKey(rollup, id);
    var t := if k in s.configs then Busy(ConfigPut(rollup, a, s.configs[k]), o) else Busy(ConfigNew(rollup, a), o);
    OneStep(s, id, Busy(ConfigGet(rollup, a), o), xs);
    ConfigGetStep(s, id, rollup, a, o, xs[0]);
    OneStep(s, id, t, xs[1..]);
    ConfigNewStep(s, id, rollup, a, o, xs[1]);
    if k in s.configs {
      ConfigPutStep(s, id, rollup, a, s.configs[k], o, xs[1]);
    }
    assert xs[1..][1..] == xs[2..];
  }

  /** The state after both ConfigMaps, each if it is to be discovered. */
  function WithGenesis(s: State, id: Id, o: Object, n: OptimismNetworkSpec, a: Addresses): State {
    if AutoDiscovers(n.l2Genesis) then WithConfig(s, ConfigKey(false, id), o.uid, ConfigOf(false, n, a)) else s
  }

  function WithConfigs(s: State, id: Id, o: Object, n: OptimismNetworkSpec, a: Addresses): State {
    WithGenesis(if AutoDiscovers(n.rollupConfig) then WithConfig(s, ConfigKey(true, id), o.uid, ConfigOf(true, n, a))
                else s,
                id, o, n, a)
  }

  /** The status the last stage writes. */
  function Readied(o: Object): Object {
    Observed(InPhase(o, Ready))
  }

  lemma FromRollupDone(s: State, id: Id, o: Object, a: Addresses, xs: seq<Ext>)
    requires id in s.objs && o.spec.NetworkSpec? && |xs| >= 4 && Calm(xs)
    ensures var s1 := WithGenesis(s, id, o, o.spec.network, a);
            && id in s1.objs
            && Finish(s, id, RollupDone(o, o.spec.network, a), xs) ==
               (Stored(s1, id, CopiedStatus(id.kind, Readied(o).status, s1.objs[id].status)), Idle(After(60)))
  {
    hide Finish, Stored, CopiedStatus, WithConfig, ConfigKey, ConfigOf;
    var n := o.spec.network;
    if AutoDiscovers(n.l2Genesis) {
      FromConfig(s, id, false, o, a, xs);
      var s1 := WithConfig(s, ConfigKey(false, id), o.uid, ConfigOf(false, n, a));
      ConfigSet(s, ConfigKey(false, id), o.uid, ConfigOf(false, n, a));
      FromStatus(s1, id, Readied(o), After(60), Failure, xs[2..]);
    } else {
      FromStatus(s, id, Readied(o), After(60), Failure, xs);
    }
  }

  /** The calls of the longest network reconcile without conflicts. */
  const NETWORK_CALLS := 9

  lemma FromDiscovered(s: State, id: Id, o: Object, a: Addresses, x: Ext, xs: seq<Ext>)
    requires id in s.objs && o.spec.NetworkSpec? && |xs| >= 6 && Calm(xs)
    ensures var o2 := Recorded(o, a, x);
            var s1 := WithConfigs(s, id, o2, o.spec.network, a);
            && id in s1.objs
            && Finish(s, id, Discovered(o, o.spec.network, a, x), xs) ==
               (Stored(s1, id, CopiedStatus(id.kind, Readied(o2).status, s1.objs[id].status)), Idle(After(60)))
  {
    hide Finish, Stored, CopiedStatus, WithConfig, WithGenesis, ConfigKey, ConfigOf, RollupDone, Mark, Readied;
    var n, o2 := o.spec.network, Recorded(o, a, x);
    assert o2.spec == o.spec by { RecordedSpec(o, a, x); }
    if AutoDiscovers(n.rollupConfig) {
      FromConfig(s, id, true, o2, a, xs);
      ConfigSet(s, ConfigKey(true, id), o2.uid, ConfigOf(true, n, a));
      FromRollupDone(WithConfig(s, ConfigKey(true, id), o2.uid, ConfigOf(true, n, a)), id, o2, a, xs[2..]);
    } else {
      FromRollupDone(s, id, o2, a, xs);
    }
  }

  /** The working copy once the contracts are recorded. */
  function Recorded(o: Object, a: Addresses, x: Ext): Object {
    var message := "Contract addresses discovered via " + a.discoveryMethod;
    var o1 := Mark(o, ContractsDiscovered, True, "AddressesResolved", message, x.now);
    var info := o1.status.networkInfo.GetOr(NetworkInfo(0, 0, None));
    o1.(status := o1.status.(networkInfo := Some(info.(contracts := Some(a), lastUpdated := x.later))))
  }

  lemma RecordedSpec(o: Object, a: Addresses, x: Ext)
    ensures Recorded(o, a, x).spec == o.spec && Recorded(o, a, x).uid == o.uid && Recorded(o, a, x).past == o.past
  {
  }

  /** The working copy when discovery is next. */
  function Dialled(o: Object, x0: Ext, x1: Ext): Object {
    var o1 := Mark(o, ConfigurationValid, True, "ValidConfiguration", "Network configuration is valid", x0.now);
    Mark(o1, L1Connected, True, "L1ConnectionSuccess", "Successfully connected to L1 RPC endpoint", x1.now)
  }

  lemma DialledSpec(o: Object, x0: Ext, x1: Ext)
    ensures var o1 := Mark(o, ConfigurationValid, True, "ValidConfiguration", "Network configuration is valid", x0.now);
            o1.spec == o.spec
    ensures var o2 := Dialled(o, x0, x1); o2.spec == o.spec && o2.uid == o.uid && o2.past == o.past
  {
  }

  /** A live OptimismNetwork with its finalizer and a valid spec. */
  predicate Valid(s: State, id: Id) {
    && id.kind.NetworkKind? && id in s.objs && s.objs[id].spec.NetworkSpec? && !s.objs[id].deleting
    && NetworkFinalizer in s.objs[id].finalizers && NetworkSpecError(s.objs[id].spec.network).None?
  }

  lemma FromNetworkStart(s: State, id: Id, xs: seq<Ext>)
    requires Valid(s, id) && |xs| >= NETWORK_CALLS && Calm(xs) && xs[1].l1 && xs[2].found.Some?
    ensures var o, a := s.objs[id], xs[2].found.value;
            var o3 := Recorded(Dialled(o, xs[0], xs[1]), a, xs[2]);
            var s1 := WithConfigs(s, id, o3, o.spec.network, a);
            && id in s1.objs
            && Alone(s, id, xs) == (Stored(s1, id, CopiedStatus(id.kind, Readied(o3).status, s1.objs[id].status)),
                                    Idle(After(60)))
  {
    hide Mark, NetworkSpecError, NodeWrite, NodeNext, NetworkWrite, NetworkNext, WithConfigs, Recorded, Readied, Stored;
    hide Finish, Discovered, CopiedStatus;
    var o := s.objs[id];
    var o1 := Mark(o, ConfigurationValid, True, "ValidConfiguration", "Network configuration is valid", xs[0].now);
    var o2 := Dialled(o, xs[0], xs[1]);
    DialledSpec(o, xs[0], xs[1]);
    assert Step(s, id, Idle(Nothing), xs[0]) == (s, Busy(DialL1, o1));
    assert Calm(xs[1..]);
    OneStep(s, id, Busy(DialL1, o1), xs[1..]);
    DialStep(s, id, o1, xs[1]);
    assert xs[1..][1..] == xs[2..] && xs[2..][1..] == xs[3..];
    OneStep(s, id, Busy(Discover, o2), xs[2..]);
    Steps.DiscoverStep(s, id, o2, xs[2]);
    FromDiscovered(s, id, o2, xs[2].found.value, xs[2], xs[3..]);
  }

  lemma ReadiedClaims(o: Object, a: Addresses, x0: Ext, x1: Ext, x2: Ext)
    ensures var st := Readied(Recorded(Dialled(o, x0, x1), a, x2)).status;
            && st.phase == Ready && st.observedGeneration == o.Generation()
            && IsTrue(st.conditions, ConfigurationValid) && IsTrue(st.conditions, L1Connected)
            && IsTrue(st.conditions, ContractsDiscovered)
            && st.networkInfo.Some? && st.networkInfo.value.contracts == Some(a)
            && st.networkInfo.value.lastUpdated == x2.later
            && st.networkInfo.value.deployed == (match o.status.networkInfo case Some(i) => i.deployed case None => 0)
  {
    hide IsTrue, Set;
    var o1 := Mark(o, ConfigurationValid, True, "ValidConfiguration", "Network configuration is valid", x0.now);
    var o2 := Dialled(o, x0, x1);
    MarkC(o, ConfigurationValid, True, "ValidConfiguration", "Network configuration is valid", x0.now);
    MarkC(o1, L1Connected, True, "L1ConnectionSuccess", "Successfully connected to L1 RPC endpoint", x1.now);
    MarkC(o2, ContractsDiscovered, True, "AddressesResolved",
          "Contract addresses discovered via " + a.discoveryMethod, x2.now);
  }

  /** Each ConfigMap the spec asks for is there, with the chain IDs of the spec and the addresses found; all others are
      as they were. */
  ghost predicate Configured(s: State, s': State, id: Id, n: OptimismNetworkSpec, a: Addresses) {
    var (r, g) := (Key(id.ns, id.name + "-rollup-config"), Key(id.ns, id.name + "-genesis"));
    && (AutoDiscovers(n.rollupConfig) ==>
          r in s'.configs
          && s'.configs[r].data == RollupJson(n.l1ChainID, n.chainID, a.optimismPortal, a.systemConfig))
    && (AutoDiscovers(n.l2Genesis) ==> g in s'.configs && s'.configs[g].data == GenesisJson(n.chainID))
    && forall k :: (k != r || !AutoDiscovers(n.rollupConfig)) && (k != g || !AutoDiscovers(n.l2Genesis)) ==>
         Same(s.configs, s'.configs, k)
  }

  lemma ConfigsThere(s: State, id: Id, o: Object, n: OptimismNetworkSpec, a: Addresses)
    ensures var s1 := WithConfigs(s, id, o, n, a);
            && s1 == s.(configs := s1.configs, next := s1.next)
            && Configured(s, s1, id, n, a)
  {
    hide WithConfig;
    DerivedNames(id, id);
    ConfigSet(s, ConfigKey(true, id), o.uid, ConfigOf(true, n, a));
    var s1 := if AutoDiscovers(n.rollupConfig)
              then WithConfig(s, ConfigKey(true, id), o.uid, ConfigOf(true, n, a)) else s;
    ConfigSet(s1, ConfigKey(false, id), o.uid, ConfigOf(false, n, a));
  }

  /** From any state: one undisturbed reconcile of a valid network that has its finalizer, with the L1 endpoint
      reachable and contracts found, makes it Ready, with the claims of Ready true and the ConfigMaps in place.  Nothing
      but its own object and its ConfigMaps changes. */
  lemma NetworkBecomesReady(s: State, id: Id, xs: seq<Ext>)
    requires Valid(s, id) && |xs| >= NETWORK_CALLS && Calm(xs) && xs[1].l1 && xs[2].found.Some?
    ensures var (s', t') := Alone(s, id, xs);
            var o := s.objs[id];
            && t' == Idle(After(60)) && id in s'.objs
            && var st := s'.objs[id].status;
               && s' == s.(objs := s.objs[id := o.(status := st, rv := s'.objs[id].rv)], configs := s'.configs,
                           next := s'.next)
               && st.phase == Ready && st.observedGeneration == o.Generation()
               && IsTrue(st.conditions, ConfigurationValid) && IsTrue(st.conditions, L1Connected)
               && IsTrue(st.conditions, ContractsDiscovered)
               && st.networkInfo.Some? && st.networkInfo.value.contracts == xs[2].found
               && st.networkInfo.value.lastUpdated == xs[2].later
               && st.networkInfo.value.deployed ==
                  (match o.status.networkInfo case Some(i) => i.deployed case None => 0)
               && Configured(s, s', id, o.spec.network, xs[2].found.value)
               && RollupThere(s', id, o.spec.network) && GenesisThere(s', id, o.spec.network)
  {
    hide Alone, Stored, IsTrue, NetworkSpecError, WithConfigs, Readied, Recorded, Dialled, Configured;
    hide RollupThere, GenesisThere;
    var o, a := s.objs[id], xs[2].found.value;
    var o3 := Recorded(Dialled(o, xs[0], xs[1]), a, xs[2]);
    FromNetworkStart(s, id, xs);
    ReadiedClaims(o, a, xs[0], xs[1], xs[2]);
    ConfigsThere(s, id, o3, o.spec.network, a);
    var s1 := WithConfigs(s, id, o3, o.spec.network, a);
    StoredKeeps(s1, id, CopiedStatus(id.kind, Readied(o3).status, s1.objs[id].status));
    ConfiguredThere(s, s1, Alone(s, id, xs).0, id, o.spec.network, a);
  }

  lemma ConfiguredThere(s: State, s1: State, s': State, id: Id, n: OptimismNetworkSpec, a: Addresses)
    requires Configured(s, s1, id, n, a) && s'.configs == s1.configs
    ensures Configured(s, s', id, n, a) && RollupThere(s', id, n) && GenesisThere(s', id, n)
  {
  }

  /* ----- The ConfigMaps a network brings about ----- */

  lemma ConfiguredKeys(s: State, s': State, id: Id, n: OptimismNetworkSpec, a: Addresses, k: Key)
    requires Configured(s, s', id, n, a) && k !in s.configs
    ensures k in s'.configs <==>
            || (k == Key(id.ns, id.name + "-rollup-config") && n.rollupConfig.Some?
                && n.rollupConfig.value.autoDiscover)
            || (k == Key(id.ns, id.name + "-genesis") && n.l2Genesis.Some? && n.l2Genesis.value.autoDiscover)
  {
    var (r, g) := (Key(id.ns, id.name + "-rollup-config"), Key(id.ns, id.name + "-genesis"));
    assert (k != r || !AutoDiscovers(n.rollupConfig)) && (k != g || !AutoDiscovers(n.l2Genesis)) ==>
        Same(s.configs, s'.configs, k);
  }

  /** A ConfigMap that was not there is brought about by an undisturbed reconcile exactly if it is the rollup or the
      genesis ConfigMap of the network and its spec wants that one discovered. */
  lemma ConfigMadeIff(s: State, id: Id, xs: seq<Ext>, k: Key)
    requires Valid(s, id) && |xs| >= NETWORK_CALLS && Calm(xs) && xs[1].l1 && xs[2].found.Some?
    requires k !in s.configs
    ensures var n := s.objs[id].spec.network;
            k in Alone(s, id, xs).0.configs <==>
            || (k == Key(id.ns, id.name + "-rollup-config") && n.rollupConfig.Some?
                && n.rollupConfig.value.autoDiscover)
            || (k == Key(id.ns, id.name + "-genesis") && n.l2Genesis.Some? && n.l2Genesis.value.autoDiscover)
  {
    hide Alone, NetworkSpecError, Configured, RollupThere, GenesisThere, IsTrue;
    NetworkBecomesReady(s, id, xs);
    ConfiguredKeys(s, Alone(s, id, xs).0, id, s.objs[id].spec.network, xs[2].found.value, k);
  }

  lemma RollupVolume(key: Key, node: OpNodeSpec, net: Net)
    ensures |Volumes(key, node, net)| >= 2
            && Volumes(key, node, net)[1] == Volume("rollup-config", FromConfigMap(net.name + "-rollup-config"))
  {
  }

  lemma NotGenesis(ns: string, id: Id)
    ensures Key(ns, id.name + "-rollup-config") != Key(id.ns, id.name + "-genesis")
  {
    DerivedNames(Id(NetworkKind, ns, id.name), id);
    assert RollupKey(Id(NetworkKind, ns, id.name)) == Key(ns, id.name + "-rollup-config");
    assert GenesisKey(id) == Key(id.ns, id.name + "-genesis");
  }

  /** The pod of an OpNode mounts a ConfigMap named after its network, in its own namespace.  An undisturbed reconcile
      of the network brings it about exactly if the network is in that namespace and discovers its rollup
      configuration. */
  lemma RollupVolumeIff(s: State, id: Id, xs: seq<Ext>, key: Key, node: OpNodeSpec)
    requires Valid(s, id) && |xs| >= NETWORK_CALLS && Calm(xs) && xs[1].l1 && xs[2].found.Some?
    requires Key(key.ns, id.name + "-rollup-config") !in s.configs
    ensures var n := s.objs[id].spec.network;
            && Volumes(key, node, Net(id.name, n))[1] == Volume("rollup-config",
                                                                FromConfigMap(id.name + "-rollup-config"))
            && (Key(key.ns, id.name + "-rollup-config") in Alone(s, id, xs).0.configs <==>
                  key.ns == id.ns && n.rollupConfig.Some? && n.rollupConfig.value.autoDiscover)
  {
    hide Alone, Volumes, NetworkSpecError;
    RollupVolume(key, node, Net(id.name, s.objs[id].spec.network));
    NotGenesis(key.ns, id);
    ConfigMadeIff(s, id, xs, Key(key.ns, id.name + "-rollup-config"));
  }

  /* ----- From nothing to Running ----- */

  function Answers(k: nat, x: Ext): seq<Ext> {
    seq(k, i requires 0 <= i < k => x)
  }

  /** A valid OpNode spec for `id`, and a valid spec for the network it refers to. */
  predicate Belong(nid: Id, network: OptimismNetworkSpec, id: Id, node: OpNodeSpec) {
    && nid.kind.NetworkKind? && NetworkSpecError(network).None?
    && id.kind.NodeKind? && NodeSpecError(node).None? && Machine.NetworkId(id, node) == nid
  }

  /** A live OpNode with children that it made itself, which nobody is working on. */
  ghost predicate Established(w: World, id: Id) {
    && id.kind.NodeKind? && id in w.s.objs && ThreadOf(w, id).Idle? && !w.s.objs[id].deleting
    && w.s.objs[id].spec.NodeSpec? && w.s.objs[id].finalizers == {NodeFinalizer}
    && MadeBy(w.s, id, w.s.objs[id].uid)
  }

  ghost predicate MadeBy(s: State, id: Id, u: nat) {
    && KeyOf(id) in s.sets && s.sets[KeyOf(id)].owner == u
    && KeyOf(id) in s.svcs && s.svcs[KeyOf(id)].owner == u
    && JwtKey(id) in s.secrets && s.secrets[JwtKey(id)].owner == Some(u)
  }

  lemma ChildrenMade(s: State, id: Id, o: Object, n: OpNodeSpec, net: Net, jwt: string, p2p: string)
    requires KeyOf(id) !in s.sets && KeyOf(id) !in s.svcs && JwtKey(id) !in s.secrets
    ensures MadeBy(WithChildren(s, id, o, n, net, jwt, p2p), id, o.uid)
  {
    hide WithSet, WithService, WithSecrets, KeyOf, JwtKey;
    var s1 := WithSecrets(s, id, o, n, jwt, p2p);
    JwtMade(s, id, o, n, jwt, p2p);
    SetMade(s1, id, o, n, net);
    ServiceMade(WithSet(s1, id, o, n, net), id, o, n, net);
  }

  lemma JwtMade(s: State, id: Id, o: Object, n: OpNodeSpec, jwt: string, p2p: string)
    requires JwtKey(id) !in s.secrets
    ensures var s1 := WithSecrets(s, id, o, n, jwt, p2p);
            && s1 == s.(secrets := s1.secrets)
            && JwtKey(id) in s1.secrets && s1.secrets[JwtKey(id)].owner == Some(o.uid)
  {
    hide P2pKey, JwtKey;
    DerivedNames(id, id);
  }

  lemma SetMade(s: State, id: Id, o: Object, n: OpNodeSpec, net: Net)
    requires KeyOf(id) !in s.sets
    ensures var s1 := WithSet(s, id, o, n, net);
            && s1 == s.(sets := s1.sets, built := s1.built, next := s1.next)
            && KeyOf(id) in s1.sets && s1.sets[KeyOf(id)].owner == o.uid
  {
    hide DesiredSet, Labels, KeyOf;
  }

  lemma ServiceMade(s: State, id: Id, o: Object, n: OpNodeSpec, net: Net)
    requires KeyOf(id) !in s.svcs
    ensures var s1 := WithService(s, id, o, n, net);
            && s1 == s.(svcs := s1.svcs, next := s1.next)
            && KeyOf(id) in s1.svcs && s1.svcs[KeyOf(id)].owner == o.uid
  {
    hide DesiredService, Labels, KeyOf;
  }

  lemma SettlingMakesChildren(s: State, id: Id, net: Net, xs: seq<Ext>)
    requires Wanted(s, id, net) && NodeFinalizer in s.objs[id].finalizers && |xs| >= CALLS && Calm(xs)
    requires KeyOf(id) !in s.sets && KeyOf(id) !in s.svcs && JwtKey(id) !in s.secrets
    ensures var s' := Alone(s, id, xs).0;
            && MadeBy(s', id, s.objs[id].uid)
            && id in s'.objs && s'.objs == s.objs[id := s'.objs[id]]
            && s'.objs[id] == s.objs[id].(status := s'.objs[id].status, rv := s'.objs[id].rv)
  {
    hide Alone, Stored, WithChildren, NodeSpecError, Target;
    var o := s.objs[id];
    var jwt, p2p, t := FromStart(s, id, net, xs);
    ChildrenMade(s, id, o, o.spec.node, net, jwt, p2p);
    ChildrenOf(s, id, o, o, o.spec.node, net, jwt, p2p);
    StoredKeeps(WithChildren(s, id, o, o.spec.node, net, jwt, p2p), id, Target(o, t));
  }

  /** The premises of convergence can be met: for every valid OpNode and network spec that belong together there is a
      run from the empty store to a settled OpNode. */
  lemma RunningIsReachable(nid: Id, network: OptimismNetworkSpec, id: Id, node: OpNodeSpec, a: Addresses)
    returns (acts: seq<Action>)
    requires Belong(nid, network, id, node)
    ensures Settled(Exec(START, acts).s, id, Net(node.networkRef.name, network)) && Established(Exec(START, acts), id)
    ensures Exec(START, acts).s.objs[id].spec == NodeSpec(node)
  {
    hide Apply, Alone, Settled, NetworkSpecError, NodeSpecError, Ticks, RollupThere, GenesisThere, IsTrue, DesiredSet;
    var net := Net(node.networkRef.name, network);
    var start := [Create(nid, NetworkSpec(network), {NetworkFinalizer})]
        + [Create(id, NodeSpec(node), {NodeFinalizer})];
    var w := Exec(START, start);
    Created(nid, network, id, node);
    var xs, ys := Answers(NETWORK_CALLS, CALM.(found := Some(a))), Answers(CALLS, CALM);
    NetworkBecomesReady(w.s, nid, xs);
    var k := AloneIsRun(w, nid, xs);
    var w2 := Exec(w, Ticks(nid, xs[..k]));
    TicksOfOne(w, nid, xs[..k], id);
    assert Wanted(w2.s, id, net);
    OneReconcileSettles(w2.s, id, net, ys);
    SettlingMakesChildren(w2.s, id, net, ys);
    var j := AloneIsRun(w2, id, ys);
    acts := start + (Ticks(nid, xs[..k]) + Ticks(id, ys[..j]));
    ExecConcat(START, start, Ticks(nid, xs[..k]) + Ticks(id, ys[..j]));
    ExecConcat(w, Ticks(nid, xs[..k]), Ticks(id, ys[..j]));
  }

  lemma Created(nid: Id, network: OptimismNetworkSpec, id: Id, node: OpNodeSpec)
    requires nid.kind.NetworkKind? && id.kind.NodeKind?
    ensures var w := Exec(START, [Create(nid, NetworkSpec(network), {NetworkFinalizer})] +
                                 [Create(id, NodeSpec(node), {NodeFinalizer})]);
            && w.s.objs == map[nid := Object(1, 1, [], NetworkSpec(network), {NetworkFinalizer}, false, EMPTY_STATUS),
                               id := Object(2, 2, [], NodeSpec(node), {NodeFinalizer}, false, EMPTY_STATUS)]
            && w.s.sets == map[] && w.s.svcs == map[] && w.s.secrets == map[] && w.threads == map[]
  {
    hide Clean;
    var a, b := Create(nid, NetworkSpec(network), {NetworkFinalizer}), Create(id, NodeSpec(node), {NodeFinalizer});
    assert ([a] + [b])[..1] == [a] && [a][..0] == [];
    assert Exec(START, []) == START;
    assert Exec(START, [a]) == Apply(START, a);
    assert Exec(START, [a] + [b]) == Apply(Exec(START, [a]), b);
  }

  /** Moves of one thread leave the others where they are. */
  lemma {:induction false} TicksOfOne(w: World, id: Id, xs: seq<Ext>, other: Id)
    requires other != id
    ensures ThreadOf(Exec(w, Ticks(id, xs)), other) == ThreadOf(w, other)
  {
    hide Step;
    if xs == [] {
      assert Ticks(id, xs) == [];
    } else {
      var init := xs[..|xs| - 1];
      TicksOfOne(w, id, init, other);
      assert Ticks(id, xs)[..|xs| - 1] == Ticks(id, init);
    }
  }
}
