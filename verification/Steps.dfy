/** What one micro-step does at each call, without the detour through the whole machine. */
module Steps {
  import opened Types
  import opened Builders
  import opened Store
  import opened Machine

  lemma StartStep(s: State, id: Id, last: Outcome, x: Ext)
    ensures Step(s, id, Idle(last), x) == (s, Fetched(id, Lookup(s.objs, id, x.fault), x))
  {
    hide Fetched;
  }

  lemma StatusGetStep(s: State, id: Id, left: nat, good: Outcome, bad: Outcome, o: Object, x: Ext)
    ensures Step(s, id, Busy(StatusGet(left, good, bad), o), x) ==
            (s, StatusFetched(left, good, bad, o, Lookup(s.objs, id, x.fault)))
  {
  }

  lemma StatusPutStep(s: State, id: Id, left: nat, good: Outcome, bad: Outcome, o: Object, latest: Object, x: Ext)
    ensures var r := UpdateStatus(s, id, latest.(status := CopiedStatus(id.kind, o.status, latest.status)), x.fault);
            Step(s, id, Busy(StatusPut(left, good, bad, latest), o), x) == (r.0, StatusWritten(left, good, bad, o, r.1))
  {
  }

  lemma FetchesNetwork(s: State, id: Id, o: Object, x: Ext)
    requires o.spec.NodeSpec?
    ensures Step(s, id, Busy(GetNetwork, o), x) ==
            (s, NetworkFetched(o, o.spec.node.networkRef.name,
                               Lookup(s.objs, Machine.NetworkId(id, o.spec.node), x.fault), x))
  {
  }

  lemma SetGetStep(s: State, id: Id, net: Net, o: Object, x: Ext)
    requires o.spec.NodeSpec?
    ensures Step(s, id, Busy(GetSet(net), o), x) ==
            (s, match Lookup(s.sets, KeyOf(id), x.fault)
                case Got(cur) => Busy(PutSet(net, cur), o)
                case Missing => Busy(NewSet(net), o)
                case Unavailable => SetFailed(o, x))
  {
    hide SetFailed;
  }

  lemma SetNewStep(s: State, id: Id, net: Net, o: Object, x: Ext)
    requires o.spec.NodeSpec?
    ensures var n := o.spec.node;
            var r := CreateSet(s, KeyOf(id), NewSetOf(id, o, n, net), Built(n, net), x.fault);
            Step(s, id, Busy(NewSet(net), o), x) == (r.0, if r.1.Ok? then SetDone(net, o, x) else SetFailed(o, x))
  {
    hide CreateSet, NewSetOf, SetDone, SetFailed;
  }

  lemma SetPutStep(s: State, id: Id, net: Net, cur: StatefulSet, o: Object, x: Ext)
    requires o.spec.NodeSpec?
    ensures var n := o.spec.node;
            var r := UpdateSet(s, KeyOf(id), EditedSet(id, cur, n, net), Built(n, net), x.fault);
            Step(s, id, Busy(PutSet(net, cur), o), x) == (r.0, if r.1.Ok? then SetDone(net, o, x) else SetFailed(o, x))
  {
    hide UpdateSet, EditedSet, SetDone, SetFailed;
  }

  lemma ServiceGetStep(s: State, id: Id, net: Net, o: Object, x: Ext)
    requires o.spec.NodeSpec?
    ensures Step(s, id, Busy(GetSvc(net), o), x) ==
            (s, match Lookup(s.svcs, KeyOf(id), x.fault)
                case Got(cur) => Busy(PutSvc(net, cur), o)
                case Missing => Busy(NewSvc(net), o)
                case Unavailable => SvcFailed(o, x))
  {
    hide SvcFailed;
  }

  lemma ServiceNewStep(s: State, id: Id, net: Net, o: Object, x: Ext)
    requires o.spec.NodeSpec?
    ensures var n := o.spec.node;
            var r := CreateService(s, KeyOf(id), NewServiceOf(id, o, n, net), x.fault);
            Step(s, id, Busy(NewSvc(net), o), x) == (r.0, if r.1.Ok? then SvcDone(o, x) else SvcFailed(o, x))
  {
    hide CreateService, NewServiceOf, SvcDone, SvcFailed;
  }

  lemma ServicePutStep(s: State, id: Id, net: Net, cur: Service, o: Object, x: Ext)
    requires o.spec.NodeSpec?
    ensures var n := o.spec.node;
            var r := UpdateService(s, KeyOf(id), EditedService(id, cur, n, net), x.fault);
            Step(s, id, Busy(PutSvc(net, cur), o), x) == (r.0, if r.1.Ok? then SvcDone(o, x) else SvcFailed(o, x))
  {
    hide UpdateService, EditedService, SvcDone, SvcFailed;
  }

  /** The call after the rollup ConfigMap step went well or not, and the same for the genesis ConfigMap. */
  function AfterRollup(ok: bool, o: Object, n: OptimismNetworkSpec, a: Addresses): Thread {
    if ok then RollupDone(o, n, a) else ConfigFailed(o)
  }

  function AfterGenesis(ok: bool, o: Object): Thread {
    if ok then NetworkDone(o) else ConfigFailed(o)
  }

  /** The three calls of `createOrUpdateConfigMap`, for either ConfigMap. */
  function ConfigGet(rollup: bool, a: Addresses): Pc {
    if rollup then GetRollup(a) else GetGenesis(a)
  }

  function ConfigNew(rollup: bool, a: Addresses): Pc {
    if rollup then NewRollup(a) else NewGenesis(a)
  }

  function ConfigPut(rollup: bool, a: Addresses, cur: ConfigMap): Pc {
    if rollup then PutRollup(a, cur) else PutGenesis(a, cur)
  }

  function ConfigKey(rollup: bool, id: Id): Key {
    if rollup then RollupKey(id) else GenesisKey(id)
  }

  function ConfigOf(rollup: bool, n: OptimismNetworkSpec, a: Addresses): ConfigData {
    if rollup then RollupOf(n, a) else GenesisOf(n)
  }

  function AfterConfig(rollup: bool, ok: bool, o: Object, n: OptimismNetworkSpec, a: Addresses): Thread {
    if rollup then AfterRollup(ok, o, n, a) else AfterGenesis(ok, o)
  }

  lemma ConfigGetStep(s: State, id: Id, rollup: bool, a: Addresses, o: Object, x: Ext)
    requires o.spec.NetworkSpec?
    ensures Step(s, id, Busy(ConfigGet(rollup, a), o), x) ==
            (s, match Lookup(s.configs, ConfigKey(rollup, id), x.fault)
                case Got(cur) => Busy(ConfigPut(rollup, a, cur), o)
                case Missing => Busy(ConfigNew(rollup, a), o)
                case Unavailable => ConfigFailed(o))
  {
    hide ConfigFailed;
  }

  lemma ConfigNewStep(s: State, id: Id, rollup: bool, a: Addresses, o: Object, x: Ext)
    requires o.spec.NetworkSpec?
    ensures var n := o.spec.network;
            var r := CreateConfig(s, ConfigKey(rollup, id), ConfigMap(o.uid, 0, ConfigOf(rollup, n, a)), x.fault);
            Step(s, id, Busy(ConfigNew(rollup, a), o), x) == (r.0, AfterConfig(rollup, r.1.Ok?, o, n, a))
  {
    hide CreateConfig, RollupOf, GenesisOf, RollupDone, NetworkDone, ConfigFailed;
  }

  lemma ConfigPutStep(s: State, id: Id, rollup: bool, a: Addresses, cur: ConfigMap, o: Object, x: Ext)
    requires o.spec.NetworkSpec?
    ensures var n := o.spec.network;
            var r := UpdateConfig(s, ConfigKey(rollup, id), cur.(data := ConfigOf(rollup, n, a)), x.fault);
            Step(s, id, Busy(ConfigPut(rollup, a, cur), o), x) == (r.0, AfterConfig(rollup, r.1.Ok?, o, n, a))
  {
    hide UpdateConfig, RollupOf, GenesisOf, RollupDone, NetworkDone, ConfigFailed;
  }

  lemma DialStep(s: State, id: Id, o: Object, x: Ext)
    requires o.spec.NetworkSpec?
    ensures Step(s, id, Busy(DialL1, o), x) ==
            (s, if x.l1 then
                  Busy(Discover, Mark(o, L1Connected, True, "L1ConnectionSuccess",
                                      "Successfully connected to L1 RPC endpoint", x.now))
                else
                  WriteStatus(InPhase(Mark(o, L1Connected, False, "L1ConnectionFailed", x.text, x.now), Phase.Error),
                              After(2), After(2)))
  {
    hide Mark;
  }

  lemma DiscoverStep(s: State, id: Id, o: Object, x: Ext)
    requires o.spec.NetworkSpec?
    ensures Step(s, id, Busy(Discover, o), x) ==
            (s, if x.found.Some? then Discovered(o, o.spec.network, x.found.value, x)
                else WriteStatus(InPhase(Mark(o, ContractsDiscovered, False, "DiscoveryFailed", x.text, x.now),
                                         Phase.Error),
                                 After(5), After(5)))
  {
    hide Mark, Discovered;
  }
}
