/** The OptimismNetwork Reconcile as the source writes it, proved to make exactly the micro-steps of the state
    machine under every schedule of the other parties. */
module NetworkController {
  import opened Types
  import opened Store
  import opened Machine
  import opened Steps
  import opened Cluster

  class OptimismNetworkReconciler {
    const api: Api

    constructor (api: Api)
      ensures this.api == api
    {
      this.api := api;
    }

    /** `createOrUpdateConfigMap`, called for one of the two ConfigMaps. */
    method CreateOrUpdateConfigMap(me: Id, network: Object, rollup: bool, config: ConfigMap, ghost found: Addresses,
                                   ghost g0: World)
      returns (ok: bool, ghost g: World)
      requires Mirrors(g0, api.w, me) && network.spec.NetworkSpec?
      requires config == ConfigMap(network.uid, 0, ConfigOf(rollup, network.spec.network, found))
      requires ThreadOf(g0, me) == Busy(ConfigGet(rollup, found), network)
      modifies api
      ensures Arrived(g0, g, api, me)
      ensures ThreadOf(g, me) == AfterConfig(rollup, ok, network, network.spec.network, found)
    {
      hide CreateConfig, UpdateConfig, ConfigOf, RollupDone, NetworkDone, ConfigFailed, Works, Waits, Mirrors;
      hide Apply, Step, ThreadOf;
      var key := ConfigKey(rollup, me);
      var x, m := api.Await(me, g0);
      MirrorsState(m, api.w, me);
      var r := Lookup(api.w.s.configs, key, x.fault);
      ConfigGetStep(m.s, me, rollup, found, network, x);
      WorksSelf(g0, me);
      g := Ticks(g0, g0, m, api.w, me, x);
      if r.Unavailable? {
        return false, g;
      }
      x, m := api.Await(me, g);
      MirrorsState(m, api.w, me);
      var a;
      if r.Missing? {
        ConfigNewStep(m.s, me, rollup, found, network, x);
        a := api.Perform(CreateConfig(api.w.s, key, config, x.fault));
      } else {
        ConfigPutStep(m.s, me, rollup, found, r.value, network, x);
        var existing := r.value.(data := config.data);
        a := api.Perform(UpdateConfig(api.w.s, key, existing, x.fault));
      }
      g := Ticks(g0, g, m, api.w, me, x);
      return a.Ok?, g;
    }

    /** The rollup ConfigMap, then the genesis ConfigMap, each if it is to be discovered. */
    method ReconcileConfigMaps(me: Id, network: Object, addresses: Addresses, ghost g0: World)
      returns (ok: bool, ghost g: World)
      requires Mirrors(g0, api.w, me) && network.spec.NetworkSpec?
      requires var n := network.spec.network;
               ThreadOf(g0, me) == if AutoDiscovers(n.rollupConfig) then Busy(GetRollup(addresses), network)
                                   else RollupDone(network, n, addresses)
      modifies api
      ensures Arrived(g0, g, api, me)
      ensures ThreadOf(g, me) == AfterGenesis(ok, network)
    {
      hide Works, Waits, Mirrors, ConfigFailed, NetworkDone, RollupOf, GenesisOf;
      var n := network.spec.network;
      ok, g := true, g0;
      WorksSelf(g0, me);
      if AutoDiscovers(n.rollupConfig) {
        ok, g := CreateOrUpdateConfigMap(me, network, true, ConfigMap(network.uid, 0, RollupOf(n, addresses)),
                                         addresses, g);
      }
      if ok && AutoDiscovers(n.l2Genesis) {
        ghost var g1 := g;
        ok, g := CreateOrUpdateConfigMap(me, network, false, ConfigMap(network.uid, 0, GenesisOf(n)), addresses, g);
        WorksTransitive(g0, g1, g, me);
      }
    }

    method HandleDeletion(me: Id, obj: Object, ghost g0: World) returns (result: Outcome, ghost g: World)
      requires Mirrors(g0, api.w, me)
      requires ThreadOf(g0, me) == Busy(PutFinalizer(Nothing), obj.(finalizers := obj.finalizers - {NetworkFinalizer}))
      modifies api
      ensures Arrived(g0, g, api, me) && ThreadOf(g, me) == Idle(result)
    {
      result, g := UpdateFinalizers(api, me, obj.(finalizers := obj.finalizers - {NetworkFinalizer}), Nothing, g0);
    }

    /** Reconcile makes exactly the micro-steps of one reconcile of `me` in the machine, interleaved with whatever the
        others do. */
    method Reconcile(me: Id, ghost g0: World) returns (result: Outcome, ghost g: World)
      requires me.kind.NetworkKind? && Mirrors(g0, api.w, me) && ThreadOf(g0, me).Idle?
      modifies api
      ensures Reconciled(g0, g, me) && Mirrors(g, api.w, me) && ThreadOf(g, me) == Idle(result)
    {
      hide Mark, Works, Waits, Mirrors, Apply, NetworkSpecError, NodeWrite, NodeNext, NetworkWrite, NetworkNext;
      var x, m := api.Await(me, g0);
      MirrorsState(m, api.w, me);
      var r := Lookup(api.w.s.objs, me, x.fault);
      g := Ticked(m, api.w, me, x);
      ghost var g1 := g;
      WorksSelf(g1, me);
      if r.Missing? {
        return Nothing, g;
      }
      if r.Unavailable? || !r.value.spec.NetworkSpec? {
        return Failure, g;
      }
      var network := r.value;
      if network.deleting {
        result, g := HandleDeletion(me, network, g);
        return;
      }
      if NetworkFinalizer !in network.finalizers {
        network := network.(finalizers := network.finalizers + {NetworkFinalizer});
        result, g := UpdateFinalizers(api, me, network, Requeue, g);
        return;
      }
      var problem := NetworkSpecError(network.spec.network);
      if problem.Some? {
        network := Mark(network, ConfigurationValid, False, "InvalidConfiguration", problem.value, x.now);
        network := InPhase(network, Phase.Error);
        var statusErr;
        statusErr, g := UpdateStatusWithRetry(api, me, network, After(5), After(5), g);
        return After(5), g;
      }
      MarkSpec(network, ConfigurationValid, True, "ValidConfiguration", "Network configuration is valid", x.now);
      network := Mark(network, ConfigurationValid, True, "ValidConfiguration", "Network configuration is valid", x.now);
      result, g := ReconcileValid(me, network, g);
    }

    /** From the L1 connectivity test on. */
    method ReconcileValid(me: Id, copy: Object, ghost g0: World) returns (result: Outcome, ghost g: World)
      requires Mirrors(g0, api.w, me) && copy.spec.NetworkSpec? && ThreadOf(g0, me) == Busy(DialL1, copy)
      modifies api
      ensures Arrived(g0, g, api, me) && ThreadOf(g, me) == Idle(result)
    {
      hide Mark, Works, Waits, Mirrors, Apply, Step, ThreadOf, Discovered;
      var network, n := copy, copy.spec.network;
      var x, m := api.Await(me, g0);
      MirrorsState(m, api.w, me);
      WorksSelf(g0, me);
      DialStep(m.s, me, network, x);
      g := Ticks(g0, g0, m, api.w, me, x);
      ghost var g1 := g;
      var statusErr;
      if !x.l1 {
        network := Mark(network, L1Connected, False, "L1ConnectionFailed", x.text, x.now);
        network := InPhase(network, Phase.Error);
        statusErr, g := UpdateStatusWithRetry(api, me, network, After(2), After(2), g);
        WorksTransitive(g0, g1, g, me);
        return After(2), g;
      }
      MarkSpec(network, L1Connected, True, "L1ConnectionSuccess", "Successfully connected to L1 RPC endpoint", x.now);
      network := Mark(network, L1Connected, True, "L1ConnectionSuccess", "Successfully connected to L1 RPC endpoint",
                      x.now);
      x, m := api.Await(me, g);
      MirrorsState(m, api.w, me);
      DiscoverStep(m.s, me, network, x);
      g := Ticks(g0, g, m, api.w, me, x);
      ghost var g2 := g;
      if x.found.None? {
        network := Mark(network, ContractsDiscovered, False, "DiscoveryFailed", x.text, x.now);
        network := InPhase(network, Phase.Error);
        statusErr, g := UpdateStatusWithRetry(api, me, network, After(5), After(5), g);
        WorksTransitive(g0, g2, g, me);
        return After(5), g;
      }
      result, g := ReconcileDiscovered(me, network, x.found.value, x, g);
      WorksTransitive(g0, g2, g, me);
    }

    /** From the discovered addresses on. */
    method ReconcileDiscovered(me: Id, copy: Object, addresses: Addresses, x: Ext, ghost g0: World)
      returns (result: Outcome, ghost g: World)
      requires Mirrors(g0, api.w, me) && copy.spec.NetworkSpec?
      requires ThreadOf(g0, me) == Discovered(copy, copy.spec.network, addresses, x)
      modifies api
      ensures Arrived(g0, g, api, me) && ThreadOf(g, me) == Idle(result)
    {
      hide Mark, Works, Waits, Mirrors, RollupDone;
      var message := "Contract addresses discovered via " + addresses.discoveryMethod;
      MarkSpec(copy, ContractsDiscovered, True, "AddressesResolved", message, x.now);
      var network := Mark(copy, ContractsDiscovered, True, "AddressesResolved", message, x.now);
      if network.status.networkInfo.None? {
        network := network.(status := network.status.(networkInfo := Some(NetworkInfo(0, 0, None))));
      }
      var info := network.status.networkInfo.value;
      info := info.(contracts := Some(addresses));
      info := info.(lastUpdated := x.later);
      network := network.(status := network.status.(networkInfo := Some(info)));
      var ok;
      ok, g := ReconcileConfigMaps(me, network, addresses, g0);
      ghost var g1 := g;
      var statusErr;
      if !ok {
        network := InPhase(network, Phase.Error);
        statusErr, g := UpdateStatusWithRetry(api, me, network, After(2), After(2), g);
        WorksTransitive(g0, g1, g, me);
        return After(2), g;
      }
      network := InPhase(network, Ready);
      network := Observed(network);
      statusErr, g := UpdateStatusWithRetry(api, me, network, After(60), Failure, g);
      WorksTransitive(g0, g1, g, me);
      return if statusErr then Failure else After(60), g;
    }
  }
}
