/** The OpNode Reconcile as the source writes it: local variables edited stage by stage, one API call at a time,
    early exits.  It is proved to make exactly the micro-steps of the state machine, under every schedule of the
    other parties, so all that holds of runs holds of it. */
module NodeController {
  import opened Types
  import opened Conditions
  import opened Builders
  import opened Store
  import opened Machine
  import opened Steps
  import opened Cluster

  class OpNodeReconciler {
    const api: Api

    constructor (api: Api)
      ensures this.api == api
    {
      this.api := api;
    }

    method ReconcileJWTSecret(me: Id, opNode: Object, ghost net: Net, ghost g0: World)
      returns (ok: bool, x: Ext, ghost g: World)
      requires Mirrors(g0, api.w, me) && opNode.spec.NodeSpec? && ThreadOf(g0, me) == Busy(GetJwt(net), opNode)
      modifies api
      ensures Arrived(g0, g, api, me)
      ensures ThreadOf(g, me) == if ok then JwtDone(net, opNode, opNode.spec.node, x) else SecretsFailed(opNode, x)
    {
      hide CreateSecret, JwtDone, SecretsFailed, Works, Waits, Mirrors, Fetched, NetworkWrite, NetworkNext;
      ghost var m;
      x, m := api.Await(me, g0);
      MirrorsState(m, api.w, me);
      var r := Lookup(api.w.s.secrets, JwtKey(me), x.fault);
      WorksSelf(g0, me);
      g := Ticks(g0, g0, m, api.w, me, x);
      if r.Missing? {
        x, m := api.Await(me, g);
        MirrorsState(m, api.w, me);
        var secret := Secret(Some(opNode.uid), map[JWT_ENTRY := x.key]);
        var a := api.Perform(CreateSecret(api.w.s, JwtKey(me), secret, x.fault));
        g := Ticks(g0, g, m, api.w, me, x);
        return a.Ok?, x, g;
      }
      return r.Got?, x, g;
    }

    method ReconcileP2PSecret(me: Id, opNode: Object, ghost net: Net, ghost g0: World)
      returns (ok: bool, x: Ext, ghost g: World)
      requires Mirrors(g0, api.w, me) && opNode.spec.NodeSpec? && ThreadOf(g0, me) == Busy(GetP2p(net), opNode)
      modifies api
      ensures Arrived(g0, g, api, me)
      ensures ThreadOf(g, me) == if ok then SecretsDone(net, opNode, x) else SecretsFailed(opNode, x)
    {
      hide CreateSecret, SecretsDone, SecretsFailed, Works, Waits, Mirrors, Fetched, NetworkWrite, NetworkNext;
      ghost var m;
      x, m := api.Await(me, g0);
      MirrorsState(m, api.w, me);
      var r := Lookup(api.w.s.secrets, P2pKey(me), x.fault);
      WorksSelf(g0, me);
      g := Ticks(g0, g0, m, api.w, me, x);
      if r.Missing? {
        x, m := api.Await(me, g);
        MirrorsState(m, api.w, me);
        var secret := Secret(Some(opNode.uid), map[P2P_ENTRY := x.key]);
        var a := api.Perform(CreateSecret(api.w.s, P2pKey(me), secret, x.fault));
        g := Ticks(g0, g, m, api.w, me, x);
        return a.Ok?, x, g;
      }
      return r.Got?, x, g;
    }

    method ReconcileSecrets(me: Id, opNode: Object, ghost net: Net, ghost g0: World)
      returns (ok: bool, x: Ext, ghost g: World)
      requires Mirrors(g0, api.w, me) && opNode.spec.NodeSpec? && ThreadOf(g0, me) == Busy(GetJwt(net), opNode)
      modifies api
      ensures Arrived(g0, g, api, me)
      ensures ThreadOf(g, me) == if ok then SecretsDone(net, opNode, x) else SecretsFailed(opNode, x)
    {
      hide SecretsDone, SecretsFailed, Works, Waits, Mirrors;
      ok, x, g := ReconcileJWTSecret(me, opNode, net, g0);
      if ok && Generates(opNode.spec.node) {
        ghost var mid := g;
        ok, x, g := ReconcileP2PSecret(me, opNode, net, g);
        WorksTransitive(g0, mid, g, me);
      }
    }

    method ReconcileStatefulSet(me: Id, opNode: Object, net: Net, ghost g0: World)
      returns (ok: bool, x: Ext, ghost g: World)
      requires Mirrors(g0, api.w, me) && opNode.spec.NodeSpec? && ThreadOf(g0, me) == Busy(GetSet(net), opNode)
      modifies api
      ensures Arrived(g0, g, api, me)
      ensures ThreadOf(g, me) == if ok then SetDone(net, opNode, x) else SetFailed(opNode, x)
    {
      hide CreateSet, UpdateSet, SetDone, SetFailed, DesiredSet, Labels, Works, Waits, Mirrors, Step, Apply, ThreadOf;
      var n := opNode.spec.node;
      var desired := StatefulSet(opNode.uid, 0, Labels(KeyOf(me), n, net), map[], DesiredSet(KeyOf(me), n, net));
      ghost var m;
      x, m := api.Await(me, g0);
      MirrorsState(m, api.w, me);
      var r := Lookup(api.w.s.sets, KeyOf(me), x.fault);
      SetGetStep(m.s, me, net, opNode, x);
      WorksSelf(g0, me);
      g := Ticks(g0, g0, m, api.w, me, x);
      if r.Unavailable? {
        return false, x, g;
      }
      x, m := api.Await(me, g);
      MirrorsState(m, api.w, me);
      var a;
      if r.Missing? {
        SetNewStep(m.s, me, net, opNode, x);
        a := api.Perform(CreateSet(api.w.s, KeyOf(me), desired, Built(n, net), x.fault));
      } else {
        SetPutStep(m.s, me, net, r.value, opNode, x);
        var current := r.value;
        current := current.(spec := desired.spec, labels := desired.labels, annotations := desired.annotations);
        a := api.Perform(UpdateSet(api.w.s, KeyOf(me), current, Built(n, net), x.fault));
      }
      g := Ticks(g0, g, m, api.w, me, x);
      return a.Ok?, x, g;
    }

    method ReconcileService(me: Id, opNode: Object, net: Net, ghost g0: World)
      returns (ok: bool, x: Ext, ghost g: World)
      requires Mirrors(g0, api.w, me) && opNode.spec.NodeSpec? && ThreadOf(g0, me) == Busy(GetSvc(net), opNode)
      modifies api
      ensures Arrived(g0, g, api, me)
      ensures ThreadOf(g, me) == if ok then SvcDone(opNode, x) else SvcFailed(opNode, x)
    {
      hide CreateService, UpdateService, SvcDone, SvcFailed, DesiredService, Labels, Works, Waits, Mirrors;
      hide Step, Apply, ThreadOf;
      var n := opNode.spec.node;
      var desired := Service(opNode.uid, 0, Labels(KeyOf(me), n, net), ServiceAnnotations(n),
                             DesiredService(KeyOf(me), n, net));
      ghost var m;
      x, m := api.Await(me, g0);
      MirrorsState(m, api.w, me);
      var r := Lookup(api.w.s.svcs, KeyOf(me), x.fault);
      ServiceGetStep(m.s, me, net, opNode, x);
      WorksSelf(g0, me);
      g := Ticks(g0, g0, m, api.w, me, x);
      if r.Unavailable? {
        return false, x, g;
      }
      x, m := api.Await(me, g);
      MirrorsState(m, api.w, me);
      var a;
      if r.Missing? {
        ServiceNewStep(m.s, me, net, opNode, x);
        a := api.Perform(CreateService(api.w.s, KeyOf(me), desired, x.fault));
      } else {
        ServicePutStep(m.s, me, net, r.value, opNode, x);
        var current := r.value;
        current := current.(spec := current.spec.(ports := desired.spec.ports));
        current := current.(spec := current.spec.(serviceType := desired.spec.serviceType));
        current := current.(labels := desired.labels);
        current := current.(annotations := desired.annotations);
        a := api.Perform(UpdateService(api.w.s, KeyOf(me), current, x.fault));
      }
      g := Ticks(g0, g, m, api.w, me, x);
      return a.Ok?, x, g;
    }

    /** The interval until the next reconcile, by the phase reached. */
    function RequeueAfter(p: Phase): Outcome {
      match p
      case Error => After(2)
      case Pending | Initializing => After(1)
      case Running => After(5)
      case _ => After(1)
    }

    /** The stages that need a Ready network, and the shared exit `updateStatus`. */
    method ReconcileChildren(me: Id, copy: Object, net: Net, ghost g0: World) returns (result: Outcome, ghost g: World)
      requires Mirrors(g0, api.w, me) && copy.spec.NodeSpec? && ThreadOf(g0, me) == Busy(GetJwt(net), copy)
      modifies api
      ensures Arrived(g0, g, api, me) && ThreadOf(g, me) == Idle(result)
    {
      hide Mark, Works, Waits, Mirrors, NodeInfoOf;
      var opNode := copy;
      var ok, x;
      ok, x, g := ReconcileSecrets(me, opNode, net, g0);
      if !ok {
        opNode := Mark(opNode, SecretsReady, False, "SecretReconciliationFailed", x.text, x.now);
        opNode := InPhase(opNode, Phase.Error);
      } else {
        opNode := Mark(opNode, SecretsReady, True, "SecretsReconciled", "All required secrets are ready", x.now);
        MarkSpec(copy, SecretsReady, True, "SecretsReconciled", "All required secrets are ready", x.now);
        ghost var g1 := g;
        ok, x, g := ReconcileStatefulSet(me, opNode, net, g);
        WorksTransitive(g0, g1, g, me);
        if !ok {
          opNode := Mark(opNode, StatefulSetReady, False, "StatefulSetReconciliationFailed", x.text, x.now);
          opNode := InPhase(opNode, Phase.Error);
        } else {
          MarkSpec(opNode, StatefulSetReady, True, "StatefulSetReconciled", "StatefulSet is ready", x.now);
          opNode := Mark(opNode, StatefulSetReady, True, "StatefulSetReconciled", "StatefulSet is ready", x.now);
          ghost var g2 := g;
          ok, x, g := ReconcileService(me, opNode, net, g);
          WorksTransitive(g0, g2, g, me);
          if !ok {
            opNode := Mark(opNode, ServiceReady, False, "ServiceReconciliationFailed", x.text, x.now);
            opNode := InPhase(opNode, Phase.Error);
          } else {
            opNode := Mark(opNode, ServiceReady, True, "ServiceReconciled", "Service is ready", x.now);
            opNode := opNode.(status := opNode.status.(nodeInfo := Some(NodeInfoOf(opNode.status.nodeInfo))));
            opNode := InPhase(opNode, Running);
          }
        }
      }
      opNode := Observed(opNode);
      result := RequeueAfter(opNode.status.phase);
      ghost var g3 := g;
      var statusErr;
      statusErr, g := UpdateStatusWithRetry(api, me, opNode, result, result, g);
      WorksTransitive(g0, g3, g, me);
    }

    method HandleDeletion(me: Id, obj: Object, ghost g0: World) returns (result: Outcome, ghost g: World)
      requires Mirrors(g0, api.w, me)
      requires ThreadOf(g0, me) == Busy(PutFinalizer(Nothing), obj.(finalizers := obj.finalizers - {NodeFinalizer}))
      modifies api
      ensures Arrived(g0, g, api, me) && ThreadOf(g, me) == Idle(result)
    {
      result, g := UpdateFinalizers(api, me, obj.(finalizers := obj.finalizers - {NodeFinalizer}), Nothing, g0);
    }

    /** Reconcile makes exactly the micro-steps of one reconcile of `me` in the machine, interleaved with whatever the
        others do. */
    method Reconcile(me: Id, ghost g0: World) returns (result: Outcome, ghost g: World)
      requires me.kind.NodeKind? && Mirrors(g0, api.w, me) && ThreadOf(g0, me).Idle?
      modifies api
      ensures Reconciled(g0, g, me) && Mirrors(g, api.w, me) && ThreadOf(g, me) == Idle(result)
    {
      hide Mark, Works, Waits, Mirrors, Apply, NodeSpecError, NetworkFetched, NodeWrite, NodeNext, NetworkWrite;
      hide NetworkNext;
      var x, m := api.Await(me, g0);
      MirrorsState(m, api.w, me);
      var r := Lookup(api.w.s.objs, me, x.fault);
      g := Ticked(m, api.w, me, x);
      ghost var g1 := g;
      WorksSelf(g1, me);
      if r.Missing? {
        return Nothing, g;
      }
      if r.Unavailable? || !r.value.spec.NodeSpec? {
        return Failure, g;
      }
      var opNode := r.value;
      if opNode.deleting {
        result, g := HandleDeletion(me, opNode, g);
        return;
      }
      if NodeFinalizer !in opNode.finalizers {
        opNode := opNode.(finalizers := opNode.finalizers + {NodeFinalizer});
        result, g := UpdateFinalizers(api, me, opNode, Requeue, g);
        return;
      }
      var problem := NodeSpecError(opNode.spec.node);
      if problem.Some? {
        opNode := Mark(opNode, ConfigurationValid, False, "InvalidConfiguration", problem.value, x.now);
        opNode := InPhase(opNode, Phase.Error);
        opNode := Observed(opNode);
        var statusErr;
        statusErr, g := UpdateStatusWithRetry(api, me, opNode, After(5), After(5), g);
        return After(5), g;
      }
      MarkSpec(opNode, ConfigurationValid, True, "ValidConfiguration", "OpNode configuration is valid", x.now);
      opNode := Mark(opNode, ConfigurationValid, True, "ValidConfiguration", "OpNode configuration is valid", x.now);
      result, g := ReconcileValid(me, opNode, g);
    }

    /** From the fetch of the referenced network on. */
    method ReconcileValid(me: Id, copy: Object, ghost g0: World) returns (result: Outcome, ghost g: World)
      requires Mirrors(g0, api.w, me) && copy.spec.NodeSpec? && ThreadOf(g0, me) == Busy(GetNetwork, copy)
      modifies api
      ensures Arrived(g0, g, api, me) && ThreadOf(g, me) == Idle(result)
    {
      hide Mark, Works, Waits, Mirrors, NodeWrite, NetworkWrite, NetworkNext, Fetched;
      var opNode, n := copy, copy.spec.node;
      var x, m := api.Await(me, g0);
      MirrorsState(m, api.w, me);
      var r := Lookup(api.w.s.objs, Machine.NetworkId(me, n), x.fault);
      FetchesNetwork(m.s, me, copy, x);
      WorksSelf(g0, me);
      g := Ticks(g0, g0, m, api.w, me, x);
      ghost var g1 := g;
      var statusErr;
      if !r.Got? || !r.value.spec.NetworkSpec? {
        opNode := Mark(opNode, NetworkReference, False, "NetworkNotFound", x.text, x.now);
        opNode := InPhase(opNode, Phase.Error);
        opNode := Observed(opNode);
        statusErr, g := UpdateStatusWithRetry(api, me, opNode, After(2), After(2), g);
        WorksTransitive(g0, g1, g, me);
        return After(2), g;
      }
      MarkSpec(opNode, NetworkReference, True, "NetworkFound", "OptimismNetwork reference resolved successfully",
               x.now);
      opNode := Mark(opNode, NetworkReference, True, "NetworkFound",
                     "OptimismNetwork reference resolved successfully", x.now);
      if r.value.status.phase != Ready {
        opNode := Mark(opNode, ConditionType.NetworkReady, False, "NetworkNotReady", "OptimismNetwork is not ready",
                       x.later);
        opNode := InPhase(opNode, Pending);
        opNode := Observed(opNode);
        statusErr, g := UpdateStatusWithRetry(api, me, opNode, After(1), After(1), g);
        WorksTransitive(g0, g1, g, me);
        return After(1), g;
      }
      MarkSpec(opNode, ConditionType.NetworkReady, True, "NetworkReady", "OptimismNetwork is ready", x.later);
      opNode := Mark(opNode, ConditionType.NetworkReady, True, "NetworkReady", "OptimismNetwork is ready", x.later);
      opNode := InPhase(opNode, Initializing);
      result, g := ReconcileChildren(me, opNode, Net(n.networkRef.name, r.value.spec.network), g);
      WorksTransitive(g0, g1, g, me);
    }
  }
}
