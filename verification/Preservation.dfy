/** Every micro-step keeps the local invariant of its id. */
module Preservation {
  import opened Types
  import opened Conditions
  import opened Builders
  import opened Store
  import opened Machine
  import opened Invariants

  /* ----- Working copies ----- */

  /** What a reader of the conditions sees after a mark. */
  lemma MarkC(o: Object, c: ConditionType, st: ConditionStatus, reason: string, message: string, now: int)
    ensures forall d :: IsTrue(Mark(o, c, st, reason, message, now).status.conditions, d) <==>
              if d == c then st.True? else IsTrue(o.status.conditions, d)
  {
    var u := Update(c, st, reason, message, now);
    forall d
      ensures IsTrue(Set(o.status.conditions, u), d) <==> if d == c then st.True? else IsTrue(o.status.conditions, d)
    {
      GetAfterSet(o.status.conditions, u, d);
    }
  }

  /** A copy that differs only in its status, and observes no older generation, is as live as before. */
  lemma StillLive(s: State, id: Id, o: Object, st: Status)
    requires Live(s, id, o)
    requires o.status.observedGeneration <= st.observedGeneration <= o.Generation()
    ensures Live(s, id, o.(status := st))
  {
  }

  /** The last spec of a working copy is its own. */
  lemma LastSpec(o: Object)
    ensures |o.History()| == o.Generation() && o.History()[o.Generation() - 1] == o.spec
  {
  }

  /* ----- OpNode: threads ----- */

  lemma NodeWriteOk(s: State, id: Id, o: Object, good: Outcome, bad: Outcome)
    requires id.kind.NodeKind? && o.rv < s.next && Live(s, id, o)
    requires o.status.observedGeneration == o.Generation()
    requires C(o, ConfigurationValid) <==> NodeSpecError(o.spec.node).None?
    requires o.status.phase == PhaseOf(o.status.conditions)
    ensures ThreadOk(s, id, WriteStatus(o, good, bad))
  {
    hide IsTrue, NodeSpecError, PhaseOf;
    LastSpec(o);
  }

  lemma StageFailedOk(s: State, id: Id, o: Object, c: ConditionType, reason: string, x: Ext)
    requires id.kind.NodeKind? && o.rv < s.next && Live(s, id, o) && Validated(o)
    requires c.NetworkReference? || (Networked(o) && (c.SecretsReady? || c.StatefulSetReady? || c.ServiceReady?))
    ensures ThreadOk(s, id, StageFailed(o, c, reason, x))
  {
    hide IsTrue, NodeSpecError;
    MarkC(o, c, False, reason, x.text, x.now);
    var o1 := Observed(InPhase(Mark(o, c, False, reason, x.text, x.now), Phase.Error));
    StillLive(s, id, o, o1.status);
    NodeWriteOk(s, id, o1, After(2), After(2));
  }

  lemma NodeCheckedOk(s: State, id: Id, o: Object, n: OpNodeSpec, x: Ext)
    requires id.kind.NodeKind? && o.rv < s.next && Live(s, id, o) && o.spec == NodeSpec(n)
    ensures ThreadOk(s, id, NodeChecked(o, n, x))
  {
    hide IsTrue, NodeSpecError;
    match NodeSpecError(n)
    case Some(e) =>
      MarkC(o, ConfigurationValid, False, "InvalidConfiguration", e, x.now);
      var o1 := Observed(InPhase(Mark(o, ConfigurationValid, False, "InvalidConfiguration", e, x.now), Phase.Error));
      StillLive(s, id, o, o1.status);
      NodeWriteOk(s, id, o1, After(5), After(5));
    case None =>
      MarkC(o, ConfigurationValid, True, "ValidConfiguration", "OpNode configuration is valid", x.now);
      StillLive(s, id, o, Mark(o, ConfigurationValid, True, "ValidConfiguration", "OpNode configuration is valid",
                               x.now).status);
  }

  lemma NetworkFetchedOk(s: State, id: Id, o: Object, name: string, r: Reply<Object>, x: Ext)
    requires id.kind.NodeKind? && o.rv < s.next && Live(s, id, o) && Validated(o)
    ensures ThreadOk(s, id, NetworkFetched(o, name, r, x))
  {
    hide IsTrue, NodeSpecError, Set;
    if r.Got? && r.value.spec.NetworkSpec? {
      var found := "OptimismNetwork reference resolved successfully";
      MarkC(o, NetworkReference, True, "NetworkFound", found, x.now);
      var o1 := Mark(o, NetworkReference, True, "NetworkFound", found, x.now);
      if r.value.status.phase != Ready {
        MarkC(o1, ConditionType.NetworkReady, False, "NetworkNotReady", "OptimismNetwork is not ready", x.later);
        var o2 := Observed(InPhase(Mark(o1, ConditionType.NetworkReady, False, "NetworkNotReady",
                                        "OptimismNetwork is not ready", x.later), Pending));
        StillLive(s, id, o, o2.status);
        NodeWriteOk(s, id, o2, After(1), After(1));
      } else {
        MarkC(o1, ConditionType.NetworkReady, True, "NetworkReady", "OptimismNetwork is ready", x.later);
        var o2 := InPhase(Mark(o1, ConditionType.NetworkReady, True, "NetworkReady", "OptimismNetwork is ready",
                               x.later),
                          Initializing);
        StillLive(s, id, o, o2.status);
      }
    } else {
      StageFailedOk(s, id, o, NetworkReference, "NetworkNotFound", x);
    }
  }

  lemma SecretsDoneOk(s: State, id: Id, net: Net, o: Object, x: Ext)
    requires id.kind.NodeKind? && o.rv < s.next && Live(s, id, o) && Networked(o)
    requires id !in s.heirs ==> SecretsThere(s, id, o.spec.node)
    ensures ThreadOk(s, id, SecretsDone(net, o, x))
  {
    hide IsTrue, NodeSpecError, Set;
    MarkC(o, SecretsReady, True, "SecretsReconciled", "All required secrets are ready", x.now);
    StillLive(s, id, o, Mark(o, SecretsReady, True, "SecretsReconciled", "All required secrets are ready",
                             x.now).status);
  }

  lemma JwtDoneOk(s: State, id: Id, net: Net, o: Object, x: Ext)
    requires id.kind.NodeKind? && o.rv < s.next && Live(s, id, o) && Networked(o)
    requires id !in s.heirs ==> JwtKey(id) in s.secrets
    ensures ThreadOk(s, id, JwtDone(net, o, o.spec.node, x))
  {
    hide IsTrue, NodeSpecError, Set, Live, SecretsDone;
    if !Generates(o.spec.node) {
      SecretsDoneOk(s, id, net, o, x);
    }
  }

  lemma SetDoneOk(s: State, id: Id, net: Net, o: Object, x: Ext)
    requires id.kind.NodeKind? && o.rv < s.next && Live(s, id, o) && Secured(s, id, o)
    requires id !in s.heirs ==>
               KeyOf(id) in s.sets && s.sets[KeyOf(id)].spec.selector == Labels(KeyOf(id), o.spec.node, net)
    ensures ThreadOk(s, id, SetDone(net, o, x))
  {
    hide IsTrue, NodeSpecError, Set, Labels;
    MarkC(o, StatefulSetReady, True, "StatefulSetReconciled", "StatefulSet is ready", x.now);
    StillLive(s, id, o, Mark(o, StatefulSetReady, True, "StatefulSetReconciled", "StatefulSet is ready", x.now).status);
  }

  lemma SvcDoneOk(s: State, id: Id, net: Net, o: Object, x: Ext)
    requires id.kind.NodeKind? && o.rv < s.next && Live(s, id, o) && Stateful(s, id, o, net)
    ensures ThreadOk(s, id, SvcDone(o, x))
  {
    hide IsTrue, NodeSpecError, Set, Labels, NodeInfoOf;
    MarkC(o, ServiceReady, True, "ServiceReconciled", "Service is ready", x.now);
    var o1 := SvcDone(o, x).obj;
    StillLive(s, id, o, o1.status);
    NodeWriteOk(s, id, o1, After(5), After(5));
  }

  /* ----- OptimismNetwork: threads ----- */

  lemma NetworkWriteOk(s: State, id: Id, o: Object, good: Outcome, bad: Outcome)
    requires id.kind.NetworkKind? && o.rv < s.next && Live(s, id, o)
    requires NetworkStatusOk(o.History(), o.status)
    requires o.status.phase.Ready? ==> RollupKept(s, id, o.spec.network) && GenesisKept(s, id, o.spec.network)
    ensures ThreadOk(s, id, WriteStatus(o, good, bad))
  {
    hide IsTrue, NetworkSpecError, RollupKept, GenesisKept;
  }

  /** Every exit with phase Error. */
  lemma NetworkErrorOk(s: State, id: Id, o: Object, good: Outcome, bad: Outcome)
    requires id.kind.NetworkKind? && o.rv < s.next && Live(s, id, o)
    requires 0 <= o.status.observedGeneration && o.status.phase.Error?
    ensures ThreadOk(s, id, WriteStatus(o, good, bad))
  {
    hide IsTrue, NetworkSpecError, RollupKept, GenesisKept;
    LastSpec(o);
    NetworkWriteOk(s, id, o, good, bad);
  }

  lemma NetworkCheckedOk(s: State, id: Id, o: Object, n: OptimismNetworkSpec, x: Ext)
    requires id.kind.NetworkKind? && o.rv < s.next && Live(s, id, o) && o.spec == NetworkSpec(n)
    requires 0 <= o.status.observedGeneration
    ensures ThreadOk(s, id, NetworkChecked(o, n, x))
  {
    hide IsTrue, NetworkSpecError, Set;
    match NetworkSpecError(n)
    case Some(e) =>
      var o1 := InPhase(Mark(o, ConfigurationValid, False, "InvalidConfiguration", e, x.now), Phase.Error);
      StillLive(s, id, o, o1.status);
      NetworkErrorOk(s, id, o1, After(5), After(5));
    case None =>
      MarkC(o, ConfigurationValid, True, "ValidConfiguration", "Network configuration is valid", x.now);
      StillLive(s, id, o, Mark(o, ConfigurationValid, True, "ValidConfiguration", "Network configuration is valid",
                               x.now).status);
  }

  lemma DialedOk(s: State, id: Id, o: Object, n: OptimismNetworkSpec, x: Ext)
    requires id.kind.NetworkKind? && o.rv < s.next && Live(s, id, o) && NetworkRunning(s, id, o)
    ensures ThreadOk(s, id, NetworkNext(s, id, DialL1, o, n, x, Ok))
  {
    hide IsTrue, NetworkSpecError, Set;
    if x.l1 {
      MarkC(o, L1Connected, True, "L1ConnectionSuccess", "Successfully connected to L1 RPC endpoint", x.now);
      StillLive(s, id, o, Mark(o, L1Connected, True, "L1ConnectionSuccess",
                               "Successfully connected to L1 RPC endpoint", x.now).status);
    } else {
      var o1 := InPhase(Mark(o, L1Connected, False, "L1ConnectionFailed", x.text, x.now), Phase.Error);
      StillLive(s, id, o, o1.status);
      NetworkErrorOk(s, id, o1, After(2), After(2));
    }
  }

  lemma ConfigFailedOk(s: State, id: Id, o: Object)
    requires id.kind.NetworkKind? && o.rv < s.next && Live(s, id, o) && NetworkRunning(s, id, o)
    ensures ThreadOk(s, id, ConfigFailed(o))
  {
    hide IsTrue, NetworkSpecError;
    StillLive(s, id, o, InPhase(o, Phase.Error).status);
    NetworkErrorOk(s, id, InPhase(o, Phase.Error), After(2), After(2));
  }

  lemma NetworkDoneOk(s: State, id: Id, o: Object)
    requires id.kind.NetworkKind? && o.rv < s.next && Live(s, id, o) && NetworkRunning(s, id, o) && Found(o)
    requires RollupKept(s, id, o.spec.network) && GenesisKept(s, id, o.spec.network)
    ensures ThreadOk(s, id, NetworkDone(o))
  {
    hide IsTrue, NetworkSpecError, RollupKept, GenesisKept;
    var o1 := Observed(InPhase(o, Ready));
    LastSpec(o);
    StillLive(s, id, o, o1.status);
    NetworkWriteOk(s, id, o1, After(60), Failure);
  }

  lemma RollupDoneOk(s: State, id: Id, o: Object, a: Addresses)
    requires id.kind.NetworkKind? && o.rv < s.next && Live(s, id, o) && NetworkRunning(s, id, o) && Found(o)
    requires RollupKept(s, id, o.spec.network)
    ensures ThreadOk(s, id, RollupDone(o, o.spec.network, a))
  {
    hide IsTrue, NetworkSpecError, RollupKept, NetworkDone;
    if !AutoDiscovers(o.spec.network.l2Genesis) {
      NetworkDoneOk(s, id, o);
    }
  }

  lemma DiscoveredOk(s: State, id: Id, o: Object, n: OptimismNetworkSpec, a: Addresses, x: Ext)
    requires id.kind.NetworkKind? && o.rv < s.next && Live(s, id, o) && NetworkRunning(s, id, o) && C(o, L1Connected)
    requires n == o.spec.network
    ensures ThreadOk(s, id, Discovered(o, n, a, x))
  {
    hide IsTrue, NetworkSpecError, Set, RollupDone;
    var text := "Contract addresses discovered via " + a.discoveryMethod;
    MarkC(o, ContractsDiscovered, True, "AddressesResolved", text, x.now);
    var o1 := Mark(o, ContractsDiscovered, True, "AddressesResolved", text, x.now);
    var info := o1.status.networkInfo.GetOr(NetworkInfo(0, 0, None));
    var o2 := o1.(status := o1.status.(networkInfo := Some(info.(contracts := Some(a), lastUpdated := x.later))));
    StillLive(s, id, o, o2.status);
    if !AutoDiscovers(n.rollupConfig) {
      RollupDoneOk(s, id, o2, a);
    }
  }

  /* ----- Writes: the object's side ----- */

  /** An Update of the operator touches no status, so all a status claims stays. */
  lemma FinalizerWriteKeeps(s: State, id: Id, o: Object, f: Fault)
    requires id in s.objs && ObjectOk(s, id, s.objs[id]) && FinalizerOnly(s, id, o)
    ensures var s' := UpdateObject(s, id, o, f).0;
            id in s'.objs ==> ObjectOk(s', id, s'.objs[id])
  {
    hide StatusOk, DesiredSet;
  }

  /** A status claim survives every later spec. */
  lemma StatusOkMonotone(k: Kind, h: seq<Spec>, h': seq<Spec>, st: Status)
    requires StatusOk(k, h, st) && h <= h'
    ensures StatusOk(k, h', st)
  {
    hide IsTrue, NodeSpecError, NetworkSpecError, PhaseOf;
  }

  /** The copy that is written claims what its source claims. */
  lemma CopyClaims(k: Kind, h: seq<Spec>, src: Status, latest: Status)
    requires StatusOk(k, h, src)
    ensures StatusOk(k, h, CopiedStatus(k, src, latest))
  {
    hide IsTrue, NodeSpecError, NetworkSpecError, PhaseOf;
  }

  lemma CopyConfigs(s: State, id: Id, o: Object, cur: Object, st: Status)
    requires id.kind.NetworkKind? && Live(s, id, o) && Writable(s, id, o) && s.objs[id] == cur
    requires ConfigsOk(s, id, cur)
    requires st.phase == o.status.phase && st.observedGeneration == o.status.observedGeneration
    ensures ConfigsOk(s, id, cur.(status := st))
  {
    hide StatusOk, RollupThere, GenesisThere;
    if st.observedGeneration == cur.Generation() {
      assert o.History() == cur.History();
      LastSpec(o);
      LastSpec(cur);
    }
  }

  lemma StatusWriteKeeps(s: State, id: Id, o: Object, latest: Object, f: Fault)
    requires Live(s, id, o) && ObjectOk(s, id, s.objs[id]) && Writable(s, id, o)
    ensures var s' := UpdateStatus(s, id, latest.(status := CopiedStatus(id.kind, o.status, latest.status)), f).0;
            id in s'.objs && ObjectOk(s', id, s'.objs[id])
  {
    hide StatusOk, NodeChildrenOk, ConfigsOk, Writable;
    var cur := s.objs[id];
    var st := CopiedStatus(id.kind, o.status, latest.status);
    WritableClaims(s, id, o);
    CopyClaims(id.kind, o.History(), o.status, latest.status);
    StatusOkMonotone(id.kind, o.History(), cur.History(), st);
    if id.kind.NetworkKind? {
      CopyConfigs(s, id, o, cur, st);
    }
    CommitStatusOk(s, id, st);
  }

  lemma WritableClaims(s: State, id: Id, o: Object)
    requires Writable(s, id, o)
    ensures StatusOk(id.kind, o.History(), o.status)
  {
  }

  lemma CommitStatusOk(s: State, id: Id, st: Status)
    requires id in s.objs && ObjectOk(s, id, s.objs[id]) && s.objs[id].finalizers != {}
    requires StatusOk(id.kind, s.objs[id].History(), st)
    requires ChildrenOk(s, id, s.objs[id].(status := st))
    ensures var s' := Commit(s, id, s.objs[id].(status := st));
            id in s'.objs && ObjectOk(s', id, s'.objs[id])
  {
    hide StatusOk;
  }

  /* ----- Writes: children ----- */

  /** What a write of a child keeps: all objects, and what is said of the object and the copy of `id`. */
  ghost predicate Keeps(s: State, s': State, id: Id, o: Object) {
    && s'.objs == s.objs && s'.heirs == s.heirs && s.next <= s'.next
    && Live(s', id, o) && ObjectOk(s', id, s'.objs[id])
  }

  lemma SecretWriteKeeps(s: State, id: Id, o: Object, k: Key, data: map<string, string>, f: Fault)
    requires id.kind.NodeKind? && Live(s, id, o) && ObjectOk(s, id, s.objs[id])
    requires k == JwtKey(id) || k == P2pKey(id)
    ensures var (s', a) := CreateSecret(s, k, Secret(Some(o.uid), data), f);
            && Keeps(s, s', id, o)
            && (forall j :: j in s.secrets ==> j in s'.secrets)
            && (a.Ok? ==> k in s'.secrets)
  {
    hide StatusOk, DesiredSet;
  }

  lemma SetCreateKeeps(s: State, id: Id, o: Object, net: Net, f: Fault)
    requires id.kind.NodeKind? && Live(s, id, o) && ObjectOk(s, id, s.objs[id]) && Secured(s, id, o)
    ensures var (s', a) := CreateSet(s, KeyOf(id), NewSetOf(id, o, o.spec.node, net), Built(o.spec.node, net), f);
            && Keeps(s, s', id, o) && s'.secrets == s.secrets
            && (a.Ok? ==>
                  KeyOf(id) in s'.sets && s'.sets[KeyOf(id)].spec.selector == Labels(KeyOf(id), o.spec.node, net))
  {
    hide StatusOk, Labels, Geth, Node, Volumes, DataClaim, IsTrue, NodeSpecError, ReplaceSet;
    Replaced(s, KeyOf(id), NewSetOf(id, o, o.spec.node, net), Built(o.spec.node, net));
  }

  lemma Replaced(s: State, k: Key, v: StatefulSet, b: Built)
    ensures var s' := ReplaceSet(s, k, v, b);
            && s'.objs == s.objs && s'.heirs == s.heirs && s'.secrets == s.secrets && s'.svcs == s.svcs
               && s.next <= s'.next
            && k in s'.sets && s'.sets[k].spec == v.spec && s'.sets[k].owner == v.owner
            && k in s'.built && s'.built[k] == b
  {
  }

  lemma SetUpdateKeeps(s: State, id: Id, o: Object, net: Net, cur: StatefulSet, f: Fault)
    requires id.kind.NodeKind? && Live(s, id, o) && ObjectOk(s, id, s.objs[id]) && Secured(s, id, o)
    requires id !in s.heirs ==> cur.owner == o.uid
    ensures var (s', a) := UpdateSet(s, KeyOf(id), EditedSet(id, cur, o.spec.node, net), Built(o.spec.node, net), f);
            && Keeps(s, s', id, o) && s'.secrets == s.secrets
            && (a.Ok? ==>
                  KeyOf(id) in s'.sets && s'.sets[KeyOf(id)].spec.selector == Labels(KeyOf(id), o.spec.node, net))
  {
    hide StatusOk, Labels, Geth, Node, Volumes, DataClaim, IsTrue, NodeSpecError, ReplaceSet;
    Replaced(s, KeyOf(id), EditedSet(id, cur, o.spec.node, net), Built(o.spec.node, net));
  }

  lemma ServiceCreateKeeps(s: State, id: Id, o: Object, net: Net, f: Fault)
    requires id.kind.NodeKind? && Live(s, id, o) && ObjectOk(s, id, s.objs[id]) && Stateful(s, id, o, net)
    ensures var s' := CreateService(s, KeyOf(id), NewServiceOf(id, o, o.spec.node, net), f).0;
            Keeps(s, s', id, o) && s'.secrets == s.secrets && s'.sets == s.sets
  {
    hide StatusOk, Labels, DesiredSet, IsTrue, NodeSpecError, Ports;
  }

  lemma UpdatedService(s: State, k: Key, v: Service, f: Fault)
    ensures var s' := UpdateService(s, k, v, f).0;
            && s' == s.(svcs := s'.svcs, next := s'.next) && s.next <= s'.next
            && (s'.svcs == s.svcs
                || (k in s.svcs && k in s'.svcs && s'.svcs[k].owner == v.owner && s'.svcs[k].spec == v.spec))
  {
  }

  lemma ServiceUpdateKeeps(s: State, id: Id, o: Object, net: Net, cur: Service, f: Fault)
    requires id.kind.NodeKind? && Live(s, id, o) && ObjectOk(s, id, s.objs[id]) && Stateful(s, id, o, net)
    requires id !in s.heirs ==> cur.owner == o.uid && cur.spec.selector == Labels(KeyOf(id), o.spec.node, net)
    ensures var s' := UpdateService(s, KeyOf(id), EditedService(id, cur, o.spec.node, net), f).0;
            Keeps(s, s', id, o) && s'.secrets == s.secrets && s'.sets == s.sets
  {
    hide StatusOk, Labels, DesiredSet, IsTrue, NodeSpecError, Ports, UpdateService;
    UpdatedService(s, KeyOf(id), EditedService(id, cur, o.spec.node, net), f);
  }

  /** If the stored status already speaks of the present generation, the copy has the present spec: writing
      configuration from the copy changes no chain ID that status vouches for. */
  lemma SameSpec(s: State, id: Id, o: Object)
    requires Live(s, id, o) && s.objs[id].status.observedGeneration == s.objs[id].Generation()
    ensures o.spec == s.objs[id].spec
  {
    LastSpec(o);
    LastSpec(s.objs[id]);
  }

  lemma ConfigWriteKeeps(s: State, s': State, id: Id, o: Object, k: Key, data: ConfigData)
    requires id.kind.NetworkKind? && Live(s, id, o) && ObjectOk(s, id, s.objs[id]) && o.spec.NetworkSpec?
    requires (k == RollupKey(id) && data.RollupJson? && data.l1ChainID == o.spec.network.l1ChainID
              && data.l2ChainID == o.spec.network.chainID)
          || (k == GenesisKey(id) && data.GenesisJson? && data.chainID == o.spec.network.chainID)
    requires s'.objs == s.objs && s'.heirs == s.heirs && s.next <= s'.next && k in s'.configs
    requires s'.configs == s.configs[k := s'.configs[k]]
    requires (id !in s.heirs ==> s'.configs[k].owner == o.uid) && s'.configs[k].data == data
    ensures Keeps(s, s', id, o)
    ensures k == RollupKey(id) ==> RollupKept(s', id, o.spec.network)
    ensures k == GenesisKey(id) ==> GenesisKept(s', id, o.spec.network)
    ensures k == GenesisKey(id) && RollupKept(s, id, o.spec.network) ==> RollupKept(s', id, o.spec.network)
  {
    hide StatusOk;
    DerivedNames(id, id);
    if s.objs[id].status.observedGeneration == s.objs[id].Generation() {
      SameSpec(s, id, o);
    }
  }

  /* ----- Whole micro-steps ----- */

  /** The thread is past the finalizer check, at a call of the OpNode pipeline. */
  ghost predicate NodeRunning(s: State, id: Id, pc: Pc, o: Object) {
    && id.kind.NodeKind? && o.rv < s.next && Live(s, id, o) && ObjectOk(s, id, s.objs[id]) && Stage(s, id, pc, o)
    && o.spec.NodeSpec?
  }

  lemma SecretStep(s: State, id: Id, pc: Pc, o: Object, x: Ext)
    requires NodeRunning(s, id, pc, o) && (pc.GetJwt? || pc.NewJwt? || pc.GetP2p? || pc.NewP2p?)
    ensures var (s', a) := NodeWrite(s, id, pc, o, o.spec.node, x);
            Keeps(s, s', id, o) && ThreadOk(s', id, NodeNext(s, id, pc, o, o.spec.node, x, a))
  {
    hide StatusOk, NodeChildrenOk, IsTrue, NodeSpecError, JwtDone, SecretsDone, SecretsFailed, CreateSecret;
    var (s', a) := NodeWrite(s, id, pc, o, o.spec.node, x);
    if pc.NewJwt? {
      SecretWriteKeeps(s, id, o, JwtKey(id), map[JWT_ENTRY := x.key], x.fault);
    } else if pc.NewP2p? {
      SecretWriteKeeps(s, id, o, P2pKey(id), map[P2P_ENTRY := x.key], x.fault);
    }
    SecretsFailedOk(s', id, o, x);
    if id in s.heirs || JwtKey(id) in s'.secrets {
      JwtDoneOk(s', id, pc.net, o, x);
      if id in s.heirs || P2pKey(id) in s'.secrets {
        SecretsDoneOk(s', id, pc.net, o, x);
      }
    }
  }

  lemma SecretsFailedOk(s: State, id: Id, o: Object, x: Ext)
    requires id.kind.NodeKind? && o.rv < s.next && Live(s, id, o) && Networked(o)
    ensures ThreadOk(s, id, SecretsFailed(o, x))
  {
    hide IsTrue, NodeSpecError, StageFailed;
    StageFailedOk(s, id, o, SecretsReady, "SecretReconciliationFailed", x);
  }

  lemma SetStep(s: State, id: Id, pc: Pc, o: Object, x: Ext)
    requires NodeRunning(s, id, pc, o) && (pc.GetSet? || pc.NewSet? || pc.PutSet?)
    ensures var (s', a) := NodeWrite(s, id, pc, o, o.spec.node, x);
            Keeps(s, s', id, o) && ThreadOk(s', id, NodeNext(s, id, pc, o, o.spec.node, x, a))
  {
    hide StatusOk, IsTrue, NodeSpecError, SetDone, StageFailed, CreateSet, UpdateSet, Labels, DesiredSet;
    var (s', a) := NodeWrite(s, id, pc, o, o.spec.node, x);
    if pc.NewSet? {
      SetCreateKeeps(s, id, o, pc.net, x.fault);
    } else if pc.PutSet? {
      SetUpdateKeeps(s, id, o, pc.net, pc.current, x.fault);
    }
    StageFailedOk(s', id, o, StatefulSetReady, "StatefulSetReconciliationFailed", x);
    if !pc.GetSet? && a.Ok? {
      SetDoneOk(s', id, pc.net, o, x);
    }
  }

  lemma ServiceStep(s: State, id: Id, pc: Pc, o: Object, x: Ext)
    requires NodeRunning(s, id, pc, o) && (pc.GetSvc? || pc.NewSvc? || pc.PutSvc?)
    ensures var (s', a) := NodeWrite(s, id, pc, o, o.spec.node, x);
            Keeps(s, s', id, o) && ThreadOk(s', id, NodeNext(s, id, pc, o, o.spec.node, x, a))
  {
    hide StatusOk, IsTrue, NodeSpecError, SvcDone, StageFailed, CreateService, UpdateService, Labels, DesiredSet;
    var (s', a) := NodeWrite(s, id, pc, o, o.spec.node, x);
    if pc.NewSvc? {
      ServiceCreateKeeps(s, id, o, pc.net, x.fault);
    } else if pc.PutSvc? {
      ServiceUpdateKeeps(s, id, o, pc.net, pc.svc, x.fault);
    }
    StageFailedOk(s', id, o, ServiceReady, "ServiceReconciliationFailed", x);
    SvcDoneOk(s', id, pc.net, o, x);
  }

  lemma NodeStepLocal(s: State, id: Id, pc: Pc, o: Object, x: Ext)
    requires NodeRunning(s, id, pc, o) && !pc.PutFinalizer? && !pc.StatusGet? && !pc.StatusPut?
    ensures var (s', a) := NodeWrite(s, id, pc, o, o.spec.node, x);
            Keeps(s, s', id, o) && ThreadOk(s', id, NodeNext(s, id, pc, o, o.spec.node, x, a))
  {
    if pc.GetNetwork? {
      hide StatusOk, IsTrue, NodeSpecError, NetworkFetched, NodeChildrenOk;
      NetworkFetchedOk(s, id, o, o.spec.node.networkRef.name,
                       Lookup(s.objs, Machine.NetworkId(id, o.spec.node), x.fault), x);
    } else {
      hide NodeWrite, NodeNext, Keeps, ThreadOk, Live, ObjectOk;
      if pc.GetJwt? || pc.NewJwt? || pc.GetP2p? || pc.NewP2p? {
        SecretStep(s, id, pc, o, x);
      } else if pc.GetSet? || pc.NewSet? || pc.PutSet? {
        SetStep(s, id, pc, o, x);
      } else if pc.GetSvc? || pc.NewSvc? || pc.PutSvc? {
        ServiceStep(s, id, pc, o, x);
      }
    }
  }

  ghost predicate NetworkPipeline(s: State, id: Id, pc: Pc, o: Object) {
    && id.kind.NetworkKind? && o.rv < s.next && Live(s, id, o) && ObjectOk(s, id, s.objs[id]) && Stage(s, id, pc, o)
    && o.spec.NetworkSpec?
  }

  /** A ConfigMap write changes nothing else, and leaves the wanted data if it changes anything. */
  ghost predicate WroteConfig(s: State, s': State, k: Key, v: ConfigMap) {
    s' == s ||
    (&& s'.objs == s.objs && s'.heirs == s.heirs && s.next <= s'.next && k in s'.configs
     && s'.configs == s.configs[k := s'.configs[k]]
     && s'.configs[k].owner == v.owner && s'.configs[k].data == v.data)
  }

  lemma ConfigWritten(s: State, k: Key, v: ConfigMap, f: Fault)
    ensures var r := CreateConfig(s, k, v, f);
            WroteConfig(s, r.0, k, v) && (r.1.Ok? ==> k in r.0.configs && r.0.configs[k].data == v.data)
    ensures var r := UpdateConfig(s, k, v, f);
            WroteConfig(s, r.0, k, v) && (r.1.Ok? ==> k in r.0.configs && r.0.configs[k].data == v.data)
  {
  }

  lemma RollupWriteKeeps(s: State, id: Id, pc: Pc, o: Object, x: Ext)
    requires NetworkPipeline(s, id, pc, o) && (pc.GetRollup? || pc.NewRollup? || pc.PutRollup?)
    ensures var (s', a) := NetworkWrite(s, id, pc, o, o.spec.network, x);
            Keeps(s, s', id, o) && (!pc.GetRollup? && a.Ok? ==> RollupKept(s', id, o.spec.network))
  {
    hide StatusOk, IsTrue, NetworkSpecError, CreateConfig, UpdateConfig, RollupKey;
    var (s', a) := NetworkWrite(s, id, pc, o, o.spec.network, x);
    ConfigWritten(s, RollupKey(id), ConfigMap(o.uid, 0, RollupOf(o.spec.network, pc.found)), x.fault);
    if pc.PutRollup? {
      ConfigWritten(s, RollupKey(id), pc.config.(data := RollupOf(o.spec.network, pc.found)), x.fault);
    }
    if s' != s {
      ConfigWriteKeeps(s, s', id, o, RollupKey(id), RollupOf(o.spec.network, pc.found));
    }
  }

  lemma RollupStep(s: State, id: Id, pc: Pc, o: Object, x: Ext)
    requires NetworkPipeline(s, id, pc, o) && (pc.GetRollup? || pc.NewRollup? || pc.PutRollup?)
    ensures var (s', a) := NetworkWrite(s, id, pc, o, o.spec.network, x);
            Keeps(s, s', id, o) && ThreadOk(s', id, NetworkNext(s, id, pc, o, o.spec.network, x, a))
  {
    hide StatusOk, IsTrue, NetworkSpecError, RollupDone, ConfigFailed, CreateConfig, UpdateConfig;
    var (s', a) := NetworkWrite(s, id, pc, o, o.spec.network, x);
    RollupWriteKeeps(s, id, pc, o, x);
    ConfigFailedOk(s', id, o);
    if !pc.GetRollup? && a.Ok? {
      RollupDoneOk(s', id, o, pc.found);
    }
  }

  lemma GenesisWriteKeeps(s: State, id: Id, pc: Pc, o: Object, x: Ext)
    requires NetworkPipeline(s, id, pc, o) && (pc.GetGenesis? || pc.NewGenesis? || pc.PutGenesis?)
    ensures var (s', a) := NetworkWrite(s, id, pc, o, o.spec.network, x);
            && Keeps(s, s', id, o)
            && (!pc.GetGenesis? && a.Ok? ==> GenesisKept(s', id, o.spec.network) && RollupKept(s', id, o.spec.network))
  {
    hide StatusOk, IsTrue, NetworkSpecError, CreateConfig, UpdateConfig, GenesisKey;
    var (s', a) := NetworkWrite(s, id, pc, o, o.spec.network, x);
    ConfigWritten(s, GenesisKey(id), ConfigMap(o.uid, 0, GenesisOf(o.spec.network)), x.fault);
    if pc.PutGenesis? {
      ConfigWritten(s, GenesisKey(id), pc.config.(data := GenesisOf(o.spec.network)), x.fault);
    }
    if s' != s {
      ConfigWriteKeeps(s, s', id, o, GenesisKey(id), GenesisOf(o.spec.network));
    }
  }

  lemma GenesisStep(s: State, id: Id, pc: Pc, o: Object, x: Ext)
    requires NetworkPipeline(s, id, pc, o) && (pc.GetGenesis? || pc.NewGenesis? || pc.PutGenesis?)
    ensures var (s', a) := NetworkWrite(s, id, pc, o, o.spec.network, x);
            Keeps(s, s', id, o) && ThreadOk(s', id, NetworkNext(s, id, pc, o, o.spec.network, x, a))
  {
    hide StatusOk, IsTrue, NetworkSpecError, NetworkDone, ConfigFailed, CreateConfig, UpdateConfig;
    var (s', a) := NetworkWrite(s, id, pc, o, o.spec.network, x);
    GenesisWriteKeeps(s, id, pc, o, x);
    ConfigFailedOk(s', id, o);
    if !pc.GetGenesis? && a.Ok? {
      NetworkDoneOk(s', id, o);
    }
  }

  lemma DiscoverStep(s: State, id: Id, o: Object, x: Ext)
    requires NetworkPipeline(s, id, Discover, o)
    ensures ThreadOk(s, id, NetworkNext(s, id, Discover, o, o.spec.network, x, Ok))
  {
    hide StatusOk, IsTrue, NetworkSpecError, Discovered, Set;
    match x.found
    case Some(a) => DiscoveredOk(s, id, o, o.spec.network, a, x);
    case None =>
      var o1 := InPhase(Mark(o, ContractsDiscovered, False, "DiscoveryFailed", x.text, x.now), Phase.Error);
      StillLive(s, id, o, o1.status);
      NetworkErrorOk(s, id, o1, After(5), After(5));
  }

  lemma NetworkStepLocal(s: State, id: Id, pc: Pc, o: Object, x: Ext)
    requires NetworkPipeline(s, id, pc, o) && !pc.PutFinalizer? && !pc.StatusGet? && !pc.StatusPut?
    ensures var (s', a) := NetworkWrite(s, id, pc, o, o.spec.network, x);
            Keeps(s, s', id, o) && ThreadOk(s', id, NetworkNext(s, id, pc, o, o.spec.network, x, a))
  {
    hide NetworkNext, ThreadOk, Live, ObjectOk;
    if pc.DialL1? {
      DialedOk(s, id, o, o.spec.network, x);
    } else if pc.Discover? {
      DiscoverStep(s, id, o, x);
    } else {
      hide NetworkWrite, Keeps;
      if pc.GetRollup? || pc.NewRollup? || pc.PutRollup? {
        RollupStep(s, id, pc, o, x);
      } else if pc.GetGenesis? || pc.NewGenesis? || pc.PutGenesis? {
        GenesisStep(s, id, pc, o, x);
      }
    }
  }

  lemma StartOk(s: State, id: Id, x: Ext)
    requires id in s.objs ==> ObjectOk(s, id, s.objs[id])
    ensures ThreadOk(s, id, Fetched(id, Lookup(s.objs, id, x.fault), x))
  {
    hide NodeChecked, NetworkChecked, IsTrue, NodeSpecError, NetworkSpecError, NodeChildrenOk, ConfigsOk;
    var r := Lookup(s.objs, id, x.fault);
    if r.Got? && Own(id.kind) in r.value.finalizers {
      var o := r.value;
      LastSpec(o);
      match o.spec
      case NodeSpec(n) => NodeCheckedOk(s, id, o, n, x);
      case NetworkSpec(n) => NetworkCheckedOk(s, id, o, n, x);
    }
  }

  lemma StatusStep(s: State, id: Id, pc: Pc, o: Object, x: Ext)
    requires Local(s, id, Busy(pc, o)) && (pc.StatusGet? || pc.StatusPut?)
    ensures var (s', t') := Step(s, id, Busy(pc, o), x);
            Local(s', id, t')
  {
    hide UpdateStatus, CopiedStatus, ObjectOk, Writable;
    if pc.StatusPut? {
      StatusWriteKeeps(s, id, o, pc.latest, x.fault);
      StatusRefused(s, id, pc.latest.(status := CopiedStatus(id.kind, o.status, pc.latest.status)), x.fault);
    }
  }

  /** A status write that conflicts has changed nothing. */
  lemma StatusRefused(s: State, id: Id, o: Object, f: Fault)
    ensures var (s', a) := UpdateStatus(s, id, o, f);
            a.Conflict? ==> s' == s
  {
  }

  /** Every micro-step of the reconcile of `id` keeps what is said of `id`. */
  lemma StepLocal(s: State, id: Id, t: Thread, x: Ext)
    requires Local(s, id, t)
    ensures var (s', t') := Step(s, id, t, x);
            Local(s', id, t')
  {
    hide ObjectOk, Live, Stage, FinalizerOnly, NodeWrite, NodeNext, NetworkWrite, NetworkNext, Fetched;
    match t
    case Idle(_) => StartOk(s, id, x);
    case Busy(pc, o) =>
      if pc.PutFinalizer? {
        hide UpdateObject;
        if id in s.objs {
          FinalizerWriteKeeps(s, id, o, x.fault);
        } else {
          UpdateMissing(s, id, o, x.fault);
        }
      } else if pc.StatusGet? || pc.StatusPut? {
        hide Step;
        StatusStep(s, id, pc, o, x);
      } else {
        LiveFits(s, id, o);
        match o.spec
        case NodeSpec(n) => NodeStepLocal(s, id, pc, o, x);
        case NetworkSpec(n) => NetworkStepLocal(s, id, pc, o, x);
      }
  }

  lemma UpdateMissing(s: State, id: Id, o: Object, f: Fault)
    requires id !in s.objs
    ensures UpdateObject(s, id, o, f).0 == s
  {
  }

  lemma LiveFits(s: State, id: Id, o: Object)
    requires Live(s, id, o)
    ensures id in s.objs && Fits(id.kind, o.spec)
  {
  }
}
