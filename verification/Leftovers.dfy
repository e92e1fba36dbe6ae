/** What a leftover does: from every world with an orphaned child there is a run to a state of the same object where the
    claims fail. */
module Leftovers {
  import opened Types
  import opened Builders
  import opened Store
  import opened Machine
  import opened Invariants
  import opened Runs
  import opened Safety
  import opened Lineage
  import opened Steps
  import opened Ownership
  import opened Claims
  import opened Departure
  import opened Convergence
  import opened NetworkConvergence
  import Conditions
  import Discovery

  /* ----- A network nobody has, and an OpNode spec that fits the StatefulSet there is ----- */

  lemma LongestName(ids: set<Id>) returns (n: nat)
    ensures forall i :: i in ids ==> |i.name| <= n
  {
    if ids == {} {
      n := 0;
    } else {
      var i :| i in ids;
      var m := LongestName(ids - {i});
      n := if m < |i.name| then |i.name| else m;
    }
  }

  lemma FreshName(s: State) returns (name: string)
    ensures name != "" && forall i :: i in s.objs ==> i.name != name
  {
    var n := LongestName(s.objs.Keys);
    name := seq(n + 1, _ => 'x');
  }

  const TEMPLATE := OpNodeSpec(Reference("n", ""), "replica", None, "", OpNodeConfig(None, None, None),
                               OpGethConfig("", None, "", None), None, "")

  /** The spec with a generated P2P key and another network. */
  function Mounting(base: OpNodeSpec, network: string): OpNodeSpec {
    base.(networkRef := Reference(network, ""),
          opNode := base.opNode.(p2p := Some(P2PConfig(false, 0, None, [], Some(SecretKeyRef(None, true))))))
  }

  function Plain(networkName: string, auto: Option<ConfigSource>): OptimismNetworkSpec {
    OptimismNetworkSpec(networkName, 1, 2, "l1", auto, auto, None, None, "")
  }

  lemma MountingValid(base: OpNodeSpec, network: string)
    requires NodeSpecError(base).None? && network != ""
    ensures NodeSpecError(Mounting(base, network)).None? && Generates(Mounting(base, network))
  {
    hide NodeSpecError;
    NodeSpecAccepted(base);
    NodeSpecAccepted(Mounting(base, network));
  }

  lemma TemplateValid()
    ensures NodeSpecError(TEMPLATE).None?
  {
  }

  lemma PlainValid(networkName: string, auto: Option<ConfigSource>)
    requires auto.Some? ==> auto.value == ConfigSource("", None, true)
    ensures NetworkSpecError(Plain(networkName, auto)).None?
  {
  }

  /** Neither change touches what the API keeps of a StatefulSet. */
  lemma SameShape(key: Key, base: OpNodeSpec, old_: Net, network: string)
    ensures var net := Net(network, Plain(old_.spec.networkName, None));
            && Replaceable(DesiredSet(key, base, old_), DesiredSet(key, Mounting(base, network), net))
            && Labels(key, base, old_) == Labels(key, Mounting(base, network), net)
            && DesiredSet(key, base, old_).selector == Labels(key, base, old_)
  {
    hide Geth, Node, Volumes;
  }

  /* ----- Bringing an OpNode to a world with all its children ----- */

  lemma Edited(s: State, id: Id, spec: Spec, fs: set<Finalizer>)
    requires id in s.objs && !s.objs[id].deleting && Fits(id.kind, spec) && s.objs[id].finalizers <= fs
    ensures var s1 := Others(s, Edit(id, spec));
            var s2 := Others(s1, Finalizers(id, fs));
            && s2 == s.(objs := s2.objs, next := s2.next) && s.next <= s2.next
            && id in s2.objs && s2.objs == s.objs[id := s2.objs[id]]
            && s2.objs[id].spec == spec && !s2.objs[id].deleting && s2.objs[id].uid == s.objs[id].uid
            && s2.objs[id].finalizers == fs
  {
    hide Clean;
    var o := s.objs[id];
    var s1 := Others(s, Edit(id, spec));
    assert s1 == Commit(s, id, o.WithSpec(spec));
    EditedOnce(s, id, o.WithSpec(spec));
    EditedOnce(s1, id, s1.objs[id].(finalizers := fs));
  }

  lemma EditedOnce(s: State, id: Id, o: Object)
    requires id in s.objs && !o.deleting
    ensures var s' := Commit(s, id, o);
            && s' == s.(objs := s'.objs, next := s'.next) && s.next <= s'.next
            && id in s'.objs && s'.objs == s.objs[id := s'.objs[id]] && s'.objs[id] == o.(rv := s'.objs[id].rv)
  {
  }

  /** The moves that give `id` a spec and its finalizer, and a network besides. */
  function Prepare(w: World, nid: Id, network: OptimismNetworkSpec, id: Id, spec: Spec): seq<Action>
    requires id in w.s.objs
  {
    [Crash(id)] + [Create(nid, NetworkSpec(network), {NetworkFinalizer})] + [Crash(nid)] + [Edit(id, spec)]
    + [Finalizers(id, w.s.objs[id].finalizers + {Own(id.kind)})]
  }

  lemma Prepared(w: World, nid: Id, network: OptimismNetworkSpec, id: Id, spec: Spec)
    requires id in w.s.objs && !w.s.objs[id].deleting && Fits(id.kind, spec)
    requires nid !in w.s.objs && nid.kind.NetworkKind? && nid != id
    ensures var v := Exec(w, Prepare(w, nid, network, id, spec));
            && v.s == w.s.(objs := v.s.objs, heirs := v.s.heirs, next := v.s.next)
            && id in v.s.objs && v.s.objs[id].spec == spec && !v.s.objs[id].deleting
            && v.s.objs[id].uid == w.s.objs[id].uid && Own(id.kind) in v.s.objs[id].finalizers
            && nid in v.s.objs && v.s.objs[nid].spec == NetworkSpec(network) && !v.s.objs[nid].deleting
            && NetworkFinalizer in v.s.objs[nid].finalizers
            && ThreadOf(v, id).Idle? && ThreadOf(v, nid).Idle?
  {
    hide Others;
    var fs := w.s.objs[id].finalizers + {Own(id.kind)};
    var a, b, c := Crash(id), Create(nid, NetworkSpec(network), {NetworkFinalizer}), Crash(nid);
    FiveMoves(w, a, b, c, Edit(id, spec), Finalizers(id, fs));
    NetworkAdded(w.s, nid, network);
    Edited(Others(w.s, b), id, spec, fs);
  }

  lemma NetworkAdded(s: State, nid: Id, network: OptimismNetworkSpec)
    requires nid !in s.objs && nid.kind.NetworkKind?
    ensures var s' := Others(s, Create(nid, NetworkSpec(network), {NetworkFinalizer}));
            && s' == s.(objs := s'.objs, heirs := s'.heirs, next := s'.next)
            && s'.objs == s.objs[nid := Object(s.next, s.next, [], NetworkSpec(network), {NetworkFinalizer}, false,
                                               EMPTY_STATUS)]
  {
    hide Clean;
  }

  /** What a reconcile that meets no obstacle keeps: Secrets as they are, and the owner of the StatefulSet. */
  ghost predicate KeepsOwners(s: State, s': State, id: Id) {
    && (forall k :: k in s.secrets ==> k in s'.secrets && s'.secrets[k] == s.secrets[k])
    && (KeyOf(id) in s.sets ==> KeyOf(id) in s'.sets && s'.sets[KeyOf(id)].owner == s.sets[KeyOf(id)].owner)
  }

  lemma SecretsKept(s: State, id: Id, o: Object, n: OpNodeSpec, jwt: string, p2p: string)
    ensures var s1 := WithSecrets(s, id, o, n, jwt, p2p);
            && s1 == s.(secrets := s1.secrets)
            && forall k :: k in s.secrets ==> k in s1.secrets && s1.secrets[k] == s.secrets[k]
  {
    hide JwtKey, P2pKey, NewJwtOf, NewP2pOf, WithSecret;
    var s0 := WithSecret(s, JwtKey(id), NewJwtOf(o, jwt));
    SecretKept(s, JwtKey(id), NewJwtOf(o, jwt));
    SecretKept(s0, P2pKey(id), NewP2pOf(o, p2p));
  }

  lemma SecretKept(s: State, k: Key, v: Secret)
    ensures var s1 := WithSecret(s, k, v);
            && s1 == s.(secrets := s1.secrets)
            && forall j :: j in s.secrets ==> j in s1.secrets && s1.secrets[j] == s.secrets[j]
  {
  }

  lemma SetKept(s: State, id: Id, o: Object, n: OpNodeSpec, net: Net)
    requires SetFits(s, id, n, net)
    ensures var s1 := WithSet(s, id, o, n, net);
            && s1 == s.(sets := s1.sets, built := s1.built, next := s1.next)
            && (KeyOf(id) in s.sets ==> KeyOf(id) in s1.sets && s1.sets[KeyOf(id)].owner == s.sets[KeyOf(id)].owner)
            && KeyOf(id) in s1.built && s1.built[KeyOf(id)] == Built(n, net)
  {
    hide DesiredSet, Labels, KeyOf;
  }

  lemma ServiceKept(s: State, id: Id, o: Object, n: OpNodeSpec, net: Net)
    ensures var s1 := WithService(s, id, o, n, net); s1 == s.(svcs := s1.svcs, next := s1.next)
  {
    hide EditedService, NewServiceOf, KeyOf;
  }

  /** The undisturbed reconcile of an OpNode that settles it, seen from the children it finds. */
  lemma SettlingKeepsOwners(s: State, id: Id, net: Net, xs: seq<Ext>)
    requires Wanted(s, id, net) && NodeFinalizer in s.objs[id].finalizers
    requires SetFits(s, id, s.objs[id].spec.node, net) && |xs| >= CALLS && Calm(xs)
    ensures var s' := Alone(s, id, xs).0;
            && KeepsOwners(s, s', id)
            && KeyOf(id) in s'.built && s'.built[KeyOf(id)] == Built(s.objs[id].spec.node, net)
            && id in s'.objs && s'.objs[id].uid == s.objs[id].uid && s'.objs[id].spec == s.objs[id].spec
  {
    hide Alone, Stored, WithSecrets, WithSet, WithService, SetFits, NodeSpecError, Target;
    var o := s.objs[id];
    var n := o.spec.node;
    var jwt, p2p, t := FromStart(s, id, net, xs);
    var s1 := WithSecrets(s, id, o, n, jwt, p2p);
    SecretsKept(s, id, o, n, jwt, p2p);
    SetFitsBySets(s, s1, id, n, net);
    SetKept(s1, id, o, n, net);
    ServiceKept(WithSet(s1, id, o, n, net), id, o, n, net);
    StoredKeeps(WithChildren(s, id, o, n, net, jwt, p2p), id, Target(o, t));
  }

  /** A spec that fits the StatefulSet that is there, and what is known of it. */
  lemma FittingSpec(s: State, id: Id, network: string) returns (node: OpNodeSpec, net: Net)
    requires id in s.objs && id.kind.NodeKind? && ChildrenLineage(s, id) && NodeClaims(s, id, s.objs[id].uid)
             && network != ""
    ensures net == Net(network, Plain(net.spec.networkName, None)) && node.networkRef == Reference(network, "")
    ensures NodeSpecError(node).None? && Generates(node)
    ensures SetFits(s, id, node, net) && ServiceFits(s, id, node, net)
  {
    hide NodeSpecError, DesiredSet, Labels, Replaceable, OwnerOk, SecretsThere;
    var base, old_ := TEMPLATE, Net("", Plain("", None));
    TemplateValid();
    if KeyOf(id) in s.sets {
      base, old_ := s.built[KeyOf(id)].spec, s.built[KeyOf(id)].net;
    }
    node, net := Mounting(base, network), Net(network, Plain(old_.spec.networkName, None));
    MountingValid(base, network);
    SameShape(KeyOf(id), base, old_, network);
  }

  /** From every world of a run in which a live OpNode has the claims, it can be brought to a world in which it has all
      its children, both Secrets mounted, and whoever owned a child owns it still. */
  lemma Equipped(acts: seq<Action>, id: Id) returns (more: seq<Action>)
    requires var w := Exec(START, acts);
             id in w.s.objs && id.kind.NodeKind? && !w.s.objs[id].deleting && NodeClaims(w.s, id, w.s.objs[id].uid)
    ensures var w, v := Exec(START, acts), Exec(Exec(START, acts), more);
            && SameObject(w, v, id) && KeepsOwners(w.s, v.s, id)
            && KeyOf(id) in v.s.sets && KeyOf(id) in v.s.svcs
            && KeyOf(id) in v.s.built && Generates(v.s.built[KeyOf(id)].spec)
            && JwtKey(id) in v.s.secrets && P2pKey(id) in v.s.secrets
  {
    hide Exec, Apply, Alone, NodeSpecError, NetworkSpecError, ChildrenLineage, NodeClaims, SetFits, ServiceFits;
    hide Generates;
    hide Conditions.IsTrue, RollupThere, GenesisThere, Prepare, SetDesired, ServiceDesired, Agrees, Pipeline;
    var w := Exec(START, acts);
    LineageAt(acts, id);
    var name := FreshName(w.s);
    var nid := Id(NetworkKind, id.ns, name);
    var node, net := FittingSpec(w.s, id, name);
    PlainValid(net.spec.networkName, None);
    var p := Prepare(w, nid, net.spec, id, NodeSpec(node));
    Prepared(w, nid, net.spec, id, NodeSpec(node));
    var v1 := Exec(w, p);
    FitsByChildren(w.s, v1.s, id, node, net);
    var xs, ys := Answers(NETWORK_CALLS, CALM.(found := Some(Discovery.NO_ADDRESSES))), Answers(CALLS, CALM);
    NetworkBecomesReady(v1.s, nid, xs);
    var k := AloneIsRun(v1, nid, xs);
    var v2 := Exec(v1, Ticks(nid, xs[..k]));
    TicksOfOne(v1, nid, xs[..k], id);
    FitsByChildren(v1.s, v2.s, id, node, net);
    assert Wanted(v2.s, id, net);
    OneReconcileSettles(v2.s, id, net, ys);
    SettlingKeepsOwners(v2.s, id, net, ys);
    var j := AloneIsRun(v2, id, ys);
    more := p + (Ticks(nid, xs[..k]) + Ticks(id, ys[..j]));
    ExecConcat(w, p, Ticks(nid, xs[..k]) + Ticks(id, ys[..j]));
    ExecConcat(v1, Ticks(nid, xs[..k]), Ticks(id, ys[..j]));
    GeneratedSecrets(Exec(w, more).s, id, node);
  }

  lemma FitsByChildren(s: State, s': State, id: Id, n: OpNodeSpec, net: Net)
    requires s'.sets == s.sets && s'.svcs == s.svcs
    ensures (SetFits(s, id, n, net) <==> SetFits(s', id, n, net))
            && (ServiceFits(s, id, n, net) <==> ServiceFits(s', id, n, net))
  {
    hide Replaceable, DesiredSet, Labels;
  }

  lemma GeneratedSecrets(s: State, id: Id, n: OpNodeSpec)
    requires SecretsThere(s, id, n) && Generates(n)
    ensures JwtKey(id) in s.secrets && P2pKey(id) in s.secrets
  {
  }

  /* ----- Taking what is orphaned ----- */

  /** A UID that is gone never comes back. */
  lemma DeadStays(acts: seq<Action>, more: seq<Action>, u: nat)
    requires var w := Exec(START, acts); Dead(w.s, u) && u < w.s.next
    ensures Dead(Exec(Exec(START, acts), more).s, u)
  {
    hide Exec;
    var v := Exec(Exec(START, acts), more);
    forall j | j in v.s.objs ensures v.s.objs[j].uid != u {
      ObservedGenerationNeverDecreases(acts, more, j);
    }
  }

  /** The collector's move, by the kind of child. */
  lemma CollectedSecret(w: World, k: Key)
    requires OrphanSecret(w.s, k)
    ensures Exec(w, [CollectSecret(k)]).s == w.s.(secrets := w.s.secrets - {k})
  {
    OneMove(w, CollectSecret(k));
  }

  lemma CollectedSet(w: World, id: Id)
    requires OrphanSet(w.s, id)
    ensures Exec(w, [CollectSet(KeyOf(id))]).s == w.s.(sets := w.s.sets - {KeyOf(id)})
  {
    OneMove(w, CollectSet(KeyOf(id)));
  }

  /** An OpNode with all its children, one of them orphaned, may lose that one. */
  lemma EquippedBreaks(w: World, id: Id) returns (a: Action)
    requires id in w.s.objs && id.kind.NodeKind?
    requires KeyOf(id) in w.s.sets && KeyOf(id) in w.s.svcs && KeyOf(id) in w.s.built
             && Generates(w.s.built[KeyOf(id)].spec)
    requires OrphanSecret(w.s, JwtKey(id)) || OrphanSecret(w.s, P2pKey(id)) || OrphanSet(w.s, id)
    ensures SameObject(w, Exec(w, [a]), id) && !ClaimsHold(Exec(w, [a]).s, id)
  {
    hide Exec, Generates, Dead, JwtKey, P2pKey;
    DerivedNames(id, id);
    if OrphanSecret(w.s, JwtKey(id)) {
      a := CollectSecret(JwtKey(id));
      CollectedSecret(w, JwtKey(id));
    } else if OrphanSecret(w.s, P2pKey(id)) {
      a := CollectSecret(P2pKey(id));
      CollectedSecret(w, P2pKey(id));
    } else {
      a := CollectSet(KeyOf(id));
      CollectedSet(w, id);
    }
  }

  lemma OrphanStays(acts: seq<Action>, more: seq<Action>, id: Id)
    requires id.kind.NodeKind?
    requires var w := Exec(START, acts); id in w.s.objs && HasOrphan(w.s, id) && NodeClaims(w.s, id, w.s.objs[id].uid)
    requires KeepsOwners(Exec(START, acts).s, Exec(Exec(START, acts), more).s, id)
    ensures var v := Exec(Exec(START, acts), more);
            OrphanSecret(v.s, JwtKey(id)) || OrphanSecret(v.s, P2pKey(id)) || OrphanSet(v.s, id)
  {
    hide Exec, NodeSpecError, DesiredSet, SecretsThere, Dead, OwnerOk;
    var w := Exec(START, acts);
    LineageAt(acts, id);
    forall u: nat | OwnerOk(w.s, id, u) && Dead(w.s, u) ensures Dead(Exec(w, more).s, u) {
      OwnerOld(w.s, id, u);
      DeadStays(acts, more, u);
    }
    OwnerOrDead(w.s, id, w.s.objs[id].uid);
  }

  lemma OwnerOld(s: State, id: Id, u: nat)
    requires OwnerOk(s, id, u)
    ensures u < s.next
  {
  }

  /** From every world of a run in which a live OpNode has an orphaned child there is a run to one where the claims of
      the same OpNode fail. */
  lemma OrphanBreaksNode(acts: seq<Action>, id: Id) returns (more: seq<Action>)
    requires var w := Exec(START, acts);
             id in w.s.objs && id.kind.NodeKind? && !w.s.objs[id].deleting && HasOrphan(w.s, id)
    ensures var w, v := Exec(START, acts), Exec(Exec(START, acts), more);
            SameObject(w, v, id) && !ClaimsHold(v.s, id)
  {
    hide Exec, NodeClaims, HasOrphan, OrphanSecret, OrphanSet, Generates;
    var w := Exec(START, acts);
    if !ClaimsHold(w.s, id) {
      more := [];
      assert Exec(w, []) == w by { NoMove(w); }
    } else {
      var first := Equipped(acts, id);
      OrphanStays(acts, first, id);
      var a := EquippedBreaks(Exec(w, first), id);
      more := first + [a];
      ExecConcat(w, first, [a]);
    }
  }

  /* ----- The same of a network ----- */

  ghost predicate ConfigOwnersKept(s: State, s': State) {
    forall k :: k in s.configs ==> k in s'.configs && s'.configs[k].owner == s.configs[k].owner
  }

  lemma ConfigOwnerKept(s: State, k: Key, owner: nat, data: ConfigData)
    ensures ConfigOwnersKept(s, WithConfig(s, k, owner, data))
  {
  }

  lemma ConfigsOwnersKept(s: State, id: Id, o: Object, n: OptimismNetworkSpec, a: Addresses)
    ensures ConfigOwnersKept(s, WithConfigs(s, id, o, n, a))
  {
    hide WithConfig, ConfigOf;
    var s1 := if AutoDiscovers(n.rollupConfig)
              then WithConfig(s, ConfigKey(true, id), o.uid, ConfigOf(true, n, a)) else s;
    ConfigOwnerKept(s, ConfigKey(true, id), o.uid, ConfigOf(true, n, a));
    ConfigOwnerKept(s1, ConfigKey(false, id), o.uid, ConfigOf(false, n, a));
  }

  lemma ReadyKeepsOwners(s: State, id: Id, xs: seq<Ext>)
    requires NetworkConvergence.Valid(s, id) && |xs| >= NETWORK_CALLS && Calm(xs) && xs[1].l1 && xs[2].found.Some?
    ensures ConfigOwnersKept(s, Alone(s, id, xs).0)
  {
    hide Alone, Convergence.Stored, NetworkSpecError, WithConfigs, Readied, Recorded, Dialled, CopiedStatus;
    var o, a := s.objs[id], xs[2].found.value;
    var o3 := Recorded(Dialled(o, xs[0], xs[1]), a, xs[2]);
    FromNetworkStart(s, id, xs);
    var s1 := WithConfigs(s, id, o3, o.spec.network, a);
    ConfigsOwnersKept(s, id, o3, o.spec.network, a);
    ConfigsThere(s, id, o3, o.spec.network, a);
    StoredKeeps(s1, id, CopiedStatus(id.kind, Readied(o3).status, s1.objs[id].status));
  }

  lemma RollupWritten(s: State, id: Id, o: Object, n: OptimismNetworkSpec, a: Addresses)
    requires AutoDiscovers(n.rollupConfig) && RollupKey(id) !in s.configs
    ensures var s1 := WithConfigs(s, id, o, n, a);
            RollupKey(id) in s1.configs && s1.configs[RollupKey(id)].owner == o.uid
  {
    hide WithConfig, ConfigOf, RollupKey;
    var s1 := WithConfig(s, RollupKey(id), o.uid, ConfigOf(true, n, a));
    FirstConfig(s, RollupKey(id), o.uid, ConfigOf(true, n, a));
    ConfigOwnerKept(s1, ConfigKey(false, id), o.uid, ConfigOf(false, n, a));
  }

  lemma FirstConfig(s: State, k: Key, owner: nat, data: ConfigData)
    requires k !in s.configs
    ensures var s1 := WithConfig(s, k, owner, data); k in s1.configs && s1.configs[k].owner == owner
  {
  }

  lemma RollupMade(s: State, id: Id, xs: seq<Ext>)
    requires NetworkConvergence.Valid(s, id) && |xs| >= NETWORK_CALLS && Calm(xs) && xs[1].l1 && xs[2].found.Some?
    requires AutoDiscovers(s.objs[id].spec.network.rollupConfig) && RollupKey(id) !in s.configs
    ensures var s' := Alone(s, id, xs).0;
            RollupKey(id) in s'.configs && s'.configs[RollupKey(id)].owner == s.objs[id].uid
  {
    hide Alone, Convergence.Stored, NetworkSpecError, WithConfigs, Readied, CopiedStatus, RollupKey, Mark;
    var o, a := s.objs[id], xs[2].found.value;
    var o3 := Recorded(Dialled(o, xs[0], xs[1]), a, xs[2]);
    RecordedSpec(Dialled(o, xs[0], xs[1]), a, xs[2]);
    DialledSpec(o, xs[0], xs[1]);
    FromNetworkStart(s, id, xs);
    var s1 := WithConfigs(s, id, o3, o.spec.network, a);
    RollupWritten(s, id, o3, o.spec.network, a);
    ConfigsThere(s, id, o3, o.spec.network, a);
    StoredKeeps(s1, id, CopiedStatus(id.kind, Readied(o3).status, s1.objs[id].status));
  }

  const AUTO := ConfigSource("", None, true)

  /** From every world a live network can be brought to one in which it is Ready with both ConfigMaps, and whoever owned
      a ConfigMap owns it still. */
  lemma Provided(w: World, id: Id) returns (more: seq<Action>)
    requires id in w.s.objs && id.kind.NetworkKind? && !w.s.objs[id].deleting
    ensures var v := Exec(w, more);
            && SameObject(w, v, id) && ConfigOwnersKept(w.s, v.s)
            && v.s.objs[id].status.phase.Ready? && v.s.objs[id].status.observedGeneration == v.s.objs[id].Generation()
            && v.s.objs[id].spec == NetworkSpec(Plain("", Some(AUTO)))
            && RollupThere(v.s, id, Plain("", Some(AUTO))) && GenesisThere(v.s, id, Plain("", Some(AUTO)))
  {
    hide Others, Alone, NetworkSpecError, RollupThere, GenesisThere, Conditions.IsTrue;
    var spec, fs := NetworkSpec(Plain("", Some(AUTO))), w.s.objs[id].finalizers + {Own(id.kind)};
    PlainValid("", Some(AUTO));
    var p := [Crash(id)] + [Edit(id, spec)] + [Finalizers(id, fs)];
    ThreeMoves(w, Crash(id), Edit(id, spec), Finalizers(id, fs));
    Edited(w.s, id, spec, fs);
    var v1 := Exec(w, p);
    var xs := Answers(NETWORK_CALLS, CALM.(found := Some(Discovery.NO_ADDRESSES)));
    NetworkBecomesReady(v1.s, id, xs);
    ReadyKeepsOwners(v1.s, id, xs);
    var k := AloneIsRun(v1, id, xs);
    more := p + Ticks(id, xs[..k]);
    ExecConcat(w, p, Ticks(id, xs[..k]));
  }

  lemma CollectedConfig(w: World, k: Key)
    requires OrphanConfig(w.s, k)
    ensures Exec(w, [CollectConfig(k)]).s == w.s.(configs := w.s.configs - {k})
  {
    OneMove(w, CollectConfig(k));
  }

  /** A network that says it is Ready and whose spec asks for an orphaned ConfigMap may lose it. */
  lemma ReadyBreaks(w: World, id: Id) returns (a: Action)
    requires id in w.s.objs && id.kind.NetworkKind? && SaysReady(w.s.objs[id])
    requires var n := w.s.objs[id].spec.network;
             || (AutoDiscovers(n.rollupConfig) && OrphanConfig(w.s, RollupKey(id)))
             || (AutoDiscovers(n.l2Genesis) && OrphanConfig(w.s, GenesisKey(id)))
    ensures SameObject(w, Exec(w, [a]), id) && !ClaimsHold(Exec(w, [a]).s, id)
  {
    hide Exec, Dead, RollupKey, GenesisKey, AutoDiscovers;
    var k := if AutoDiscovers(w.s.objs[id].spec.network.rollupConfig) && OrphanConfig(w.s, RollupKey(id))
             then RollupKey(id) else GenesisKey(id);
    a := CollectConfig(k);
    CollectedConfig(w, k);
  }

  lemma OrphanConfigStays(acts: seq<Action>, more: seq<Action>, id: Id)
    requires id.kind.NetworkKind?
    requires var w := Exec(START, acts);
             HasOrphan(w.s, id) && ConfigOwnersKept(w.s, Exec(w, more).s)
    ensures var v := Exec(Exec(START, acts), more); HasOrphan(v.s, id)
  {
    hide Exec, Dead, OwnerOk, RollupKey, GenesisKey;
    var w := Exec(START, acts);
    LineageAt(acts, id);
    forall u: nat | OwnerOk(w.s, id, u) && Dead(w.s, u) ensures Dead(Exec(w, more).s, u) {
      OwnerOld(w.s, id, u);
      DeadStays(acts, more, u);
    }
  }

  lemma OrphanBreaksNetwork(acts: seq<Action>, id: Id) returns (more: seq<Action>)
    requires var w := Exec(START, acts);
             id in w.s.objs && id.kind.NetworkKind? && !w.s.objs[id].deleting && HasOrphan(w.s, id)
    ensures var w, v := Exec(START, acts), Exec(Exec(START, acts), more);
            SameObject(w, v, id) && !ClaimsHold(v.s, id)
  {
    hide Exec, OrphanConfig, ClaimsHold, RollupThere, GenesisThere;
    var w := Exec(START, acts);
    var first := Provided(w, id);
    OrphanConfigStays(acts, first, id);
    var a := ReadyBreaks(Exec(w, first), id);
    more := first + [a];
    ExecConcat(w, first, [a]);
  }

  /* ----- Exactly when the claims are safe ----- */

  /** An orphan a claim can come to need: any, for an object that is reconciled; one a claim needs now, for an object
      that is being deleted. */
  ghost predicate Endangered(s: State, id: Id)
    requires id in s.objs
  {
    if !s.objs[id].deleting then HasOrphan(s, id)
    else match id.kind
         case NodeKind =>
           && KeyOf(id) in s.sets && KeyOf(id) in s.built
           && (OrphanSecret(s, JwtKey(id)) || (Generates(s.built[KeyOf(id)].spec) && OrphanSecret(s, P2pKey(id))))
         case NetworkKind =>
           && SaysReady(s.objs[id])
           && var n := s.objs[id].spec.network;
              || (AutoDiscovers(n.rollupConfig) && OrphanConfig(s, RollupKey(id)))
              || (AutoDiscovers(n.l2Genesis) && OrphanConfig(s, GenesisKey(id)))
  }

  /** The claims hold in this world and in every later one in which the object is still there. */
  ghost predicate ForLife(w: World, id: Id) {
    forall more :: SameObject(w, Exec(w, more), id) ==> ClaimsHold(Exec(w, more).s, id)
  }

  lemma DepartsWell(s: State, id: Id, t: Thread)
    requires id in s.objs && s.objs[id].deleting && Rested(t) && ChildrenLineage(s, id)
    requires ClaimsHold(s, id) && !Endangered(s, id)
    ensures Departing(s, id, t)
  {
    hide OwnerOk, Dead, DesiredSet, NodeSpecError, Generates, AutoDiscovers, JwtKey, P2pKey, KeyOf, RollupKey;
    hide GenesisKey;
    forall u: nat | OwnerOk(s, id, u) ensures Dead(s, u) <==> u != s.objs[id].uid {
      OwnerOrDead(s, id, u);
    }
  }

  lemma DepartingClaims(s: State, id: Id, t: Thread)
    requires id in s.objs && Departing(s, id, t)
    ensures ClaimsHold(s, id)
  {
    hide NodeClaims, NetworkClaims, Rested;
  }

  lemma EndangeredBreaks(acts: seq<Action>, id: Id) returns (more: seq<Action>)
    requires var w := Exec(START, acts); id in w.s.objs && Endangered(w.s, id)
    ensures var w, v := Exec(START, acts), Exec(Exec(START, acts), more);
            SameObject(w, v, id) && !ClaimsHold(v.s, id)
  {
    hide Exec, HasOrphan, ClaimsHold, OrphanSecret, OrphanConfig, Generates, AutoDiscovers;
    var w := Exec(START, acts);
    if !w.s.objs[id].deleting {
      if id.kind.NodeKind? {
        more := OrphanBreaksNode(acts, id);
      } else {
        more := OrphanBreaksNetwork(acts, id);
      }
    } else if id.kind.NodeKind? {
      var a := MountedBreaks(w, id);
      more := [a];
    } else {
      var a := ReadyBreaks(w, id);
      more := [a];
    }
  }

  lemma MountedBreaks(w: World, id: Id) returns (a: Action)
    requires id in w.s.objs && id.kind.NodeKind? && KeyOf(id) in w.s.sets && KeyOf(id) in w.s.built
    requires OrphanSecret(w.s, JwtKey(id)) || (Generates(w.s.built[KeyOf(id)].spec) && OrphanSecret(w.s, P2pKey(id)))
    ensures SameObject(w, Exec(w, [a]), id) && !ClaimsHold(Exec(w, [a]).s, id)
  {
    hide Exec, Generates, Dead, JwtKey, P2pKey;
    var k := if OrphanSecret(w.s, JwtKey(id)) then JwtKey(id) else P2pKey(id);
    a := CollectSecret(k);
    CollectedSecret(w, k);
  }

  lemma SafeForLife(acts: seq<Action>, more: seq<Action>, id: Id)
    requires var w := Exec(START, acts);
             && SameObject(w, Exec(w, more), id) && Rested(ThreadOf(w, id))
             && ClaimsHold(w.s, id) && !Endangered(w.s, id)
    ensures ClaimsHold(Exec(Exec(START, acts), more).s, id)
  {
    hide Exec, Inv, ClaimsHold, HasOrphan, ChildrenLineage, Rested, Departing;
    var w, v := Exec(START, acts), Exec(Exec(START, acts), more);
    if w.s.objs[id].deleting {
      Reachable(acts);
      LineageAt(acts, id);
      DepartsWell(w.s, id, ThreadOf(w, id));
      DepartsForLife(w, more, id);
      DepartingClaims(v.s, id, ThreadOf(v, id));
    } else {
      ClaimsForLife(acts, more, id);
    }
  }

  /** Exactly when the claims about children are safe.  In every world of a run, of every stored object at rest,
      however it came about: the claims hold for as long as it lives if and only if they hold now and no orphan
      endangers them. */
  lemma ClaimsAreSafeIff(acts: seq<Action>, id: Id)
    requires id in Exec(START, acts).s.objs && Rested(ThreadOf(Exec(START, acts), id))
    ensures ForLife(Exec(START, acts), id) <==>
            ClaimsHold(Exec(START, acts).s, id) && !Endangered(Exec(START, acts).s, id)
  {
    hide Exec, ClaimsHold, Endangered, Rested;
    var w := Exec(START, acts);
    if ForLife(w, id) {
      NoMove(w);
      assert SameObject(w, Exec(w, []), id);
      if Endangered(w.s, id) {
        var more := EndangeredBreaks(acts, id);
      }
    }
    if ClaimsHold(w.s, id) && !Endangered(w.s, id) {
      forall more | SameObject(w, Exec(w, more), id) ensures ClaimsHold(Exec(w, more).s, id) {
        SafeForLife(acts, more, id);
      }
    }
  }

  /* ----- What follows, claim by claim ----- */

  /** `v` is a later world of `w` with the same object, which was at rest, had the claims and was not endangered in
      `w`. */
  ghost predicate SafeSince(w: World, v: World, id: Id) {
    SameObject(w, v, id) && Rested(ThreadOf(w, id)) && ClaimsHold(w.s, id) && !Endangered(w.s, id)
  }

  /** The Secret volumes whose content the operator generates. */
  predicate OperatorMade(v: Volume, n: OpNodeSpec) {
    || v.name == "jwt-secret"
    || (v.name == "p2p-key" && n.opNode.p2p.Some? && n.opNode.p2p.value.privateKey.Some?
        && n.opNode.p2p.value.privateKey.value.generate)
  }

  /** The StatefulSet of a safe OpNode: each Secret of its template that the operator makes is in the store; and
      selector, pod labels and the Service's selector agree. */
  lemma ChildrenAgree(acts: seq<Action>, more: seq<Action>, id: Id)
    requires id.kind.NodeKind? && SafeSince(Exec(START, acts), Exec(Exec(START, acts), more), id)
    ensures var s := Exec(Exec(START, acts), more).s;
            KeyOf(id) in s.sets ==>
              && KeyOf(id) in s.built
              && var p, b := s.sets[KeyOf(id)].spec, s.built[KeyOf(id)];
              && (forall v :: v in p.volumes && OperatorMade(v, b.spec) ==>
                    v.source.FromSecret? && Key(id.ns, v.source.name) in s.secrets)
              && p.selector == p.podLabels
              && (KeyOf(id) in s.svcs ==> s.svcs[KeyOf(id)].spec.selector == p.selector)
  {
    hide Exec, Labels, Geth, Node, NodeSpecError, ClaimsHold, Endangered, Rested;
    SafeForLife(acts, more, id);
    ExecConcat(START, acts, more);
    SetsAreDesired(acts + more, id);
    var s := Exec(Exec(START, acts), more).s;
    NodeClaimsOf(s, id);
    if KeyOf(id) in s.sets {
      OperatorVolumes(s, id, s.built[KeyOf(id)].spec, s.built[KeyOf(id)].net);
    }
  }

  lemma NodeClaimsOf(s: State, id: Id)
    requires id in s.objs && id.kind.NodeKind? && ClaimsHold(s, id)
    ensures NodeClaims(s, id, s.objs[id].uid)
  {
  }

  lemma OperatorVolumes(s: State, id: Id, n: OpNodeSpec, net: Net)
    requires SecretsThere(s, id, n)
    ensures forall v :: v in DesiredSet(KeyOf(id), n, net).volumes && OperatorMade(v, n) ==>
              v.source.FromSecret? && Key(id.ns, v.source.name) in s.secrets
  {
    hide Labels, Geth, Node;
  }

  /** A Service of a safe OpNode never outlives or precedes its StatefulSet, and both are that OpNode's own. */
  lemma ServiceNeedsSet(acts: seq<Action>, more: seq<Action>, id: Id)
    requires id.kind.NodeKind? && SafeSince(Exec(START, acts), Exec(Exec(START, acts), more), id)
    ensures var s := Exec(Exec(START, acts), more).s;
            KeyOf(id) in s.svcs ==>
              KeyOf(id) in s.sets && s.svcs[KeyOf(id)].owner == s.sets[KeyOf(id)].owner == s.objs[id].uid
  {
    hide Exec, ClaimsHold, Endangered, Rested;
    SafeForLife(acts, more, id);
    NodeClaimsOf(Exec(Exec(START, acts), more).s, id);
  }

  /** The ConfigMaps a spec wants discovered are stored, with its chain IDs. */
  predicate ConfigMapsThere(s: State, id: Id, n: OptimismNetworkSpec) {
    var (r, g) := (Key(id.ns, id.name + "-rollup-config"), Key(id.ns, id.name + "-genesis"));
    && (n.rollupConfig.Some? && n.rollupConfig.value.autoDiscover ==>
          && r in s.configs && s.configs[r].data.RollupJson?
          && s.configs[r].data.l1ChainID == n.l1ChainID && s.configs[r].data.l2ChainID == n.chainID)
    && (n.l2Genesis.Some? && n.l2Genesis.value.autoDiscover ==>
          g in s.configs && s.configs[g].data == GenesisJson(n.chainID))
  }

  lemma ConfigMapsIn(s: State, id: Id, n: OptimismNetworkSpec)
    requires RollupThere(s, id, n) && GenesisThere(s, id, n)
    ensures ConfigMapsThere(s, id, n)
  {
  }

  /** In every run: a Ready network whose status observes the present generation has a valid spec, three True
      conditions, contracts on record, and, if it is safe, each ConfigMap its spec asks for. */
  lemma ReadyNetworkIsReady(acts: seq<Action>, more: seq<Action>, id: Id)
    ensures var w, v := Exec(START, acts), Exec(Exec(START, acts), more);
            id in v.s.objs && id.kind.NetworkKind? && v.s.objs[id].status.phase.Ready?
            && v.s.objs[id].status.observedGeneration == v.s.objs[id].Generation() ==>
              var o := v.s.objs[id];
              && o.spec.NetworkSpec? && NetworkSpecError(o.spec.network).None?
              && Conditions.IsTrue(o.status.conditions, ConfigurationValid)
              && Conditions.IsTrue(o.status.conditions, L1Connected)
              && Conditions.IsTrue(o.status.conditions, ContractsDiscovered)
              && o.status.networkInfo.Some? && o.status.networkInfo.value.contracts.Some?
              && (SafeSince(w, v, id) ==> ConfigMapsThere(v.s, id, o.spec.network))
  {
    hide Exec, Conditions.IsTrue, NetworkSpecError, RollupThere, GenesisThere, Endangered, Rested, ConfigMapsThere;
    var s := Exec(Exec(START, acts), more).s;
    ExecConcat(START, acts, more);
    ReadyIsTrue(acts + more, id);
    if SafeSince(Exec(START, acts), Exec(Exec(START, acts), more), id) {
      SafeForLife(acts, more, id);
      if id.kind.NetworkKind? && SaysReady(s.objs[id]) {
        ConfigMapsIn(s, id, s.objs[id].spec.network);
      }
    }
  }
}
