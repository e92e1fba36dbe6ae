/** Leftovers do occur, and they do harm: runs from the empty store. */
module Inheritance {
  import opened Types
  import Conditions
  import Invariants
  import opened Builders
  import opened Store
  import opened Machine
  import opened Safety
  import opened Lineage
  import opened Claims
  import opened Leftovers
  import opened Convergence
  import opened NetworkConvergence

  /* ----- An object leaves, its children stay, its name is taken again ----- */

  ghost predicate AtEase(w: World, id: Id) {
    && id in w.s.objs && Fits(id.kind, w.s.objs[id].spec) && !w.s.objs[id].deleting
    && w.s.objs[id].finalizers == {Own(id.kind)} && ThreadOf(w, id).Idle?
  }

  lemma MarkedDeleted(s: State, id: Id)
    requires id in s.objs && !s.objs[id].deleting && s.objs[id].finalizers == {Own(id.kind)}
    ensures Others(s, Delete(id)) == s.(objs := s.objs[id := s.objs[id].(deleting := true, rv := s.next)],
                                        next := s.next + 1)
  {
  }

  lemma Released(s: State, id: Id, t: Thread)
    requires id in s.objs && Fits(id.kind, s.objs[id].spec) && s.objs[id].deleting
    requires s.objs[id].finalizers == {Own(id.kind)} && t.Idle?
    ensures var t1 := Step(s, id, t, CALM).1;
            && Step(s, id, t, CALM).0 == s
            && Step(s, id, t1, CALM) == (s.(objs := s.objs - {id}, next := s.next + 1), Idle(Nothing))
  {
    hide NodeChecked, NetworkChecked, NodeWrite, NetworkWrite, NodeNext, NetworkNext;
    var o := s.objs[id];
    var o' := o.(finalizers := {});
    assert o.finalizers - {Own(id.kind)} == {};
    assert Step(s, id, t, CALM) == (s, Busy(PutFinalizer(Nothing), o'));
    assert o.WithSpec(o'.spec).(finalizers := o'.finalizers) == o';
  }

  /** The object is deleted, the operator lets it go, and somebody creates it again. */
  function Replace(id: Id, spec: Spec): seq<Action> {
    [Delete(id)] + [Tick(id, CALM)] + [Tick(id, CALM)] + [Create(id, spec, {Own(id.kind)})] + [Crash(id)]
  }

  lemma Gone(w: World, id: Id)
    requires AtEase(w, id)
    ensures Apply(Apply(Apply(w, Delete(id)), Tick(id, CALM)), Tick(id, CALM)).s ==
            w.s.(objs := w.s.objs - {id}, next := w.s.next + 2)
  {
    hide Step, Others;
    var w1 := Apply(w, Delete(id));
    MarkedDeleted(w.s, id);
    Released(w1.s, id, ThreadOf(w1, id));
  }

  lemma Replaced(w: World, id: Id, spec: Spec)
    requires AtEase(w, id) && Fits(id.kind, spec)
    ensures var v := Exec(w, Replace(id, spec));
            && AtEase(v, id) && v.s.objs[id].spec == spec
            && v.s == w.s.(objs := v.s.objs, heirs := v.s.heirs, next := v.s.next)
            && w.s.next <= v.s.objs[id].uid && v.s.objs == w.s.objs[id := v.s.objs[id]]
  {
    hide Step, Others, Fits;
    Gone(w, id);
    FiveMoves(w, Delete(id), Tick(id, CALM), Tick(id, CALM), Create(id, spec, {Own(id.kind)}), Crash(id));
    CreatedAgain(w.s.(objs := w.s.objs - {id}, next := w.s.next + 2), id, spec, {Own(id.kind)});
  }

  lemma CreatedAgain(s: State, id: Id, spec: Spec, fs: set<Finalizer>)
    requires id !in s.objs && Fits(id.kind, spec)
    ensures var s' := Others(s, Create(id, spec, fs));
            s' == s.(objs := s.objs[id := Object(s.next, s.next, [], spec, fs, false, EMPTY_STATUS)],
                     heirs := s'.heirs, next := s.next + 1)
  {
    hide Clean;
  }

  /** The UID of an object that is not there any more is that of no other. */
  lemma Bereaved(acts: seq<Action>, id: Id, v: World)
    requires var w := Exec(START, acts);
             && id in w.s.objs && id in v.s.objs && v.s.objs == w.s.objs[id := v.s.objs[id]]
             && w.s.next <= v.s.objs[id].uid
    ensures Dead(v.s, Exec(START, acts).s.objs[id].uid)
  {
    hide Exec, ChildrenLineage;
    LineageAt(acts, id);
  }

  /* ----- OpNodes ----- */

  /** An OpNode at rest whose JWT Secret, StatefulSet and Service are all orphans, made for another spec of that name.
      */
  ghost predicate Orphaned(s: State, id: Id, node: OpNodeSpec, net: Net) {
    && OrphanSecret(s, JwtKey(id)) && OrphanSet(s, id) && OrphanService(s, id)
    && s.sets[KeyOf(id)].spec == DesiredSet(KeyOf(id), node, net)
    && s.svcs[KeyOf(id)].spec.selector == Labels(KeyOf(id), node, net)
  }

  ghost predicate Stands(s: State, nid: Id, network: OptimismNetworkSpec) {
    nid in s.objs && s.objs[nid].spec == NetworkSpec(network) && s.objs[nid].status.phase.Ready?
  }

  ghost predicate Recreated(w: World, id: Id, spec: Spec) {
    AtEase(w, id) && w.s.objs[id].spec == spec
  }

  /** Orphans occur: for every valid OpNode spec with its network, and every spec to create it again with, there is a
      run to a stored OpNode at rest whose JWT Secret, StatefulSet and Service are all orphans. */
  lemma OrphansAreReachable(nid: Id, network: OptimismNetworkSpec, id: Id, node: OpNodeSpec, again: OpNodeSpec,
                            a: Addresses)
    returns (acts: seq<Action>)
    requires Belong(nid, network, id, node)
    ensures var w := Exec(START, acts);
            && Recreated(w, id, NodeSpec(again)) && Orphaned(w.s, id, node, Net(node.networkRef.name, network))
            && Stands(w.s, nid, network)
  {
    hide Exec, Dead, DesiredSet, Labels, NetworkSpecError, NodeSpecError, Agrees, Pipeline;
    var first := RunningIsReachable(nid, network, id, node, a);
    var w := Exec(START, first);
    var r := Replace(id, NodeSpec(again));
    Replaced(w, id, NodeSpec(again));
    Bereaved(first, id, Exec(w, r));
    acts := first + r;
    ExecConcat(START, first, r);
  }

  /** The collector takes the old Secret first: the new OpNode has a StatefulSet without the Secret that mounts. */
  lemma HeirsMayLackSecrets(nid: Id, network: OptimismNetworkSpec, id: Id, node: OpNodeSpec, again: OpNodeSpec,
                            a: Addresses)
    returns (acts: seq<Action>)
    requires Belong(nid, network, id, node)
    ensures var s := Exec(START, acts).s;
            id in s.objs && KeyOf(id) in s.sets && JwtKey(id) !in s.secrets
  {
    hide Exec, Dead, DesiredSet, Labels, NetworkSpecError, NodeSpecError;
    var first := OrphansAreReachable(nid, network, id, node, again, a);
    CollectedSecret(Exec(START, first), JwtKey(id));
    acts := first + [CollectSecret(JwtKey(id))];
    ExecConcat(START, first, [CollectSecret(JwtKey(id))]);
  }

  /** The collector takes the old StatefulSet first: there is a Service without a StatefulSet. */
  lemma HeirsMayLackSets(nid: Id, network: OptimismNetworkSpec, id: Id, node: OpNodeSpec, again: OpNodeSpec,
                         a: Addresses)
    returns (acts: seq<Action>)
    requires Belong(nid, network, id, node)
    ensures var w := Exec(START, acts);
            Recreated(w, id, NodeSpec(again)) && ServiceOnly(w.s, id) && Stands(w.s, nid, network)
            && w.s.svcs[KeyOf(id)].spec.selector == Labels(KeyOf(id), node, Net(node.networkRef.name, network))
  {
    hide Exec, Dead, DesiredSet, Labels, NetworkSpecError, NodeSpecError, KeyOf;
    var first := OrphansAreReachable(nid, network, id, node, again, a);
    CollectedSet(Exec(START, first), id);
    CollectedThread(Exec(START, first), id);
    acts := first + [CollectSet(KeyOf(id))];
    ExecConcat(START, first, [CollectSet(KeyOf(id))]);
  }

  ghost predicate ServiceOnly(s: State, id: Id) {
    KeyOf(id) in s.svcs && KeyOf(id) !in s.sets
  }

  /** An OpNode that is Running for its present spec, with a Service that does not select its pods. */
  ghost predicate Misrouted(s: State, id: Id) {
    && id in s.objs && s.objs[id].status.phase == Running
    && s.objs[id].status.observedGeneration == s.objs[id].Generation()
    && KeyOf(id) in s.sets && KeyOf(id) in s.svcs
    && s.svcs[KeyOf(id)].spec.selector != s.sets[KeyOf(id)].spec.selector
  }

  /** From there one undisturbed reconcile of the new OpNode, if its node type is another, ends in Running, with a
      Service that does not select its pods. */
  lemma HeirsMayMisroute(nid: Id, network: OptimismNetworkSpec, id: Id, node: OpNodeSpec, again: OpNodeSpec,
                         a: Addresses)
    returns (acts: seq<Action>)
    requires Belong(nid, network, id, node) && Belong(nid, network, id, again) && again.nodeType != node.nodeType
    ensures Misrouted(Exec(START, acts).s, id)
  {
    hide Exec, Dead, DesiredSet, Labels, NetworkSpecError, NodeSpecError, Alone, KeyOf;
    var net := Net(node.networkRef.name, network);
    var early := HeirsMayLackSets(nid, network, id, node, again, a);
    var v := Exec(START, early);
    var ys := Answers(CALLS, CALM);
    OtherServiceNeverSettles(v.s, id, net, ys);
    OtherLabels(KeyOf(id), node, again, net);
    var j := AloneIsRun(v, id, ys);
    acts := early + Ticks(id, ys[..j]);
    ExecConcat(START, early, Ticks(id, ys[..j]));
  }

  lemma CollectedThread(w: World, id: Id)
    ensures ThreadOf(Exec(w, [CollectSet(KeyOf(id))]), id) == ThreadOf(w, id)
  {
    OneMove(w, CollectSet(KeyOf(id)));
  }

  lemma OtherLabels(key: Key, n: OpNodeSpec, n': OpNodeSpec, net: Net)
    requires n.nodeType != n'.nodeType
    ensures Labels(key, n, net) != Labels(key, n', net)
  {
    assert Labels(key, n, net)["optimism.io/node-type"] == n.nodeType;
    assert Labels(key, n', net)["optimism.io/node-type"] == n'.nodeType;
  }

  /** The other obstacle: an undisturbed reconcile leaves the selector of a Service it finds as it is.  If that is
      another than the wanted one, the OpNode is Running and not settled, however often it is reconciled. */
  lemma OtherServiceNeverSettles(s: State, id: Id, net: Net, xs: seq<Ext>)
    requires Wanted(s, id, net) && NodeFinalizer in s.objs[id].finalizers && |xs| >= CALLS && Calm(xs)
    requires SetFits(s, id, s.objs[id].spec.node, net) && KeyOf(id) in s.svcs
    ensures var s' := Alone(s, id, xs).0;
            var o := s.objs[id];
            && id in s'.objs && s'.objs[id].status.phase == Running
            && s'.objs[id].status.observedGeneration == s'.objs[id].Generation()
            && KeyOf(id) in s'.sets && s'.sets[KeyOf(id)].spec.selector == Labels(KeyOf(id), o.spec.node, net)
            && KeyOf(id) in s'.svcs && s'.svcs[KeyOf(id)].spec.selector == s.svcs[KeyOf(id)].spec.selector
            && (!ServiceFits(s, id, o.spec.node, net) ==> !Settled(s', id, net) && s'.objs[id].spec == o.spec)
  {
    hide Alone, Convergence.Stored, WithSecrets, WithSet, WithService, NodeSpecError, NodeInfoOf;
    hide Conditions.SetAll, Labels, KeyOf, SetFits, Agrees, Pipeline, SetDesired, DesiredSet;
    var o := s.objs[id];
    var n := o.spec.node;
    var jwt, p2p, t := FromStart(s, id, net, xs);
    var s1 := WithSecrets(s, id, o, n, jwt, p2p);
    SecretsKept(s, id, o, n, jwt, p2p);
    SetFitsBySets(s, s1, id, n, net);
    SetKept(s1, id, o, n, net);
    SetSelects(s1, id, o, n, net);
    SelectorStays(WithSet(s1, id, o, n, net), id, o, n, net);
    StoredKeeps(WithChildren(s, id, o, n, net, jwt, p2p), id, Target(o, t));
    ChildrenOf(s, id, o, o, n, net, jwt, p2p);
  }

  lemma SetSelects(s: State, id: Id, o: Object, n: OpNodeSpec, net: Net)
    requires SetFits(s, id, n, net)
    ensures var s1 := WithSet(s, id, o, n, net);
            KeyOf(id) in s1.sets && s1.sets[KeyOf(id)].spec.selector == Labels(KeyOf(id), n, net)
  {
    hide DesiredSet, Labels, KeyOf, SetFits, WithSet;
    SetAsDesired(s, id, o, n, net);
    DesiredSelector(id, n, net);
  }

  lemma SelectorStays(s: State, id: Id, o: Object, n: OpNodeSpec, net: Net)
    requires KeyOf(id) in s.svcs
    ensures var s1 := WithService(s, id, o, n, net);
            && s1 == s.(svcs := s1.svcs, next := s1.next)
            && KeyOf(id) in s1.svcs && s1.svcs[KeyOf(id)].spec.selector == s.svcs[KeyOf(id)].spec.selector
  {
    hide Labels, DesiredService, KeyOf;
  }

  /* ----- Networks ----- */

  /** Orphaned ConfigMaps occur: for every valid network spec that discovers its rollup configuration there is a run
      to a stored network at rest, created again with that spec, whose rollup ConfigMap is an orphan. */
  lemma OrphanConfigsAreReachable(id: Id, network: OptimismNetworkSpec, a: Addresses) returns (acts: seq<Action>)
    requires id.kind.NetworkKind? && NetworkSpecError(network).None? && AutoDiscovers(network.rollupConfig)
    ensures var w := Exec(START, acts);
            Recreated(w, id, NetworkSpec(network)) && OrphanConfig(w.s, RollupKey(id))
  {
    hide Exec, Dead, NetworkSpecError, Alone, Conditions.IsTrue, Invariants.RollupThere;
    hide Invariants.GenesisThere, RollupKey;
    var b := Create(id, NetworkSpec(network), {NetworkFinalizer});
    var w1 := Exec(START, [b]);
    OneMove(START, b);
    CreatedAgain(START.s, id, NetworkSpec(network), {NetworkFinalizer});
    var xs := Answers(NETWORK_CALLS, CALM.(found := Some(a)));
    NetworkBecomesReady(w1.s, id, xs);
    RollupMade(w1.s, id, xs);
    var k := AloneIsRun(w1, id, xs);
    var first := [b] + Ticks(id, xs[..k]);
    ExecConcat(START, [b], Ticks(id, xs[..k]));
    var w2 := Exec(START, first);
    var r := Replace(id, NetworkSpec(network));
    Replaced(w2, id, NetworkSpec(network));
    Bereaved(first, id, Exec(w2, r));
    acts := first + r;
    ExecConcat(START, first, r);
  }

  /** A network that says it is Ready for the spec it has and lacks a ConfigMap this spec asks for. */
  ghost predicate ReadyWithout(s: State, id: Id) {
    && id in s.objs && s.objs[id].status.phase.Ready? && s.objs[id].spec.NetworkSpec?
    && s.objs[id].status.observedGeneration == s.objs[id].Generation()
    && var n := s.objs[id].spec.network;
       !(Invariants.RollupThere(s, id, n) && Invariants.GenesisThere(s, id, n))
  }

  /** There is a run to a network, created again, that says it is Ready for the spec it has and lacks a ConfigMap this
      spec asks for. */
  lemma HeirsMayLackConfigs(id: Id, network: OptimismNetworkSpec, a: Addresses) returns (acts: seq<Action>)
    requires id.kind.NetworkKind? && NetworkSpecError(network).None? && AutoDiscovers(network.rollupConfig)
    ensures ReadyWithout(Exec(START, acts).s, id)
  {
    hide Exec, OrphanConfig, NetworkSpecError, Invariants.RollupThere, Invariants.GenesisThere;
    var first := OrphanConfigsAreReachable(id, network, a);
    var more := OrphanBreaksNetwork(first, id);
    acts := first + more;
    ExecConcat(START, first, more);
  }
}
