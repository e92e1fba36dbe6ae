/** Convergence: undisturbed and fault-free, a valid OpNode with a Ready network reaches Running with the children it
    asks for, and reconciling again changes nothing but transition times. */
module Convergence {
  import opened Types
  import opened Conditions
  import opened Builders
  import opened Store
  import opened Machine
  import opened Steps
  import opened Invariants
  import opened Safety

  /** The rest of a reconcile nobody interleaves with. */
  function Finish(s: State, id: Id, t: Thread, xs: seq<Ext>): (State, Thread)
    decreases |xs|
  {
    if t.Idle? || xs == [] then (s, t)
    else
      var (s', t') := Step(s, id, t, xs[0]);
      Finish(s', id, t', xs[1..])
  }

  /** One whole reconcile alone. */
  function Alone(s: State, id: Id, xs: seq<Ext>): (State, Thread)
    requires xs != []
  {
    var (s', t') := Step(s, id, Idle(Nothing), xs[0]);
    Finish(s', id, t', xs[1..])
  }

  predicate Calm(xs: seq<Ext>) {
    forall i :: 0 <= i < |xs| ==> xs[i].fault.NoFault?
  }

  /** The twelve calls of the longest reconcile without conflicts. */
  const CALLS := 12

  lemma OneStep(s: State, id: Id, t: Thread, xs: seq<Ext>)
    requires t.Busy? && xs != [] && Calm(xs)
    ensures Finish(s, id, t, xs) == Finish(Step(s, id, t, xs[0]).0, id, Step(s, id, t, xs[0]).1, xs[1..])
    ensures Calm(xs[1..]) && xs[0].fault.NoFault?
  {
    hide Step;
  }

  /* ----- The stages, last first ----- */

  function Stored(s: State, id: Id, st: Status): State
    requires id in s.objs
  {
    Commit(s, id, s.objs[id].(status := st))
  }

  lemma FromStatus(s: State, id: Id, o: Object, good: Outcome, bad: Outcome, xs: seq<Ext>)
    requires id in s.objs && |xs| >= 2 && Calm(xs)
    ensures Finish(s, id, WriteStatus(o, good, bad), xs) ==
            (Stored(s, id, CopiedStatus(id.kind, o.status, s.objs[id].status)), Idle(good))
  {
    hide CopiedStatus, Commit;
    OneStep(s, id, WriteStatus(o, good, bad), xs);
    OneStep(s, id, Busy(StatusPut(RETRIES, good, bad, s.objs[id]), o), xs[1..]);
  }

  /** Writing a status changes the status and the resource version of one object. */
  lemma StoredKeeps(s: State, id: Id, st: Status)
    requires id in s.objs && !s.objs[id].deleting
    ensures var s' := Stored(s, id, st);
            && id in s'.objs && s'.objs[id] == s.objs[id].(status := st, rv := s'.objs[id].rv)
            && s' == s.(objs := s.objs[id := s'.objs[id]], next := s'.next)
  {
  }

  /** The states after the Service calls, the StatefulSet calls and the Secret calls have gone well. */
  function WithService(s: State, id: Id, o: Object, n: OpNodeSpec, net: Net): State {
    if KeyOf(id) in s.svcs then UpdateService(s, KeyOf(id), EditedService(id, s.svcs[KeyOf(id)], n, net), NoFault).0
    else CreateService(s, KeyOf(id), NewServiceOf(id, o, n, net), NoFault).0
  }

  function WithSet(s: State, id: Id, o: Object, n: OpNodeSpec, net: Net): State {
    if KeyOf(id) in s.sets then
      UpdateSet(s, KeyOf(id), EditedSet(id, s.sets[KeyOf(id)], n, net), Built(n, net), NoFault).0
    else CreateSet(s, KeyOf(id), NewSetOf(id, o, n, net), Built(n, net), NoFault).0
  }

  function WithSecret(s: State, k: Key, v: Secret): State {
    CreateSecret(s, k, v, NoFault).0
  }

  lemma FromService(s: State, id: Id, o: Object, net: Net, xs: seq<Ext>) returns (x: Ext)
    requires id in s.objs && o.spec.NodeSpec? && |xs| >= 4 && Calm(xs)
    ensures var s1 := WithService(s, id, o, o.spec.node, net);
            && id in s1.objs && SvcDone(o, x).Busy?
            && Finish(s, id, Busy(GetSvc(net), o), xs) ==
               (Stored(s1, id, CopiedStatus(id.kind, SvcDone(o, x).obj.status, s1.objs[id].status)), Idle(After(5)))
  {
    hide CopiedStatus, Commit, EditedService, NewServiceOf, Mark, NodeInfoOf, Step, Finish, Stored;
    OneStep(s, id, Busy(GetSvc(net), o), xs);
    ServiceGetStep(s, id, net, o, xs[0]);
    ServiceNewStep(s, id, net, o, xs[1]);
    if KeyOf(id) in s.svcs {
      ServicePutStep(s, id, net, s.svcs[KeyOf(id)], o, xs[1]);
    }
    var t := if KeyOf(id) in s.svcs then Busy(PutSvc(net, s.svcs[KeyOf(id)]), o) else Busy(NewSvc(net), o);
    assert Step(s, id, Busy(GetSvc(net), o), xs[0]) == (s, t);
    OneStep(s, id, t, xs[1..]);
    x := xs[1];
    var s1 := WithService(s, id, o, o.spec.node, net);
    EditedKeepsRv(id, o.spec.node, net);
    assert Step(s, id, t, x) == (s1, SvcDone(o, x));
    FromStatus(s1, id, SvcDone(o, x).obj, After(5), After(5), xs[2..]);
    assert xs[1..][1..] == xs[2..];
  }

  lemma EditedKeepsRv(id: Id, n: OpNodeSpec, net: Net)
    ensures forall cur: Service :: EditedService(id, cur, n, net).rv == cur.rv
  {
  }

  /** The StatefulSet is absent, or the API takes the update to the wanted one. */
  predicate SetFits(s: State, id: Id, n: OpNodeSpec, net: Net) {
    KeyOf(id) in s.sets ==> Replaceable(s.sets[KeyOf(id)].spec, DesiredSet(KeyOf(id), n, net))
  }

  function SetMark(o: Object, y: Ext): Object {
    Mark(o, StatefulSetReady, True, "StatefulSetReconciled", "StatefulSet is ready", y.now)
  }

  function SecretsMark(o: Object, z: Ext): Object {
    Mark(o, SecretsReady, True, "SecretsReconciled", "All required secrets are ready", z.now)
  }

  lemma FromSet(s: State, id: Id, o: Object, net: Net, xs: seq<Ext>) returns (y: Ext, x: Ext)
    requires id in s.objs && o.spec.NodeSpec? && |xs| >= 6 && Calm(xs) && SetFits(s, id, o.spec.node, net)
    ensures var s1 := WithSet(s, id, o, o.spec.node, net);
            var s2 := WithService(s1, id, o, o.spec.node, net);
            && id in s2.objs && SvcDone(SetMark(o, y), x).Busy?
            && Finish(s, id, Busy(GetSet(net), o), xs) ==
               (Stored(s2, id, CopiedStatus(id.kind, SvcDone(SetMark(o, y), x).obj.status, s2.objs[id].status)),
                Idle(After(5)))
  {
    hide CopiedStatus, Commit, DesiredSet, Labels, Mark, SvcDone, Step, Finish, Stored, WithService;
    OneStep(s, id, Busy(GetSet(net), o), xs);
    SetGetStep(s, id, net, o, xs[0]);
    SetNewStep(s, id, net, o, xs[1]);
    if KeyOf(id) in s.sets {
      SetPutStep(s, id, net, s.sets[KeyOf(id)], o, xs[1]);
    }
    var t := if KeyOf(id) in s.sets then Busy(PutSet(net, s.sets[KeyOf(id)]), o) else Busy(NewSet(net), o);
    assert Step(s, id, Busy(GetSet(net), o), xs[0]) == (s, t);
    OneStep(s, id, t, xs[1..]);
    y := xs[1];
    var s1 := WithSet(s, id, o, o.spec.node, net);
    DesiredSelector(id, o.spec.node, net);
    assert Step(s, id, t, y) == (s1, Busy(GetSvc(net), SetMark(o, y)));
    assert xs[1..][1..] == xs[2..];
    Marked(o, StatefulSetReady, True, "StatefulSetReconciled", "StatefulSet is ready", y.now);
    x := FromService(s1, id, SetMark(o, y), net, xs[2..]);
    SameOwner(s1, id, o, SetMark(o, y), o.spec.node, net);
  }

  lemma DesiredSelector(id: Id, n: OpNodeSpec, net: Net)
    ensures DesiredSet(KeyOf(id), n, net).selector == Labels(KeyOf(id), n, net)
  {
  }

  lemma Marked(o: Object, c: ConditionType, st: ConditionStatus, reason: string, message: string, now: int)
    ensures var o' := Mark(o, c, st, reason, message, now);
            o'.spec == o.spec && o'.uid == o.uid && o'.past == o.past
  {
  }

  lemma SameOwner(s: State, id: Id, o: Object, o': Object, n: OpNodeSpec, net: Net)
    requires o.uid == o'.uid
    ensures WithService(s, id, o, n, net) == WithService(s, id, o', n, net)
    ensures WithSet(s, id, o, n, net) == WithSet(s, id, o', n, net)
  {
  }

  function WithSecrets(s: State, id: Id, o: Object, n: OpNodeSpec, jwt: string, p2p: string): State {
    var s1 := WithSecret(s, JwtKey(id), NewJwtOf(o, jwt));
    if Generates(n) then WithSecret(s1, P2pKey(id), NewP2pOf(o, p2p)) else s1
  }

  /** The object as the last stages leave it. */
  function Final(o: Object, z: Ext, y: Ext, x: Ext): Status {
    SvcDone(SetMark(SecretsMark(o, z), y), x).obj.status
  }

  /** The children of a finished reconcile. */
  function WithChildren(s: State, id: Id, o: Object, n: OpNodeSpec, net: Net, jwt: string, p2p: string): State {
    WithService(WithSet(WithSecrets(s, id, o, n, jwt, p2p), id, o, n, net), id, o, n, net)
  }

  lemma P2pToSet(s: State, id: Id, o: Object, net: Net, xs: seq<Ext>) returns (p2p: string, z: Ext, rest: seq<Ext>)
    requires o.spec.NodeSpec? && |xs| >= 8 && Calm(xs)
    ensures |rest| >= 6 && Calm(rest)
    ensures Finish(s, id, Busy(GetP2p(net), o), xs) ==
            Finish(WithSecret(s, P2pKey(id), NewP2pOf(o, p2p)), id, Busy(GetSet(net), SecretsMark(o, z)), rest)
  {
    hide Mark, Fetched, NetworkWrite, NetworkNext;
    OneStep(s, id, Busy(GetP2p(net), o), xs);
    z, p2p, rest := xs[0], "", xs[1..];
    if P2pKey(id) !in s.secrets {
      assert Step(s, id, Busy(GetP2p(net), o), z) == (s, Busy(NewP2p(net), o));
      OneStep(s, id, Busy(NewP2p(net), o), rest);
      z, p2p, rest := xs[1], xs[1].key, rest[1..];
      assert Step(s, id, Busy(NewP2p(net), o), z) ==
             (WithSecret(s, P2pKey(id), NewP2pOf(o, p2p)), Busy(GetSet(net), SecretsMark(o, z)));
    } else {
      assert Step(s, id, Busy(GetP2p(net), o), z) == (s, Busy(GetSet(net), SecretsMark(o, z)));
    }
  }

  lemma JwtToSet(s: State, id: Id, o: Object, net: Net, xs: seq<Ext>)
    returns (jwt: string, p2p: string, z: Ext, rest: seq<Ext>)
    requires o.spec.NodeSpec? && |xs| >= 10 && Calm(xs)
    ensures |rest| >= 6 && Calm(rest)
    ensures Finish(s, id, Busy(GetJwt(net), o), xs) ==
            Finish(WithSecrets(s, id, o, o.spec.node, jwt, p2p), id, Busy(GetSet(net), SecretsMark(o, z)), rest)
  {
    hide Mark, Fetched, NetworkWrite, NetworkNext;
    var n := o.spec.node;
    OneStep(s, id, Busy(GetJwt(net), o), xs);
    var s1 := s;
    z, jwt, p2p, rest := xs[0], "", "", xs[1..];
    if JwtKey(id) !in s.secrets {
      assert Step(s, id, Busy(GetJwt(net), o), z) == (s, Busy(NewJwt(net), o));
      OneStep(s, id, Busy(NewJwt(net), o), rest);
      z, jwt, rest := xs[1], xs[1].key, rest[1..];
      s1 := WithSecret(s, JwtKey(id), NewJwtOf(o, jwt));
      assert Step(s, id, Busy(NewJwt(net), o), z) == (s1, JwtDone(net, o, n, z));
    } else {
      assert Step(s, id, Busy(GetJwt(net), o), z) == (s, JwtDone(net, o, n, z));
    }
    if Generates(n) {
      p2p, z, rest := P2pToSet(s1, id, o, net, rest);
    }
  }

  /* ----- The whole reconcile ----- */

  /** A live OpNode with a valid spec whose network is Ready. */
  predicate Wanted(s: State, id: Id, net: Net) {
    && id.kind.NodeKind? && id in s.objs && s.objs[id].spec.NodeSpec? && !s.objs[id].deleting
    && NodeSpecError(s.objs[id].spec.node).None?
    && var nid := Machine.NetworkId(id, s.objs[id].spec.node);
       && nid in s.objs && s.objs[nid].spec.NetworkSpec? && s.objs[nid].status.phase.Ready?
       && net == Net(s.objs[id].spec.node.networkRef.name, s.objs[nid].spec.network)
  }

  /** The condition updates of a pipeline that goes well, at the given times. */
  function Pipeline(t: seq<int>): (us: seq<Update>)
    requires |t| == 6
    ensures |us| == 6
  {
    [Update(ConfigurationValid, True, "ValidConfiguration", "OpNode configuration is valid", t[0]),
     Update(NetworkReference, True, "NetworkFound", "OptimismNetwork reference resolved successfully", t[1]),
     Update(ConditionType.NetworkReady, True, "NetworkReady", "OptimismNetwork is ready", t[2]),
     Update(SecretsReady, True, "SecretsReconciled", "All required secrets are ready", t[3]),
     Update(StatefulSetReady, True, "StatefulSetReconciled", "StatefulSet is ready", t[4]),
     Update(ServiceReady, True, "ServiceReconciled", "Service is ready", t[5])]
  }

  function Target(o: Object, t: seq<int>): Status
    requires |t| == 6
  {
    Status(Running, SetAll(o.status.conditions, Pipeline(t)), o.Generation(), Some(NodeInfoOf(o.status.nodeInfo)),
           o.status.networkInfo)
  }

  /** The working copy when the Secrets are next. */
  function Initialized(o: Object, x0: Ext, x1: Ext): Object {
    var o1 := Mark(o, ConfigurationValid, True, "ValidConfiguration", "OpNode configuration is valid", x0.now);
    var o2 := Mark(o1, NetworkReference, True, "NetworkFound", "OptimismNetwork reference resolved successfully",
                   x1.now);
    InPhase(Mark(o2, ConditionType.NetworkReady, True, "NetworkReady", "OptimismNetwork is ready", x1.later),
            Initializing)
  }

  lemma SetSix(cs: seq<Condition>, t: seq<int>)
    requires |t| == 6
    ensures var us := Pipeline(t);
            SetAll(cs, us) == Set(Set(Set(Set(Set(Set(cs, us[0]), us[1]), us[2]), us[3]), us[4]), us[5])
  {
    hide Set;
    var us := Pipeline(t);
    var c3 := Set(Set(Set(cs, us[0]), us[1]), us[2]);
    assert us[1..][1..][1..] == [us[3]] + ([us[4]] + [us[5]]);
    SetAllCons(c3, us[3], [us[4]] + [us[5]]);
    SetAllCons(Set(c3, us[3]), us[4], [us[5]]);
    SetAllCons(Set(Set(c3, us[3]), us[4]), us[5], []);
    assert [us[5]] + [] == [us[5]];
    SetAllThree(cs, us);
  }

  lemma SetAllCons(cs: seq<Condition>, u: Update, rest: seq<Update>)
    ensures SetAll(cs, [u] + rest) == SetAll(Set(cs, u), rest)
  {
    hide Set;
    assert ([u] + rest)[1..] == rest;
  }

  lemma SetAllThree(cs: seq<Condition>, us: seq<Update>)
    requires |us| >= 3
    ensures SetAll(cs, us) == SetAll(Set(Set(Set(cs, us[0]), us[1]), us[2]), us[1..][1..][1..])
  {
    hide Set;
    assert SetAll(cs, us) == SetAll(Set(cs, us[0]), us[1..]);
    assert SetAll(Set(cs, us[0]), us[1..]) == SetAll(Set(Set(cs, us[0]), us[1]), us[1..][1..]);
  }

  lemma FinalIsTarget(o: Object, x0: Ext, x1: Ext, z: Ext, y: Ext, x: Ext)
    ensures CopiedStatus(NodeKind, Final(Initialized(o, x0, x1), z, y, x), o.status) ==
            Target(o, [x0.now, x1.now, x1.later, z.now, y.now, x.now])
  {
    hide Set, SetAll, NodeInfoOf;
    SetSix(o.status.conditions, [x0.now, x1.now, x1.later, z.now, y.now, x.now]);
  }

  lemma StartToSet(s: State, id: Id, net: Net, xs: seq<Ext>)
    returns (jwt: string, p2p: string, z: Ext, rest: seq<Ext>)
    requires Wanted(s, id, net) && NodeFinalizer in s.objs[id].finalizers && |xs| >= CALLS && Calm(xs)
    ensures |rest| >= 6 && Calm(rest)
    ensures var o := s.objs[id];
            Alone(s, id, xs) ==
            Finish(WithSecrets(s, id, o, o.spec.node, jwt, p2p), id,
                   Busy(GetSet(net), SecretsMark(Initialized(o, xs[0], xs[1]), z)), rest)
  {
    hide Mark, NodeSpecError, NetworkWrite, NetworkNext;
    var o := s.objs[id];
    var o1 := Mark(o, ConfigurationValid, True, "ValidConfiguration", "OpNode configuration is valid", xs[0].now);
    var o3 := Initialized(o, xs[0], xs[1]);
    InitializedSpec(o, xs[0], xs[1]);
    assert Step(s, id, Idle(Nothing), xs[0]) == (s, Busy(GetNetwork, o1));
    assert Calm(xs[1..]);
    OneStep(s, id, Busy(GetNetwork, o1), xs[1..]);
    assert xs[1..][1..] == xs[2..];
    assert Step(s, id, Busy(GetNetwork, o1), xs[1]) == (s, Busy(GetJwt(net), o3));
    jwt, p2p, z, rest := JwtToSet(s, id, o3, net, xs[2..]);
  }

  lemma SecretsMarkKeeps(o: Object, z: Ext)
    ensures SecretsMark(o, z).spec == o.spec && SecretsMark(o, z).uid == o.uid
  {
  }

  lemma SecretsKeep(s: State, id: Id, o: Object, n: OpNodeSpec, net: Net, jwt: string, p2p: string)
    ensures var s1 := WithSecrets(s, id, o, n, jwt, p2p);
            && s1.sets == s.sets && s1.svcs == s.svcs && s1.objs == s.objs
            && (SetFits(s1, id, n, net) <==> SetFits(s, id, n, net))
  {
    hide JwtKey, P2pKey, WithSecret, SetFits;
    SecretKeeps(s, JwtKey(id), NewJwtOf(o, jwt));
    SecretKeeps(WithSecret(s, JwtKey(id), NewJwtOf(o, jwt)), P2pKey(id), NewP2pOf(o, p2p));
    SetFitsBySets(s, WithSecrets(s, id, o, n, jwt, p2p), id, n, net);
  }

  lemma SecretKeeps(s: State, k: Key, v: Secret)
    ensures var s1 := WithSecret(s, k, v);
            s1 == s.(secrets := s1.secrets) && k in s1.secrets && forall j :: j in s.secrets ==> j in s1.secrets
  {
  }

  lemma SetFitsBySets(s: State, s': State, id: Id, n: OpNodeSpec, net: Net)
    requires s.sets == s'.sets
    ensures SetFits(s, id, n, net) <==> SetFits(s', id, n, net)
  {
    hide Replaceable, DesiredSet;
  }

  /** The outcome of a reconcile that meets no obstacle. */
  lemma FromStart(s: State, id: Id, net: Net, xs: seq<Ext>) returns (jwt: string, p2p: string, t: seq<int>)
    requires Wanted(s, id, net) && NodeFinalizer in s.objs[id].finalizers
    requires SetFits(s, id, s.objs[id].spec.node, net) && |xs| >= CALLS && Calm(xs)
    ensures |t| == 6
    ensures var o := s.objs[id];
            var s3 := WithChildren(s, id, o, o.spec.node, net, jwt, p2p);
            id in s3.objs && Alone(s, id, xs) == (Stored(s3, id, Target(o, t)), Idle(After(5)))
  {
    hide CopiedStatus, Stored, SvcDone, Target, NodeSpecError, Step, Finish, Alone, WithSet, WithService, WithSecrets;
    hide Initialized, SecretsMark, SetMark, SetFits;
    var o := s.objs[id];
    var z, rest;
    jwt, p2p, z, rest := StartToSet(s, id, net, xs);
    var s1 := WithSecrets(s, id, o, o.spec.node, jwt, p2p);
    var o4 := SecretsMark(Initialized(o, xs[0], xs[1]), z);
    InitializedSpec(o, xs[0], xs[1]);
    SecretsMarkKeeps(Initialized(o, xs[0], xs[1]), z);
    SecretsKeep(s, id, o, o.spec.node, net, jwt, p2p);
    var y, x := FromSet(s1, id, o4, net, rest);
    t := [xs[0].now, xs[1].now, xs[1].later, z.now, y.now, x.now];
    FinalIsTarget(o, xs[0], xs[1], z, y, x);
    ChildrenOf(s, id, o, o4, o.spec.node, net, jwt, p2p);
  }

  lemma InitializedSpec(o: Object, x0: Ext, x1: Ext)
    ensures var o1 := Mark(o, ConfigurationValid, True, "ValidConfiguration", "OpNode configuration is valid", x0.now);
            o1.spec == o.spec
    ensures Initialized(o, x0, x1).spec == o.spec && Initialized(o, x0, x1).uid == o.uid
  {
  }

  /** The children depend on the owner's UID only, and no object changes. */
  lemma ChildrenOf(s: State, id: Id, o: Object, o': Object, n: OpNodeSpec, net: Net, jwt: string, p2p: string)
    requires o.uid == o'.uid
    ensures WithService(WithSet(WithSecrets(s, id, o, n, jwt, p2p), id, o', n, net), id, o', n, net) ==
            WithChildren(s, id, o, n, net, jwt, p2p)
    ensures WithChildren(s, id, o, n, net, jwt, p2p).objs == s.objs
  {
    hide WithSet, WithService;
    SameOwner(WithSecrets(s, id, o, n, jwt, p2p), id, o, o', n, net);
    SameOwner(WithSet(WithSecrets(s, id, o, n, jwt, p2p), id, o, n, net), id, o, o', n, net);
    ChildrenKeepObjects(WithSecrets(s, id, o, n, jwt, p2p), id, o, n, net);
    ChildrenKeepObjects(WithSet(WithSecrets(s, id, o, n, jwt, p2p), id, o, n, net), id, o, n, net);
  }

  lemma ChildrenKeepObjects(s: State, id: Id, o: Object, n: OpNodeSpec, net: Net)
    ensures WithSet(s, id, o, n, net).objs == s.objs && WithService(s, id, o, n, net).objs == s.objs
  {
    SetKeepsObjects(s, id, o, n, net);
    ServiceKeepsObjects(s, id, o, n, net);
  }

  lemma SetKeepsObjects(s: State, id: Id, o: Object, n: OpNodeSpec, net: Net)
    ensures WithSet(s, id, o, n, net).objs == s.objs
  {
    hide EditedSet, NewSetOf, Replaceable;
  }

  lemma ServiceKeepsObjects(s: State, id: Id, o: Object, n: OpNodeSpec, net: Net)
    ensures WithService(s, id, o, n, net).objs == s.objs
  {
    hide EditedService, NewServiceOf;
  }

  /* ----- Convergence ----- */

  /** The condition already says what the update says, whatever the time. */
  predicate Agrees(cs: seq<Condition>, u: Update) {
    var c := Get(cs, u.ctype);
    c.Some? && c.value.status == u.status && c.value.reason == u.reason && c.value.message == u.message
  }

  predicate SetDesired(v: StatefulSet, id: Id, n: OpNodeSpec, net: Net) {
    && v.spec == DesiredSet(KeyOf(id), n, net)
    && v.labels == Labels(KeyOf(id), n, net) && v.annotations == map[]
  }

  predicate ServiceDesired(v: Service, id: Id, n: OpNodeSpec, net: Net) {
    && v.spec == DesiredService(KeyOf(id), n, net)
    && v.labels == Labels(KeyOf(id), n, net) && v.annotations == ServiceAnnotations(n)
  }

  /** The children and the status an OpNode asks for. */
  ghost predicate Settled(s: State, id: Id, net: Net) {
    && Wanted(s, id, net) && NodeFinalizer in s.objs[id].finalizers
    && var o := s.objs[id];
       var n := o.spec.node;
       && SecretsThere(s, id, n)
       && KeyOf(id) in s.sets && KeyOf(id) in s.svcs
       && SetDesired(s.sets[KeyOf(id)], id, n, net) && ServiceDesired(s.svcs[KeyOf(id)], id, n, net)
       && o.status.phase == Running && o.status.observedGeneration == o.Generation()
       && o.status.nodeInfo == Some(NodeInfoOf(o.status.nodeInfo))
       && forall i :: 0 <= i < 6 ==> Agrees(o.status.conditions, Pipeline([0, 0, 0, 0, 0, 0])[i])
  }

  predicate ServiceFits(s: State, id: Id, n: OpNodeSpec, net: Net) {
    KeyOf(id) in s.svcs ==> s.svcs[KeyOf(id)].spec.selector == Labels(KeyOf(id), n, net)
  }

  lemma ChildrenAsDesired(s: State, id: Id, o: Object, n: OpNodeSpec, net: Net, jwt: string, p2p: string)
    requires SetFits(s, id, n, net) && ServiceFits(s, id, n, net)
    ensures var s3 := WithChildren(s, id, o, n, net, jwt, p2p);
            && SecretsThere(s3, id, n)
            && KeyOf(id) in s3.sets && SetDesired(s3.sets[KeyOf(id)], id, n, net)
            && KeyOf(id) in s3.svcs && ServiceDesired(s3.svcs[KeyOf(id)], id, n, net)
  {
    hide WithSet, WithService, WithSecrets, SetDesired, ServiceDesired, DesiredSet, Labels;
    var s1 := WithSecrets(s, id, o, n, jwt, p2p);
    SecretsAsDesired(s, id, o, n, jwt, p2p);
    SetAsDesired(s1, id, o, n, net);
    ServiceAsDesired(WithSet(s1, id, o, n, net), id, o, n, net);
  }

  lemma SecretsAsDesired(s: State, id: Id, o: Object, n: OpNodeSpec, jwt: string, p2p: string)
    ensures var s1 := WithSecrets(s, id, o, n, jwt, p2p);
            s1.sets == s.sets && s1.svcs == s.svcs && s1.objs == s.objs && SecretsThere(s1, id, n)
  {
    hide JwtKey, P2pKey, WithSecret;
    SecretKeeps(s, JwtKey(id), NewJwtOf(o, jwt));
    SecretKeeps(WithSecret(s, JwtKey(id), NewJwtOf(o, jwt)), P2pKey(id), NewP2pOf(o, p2p));
  }

  lemma SetAsDesired(s: State, id: Id, o: Object, n: OpNodeSpec, net: Net)
    requires SetFits(s, id, n, net)
    ensures var s1 := WithSet(s, id, o, n, net);
            && s1.secrets == s.secrets && s1.svcs == s.svcs
            && KeyOf(id) in s1.sets && SetDesired(s1.sets[KeyOf(id)], id, n, net)
  {
    hide DesiredSet, Labels, EditedSet, NewSetOf, ReplaceSet, SetDesired;
    var k, b := KeyOf(id), Built(n, net);
    if k in s.sets {
      EditedSetDesired(id, s.sets[k], n, net);
      ReplacedDesired(s, id, EditedSet(id, s.sets[k], n, net), n, net);
    } else {
      NewSetDesired(id, o, n, net);
      ReplacedDesired(s, id, NewSetOf(id, o, n, net), n, net);
    }
  }

  lemma EditedSetDesired(id: Id, cur: StatefulSet, n: OpNodeSpec, net: Net)
    ensures var v := EditedSet(id, cur, n, net);
            SetDesired(v, id, n, net) && v.rv == cur.rv && v.spec == DesiredSet(KeyOf(id), n, net)
  {
    hide DesiredSet, Labels;
  }

  lemma NewSetDesired(id: Id, o: Object, n: OpNodeSpec, net: Net)
    ensures SetDesired(NewSetOf(id, o, n, net), id, n, net)
  {
    hide DesiredSet, Labels;
  }

  lemma ReplacedDesired(s: State, id: Id, v: StatefulSet, n: OpNodeSpec, net: Net)
    requires SetDesired(v, id, n, net)
    ensures var s1 := ReplaceSet(s, KeyOf(id), v, Built(n, net));
            && s1.secrets == s.secrets && s1.svcs == s.svcs
            && KeyOf(id) in s1.sets && SetDesired(s1.sets[KeyOf(id)], id, n, net)
  {
    hide DesiredSet, Labels;
  }

  lemma ServiceAsDesired(s: State, id: Id, o: Object, n: OpNodeSpec, net: Net)
    requires ServiceFits(s, id, n, net)
    ensures var s1 := WithService(s, id, o, n, net);
            && s1.secrets == s.secrets && s1.sets == s.sets
            && KeyOf(id) in s1.svcs && ServiceDesired(s1.svcs[KeyOf(id)], id, n, net)
  {
    hide EditedService, NewServiceOf, ServiceDesired, Labels;
    if KeyOf(id) in s.svcs {
      EditedServiceDesired(id, s.svcs[KeyOf(id)], n, net);
    } else {
      NewServiceDesired(id, o, n, net);
    }
    forall v: Service, rv: nat | ServiceDesired(v, id, n, net) ensures ServiceDesired(v.(rv := rv), id, n, net) {
      ServiceVersion(v, rv, id, n, net);
    }
  }

  lemma EditedServiceDesired(id: Id, cur: Service, n: OpNodeSpec, net: Net)
    requires cur.spec.selector == Labels(KeyOf(id), n, net)
    ensures var v := EditedService(id, cur, n, net);
            ServiceDesired(v, id, n, net) && v.rv == cur.rv
  {
    hide Labels, Ports;
  }

  lemma NewServiceDesired(id: Id, o: Object, n: OpNodeSpec, net: Net)
    ensures ServiceDesired(NewServiceOf(id, o, n, net), id, n, net)
  {
    hide Labels, Ports;
  }

  lemma ServiceVersion(v: Service, rv: nat, id: Id, n: OpNodeSpec, net: Net)
    requires ServiceDesired(v, id, n, net)
    ensures ServiceDesired(v.(rv := rv), id, n, net)
  {
    hide Labels, DesiredService;
  }

  /** The six updates are of different types, so each of them is the last of its type. */
  lemma PipelineAgrees(cs: seq<Condition>, t: seq<int>, i: nat)
    requires |t| == 6 && i < 6
    ensures Agrees(SetAll(cs, Pipeline(t)), Pipeline([0, 0, 0, 0, 0, 0])[i])
  {
    var us := Pipeline(t);
    LastOfSix(us, i);
    LastWriteWins(cs, us, us[i].ctype);
  }

  lemma LastOfSix(us: seq<Update>, i: nat)
    requires i < |us| && forall j :: i < j < |us| ==> us[j].ctype != us[i].ctype
    ensures LastTo(us, us[i].ctype) == Some(us[i])
    decreases |us|
  {
    if i < |us| - 1 {
      LastOfSix(us[..|us| - 1], i);
    }
  }

  /** One undisturbed reconcile of an OpNode that has its finalizer settles it. */
  lemma OneReconcileSettles(s: State, id: Id, net: Net, xs: seq<Ext>)
    requires Wanted(s, id, net) && NodeFinalizer in s.objs[id].finalizers
    requires SetFits(s, id, s.objs[id].spec.node, net) && ServiceFits(s, id, s.objs[id].spec.node, net)
    requires |xs| >= CALLS && Calm(xs)
    ensures Alone(s, id, xs).1 == Idle(After(5)) && Settled(Alone(s, id, xs).0, id, net)
  {
    hide Finish, Alone, Step, Stored, WithChildren, DesiredSet, DesiredService, Labels, NodeSpecError, Pipeline;
    hide SetAll, Agrees, NodeInfoOf;
    var o := s.objs[id];
    NodeInfoIdempotent(o.status.nodeInfo);
    var jwt, p2p, t := FromStart(s, id, net, xs);
    ChildrenOf(s, id, o, o, o.spec.node, net, jwt, p2p);
    StoredKeeps(WithChildren(s, id, o, o.spec.node, net, jwt, p2p), id, Target(o, t));
    ChildrenAsDesired(s, id, o, o.spec.node, net, jwt, p2p);
    forall i | 0 <= i < 6 ensures Agrees(SetAll(o.status.conditions, Pipeline(t)), Pipeline([0, 0, 0, 0, 0, 0])[i]) {
      PipelineAgrees(o.status.conditions, t, i);
    }
  }

  lemma NodeInfoIdempotent(i: Option<NodeInfo>)
    ensures NodeInfoOf(Some(NodeInfoOf(i))) == NodeInfoOf(i)
  {
  }

  /** Without the finalizer, the first reconcile does nothing but add it. */
  lemma FirstReconcileAddsFinalizer(s: State, id: Id, net: Net, xs: seq<Ext>)
    requires Wanted(s, id, net) && NodeFinalizer !in s.objs[id].finalizers && |xs| >= CALLS && Calm(xs)
    ensures var (s', t') := Alone(s, id, xs);
            && t' == Idle(Requeue)
            && s' == s.(objs := s'.objs, next := s.next + 1)
            && s'.objs == s.objs[id := s.objs[id].(finalizers := s.objs[id].finalizers + {NodeFinalizer}, rv := s.next)]
            && Wanted(s', id, net)
  {
    hide NodeSpecError, NodeWrite, NodeNext, NetworkWrite, NetworkNext, NodeChecked;
    var o := s.objs[id].(finalizers := s.objs[id].finalizers + {NodeFinalizer});
    var t := Busy(PutFinalizer(Requeue), o);
    assert Step(s, id, Idle(Nothing), xs[0]) == (s, t);
    OneStep(s, id, t, xs[1..]);
    assert s.objs[id].WithSpec(o.spec).(finalizers := o.finalizers) == o;
  }

  /** Convergence.  In every reachable state, a live OpNode with a valid spec and a Ready network, whose StatefulSet is
      absent or can be updated to the wanted one, and the same of a Service it inherited, is settled after at most two
      undisturbed reconciles; the second is needed exactly when the finalizer is not there yet. */
  lemma Converges(acts: seq<Action>, id: Id, net: Net, xs: seq<Ext>, ys: seq<Ext>)
    requires var s := Exec(START, acts).s;
             && Wanted(s, id, net) && SetFits(s, id, s.objs[id].spec.node, net)
             && (id in s.heirs ==> ServiceFits(s, id, s.objs[id].spec.node, net))
    requires |xs| >= CALLS && Calm(xs) && |ys| >= CALLS && Calm(ys)
    ensures var s := Exec(START, acts).s;
            var (s1, t1) := Alone(s, id, xs);
            if NodeFinalizer in s.objs[id].finalizers then t1 == Idle(After(5)) && Settled(s1, id, net)
            else t1 == Idle(Requeue) && Alone(s1, id, ys).1 == Idle(After(5)) && Settled(Alone(s1, id, ys).0, id, net)
  {
    hide Exec, Alone, Settled, NodeSpecError, DesiredSet, Labels;
    var s := Exec(START, acts).s;
    var n := s.objs[id].spec.node;
    LocalAt(acts, id);
    DesiredSelector(id, n, net);
    assert ServiceFits(s, id, n, net);
    if NodeFinalizer in s.objs[id].finalizers {
      OneReconcileSettles(s, id, net, xs);
    } else {
      FirstReconcileAddsFinalizer(s, id, net, xs);
      OneReconcileSettles(Alone(s, id, xs).0, id, net, ys);
    }
  }

  /* ----- Fixpoint ----- */

  function Timeless(cs: seq<Condition>): (r: seq<Condition>)
    ensures |r| == |cs|
  {
    seq(|cs|, i requires 0 <= i < |cs| => cs[i].(lastTransition := 0))
  }

  /** An update that says what the list says moves a time and nothing else. */
  lemma {:induction false} SetAgreeing(cs: seq<Condition>, u: Update)
    requires Agrees(cs, u)
    ensures Timeless(Set(cs, u)) == Timeless(cs)
  {
    if cs[0].ctype == u.ctype {
    } else {
      SetAgreeing(cs[1..], u);
      var rest := Set(cs[1..], u);
      assert |rest| == |Timeless(rest)| == |cs| - 1;
      forall i | 0 <= i < |cs| ensures Timeless(Set(cs, u))[i] == Timeless(cs)[i] {
        if i > 0 {
          assert Timeless(rest)[i - 1] == Timeless(cs[1..])[i - 1];
        }
      }
    }
  }

  lemma {:induction false} SetAllAgreeing(cs: seq<Condition>, us: seq<Update>)
    requires forall i :: 0 <= i < |us| ==> Agrees(cs, us[i])
    requires Distinct(UpdateTypes(us))
    ensures Timeless(SetAll(cs, us)) == Timeless(cs)
    decreases |us|
  {
    if us != [] {
      hide Set, Timeless;
      SetAgreeing(cs, us[0]);
      var cs' := Set(cs, us[0]);
      var rest := us[1..];
      forall i | 0 <= i < |rest| ensures Agrees(cs', rest[i]) {
        assert UpdateTypes(us)[i + 1] != UpdateTypes(us)[0];
        assert rest[i] == us[i + 1];
        GetAfterSet(cs, us[0], rest[i].ctype);
      }
      assert UpdateTypes(rest) == UpdateTypes(us)[1..];
      SetAllAgreeing(cs', rest);
    }
  }

  function UpdateTypes(us: seq<Update>): seq<ConditionType> {
    seq(|us|, i requires 0 <= i < |us| => us[i].ctype)
  }

  lemma SettledChildrenStay(s: State, id: Id, net: Net, jwt: string, p2p: string)
    requires Settled(s, id, net)
    ensures var o := s.objs[id];
            && WithChildren(s, id, o, o.spec.node, net, jwt, p2p) ==
               s.(built := s.built[KeyOf(id) := Built(o.spec.node, net)])
            && SetFits(s, id, o.spec.node, net) && ServiceFits(s, id, o.spec.node, net)
  {
    hide DesiredSet, Labels, Ports, NodeSpecError, Pipeline, Agrees, NodeInfoOf;
    var o := s.objs[id];
    DesiredSelector(id, o.spec.node, net);
  }

  /** Fixpoint.  From a settled state a reconcile changes the transition times of the conditions and the object's
      resource version, and nothing else in the store. */
  lemma ReconcilingAgainChangesOnlyTimes(s: State, id: Id, net: Net, xs: seq<Ext>)
    requires Settled(s, id, net) && |xs| >= CALLS && Calm(xs)
    ensures var (s', t') := Alone(s, id, xs);
            var o := s.objs[id];
            && t' == Idle(After(5)) && Settled(s', id, net) && id in s'.objs
            && var o' := s'.objs[id];
               && s' == s.(objs := s.objs[id := o'], built := s.built[KeyOf(id) := Built(o.spec.node, net)],
                           next := s'.next)
               && o' == o.(rv := o'.rv, status := o.status.(conditions := o'.status.conditions))
               && Timeless(o'.status.conditions) == Timeless(o.status.conditions)
  {
    hide Finish, Alone, Step, WithChildren, NodeSpecError, Pipeline, SetAll, NodeInfoOf, Timeless, SetFits, ServiceFits;
    var o := s.objs[id];
    SettledChildrenStay(s, id, net, "", "");
    OneReconcileSettles(s, id, net, xs);
    var jwt, p2p, t := FromStart(s, id, net, xs);
    SettledChildrenStay(s, id, net, jwt, p2p);
    PipelineTypes(o.status.conditions, t);
    SetAllAgreeing(o.status.conditions, Pipeline(t));
  }

  lemma PipelineTypes(cs: seq<Condition>, t: seq<int>)
    requires |t| == 6 && forall i :: 0 <= i < 6 ==> Agrees(cs, Pipeline([0, 0, 0, 0, 0, 0])[i])
    ensures Distinct(UpdateTypes(Pipeline(t)))
    ensures forall i :: 0 <= i < 6 ==> Agrees(cs, Pipeline(t)[i])
  {
    hide Get;
    forall i | 0 <= i < 6 ensures Agrees(cs, Pipeline(t)[i]) {
      assert Agrees(cs, Pipeline([0, 0, 0, 0, 0, 0])[i]);
    }
  }

  /* ----- The one obstacle ----- */

  lemma FromRefusedSet(s: State, id: Id, o: Object, net: Net, xs: seq<Ext>) returns (x: Ext)
    requires id in s.objs && o.spec.NodeSpec? && |xs| >= 4 && Calm(xs) && !SetFits(s, id, o.spec.node, net)
    ensures SetFailed(o, x).Busy?
    ensures Finish(s, id, Busy(GetSet(net), o), xs) ==
            (Stored(s, id, CopiedStatus(id.kind, SetFailed(o, x).obj.status, s.objs[id].status)), Idle(After(2)))
  {
    hide CopiedStatus, Commit, DesiredSet, Labels, Mark, Step, Finish, Stored;
    OneStep(s, id, Busy(GetSet(net), o), xs);
    SetGetStep(s, id, net, o, xs[0]);
    SetPutStep(s, id, net, s.sets[KeyOf(id)], o, xs[1]);
    var t := Busy(PutSet(net, s.sets[KeyOf(id)]), o);
    assert Step(s, id, Busy(GetSet(net), o), xs[0]) == (s, t);
    OneStep(s, id, t, xs[1..]);
    x := xs[1];
    DesiredSelector(id, o.spec.node, net);
    assert Step(s, id, t, x) == (s, SetFailed(o, x));
    assert xs[1..][1..] == xs[2..];
    FromStatus(s, id, SetFailed(o, x).obj, After(2), After(2), xs[2..]);
  }

  /** A StatefulSet with another selector or other claim templates, left from another network name, node type or
      storage, is rejected by the API on every reconcile: the OpNode goes to Error, neither child is touched, and so
      the obstacle stays. */
  lemma OtherSetNeverSettles(s: State, id: Id, net: Net, xs: seq<Ext>)
    requires Wanted(s, id, net) && NodeFinalizer in s.objs[id].finalizers
    requires !SetFits(s, id, s.objs[id].spec.node, net) && |xs| >= CALLS && Calm(xs)
    ensures var (s', t') := Alone(s, id, xs);
            && t' == Idle(After(2)) && s'.sets == s.sets && s'.svcs == s.svcs
            && Wanted(s', id, net) && !SetFits(s', id, s'.objs[id].spec.node, net)
            && s'.objs[id].status.phase.Error? && !IsTrue(s'.objs[id].status.conditions, StatefulSetReady)
            && !Settled(s', id, net)
  {
    hide Step, Finish, Alone, Stored, Mark, NodeSpecError, Labels, DesiredSet, DesiredService, Pipeline, Agrees;
    hide IsTrue, NodeInfoOf;
    hide Initialized, SecretsMark, WithSecrets, SetFits, SetDesired, ServiceDesired;
    var o := s.objs[id];
    var jwt, p2p, z, rest := StartToSet(s, id, net, xs);
    var s1 := WithSecrets(s, id, o, o.spec.node, jwt, p2p);
    var o4 := SecretsMark(Initialized(o, xs[0], xs[1]), z);
    InitializedSpec(o, xs[0], xs[1]);
    SecretsMarkKeeps(Initialized(o, xs[0], xs[1]), z);
    SecretsKeep(s, id, o, o.spec.node, net, jwt, p2p);
    var x := FromRefusedSet(s1, id, o4, net, rest);
    MarkedFalse(o4, StatefulSetReady, "StatefulSetReconciliationFailed", x.text, x.now);
    StoredKeeps(s1, id, CopiedStatus(id.kind, SetFailed(o4, x).obj.status, s1.objs[id].status));
    SetFitsBySets(s, Alone(s, id, xs).0, id, o.spec.node, net);
  }

  lemma MarkedFalse(o: Object, c: ConditionType, reason: string, message: string, now: int)
    ensures !IsTrue(Mark(o, c, False, reason, message, now).status.conditions, c)
  {
    GetAfterSet(o.status.conditions, Update(c, False, reason, message, now), c);
  }

  /* ----- Alone is a run ----- */

  function Ticks(id: Id, xs: seq<Ext>): seq<Action> {
    seq(|xs|, i requires 0 <= i < |xs| => Tick(id, xs[i]))
  }

  /** A reconcile alone is a run in which only this thread moves. */
  lemma {:induction false} FinishIsRun(w: World, id: Id, xs: seq<Ext>) returns (k: nat)
    ensures k <= |xs|
    ensures var (s', t') := Finish(w.s, id, ThreadOf(w, id), xs);
            var w' := Exec(w, Ticks(id, xs[..k]));
            w'.s == s' && ThreadOf(w', id) == t'
    decreases |xs|
  {
    hide Step;
    if ThreadOf(w, id).Idle? || xs == [] {
      k := 0;
      assert Ticks(id, xs[..0]) == [];
    } else {
      var w1 := Apply(w, Tick(id, xs[0]));
      var j := FinishIsRun(w1, id, xs[1..]);
      k := j + 1;
      var a := [Tick(id, xs[0])];
      assert Ticks(id, xs[..k]) == a + Ticks(id, xs[1..][..j]);
      assert a[..|a| - 1] == [];
      assert Exec(w, a) == w1;
      ExecConcat(w, a, Ticks(id, xs[1..][..j]));
    }
  }

  /** How the last reconcile ended plays no part in the next. */
  lemma StartsAlike(s: State, id: Id, t: Thread, x: Ext)
    requires t.Idle?
    ensures Step(s, id, t, x) == Step(s, id, Idle(Nothing), x)
  {
  }

  lemma AloneIsRun(w: World, id: Id, xs: seq<Ext>) returns (k: nat)
    requires xs != [] && ThreadOf(w, id).Idle?
    ensures k <= |xs|
    ensures var (s', t') := Alone(w.s, id, xs);
            var w' := Exec(w, Ticks(id, xs[..k]));
            w'.s == s' && ThreadOf(w', id) == t'
  {
    hide Step, Finish;
    StartsAlike(w.s, id, ThreadOf(w, id), xs[0]);
    var w1 := Apply(w, Tick(id, xs[0]));
    var j := FinishIsRun(w1, id, xs[1..]);
    k := j + 1;
    var a := [Tick(id, xs[0])];
    assert Ticks(id, xs[..k]) == a + Ticks(id, xs[1..][..j]);
    assert a[..|a| - 1] == [];
    assert Exec(w, a) == w1;
    ExecConcat(w, a, Ticks(id, xs[1..][..j]));
  }
}
