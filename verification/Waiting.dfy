/** An OpNode runs only after its network was Ready: an invariant about what the store has held so far. */
module Waiting {
  import opened Types
  import opened Conditions
  import opened Store
  import opened Machine
  import opened Steps
  import opened Invariants
  import opened Preservation
  import opened Runs
  import opened Safety
  import Lineage
  import Departure

  predicate StoredReady(s: State, nid: Id) {
    nid in s.objs && s.objs[nid].spec.NetworkSpec? && s.objs[nid].status.phase == Ready
  }

  /** The network that a spec of `id` refers to is stored, and Ready. */
  predicate ReadyNow(s: State, id: Id, n: OpNodeSpec) {
    StoredReady(s, Machine.NetworkId(id, n))
  }

  ghost predicate WasReady(acts: seq<Action>, id: Id, n: OpNodeSpec) {
    exists k :: 0 <= k <= |acts| && ReadyNow(Exec(START, acts[..k]).s, id, n)
  }

  /** The reconcile is past the network check, or about to write Running. */
  predicate Past(t: Thread) {
    t.Busy? &&
    match t.pc
    case PutFinalizer(_) => false
    case GetNetwork => false
    case StatusGet(_, _, _) => t.obj.status.phase == Running
    case StatusPut(_, _, _, _) => t.obj.status.phase == Running
    case _ => true
  }

  /** The spec that a Running status speaks of is one of `r`. */
  ghost predicate RunsOn(o: Object, r: iset<OpNodeSpec>) {
    o.status.phase == Running ==>
      var g := o.status.observedGeneration;
      1 <= g <= o.Generation() && o.History()[g - 1].NodeSpec? && o.History()[g - 1].node in r
  }

  /** The same of the stored object and of the reconcile at work. */
  ghost predicate Waited(s: State, id: Id, t: Thread, r: iset<OpNodeSpec>) {
    && (id in s.objs ==> RunsOn(s.objs[id], r))
    && (Past(t) ==> t.obj.spec.NodeSpec? && t.obj.spec.node in r)
  }

  /* ----- Micro-steps ----- */

  lemma FetchedIsNotPast(s: State, id: Id, x: Ext)
    requires id.kind.NodeKind?
    ensures !Past(Fetched(id, Lookup(s.objs, id, x.fault), x))
  {
    hide Mark, NodeSpecError;
  }

  lemma NetworkPast(o: Object, name: string, r: Reply<Object>, x: Ext)
    ensures var t := NetworkFetched(o, name, r, x);
            && t.Busy? && t.obj.spec == o.spec
            && (Past(t) ==> r.Got? && r.value.spec.NetworkSpec? && r.value.status.phase == Ready)
  {
    hide Set;
  }

  lemma StagesKeep(o: Object, x: Ext)
    ensures StageSpec(o, SecretsFailed(o, x)) && StageSpec(o, SetFailed(o, x)) && StageSpec(o, SvcFailed(o, x))
    ensures StageSpec(o, SvcDone(o, x))
    ensures forall net :: StageSpec(o, SecretsDone(net, o, x)) && StageSpec(o, SetDone(net, o, x))
  {
    hide Set, NodeInfoOf;
  }

  predicate StageSpec(o: Object, t: Thread) {
    t.Busy? && t.obj.spec == o.spec
  }

  /** Past the network check a reconcile keeps the spec it started from. */
  lemma ChildSpec(s: State, id: Id, pc: Pc, o: Object, n: OpNodeSpec, x: Ext, a: Ack)
    requires !pc.GetNetwork?
    ensures var t := NodeNext(s, id, pc, o, n, x, a); t.Busy? ==> t.obj.spec == o.spec
  {
    hide SecretsFailed, SetFailed, SvcFailed, SvcDone, SecretsDone, SetDone, Generates;
    StagesKeep(o, x);
  }

  lemma ThreadWaits(s: State, id: Id, t: Thread, x: Ext, r: iset<OpNodeSpec>)
    requires id.kind.NodeKind? && ThreadOk(s, id, t) && Waited(s, id, t, r)
    requires forall n :: ReadyNow(s, id, n) ==> n in r
    ensures var t' := Step(s, id, t, x).1; Past(t') ==> t'.obj.spec.NodeSpec? && t'.obj.spec.node in r
  {
    hide Stage, Live, FinalizerOnly, Write, NodeNext, Fetched, NetworkFetched, RunsOn;
    if t.Idle? {
      FetchedIsNotPast(s, id, x);
    } else if !t.pc.PutFinalizer? {
      LiveFits(s, id, t.obj);
      if t.pc.GetNetwork? {
        FetchesNetwork(s, id, t.obj, x);
        NetworkPast(t.obj, t.obj.spec.node.networkRef.name,
                    Lookup(s.objs, Machine.NetworkId(id, t.obj.spec.node), x.fault), x);
      } else if !t.pc.StatusGet? && !t.pc.StatusPut? {
        ChildSpec(s, id, t.pc, t.obj, t.obj.spec.node, x, Write(s, id, t, x).1);
      }
    }
  }

  lemma CommitRuns(s: State, id: Id, o: Object, r: iset<OpNodeSpec>)
    requires id in s.objs && RunsOn(o, r)
    ensures id in Commit(s, id, o).objs ==> RunsOn(Commit(s, id, o).objs[id], r)
  {
    hide Commit;
    if id in Commit(s, id, o).objs {
      Departure.CommitStores(s, id, o, id);
    }
  }

  lemma StatusRuns(s: State, id: Id, o: Object, latest: Object, r: iset<OpNodeSpec>)
    requires id.kind.NodeKind? && Live(s, id, o) && o.spec.NodeSpec?
    requires o.status.observedGeneration == o.Generation() && (o.status.phase == Running ==> o.spec.node in r)
    ensures RunsOn(s.objs[id].(status := CopiedStatus(NodeKind, o.status, latest.status)), r)
  {
    var h, h' := o.History(), s.objs[id].History();
    assert h[|h| - 1] == o.spec;
    assert h' [|h| - 1] == h[|h| - 1];
  }

  lemma PutObserves(s: State, id: Id, t: Thread)
    requires id.kind.NodeKind? && ThreadOk(s, id, t) && t.Busy? && t.pc.StatusPut?
    ensures Live(s, id, t.obj) && t.obj.status.observedGeneration == t.obj.Generation()
  {
    hide Live, StatusOk;
  }

  lemma ObjectWaits(s: State, id: Id, t: Thread, x: Ext, r: iset<OpNodeSpec>)
    requires id.kind.NodeKind? && ThreadOk(s, id, t) && Waited(s, id, t, r)
    ensures var s' := Step(s, id, t, x).0; id in s'.objs ==> RunsOn(s'.objs[id], r)
  {
    hide Step, ThreadOk, Commit, RunsOn, CopiedStatus;
    OperatorWrites(s, id, t, x);
    if id in s.objs {
      var o := s.objs[id];
      var o' := o.(finalizers := if o.deleting then o.finalizers - {Own(id.kind)} else o.finalizers + {Own(id.kind)});
      assert RunsOn(o', r) by { FinalizerRuns(o, o'.finalizers, r); }
      CommitRuns(s, id, o', r);
      if t.Busy? && t.pc.StatusPut? {
        PutObserves(s, id, t);
        LiveFits(s, id, t.obj);
        StatusRuns(s, id, t.obj, t.pc.latest, r);
        CommitRuns(s, id, o.(status := CopiedStatus(id.kind, t.obj.status, t.pc.latest.status)), r);
      }
    }
  }

  lemma FinalizerRuns(o: Object, fs: set<Finalizer>, r: iset<OpNodeSpec>)
    ensures RunsOn(o.(finalizers := fs), r) <==> RunsOn(o, r)
  {
  }

  /* ----- Moves of the others ----- */

  lemma LaterRuns(o: Object, o': Object, r: iset<OpNodeSpec>)
    requires Departure.Later(o, o') && RunsOn(o, r)
    ensures RunsOn(o', r)
  {
  }

  lemma OthersWait(s: State, a: Action, id: Id, t: Thread, r: iset<OpNodeSpec>)
    requires Waited(s, id, t, r)
    ensures Waited(Others(s, a), id, t, r)
  {
    hide Others, RunsOn, Past, Departure.Later;
    if OfObject(a) {
      if id in Others(s, a).objs {
        if id in s.objs {
          Departure.EditsKeep(s, a, id);
          LaterRuns(s.objs[id], Others(s, a).objs[id], r);
        } else {
          Lineage.OthersUids(s, a, id);
          NewRuns(s, a, r);
        }
      }
    } else {
      Lineage.OtherMoveObjects(s, a);
    }
  }

  lemma NewRuns(s: State, a: Action, r: iset<OpNodeSpec>)
    requires a.Create? && a.id !in s.objs && a.id in Others(s, a).objs
    ensures RunsOn(Others(s, a).objs[a.id], r)
  {
    hide Clean;
  }

  lemma Grows(s: State, id: Id, t: Thread, r: iset<OpNodeSpec>, r': iset<OpNodeSpec>)
    requires Waited(s, id, t, r) && r <= r'
    ensures Waited(s, id, t, r')
  {
  }

  /* ----- Runs ----- */

  ghost function Seen(acts: seq<Action>, id: Id): iset<OpNodeSpec> {
    iset n | WasReady(acts, id, n)
  }

  lemma SeenGrows(acts: seq<Action>, id: Id)
    requires acts != []
    ensures Seen(acts[..|acts| - 1], id) <= Seen(acts, id)
  {
    hide Exec, ReadyNow;
    var init := acts[..|acts| - 1];
    forall n | WasReady(init, id, n) ensures WasReady(acts, id, n) {
      var k :| 0 <= k <= |init| && ReadyNow(Exec(START, init[..k]).s, id, n);
      assert acts[..k] == init[..k];
    }
  }

  lemma SeenNow(acts: seq<Action>, id: Id)
    ensures forall n :: ReadyNow(Exec(START, acts).s, id, n) ==> n in Seen(acts, id)
  {
    hide Exec, ReadyNow;
    assert acts[..|acts|] == acts;
  }

  lemma ApplyWaits(w: World, a: Action, id: Id, r: iset<OpNodeSpec>)
    requires Inv(w) && id.kind.NodeKind? && Waited(w.s, id, ThreadOf(w, id), r)
    requires forall n :: ReadyNow(w.s, id, n) ==> n in r
    ensures Waited(Apply(w, a).s, id, ThreadOf(Apply(w, a), id), r)
  {
    hide Local, ThreadOk, Step, Others, ReadyNow, RunsOn, Past;
    var t := ThreadOf(w, id);
    if a.Tick? {
      assert Local(w.s, a.id, ThreadOf(w, a.id));
      LocalThread(w.s, a.id, ThreadOf(w, a.id));
      if a.id == id {
        ThreadWaits(w.s, id, t, a.x, r);
        ObjectWaits(w.s, id, t, a.x, r);
      } else {
        StepFrame(w.s, a.id, ThreadOf(w, a.id), a.x, id);
      }
    } else if a.Crash? {
      IdleIsNotPast();
    } else {
      OthersWait(w.s, a, id, t, r);
    }
  }

  lemma IdleIsNotPast()
    ensures !Past(Idle(Nothing))
  {
  }

  lemma {:induction false} EveryoneWaits(acts: seq<Action>, id: Id)
    requires id.kind.NodeKind?
    ensures Waited(Exec(START, acts).s, id, ThreadOf(Exec(START, acts), id), Seen(acts, id))
  {
    if acts != [] {
      hide Inv, Apply, Waited, ReadyNow, Seen;
      var init := acts[..|acts| - 1];
      var w, a := Exec(START, init), acts[|acts| - 1];
      EveryoneWaits(init, id);
      Reachable(init);
      SeenNow(init, id);
      ApplyWaits(w, a, id, Seen(init, id));
      SeenGrows(acts, id);
      Grows(Apply(w, a).s, id, ThreadOf(Apply(w, a), id), Seen(init, id), Seen(acts, id));
    }
  }

  /** In every run: an OpNode that is Running for some generation has the network which the spec of that generation
      refers to, in its own namespace unless another is given, to thank for it: that network was stored and Ready at
      some moment of the run. */
  lemma RunningWasReady(acts: seq<Action>, id: Id)
    requires id.kind.NodeKind? && id in Exec(START, acts).s.objs
    requires Exec(START, acts).s.objs[id].status.phase == Running
    ensures var o := Exec(START, acts).s.objs[id];
            var g := o.status.observedGeneration;
            && 1 <= g <= o.Generation() && o.History()[g - 1].NodeSpec?
            && var ref := o.History()[g - 1].node.networkRef;
               var nid := Id(NetworkKind, if ref.namespace == "" then id.ns else ref.namespace, ref.name);
               exists k :: 0 <= k <= |acts| && StoredReady(Exec(START, acts[..k]).s, nid)
  {
    hide Exec;
    EveryoneWaits(acts, id);
    var o := Exec(START, acts).s.objs[id];
    var n := o.History()[o.status.observedGeneration - 1].node;
    var k :| 0 <= k <= |acts| && ReadyNow(Exec(START, acts[..k]).s, id, n);
    assert StoredReady(Exec(START, acts[..k]).s, Machine.NetworkId(id, n));
  }
}
