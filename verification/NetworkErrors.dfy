/** How a network reconcile that fails tells of it. */
module NetworkErrors {
  import opened Types
  import opened Conditions
  import opened Builders
  import opened Store
  import opened Machine
  import opened Steps
  import opened Invariants
  import opened Preservation
  import opened Runs
  import opened Safety
  import opened Convergence
  import opened NetworkConvergence

  predicate ConfigCall(pc: Pc) {
    pc.GetRollup? || pc.NewRollup? || pc.PutRollup? || pc.GetGenesis? || pc.NewGenesis? || pc.PutGenesis?
  }

  predicate AllTrue(cs: seq<Condition>) {
    IsTrue(cs, ConfigurationValid) && IsTrue(cs, L1Connected) && IsTrue(cs, ContractsDiscovered)
  }

  /** What a reconcile that has generation `g` observed makes of it.  When it leaves the pipeline it is to write
      Ready, which observes the generation at hand, or Error, which leaves `g`; under Error all conditions are True
      exactly if a ConfigMap call failed.  Until then it leaves `g`. */
  ghost predicate Tells(t: Thread, config: bool, g: int) {
    t.Busy? ==>
      var st := t.obj.status;
      if t.pc.StatusGet? then
        && st.phase in {Ready, Phase.Error}
        && (st.phase.Ready? ==> st.observedGeneration == t.obj.Generation() && AllTrue(st.conditions))
        && (st.phase.Error? ==> st.observedGeneration == g && (AllTrue(st.conditions) <==> config))
      else st.observedGeneration == g
  }

  lemma CheckedTells(o: Object, n: OptimismNetworkSpec, x: Ext)
    ensures Tells(NetworkChecked(o, n, x), false, o.status.observedGeneration)
  {
    hide NetworkSpecError, IsTrue, Set;
    match NetworkSpecError(n)
    case Some(e) => MarkC(o, ConfigurationValid, False, "InvalidConfiguration", e, x.now);
    case None =>
  }

  lemma DialTells(s: State, id: Id, o: Object, n: OptimismNetworkSpec, x: Ext, r: Ack)
    ensures Tells(NetworkNext(s, id, DialL1, o, n, x, r), false, o.status.observedGeneration)
  {
    hide IsTrue, Set;
    MarkC(o, L1Connected, False, "L1ConnectionFailed", x.text, x.now);
  }

  lemma ReadyTells(o: Object, config: bool, g: int)
    requires AllTrue(o.status.conditions)
    ensures Tells(NetworkDone(o), config, g)
  {
    hide IsTrue;
  }

  lemma ConfigFailedTells(o: Object)
    requires AllTrue(o.status.conditions)
    ensures Tells(ConfigFailed(o), true, o.status.observedGeneration)
  {
    hide IsTrue;
  }

  lemma DiscoverTells(s: State, id: Id, o: Object, n: OptimismNetworkSpec, x: Ext, r: Ack)
    requires IsTrue(o.status.conditions, ConfigurationValid) && IsTrue(o.status.conditions, L1Connected)
    ensures Tells(NetworkNext(s, id, Discover, o, n, x, r), false, o.status.observedGeneration)
  {
    hide IsTrue, Set;
    match x.found
    case None => MarkC(o, ContractsDiscovered, False, "DiscoveryFailed", x.text, x.now);
    case Some(a) =>
      MarkC(o, ContractsDiscovered, True, "AddressesResolved",
            "Contract addresses discovered via " + a.discoveryMethod, x.now);
  }

  lemma ConfigTells(s: State, id: Id, pc: Pc, o: Object, n: OptimismNetworkSpec, x: Ext, r: Ack)
    requires ConfigCall(pc) && AllTrue(o.status.conditions)
    ensures Tells(NetworkNext(s, id, pc, o, n, x, r), true, o.status.observedGeneration)
  {
    hide AllTrue, Tells, NetworkDone, ConfigFailed, AutoDiscovers;
    ReadyTells(o, true, o.status.observedGeneration);
    ConfigFailedTells(o);
    OnwardTells(o);
  }

  lemma OnwardTells(o: Object)
    ensures forall pc: Pc :: !pc.StatusGet? ==> Tells(Busy(pc, o), true, o.status.observedGeneration)
  {
  }

  lemma StageTrue(s: State, id: Id, pc: Pc, o: Object)
    requires Stage(s, id, pc, o) && (ConfigCall(pc) || pc.Discover?)
    ensures IsTrue(o.status.conditions, ConfigurationValid) && IsTrue(o.status.conditions, L1Connected)
    ensures ConfigCall(pc) ==> AllTrue(o.status.conditions)
  {
    hide IsTrue, NetworkSpecError, RollupKept, GenesisKept;
  }

  /** The thread is in the pipeline, or about to enter it. */
  predicate InPipeline(t: Thread) {
    t.Busy? ==> t.pc.DialL1? || t.pc.Discover? || ConfigCall(t.pc)
  }

  function Observing(s: State, id: Id, t: Thread): int {
    if t.Busy? then t.obj.status.observedGeneration
    else if id in s.objs then s.objs[id].status.observedGeneration
    else 0
  }

  lemma StartTells(s: State, id: Id, x: Ext)
    requires id.kind.NetworkKind?
    ensures Tells(Fetched(id, Lookup(s.objs, id, x.fault), x), false, Observing(s, id, Idle(Nothing)))
  {
    hide NetworkChecked, NodeChecked;
    if id in s.objs && s.objs[id].spec.NetworkSpec? {
      CheckedTells(s.objs[id], s.objs[id].spec.network, x);
    }
  }

  /** In every run, at every step of a network reconcile, whatever the answer of the call is: an Error it goes on to
      write leaves the observed generation as it was, and comes with all conditions True exactly if a ConfigMap call
      failed. */
  lemma ErrorsTell(acts: seq<Action>, id: Id, x: Ext)
    requires id.kind.NetworkKind? && InPipeline(ThreadOf(Exec(START, acts), id))
    ensures var w := Exec(START, acts);
            var t := ThreadOf(w, id);
            Tells(Step(w.s, id, t, x).1, t.Busy? && ConfigCall(t.pc), Observing(w.s, id, t))
  {
    hide Exec, Local, Live, Write, NetworkNext, NodeNext, Fetched, Tells, Stage, AllTrue, IsTrue;
    var w := Exec(START, acts);
    var s, t := w.s, ThreadOf(w, id);
    LocalAt(acts, id);
    LocalThread(s, id, t);
    if t.Idle? {
      StartTells(s, id, x);
    } else {
      var pc, o, r := t.pc, t.obj, Write(s, id, t, x).1;
      LiveFits(s, id, o);
      var n := o.spec.network;
      if pc.DialL1? {
        DialTells(s, id, o, n, x, r);
      } else {
        StageTrue(s, id, pc, o);
        if pc.Discover? {
          DiscoverTells(s, id, o, n, x, r);
        } else {
          ConfigTells(s, id, pc, o, n, x, r);
        }
      }
    }
  }

  /* ----- An input ----- */

  lemma Unrolled(s: State, id: Id, t: Thread, xs: seq<Ext>)
    requires t.Busy? && xs != []
    ensures Finish(s, id, t, xs) == Finish(Step(s, id, t, xs[0]).0, id, Step(s, id, t, xs[0]).1, xs[1..])
  {
    hide Step;
  }

  /** A lost read of the rollup ConfigMap, in an otherwise undisturbed reconcile: the stored status is Error, all its
      conditions are True, and it observes what it observed before. */
  lemma LostConfigMap(s: State, id: Id, xs: seq<Ext>)
    requires NetworkConvergence.Valid(s, id) && AutoDiscovers(s.objs[id].spec.network.rollupConfig)
    requires |xs| >= 6 && xs[0].fault.NoFault? && xs[1].l1 && xs[2].found.Some? && xs[3].fault.Lost? && Calm(xs[4..])
    ensures var (s', t') := Alone(s, id, xs);
            && t' == Idle(After(2)) && id in s'.objs
            && s'.objs[id].status.phase.Error? && AllTrue(s'.objs[id].status.conditions)
            && s'.objs[id].status.observedGeneration == s.objs[id].status.observedGeneration
  {
    hide Mark, NetworkSpecError, NodeWrite, NodeNext, NetworkWrite, NetworkNext, Finish, Discovered, IsTrue;
    hide Recorded, Readied;
    var o, a := s.objs[id], xs[2].found.value;
    var o1 := Mark(o, ConfigurationValid, True, "ValidConfiguration", "Network configuration is valid", xs[0].now);
    var o2 := Dialled(o, xs[0], xs[1]);
    var o3 := Recorded(o2, a, xs[2]);
    DialledSpec(o, xs[0], xs[1]);
    RecordedSpec(o2, a, xs[2]);
    assert Step(s, id, Idle(Nothing), xs[0]) == (s, Busy(DialL1, o1));
    Unrolled(s, id, Busy(DialL1, o1), xs[1..]);
    DialStep(s, id, o1, xs[1]);
    assert xs[1..][1..] == xs[2..] && xs[2..][1..] == xs[3..] && xs[3..][1..] == xs[4..];
    Unrolled(s, id, Busy(Discover, o2), xs[2..]);
    Steps.DiscoverStep(s, id, o2, xs[2]);
    RecordedNext(o2, a, xs[2]);
    Unrolled(s, id, Busy(ConfigGet(true, a), o3), xs[3..]);
    ConfigGetStep(s, id, true, a, o3, xs[3]);
    var o4 := InPhase(o3, Phase.Error);
    FromStatus(s, id, o4, After(2), After(2), xs[4..]);
    StoredKeeps(s, id, CopiedStatus(id.kind, o4.status, s.objs[id].status));
    ReadiedClaims(o, a, xs[0], xs[1], xs[2]);
    LostClaims(o, a, xs[0], xs[1], xs[2]);
  }

  lemma RecordedNext(o: Object, a: Addresses, x: Ext)
    requires o.spec.NetworkSpec? && AutoDiscovers(o.spec.network.rollupConfig)
    ensures Discovered(o, o.spec.network, a, x) == Busy(GetRollup(a), Recorded(o, a, x))
  {
    hide Mark;
  }

  lemma LostClaims(o: Object, a: Addresses, x0: Ext, x1: Ext, x2: Ext)
    ensures var st := Recorded(Dialled(o, x0, x1), a, x2).status;
            st.conditions == Readied(Recorded(Dialled(o, x0, x1), a, x2)).status.conditions
            && st.observedGeneration == o.status.observedGeneration
  {
  }
}
