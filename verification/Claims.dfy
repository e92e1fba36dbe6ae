/** What is claimed of the children of a stored object, and which leftovers endanger it. */
module Claims {
  import opened Types
  import opened Builders
  import opened Store
  import opened Machine
  import opened Invariants
  import opened Runs
  import opened Safety
  import opened Lineage
  import opened Ownership

  /** The StatefulSet of an OpNode has the Secrets the operator makes for it; a Service comes with the StatefulSet,
      selects its pods, and both are the OpNode's own. */
  ghost predicate NodeClaims(s: State, id: Id, uid: nat) {
    && (KeyOf(id) in s.sets ==> KeyOf(id) in s.built && SecretsThere(s, id, s.built[KeyOf(id)].spec))
    && (KeyOf(id) in s.svcs ==>
          && KeyOf(id) in s.sets
          && s.svcs[KeyOf(id)].spec.selector == s.sets[KeyOf(id)].spec.selector
          && s.svcs[KeyOf(id)].owner == s.sets[KeyOf(id)].owner == uid)
  }

  /** A network that says it is Ready for its present spec has the ConfigMaps that spec asks for. */
  ghost predicate NetworkClaims(s: State, id: Id, o: Object) {
    o.status.phase.Ready? && o.status.observedGeneration == o.Generation() && o.spec.NetworkSpec? ==>
      RollupThere(s, id, o.spec.network) && GenesisThere(s, id, o.spec.network)
  }

  ghost predicate ClaimsHold(s: State, id: Id)
    requires id in s.objs
  {
    match id.kind
    case NodeKind => NodeClaims(s, id, s.objs[id].uid)
    case NetworkKind => NetworkClaims(s, id, s.objs[id])
  }

  /** A child at the names of `id` has an owner that is gone: the collector may take it at any time. */
  ghost predicate OrphanSecret(s: State, k: Key) {
    k in s.secrets && s.secrets[k].owner.Some? && Dead(s, s.secrets[k].owner.value)
  }

  ghost predicate OrphanSet(s: State, id: Id) {
    KeyOf(id) in s.sets && Dead(s, s.sets[KeyOf(id)].owner)
  }

  ghost predicate OrphanService(s: State, id: Id) {
    KeyOf(id) in s.svcs && Dead(s, s.svcs[KeyOf(id)].owner)
  }

  ghost predicate OrphanConfig(s: State, k: Key) {
    k in s.configs && Dead(s, s.configs[k].owner)
  }

  ghost predicate HasOrphan(s: State, id: Id) {
    match id.kind
    case NodeKind =>
      OrphanSecret(s, JwtKey(id)) || OrphanSecret(s, P2pKey(id)) || OrphanSet(s, id) || OrphanService(s, id)
    case NetworkKind => OrphanConfig(s, RollupKey(id)) || OrphanConfig(s, GenesisKey(id))
  }

  /** The owner of a child of a stored object is that object, or it is gone. */
  lemma OwnerOrDead(s: State, id: Id, u: nat)
    requires id in s.objs && OwnerOk(s, id, u)
    ensures Dead(s, u) <==> u != s.objs[id].uid
  {
  }

  lemma NodeOwnsIff(s: State, id: Id)
    requires id in s.objs && id.kind.NodeKind? && ChildrenLineage(s, id)
    ensures OwnNodeChildren(s, id, s.objs[id].uid) <==> NodeClaims(s, id, s.objs[id].uid) && !HasOrphan(s, id)
  {
    hide OwnerOk, Dead, DesiredSet, NodeSpecError;
    forall u: nat | OwnerOk(s, id, u) ensures Dead(s, u) <==> u != s.objs[id].uid {
      OwnerOrDead(s, id, u);
    }
  }

  lemma NetworkOwnsIff(s: State, id: Id)
    requires id in s.objs && id.kind.NetworkKind? && ChildrenLineage(s, id)
    ensures OwnConfigs(s, id, s.objs[id]) <==> NetworkClaims(s, id, s.objs[id]) && !HasOrphan(s, id)
  {
    hide OwnerOk, Dead, RollupThere, GenesisThere;
    forall u: nat | OwnerOk(s, id, u) ensures Dead(s, u) <==> u != s.objs[id].uid {
      OwnerOrDead(s, id, u);
    }
  }

  /** Owning one's children is having the claims and no orphan. */
  lemma OwnsIff(s: State, id: Id)
    requires id in s.objs && ChildrenLineage(s, id)
    ensures Owns(s, id) <==> ClaimsHold(s, id) && !HasOrphan(s, id)
  {
    hide OwnNodeChildren, OwnConfigs, NodeClaims, NetworkClaims, HasOrphan, ChildrenLineage;
    match id.kind
    case NodeKind => NodeOwnsIff(s, id);
    case NetworkKind => NetworkOwnsIff(s, id);
  }

  /** In every run: if an object at rest has the claims and no orphan, it has the claims for as long as it lives. */
  lemma ClaimsForLife(acts: seq<Action>, more: seq<Action>, id: Id)
    requires var w := Exec(START, acts);
             && SameObject(w, Exec(w, more), id) && Rested(ThreadOf(w, id))
             && ClaimsHold(w.s, id) && !HasOrphan(w.s, id)
    ensures var v := Exec(Exec(START, acts), more);
            ClaimsHold(v.s, id) && !HasOrphan(v.s, id)
  {
    hide Exec, Inv, Lineages, Owns, ClaimsHold, HasOrphan, ChildrenLineage, Rested;
    var w, v := Exec(START, acts), Exec(Exec(START, acts), more);
    Reachable(acts);
    LineageAt(acts, id);
    OwnsIff(w.s, id);
    OwnsForLife(w, more, id);
    ExecConcat(START, acts, more);
    LineageAt(acts + more, id);
    OwnsIff(v.s, id);
  }

  lemma LineageAt(acts: seq<Action>, id: Id)
    ensures var w := Exec(START, acts);
            ChildrenLineage(w.s, id) && (id in w.s.objs ==> OwnerOk(w.s, id, w.s.objs[id].uid))
  {
    hide Exec, ChildrenLineage, ThreadLineage, OwnerOk;
    EveryChildDescends(acts);
    assert Descent(Exec(START, acts).s, id, ThreadOf(Exec(START, acts), id));
  }

  /** An object created where no child of an earlier one is left starts with the claims, without orphans and at rest. */
  lemma CleanStart(acts: seq<Action>, id: Id, spec: Spec, fs: set<Finalizer>)
    requires var w := Exec(START, acts);
             id !in w.s.objs && Fits(id.kind, spec) && Clean(w.s, id)
    ensures var v := Apply(Exec(START, acts), Create(id, spec, fs));
            id in v.s.objs && Rested(ThreadOf(v, id)) && ClaimsHold(v.s, id) && !HasOrphan(v.s, id)
  {
    hide Exec, StatusOk, ChildrenOk;
    LocalAt(acts, id);
  }

  /** At every moment, also while a reconcile is at work, an object that is no heir has the claims and no orphan. */
  lemma NoHeirHasClaims(acts: seq<Action>, id: Id)
    requires var w := Exec(START, acts); id in w.s.objs && id !in w.s.heirs
    ensures var w := Exec(START, acts); ClaimsHold(w.s, id) && !HasOrphan(w.s, id)
  {
    hide Exec, Local, Owns, ClaimsHold, HasOrphan, ChildrenLineage;
    var w := Exec(START, acts);
    LocalAt(acts, id);
    LocalOwns(w.s, id, ThreadOf(w, id));
    LineageAt(acts, id);
    OwnsIff(w.s, id);
  }

  /** The collector leaves a Secret of a stored OpNode alone exactly if nobody or that OpNode owns it. */
  lemma CollectorSparesIff(acts: seq<Action>, id: Id, k: Key)
    requires id.kind.NodeKind? && (k == JwtKey(id) || k == P2pKey(id))
    requires var w := Exec(START, acts); id in w.s.objs && k in w.s.secrets
    ensures var w := Exec(START, acts);
            Apply(w, CollectSecret(k)) == w <==> w.s.secrets[k].owner in {None, Some(w.s.objs[id].uid)}
  {
    hide Exec, OwnerOk, SetOk, ServiceOk, Dead, Apply, JwtKey, P2pKey;
    var w := Exec(START, acts);
    LineageAt(acts, id);
    forall u: nat | OwnerOk(w.s, id, u) ensures Dead(w.s, u) <==> u != w.s.objs[id].uid {
      OwnerOrDead(w.s, id, u);
    }
    Collecting(w, k);
  }

  lemma Collecting(w: World, k: Key)
    requires k in w.s.secrets
    ensures Apply(w, CollectSecret(k)) == w <==> !OrphanSecret(w.s, k)
  {
    hide Dead;
    assert k !in (w.s.secrets - {k});
  }
}
