/** The moves of everybody else keep the invariant too, so it holds in every state of every run. */
module Runs {
  import opened Types
  import opened Conditions
  import opened Builders
  import opened Store
  import opened Machine
  import opened Invariants
  import opened Preservation

  /** What nobody but the operator may do to an object: change its identity or status, or take the operator's
      finalizer; its history only grows. */
  ghost predicate Permitted(id: Id, o: Object, o': Object) {
    && o'.uid == o.uid && o'.status == o.status
    && (Own(id.kind) in o.finalizers ==> Own(id.kind) in o'.finalizers)
    && ((o'.past == o.past && o'.spec == o.spec) || o'.past == o.History())
    && Fits(id.kind, o'.spec)
  }

  /** A status vouches for no configuration of a spec that is newer than the one it observed. */
  lemma NewerSpec(s: State, id: Id, o': Object)
    requires id in s.objs && ObjectOk(s, id, s.objs[id]) && Permitted(id, s.objs[id], o')
    ensures ObjectOk(s, id, o'.(rv := s.objs[id].rv))
  {
    hide IsTrue, NodeSpecError, NetworkSpecError, NodeChildrenOk;
    var o := s.objs[id];
    assert o.History() <= o'.History();
    if o.status != EMPTY_STATUS {
      StatusOkMonotone(id.kind, o.History(), o'.History(), o.status);
    }
    LastSpec(o);
  }

  /** The same with a fresh resource version, in the store. */
  lemma Recommitted(s: State, id: Id, o': Object)
    requires id in s.objs && ObjectOk(s, id, o')
    ensures var s' := s.(objs := s.objs[id := o'.(rv := s.next)], next := s.next + 1);
            ObjectOk(s', id, s'.objs[id])
  {
    hide StatusOk;
  }

  lemma EditedObject(s: State, id: Id, o': Object)
    requires id in s.objs && ObjectOk(s, id, s.objs[id]) && Permitted(id, s.objs[id], o')
    ensures var s' := s.(objs := s.objs[id := o'.(rv := s.next)], next := s.next + 1);
            ObjectOk(s', id, s'.objs[id])
  {
    hide ObjectOk, Permitted;
    NewerSpec(s, id, o');
    Recommitted(s, id, o'.(rv := s.objs[id].rv));
  }

  lemma EditedThread(s: State, id: Id, o': Object, t: Thread)
    requires id in s.objs && Permitted(id, s.objs[id], o') && ThreadOk(s, id, t)
    ensures ThreadOk(s.(objs := s.objs[id := o'.(rv := s.next)], next := s.next + 1), id, t)
  {
    hide StatusOk, IsTrue, NodeSpecError, NetworkSpecError;
  }

  lemma CommitLocal(s: State, id: Id, o': Object, t: Thread)
    requires id in s.objs && Local(s, id, t) && Permitted(id, s.objs[id], o')
    ensures Local(Commit(s, id, o'), id, t)
  {
    hide ObjectOk, ThreadOk, Permitted;
    if o' == s.objs[id] {
    } else if o'.deleting && o'.finalizers == {} {
      Released(id, s.objs[id], o');
      Removed(s, id, t);
    } else {
      EditedObject(s, id, o');
      EditedThread(s, id, o', t);
    }
  }

  lemma Released(id: Id, o: Object, o': Object)
    requires Permitted(id, o, o') && o'.finalizers == {}
    ensures Own(id.kind) !in o.finalizers
  {
  }

  /** An object without the operator's finalizer may go: no reconcile past its finalizer check holds it. */
  lemma Removed(s: State, id: Id, t: Thread)
    requires id in s.objs && Own(id.kind) !in s.objs[id].finalizers && ThreadOk(s, id, t)
    ensures ThreadOk(s.(objs := s.objs - {id}, next := s.next + 1), id, t)
  {
    hide Stage;
    if t.Busy? {
      assert t.pc.PutFinalizer?;
      assert Stage(s.(objs := s.objs - {id}, next := s.next + 1), id, t.pc, t.obj) by {
        PutFinalizerStage(s.(objs := s.objs - {id}, next := s.next + 1), id, t.pc, t.obj);
      }
    }
  }

  lemma PutFinalizerStage(s: State, id: Id, pc: Pc, o: Object)
    requires pc.PutFinalizer?
    ensures Stage(s, id, pc, o)
  {
  }

  lemma CreateLocal(s: State, id: Id, spec: Spec, fs: set<Finalizer>, t: Thread, heirs: set<Id>)
    requires id !in s.objs && Fits(id.kind, spec) && Local(s, id, t) && (Clean(s, id) || id in heirs)
    ensures Local(s.(objs := s.objs[id := Object(s.next, s.next, [], spec, fs, false, EMPTY_STATUS)], heirs := heirs,
                     next := s.next + 1), id, t)
  {
    hide StatusOk, IsTrue, NodeSpecError, NetworkSpecError;
  }

  lemma ObjectMoveLocal(s: State, a: Action, t: Thread)
    requires a.Create? || a.Edit? || a.Finalizers? || a.Delete? || a.Touch?
    requires Local(s, a.id, t)
    ensures Local(Others(s, a), a.id, t)
  {
    hide Local, Commit, Clean;
    match a
    case Create(id, spec, fs) =>
      if id !in s.objs && Fits(id.kind, spec) {
        CreateLocal(s, id, spec, fs, t, if Clean(s, id) then s.heirs - {id} else s.heirs + {id});
      }
    case Edit(id, spec) =>
      if id in s.objs && Fits(id.kind, spec) {
        LocalFits(s, id, t);
        CommitLocal(s, id, s.objs[id].WithSpec(spec), t);
      }
    case Finalizers(id, fs) =>
      if id in s.objs {
        LocalFits(s, id, t);
        if Own(id.kind) in s.objs[id].finalizers ==> Own(id.kind) in fs {
          CommitLocal(s, id, s.objs[id].(finalizers := fs), t);
        }
      }
    case Delete(id) =>
      if id in s.objs {
        LocalFits(s, id, t);
        CommitLocal(s, id, s.objs[id].(deleting := true), t);
      }
    case Touch(id) =>
      if id in s.objs {
        LocalFits(s, id, t);
        TouchLocal(s, id, t);
      }
  }

  lemma LocalFits(s: State, id: Id, t: Thread)
    requires id in s.objs && Local(s, id, t)
    ensures Fits(id.kind, s.objs[id].spec)
  {
  }

  lemma TouchLocal(s: State, id: Id, t: Thread)
    requires id in s.objs && Local(s, id, t) && Fits(id.kind, s.objs[id].spec)
    ensures Local(s.(objs := s.objs[id := s.objs[id].(rv := s.next)], next := s.next + 1), id, t)
  {
    hide ObjectOk, ThreadOk;
    EditedObject(s, id, s.objs[id]);
    EditedThread(s, id, s.objs[id], t);
  }

  lemma CommitFrame(s: State, id: Id, o: Object, j: Id)
    requires id in s.objs && j != id
    ensures Untouched(s, Commit(s, id, o), j)
  {
  }

  lemma SelfFrame(s: State, id: Id)
    ensures Untouched(s, s, id)
  {
  }

  lemma PutFrame(s: State, id: Id, o: Object, heirs: set<Id>, j: Id)
    requires j != id && (j in heirs <==> j in s.heirs)
    ensures Untouched(s, s.(objs := s.objs[id := o], heirs := heirs, next := s.next + 1), j)
  {
  }

  /** A move on another object leaves `id` alone. */
  lemma ObjectMoveFrame(s: State, a: Action, id: Id)
    requires (a.Create? || a.Edit? || a.Finalizers? || a.Delete? || a.Touch?) && a.id != id
    ensures Untouched(s, Others(s, a), id)
  {
    hide Clean, Commit, Untouched;
    SelfFrame(s, id);
    match a
    case Create(i, spec, fs) =>
      PutFrame(s, i, Object(s.next, s.next, [], spec, fs, false, EMPTY_STATUS),
               if Clean(s, i) then s.heirs - {i} else s.heirs + {i}, id);
    case Edit(i, spec) =>
      if i in s.objs {
        CommitFrame(s, i, s.objs[i].WithSpec(spec), id);
      }
    case Finalizers(i, fs) =>
      if i in s.objs {
        CommitFrame(s, i, s.objs[i].(finalizers := fs), id);
      }
    case Delete(i) =>
      if i in s.objs {
        CommitFrame(s, i, s.objs[i].(deleting := true), id);
      }
    case Touch(i) =>
      if i in s.objs {
        PutFrame(s, i, s.objs[i].(rv := s.next), s.heirs, id);
      }
  }

  /* ----- Children ----- */

  /** The collector takes nothing from the owner whose object `id` has. */
  lemma Uncollected(s: State, id: Id, uid: nat)
    requires Dead(s, uid)
    ensures id in s.objs ==> s.objs[id].uid != uid
  {
  }

  lemma SecretMoveLocal(s: State, a: Action, id: Id, t: Thread)
    requires (a.MakeSecret? || a.CollectSecret?) && id.kind.NodeKind? && Local(s, id, t)
    ensures Local(Others(s, a), id, t)
  {
    hide StatusOk, IsTrue, NodeSpecError, NetworkSpecError, ConfigsOk, DesiredSet, Labels, Dead;
    if a.CollectSecret? && Others(s, a) != s {
      Uncollected(s, id, s.secrets[a.key].owner.value);
    }
  }

  lemma SetMoveLocal(s: State, a: Action, id: Id, t: Thread)
    requires (a.TouchSet? || a.CollectSet?) && id.kind.NodeKind? && Local(s, id, t)
    ensures Local(Others(s, a), id, t)
  {
    hide StatusOk, IsTrue, NodeSpecError, NetworkSpecError, ConfigsOk, DesiredSet, Labels, Dead;
    if a.CollectSet? && Others(s, a) != s {
      Uncollected(s, id, s.sets[a.key].owner);
    }
  }

  lemma ServiceMoveLocal(s: State, a: Action, id: Id, t: Thread)
    requires (a.TouchService? || a.CollectService?) && id.kind.NodeKind? && Local(s, id, t)
    ensures Local(Others(s, a), id, t)
  {
    hide StatusOk, IsTrue, NodeSpecError, NetworkSpecError, ConfigsOk, DesiredSet, Labels, Dead;
    if a.CollectService? && Others(s, a) != s {
      Uncollected(s, id, s.svcs[a.key].owner);
    }
  }

  lemma ConfigMoveLocal(s: State, a: Action, id: Id, t: Thread)
    requires (a.TouchConfig? || a.CollectConfig?) && id.kind.NetworkKind? && Local(s, id, t)
    ensures Local(Others(s, a), id, t)
  {
    hide StatusOk, IsTrue, NodeSpecError, NetworkSpecError, NodeChildrenOk, Dead;
    if a.CollectConfig? && Others(s, a) != s {
      Uncollected(s, id, s.configs[a.key].owner);
    }
  }

  ghost predicate OfNodeChild(a: Action) {
    a.MakeSecret? || a.CollectSecret? || a.TouchSet? || a.CollectSet? || a.TouchService? || a.CollectService?
  }

  ghost predicate OfConfig(a: Action) {
    a.TouchConfig? || a.CollectConfig?
  }

  ghost predicate OfObject(a: Action) {
    a.Create? || a.Edit? || a.Finalizers? || a.Delete? || a.Touch?
  }

  /** Children of one kind of resource say nothing of the other kind. */
  lemma ChildMoveFrame(s: State, a: Action, id: Id)
    requires (OfNodeChild(a) && id.kind.NetworkKind?) || (OfConfig(a) && id.kind.NodeKind?)
    ensures Untouched(s, Others(s, a), id)
  {
    hide Dead, Others;
    if OfConfig(a) {
      ConfigMoveRest(s, a);
    } else {
      NodeChildMoveRest(s, a);
    }
  }

  lemma ConfigMoveRest(s: State, a: Action)
    requires OfConfig(a)
    ensures Others(s, a) == s.(configs := Others(s, a).configs, next := Others(s, a).next)
            && s.next <= Others(s, a).next
  {
    hide Dead;
  }

  lemma NodeChildMoveRest(s: State, a: Action)
    requires OfNodeChild(a)
    ensures Others(s, a).objs == s.objs && Others(s, a).heirs == s.heirs && Others(s, a).configs == s.configs
    ensures s.next <= Others(s, a).next
  {
    hide Dead;
  }

  lemma ChildMoveLocal(s: State, a: Action, id: Id, t: Thread)
    requires (OfNodeChild(a) || OfConfig(a)) && Local(s, id, t)
    ensures Local(Others(s, a), id, t)
  {
    hide Local, Untouched, Others;
    if id.kind.NetworkKind? {
      if OfConfig(a) {
        ConfigMoveLocal(s, a, id, t);
      } else {
        ChildMoveFrame(s, a, id);
        Frame(s, Others(s, a), id, t);
      }
    } else if OfConfig(a) {
      ChildMoveFrame(s, a, id);
      Frame(s, Others(s, a), id, t);
    } else if a.MakeSecret? || a.CollectSecret? {
      SecretMoveLocal(s, a, id, t);
    } else if a.TouchSet? || a.CollectSet? {
      SetMoveLocal(s, a, id, t);
    } else {
      ServiceMoveLocal(s, a, id, t);
    }
  }

  /** No move of another party disturbs what is said of any id. */
  lemma OthersLocal(s: State, a: Action, id: Id, t: Thread)
    requires Local(s, id, t)
    ensures Local(Others(s, a), id, t)
  {
    hide Local, Untouched, Others;
    if OfNodeChild(a) || OfConfig(a) {
      ChildMoveLocal(s, a, id, t);
    } else if OfObject(a) {
      if a.id == id {
        ObjectMoveLocal(s, a, t);
      } else {
        ObjectMoveFrame(s, a, id);
        Frame(s, Others(s, a), id, t);
      }
    } else {
      OperatorMove(s, a);
    }
  }

  lemma OperatorMove(s: State, a: Action)
    requires a.Tick? || a.Crash?
    ensures Others(s, a) == s
  {
  }

  /* ----- Runs ----- */

  lemma ApplyInv(w: World, a: Action)
    requires Inv(w)
    ensures Inv(Apply(w, a))
  {
    hide Local, Step, Others;
    var w' := Apply(w, a);
    forall id ensures Local(w'.s, id, ThreadOf(w', id)) {
      assert Local(w.s, id, ThreadOf(w, id));
      if a.Tick? {
        assert Local(w.s, a.id, ThreadOf(w, a.id));
        if id == a.id {
          StepLocal(w.s, id, ThreadOf(w, id), a.x);
        } else {
          LocalThread(w.s, a.id, ThreadOf(w, a.id));
          StepFrame(w.s, a.id, ThreadOf(w, a.id), a.x, id);
          Frame(w.s, w'.s, id, ThreadOf(w, id));
        }
      } else if a.Crash? {
        if id == a.id {
          CrashLocal(w.s, id, ThreadOf(w, id));
        }
      } else {
        OthersLocal(w.s, a, id, ThreadOf(w, id));
      }
    }
  }

  lemma LocalThread(s: State, id: Id, t: Thread)
    requires Local(s, id, t)
    ensures ThreadOk(s, id, t)
  {
  }

  lemma CrashLocal(s: State, id: Id, t: Thread)
    requires Local(s, id, t)
    ensures Local(s, id, Idle(Nothing))
  {
    hide ObjectOk;
  }

  /** The invariant holds in every state of every run from the empty store. */
  lemma {:induction false} Reachable(acts: seq<Action>)
    ensures Inv(Exec(START, acts))
  {
    if acts == [] {
      StartInv();
    } else {
      hide Inv, Apply;
      Reachable(acts[..|acts| - 1]);
      ApplyInv(Exec(START, acts[..|acts| - 1]), acts[|acts| - 1]);
    }
  }

  lemma StartInv()
    ensures Inv(START)
  {
  }
}
