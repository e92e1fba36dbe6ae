/** The API server as the reconcilers call it.  Before each call is answered the other parties move: other
    reconciles, users, other controllers, the collector.  `turns` says how; every schedule is allowed. */
module Cluster {
  import opened Types
  import opened Store
  import opened Machine
  import opened Steps
  import opened Safety

  /** The moves of the others before one call, and what the call meets. */
  datatype Turn = Turn(others: seq<Action>, x: Ext)

  predicate MovedBy(a: Action, me: Id) {
    (a.Tick? || a.Crash?) && a.id == me
  }

  /** `g` is the world `w` with the thread of `me` where it really is: a running reconcile keeps its thread in
      its own variables, so the entry in `w` is not used. */
  ghost predicate Mirrors(g: World, w: World, me: Id) {
    g.s == w.s && forall id :: id != me ==> ThreadOf(g, id) == ThreadOf(w, id)
  }

  /** `acts` leads from `u` on while the reconcile of `me` is under way: it neither ends nor crashes before the end. */
  ghost predicate Working(u: World, acts: seq<Action>, me: Id) {
    acts == [] ||
    var (before, a) := (acts[..|acts| - 1], acts[|acts| - 1]);
    Working(u, before, me) && ThreadOf(Exec(u, before), me).Busy? && a != Crash(me)
  }

  /** The reconcile of `me` goes on from `u` to `v`, interleaved with moves of the others. */
  ghost predicate Works(u: World, v: World, me: Id) {
    exists acts :: Working(u, acts, me) && Exec(u, acts) == v
  }

  /** Only the others move from `u` to `v`. */
  ghost predicate Waits(u: World, v: World, me: Id) {
    exists acts :: (forall i :: 0 <= i < |acts| ==> !MovedBy(acts[i], me)) && Exec(u, acts) == v
  }

  /** Exactly one whole reconcile of `me` lies between `u` and `v`, if the thread is idle in both. */
  ghost predicate Reconciled(u: World, v: World, me: Id) {
    exists m, x :: Waits(u, m, me) && Works(Apply(m, Tick(me, x)), v, me)
  }

  lemma WorksSelf(w: World, me: Id)
    ensures Works(w, w, me)
  {
    assert Working(w, [], me) && Exec(w, []) == w;
  }

  lemma WorksOn(u: World, v: World, me: Id, a: Action)
    requires Works(u, v, me) && ThreadOf(v, me).Busy? && a != Crash(me)
    ensures Works(u, Apply(v, a), me)
  {
    hide Apply;
    var acts :| Working(u, acts, me) && Exec(u, acts) == v;
    var more := acts + [a];
    assert more[..|more| - 1] == acts;
    assert Working(u, more, me) && Exec(u, more) == Apply(v, a);
  }

  lemma {:induction false} WorkingConcat(u: World, a: seq<Action>, b: seq<Action>, me: Id)
    requires Working(u, a, me) && Working(Exec(u, a), b, me)
    ensures Working(u, a + b, me)
  {
    hide Exec, Apply;
    if b == [] {
      assert a + b == a;
    } else {
      var c := b[..|b| - 1];
      WorkingConcat(u, a, c, me);
      assert (a + b)[..|a + b| - 1] == a + c;
      ExecConcat(u, a, c);
    }
  }

  lemma WorksTransitive(u: World, v: World, w: World, me: Id)
    requires Works(u, v, me) && Works(v, w, me)
    ensures Works(u, w, me)
  {
    hide Exec, Working;
    var a :| Working(u, a, me) && Exec(u, a) == v;
    var b :| Working(v, b, me) && Exec(v, b) == w;
    ExecConcat(u, a, b);
    WorkingConcat(u, a, b, me);
  }

  lemma {:induction false} OthersAreWork(u: World, acts: seq<Action>, me: Id)
    requires ThreadOf(u, me).Busy? && forall i :: 0 <= i < |acts| ==> !MovedBy(acts[i], me)
    ensures Working(u, acts, me) && ThreadOf(Exec(u, acts), me) == ThreadOf(u, me)
  {
    hide Step, Others;
    if acts != [] {
      var before := acts[..|acts| - 1];
      assert forall i :: 0 <= i < |before| ==> before[i] == acts[i];
      OthersAreWork(u, before, me);
      assert !MovedBy(acts[|acts| - 1], me);
    }
  }

  lemma WaitingIsWork(u: World, v: World, me: Id)
    requires ThreadOf(u, me).Busy? && Waits(u, v, me)
    ensures Works(u, v, me)
  {
    var acts :| (forall i :: 0 <= i < |acts| ==> !MovedBy(acts[i], me)) && Exec(u, acts) == v;
    OthersAreWork(u, acts, me);
  }

  /** What a reconcile method reaches from a world of some run is again a world of a run. */
  lemma ReconciledIsRun(acts: seq<Action>, g: World, me: Id) returns (more: seq<Action>)
    requires Reconciled(Exec(START, acts), g, me)
    ensures acts <= more && Exec(START, more) == g
  {
    hide Apply, Working;
    var u := Exec(START, acts);
    var m, x :| Waits(u, m, me) && Works(Apply(m, Tick(me, x)), g, me);
    var a :| (forall i :: 0 <= i < |a| ==> !MovedBy(a[i], me)) && Exec(u, a) == m;
    var v := Apply(m, Tick(me, x));
    var b :| Working(v, b, me) && Exec(v, b) == g;
    ExecConcat(START, acts, a);
    var c := acts + a + [Tick(me, x)];
    assert c[..|c| - 1] == acts + a;
    assert Exec(START, c) == v;
    ExecConcat(START, c, b);
    more := c + b;
  }

  lemma MirrorsApply(g: World, w: World, me: Id, a: Action)
    requires Mirrors(g, w, me) && !MovedBy(a, me)
    ensures Mirrors(Apply(g, a), Apply(w, a), me) && ThreadOf(Apply(g, a), me) == ThreadOf(g, me)
  {
    hide Step, Others;
    forall id | id != me ensures ThreadOf(Apply(g, a), id) == ThreadOf(Apply(w, a), id) {
      assert ThreadOf(g, id) == ThreadOf(w, id);
    }
  }

  class Api {
    var w: World
    var turns: seq<Turn>
    /** The answers to the writes so far. */
    ghost var answers: seq<Ack>

    constructor (w: World, turns: seq<Turn>)
      ensures this.w == w && this.turns == turns && answers == []
    {
      this.w := w;
      this.turns := turns;
      answers := [];
    }

    /** The others move, and the next answer is fixed. */
    method Await(me: Id, ghost g: World) returns (x: Ext, ghost m: World)
      requires Mirrors(g, w, me)
      modifies this`w, this`turns
      ensures Waits(g, m, me) && Mirrors(m, w, me) && ThreadOf(m, me) == ThreadOf(g, me)
    {
      m := g;
      x := CALM;
      ghost var done: seq<Action> := [];
      assert Exec(g, done) == g;
      if turns != [] {
        x := turns[0].x;
        var others := turns[0].others;
        turns := turns[1..];
        for i := 0 to |others|
          invariant m == Exec(g, done) && Mirrors(m, w, me) && ThreadOf(m, me) == ThreadOf(g, me)
          invariant forall j :: 0 <= j < |done| ==> !MovedBy(done[j], me)
        {
          hide Apply, Mirrors;
          if !MovedBy(others[i], me) {
            MirrorsApply(m, w, me, others[i]);
            assert (done + [others[i]])[..|done|] == done;
            done, m := done + [others[i]], Apply(m, others[i]);
            w := Apply(w, others[i]);
          }
        }
      }
    }

    /** The store after a write, and its acknowledgement. */
    method Perform(r: (State, Ack)) returns (a: Ack)
      modifies this`w, this`answers
      ensures w == old(w).(s := r.0) && a == r.1 && answers == old(answers) + [a]
    {
      w := w.(s := r.0);
      a := r.1;
      answers := answers + [a];
    }
  }

  /** The caller's own micro-step, once its call has had its effect on the store. */
  lemma Ticked(m: World, w: World, me: Id, x: Ext) returns (g: World)
    requires Mirrors(m, World(m.s, w.threads), me)
    requires w.s == Step(m.s, me, ThreadOf(m, me), x).0
    ensures g == Apply(m, Tick(me, x)) && Mirrors(g, w, me) && ThreadOf(g, me) == Step(m.s, me, ThreadOf(m, me), x).1
  {
    hide Step;
    g := Apply(m, Tick(me, x));
    forall id | id != me ensures ThreadOf(g, id) == ThreadOf(w, id) {
      assert ThreadOf(m, id) == ThreadOf(World(m.s, w.threads), id);
    }
  }

  /** The same while a reconcile is under way. */
  lemma Ticks(g0: World, before: World, m: World, w: World, me: Id, x: Ext) returns (g: World)
    requires Works(g0, before, me) && ThreadOf(before, me).Busy? && Waits(before, m, me) && ThreadOf(m, me).Busy?
    requires Mirrors(m, World(m.s, w.threads), me)
    requires w.s == Step(m.s, me, ThreadOf(m, me), x).0
    ensures g == Apply(m, Tick(me, x)) && Works(g0, g, me) && Mirrors(g, w, me)
    ensures ThreadOf(g, me) == Step(m.s, me, ThreadOf(m, me), x).1
  {
    hide Step, Works, Waits, Mirrors, Apply;
    g := Ticked(m, w, me, x);
    WaitingIsWork(before, m, me);
    WorksTransitive(g0, before, m, me);
    WorksOn(g0, m, me, Tick(me, x));
  }

  lemma MirrorsState(g: World, w: World, me: Id)
    requires Mirrors(g, w, me)
    ensures g.s == w.s
  {
  }

  /** What a method hands back: the reconcile of `me` went on from `g0` to `g`, and the store is that of `g`. */
  ghost predicate Arrived(g0: World, g: World, api: Api, me: Id)
    reads api
  {
    Works(g0, g, me) && Mirrors(g, api.w, me)
  }

  /** Setting a condition changes only the status. */
  lemma MarkSpec(o: Object, c: ConditionType, st: ConditionStatus, reason: string, message: string, now: int)
    ensures Mark(o, c, st, reason, message, now).spec == o.spec
  {
  }

  /** `updateStatusWithRetry`, with retry.RetryOnConflict written out.  Of the status writes, at most five, all but
      the last are conflicts, and it succeeds only if the last one is accepted. */
  method UpdateStatusWithRetry(api: Api, me: Id, obj: Object, ghost good: Outcome, ghost bad: Outcome, ghost g0: World)
    returns (err: bool, ghost g: World)
    requires Mirrors(g0, api.w, me) && ThreadOf(g0, me) == WriteStatus(obj, good, bad)
    modifies api
    ensures Arrived(g0, g, api, me)
    ensures ThreadOf(g, me) == Idle(if err then bad else good)
    ensures old(api.answers) <= api.answers
    ensures var acks := api.answers[|old(api.answers)|..];
            && |acks| <= RETRIES && (forall i :: 0 <= i < |acks| - 1 ==> acks[i].Conflict?)
            && (!err <==> |acks| > 0 && acks[|acks| - 1].Ok?)
  {
    hide CopiedStatus, UpdateStatus, Works, Waits, Mirrors, Step, Apply, ThreadOf;
    var left := RETRIES;
    g := g0;
    WorksSelf(g0, me);
    ghost var acks := [];
    while left > 0
      invariant 0 <= left <= RETRIES && |acks| == RETRIES - left
      invariant Works(g0, g, me) && Mirrors(g, api.w, me)
      invariant ThreadOf(g, me) == if left > 0 then Busy(StatusGet(left, good, bad), obj) else Idle(bad)
      invariant api.answers == old(api.answers) + acks && forall i :: 0 <= i < |acks| ==> acks[i].Conflict?
    {
      var x, m := api.Await(me, g);
      MirrorsState(m, api.w, me);
      var r := Lookup(api.w.s.objs, me, x.fault);
      StatusGetStep(m.s, me, left, good, bad, obj, x);
      g := Ticks(g0, g, m, api.w, me, x);
      if !r.Got? {
        return true, g;
      }
      var latest := r.value;
      latest := latest.(status := CopiedStatus(me.kind, obj.status, latest.status));
      x, m := api.Await(me, g);
      MirrorsState(m, api.w, me);
      StatusPutStep(m.s, me, left, good, bad, obj, r.value, x);
      var a := api.Perform(UpdateStatus(api.w.s, me, latest, x.fault));
      g := Ticks(g0, g, m, api.w, me, x);
      acks := acks + [a];
      if a.Ok? {
        return false, g;
      }
      if !a.Conflict? {
        return true, g;
      }
      left := left - 1;
    }
    return true, g;
  }

  /** The Update both early exits of Reconcile end with: it adds or removes the operator's finalizer. */
  method UpdateFinalizers(api: Api, me: Id, obj: Object, done: Outcome, ghost g0: World)
    returns (result: Outcome, ghost g: World)
    requires Mirrors(g0, api.w, me) && ThreadOf(g0, me) == Busy(PutFinalizer(done), obj)
    modifies api
    ensures Arrived(g0, g, api, me) && ThreadOf(g, me) == Idle(result)
  {
    hide UpdateObject, Works, Waits, Mirrors, Fetched, NodeWrite, NetworkWrite, NodeNext, NetworkNext;
    var x, m := api.Await(me, g0);
    MirrorsState(m, api.w, me);
    var a := api.Perform(UpdateObject(api.w.s, me, obj, x.fault));
    WorksSelf(g0, me);
    g := Ticks(g0, g0, m, api.w, me, x);
    result := if a.Ok? then done else Failure;
  }
}
