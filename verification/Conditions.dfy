/** pkg/utils/conditions.go: the condition list, updated in place. */
module Conditions {
  import opened Types

  /** The first condition of type `c`. */
  function Get(cs: seq<Condition>, c: ConditionType): Option<Condition> {
    if cs == [] then None else if cs[0].ctype == c then Some(cs[0]) else Get(cs[1..], c)
  }

  predicate IsTrue(cs: seq<Condition>, c: ConditionType) {
    Get(cs, c).Some? && Get(cs, c).value.status.True?
  }

  /** The update of one call. */
  datatype Update = Update(ctype: ConditionType, status: ConditionStatus, reason: string, message: string, now: int)

  /** The list after one SetCondition call: the first entry of that type is overwritten but for its
      observed generation; without such an entry one is appended. */
  function Set(cs: seq<Condition>, u: Update): seq<Condition> {
    if cs == [] then [Condition(u.ctype, u.status, u.reason, u.message, u.now, 0)]
    else if cs[0].ctype == u.ctype then
      [cs[0].(status := u.status, reason := u.reason, message := u.message, lastTransition := u.now)] + cs[1..]
    else [cs[0]] + Set(cs[1..], u)
  }

  function SetAll(cs: seq<Condition>, us: seq<Update>): seq<Condition>
    decreases |us|
  {
    if us == [] then cs else SetAll(Set(cs, us[0]), us[1..])
  }

  /* ----- Last write wins ----- */

  function Generation(cs: seq<Condition>, c: ConditionType): int {
    if Get(cs, c).Some? then Get(cs, c).value.observedGeneration else 0
  }

  /** One call, as a reader sees it: its own type gets the new values and keeps its generation, every other
      type is as before. */
  lemma {:induction false} GetAfterSet(cs: seq<Condition>, u: Update, c: ConditionType)
    ensures Get(Set(cs, u), c) ==
            if c == u.ctype
            then Some(Condition(c, u.status, u.reason, u.message, u.now, Generation(cs, c)))
            else Get(cs, c)
  {
    if cs != [] && cs[0].ctype != u.ctype {
      GetAfterSet(cs[1..], u, c);
    }
  }

  /** The last of the updates to `c`, if there is one. */
  function LastTo(us: seq<Update>, c: ConditionType): Option<Update> {
    if us == [] then None
    else if us[|us| - 1].ctype == c then Some(us[|us| - 1])
    else LastTo(us[..|us| - 1], c)
  }

  lemma {:induction false} SetAllSnoc(cs: seq<Condition>, us: seq<Update>)
    requires us != []
    ensures SetAll(cs, us) == Set(SetAll(cs, us[..|us| - 1]), us[|us| - 1])
    decreases |us|
  {
    if |us| > 1 {
      var init := us[..|us| - 1];
      SetAllSnoc(Set(cs, us[0]), us[1..]);
      assert us[1..][..|us| - 2] == init[1..];
    }
  }

  /** Any sequence of calls on any list, duplicates included, acts as a last-write-wins map: a reader sees
      the last update of each type with the generation the type had at first, and what nobody updated. */
  lemma {:induction false} LastWriteWins(cs: seq<Condition>, us: seq<Update>, c: ConditionType)
    ensures Get(SetAll(cs, us), c) ==
            match LastTo(us, c)
            case None => Get(cs, c)
            case Some(u) => Some(Condition(c, u.status, u.reason, u.message, u.now, Generation(cs, c)))
    ensures IsTrue(SetAll(cs, us), c) <==>
            if LastTo(us, c).Some? then LastTo(us, c).value.status.True? else IsTrue(cs, c)
  {
    if us != [] {
      var init := us[..|us| - 1];
      SetAllSnoc(cs, us);
      LastWriteWins(cs, init, c);
      GetAfterSet(SetAll(cs, init), us[|us| - 1], c);
    }
  }

  /* ----- Order, generations, uniqueness ----- */

  function TypesOf(cs: seq<Condition>): (ts: seq<ConditionType>)
    ensures |ts| == |cs| && forall i :: 0 <= i < |cs| ==> ts[i] == cs[i].ctype
  {
    if cs == [] then [] else [cs[0].ctype] + TypesOf(cs[1..])
  }

  predicate Distinct(ts: seq<ConditionType>) {
    forall i, j :: 0 <= i < j < |ts| ==> ts[i] != ts[j]
  }

  /** `ts` followed by the types of `us` that are not in it, each once, in the order of their first use. */
  function WithTypes(ts: seq<ConditionType>, us: seq<Update>): (r: seq<ConditionType>)
    ensures ts <= r
    ensures forall t :: t in r <==> t in ts || LastTo(us, t).Some?
    ensures Distinct(ts) ==> Distinct(r)
    decreases |us|
  {
    if us == [] then ts
    else
      var c := us[|us| - 1].ctype;
      var r := WithTypes(ts, us[..|us| - 1]);
      if c in r then r else r + [c]
  }

  lemma {:induction false} SetShape(cs: seq<Condition>, u: Update)
    ensures TypesOf(Set(cs, u)) == if u.ctype in TypesOf(cs) then TypesOf(cs) else TypesOf(cs) + [u.ctype]
    ensures forall i :: 0 <= i < |cs| ==>
              && Set(cs, u)[i].observedGeneration == cs[i].observedGeneration
              && (cs[i].ctype != u.ctype ==> Set(cs, u)[i] == cs[i])
  {
    if cs != [] {
      if cs[0].ctype == u.ctype {
        assert TypesOf(cs)[0] == u.ctype;
      } else {
        SetShape(cs[1..], u);
        assert forall t :: t in TypesOf(cs) <==> t == cs[0].ctype || t in TypesOf(cs[1..]);
      }
    }
  }

  /** The list keeps its order and gains exactly the new types, once each, at its end; a list without
      duplicate types stays without. */
  lemma {:induction false} SetAllTypes(cs: seq<Condition>, us: seq<Update>)
    ensures TypesOf(SetAll(cs, us)) == WithTypes(TypesOf(cs), us)
    ensures Distinct(TypesOf(cs)) ==> Distinct(TypesOf(SetAll(cs, us)))
    decreases |us|
  {
    if us != [] {
      hide Set, TypesOf;
      var init := us[..|us| - 1];
      SetAllSnoc(cs, us);
      SetAllTypes(cs, init);
      SetShape(SetAll(cs, init), us[|us| - 1]);
    }
  }

  /** The generation of every entry stays, and so does every entry of a type nobody updates. */
  lemma {:induction false} SetAllKeeps(cs: seq<Condition>, us: seq<Update>, i: nat)
    requires i < |cs|
    ensures i < |SetAll(cs, us)|
    ensures SetAll(cs, us)[i].observedGeneration == cs[i].observedGeneration
    ensures LastTo(us, cs[i].ctype).None? ==> SetAll(cs, us)[i] == cs[i]
  {
    if us != [] {
      hide Set, TypesOf;
      var init := us[..|us| - 1];
      SetAllSnoc(cs, us);
      SetAllKeeps(cs, init, i);
      SetAllTypes(cs, init);
      var mid := SetAll(cs, init);
      SetShape(mid, us[|us| - 1]);
      assert mid[i].ctype == TypesOf(mid)[i] == TypesOf(cs)[i];
      assert |Set(mid, us[|us| - 1])| == |TypesOf(Set(mid, us[|us| - 1]))|;
    }
  }

  lemma {:induction false} SetAt(cs: seq<Condition>, u: Update, i: nat)
    requires i < |cs| && cs[i].ctype == u.ctype
    requires forall j :: 0 <= j < i ==> cs[j].ctype != u.ctype
    ensures Set(cs, u) ==
            cs[i := cs[i].(status := u.status, reason := u.reason, message := u.message, lastTransition := u.now)]
    ensures Get(cs, u.ctype) == Some(cs[i])
  {
    if i > 0 {
      SetAt(cs[1..], u, i - 1);
    }
  }

  lemma {:induction false} SetAtEnd(cs: seq<Condition>, u: Update)
    requires forall j :: 0 <= j < |cs| ==> cs[j].ctype != u.ctype
    ensures Set(cs, u) == cs + [Condition(u.ctype, u.status, u.reason, u.message, u.now, 0)]
    ensures Get(cs, u.ctype) == None
  {
    if cs != [] {
      SetAtEnd(cs[1..], u);
    }
  }

  /** The condition list as the source holds it: a slice over a backing array. */
  class ConditionList {
    var data: array<Condition>
    var len: nat

    ghost predicate Valid()
      reads this
    {
      len <= data.Length
    }

    function Contents(): seq<Condition>
      requires Valid()
      reads this, data
    {
      data[..len]
    }

    constructor ()
      ensures Valid() && fresh(data) && Contents() == []
    {
      data, len := new Condition[0], 0;
    }

    /** SetCondition: overwrites in place when the type is there, appends otherwise.  Only an append into a
        full array moves the list to a new array. */
    method SetCondition(u: Update)
      requires Valid()
      modifies this, data
      ensures Valid() && Contents() == Set(old(Contents()), u)
      ensures data == old(data) || fresh(data)
      ensures old(Get(Contents(), u.ctype)).Some? ==> data == old(data) && len == old(len)
    {
      ghost var before := Contents();
      for i := 0 to len
        invariant forall j :: 0 <= j < i ==> before[j].ctype != u.ctype
        invariant Contents() == before && data == old(data) && len == old(len)
      {
        assert before[i] == data[i];
        if data[i].ctype == u.ctype {
          SetAt(before, u, i);
          data[i] := data[i].(status := u.status, reason := u.reason, message := u.message, lastTransition := u.now);
          assert Contents() == before[i := data[i]];
          return;
        }
      }
      SetAtEnd(before, u);
      Append(Condition(u.ctype, u.status, u.reason, u.message, u.now, 0));
    }

    /** Go's append: in place while there is spare capacity, else into a larger array. */
    method Append(c: Condition)
      requires Valid()
      modifies this, data
      ensures Valid() && Contents() == old(Contents()) + [c]
      ensures data == old(data) || fresh(data)
    {
      if len == data.Length {
        var larger := new Condition[2 * len + 1](_ => c);
        forall i | 0 <= i < len {
          larger[i] := data[i];
        }
        data := larger;
      } else {
        data[len] := c;
      }
      len := len + 1;
    }

    method GetCondition(c: ConditionType) returns (r: Option<Condition>)
      requires Valid()
      ensures r == Get(Contents(), c)
    {
      ghost var all := Contents();
      for i := 0 to len
        invariant Get(all, c) == Get(all[i..], c)
      {
        assert all[i..][0] == all[i] == data[i] && all[i..][1..] == all[i + 1..];
        if data[i].ctype == c {
          return Some(data[i]);
        }
      }
      assert all[len..] == [];
      return None;
    }
  }
}
