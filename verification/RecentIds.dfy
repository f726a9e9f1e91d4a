/** `RecentIds`: the last `limit` ids added, the oldest evicted first. */
module RecentIds {

  function Without(ids: seq<string>, id: string): (r: seq<string>)
    ensures forall x :: x in r <==> x in ids && x != id
  {
    if ids == [] then []
    else if ids[0] == id then Without(ids[1..], id)
    else [ids[0]] + Without(ids[1..], id)
  }

  /** One `add()`, on the ids in insertion order. */
  function Added(ids: seq<string>, id: string, limit: nat): (r: seq<string>)
  {
    var added := Without(ids, id) + [id];
    if |added| > limit then added[1..] else added
  }

  class RecentIds {
    const limit: nat
    /** The JavaScript `Set`, which iterates in insertion order. */
    var ids: seq<string>
    /** Every id added so far. */
    ghost var history: seq<string>

    ghost predicate Valid()
      reads this
    {
      ids == Suffix(DistinctByLastAdd(history), limit)
    }

    constructor (limit: nat)
      ensures Valid() && history == [] && this.limit == limit
    {
      this.limit := limit;
      ids := [];
      history := [];
    }

    /** `Set.prototype.delete()` of a value. */
    method Delete(id: string)
      modifies this`ids
      ensures ids == Without(old(ids), id)
    {
      var kept := [];
      for i := 0 to |ids|
        invariant ids == old(ids)
        invariant kept + Without(ids[i..], id) == Without(ids, id)
      {
        assert ids[i..][1..] == ids[i + 1..];
        if ids[i] != id {
          kept := kept + [ids[i]];
        }
      }
      ids := kept;
    }

    method Add(id: string)
      requires Valid()
      modifies this
      ensures Valid() && history == old(history) + [id]
      ensures ids == Added(old(ids), id, limit)
    {
      AddKeepsMostRecent(history, id, limit);
      Delete(id);
      ids := ids + [id];
      if |ids| > limit {
        ids := ids[1..];
      }
      history := history + [id];
    }

    method Has(id: string) returns (found: bool)
      requires Valid()
      ensures found <==> id in Suffix(DistinctByLastAdd(history), limit)
    {
      found := id in ids;
    }
  }

  // ---------------------------------------------------------- what it keeps

  /** The last `n` elements, or all of them. */
  function Suffix(s: seq<string>, n: nat): seq<string> {
    if |s| <= n then s else s[|s| - n..]
  }

  /** The distinct ids of a history, the one added last at the end. */
  function DistinctByLastAdd(history: seq<string>): (r: seq<string>)
    ensures forall x :: x in r <==> x in history
  {
    if history == [] then []
    else
      var id := history[|history| - 1];
      Without(DistinctByLastAdd(history[..|history| - 1]), id) + [id]
  }

  function LastAdd(history: seq<string>, id: string): (r: nat)
    requires id in history
    ensures r < |history| && history[r] == id
    ensures forall i :: r < i < |history| ==> history[i] != id
  {
    if history[|history| - 1] == id then |history| - 1 else LastAdd(history[..|history| - 1], id)
  }

  /** Each id was last added after the ones before it. */
  ghost predicate ByLastAdd(ids: seq<string>, history: seq<string>)
    requires forall x :: x in ids ==> x in history
  {
    forall i, j :: 0 <= i < j < |ids| ==> LastAdd(history, ids[i]) < LastAdd(history, ids[j])
  }

  lemma {:induction false} WithoutByLastAdd(ids: seq<string>, id: string, history: seq<string>)
    requires forall x :: x in ids ==> x in history
    requires ByLastAdd(ids, history)
    ensures ByLastAdd(Without(ids, id), history)
  {
    if ids != [] {
      WithoutByLastAdd(ids[1..], id, history);
      var kept := Without(ids[1..], id);
      forall k | 0 <= k < |kept| ensures LastAdd(history, ids[0]) < LastAdd(history, kept[k]) {
        assert kept[k] in ids[1..];
        var at :| 0 <= at < |ids[1..]| && ids[1..][at] == kept[k];
        assert ids[at + 1] == kept[k];
      }
    }
  }

  /** The order is the order of last adds, which leaves no choice (and no duplicate). */
  lemma {:induction false} OrderedByLastAdd(history: seq<string>)
    ensures ByLastAdd(DistinctByLastAdd(history), history)
  {
    if history != [] {
      var before, id := history[..|history| - 1], history[|history| - 1];
      OrderedByLastAdd(before);
      WithoutByLastAdd(DistinctByLastAdd(before), id, before);
      var kept := Without(DistinctByLastAdd(before), id);
      forall k | 0 <= k < |kept|
        ensures kept[k] in before && kept[k] in history
        ensures LastAdd(history, kept[k]) == LastAdd(before, kept[k]) < |history| - 1
      {
        assert kept[k] in kept;
      }
    }
  }

  lemma {:induction false} WithoutConcat(a: seq<string>, b: seq<string>, id: string)
    ensures Without(a + b, id) == Without(a, id) + Without(b, id)
  {
    if a == [] {
      assert a + b == b;
    } else {
      assert (a + b)[1..] == a[1..] + b;
      WithoutConcat(a[1..], b, id);
    }
  }

  predicate Distinct(s: seq<string>) {
    forall i, j :: 0 <= i < j < |s| ==> s[i] != s[j]
  }

  lemma {:induction false} WithoutAbsent(s: seq<string>, id: string)
    requires id !in s
    ensures Without(s, id) == s
  {
    if s != [] { WithoutAbsent(s[1..], id); }
  }

  lemma {:induction false} WithoutPresent(s: seq<string>, id: string)
    requires id in s && Distinct(s)
    ensures |Without(s, id)| == |s| - 1
  {
    if s[0] == id {
      WithoutAbsent(s[1..], id);
    } else {
      WithoutPresent(s[1..], id);
    }
  }

  lemma {:induction false} WithoutDistinct(s: seq<string>, id: string)
    requires Distinct(s)
    ensures Distinct(Without(s, id))
  {
    if s != [] {
      WithoutDistinct(s[1..], id);
      var kept := Without(s[1..], id);
      forall k | 0 <= k < |kept| ensures kept[k] != s[0] {
        assert kept[k] in s[1..];
        var at :| 0 <= at < |s[1..]| && s[1..][at] == kept[k];
        assert s[at + 1] == kept[k];
      }
    }
  }

  lemma {:induction false} AddedMembers(ids: seq<string>, id: string, limit: nat)
    ensures forall x :: x in Added(ids, id, limit) ==> x in ids || x == id
  {
  }

  /** Forgetting before an add or after it makes no difference. */
  lemma {:induction false} AddToSuffix(all: seq<string>, id: string, limit: nat)
    requires Distinct(all)
    ensures Added(Suffix(all, limit), id, limit) == Suffix(Without(all, id) + [id], limit)
  {
    hide Without;
    if |all| <= limit {
      if id in all { WithoutPresent(all, id); } else { WithoutAbsent(all, id); }
    } else {
      var forgotten, kept := all[..|all| - limit], all[|all| - limit..];
      var x := [id];
      assert all == forgotten + kept;
      WithoutConcat(forgotten, kept, id);
      if id in kept {
        WithoutPresent(kept, id);
        WithoutAbsent(forgotten, id);
        assert forgotten + Without(kept, id) + x == forgotten + (Without(kept, id) + x);
      } else {
        WithoutAbsent(kept, id);
        assert Without(forgotten, id) + kept + x == (Without(forgotten, id) + kept[..|kept|]) + x;
      }
    }
  }

  lemma {:induction false} DistinctIds(history: seq<string>)
    ensures Distinct(DistinctByLastAdd(history))
  {
    OrderedByLastAdd(history);
  }

  /** One add keeps the contents equal to the most recent distinct ids of the history. */
  lemma {:induction false} AddKeepsMostRecent(history: seq<string>, id: string, limit: nat)
    ensures Added(Suffix(DistinctByLastAdd(history), limit), id, limit)
      == Suffix(DistinctByLastAdd(history + [id]), limit)
  {
    DistinctIds(history);
    AddToSuffix(DistinctByLastAdd(history), id, limit);
    assert (history + [id])[..|history|] == history;
  }

  /** Whatever was added before, an id is remembered while fewer than `limit` others came after it. */
  lemma {:induction false} RemembersRecent(history: seq<string>, id: string, limit: nat)
    requires id in history && |history| - LastAdd(history, id) <= limit
    ensures id in Suffix(DistinctByLastAdd(history), limit)
  {
    var ids := DistinctByLastAdd(history);
    OrderedByLastAdd(history);
    var k :| 0 <= k < |ids| && ids[k] == id;
    LastAddsSpread(history, k, |ids| - 1);
    if |ids| > limit {
      assert k >= |ids| - limit;
      assert Suffix(ids, limit)[k - (|ids| - limit)] == id;
    }
  }

  lemma {:induction false} LastAddsSpread(history: seq<string>, i: nat, j: nat)
    requires i <= j < |DistinctByLastAdd(history)|
    ensures
      var ids := DistinctByLastAdd(history);
      LastAdd(history, ids[j]) - LastAdd(history, ids[i]) >= j - i
    decreases j - i
  {
    OrderedByLastAdd(history);
    if i < j { LastAddsSpread(history, i, j - 1); }
  }
}
