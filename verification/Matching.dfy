/** First-match pairing of drops with later rebuilds, apart from where the events come from: pairing each
    rebuild with the oldest open drop of its identity leaves no drop open exactly when some one-to-one
    assignment of later rebuilds to drops exists. */
module Matching {

  datatype Action<Id> = Drop(id: Id) | Rebuild(id: Id) | Neutral

  /** `iter().position(..)`: the first place of `id`, or the length. */
  function Position<Id(==)>(ids: seq<Id>, id: Id): (k: nat)
    ensures k <= |ids|
    ensures k < |ids| ==> ids[k] == id
    ensures forall j :: 0 <= j < k ==> ids[j] != id
  {
    if ids == [] || ids[0] == id then 0 else 1 + Position(ids[1..], id)
  }

  /** `Vec::remove`. */
  function Without<T>(s: seq<T>, k: nat): (r: seq<T>)
    requires k < |s|
    ensures |r| == |s| - 1
    ensures forall i :: 0 <= i < |r| ==> r[i] == s[if i < k then i else i + 1]
  {
    s[..k] + s[k + 1..]
  }

  /** The identities of the drops open after `acts`, oldest first. */
  function Open<Id(==)>(acts: seq<Action<Id>>): seq<Id> {
    if |acts| == 0 then [] else
    var ids := Open(acts[..|acts| - 1]);
    match acts[|acts| - 1]
    case Drop(id) => ids + [id]
    case Rebuild(id) => if Position(ids, id) < |ids| then Without(ids, Position(ids, id)) else ids
    case Neutral => ids
  }

  /** The index of each open drop. */
  ghost function Unpaired<Id>(acts: seq<Action<Id>>): (r: seq<nat>)
    ensures |r| == |Open(acts)|
  {
    if |acts| == 0 then [] else
    var n := |acts| - 1;
    var ids, before := Open(acts[..n]), Unpaired(acts[..n]);
    match acts[n]
    case Drop(id) => before + [n]
    case Rebuild(id) => if Position(ids, id) < |ids| then Without(before, Position(ids, id)) else before
    case Neutral => before
  }

  /** The rebuild that closed each drop that is no longer open. */
  ghost function Paired<Id>(acts: seq<Action<Id>>): map<nat, nat> {
    if |acts| == 0 then map[] else
    var n := |acts| - 1;
    var ids, before := Open(acts[..n]), Paired(acts[..n]);
    match acts[n]
    case Rebuild(id) =>
      if Position(ids, id) < |ids| then before[Unpaired(acts[..n])[Position(ids, id)] := n] else before
    case _ => before
  }

  /** Action `r` is a later rebuild of the drop at `i`. */
  predicate Rebuilds<Id(==)>(acts: seq<Action<Id>>, i: nat, r: nat) {
    i < r < |acts| && acts[i].Drop? && acts[r].Rebuild? && acts[i].id == acts[r].id
  }

  /** `rebuildOf` sends every drop to a later rebuild of its identity, no two to the same one. */
  predicate Assigns<Id(==)>(acts: seq<Action<Id>>, rebuildOf: map<nat, nat>) {
    && (forall i :: 0 <= i < |acts| && acts[i].Drop? ==> i in rebuildOf)
    && Partial(acts, rebuildOf)
  }

  predicate Partial<Id(==)>(acts: seq<Action<Id>>, rebuildOf: map<nat, nat>) {
    && (forall i :: i in rebuildOf ==> Rebuilds(acts, i, rebuildOf[i]))
    && (forall i, j :: i in rebuildOf && j in rebuildOf && rebuildOf[i] == rebuildOf[j] ==> i == j)
  }

  /** Every drop is open or paired, and what is open is not paired. */
  ghost predicate Covers<Id>(acts: seq<Action<Id>>, ids: seq<Id>, unpaired: seq<nat>, paired: map<nat, nat>) {
    && |ids| == |unpaired|
    && (forall k :: 0 <= k < |ids| ==> unpaired[k] < |acts| && acts[unpaired[k]] == Drop(ids[k]) && unpaired[k] !in paired)
    && (forall k, l :: 0 <= k < l < |unpaired| ==> unpaired[k] < unpaired[l])
    && (forall i :: 0 <= i < |acts| && acts[i].Drop? ==> i in unpaired || i in paired)
    && Partial(acts, paired)
  }

  lemma {:induction false} CoversDrop<Id>(acts: seq<Action<Id>>, id: Id, ids: seq<Id>, unpaired: seq<nat>, paired: map<nat, nat>)
    requires Covers(acts, ids, unpaired, paired)
    ensures Covers(acts + [Drop(id)], ids + [id], unpaired + [|acts|], paired)
  {}

  lemma {:induction false} CoversOther<Id>(acts: seq<Action<Id>>, act: Action<Id>, ids: seq<Id>, unpaired: seq<nat>, paired: map<nat, nat>)
    requires Covers(acts, ids, unpaired, paired) && !act.Drop?
    ensures Covers(acts + [act], ids, unpaired, paired)
  {}

  lemma {:induction false} CoversRebuild<Id>(acts: seq<Action<Id>>, k: nat, ids: seq<Id>, unpaired: seq<nat>, paired: map<nat, nat>)
    requires Covers(acts, ids, unpaired, paired) && k < |ids|
    ensures Covers(acts + [Rebuild(ids[k])], Without(ids, k), Without(unpaired, k), paired[unpaired[k] := |acts|])
  {}

  lemma {:induction false} PairingCovers<Id>(acts: seq<Action<Id>>)
    ensures Covers(acts, Open(acts), Unpaired(acts), Paired(acts))
  {
    if |acts| > 0 {
      var n := |acts| - 1;
      var front := acts[..n];
      assert acts == front + [acts[n]];
      PairingCovers(front);
      var ids, unpaired, paired := Open(front), Unpaired(front), Paired(front);
      match acts[n]
      case Drop(id) => CoversDrop(front, id, ids, unpaired, paired);
      case Rebuild(id) =>
        if Position(ids, id) < |ids| {
          CoversRebuild(front, Position(ids, id), ids, unpaired, paired);
        } else {
          CoversOther(front, acts[n], ids, unpaired, paired);
        }
      case Neutral => CoversOther(front, acts[n], ids, unpaired, paired);
    }
  }

  /** Drops of `id` among the first `n` actions whose rebuild is still to come. */
  ghost function Awaiting<Id>(acts: seq<Action<Id>>, rebuildOf: map<nat, nat>, id: Id, n: nat): set<nat>
    requires n <= |acts|
  {
    set i | 0 <= i < n && acts[i] == Drop(id) && i in rebuildOf && rebuildOf[i] >= n
  }

  lemma {:induction false} AwaitingAtDrop<Id>(acts: seq<Action<Id>>, rebuildOf: map<nat, nat>, id: Id, n: nat)
    requires n < |acts| && Assigns(acts, rebuildOf) && acts[n] == Drop(id)
    ensures |Awaiting(acts, rebuildOf, id, n + 1)| == |Awaiting(acts, rebuildOf, id, n)| + 1
  {
    var a, b := Awaiting(acts, rebuildOf, id, n), Awaiting(acts, rebuildOf, id, n + 1);
    NotRebuiltAtDrop(acts, rebuildOf, n, n);
    forall i | i in a
      ensures i in b
    {
      NotRebuiltAtDrop(acts, rebuildOf, i, n);
    }
    assert b == a + {n};
  }

  /** No drop is assigned the place of a drop, and its own rebuild comes later. */
  lemma {:induction false} NotRebuiltAtDrop<Id>(acts: seq<Action<Id>>, rebuildOf: map<nat, nat>, i: nat, n: nat)
    requires n < |acts| && Assigns(acts, rebuildOf) && acts[n].Drop? && i in rebuildOf
    ensures rebuildOf[i] != n && rebuildOf[i] > i
  {
    assert Rebuilds(acts, i, rebuildOf[i]);
  }

  /** Away from a drop of `id`, the drop rebuilt at `n` stops waiting and no other. */
  lemma {:induction false} AwaitingElsewhere<Id>(acts: seq<Action<Id>>, rebuildOf: map<nat, nat>, id: Id, n: nat, x: nat)
    requires n < |acts| && acts[n] != Drop(id)
    requires forall i :: i in rebuildOf && rebuildOf[i] == n ==> i == x
    ensures Awaiting(acts, rebuildOf, id, n) - {x} <= Awaiting(acts, rebuildOf, id, n + 1) <= Awaiting(acts, rebuildOf, id, n)
    ensures !(x in rebuildOf && rebuildOf[x] == n && x < n && acts[x] == Drop(id)) ==>
      Awaiting(acts, rebuildOf, id, n + 1) == Awaiting(acts, rebuildOf, id, n)
  {}

  lemma {:induction false} SizeLessOne(a: set<nat>, b: set<nat>, x: nat)
    requires a - {x} <= b <= a
    ensures |b| + 1 >= |a|
  {
    if x in b {
      assert b == a;
    } else {
      assert b == a - {x};
    }
  }

  lemma {:induction false} AwaitingStep<Id>(acts: seq<Action<Id>>, rebuildOf: map<nat, nat>, id: Id, n: nat)
    requires n < |acts| && Assigns(acts, rebuildOf)
    ensures var a, b := |Awaiting(acts, rebuildOf, id, n)|, |Awaiting(acts, rebuildOf, id, n + 1)|;
            && (acts[n] == Drop(id) ==> b == a + 1)
            && (acts[n] == Rebuild(id) ==> b + 1 >= a)
            && (acts[n] != Drop(id) && acts[n] != Rebuild(id) ==> b == a)
  {
    if acts[n] == Drop(id) {
      AwaitingAtDrop(acts, rebuildOf, id, n);
    } else if x :| x in rebuildOf && rebuildOf[x] == n {
      assert Rebuilds(acts, x, rebuildOf[x]);
      AwaitingElsewhere(acts, rebuildOf, id, n, x);
      SizeLessOne(Awaiting(acts, rebuildOf, id, n), Awaiting(acts, rebuildOf, id, n + 1), x);
    } else {
      AwaitingElsewhere(acts, rebuildOf, id, n, 0);
    }
  }

  lemma {:induction false} RemoveFromMultiset<Id>(ids: seq<Id>, k: nat)
    requires k < |ids|
    ensures multiset(Without(ids, k)) == multiset(ids) - multiset{ids[k]}
  {
    assert ids == ids[..k] + [ids[k]] + ids[k + 1..];
  }

  /** What one action does to the number of open drops of `id`. */
  lemma {:induction false} OpenCountStep<Id>(acts: seq<Action<Id>>, n: nat, id: Id)
    requires n < |acts|
    ensures var a, b := multiset(Open(acts[..n]))[id], multiset(Open(acts[..n + 1]))[id];
            b == if acts[n] == Drop(id) then a + 1 else if acts[n] == Rebuild(id) && a > 0 then a - 1 else a
  {
    assert acts[..n + 1][..n] == acts[..n];
    var ids := Open(acts[..n]);
    if acts[n].Rebuild? {
      var k := Position(ids, acts[n].id);
      if k < |ids| {
        RemoveFromMultiset(ids, k);
        assert ids[k] in multiset(ids);
      } else {
        assert acts[n].id !in multiset(ids);
      }
    }
  }

  /** First-match pairing never has more open drops of one identity than an assignment has awaiting. */
  lemma {:induction false} OpenAtMostAwaiting<Id>(acts: seq<Action<Id>>, rebuildOf: map<nat, nat>, id: Id, n: nat)
    requires n <= |acts| && Assigns(acts, rebuildOf)
    ensures multiset(Open(acts[..n]))[id] <= |Awaiting(acts, rebuildOf, id, n)|
  {
    if n > 0 {
      OpenAtMostAwaiting(acts, rebuildOf, id, n - 1);
      AwaitingStep(acts, rebuildOf, id, n - 1);
      OpenCountStep(acts, n - 1, id);
    }
  }

  lemma {:induction false} AssignmentLeavesNoneOpen<Id>(acts: seq<Action<Id>>, rebuildOf: map<nat, nat>)
    requires Assigns(acts, rebuildOf)
    ensures Open(acts) == []
  {
    var ids := Open(acts);
    assert forall i :: i in rebuildOf ==> Rebuilds(acts, i, rebuildOf[i]) && rebuildOf[i] < |acts|;
    assert acts[..|acts|] == acts;
    assert |ids| > 0 ==> multiset(ids)[ids[0]] > 0;
    if |ids| > 0 {
      assert Awaiting(acts, rebuildOf, ids[0], |acts|) == {};
      OpenAtMostAwaiting(acts, rebuildOf, ids[0], |acts|);
    }
  }

  /** First-match pairing is optimal. */
  lemma {:induction false} NoneOpenIff<Id>(acts: seq<Action<Id>>)
    ensures Open(acts) == [] <==> exists rebuildOf :: Assigns(acts, rebuildOf)
  {
    PairingCovers(acts);
    if Open(acts) == [] {
      assert Assigns(acts, Paired(acts));
    }
    if rebuildOf :| Assigns(acts, rebuildOf) {
      AssignmentLeavesNoneOpen(acts, rebuildOf);
    }
  }
}
