/** `ORDER BY created_at, id LIMIT n` over a set of rows. */
module Ordering {
  import opened Schema

  predicate Before(o: map<Id, Message>, a: Id, b: Id)
    requires a in o && b in o
  {
    o[a].createdAt < o[b].createdAt || (o[a].createdAt == o[b].createdAt && a < b)
  }

  predicate IsEarliest(o: map<Id, Message>, s: set<Id>, e: Id)
    requires s <= o.Keys
  {
    e in s && forall x | x in s && x != e :: Before(o, e, x)
  }

  /** A nonempty set of rows has a first one. */
  lemma {:induction false} EarliestExists(o: map<Id, Message>, s: set<Id>)
    requires s != {} && s <= o.Keys
    ensures exists e :: IsEarliest(o, s, e)
    decreases |s|
  {
    var x :| x in s;
    assert forall y | y in s && y != x :: y in s - {x};
    if s - {x} == {} {
      assert IsEarliest(o, s, x);
    } else {
      EarliestExists(o, s - {x});
      var y :| IsEarliest(o, s - {x}, y);
      assert IsEarliest(o, s, if Before(o, x, y) then x else y);
    }
  }

  /** The first row of a nonempty set. */
  function Earliest(o: map<Id, Message>, s: set<Id>): (e: Id)
    requires s != {} && s <= o.Keys
    ensures IsEarliest(o, s, e)
  {
    EarliestExists(o, s);
    var e :| e in s && IsEarliest(o, s, e);
    e
  }

  /** The first n rows, in order. */
  function Take(o: map<Id, Message>, s: set<Id>, n: nat): seq<Id>
    requires s <= o.Keys
    decreases n
  {
    if n == 0 || s == {} then [] else
      var e := Earliest(o, s);
      [e] + Take(o, s - {e}, n - 1)
  }

  /** `ids` is what ORDER BY created_at, id LIMIT n returns from s: no row twice, strictly
      ascending by creation time and then id, as many rows as there are up to n, and every row
      left out comes later. */
  ghost predicate IsSortedTake(o: map<Id, Message>, s: set<Id>, n: nat, ids: seq<Id>)
    requires s <= o.Keys
  {
    && (forall i | 0 <= i < |ids| :: ids[i] in s)
    && (forall i, j | 0 <= i < j < |ids| ::
          o[ids[i]].createdAt < o[ids[j]].createdAt || (o[ids[i]].createdAt == o[ids[j]].createdAt && ids[i] < ids[j]))
    && |ids| == (if |s| < n then |s| else n)
    && (forall i, x | 0 <= i < |ids| && x in s && x !in ids ::
          o[ids[i]].createdAt < o[x].createdAt || (o[ids[i]].createdAt == o[x].createdAt && ids[i] < x))
  }

  /** The same through the comparison the selection uses. */
  ghost predicate IsOrderedTake(o: map<Id, Message>, s: set<Id>, n: nat, ids: seq<Id>)
    requires s <= o.Keys
  {
    && (forall i | 0 <= i < |ids| :: ids[i] in s)
    && (forall i, j | 0 <= i < j < |ids| :: Before(o, ids[i], ids[j]))
    && |ids| == (if |s| < n then |s| else n)
    && (forall i, x | 0 <= i < |ids| && x in s && x !in ids :: Before(o, ids[i], x))
  }

  lemma {:induction false} TakeIsOrdered(o: map<Id, Message>, s: set<Id>, n: nat)
    requires s <= o.Keys
    ensures IsOrderedTake(o, s, n, Take(o, s, n))
    decreases n
  {
    if n != 0 && s != {} {
      var e := Earliest(o, s);
      var rest := Take(o, s - {e}, n - 1);
      TakeIsOrdered(o, s - {e}, n - 1);
      var ids := Take(o, s, n);
      assert ids == [e] + rest;
      assert |s - {e}| == |s| - 1;
      forall i | 0 < i < |ids|
        ensures ids[i] == rest[i - 1] && ids[i] in s - {e} && Before(o, e, ids[i])
      {
      }
      forall x | x in s && x !in ids
        ensures x in s - {e} && x !in rest && Before(o, e, x)
      {
        assert ids[0] == e;
      }
    }
  }

  lemma TakeIsSorted(o: map<Id, Message>, s: set<Id>, n: nat)
    requires s <= o.Keys
    ensures IsSortedTake(o, s, n, Take(o, s, n))
  {
    TakeIsOrdered(o, s, n);
    OrderedIsSorted(o, s, n, Take(o, s, n));
  }

  lemma OrderedIsSorted(o: map<Id, Message>, s: set<Id>, n: nat, ids: seq<Id>)
    requires s <= o.Keys && IsOrderedTake(o, s, n, ids)
    ensures IsSortedTake(o, s, n, ids)
  {
    forall i, j | 0 <= i < j < |ids|
      ensures o[ids[i]].createdAt < o[ids[j]].createdAt || (o[ids[i]].createdAt == o[ids[j]].createdAt && ids[i] < ids[j])
    {
      assert Before(o, ids[i], ids[j]);
    }
    forall i, x | 0 <= i < |ids| && x in s && x !in ids
      ensures o[ids[i]].createdAt < o[x].createdAt || (o[ids[i]].createdAt == o[x].createdAt && ids[i] < x)
    {
      assert Before(o, ids[i], x);
    }
  }

  /** A sorted take that is not full leaves nothing out. */
  lemma TakeIsAll(o: map<Id, Message>, s: set<Id>, n: nat, ids: seq<Id>)
    requires s <= o.Keys && IsSortedTake(o, s, n, ids)
    ensures |ids| <= n && (|ids| < n ==> forall x | x in s :: x in ids)
  {
    if |ids| < n {
      DistinctCount(ids);
      assert s == Ids(ids) + (s - Ids(ids));
    }
  }

  function Ids(ids: seq<Id>): set<Id> {
    set x | x in ids
  }

  lemma {:induction false} DistinctCount(ids: seq<Id>)
    requires forall i, j | 0 <= i < j < |ids| :: ids[i] != ids[j]
    ensures |Ids(ids)| == |ids|
  {
    if ids != [] {
      var before, x := ids[..|ids| - 1], ids[|ids| - 1];
      DistinctCount(before);
      assert Ids(ids) == Ids(before) + {x};
      assert x !in Ids(before);
    }
  }

  predicate SameCreation(o: map<Id, Message>, o': map<Id, Message>, s: set<Id>)
    requires s <= o.Keys
  {
    forall x | x in s :: x in o' && o'[x].createdAt == o[x].createdAt
  }

  /** Only creation times and the set matter. */
  lemma {:induction false} TakeDependsOnCreation(o: map<Id, Message>, o': map<Id, Message>, s: set<Id>, n: nat)
    requires s <= o.Keys && SameCreation(o, o', s)
    ensures Take(o, s, n) == Take(o', s, n)
    decreases n
  {
    if n != 0 && s != {} {
      var e, e' := Earliest(o, s), Earliest(o', s);
      assert e == e';
      TakeDependsOnCreation(o, o', s - {e}, n - 1);
    }
  }

  /** The earliest row, and the rest as any later state of the rows orders it. */
  lemma TakeFirst(o: map<Id, Message>, o': map<Id, Message>, s: set<Id>, n: nat, rest: seq<Id>)
    requires s <= o.Keys && s != {} && n > 0 && SameCreation(o, o', s - {Earliest(o, s)})
    requires rest == Take(o', s - {Earliest(o, s)}, n - 1)
    ensures Take(o, s, n) == [Earliest(o, s)] + rest
  {
    TakeDependsOnCreation(o, o', s - {Earliest(o, s)}, n - 1);
  }
}
