/** Redis sorted sets as sequences ordered by score, equal scores by member. A member is an id,
    possibly with a value spelled into it. */
module SortedSets {

  datatype Entry<T> = Entry(at: int, id: nat, value: T)

  predicate Earlier<T>(a: Entry<T>, b: Entry<T>) {
    a.at < b.at || (a.at == b.at && a.id < b.id)
  }

  ghost predicate Sorted<T>(xs: seq<Entry<T>>) {
    forall i, j :: 0 <= i < j < |xs| ==> Earlier(xs[i], xs[j])
  }

  function Ids<T>(xs: seq<Entry<T>>): set<nat> {
    if xs == [] then {} else {xs[0].id} + Ids(xs[1..])
  }

  predicate DistinctIds<T>(xs: seq<Entry<T>>) {
    xs != [] ==> xs[0].id !in Ids(xs[1..]) && DistinctIds(xs[1..])
  }

  /** `ZADD` of a new member. */
  function Insert<T>(xs: seq<Entry<T>>, e: Entry<T>): seq<Entry<T>> {
    if xs == [] || Earlier(e, xs[0]) then [e] + xs else [xs[0]] + Insert(xs[1..], e)
  }

  /** `ZREM` of the member with this id and value. */
  function Remove<T(==)>(xs: seq<Entry<T>>, id: nat, value: T): seq<Entry<T>> {
    if xs == [] then []
    else if xs[0].id == id && xs[0].value == value then xs[1..]
    else [xs[0]] + Remove(xs[1..], id, value)
  }

  /** `ZREMRANGEBYSCORE -inf cutoff`. */
  function Drop<T>(xs: seq<Entry<T>>, cutoff: int): seq<Entry<T>> {
    if xs != [] && xs[0].at <= cutoff then Drop(xs[1..], cutoff) else xs
  }

  /** Position of an id (`ZRANK`), or the length if it is absent. */
  function Rank<T>(xs: seq<Entry<T>>, id: nat): (r: nat)
    ensures r <= |xs|
    ensures r < |xs| ==> xs[r].id == id
    ensures forall i :: 0 <= i < r ==> xs[i].id != id
  {
    if xs == [] || xs[0].id == id then 0 else 1 + Rank(xs[1..], id)
  }

  /** The same members without their values. */
  function Strip<T>(xs: seq<Entry<T>>): (r: seq<Entry<()>>)
    ensures |r| == |xs|
    ensures forall i :: 0 <= i < |xs| ==> r[i] == Entry(xs[i].at, xs[i].id, ())
  {
    if xs == [] then [] else [Entry(xs[0].at, xs[0].id, ())] + Strip(xs[1..])
  }

  lemma {:induction false} RankInIds<T>(xs: seq<Entry<T>>, id: nat)
    ensures Rank(xs, id) < |xs| <==> id in Ids(xs)
    decreases |xs|
  {
    if xs != [] {
      RankInIds(xs[1..], id);
    }
  }

  lemma {:induction false} IdsAreElements<T>(xs: seq<Entry<T>>)
    ensures forall x :: x in xs ==> x.id in Ids(xs)
    decreases |xs|
  {
    if xs != [] {
      IdsAreElements(xs[1..]);
      assert forall x :: x in xs ==> x == xs[0] || x in xs[1..];
    }
  }

  lemma {:induction false} IdsOfPrefix<T>(xs: seq<Entry<T>>, i: nat)
    requires DistinctIds(xs) && i < |xs|
    ensures Ids(xs[..i + 1]) == Ids(xs[..i]) + {xs[i].id}
    ensures xs[i].id !in Ids(xs[..i]) && DistinctIds(xs[i + 1..])
    decreases i
  {
    assert xs[..i + 1][1..] == xs[1..][..i];
    if i > 0 {
      assert xs[..i][1..] == xs[1..][..i - 1] && xs[i + 1..] == xs[1..][i..];
      IdsOfPrefix(xs[1..], i - 1);
      IdsAreElements(xs[1..]);
      assert xs[1..][i - 1] in xs[1..];
    }
  }

  lemma SortedCons<T>(x: Entry<T>, xs: seq<Entry<T>>)
    requires Sorted(xs) && forall y :: y in xs ==> Earlier(x, y)
    ensures Sorted([x] + xs)
  {
  }

  // ---- Insert ---------------------------------------------------------------------------

  lemma {:induction false} InsertElements<T>(xs: seq<Entry<T>>, e: Entry<T>)
    ensures |Insert(xs, e)| == |xs| + 1
    ensures forall x :: x in Insert(xs, e) <==> x == e || x in xs
    ensures Ids(Insert(xs, e)) == Ids(xs) + {e.id}
    decreases |xs|
  {
    if xs != [] && !Earlier(e, xs[0]) {
      InsertElements(xs[1..], e);
      assert forall x :: x in xs <==> x == xs[0] || x in xs[1..];
      assert ([xs[0]] + Insert(xs[1..], e))[1..] == Insert(xs[1..], e);
    } else {
      assert ([e] + xs)[1..] == xs;
    }
  }

  lemma {:induction false} InsertSorted<T>(xs: seq<Entry<T>>, e: Entry<T>)
    requires Sorted(xs) && e.id !in Ids(xs)
    ensures Sorted(Insert(xs, e))
    decreases |xs|
  {
    if xs == [] {
    } else if Earlier(e, xs[0]) {
      SortedCons(e, xs);
    } else {
      var rest := xs[1..];
      InsertSorted(rest, e);
      InsertElements(rest, e);
      assert forall x :: x in rest ==> Earlier(xs[0], x);
      SortedCons(xs[0], Insert(rest, e));
    }
  }

  lemma {:induction false} InsertDistinct<T>(xs: seq<Entry<T>>, e: Entry<T>)
    requires DistinctIds(xs) && e.id !in Ids(xs)
    ensures DistinctIds(Insert(xs, e))
    decreases |xs|
  {
    if xs != [] && !Earlier(e, xs[0]) {
      InsertDistinct(xs[1..], e);
      InsertElements(xs[1..], e);
      assert ([xs[0]] + Insert(xs[1..], e))[1..] == Insert(xs[1..], e);
    } else {
      assert ([e] + xs)[1..] == xs;
    }
  }

  lemma {:induction false} DropInsert<T>(xs: seq<Entry<T>>, e: Entry<T>, c: int)
    requires Sorted(xs)
    ensures Drop(Insert(xs, e), c) == if e.at > c then Insert(Drop(xs, c), e) else Drop(xs, c)
    decreases |xs|
  {
    if xs == [] {
      assert [e][1..] == [];
    } else if Earlier(e, xs[0]) {
      assert ([e] + xs)[1..] == xs;
    } else {
      assert ([xs[0]] + Insert(xs[1..], e))[1..] == Insert(xs[1..], e);
      DropInsert(xs[1..], e, c);
    }
  }

  lemma {:induction false} StripInsert<T>(xs: seq<Entry<T>>, e: Entry<T>)
    ensures Strip(Insert(xs, e)) == Insert(Strip(xs), Entry(e.at, e.id, ()))
    decreases |xs|
  {
    if xs != [] && !Earlier(e, xs[0]) {
      StripInsert(xs[1..], e);
      assert Strip(xs)[1..] == Strip(xs[1..]);
      assert ([xs[0]] + Insert(xs[1..], e))[1..] == Insert(xs[1..], e);
    } else {
      assert ([e] + xs)[1..] == xs;
    }
  }

  // ---- Remove ---------------------------------------------------------------------------

  lemma {:induction false} RemoveAbsent<T>(xs: seq<Entry<T>>, id: nat, value: T)
    requires id !in Ids(xs)
    ensures Remove(xs, id, value) == xs
    decreases |xs|
  {
    if xs != [] {
      RemoveAbsent(xs[1..], id, value);
    }
  }

  lemma {:induction false} RemoveInserted<T>(xs: seq<Entry<T>>, e: Entry<T>)
    requires e.id !in Ids(xs)
    ensures Remove(Insert(xs, e), e.id, e.value) == xs
    decreases |xs|
  {
    if xs != [] && !Earlier(e, xs[0]) {
      RemoveInserted(xs[1..], e);
      assert ([xs[0]] + Insert(xs[1..], e))[1..] == Insert(xs[1..], e);
    } else {
      assert ([e] + xs)[1..] == xs;
    }
  }

  lemma {:induction false} RemoveKeepsOrder<T>(xs: seq<Entry<T>>, id: nat, value: T)
    requires Sorted(xs) && DistinctIds(xs)
    ensures Sorted(Remove(xs, id, value)) && DistinctIds(Remove(xs, id, value))
    ensures forall x :: x in Remove(xs, id, value) <==> x in xs && !(x.id == id && x.value == value)
    ensures Ids(Remove(xs, id, value)) <= Ids(xs)
    decreases |xs|
  {
    if xs != [] {
      var r := Remove(xs[1..], id, value);
      assert forall x :: x in xs <==> x == xs[0] || x in xs[1..];
      assert ([xs[0]] + r)[1..] == r;
      IdsAreElements(xs[1..]);
      RemoveKeepsOrder(xs[1..], id, value);
      assert forall x :: x in xs[1..] ==> Earlier(xs[0], x);
      SortedCons(xs[0], r);
    }
  }

  lemma {:induction false} DropRemove<T>(xs: seq<Entry<T>>, id: nat, value: T, c: int)
    requires Sorted(xs) && DistinctIds(xs)
    ensures Drop(Remove(xs, id, value), c) == Remove(Drop(xs, c), id, value)
    decreases |xs|
  {
    if xs != [] {
      var r := Remove(xs[1..], id, value);
      assert ([xs[0]] + r)[1..] == r;
      DropRemove(xs[1..], id, value, c);
      if xs[0].id == id && xs[0].value == value && xs[0].at <= c {
        DropIsSuffix(xs[1..], c);
        RemoveAbsent(Drop(xs[1..], c), id, value);
      } else if xs[0].at > c {
        DropNothing(xs[1..], c);
        DropNothing(xs, c);
        DropIsSuffix(r, c);
      }
    }
  }

  lemma DropNothing<T>(xs: seq<Entry<T>>, c: int)
    requires forall i :: 0 <= i < |xs| ==> xs[i].at > c
    ensures Drop(xs, c) == xs
  {
  }

  lemma {:induction false} StripRemove<T>(xs: seq<Entry<T>>, id: nat, value: T)
    requires DistinctIds(xs) && (forall x :: x in xs && x.id == id ==> x.value == value)
    ensures Strip(Remove(xs, id, value)) == Remove(Strip(xs), id, ())
    decreases |xs|
  {
    if xs != [] {
      assert xs[0] in xs;
      assert Strip(xs)[1..] == Strip(xs[1..]);
      var r := Remove(xs[1..], id, value);
      assert ([xs[0]] + r)[1..] == r;
      StripRemove(xs[1..], id, value);
    }
  }

  // ---- Drop -----------------------------------------------------------------------------

  /** How many entries the cutoff removes. */
  function Dropped<T>(xs: seq<Entry<T>>, c: int): (m: nat)
    ensures m <= |xs| && Drop(xs, c) == xs[m..]
    ensures forall i :: 0 <= i < m ==> xs[i].at <= c
    ensures m < |xs| ==> xs[m].at > c
  {
    if xs != [] && xs[0].at <= c then 1 + Dropped(xs[1..], c) else 0
  }

  lemma {:induction false} DropIsSuffix<T>(xs: seq<Entry<T>>, c: int)
    ensures Ids(Drop(xs, c)) <= Ids(xs)
    ensures DistinctIds(xs) ==> DistinctIds(Drop(xs, c))
    decreases |xs|
  {
    if xs != [] && xs[0].at <= c {
      DropIsSuffix(xs[1..], c);
    }
  }

  lemma DropKeepsOrder<T>(xs: seq<Entry<T>>, c: int)
    requires Sorted(xs)
    ensures Sorted(Drop(xs, c))
    ensures forall i :: Dropped(xs, c) <= i < |xs| ==> xs[i].at > c
  {
    var m := Dropped(xs, c);
    assert forall i :: m < i < |xs| ==> Earlier(xs[m], xs[i]);
  }

  lemma {:induction false} DropTwice<T>(xs: seq<Entry<T>>, c: int, c': int)
    requires c <= c'
    ensures Drop(Drop(xs, c), c') == Drop(xs, c')
    decreases |xs|
  {
    if xs != [] && xs[0].at <= c {
      DropTwice(xs[1..], c, c');
    }
  }

  lemma {:induction false} StripDrop<T>(xs: seq<Entry<T>>, c: int)
    ensures Strip(Drop(xs, c)) == Drop(Strip(xs), c)
    decreases |xs|
  {
    if xs != [] {
      assert Strip(xs)[1..] == Strip(xs[1..]);
      StripDrop(xs[1..], c);
    }
  }

  // ---- Re-adding a member under a new value ----------------------------------------------

  /** Replacing the value of one member, if it is there: `ZREM` then `ZADD` at the same score. */
  function Revalue<T(==)>(xs: seq<Entry<T>>, id: nat, old_: T, new_: T): seq<Entry<T>> {
    var r := Rank(xs, id);
    if r < |xs| && xs[r].value == old_
    then Insert(Remove(xs, id, old_), Entry(xs[r].at, id, new_))
    else xs
  }

  /** The member keeps its place and its score. */
  lemma {:induction false} RevalueInPlace<T>(xs: seq<Entry<T>>, id: nat, old_: T, new_: T)
    requires Sorted(xs) && DistinctIds(xs)
    ensures Revalue(xs, id, old_, new_)
         == var r := Rank(xs, id);
            if r < |xs| && xs[r].value == old_ then xs[r := Entry(xs[r].at, id, new_)] else xs
    decreases |xs|
  {
    var r := Rank(xs, id);
    if r < |xs| && xs[r].value == old_ {
      var e := Entry(xs[r].at, id, new_);
      if r == 0 {
        assert xs[1..] == [] || Earlier(e, xs[1..][0]);
        assert xs[0 := e] == [e] + xs[1..];
      } else {
        RevalueInPlace(xs[1..], id, old_, new_);
        assert Earlier(xs[0], xs[r]);
        var rest := Remove(xs[1..], id, old_);
        assert ([xs[0]] + rest)[1..] == rest;
        assert xs[r := e] == [xs[0]] + xs[1..][r - 1 := e];
      }
    }
  }
}
