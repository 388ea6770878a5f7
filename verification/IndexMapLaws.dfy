/** What the index maps of moves, removals and insertions mean for the queue. */
module IndexMapLaws {
  import opened IndexMaps

  /** A removed queue holds the survivors at their ranks, and every slot holds one. */
  lemma RemovedMapLaw<T(!new)>(q: seq<T>, removing: set<int>)
    ensures IndexMapLaw(q, RemovedQueue(q, removing), RemovedMap(removing, |q|), 0, [])
  {
    var rest := Rest(removing, |q|);
    var m, r := RemovedMap(removing, |q|), RemovedQueue(q, removing);
    forall i | 0 <= i < |q| && i !in removing
      ensures 0 <= m[i] < |r| && r[m[i]] == q[i]
    {
      CountRest(removing, |q|, 0, i);
      PickAt(q, rest, 0, i, |q|);
    }
    forall i, j | 0 <= i < j < |q| && m[i] >= 0
      ensures m[i] != m[j]
    {
      CountRest(removing, |q|, 0, i);
      CountRest(removing, |q|, 0, j);
      CountMonotone(rest, 0, i, j);
    }
    forall j | 0 <= j < |r|
      ensures Reached(m, j)
    {
      var i := MemberOfRank(rest, 0, |q|, j);
      CountRest(removing, |q|, 0, i);
      assert m[i] == j;
    }
    assert r[0..0] == [];
  }

  /** Each entry of a moved queue stands where the map says. */
  lemma MovedSlot<T>(q: seq<T>, moving: set<int>, gap: int, i: int)
    requires 0 <= gap <= |q| && 0 <= i < |q|
    ensures MovedTo(moving, |q|, gap, i) < |q|
    ensures MovedQueue(q, moving, gap)[MovedTo(moving, |q|, gap, i)] == q[i]
  {
    var len, rest := |q|, Rest(moving, |q|);
    CountRest(moving, len, 0, gap);
    CountRest(moving, len, 0, i);
    CountRest(moving, len, 0, len);
    CountRest(moving, len, gap, len);
    CountSplit(rest, 0, gap, len);
    CountSplit(moving, 0, gap, len);
    if i in moving {
      PickAt(q, moving, 0, i, len);
    } else if i < gap {
      PickAt(q, rest, 0, i, gap);
    } else {
      CountSplit(rest, 0, gap, i);
      PickAt(q, rest, gap, i, len);
    }
  }

  /** Different entries go to different slots. */
  lemma MovedInjective(moving: set<int>, len: nat, gap: int, i: int, j: int)
    requires 0 <= gap <= len && 0 <= i < j < len
    ensures MovedTo(moving, len, gap, i) != MovedTo(moving, len, gap, j)
  {
    var rest := Rest(moving, len);
    CountRest(moving, len, 0, gap);
    CountRest(moving, len, 0, i);
    CountRest(moving, len, 0, j);
    CountMonotone(moving, 0, i, j);
    CountMonotone(rest, 0, i, j);
    CountSplit(moving, 0, i, len);
    CountSplit(moving, 0, j, len);
    CountMonotone(moving, 0, i, len);
    CountMonotone(moving, 0, j, len);
    if i !in moving {
      StayingSide(moving, len, gap, i);
    }
    if j !in moving {
      StayingSide(moving, len, gap, j);
    }
  }

  /** Every slot receives an entry. */
  lemma MovedOnto(moving: set<int>, len: nat, gap: int, j: int) returns (i: int)
    requires 0 <= gap <= len && 0 <= j < len
    ensures 0 <= i < len && MovedTo(moving, len, gap, i) == j
  {
    var rest, at := Rest(moving, len), MovedStart(moving, gap);
    var k := Count(moving, 0, len);
    CountRest(moving, len, 0, len);
    CountRest(moving, len, 0, gap);
    CountMonotone(rest, 0, gap, len);
    if at <= j < at + k {
      i := MemberOfRank(moving, 0, len, j - at);
    } else {
      i := MemberOfRank(rest, 0, len, if j < at then j else j - k);
      CountRest(moving, len, 0, i);
      StayingSide(moving, len, gap, i);
    }
  }

  /**
   The moved map is a permutation for every index set and gap, and applying it
   gives staying entries, moved block, staying entries; each slot is filled once.
   */
  lemma MovedMapLaw<T(!new)>(q: seq<T>, moving: set<int>, gap: int)
    requires 0 <= gap <= |q|
    ensures IndexMapLaw(q, MovedQueue(q, moving, gap), MovedMap(moving, |q|, gap), 0, [])
    ensures forall i :: 0 <= i < |q| ==> 0 <= MovedMap(moving, |q|, gap)[i] < |q|
  {
    var m, r := MovedMap(moving, |q|, gap), MovedQueue(q, moving, gap);
    forall i | 0 <= i < |q|
      ensures m[i] < |q| && r[m[i]] == q[i]
    {
      MovedSlot(q, moving, gap, i);
    }
    forall i, j | 0 <= i < j < |q|
      ensures m[i] != m[j]
    {
      MovedInjective(moving, |q|, gap, i, j);
    }
    forall j | 0 <= j < |r|
      ensures Reached(m, j)
    {
      var i := MovedOnto(moving, |q|, gap, j);
      assert m[i] == j;
    }
    assert r[0..0] == [];
  }

  /** Where the entry at i goes when `count` items are inserted at `at`. */
  function InsertedMap(len: nat, at: int, count: nat): (m: seq<int>)
    ensures |m| == len
  {
    seq(len, i requires 0 <= i < len => if i >= at then i + count else i)
  }

  lemma InsertedMapLaw<T(!new)>(q: seq<T>, at: int, items: seq<T>)
    requires 0 <= at <= |q|
    ensures IndexMapLaw(q, q[..at] + items + q[at..], InsertedMap(|q|, at, |items|), at, items)
  {
    var m, r := InsertedMap(|q|, at, |items|), q[..at] + items + q[at..];
    forall j | 0 <= j < |r|
      ensures Reached(m, j) <==> !(at <= j < at + |items|)
    {
      if j < at {
        assert m[j] == j;
      } else if j >= at + |items| {
        assert m[j - |items|] == j;
      }
    }
  }

  /** A map that reaches every slot leaves no choice for the queue it produces. */
  lemma CarriedQueueUnique<T(!new)>(q: seq<T>, a: seq<T>, b: seq<T>, m: seq<int>)
    requires Carries(q, a, m) && Carries(q, b, m) && |a| == |b|
    requires forall j :: 0 <= j < |a| ==> Reached(m, j)
    ensures a == b
  {
    forall j | 0 <= j < |a|
      ensures a[j] == b[j]
    {
      assert Reached(m, j);
      var i :| 0 <= i < |m| && m[i] == j;
      assert m[i] >= 0;
    }
  }

  lemma {:induction false} SurvivorCountPrefix(m: seq<int>, removing: set<int>, n: nat)
    requires n <= |m|
    requires forall i :: 0 <= i < |m| ==> (m[i] < 0 <==> i in removing)
    ensures SurvivorCount(m[..n]) == n - Count(removing, 0, n)
  {
    if n > 0 {
      SurvivorCountPrefix(m, removing, n - 1);
      assert m[..n][..n - 1] == m[..n - 1];
    }
  }

  lemma SurvivorCountOf(m: seq<int>, removing: set<int>)
    requires forall i :: 0 <= i < |m| ==> (m[i] < 0 <==> i in removing)
    ensures SurvivorCount(m) == |m| - Count(removing, 0, |m|)
  {
    SurvivorCountPrefix(m, removing, |m|);
    assert m[..|m|] == m;
  }
}
