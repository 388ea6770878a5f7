/**
 Index maps: the new index of every entry of a queue after a queue change, -1
 for an entry that was removed.  The loops follow server/internal/realtime/hub.go;
 the specification counts members of an index set and picks entries by it.
 */
module IndexMaps {

  // ---------------------------------------------------------------- counting

  /** How many indices in [lo, hi) belong to `chosen`. */
  function Count(chosen: set<int>, lo: int, hi: int): (n: nat)
    requires lo <= hi
    ensures n <= hi - lo
    decreases hi - lo
  {
    if lo == hi then 0 else Count(chosen, lo, hi - 1) + (if hi - 1 in chosen then 1 else 0)
  }

  /** The entries of q[lo..hi] whose index belongs to `chosen`, in queue order. */
  function Pick<T>(q: seq<T>, chosen: set<int>, lo: int, hi: int): (r: seq<T>)
    requires 0 <= lo <= hi <= |q|
    ensures |r| == Count(chosen, lo, hi)
    decreases hi - lo
  {
    if lo == hi then []
    else Pick(q, chosen, lo, hi - 1) + (if hi - 1 in chosen then [q[hi - 1]] else [])
  }

  /** The indices of a queue of length `len` outside `chosen`. */
  function Rest(chosen: set<int>, len: nat): set<int> {
    set i: int | 0 <= i < len && i !in chosen
  }

  lemma {:induction false} CountSplit(chosen: set<int>, lo: int, mid: int, hi: int)
    requires lo <= mid <= hi
    ensures Count(chosen, lo, hi) == Count(chosen, lo, mid) + Count(chosen, mid, hi)
    decreases hi - mid
  {
    if mid < hi {
      CountSplit(chosen, lo, mid, hi - 1);
    }
  }

  lemma {:induction false} PickSplit<T>(q: seq<T>, chosen: set<int>, lo: int, mid: int, hi: int)
    requires 0 <= lo <= mid <= hi <= |q|
    ensures Pick(q, chosen, lo, hi) == Pick(q, chosen, lo, mid) + Pick(q, chosen, mid, hi)
    decreases hi - mid
  {
    if mid < hi {
      PickSplit(q, chosen, lo, mid, hi - 1);
    }
  }

  /** A chosen entry stands in the picked sequence at its rank among the chosen. */
  lemma {:induction false} PickAt<T>(q: seq<T>, chosen: set<int>, lo: int, i: int, hi: int)
    requires 0 <= lo <= i < hi <= |q| && i in chosen
    ensures Count(chosen, lo, i) < Count(chosen, lo, hi)
    ensures Pick(q, chosen, lo, hi)[Count(chosen, lo, i)] == q[i]
    decreases hi - i
  {
    if i < hi - 1 {
      PickAt(q, chosen, lo, i, hi - 1);
    }
  }

  lemma {:induction false} CountRest(chosen: set<int>, len: nat, lo: int, hi: int)
    requires 0 <= lo <= hi <= len
    ensures Count(chosen, lo, hi) + Count(Rest(chosen, len), lo, hi) == hi - lo
    decreases hi - lo
  {
    if lo < hi {
      CountRest(chosen, len, lo, hi - 1);
    }
  }

  /** The member of `chosen` with a given rank. */
  lemma {:induction false} MemberOfRank(chosen: set<int>, lo: int, hi: int, rank: nat) returns (i: int)
    requires lo <= hi && rank < Count(chosen, lo, hi)
    ensures lo <= i < hi && i in chosen && Count(chosen, lo, i) == rank
    decreases hi - lo
  {
    if rank < Count(chosen, lo, hi - 1) {
      i := MemberOfRank(chosen, lo, hi - 1, rank);
    } else {
      i := hi - 1;
    }
  }

  /** Ranks order the members of `chosen`. */
  lemma CountMonotone(chosen: set<int>, lo: int, i: int, j: int)
    requires lo <= i <= j
    ensures Count(chosen, lo, i) <= Count(chosen, lo, j)
    ensures i < j && i in chosen ==> Count(chosen, lo, i) < Count(chosen, lo, j)
  {
    CountSplit(chosen, lo, i, j);
    if i < j {
      CountSplit(chosen, i, i + 1, j);
    }
  }

  lemma {:induction false} CountZero(chosen: set<int>, lo: int, hi: int)
    requires lo <= hi
    requires forall i :: lo <= i < hi ==> i !in chosen
    ensures Count(chosen, lo, hi) == 0
    decreases hi - lo
  {
    if lo < hi {
      CountZero(chosen, lo, hi - 1);
    }
  }

  // ------------------------------------------------------- the map and its law

  /** `m` sends old indices to distinct indices below `newLen`, or to -1. */
  ghost predicate IsIndexMap(m: seq<int>, newLen: nat) {
    && (forall i :: 0 <= i < |m| ==> -1 <= m[i] < newLen)
    && (forall i, j :: 0 <= i < j < |m| && m[i] >= 0 ==> m[i] != m[j])
  }

  /** `m` carries every surviving entry of `before` to the slot of `after` holding it. */
  ghost predicate Carries<T(!new)>(before: seq<T>, after: seq<T>, m: seq<int>) {
    && |m| == |before|
    && IsIndexMap(m, |after|)
    && (forall i :: 0 <= i < |m| && m[i] >= 0 ==> after[m[i]] == before[i])
  }

  /** Some old entry goes to slot j. */
  ghost predicate Reached(m: seq<int>, j: int) {
    exists i :: 0 <= i < |m| && m[i] == j
  }

  /**
   The index-map law: survivors keep their entry, and the slots no survivor
   reaches are exactly [at, at + |items|), holding the inserted items in order.
   */
  ghost predicate IndexMapLaw<T(!new)>(before: seq<T>, after: seq<T>, m: seq<int>, at: int, items: seq<T>) {
    && Carries(before, after, m)
    && 0 <= at <= at + |items| <= |after|
    && after[at..at + |items|] == items
    && (forall j :: 0 <= j < |after| ==> (Reached(m, j) <==> !(at <= j < at + |items|)))
  }

  function SurvivorCount(m: seq<int>): (n: nat)
    ensures n <= |m|
  {
    if m == [] then 0 else SurvivorCount(m[..|m| - 1]) + (if m[|m| - 1] >= 0 then 1 else 0)
  }

  // -------------------------------------------------------- sorting the indices

  ghost predicate StrictlySorted(s: seq<int>) {
    forall i, j :: 0 <= i < j < |s| ==> s[i] < s[j]
  }

  function SetOf(s: seq<int>): set<int> {
    set x | x in s
  }

  /** Sorting and deduplicating, one element at a time. */
  function InsertSorted(s: seq<int>, x: int): (r: seq<int>)
    requires StrictlySorted(s)
    ensures StrictlySorted(r)
    ensures forall y :: y in r <==> y == x || y in s
  {
    if s == [] then [x]
    else if x < s[0] then [x] + s
    else if x == s[0] then s
    else
      assert s == [s[0]] + s[1..];
      var tail := InsertSorted(s[1..], x);
      assert forall y :: y in tail ==> s[0] < y by {
        assert forall k :: 0 < k < |s| ==> s[0] < s[k];
      }
      assert forall j :: 0 <= j < |tail| ==> tail[j] in tail;
      [s[0]] + tail
  }

  /** A strictly sorted sequence below hi has as many elements as its set has members below hi. */
  lemma {:induction false} CountOfSorted(s: seq<int>, hi: nat)
    requires StrictlySorted(s)
    requires forall k :: 0 <= k < |s| ==> 0 <= s[k] < hi
    ensures Count(SetOf(s), 0, hi) == |s|
    decreases hi
  {
    ghost var first := if |s| > 0 then s[0] else -1;
    if hi > 0 {
      var k := |s| - 1;
      if k >= 0 && s[k] == hi - 1 {
        CountOfSorted(s[..k], hi - 1);
        CountSame(SetOf(s), SetOf(s[..k]), 0, hi - 1) by {
          assert s == s[..k] + [s[k]];
        }
      } else {
        assert forall w :: 0 <= w < |s| ==> s[w] <= s[k];
        CountOfSorted(s, hi - 1);
      }
    }
  }

  lemma {:induction false} CountSame(a: set<int>, b: set<int>, lo: int, hi: int)
    requires lo <= hi
    requires forall i :: lo <= i < hi ==> (i in a <==> i in b)
    ensures Count(a, lo, hi) == Count(b, lo, hi)
    decreases hi - lo
  {
    if lo < hi {
      CountSame(a, b, lo, hi - 1);
    }
  }

  lemma {:induction false} PickSame<T>(q: seq<T>, a: set<int>, b: set<int>, lo: int, hi: int)
    requires 0 <= lo <= hi <= |q|
    requires forall i :: lo <= i < hi ==> (i in a <==> i in b)
    ensures Pick(q, a, lo, hi) == Pick(q, b, lo, hi)
    decreases hi - lo
  {
    if lo < hi {
      PickSame(q, a, b, lo, hi - 1);
    }
  }

  lemma SameMembers(a: seq<int>, b: seq<int>)
    requires forall x :: x in a <==> x in b
    ensures SetOf(a) == SetOf(b)
  {
    forall x
      ensures x in SetOf(a) <==> x in SetOf(b)
    {
      assert x in a <==> x in b;
    }
  }

  /** sortedQueueIndices: validates, sorts and deduplicates; an error names no index list. */
  method SortedQueueIndices(indices: seq<int>, queueLen: nat) returns (ok: bool, sorted: seq<int>)
    ensures ok <==> indices != [] && forall x :: x in indices ==> 0 <= x < queueLen
    ensures ok ==> StrictlySorted(sorted) && SetOf(sorted) == SetOf(indices)
    ensures ok ==> forall x :: x in sorted ==> 0 <= x < queueLen
  {
    sorted := [];
    if |indices| == 0 {
      return false, [];
    }
    for k := 0 to |indices|
      invariant StrictlySorted(sorted)
      invariant forall x :: x in sorted <==> x in indices[..k]
      invariant forall x :: x in indices[..k] ==> 0 <= x < queueLen
    {
      var index := indices[k];
      if index < 0 || index >= queueLen {
        assert index in indices;
        return false, [];
      }
      sorted := InsertSorted(sorted, index);
      assert indices[..k + 1] == indices[..k] + [index];
    }
    assert indices[..|indices|] == indices;
    assert indices[0] in indices;
    assert forall x :: x in sorted <==> x in indices;
    SameMembers(sorted, indices);
    ok := true;
  }

  // ---------------------------------------------------------------- the maps

  /** The slot where the moved block starts. */
  function MovedStart(moving: set<int>, gap: int): (at: nat)
    requires 0 <= gap
  {
    gap - Count(moving, 0, gap)
  }

  /** Where the entry at i goes when `moving` is put back into the gap. */
  function MovedTo(moving: set<int>, len: nat, gap: int, i: int): nat
    requires 0 <= gap <= len && 0 <= i < len
  {
    var at := MovedStart(moving, gap);
    if i in moving then at + Count(moving, 0, i)
    else if i < gap then i - Count(moving, 0, i)
    else i - Count(moving, 0, i) + Count(moving, 0, len)
  }

  function MovedMap(moving: set<int>, len: nat, gap: int): (m: seq<int>)
    requires 0 <= gap <= len
    ensures |m| == len
  {
    seq(len, i requires 0 <= i < len => MovedTo(moving, len, gap, i))
  }

  /** Where the entry at i goes when `removing` is taken out. */
  function RemovedTo(removing: set<int>, i: int): int
    requires 0 <= i
  {
    if i in removing then -1 else i - Count(removing, 0, i)
  }

  function RemovedMap(removing: set<int>, len: nat): (m: seq<int>)
    ensures |m| == len
  {
    seq(len, i requires 0 <= i < len => RemovedTo(removing, i))
  }

  /** The queue after a move: staying entries before the gap, the moved block, the other staying entries. */
  function MovedQueue<T>(q: seq<T>, moving: set<int>, gap: int): (r: seq<T>)
    requires 0 <= gap <= |q|
    ensures |r| == |q|
  {
    var rest := Rest(moving, |q|);
    CountRest(moving, |q|, 0, gap);
    CountRest(moving, |q|, gap, |q|);
    CountSplit(moving, 0, gap, |q|);
    Pick(q, rest, 0, gap) + Pick(q, moving, 0, |q|) + Pick(q, rest, gap, |q|)
  }

  /** The queue after a removal. */
  function RemovedQueue<T>(q: seq<T>, removing: set<int>): seq<T> {
    Pick(q, Rest(removing, |q|), 0, |q|)
  }

  /** movedQueueIndexMap: the loops with their three counters. */
  method MovedQueueIndexMap(queueLen: nat, moving: seq<int>, insertBefore: int) returns (indexMap: seq<int>)
    requires StrictlySorted(moving) && forall x :: x in moving ==> 0 <= x < queueLen
    requires 0 <= insertBefore <= queueLen
    ensures indexMap == MovedMap(SetOf(moving), queueLen, insertBefore)
  {
    ghost var chosen := SetOf(moving);
    var insertAt := insertBefore;
    CountZero(SetOf(moving[..0]), 0, insertBefore);
    for k := 0 to |moving|
      invariant insertAt == insertBefore - Count(SetOf(moving[..k]), 0, insertBefore)
    {
      assert moving[k] in moving;
      BelowGapStep(moving, k, insertBefore);
      if moving[k] < insertBefore {
        insertAt := insertAt - 1;
      }
    }
    assert moving[..|moving|] == moving;
    assert forall k :: 0 <= k < |moving| ==> moving[k] in moving;
    CountOfSorted(moving, queueLen);
    indexMap := [];
    var nextStaying := 0;
    var nextMoving := insertAt;
    for index := 0 to queueLen
      invariant |indexMap| == index
      invariant nextStaying == index - Count(chosen, 0, index)
      invariant nextMoving == insertAt + Count(chosen, 0, index)
      invariant forall i :: 0 <= i < index ==> indexMap[i] == MovedTo(chosen, queueLen, insertBefore, i)
    {
      if index in moving {
        indexMap := indexMap + [nextMoving];
        nextMoving := nextMoving + 1;
      } else {
        StayingSide(chosen, queueLen, insertBefore, index);
        indexMap := indexMap + [if nextStaying >= insertAt then nextStaying + |moving| else nextStaying];
        nextStaying := nextStaying + 1;
      }
    }
  }

  /** One more moving index changes the count below the gap by its own membership. */
  lemma BelowGapStep(moving: seq<int>, k: int, gap: int)
    requires 0 <= k < |moving| && StrictlySorted(moving) && 0 <= gap
    requires 0 <= moving[k]
    ensures Count(SetOf(moving[..k + 1]), 0, gap) == Count(SetOf(moving[..k]), 0, gap)
        + (if moving[k] < gap then 1 else 0)
  {
    var x := moving[k];
    assert moving[..k + 1] == moving[..k] + [x];
    var a, b := SetOf(moving[..k]), SetOf(moving[..k + 1]);
    if x < gap {
      CountSplit(a, 0, x, gap);
      CountSplit(a, x, x + 1, gap);
      CountSplit(b, 0, x, gap);
      CountSplit(b, x, x + 1, gap);
      CountSame(a, b, 0, x);
      CountSame(a, b, x + 1, gap);
    } else {
      CountSame(a, b, 0, gap);
    }
  }

  /** The rank test of the loop separates the staying entries before the gap from the others. */
  lemma StayingSide(moving: set<int>, len: nat, gap: int, i: int)
    requires 0 <= gap <= len && 0 <= i < len && i !in moving
    ensures i - Count(moving, 0, i) >= MovedStart(moving, gap) <==> i >= gap
  {
    var rest := Rest(moving, len);
    CountRest(moving, len, 0, i);
    CountRest(moving, len, 0, gap);
    if i < gap {
      CountMonotone(rest, 0, i, gap);
    } else {
      CountMonotone(rest, 0, gap, i);
    }
  }

  /** removedQueueIndexMap. */
  method RemovedQueueIndexMap(queueLen: nat, removing: seq<int>) returns (indexMap: seq<int>)
    ensures indexMap == RemovedMap(SetOf(removing), queueLen)
  {
    ghost var chosen := SetOf(removing);
    indexMap := [];
    var nextIndex := 0;
    for index := 0 to queueLen
      invariant |indexMap| == index
      invariant nextIndex == index - Count(chosen, 0, index)
      invariant forall i :: 0 <= i < index ==> indexMap[i] == RemovedTo(chosen, i)
    {
      if index in removing {
        indexMap := indexMap + [-1];
      } else {
        indexMap := indexMap + [nextIndex];
        nextIndex := nextIndex + 1;
      }
    }
  }

  /** applyQueueIndexMap: counts the survivors, then writes each one into its slot. */
  method ApplyQueueIndexMap<T(0, !new)>(queue: seq<T>, indexMap: seq<int>) returns (r: seq<T>)
    requires |queue| == |indexMap|
    requires IsIndexMap(indexMap, SurvivorCount(indexMap))
    ensures |r| == SurvivorCount(indexMap)
    ensures Carries(queue, r, indexMap)
  {
    var length := 0;
    for index := 0 to |indexMap|
      invariant length == SurvivorCount(indexMap[..index])
    {
      assert indexMap[..index + 1][..index] == indexMap[..index];
      if indexMap[index] >= 0 {
        length := length + 1;
      }
    }
    assert indexMap[..|indexMap|] == indexMap;
    var next := new T[length];
    for index := 0 to |indexMap|
      invariant forall i :: 0 <= i < index && indexMap[i] >= 0 ==> next[indexMap[i]] == queue[i]
    {
      var newIndex := indexMap[index];
      if newIndex >= 0 {
        next[newIndex] := queue[index];
      }
    }
    r := next[..];
  }
}
