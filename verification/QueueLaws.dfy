/** What the queue reducers guarantee: index maps, the play-next region, agreement of the two removals. */
module QueueLaws {
  import opened Wrappers
  import opened Playback
  import opened IndexMaps
  import opened IndexMapLaws
  import opened QueueReducer

  /** Queue, revision and map are untouched. */
  predicate QueueKept(s: PlaybackState, s': PlaybackState) {
    s'.queue == s.queue && s'.revision == s.revision && s'.indexMap == s.indexMap
  }

  /** One revision later, the map follows the entries; `items` appeared at `at`. */
  ghost predicate QueueCarried(s: PlaybackState, s': PlaybackState, at: int, items: seq<Entry>) {
    && Revision(s') == Revision(s) + 1
    && s'.indexMap.Some?
    && IndexMapLaw(s.queue, s'.queue, s'.indexMap.value, at, items)
  }

  /** One revision later, the queue was replaced wholesale. */
  predicate QueueReplaced(s: PlaybackState, s': PlaybackState) {
    Revision(s') == Revision(s) + 1 && s'.indexMap == Some([])
  }

  // ----------------------------------------------------------- the index-map law

  /** The law of each operation, from the decoded state to the stored one. */
  ghost predicate CommandLaw(s: PlaybackState, s': PlaybackState, command: Command) {
    match command.op
    case SetQueue => QueueReplaced(s, s') && s'.queue == command.queue
    case ClearQueue => QueueReplaced(s, s') && s'.queue == []
    case InsertAfterCurrent =>
      if command.items == [] then QueueKept(s, s')
      else QueueCarried(s, s', PlayNextEnd(|s.queue|, s.current, s.playNext), command.items)
    case AppendToQueue =>
      if command.items == [] then QueueKept(s, s') else QueueCarried(s, s', |s.queue|, command.items)
    case MoveQueueIndices => MoveLaw(s, s', command)
    case RemoveQueueIndex =>
      QueueCarried(s, s', 0, []) && RemovesExactly(s, s', if command.index.Some? then {command.index.value} else {})
    case RemoveQueueIndices => QueueCarried(s, s', 0, []) && RemovesExactly(s, s', SetOf(command.indices))
    case _ => QueueKept(s, s')
  }

  /** A move that changes no position changes nothing; any other one stores its permutation one revision later. */
  ghost predicate MoveLaw(s: PlaybackState, s': PlaybackState, command: Command) {
    && command.insertBefore.Some? && 0 <= command.insertBefore.value <= |s.queue|
    && var m := MovedMap(SetOf(command.indices), |s.queue|, command.insertBefore.value);
       if IsIdentity(m) then QueueKept(s, s')
       else
         && QueueCarried(s, s', 0, []) && s'.indexMap == Some(m) && RemovesExactly(s, s', {})
         && s'.queue == MovedQueue(s.queue, SetOf(command.indices), command.insertBefore.value)
  }

  /** The entries that the map drops are exactly those at `removed`. */
  ghost predicate RemovesExactly(s: PlaybackState, s': PlaybackState, removed: set<int>) {
    && s'.indexMap.Some? && |s'.indexMap.value| == |s.queue|
    && forall i :: 0 <= i < |s.queue| ==> (s'.indexMap.value[i] < 0 <==> i in removed)
  }

  /** Every accepted queue command obeys the law of its operation. */
  lemma QueueCommandLaw(shared: Shared, command: Command, device: string, now: int)
    requires Normalized(shared.state)
    requires ReduceQueue(shared, command, device, now).Ok?
    ensures CommandLaw(shared.state, ReduceQueue(shared, command, device, now).value.state, command)
  {
    NormalizeReachesFixedPoint(shared.state);
    if !(command.op in {InsertAfterCurrent, AppendToQueue} && command.items == []) {
      UpdateLaw(shared.state, command);
      NormalizeKeepsQueue(QueueUpdate(shared.state, command).value);
    }
  }

  lemma UpdateLaw(s: PlaybackState, command: Command)
    requires Normalized(s) && QueueUpdate(s, command).Ok?
    requires !(command.op in {InsertAfterCurrent, AppendToQueue} && command.items == [])
    ensures CommandLaw(s, QueueUpdate(s, command).value, command)
  {
    match command.op {
      case InsertAfterCurrent => InsertStateLaw(s, command.items);
      case AppendToQueue => AppendStateLaw(s, command.items);
      case MoveQueueIndices => MoveStateLaw(s, command);
      case RemoveQueueIndex => RemoveOneStateLaw(s, command.index.value);
      case RemoveQueueIndices => RemoveManyStateLaw(s, SetOf(command.indices));
      case _ =>
    }
  }

  lemma InsertStateLaw(s: PlaybackState, items: seq<Entry>)
    ensures QueueCarried(s, InsertState(s, items), PlayNextEnd(|s.queue|, s.current, s.playNext), items)
  {
    InsertedMapLaw(s.queue, PlayNextEnd(|s.queue|, s.current, s.playNext), items);
  }

  lemma AppendStateLaw(s: PlaybackState, items: seq<Entry>)
    ensures QueueCarried(s, AppendState(s, items), |s.queue|, items)
  {
    AppendLaw(s.queue, items);
  }

  lemma MoveStateLaw(s: PlaybackState, command: Command)
    requires CurrentInRange(s) && command.insertBefore.Some? && 0 <= command.insertBefore.value <= |s.queue|
    ensures MoveLaw(s, MoveState(s, SetOf(command.indices), command.insertBefore.value), command)
  {
    MovedMapLaw(s.queue, SetOf(command.indices), command.insertBefore.value);
  }

  lemma RemoveOneStateLaw(s: PlaybackState, i: int)
    requires CurrentInRange(s) && 0 <= i < |s.queue|
    ensures QueueCarried(s, RemoveOneState(s, i), 0, []) && RemovesExactly(s, RemoveOneState(s, i), {i})
  {
    RemoveOneLaw(s.queue, i);
  }

  lemma RemoveManyStateLaw(s: PlaybackState, removing: set<int>)
    requires CurrentInRange(s)
    ensures QueueCarried(s, RemoveManyState(s, removing), 0, [])
        && RemovesExactly(s, RemoveManyState(s, removing), removing)
  {
    RemovedMapLaw(s.queue, removing);
  }

  lemma AppendLaw(q: seq<Entry>, items: seq<Entry>)
    ensures IndexMapLaw(q, q + items, InsertedMap(|q|, |q|, |items|), |q|, items)
  {
    InsertedMapLaw(q, |q|, items);
    assert q[..|q|] + items + q[|q|..] == q + items;
  }

  /** Splicing one entry out is removing the singleton set. */
  lemma SpliceIsRemoval<T>(q: seq<T>, i: int)
    requires 0 <= i < |q|
    ensures q[..i] + q[i + 1..] == RemovedQueue(q, {i})
  {
    var rest := Rest({i}, |q|);
    PickSplit(q, rest, 0, i + 1, |q|);
    assert Pick(q, rest, 0, i + 1) == Pick(q, rest, 0, i);
    PickAll(q, rest, 0, i);
    PickAll(q, rest, i + 1, |q|);
  }

  lemma {:induction false} PickAll<T>(q: seq<T>, chosen: set<int>, lo: int, hi: int)
    requires 0 <= lo <= hi <= |q|
    requires forall i :: lo <= i < hi ==> i in chosen
    ensures Pick(q, chosen, lo, hi) == q[lo..hi]
    decreases hi - lo
  {
    if lo < hi {
      PickAll(q, chosen, lo, hi - 1);
      assert q[lo..hi] == q[lo..hi - 1] + [q[hi - 1]];
    }
  }

  lemma RemoveOneLaw(q: seq<Entry>, i: int)
    requires 0 <= i < |q|
    ensures IndexMapLaw(q, q[..i] + q[i + 1..], RemovedMap({i}, |q|), 0, [])
  {
    SpliceIsRemoval(q, i);
    RemovedMapLaw(q, {i});
  }

  // -------------------------------------------------------------------- the move

  /** After a move the same entry is current, wherever it went, and the position is kept. */
  lemma MoveKeepsCurrentEntry(s: PlaybackState, moving: set<int>, gap: int)
    requires Normalized(s) && 0 <= gap <= |s.queue|
    ensures var s' := MoveState(s, moving, gap);
      && CurrentEntry(s') == CurrentEntry(s) && s'.position == s.position && s'.playing == s.playing
      && s'.queue == MovedQueue(s.queue, moving, gap)
      && Normalize(s') == Ok(s')
  {
    MovedMapLaw(s.queue, moving, gap);
    var m := MovedMap(moving, |s.queue|, gap);
    if IsIdentity(m) {
      IdentityMoveKeepsQueue(s.queue, moving, gap);
    } else {
      MovedCursors(s, moving, gap);
      if s.current.Some? {
        assert m[s.current.value] >= 0;
      }
    }
    NormalizeReachesFixedPoint(MoveState(s, moving, gap));
  }

  /**
   The region of a moved queue is positional: it keeps its end while the current entry stays
   or lands inside it, whichever entries stand there, and is empty otherwise.
   */
  lemma MovedRegionIsPositional(s: PlaybackState, moving: set<int>, gap: int)
    requires Normalized(s) && 0 <= gap <= |s.queue|
    ensures var s' := MoveState(s, moving, gap);
      var n, end := |s.queue|, PlayNextEnd(|s.queue|, s.current, s.playNext);
      match s'.current
      case None => PlayNextEntries(s') == s'.queue[..end]
      case Some(j) =>
        PlayNextEntries(s') ==
          (if s.current == Some(j) || IsPlayNextIndex(n, s.current, s.playNext, j) then s'.queue[j + 1..end] else [])
  {
    MovedMapLaw(s.queue, moving, gap);
    if s.current.Some? {
      var j := MovedMap(moving, |s.queue|, gap)[s.current.value];
      assert j >= 0;
      CurrentChangeShrinksRegion(s, j);
    }
  }

  lemma IdentityMoveKeepsQueue(q: seq<Entry>, moving: set<int>, gap: int)
    requires 0 <= gap <= |q| && IsIdentity(MovedMap(moving, |q|, gap))
    ensures MovedQueue(q, moving, gap) == q
  {
    var m := MovedMap(moving, |q|, gap);
    MovedMapLaw(q, moving, gap);
    assert Carries(q, q, m);
    CarriedQueueUnique(q, q, MovedQueue(q, moving, gap), m);
  }

  /** The moved state is normalized: its cursors fit, and its song id is that of the same entry. */
  lemma MovedCursors(s: PlaybackState, moving: set<int>, gap: int)
    requires Normalized(s) && 0 <= gap <= |s.queue| && !IsIdentity(MovedMap(moving, |s.queue|, gap))
    ensures Normalized(MoveState(s, moving, gap))
  {
    MovedMapLaw(s.queue, moving, gap);
    if s.current.Some? {
      var j := MovedMap(moving, |s.queue|, gap)[s.current.value];
      assert j >= 0;
      CurrentChangeShrinksRegion(s, j);
    }
  }

  // ----------------------------------------------------------- the batch removal

  /** Surviving entries of the old region, in queue order. */
  function SurvivingRegion(s: PlaybackState, removing: set<int>): seq<Entry> {
    Pick(s.queue, Rest(removing, |s.queue|), PlayNextStart(|s.queue|, s.current), PlayNextEnd(|s.queue|, s.current,
      s.playNext))
  }

  /** The survivors from lo on stand together in the new queue, from the rank of lo. */
  lemma SurvivorsStandTogether<T>(q: seq<T>, removing: set<int>, lo: int, hi: int)
    requires 0 <= lo <= hi <= |q|
    ensures var r := RemovedQueue(q, removing);
      var kept := Count(Rest(removing, |q|), lo, hi);
      0 <= RankOf(removing, lo) <= RankOf(removing, lo) + kept <= |r|
      && r[RankOf(removing, lo)..RankOf(removing, lo) + kept] == Pick(q, Rest(removing, |q|), lo, hi)
  {
    var rest := Rest(removing, |q|);
    CountRest(removing, |q|, 0, lo);
    PickSplit(q, rest, 0, hi, |q|);
    PickSplit(q, rest, 0, lo, hi);
  }

  /** Which entry is current after a batch removal. */
  lemma BatchRemovalCurrent(s: PlaybackState, removing: set<int>)
    requires Normalized(s)
    ensures var s' := RemoveManyState(s, removing);
      match s.current
      case None => s'.current.None?
      case Some(c) =>
        if c !in removing then CurrentEntry(s') == Some(s.queue[c])
        else if s'.queue == [] then s'.current.None?
        else if SurvivorAfter(s, removing, c) then
          exists r :: c < r < |s.queue| && r !in removing && (forall i :: c < i < r ==> i in removing)
                      && CurrentEntry(s') == Some(s.queue[r])
        else CurrentEntry(s') == Some(s'.queue[|s'.queue| - 1])
  {
    var n, rest := |s.queue|, Rest(removing, |s.queue|);
    var q := RemovedQueue(s.queue, removing);
    if s.current.Some? {
      var c := s.current.value;
      CountRest(removing, n, 0, c);
      if c !in removing {
        PickAt(s.queue, rest, 0, c, n);
      } else if SurvivorAfter(s, removing, c) {
        var r := FirstSurvivor(s, removing, c);
        CountRest(removing, n, 0, r);
        PickAt(s.queue, rest, 0, r, n);
        RankOfReplacement(removing, c, r);
      }
    }
  }

  lemma FirstSurvivor(s: PlaybackState, removing: set<int>, c: int) returns (r: int)
    requires SurvivorAfter(s, removing, c)
    ensures c < r < |s.queue| && r !in removing && forall i :: c < i < r ==> i in removing
  {
    r := c + 1;
    while r in removing
      invariant c < r
      invariant forall i :: c < i < r ==> i in removing
      invariant r < |s.queue|
      decreases |s.queue| - r
    {
      r := r + 1;
    }
  }

  /**
   The new play-next region is the surviving part of the old one, in order, minus the
   entry that was promoted to current; the stored length is exact, not clamped.
   */
  lemma BatchRemovalRegion(s: PlaybackState, removing: set<int>)
    requires Normalized(s)
    ensures var s' := RemoveManyState(s, removing);
      var kept := SurvivingRegion(s, removing);
      && PlayNextEntries(s') == (if CurrentRemoved(s, removing) && kept != [] then kept[1..] else kept)
      && s'.playNext == |PlayNextEntries(s')|
      && (CurrentRemoved(s, removing) && kept != [] ==> CurrentEntry(s') == Some(kept[0]))
  {
    if RemovedQueue(s.queue, removing) == [] {
      NothingKept(s, removing);
    } else if !CurrentRemoved(s, removing) {
      RegionWithCurrentKept(s, removing);
    } else {
      RegionWithCurrentRemoved(s, removing);
    }
  }

  predicate CurrentRemoved(s: PlaybackState, removing: set<int>) {
    s.current.Some? && s.current.value in removing
  }

  lemma NothingKept(s: PlaybackState, removing: set<int>)
    requires RemovedQueue(s.queue, removing) == []
    ensures SurvivingRegion(s, removing) == []
  {
    SurvivorsStandTogether(s.queue, removing, PlayNextStart(|s.queue|, s.current), PlayNextEnd(|s.queue|, s.current,
      s.playNext));
  }

  lemma RegionWithCurrentKept(s: PlaybackState, removing: set<int>)
    requires Normalized(s) && RemovedQueue(s.queue, removing) != [] && !CurrentRemoved(s, removing)
    ensures var s' := RemoveManyState(s, removing);
      PlayNextEntries(s') == SurvivingRegion(s, removing) && s'.playNext == |PlayNextEntries(s')|
  {
    var n := |s.queue|;
    var start, end := PlayNextStart(n, s.current), PlayNextEnd(n, s.current, s.playNext);
    SurvivorsStandTogether(s.queue, removing, start, end);
    if s.current.Some? {
      CountSplit(removing, 0, s.current.value, start);
    }
    assert RemoveManyState(s, removing).playNext == RegionSurvivors(s, removing);
  }

  lemma RegionWithCurrentRemoved(s: PlaybackState, removing: set<int>)
    requires Normalized(s) && RemovedQueue(s.queue, removing) != [] && CurrentRemoved(s, removing)
    ensures var s' := RemoveManyState(s, removing);
      var kept := SurvivingRegion(s, removing);
      && PlayNextEntries(s') == (if kept != [] then kept[1..] else [])
      && s'.playNext == |PlayNextEntries(s')|
      && (kept != [] ==> CurrentEntry(s') == Some(kept[0]))
  {
    var kept := SurvivingRegion(s, removing);
    if kept != [] {
      var rank, q := RankOf(removing, s.current.value), RemovedQueue(s.queue, removing);
      PromotedCursors(s, removing);
      SliceTail(q, rank, kept);
    }
  }

  lemma SliceTail<T>(q: seq<T>, at: int, kept: seq<T>)
    requires 0 <= at <= at + |kept| <= |q| && kept != [] && q[at..at + |kept|] == kept
    ensures q[at] == kept[0] && q[at + 1..at + |kept|] == kept[1..]
  {
    assert q[at..at + |kept|][0] == q[at];
    assert q[at + 1..at + |kept|] == q[at..at + |kept|][1..];
  }

  lemma PromotedCursors(s: PlaybackState, removing: set<int>)
    requires Normalized(s) && CurrentRemoved(s, removing) && SurvivingRegion(s, removing) != []
    ensures var q, rank, kept :=
        RemovedQueue(s.queue, removing), RankOf(removing, s.current.value), SurvivingRegion(s, removing);
      && 0 <= rank <= rank + |kept| <= |q| && q[rank..rank + |kept|] == kept
      && RemoveManyState(s, removing).current == Some(rank)
      && RemoveManyState(s, removing).playNext == |kept| - 1
      && RemoveManyState(s, removing).queue == q
  {
    var n, rest, c := |s.queue|, Rest(removing, |s.queue|), s.current.value;
    var end := PlayNextEnd(n, s.current, s.playNext);
    CountSplit(removing, 0, c, c + 1);
    assert Count(removing, c, c + 1) == 1;
    SurvivorsStandTogether(s.queue, removing, c + 1, end);
    var i := MemberOfRank(rest, c + 1, end, 0);
    assert SurvivorAfter(s, removing, c);
  }

  /** Position and playing state after a batch removal; normalization only refreshes the song id. */
  lemma BatchRemovalPosition(s: PlaybackState, removing: set<int>)
    requires Normalized(s)
    ensures var s' := RemoveManyState(s, removing);
      && s'.position == (if CurrentRemoved(s, removing) || s'.queue == [] then 0 else s.position)
      && (!CurrentRemoved(s, removing) && s'.queue != [] ==> s'.playing == s.playing)
      && (CurrentRemoved(s, removing) ==> s'.playing in {Paused, Stopped, Idle})
      && Normalize(s') == Ok(s'.(songId := if s'.current.Some? then SongIdAt(s'.queue, s'.current.value) else None))
  {
    var s' := RemoveManyState(s, removing);
    if s.current.Some? && s'.queue != [] {
      var c := s.current.value;
      CountRest(removing, |s.queue|, 0, c);
      CountRest(removing, |s.queue|, 0, |s.queue|);
      CountMonotone(Rest(removing, |s.queue|), 0, c, |s.queue|);
      if SurvivorAfter(s, removing, c) {
        var r := FirstSurvivor(s, removing, c);
        CountMonotone(Rest(removing, |s.queue|), 0, c, r);
        CountMonotone(Rest(removing, |s.queue|), 0, r, |s.queue|);
      }
    }
    if s'.queue != [] {
      NormalizedAfterRemoval(s, s');
    }
  }

  /**
   The playing state after a removal.  When the current entry goes, what was loaded is
   paused on the entry behind it; with nothing behind it, or nothing loaded, it is stopped.
   An emptied queue is idle, and any other removal leaves the playing state alone.
   */
  lemma BatchRemovalPlaying(s: PlaybackState, removing: set<int>)
    requires Normalized(s)
    ensures var s' := RemoveManyState(s, removing);
      && (s'.queue == [] ==> s'.playing == Idle)
      && (s'.queue != [] && !CurrentRemoved(s, removing) ==> s'.playing == s.playing)
      && (s'.queue != [] && CurrentRemoved(s, removing) ==>
            && s'.playing in {Paused, Stopped}
            && (s'.playing == Paused <==>
                  s.playing in {Playing, Paused, Interrupted}
                  && exists i :: s.current.value < i < |s.queue| && i !in removing))
  {}

  /**
   Position and playing state after a single removal: the position is zeroed when the
   adjusted current index is the removed one or the queue is emptied, and only an emptied
   queue changes the playing state, to idle.
   */
  lemma SingleRemovalMeaning(s: PlaybackState, i: int)
    requires Normalized(s) && 0 <= i < |s.queue|
    ensures var s' := RemoveOneState(s, i);
      && s'.position == (if s'.queue == [] || s'.current == Some(i) then 0 else s.position)
      && s'.playing == (if s'.queue == [] then Idle else s.playing)
      && (s'.queue == [] <==> |s.queue| == 1)
  {}

  /** A state with a non-empty queue whose cursors are in range is only given its song id. */
  lemma NormalizedAfterRemoval(s: PlaybackState, s': PlaybackState)
    requires Normalized(s) && s.queue != [] && s'.queue != [] && CurrentInRange(s')
    requires s'.position in {0, s.position} && s'.playing in {s.playing, Paused, Stopped}
    requires 0 <= s'.playNext && PlayNextStart(|s'.queue|, s'.current) + s'.playNext <= |s'.queue|
    ensures Normalize(s') == Ok(s'.(songId := if s'.current.Some? then SongIdAt(s'.queue, s'.current.value) else None))
  {}

  // -------------------------------------------- the two removals compared

  /** Removing one index by splicing and removing it as a batch agree on everything but position and playing state. */
  lemma SingleAndBatchRemovalAgree(s: PlaybackState, i: int)
    requires Normalized(s) && 0 <= i < |s.queue|
    ensures var one, many := RemoveOneState(s, i), RemoveManyState(s, {i});
      && one.queue == many.queue && one.indexMap == many.indexMap && one.revision == many.revision
      && one.current == many.current && one.playNext == many.playNext
  {
    SpliceIsRemoval(s.queue, i);
    SingletonSurvivors(s, i);
    if s.current.Some? {
      SingletonCount(i, 0, s.current.value);
      NextSurvives(s, {i}, i);
    }
  }

  /** A single removal takes one entry from the region, if it lies there. */
  lemma SingletonSurvivors(s: PlaybackState, i: int)
    requires Normalized(s) && 0 <= i < |s.queue|
    ensures RegionSurvivors(s, {i})
        == s.playNext - (if IsPlayNextIndex(|s.queue|, s.current, s.playNext, i) then 1 else 0)
  {
    var start, end := PlayNextStart(|s.queue|, s.current), PlayNextEnd(|s.queue|, s.current, s.playNext);
    CountRest({i}, |s.queue|, start, end);
    SingletonCount(i, start, end);
  }

  lemma NextSurvives(s: PlaybackState, removing: set<int>, i: int)
    requires 0 <= i < |s.queue| && removing == {i}
    ensures SurvivorAfter(s, removing, i) <==> i < |s.queue| - 1
  {
    if i < |s.queue| - 1 {
      assert i + 1 !in removing;
    }
  }

  lemma {:induction false} SingletonCount(i: int, lo: int, hi: int)
    requires lo <= hi
    ensures Count({i}, lo, hi) == if lo <= i < hi then 1 else 0
    decreases hi - lo
  {
    if lo < hi {
      SingletonCount(i, lo, hi - 1);
    }
  }

  /**
   The single removal decides about the position after adjusting the current index, so
   it rewinds an entry that survives (current right after the removed index) and keeps
   the position of a removed last entry.  It agrees with the batch removal exactly otherwise.
   */
  lemma SingleRemovalPosition(s: PlaybackState, i: int)
    requires Normalized(s) && 0 <= i < |s.queue|
    ensures RemoveOneState(s, i).position == RemoveManyState(s, {i}).position <==>
      || s.position == 0
      || (s.current != Some(i + 1) && !(s.current == Some(i) && i == |s.queue| - 1 && |s.queue| > 1))
  {
    SpliceIsRemoval(s.queue, i);
  }

  predicate RewindsSurvivor(s: PlaybackState) {
    Normalized(s) && |s.queue| == 2 && s.current == Some(1)
    && CurrentEntry(RemoveOneState(s, 0)) == CurrentEntry(s) && RemoveOneState(s, 0).position != s.position
  }

  predicate KeepsRemovedPosition(s: PlaybackState) {
    Normalized(s) && |s.queue| == 2 && s.current == Some(1)
    && CurrentEntry(RemoveOneState(s, 1)) != CurrentEntry(s) && RemoveOneState(s, 1).position == s.position > 0
  }

  /** Both failures happen: a surviving entry is rewound, a removed one leaves its position behind. */
  lemma SingleRemovalPositionFails()
    ensures exists s: PlaybackState :: RewindsSurvivor(s) && KeepsRemovedPosition(s)
  {
    var s := PlaybackState(Playing, [Entry("a", ""), Entry("b", "")], Some(1), 0, 5000, Some("b"), Some(1), Some([]));
    assert RewindsSurvivor(s);
    assert KeepsRemovedPosition(s);
  }

  // ----------------------------------------------------------- play-next insertion

  /** insertAfterCurrent as one accepted command. */
  function Inserted(s: PlaybackState, items: seq<Entry>): PlaybackState
    requires Normalized(s)
  {
    if items == [] then s
    else
      var n := Normalize(InsertState(s, items));
      if n.Ok? then n.value else s
  }

  /** It is what the reducer stores. */
  lemma InsertedIsReduced(shared: Shared, command: Command, device: string, now: int)
    requires Normalized(shared.state) && command.op == InsertAfterCurrent
    ensures ReduceQueue(shared, command, device, now).Ok?
    ensures ReduceQueue(shared, command, device, now).value.state == Inserted(shared.state, command.items)
    ensures Normalized(Inserted(shared.state, command.items))
  {
    NormalizeReachesFixedPoint(shared.state);
    InsertedNormalized(shared.state, command.items);
    if command.items != [] {
      assert QueueUpdate(shared.state, command) == Ok(InsertState(shared.state, command.items));
    }
  }

  lemma InsertedNormalized(s: PlaybackState, items: seq<Entry>)
    requires Normalized(s)
    ensures Normalized(Inserted(s, items))
    ensures items != [] ==> Normalize(InsertState(s, items)).Ok?
  {
    if items != [] {
      var grown := InsertState(s, items);
      InsertStateInRange(s, items);
      NormalizeAccepts(grown);
      NormalizeReachesFixedPoint(grown);
      assert Inserted(s, items) == Normalize(grown).value;
    }
  }

  lemma InsertStateInRange(s: PlaybackState, items: seq<Entry>)
    requires Normalized(s) && items != []
    ensures var s' := InsertState(s, items); CurrentInRange(s') && 0 <= s'.position && 0 <= s'.playNext
  {}

  lemma NormalizeAccepts(s: PlaybackState)
    requires CurrentInRange(s) && 0 <= s.position && 0 <= s.playNext
    ensures Normalize(s).Ok?
  {}

  predicate SameQueueAndRegion(a: PlaybackState, b: PlaybackState) {
    a.queue == b.queue && a.current == b.current && a.playNext == b.playNext
  }

  /** Inserting A and then B is inserting A ++ B. */
  predicate InsertionComposes(s: PlaybackState, a: seq<Entry>, b: seq<Entry>)
    requires Normalized(s)
  {
    InsertedNormalized(s, a);
    SameQueueAndRegion(Inserted(Inserted(s, a), b), Inserted(s, a + b))
  }

  /** With a current entry the items queue up behind the region. */
  lemma InsertionIsFifo(s: PlaybackState, items: seq<Entry>)
    requires Normalized(s) && s.current.Some?
    ensures var s' := Inserted(s, items);
      && s'.current == s.current && CurrentEntry(s') == CurrentEntry(s)
      && s'.position == s.position && s'.playing == s.playing
      && PlayNextEntries(s') == PlayNextEntries(s) + items
  {
    if items != [] {
      var at := PlayNextEnd(|s.queue|, s.current, s.playNext);
      var s' := Inserted(s, items);
      assert s'.queue == s.queue[..at] + items + s.queue[at..];
      assert PlayNextEnd(|s'.queue|, s'.current, s'.playNext) == at + |items|;
    }
  }

  /**
   Without a current entry the first entry of the grown queue becomes current, stopped at
   its start, and the region is what stood from the front to behind the items, less that entry.
   */
  lemma InsertionStartsQueue(s: PlaybackState, items: seq<Entry>)
    requires Normalized(s) && s.current.None? && items != []
    ensures var s' := Inserted(s, items);
      var q := s.queue[..s.playNext] + items + s.queue[s.playNext..];
      && s'.queue == q && s'.current == Some(0) && s'.position == 0 && s'.playing == Stopped
      && PlayNextEntries(s') ==
           (if s.playNext + |items| < |q| then q[1..s.playNext + |items| + 1] else q[1..])
  {
    InsertedNormalized(s, items);
    StartsAtFront(s, items);
    FrontNormalizes(InsertState(s, items), s.queue[..s.playNext] + items + s.queue[s.playNext..], s.playNext + |items|);
  }

  /** Normalizing a stopped state whose first entry is current keeps it and its region. */
  lemma FrontNormalizes(s: PlaybackState, q: seq<Entry>, region: nat)
    requires s.current == Some(0) && s.position == 0 && s.playing == Stopped && s.queue == q != []
    requires s.playNext == (if region < |q| then region else |q| - 1)
    ensures Normalize(s).Ok?
    ensures var n := Normalize(s).value;
      && n.queue == q && n.current == Some(0) && n.position == 0 && n.playing == Stopped
      && PlayNextEntries(n) == (if region < |q| then q[1..region + 1] else q[1..])
  {
    NormalizeMeaning(s);
    NormalizeKeepsQueue(s);
    assert PlayNextEntries(s) == q[1..s.playNext + 1];
  }

  lemma StartsAtFront(s: PlaybackState, items: seq<Entry>)
    requires Normalized(s) && s.current.None? && items != []
    ensures var s' := InsertState(s, items);
      var q := s.queue[..s.playNext] + items + s.queue[s.playNext..];
      && s'.queue == q && s'.current == Some(0) && s'.position == 0 && s'.playing == Stopped
      && s'.playNext == (if s.playNext + |items| < |q| then s.playNext + |items| else |q| - 1)
  {}

  /** Normalization leaves the cursors of a state alone when they already fit its queue. */
  lemma NormalizeKeepsCursors(s: PlaybackState)
    requires s.queue != [] && CurrentInRange(s) && 0 <= s.position && 0 <= s.playNext
    requires PlayNextStart(|s.queue|, s.current) + s.playNext <= |s.queue|
    ensures Normalize(s).Ok?
    ensures var n := Normalize(s).value;
        n.queue == s.queue && n.current == s.current && n.playNext == s.playNext && n.position == s.position
  {}

  /** The items stand behind the region, which now reaches behind them. */
  predicate Spliced(s: PlaybackState, s': PlaybackState, items: seq<Entry>) {
    var at := PlayNextEnd(|s.queue|, s.current, s.playNext);
    && s'.queue == s.queue[..at] + items + s.queue[at..]
    && s'.current == Some(s.current.GetOr(0))
    && PlayNextEnd(|s'.queue|, s'.current, s'.playNext) == at + |items|
    && PlayNextStart(|s'.queue|, s'.current) + s'.playNext == at + |items|
  }

  /** What one insertion leaves when there is a current entry or the region reaches the end. */
  lemma InsertedShape(s: PlaybackState, items: seq<Entry>)
    requires Normalized(s) && (s.current.Some? || s.playNext == |s.queue|) && items != []
    ensures Spliced(s, Inserted(s, items), items)
  {
    InsertStateShape(s, items);
    NormalizeKeepsCursors(InsertState(s, items));
  }

  lemma InsertStateShape(s: PlaybackState, items: seq<Entry>)
    requires Normalized(s) && (s.current.Some? || s.playNext == |s.queue|) && items != []
    ensures var at := PlayNextEnd(|s.queue|, s.current, s.playNext);
      var s' := InsertState(s, items);
      && s'.queue == s.queue[..at] + items + s.queue[at..]
      && s'.current == Some(s.current.GetOr(0)) && CurrentInRange(s')
      && s'.position == (if s.current.Some? then s.position else 0)
      && 0 <= s'.playNext
      && PlayNextStart(|s'.queue|, s'.current) + s'.playNext == at + |items| <= |s'.queue|
  {
    var at := PlayNextEnd(|s.queue|, s.current, s.playNext);
    var grown := s.queue[..at] + items + s.queue[at..];
    assert |grown| == |s.queue| + |items|;
    InsertedClamp(|s.queue|, s.current, s.playNext, |items|);
    assert InsertState(s, items).queue == grown;
  }

  /** The region grows by exactly the inserted items. */
  lemma InsertedClamp(n: nat, current: Option<int>, playNext: int, k: nat)
    requires k > 0 && 0 <= playNext && PlayNextStart(n, current) + playNext <= n
    requires if current.Some? then 0 <= current.value < n else playNext == n
    ensures var next := Some(current.GetOr(0));
      PlayNextStart(n + k, next) + ClampedPlayNext(n + k, next, playNext + k) == PlayNextStart(n, current)
        + playNext + k
  {}

  lemma InsertionComposesWithCurrent(s: PlaybackState, a: seq<Entry>, b: seq<Entry>)
    requires Normalized(s) && (s.current.Some? || s.playNext == |s.queue|)
    ensures InsertionComposes(s, a, b)
  {
    InsertedNormalized(s, a);
    if a == [] {
      assert a + b == b;
    } else if b == [] {
      assert a + b == a;
    } else {
      var s1 := Inserted(s, a);
      InsertedShape(s, a);
      InsertedShape(s1, b);
      InsertedShape(s, a + b);
      SplicesCompose(s, s1, Inserted(s1, b), Inserted(s, a + b), a, b);
    }
  }

  lemma SplicesCompose(s: PlaybackState, s1: PlaybackState, s2: PlaybackState, whole: PlaybackState, a: seq<Entry>,
                       b: seq<Entry>)
    requires Spliced(s, s1, a) && Spliced(s1, s2, b) && Spliced(s, whole, a + b)
    ensures SameQueueAndRegion(s2, whole)
  {
    var at := PlayNextEnd(|s.queue|, s.current, s.playNext);
    assert s1.queue[..at + |a|] == s.queue[..at] + a;
    assert s1.queue[at + |a|..] == s.queue[at..];
    assert s.queue[..at] + a + b + s.queue[at..] == s.queue[..at] + (a + b) + s.queue[at..];
  }

  /**
   Insertion composes for all items exactly when there is a current entry or the region
   already reaches the end of the queue (in particular when the queue is empty).  Without
   a current entry the first insertion makes index 0 current and shifts the region by one.
   */
  lemma InsertionComposesExactly(s: PlaybackState)
    requires Normalized(s)
    ensures (forall a, b :: InsertionComposes(s, a, b)) <==> (s.current.Some? || s.playNext == |s.queue|)
  {
    if s.current.Some? || s.playNext == |s.queue| {
      forall a, b
        ensures InsertionComposes(s, a, b)
      {
        InsertionComposesWithCurrent(s, a, b);
      }
    } else {
      var p := s.playNext;
      var a := [s.queue[p]];
      var b := [Entry(s.queue[p].id, s.queue[p].payload + "x")];
      InsertedNormalized(s, a);
      var s1 := Inserted(s, a);
      assert s1.queue[p + 1] == s.queue[p];
      assert PlayNextEnd(|s1.queue|, s1.current, s1.playNext) == p + 2;
      assert Inserted(s1, b).queue[p + 1] == s.queue[p];
      assert Inserted(s, a + b).queue[p + 1] == b[0];
      assert b[0].payload != s.queue[p].payload;
      assert !InsertionComposes(s, a, b);
    }
  }

  // ------------------------------------------------- acceptance and the other operations

  /** When the reducer accepts a queue command on a normalized state. */
  predicate Acceptable(s: PlaybackState, command: Command) {
    match command.op
    case SetQueue =>
      command.queue == [] || (command.currentIndex.Some? ==> 0 <= command.currentIndex.value < |command.queue|)
    case MoveQueueIndices =>
      ValidIndices(command.indices, |s.queue|) && command.insertBefore.Some?
        && 0 <= command.insertBefore.value <= |s.queue|
    case RemoveQueueIndex => command.index.Some? && 0 <= command.index.value < |s.queue|
    case RemoveQueueIndices => ValidIndices(command.indices, |s.queue|)
    case _ => true
  }

  /** A queue command is accepted exactly when its indices fit the stored queue. */
  lemma QueueCommandAcceptedExactly(shared: Shared, command: Command, device: string, now: int)
    requires Normalized(shared.state)
    ensures ReduceQueue(shared, command, device, now).Ok? <==> Acceptable(shared.state, command)
  {
    var s := shared.state;
    NormalizeReachesFixedPoint(s);
    if Acceptable(s, command) {
      match command.op {
        case MoveQueueIndices => MoveKeepsCurrentEntry(s, SetOf(command.indices), command.insertBefore.value);
        case RemoveQueueIndex => RemoveOneNormalizes(s, command.index.value);
        case RemoveQueueIndices => BatchRemovalPosition(s, SetOf(command.indices));
        case _ =>
      }
    }
  }

  lemma RemoveOneNormalizes(s: PlaybackState, i: int)
    requires Normalized(s) && 0 <= i < |s.queue|
    ensures Normalize(RemoveOneState(s, i)).Ok?
  {}

  /** A replaced queue starts over: no region, position 0, not playing, at the given entry or the first. */
  lemma ReplacedQueueStartsOver(shared: Shared, command: Command, device: string, now: int)
    requires Normalized(shared.state) && command.op in {SetQueue, ClearQueue}
    requires ReduceQueue(shared, command, device, now).Ok?
    ensures var s := ReduceQueue(shared, command, device, now).value.state;
      && s.queue == (if command.op == SetQueue then command.queue else [])
      && PlayNextEntries(s) == [] && s.position == 0 && s.playing == (if s.queue == [] then Idle else Stopped)
      && CurrentEntry(s) == (if s.queue == [] then None
                             else if command.currentIndex.Some? then Some(s.queue[command.currentIndex.value])
                             else Some(s.queue[0]))
  {
    NormalizeReachesFixedPoint(shared.state);
    var updated := QueueUpdate(shared.state, command).value;
    ReplacedReduces(shared, command, device, now);
    ReplacedState(shared.state, command, updated);
    FreshStateNormalizes(updated);
  }

  lemma ReplacedReduces(shared: Shared, command: Command, device: string, now: int)
    requires Decode(shared.state) == Ok(shared.state) && CurrentInRange(shared.state)
    requires command.op in {SetQueue, ClearQueue} && ReduceQueue(shared, command, device, now).Ok?
    ensures QueueUpdate(shared.state, command).Ok?
    ensures Normalize(QueueUpdate(shared.state, command).value)
        == Ok(ReduceQueue(shared, command, device, now).value.state)
  {}

  lemma ReplacedState(s: PlaybackState, command: Command, updated: PlaybackState)
    requires CurrentInRange(s) && command.op in {SetQueue, ClearQueue} && QueueUpdate(s, command) == Ok(updated)
    ensures updated.queue == (if command.op == SetQueue then command.queue else [])
    ensures updated.playNext == 0 && updated.position == 0 && updated.playing == StoppedOrIdle(updated.queue)
    ensures updated.current == (if updated.queue == [] then None
                                else if command.currentIndex.Some? then command.currentIndex else Some(0))
  {}

  /** Normalizing a state without region, position and playing flag only refreshes its song id. */
  lemma FreshStateNormalizes(s: PlaybackState)
    requires s.playNext == 0 && s.position == 0 && s.playing == StoppedOrIdle(s.queue)
        && (s.queue == [] <==> s.current.None?)
    requires Normalize(s).Ok?
    ensures var n := Normalize(s).value;
      && n.queue == s.queue && PlayNextEntries(n) == [] && n.position == 0 && n.playing == s.playing
      && (s.current.None? ==> CurrentEntry(n) == None)
      && (s.current.Some? ==> CurrentInRange(s) && CurrentEntry(n) == Some(s.queue[s.current.value]))
  {
    var n := Normalize(s).value;
    NormalizeKeepsQueue(s);
    FreshCursors(s);
    NoRegion(n);
    assert n.current == s.current;
  }

  lemma FreshCursors(s: PlaybackState)
    requires s.playNext == 0 && s.position == 0 && s.playing == StoppedOrIdle(s.queue)
        && (s.queue == [] <==> s.current.None?)
    requires Normalize(s).Ok?
    ensures var n := Normalize(s).value;
      && n.playNext == 0 && n.position == 0 && n.playing == s.playing && n.current == s.current && CurrentInRange(s)
  {}

  lemma NoRegion(s: PlaybackState)
    ensures s.playNext == 0 ==> PlayNextEntries(s) == []
  {}

  /** Appending leaves the current entry, its position and the play-next region alone. */
  lemma AppendKeepsRegion(s: PlaybackState, items: seq<Entry>)
    requires Normalized(s) && items != []
    ensures var s' := AppendState(s, items);
      && s'.queue == s.queue + items
      && (s.current.Some? ==>
            && CurrentEntry(s') == CurrentEntry(s) && PlayNextEntries(s') == PlayNextEntries(s)
            && s'.position == s.position && s'.playing == s.playing)
      && (s.current.None? ==>
            s'.current == Some(0) && PlayNextEntries(s') == [] && s'.position == 0 && s'.playing == Stopped)
  {
    var s' := AppendState(s, items);
    if s.current.Some? {
      var start, end := PlayNextStart(|s.queue|, s.current), PlayNextEnd(|s.queue|, s.current, s.playNext);
      assert s'.queue[start..end] == s.queue[start..end];
    }
  }
}
