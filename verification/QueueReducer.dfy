/**
 The queue reducers of server/internal/realtime/hub.go: QueueCell is the state the
 Go functions update through a pointer; the functions above it specify each update.
 */
module QueueReducer {
  import opened Wrappers
  import opened Playback
  import opened IndexMaps
  import opened IndexMapLaws

  // ------------------------------------------------------------- specification

  function Revision(s: PlaybackState): int {
    if s.revision.Some? then s.revision.value else 0
  }

  /** recordQueueChange; an absent map is stored as the empty one. */
  function RecordChange(s: PlaybackState, m: seq<int>): PlaybackState {
    s.(revision := Some(Revision(s) + 1), indexMap := Some(m))
  }

  predicate IsIdentity(m: seq<int>) {
    forall i :: 0 <= i < |m| ==> m[i] == i
  }

  function MoveState(s: PlaybackState, moving: set<int>, gap: int): PlaybackState
    requires CurrentInRange(s) && 0 <= gap <= |s.queue|
  {
    var m := MovedMap(moving, |s.queue|, gap);
    if IsIdentity(m) then s
    else
      var current := if s.current.Some? then Some(m[s.current.value]) else None;
      RecordChange(s.(queue := MovedQueue(s.queue, moving, gap), current := current,
                      playNext := AdjustedPlayNext(|s.queue|, s.current, s.playNext, current)), m)
  }

  /** The state once the last entry is gone. */
  function Emptied(s: PlaybackState): PlaybackState {
    s.(queue := [], current := None, playNext := 0, position := 0, playing := Idle)
  }

  function RemoveOneState(s: PlaybackState, i: int): PlaybackState
    requires CurrentInRange(s) && 0 <= i < |s.queue|
  {
    var q, m := s.queue[..i] + s.queue[i + 1..], RemovedMap({i}, |s.queue|);
    if q == [] then RecordChange(Emptied(s), m)
    else
      var current := if s.current.None? then None
        else Some(if s.current.value > i || s.current.value == |q| then s.current.value - 1 else s.current.value);
      var consumed := s.current == Some(i) || IsPlayNextIndex(|s.queue|, s.current, s.playNext, i);
      RecordChange(s.(queue := q, current := current,
                      position := if current == Some(i) then 0 else s.position,
                      playNext := ClampedPlayNext(|q|, current,
                        if consumed && s.playNext > 0 then s.playNext - 1 else s.playNext)), m)
  }

  /** How many entries before c survive. */
  function RankOf(removing: set<int>, c: int): nat
    requires 0 <= c
  {
    c - Count(removing, 0, c)
  }

  /** Survivors of the play-next region. */
  function RegionSurvivors(s: PlaybackState, removing: set<int>): nat {
    Count(Rest(removing, |s.queue|), PlayNextStart(|s.queue|, s.current), PlayNextEnd(|s.queue|, s.current, s.playNext))
  }

  predicate SurvivorAfter(s: PlaybackState, removing: set<int>, c: int) {
    exists i :: c < i < |s.queue| && i !in removing
  }

  /** `replacement` is the first survivor behind a removed current entry, or -1. */
  ghost predicate ReplacementFound(s: PlaybackState, removing: set<int>, removingCurrent: bool, replacement: int) {
    && (removingCurrent <==> s.current.Some? && s.current.value in removing)
    && (!removingCurrent ==> replacement == -1)
    && (removingCurrent ==>
          && (replacement == -1 <==> !SurvivorAfter(s, removing, s.current.value))
          && (replacement != -1 ==> s.current.value < replacement < |s.queue| && replacement !in removing
                                    && forall i :: s.current.value < i < replacement ==> i in removing))
  }

  function RemoveManyState(s: PlaybackState, removing: set<int>): PlaybackState
    requires CurrentInRange(s)
  {
    var q, m := RemovedQueue(s.queue, removing), RemovedMap(removing, |s.queue|);
    if q == [] then RecordChange(Emptied(s), m)
    else if s.current.Some? && s.current.value in removing then
      var replaced := SurvivorAfter(s, removing, s.current.value);
      var current := Some(if replaced then RankOf(removing, s.current.value) else |q| - 1);
      var survivors := RegionSurvivors(s, removing);
      RecordChange(s.(queue := q, current := current, position := 0,
                      playing := if replaced && s.playing in {Playing, Paused, Interrupted} then Paused else Stopped,
                      playNext := ClampedPlayNext(|q|, current, if survivors > 0 then survivors - 1 else 0)), m)
    else
      var current := if s.current.Some? then Some(RankOf(removing, s.current.value)) else None;
      RecordChange(s.(queue := q, current := current,
                      playNext := ClampedPlayNext(|q|, current, RegionSurvivors(s, removing))), m)
  }

  /** The first entry becomes current, not started, when nothing was current. */
  function StartAtFirst(s: PlaybackState): PlaybackState {
    if s.current.Some? then s
    else s.(current := Some(0), position := 0, playing := StoppedOrIdle(s.queue))
  }

  function InsertState(s: PlaybackState, items: seq<Entry>): PlaybackState {
    var at := PlayNextEnd(|s.queue|, s.current, s.playNext);
    var grown := RecordChange(s.(queue := s.queue[..at] + items + s.queue[at..], playNext := s.playNext + |items|),
                              InsertedMap(|s.queue|, at, |items|));
    var started := StartAtFirst(grown);
    started.(playNext := ClampedPlayNext(|started.queue|, started.current, started.playNext))
  }

  function AppendState(s: PlaybackState, items: seq<Entry>): PlaybackState {
    var grown := RecordChange(s.(queue := s.queue + items), InsertedMap(|s.queue|, |s.queue|, |items|));
    if s.current.Some? then grown else StartAtFirst(grown.(playNext := 0))
  }

  function SetQueueState(s: PlaybackState, queue: seq<Entry>, index: Option<int>): PlaybackState {
    var current := if queue == [] then None else if index.Some? then index else Some(0);
    RecordChange(s.(queue := queue, playNext := 0, current := current, position := 0,
      playing := StoppedOrIdle(queue)), [])
  }

  function ClearState(s: PlaybackState): PlaybackState {
    RecordChange(EMPTY_STATE.(revision := s.revision), [])
  }

  predicate ValidIndices(indices: seq<int>, len: nat) {
    indices != [] && forall x :: x in indices ==> 0 <= x < len
  }

  /** The queue part of a queue command on a decoded state. */
  function QueueUpdate(s: PlaybackState, command: Command): Result<PlaybackState>
    requires CurrentInRange(s)
  {
    match command.op
    case SetQueue => Ok(SetQueueState(s, command.queue, command.currentIndex))
    case InsertAfterCurrent => Ok(InsertState(s, command.items))
    case AppendToQueue => Ok(AppendState(s, command.items))
    case MoveQueueIndices =>
      if |command.indices| == 0 || command.insertBefore.None?
      then Err("moveQueueIndices requires indices and insertBefore")
      else if !ValidIndices(command.indices, |s.queue|)
        || !(0 <= command.insertBefore.value <= |s.queue|) then Err("playback queue index is out of range")
      else Ok(MoveState(s, SetOf(command.indices), command.insertBefore.value))
    case RemoveQueueIndex =>
      if command.index.None? then Err("removeQueueIndex requires index")
      else if !(0 <= command.index.value < |s.queue|) then Err("playback queue index is out of range")
      else Ok(RemoveOneState(s, command.index.value))
    case RemoveQueueIndices =>
      if |command.indices| == 0 then Err("removeQueueIndices requires indices")
      else if !ValidIndices(command.indices, |s.queue|) then Err("playback queue index is out of range")
      else Ok(RemoveManyState(s, SetOf(command.indices)))
    case ClearQueue => Ok(ClearState(s))
    case _ => Ok(s)
  }

  /** reduceQueueCommand. */
  function ReduceQueue(shared: Shared, command: Command, device: string, now: int): (r: Result<Shared>) {
    var decoded := Decode(shared.state);
    if decoded.Err? then Err(decoded.message)
    else if command.op in {InsertAfterCurrent, AppendToQueue} && command.items == [] then Ok(shared)
    else
      NormalizeReachesFixedPoint(shared.state);
      var updated := QueueUpdate(decoded.value, command);
      if updated.Err? then Err(updated.message)
      else
        var state := Normalize(updated.value);
        if state.Err? then Err(state.message)
        else
          var active := if shared.active == "" && |state.value.queue| > 0 then device else shared.active;
          Ok(Shared(shared.seqNo + 1, active, state.value, now, device))
  }

  // ------------------------------------------------------ the reducers in place

  /** Applying a move's map gives the moved queue. */
  method ApplyMoved(queue: seq<Entry>, m: seq<int>, ghost moving: set<int>, ghost gap: int) returns (r: seq<Entry>)
    requires 0 <= gap <= |queue| && m == MovedMap(moving, |queue|, gap)
    ensures r == MovedQueue(queue, moving, gap)
  {
    MovedMapLaw(queue, moving, gap);
    SurvivorCountOf(m, {});
    CountZero({}, 0, |m|);
    r := ApplyQueueIndexMap(queue, m);
    CarriedQueueUnique(queue, r, MovedQueue(queue, moving, gap), m);
  }

  /** Applying a removal's map gives the surviving queue. */
  method ApplyRemoved(queue: seq<Entry>, m: seq<int>, ghost removing: set<int>) returns (r: seq<Entry>)
    requires m == RemovedMap(removing, |queue|)
    ensures r == RemovedQueue(queue, removing)
  {
    RemovedMapLaw(queue, removing);
    SurvivorCountOf(m, removing);
    CountRest(removing, |queue|, 0, |queue|);
    r := ApplyQueueIndexMap(queue, m);
    CarriedQueueUnique(queue, r, RemovedQueue(queue, removing), m);
  }

  /** The first surviving index after c, or -1. */
  method FirstSurvivorAfter(m: seq<int>, c: int, ghost removing: set<int>) returns (r: int)
    requires m == RemovedMap(removing, |m|) && 0 <= c < |m|
    ensures r == -1 ==> forall i :: c < i < |m| ==> i in removing
    ensures r != -1 ==> c < r < |m| && r !in removing && forall i :: c < i < r ==> i in removing
  {
    for index := c + 1 to |m|
      invariant forall i :: c < i < index ==> i in removing
    {
      if m[index] >= 0 {
        return index;
      }
    }
    r := -1;
  }

  /** The counting loop of removeQueueIndices. */
  method CountSurvivingPlayNext(m: seq<int>, replacement: int, s: PlaybackState,
                                ghost removing: set<int>) returns (n: nat)
    requires |m| == |s.queue| && m == RemovedMap(removing, |m|)
    ensures n == CountedSoFar(s, removing, replacement, |m|)
  {
    n := 0;
    for index := 0 to |m|
      invariant n == CountedSoFar(s, removing, replacement, index)
    {
      if m[index] >= 0 && index != replacement && IsPlayNextIndex(|m|, s.current, s.playNext, index) {
        n := n + 1;
      }
    }
  }

  /** The replacement takes over the rank of the removed current entry. */
  lemma RankOfReplacement(removing: set<int>, c: int, replacement: int)
    requires 0 <= c < replacement && c in removing
    requires forall i :: c < i < replacement ==> i in removing
    ensures RankOf(removing, replacement) == RankOf(removing, c)
  {
    CountSplit(removing, 0, c, replacement);
    CountAll(removing, c, replacement);
  }

  class QueueCell {
    var playing: PlayingState
    var queue: seq<Entry>
    var current: Option<int>
    var playNext: int
    var position: int
    var songId: Option<string>
    var revision: Option<int>
    var indexMap: Option<seq<int>>

    constructor (s: PlaybackState)
      ensures View() == s
    {
      playing, queue, current, playNext := s.playing, s.queue, s.current, s.playNext;
      position, songId, revision, indexMap := s.position, s.songId, s.revision, s.indexMap;
    }

    function View(): PlaybackState
      reads this
    {
      PlaybackState(playing, queue, current, playNext, position, songId, revision, indexMap)
    }

    method RecordQueueChange(m: seq<int>)
      modifies this`revision, this`indexMap
      ensures View() == RecordChange(old(View()), m)
    {
      var next := 1;
      if revision.Some? {
        next := revision.value + 1;
      }
      revision := Some(next);
      indexMap := Some(m);
    }

    method ClampPlayNext()
      modifies this`playNext
      ensures View() == old(View()).(playNext := ClampedPlayNext(|queue|, current, old(playNext)))
    {
      playNext := ClampedPlayNext(|queue|, current, playNext);
    }

    /** normalizePlaybackState; None is success. */
    method NormalizeInPlace() returns (err: Option<string>)
      modifies this
      ensures Normalize(old(View())) == (if err.None? then Ok(View()) else Err(err.value))
      ensures err.Some? ==> View() == old(View())
    {
      if position < 0 {
        return Some("state.currentPositionMs must not be negative");
      }
      if playNext < 0 {
        return Some("state.playNextQueueLen must not be negative");
      }
      if |queue| == 0 {
        current, songId, playNext, position := None, None, 0, 0;
        if playing == Unset || playing == Stopped || playing == Paused || playing == Playing {
          playing := Idle;
        }
        return None;
      }
      if current.Some? {
        if current.value < 0 || current.value >= |queue| {
          return Some("state.currentIndex is out of range");
        }
        songId := SongIdAt(queue, current.value);
      } else {
        songId := None;
      }
      ClampPlayNext();
      if playing == Unset || playing == Idle {
        playing := Stopped;
      }
      err := None;
    }

    method MoveIndices(indices: seq<int>, insertBefore: int) returns (ok: bool)
      requires CurrentInRange(View())
      modifies this
      ensures ok <==> ValidIndices(indices, |old(queue)|) && 0 <= insertBefore <= |old(queue)|
      ensures View() == if ok then MoveState(old(View()), SetOf(indices), insertBefore) else old(View())
    {
      var sorted;
      ok, sorted := SortedQueueIndices(indices, |queue|);
      if !ok || insertBefore < 0 || insertBefore > |queue| {
        return false;
      }
      var m := MovedQueueIndexMap(|queue|, sorted, insertBefore);
      var inPlace := true;
      for oldIndex := 0 to |m|
        invariant inPlace <==> forall i :: 0 <= i < oldIndex ==> m[i] == i
      {
        if m[oldIndex] != oldIndex {
          inPlace := false;
          break;
        }
      }
      if inPlace {
        return true;
      }
      var previousCurrent, previousPlayNext := current, playNext;
      queue := ApplyMoved(queue, m, SetOf(indices), insertBefore);
      RecordQueueChange(m);
      if current.Some? {
        current := Some(m[current.value]);
      }
      if previousCurrent == current {
        playNext := ClampedPlayNext(|queue|, current, previousPlayNext);
      } else {
        playNext := AdjustedPlayNext(|queue|, previousCurrent, previousPlayNext, current);
      }
    }

    method RemoveIndex(index: int) returns (ok: bool)
      requires CurrentInRange(View())
      modifies this
      ensures ok <==> 0 <= index < |old(queue)|
      ensures View() == if ok then RemoveOneState(old(View()), index) else old(View())
    {
      if index < 0 || index >= |queue| {
        return false;
      }
      var previousPlayNext := playNext;
      var removingCurrent := current == Some(index);
      var wasInPlayNext := IsPlayNextIndex(|queue|, current, previousPlayNext, index);
      var m := RemovedQueueIndexMap(|queue|, [index]);
      assert SetOf([index]) == {index};
      queue := queue[..index] + queue[index + 1..];
      RecordQueueChange(m);
      ok := true;
      if |queue| == 0 {
        current, playNext, position, playing := None, 0, 0, Idle;
        return;
      }
      if current.Some? {
        var c := current.value;
        if c > index {
          c := c - 1;
        } else if c == index && c >= |queue| {
          c := |queue| - 1;
        }
        current := Some(c);
        if c == index {
          position := 0;
        }
      }
      var next := previousPlayNext;
      if removingCurrent && next > 0 {
        next := next - 1;
      } else if wasInPlayNext && next > 0 {
        next := next - 1;
      }
      playNext := ClampedPlayNext(|queue|, current, next);
    }

    method RemoveIndices(indices: seq<int>) returns (ok: bool)
      requires CurrentInRange(View())
      modifies this
      ensures ok <==> ValidIndices(indices, |old(queue)|)
      ensures View() == if ok then RemoveManyState(old(View()), SetOf(indices)) else old(View())
    {
      var queueLen := |queue|;
      var removing;
      ok, removing := SortedQueueIndices(indices, queueLen);
      if !ok {
        return;
      }
      ghost var chosen := SetOf(indices);
      var before := View();
      var m := RemovedQueueIndexMap(queueLen, removing);
      var removingCurrent := current.Some? && m[current.value] < 0;
      var replacement := -1;
      if removingCurrent {
        replacement := FirstSurvivorAfter(m, current.value, chosen);
      }
      var surviving := CountSurvivingPlayNext(m, replacement, before, chosen);
      SurvivingCount(before, chosen, removingCurrent, replacement);
      queue := ApplyRemoved(queue, m, chosen);
      RecordQueueChange(m);
      SettleRemoval(m, removingCurrent, replacement, surviving, before, chosen);
    }

    /** The current index once the queue has shrunk. */
    method ShrunkCurrent(m: seq<int>, removingCurrent: bool, replacement: int, ghost before: PlaybackState,
                         ghost removing: set<int>)
      returns (next: Option<int>)
      requires CurrentInRange(before) && current == before.current && m == RemovedMap(removing, |before.queue|)
      requires ReplacementFound(before, removing, removingCurrent, replacement)
      ensures next ==
        if current.None? then None
        else if removingCurrent && replacement == -1 then Some(|queue| - 1)
        else Some(RankOf(removing, current.value))
    {
      next := current;
      if current.Some? {
        if !removingCurrent {
          next := Some(m[current.value]);
        } else if replacement >= 0 {
          RankOfReplacement(removing, current.value, replacement);
          next := Some(m[replacement]);
        } else {
          next := Some(|queue| - 1);
        }
      }
    }

    /** The end of removeQueueIndices: the cursors after the queue has shrunk. */
    method SettleRemoval(m: seq<int>, removingCurrent: bool, replacement: int, surviving: nat,
                         ghost before: PlaybackState, ghost removing: set<int>)
      requires CurrentInRange(before) && m == RemovedMap(removing, |before.queue|)
      requires View() == RecordChange(before.(queue := RemovedQueue(before.queue, removing)), m)
      requires ReplacementFound(before, removing, removingCurrent, replacement)
      requires var survivors := RegionSurvivors(before, removing);
        surviving == if removingCurrent && survivors > 0 then survivors - 1 else survivors
      modifies this
      ensures View() == RemoveManyState(before, removing)
    {
      if |queue| == 0 {
        current, playNext, position, playing := None, 0, 0, Idle;
        return;
      }
      current := ShrunkCurrent(m, removingCurrent, replacement, before, removing);
      if removingCurrent {
        position := 0;
        var wasLoaded := playing == Playing || playing == Paused || playing == Interrupted;
        if replacement >= 0 && wasLoaded {
          playing := Paused;
        } else {
          playing := Stopped;
        }
      }
      playNext := ClampedPlayNext(|queue|, current, surviving);
    }

    method StartFirst()
      modifies this
      ensures View() == StartAtFirst(old(View()))
    {
      if current.None? {
        current := Some(0);
        position := 0;
        playing := StoppedOrIdle(queue);
      }
    }

    method ReplaceQueue(items: seq<Entry>, index: Option<int>)
      modifies this
      ensures View() == SetQueueState(old(View()), items, index)
    {
      queue := items;
      RecordQueueChange([]);
      playNext := 0;
      if |queue| == 0 {
        current := None;
      } else if index.Some? {
        current := index;
      } else {
        current := Some(0);
      }
      position := 0;
      playing := StoppedOrIdle(queue);
    }

    method InsertAfter(items: seq<Entry>)
      modifies this
      ensures View() == InsertState(old(View()), items)
    {
      var insertAt := PlayNextEnd(|queue|, current, playNext);
      var m := ShiftedFrom(|queue|, insertAt, |items|);
      queue := queue[..insertAt] + items + queue[insertAt..];
      RecordQueueChange(m);
      playNext := playNext + |items|;
      StartFirst();
      ClampPlayNext();
    }

    method Append(items: seq<Entry>)
      modifies this
      ensures View() == AppendState(old(View()), items)
    {
      var m := ShiftedFrom(|queue|, |queue|, |items|);
      queue := queue + items;
      RecordQueueChange(m);
      if current.None? {
        playNext := 0;
        StartFirst();
      }
    }

    method Clear()
      modifies this
      ensures View() == ClearState(old(View()))
    {
      playing, queue, current, playNext := Idle, [], None, 0;
      position, songId, indexMap := 0, None, None;
      RecordQueueChange([]);
    }

    /** The switch of reduceQueueCommand. */
    method Update(command: Command) returns (err: Option<string>)
      requires CurrentInRange(View())
      modifies this
      ensures QueueUpdate(old(View()), command) == (if err.None? then Ok(View()) else Err(err.value))
    {
      err := None;
      var ok := true;
      match command.op {
        case SetQueue => ReplaceQueue(command.queue, command.currentIndex);
        case InsertAfterCurrent => InsertAfter(command.items);
        case AppendToQueue => Append(command.items);
        case MoveQueueIndices =>
          if |command.indices| == 0 || command.insertBefore.None? {
            return Some("moveQueueIndices requires indices and insertBefore");
          }
          ok := MoveIndices(command.indices, command.insertBefore.value);
        case RemoveQueueIndex =>
          if command.index.None? {
            return Some("removeQueueIndex requires index");
          }
          ok := RemoveIndex(command.index.value);
        case RemoveQueueIndices =>
          if |command.indices| == 0 {
            return Some("removeQueueIndices requires indices");
          }
          ok := RemoveIndices(command.indices);
        case ClearQueue => Clear();
        case _ =>
      }
      if !ok {
        err := Some("playback queue index is out of range");
      }
    }
  }

  /** What the counting loop of the batch removal has counted before `upTo`. */
  ghost function CountedSoFar(s: PlaybackState, removing: set<int>, replacement: int, upTo: int): nat
    requires 0 <= upTo <= |s.queue|
  {
    Count(set i | 0 <= i < |s.queue| && i !in removing && i != replacement
      && IsPlayNextIndex(|s.queue|, s.current, s.playNext, i), 0, upTo)
  }

  lemma {:induction false} CountAll(chosen: set<int>, lo: int, hi: int)
    requires lo <= hi
    requires forall i :: lo <= i < hi ==> i in chosen
    ensures Count(chosen, lo, hi) == hi - lo
    decreases hi - lo
  {
    if lo < hi {
      CountAll(chosen, lo, hi - 1);
    }
  }

  /** The counting loop counts the surviving region, less the entry that becomes current. */
  lemma SurvivingCount(s: PlaybackState, removing: set<int>, removingCurrent: bool, replacement: int)
    requires CurrentInRange(s) && ReplacementFound(s, removing, removingCurrent, replacement)
    ensures var survivors := RegionSurvivors(s, removing);
      CountedSoFar(s, removing, replacement, |s.queue|)
        == (if removingCurrent && survivors > 0 then survivors - 1 else survivors)
  {
    var n := |s.queue|;
    var start, end := PlayNextStart(n, s.current), PlayNextEnd(n, s.current, s.playNext);
    var rest := Rest(removing, n);
    var counted := set i | 0 <= i < n && i !in removing && i != replacement
        && IsPlayNextIndex(n, s.current, s.playNext, i);
    CountSplit(counted, 0, start, n);
    CountSplit(counted, start, end, n);
    CountZero(counted, 0, start);
    CountZero(counted, end, n);
    if removingCurrent && start <= replacement < end {
      CountWithout(rest, counted, replacement, start, end);
    } else {
      CountSame(counted, rest, start, end);
      if removingCurrent {
        CountZero(rest, start, end);
      }
    }
  }

  /** Leaving one member out of a count. */
  lemma CountWithout(chosen: set<int>, fewer: set<int>, left: int, lo: int, hi: int)
    requires lo <= left < hi && left in chosen && left !in fewer
    requires forall i :: lo <= i < hi && i != left ==> (i in fewer <==> i in chosen)
    ensures Count(fewer, lo, hi) == Count(chosen, lo, hi) - 1
  {
    CountSplit(fewer, lo, left, hi);
    CountSplit(fewer, left, left + 1, hi);
    CountSplit(chosen, lo, left, hi);
    CountSplit(chosen, left, left + 1, hi);
    CountSame(fewer, chosen, lo, left);
    CountSame(fewer, chosen, left + 1, hi);
  }

  /** reduceQueueCommand: decodes into a cell, updates it in place, normalizes and encodes. */
  method ReduceQueueCommand(shared: Shared, command: Command, device: string, now: int) returns (r: Result<Shared>)
    ensures r == ReduceQueue(shared, command, device, now)
  {
    var decoded := Decode(shared.state);
    if decoded.Err? {
      return Err(decoded.message);
    }
    if (command.op == InsertAfterCurrent || command.op == AppendToQueue) && |command.items| == 0 {
      return Ok(shared);
    }
    NormalizeReachesFixedPoint(shared.state);
    var cell := new QueueCell(decoded.value);
    var err := cell.Update(command);
    if err.None? {
      err := cell.NormalizeInPlace();
    }
    if err.Some? {
      return Err(err.value);
    }
    var state := cell.View();
    var active := shared.active;
    if active == "" && |state.queue| > 0 {
      active := device;
    }
    r := Ok(Shared(shared.seqNo + 1, active, state, now, device));
  }

  /** The index-map loops of insertAfterCurrent and appendToQueue. */
  method ShiftedFrom(len: nat, at: int, count: nat) returns (m: seq<int>)
    ensures m == InsertedMap(len, at, count)
  {
    m := [];
    for index := 0 to len
      invariant |m| == index
      invariant forall i :: 0 <= i < index ==> m[i] == (if i >= at then i + count else i)
    {
      m := m + [if index >= at then index + count else index];
    }
  }
}
