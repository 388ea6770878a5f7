/**
 The shared playback state and its pure region arithmetic
 (server/internal/realtime/hub.go, connect_types_gen.go).
 Integers are unbounded where the server uses int64.
 */
module Playback {
  import opened Wrappers

  /** A queue entry: the server reads nothing of its JSON but the id ("" when absent). */
  datatype Entry = Entry(id: string, payload: string)

  datatype PlayingState =
    | Unset            // the empty string on the wire
    | Idle
    | Playing
    | Paused
    | Stopped
    | Interrupted
    | Errored
    | Other(name: string)

  datatype PlaybackState = PlaybackState(
    playing: PlayingState,
    queue: seq<Entry>,
    current: Option<int>,
    playNext: int,
    position: int,
    songId: Option<string>,
    revision: Option<int>,
    indexMap: Option<seq<int>>)

  /** One user's stored shared playback; "" means that no device is active. Instants are nanoseconds. */
  datatype Shared = Shared(seqNo: int, active: string, state: PlaybackState, updatedAt: int, updatedBy: string)

  datatype Op =
    | SetQueue | InsertAfterCurrent | AppendToQueue | MoveQueueIndices
    | RemoveQueueIndex | RemoveQueueIndices | ClearQueue
    | PushState | TransferPlayback | PlayQueueIndex
    | Transport(name: string)      // play, pause, stop, seek, next, prev
    | Unsupported(name: string)

  /** The command record of the wire; only the fields of the operation are present. */
  datatype Command = Command(
    op: Op,
    id: string,
    baseSeq: Option<int>,
    queue: seq<Entry>,
    items: seq<Entry>,
    currentIndex: Option<int>,
    autoPlay: bool,
    index: Option<int>,
    indices: seq<int>,
    insertBefore: Option<int>,
    positionMs: Option<int>,
    target: string,
    state: Option<PlaybackState>)

  const EMPTY_STATE := PlaybackState(Idle, [], None, 0, 0, None, None, None)

  function SongIdAt(queue: seq<Entry>, index: int): Option<string> {
    if index < 0 || index >= |queue| || queue[index].id == "" then None else Some(queue[index].id)
  }

  function StoppedOrIdle(queue: seq<Entry>): PlayingState {
    if |queue| == 0 then Idle else Stopped
  }

  // ------------------------------------------------------------ play-next region

  function PlayNextStart(queueLen: nat, current: Option<int>): (start: nat)
    ensures start <= queueLen
  {
    match current
    case None => 0
    case Some(c) => if c + 1 < 0 then 0 else if c + 1 > queueLen then queueLen else c + 1
  }

  function ClampedPlayNext(queueLen: nat, current: Option<int>, playNext: int): (n: nat)
    ensures PlayNextStart(queueLen, current) + n <= queueLen
  {
    var room := queueLen - PlayNextStart(queueLen, current);
    if playNext <= 0 then 0 else if playNext > room then room else playNext
  }

  function PlayNextEnd(queueLen: nat, current: Option<int>, playNext: int): (end: nat)
    ensures PlayNextStart(queueLen, current) <= end <= queueLen
  {
    PlayNextStart(queueLen, current) + ClampedPlayNext(queueLen, current, playNext)
  }

  predicate IsPlayNextIndex(queueLen: nat, current: Option<int>, playNext: int, index: int) {
    0 <= index && PlayNextStart(queueLen, current) <= index < PlayNextEnd(queueLen, current, playNext)
  }

  /** adjustedPlayNextQueueLenForCurrentChange, in the source's order of tests. */
  function AdjustedPlayNext(queueLen: nat, previous: Option<int>, playNext: int, next: Option<int>): int {
    if playNext <= 0 then 0
    else if previous == next then ClampedPlayNext(queueLen, next, playNext)
    else
      var start := PlayNextStart(queueLen, previous);
      var end := PlayNextEnd(queueLen, previous, playNext);
      match next
      case None => 0
      case Some(j) => if j < start || j >= end then 0 else end - j - 1
  }

  /** The entries queued to play next. */
  function PlayNextEntries(s: PlaybackState): seq<Entry> {
    s.queue[PlayNextStart(|s.queue|, s.current)..PlayNextEnd(|s.queue|, s.current, s.playNext)]
  }

  /** The entry at the current index, when there is one. */
  function CurrentEntry(s: PlaybackState): Option<Entry> {
    match s.current
    case Some(c) => if 0 <= c < |s.queue| then Some(s.queue[c]) else None
    case None => None
  }

  // --------------------------------------------------------------- normalization

  predicate CurrentInRange(s: PlaybackState) {
    s.current.Some? ==> 0 <= s.current.value < |s.queue|
  }

  function Normalize(s: PlaybackState): Result<PlaybackState> {
    if s.position < 0 then Err("state.currentPositionMs must not be negative")
    else if s.playNext < 0 then Err("state.playNextQueueLen must not be negative")
    else if |s.queue| == 0 then
      Ok(s.(current := None, songId := None, playNext := 0, position := 0,
            playing := if s.playing in {Unset, Stopped, Paused, Playing} then Idle else s.playing))
    else if !CurrentInRange(s) then Err("state.currentIndex is out of range")
    else
      Ok(s.(songId := if s.current.Some? then SongIdAt(s.queue, s.current.value) else None,
            playNext := ClampedPlayNext(|s.queue|, s.current, s.playNext),
            playing := if s.playing in {Unset, Idle} then Stopped else s.playing))
  }

  /** What every stored state satisfies. */
  predicate Normalized(s: PlaybackState) {
    && CurrentInRange(s)
    && 0 <= s.position
    && 0 <= s.playNext
    && PlayNextStart(|s.queue|, s.current) + s.playNext <= |s.queue|
    && s.songId == (if s.current.Some? then SongIdAt(s.queue, s.current.value) else None)
    && (s.queue == [] ==> s.position == 0 && s.playing !in {Unset, Stopped, Paused, Playing})
    && (s.queue != [] ==> s.playing !in {Unset, Idle})
  }

  function Decode(s: PlaybackState): Result<PlaybackState> {
    Normalize(if s.playing == Unset then s.(playing := Idle) else s)
  }

  /** The normalized states are the results of normalization, and exactly its fixed points. */
  lemma NormalizeReachesFixedPoint(s: PlaybackState)
    ensures Normalize(s).Ok? ==> Normalized(Normalize(s).value)
    ensures Normalized(s) <==> Normalize(s) == Ok(s)
    ensures Decode(s).Ok? ==> Normalized(Decode(s).value)
    ensures Normalized(s) <==> Decode(s) == Ok(s)
  {
    NormalizeFixes(s);
    NormalizeFixes(if s.playing == Unset then s.(playing := Idle) else s);
  }

  lemma NormalizeFixes(s: PlaybackState)
    ensures Normalize(s).Ok? ==> Normalized(Normalize(s).value)
    ensures Normalized(s) <==> Normalize(s) == Ok(s)
  {
    var n := Normalize(s);
    if Normalized(s) {
      assert n == Ok(s);
    }
  }

  /** The song id of an entry: there is none without an entry or when the entry has no id. */
  lemma SongIdMeaning(queue: seq<Entry>, index: int, id: string)
    ensures SongIdAt(queue, index) == Some(id) <==> 0 <= index < |queue| && queue[index].id == id != ""
  {}

  /** The bounds that a state must meet to be stored. */
  predicate WithinBounds(s: PlaybackState) {
    0 <= s.position && 0 <= s.playNext && (s.queue == [] || CurrentInRange(s))
  }

  /**
   What normalization accepts and stores: over a queue, the entry, the position, the region
   and the playing state stand, except that a state that says nothing or idle is stopped;
   without a queue every cursor is reset, and only interruptions and errors are kept.
   */
  lemma NormalizeMeaning(s: PlaybackState)
    ensures Normalize(s).Ok? <==> WithinBounds(s)
    ensures Normalize(s).Ok? && s.queue != [] ==>
      var n := Normalize(s).value;
      && n.current == s.current && CurrentEntry(n) == CurrentEntry(s) && n.position == s.position
      && PlayNextEntries(n) == PlayNextEntries(s) && n.playNext == |PlayNextEntries(s)|
      && n.playing == (if s.playing in {Unset, Idle} then Stopped else s.playing)
    ensures Normalize(s).Ok? && s.queue == [] ==>
      var n := Normalize(s).value;
      && n.current == None && n.songId == None && n.position == 0 && n.playNext == 0
      && n.playing == (if s.playing in {Unset, Stopped, Paused, Playing} then Idle else s.playing)
    ensures Decode(s).Ok? <==> WithinBounds(s)
  {}

  /** Normalization never touches the queue, the revision or the index map. */
  lemma NormalizeKeepsQueue(s: PlaybackState)
    ensures Normalize(s).Ok? ==>
      Normalize(s).value.queue == s.queue && Normalize(s).value.revision == s.revision
        && Normalize(s).value.indexMap == s.indexMap
  {}

  /**
   A change of the current entry never adds a play-next entry: the region keeps its
   end when the new current entry is the old one or lies inside it, and empties otherwise.
   */
  lemma CurrentChangeShrinksRegion(s: PlaybackState, j: int)
    requires Normalized(s) && 0 <= j < |s.queue|
    ensures var n := |s.queue|;
      var end := PlayNextEnd(n, s.current, s.playNext);
      var s' := s.(current := Some(j), playNext := AdjustedPlayNext(n, s.current, s.playNext, Some(j)));
      var inside := s.current == Some(j) || IsPlayNextIndex(n, s.current, s.playNext, j);
      && PlayNextStart(n, s'.current) + s'.playNext <= n
      && PlayNextEnd(n, s'.current, s'.playNext) == (if inside then end else j + 1)
      && PlayNextEntries(s') == (if inside then s.queue[j + 1..end] else [])
      && (forall k :: IsPlayNextIndex(n, s'.current, s'.playNext, k) ==> IsPlayNextIndex(n, s.current, s.playNext, k))
  {}
}
