/**
 The queue selection of src/stores/QueueSelectionStore.ts and
 src/features/playback/queueSelection.ts, fed by the hub over a lossy channel.
 */
module Selection {
  import opened Wrappers
  import opened Playback
  import opened IndexMaps
  import opened QueueReducer
  import opened QueueLaws
  import opened Hub
  import opened HubRuns

  // --------------------------------------------------------------- the selection

  /** Sorted without duplicates, as selection() builds its index list. */
  function Sorted(xs: seq<int>): (r: seq<int>)
    ensures StrictlySorted(r) && SetOf(r) == SetOf(xs)
  {
    if xs == [] then []
    else
      assert SetOf(xs) == SetOf(xs[..|xs| - 1]) + {xs[|xs| - 1]} by {
        assert xs == xs[..|xs| - 1] + [xs[|xs| - 1]];
      }
      var init := Sorted(xs[..|xs| - 1]);
      var r := InsertSorted(init, xs[|xs| - 1]);
      assert forall x :: x in r <==> x in SetOf(init) || x == xs[|xs| - 1];
      r
  }

  /** The ids of the queue joined by a NUL character. */
  function QueueKey(queue: seq<Entry>): string {
    if |queue| == 0 then ""
    else if |queue| == 1 then queue[0].id
    else QueueKey(queue[..|queue| - 1]) + ['\0'] + queue[|queue| - 1].id
  }

  datatype SelectionView = SelectionView(indices: seq<int>, anchor: Option<int>, revision: int, key: string,
    length: nat)

  function MovedIndex(index: int, m: seq<int>): int {
    if 0 <= index < |m| then m[index] else -1
  }

  /** Where the selected rows go: mapped, with the removed ones dropped. */
  function Remapped(indices: seq<int>, m: seq<int>): seq<int> {
    if indices == [] then []
    else
      var init, j := Remapped(indices[..|indices| - 1], m), MovedIndex(indices[|indices| - 1], m);
      if j >= 0 then init + [j] else init
  }

  function Cleared(v: SelectionView): SelectionView {
    v.(indices := [], anchor := None)
  }

  function RemapSelection(v: SelectionView, m: seq<int>): SelectionView {
    var indices := Sorted(Remapped(v.indices, m));
    var anchor :=
      if v.anchor.Some? && MovedIndex(v.anchor.value, m) >= 0 then Some(MovedIndex(v.anchor.value, m)) else None;
    if indices == [] then Cleared(v) else v.(indices := indices, anchor := anchor)
  }

  /** The effect run on a new playback status; it runs only when revision or key changed. */
  function Observe(v: SelectionView, s: PlaybackState): SelectionView {
    var revision, key := Revision(s), QueueKey(s.queue);
    if revision == v.revision && key == v.key then v
    else
      var seen := v.(revision := revision, key := key, length := |s.queue|);
      var m := if s.indexMap.Some? then s.indexMap.value else [];
      if v.indices == [] then seen
      else if revision == v.revision + 1 && |m| == v.length then RemapSelection(seen, m)
      else Cleared(seen)
  }

  class QueueSelectionStore {
    var indices: seq<int>
    var anchor: Option<int>
    var revision: int
    var key: string
    var length: nat

    constructor (s: PlaybackState)
      ensures View() == SelectionView([], None, Revision(s), QueueKey(s.queue), |s.queue|)
    {
      indices, anchor := [], None;
      revision, key, length := Revision(s), QueueKey(s.queue), |s.queue|;
    }

    function View(): SelectionView
      reads this
    {
      SelectionView(indices, anchor, revision, key, length)
    }

    /** Any selection gesture: the store keeps the chosen rows sorted, and no anchor without rows. */
    method Choose(rows: seq<int>, at: Option<int>)
      modifies this`indices, this`anchor
      ensures indices == Sorted(rows) && anchor == (if indices == [] then None else at)
    {
      indices := Sorted(rows);
      anchor := if indices == [] then None else at;
    }

    method RemapQueueSelection(m: seq<int>)
      modifies this`indices, this`anchor
      ensures View() == RemapSelection(old(View()), m)
    {
      var moved := [];
      for k := 0 to |indices|
        invariant moved == Remapped(indices[..k], m)
      {
        assert indices[..k + 1][..k] == indices[..k];
        var j := MovedIndex(indices[k], m);
        if j >= 0 {
          moved := moved + [j];
        }
      }
      assert indices[..|indices|] == indices;
      indices := Sorted(moved);
      if indices == [] || anchor.None? || MovedIndex(anchor.value, m) < 0 {
        anchor := None;
      } else {
        anchor := Some(MovedIndex(anchor.value, m));
      }
    }

    method OnStatus(s: PlaybackState)
      modifies this
      ensures View() == Observe(old(View()), s)
    {
      var nextRevision, nextKey := Revision(s), QueueKey(s.queue);
      if nextRevision == revision && nextKey == key {
        return;
      }
      var lastRevision, lastLength := revision, length;
      revision, key, length := nextRevision, nextKey, |s.queue|;
      if |indices| == 0 {
        return;
      }
      var m := if s.indexMap.Some? then s.indexMap.value else [];
      if nextRevision == lastRevision + 1 && |m| == lastLength {
        RemapQueueSelection(m);
      } else {
        indices, anchor := [], None;
      }
    }
  }

  /** The remapped rows are the images of the selected rows that survive. */
  lemma {:induction false} RemappedSet(indices: seq<int>, m: seq<int>)
    ensures forall j :: j in Remapped(indices, m) <==> j >= 0 && exists i :: i in indices && MovedIndex(i, m) == j
  {
    if indices != [] {
      var init, last := indices[..|indices| - 1], indices[|indices| - 1];
      RemappedSet(init, m);
      assert indices == init + [last];
    }
  }

  // ------------------------------------------------------- queues over a history

  /** A sequence of states whose queues change only as the index-map law allows. */
  ghost predicate IsHistory(states: seq<PlaybackState>) {
    forall k :: 0 <= k < |states| - 1 ==> QueueStep(states[k], states[k + 1])
  }

  /** Where the entry at i of state a stands in state b, following every map between; -1 once it is gone. */
  function Follow(states: seq<PlaybackState>, a: nat, b: nat, i: int): int
    requires a <= b < |states|
    decreases b
  {
    if a == b then i
    else
      var j := Follow(states, a, b - 1, i);
      if Revision(states[b]) == Revision(states[b - 1]) then j
      else MovedIndex(j, if states[b].indexMap.Some? then states[b].indexMap.value else [])
  }

  /** An entry that is followed is the same entry, and different entries stay different. */
  lemma {:induction false} FollowKeepsEntry(states: seq<PlaybackState>, a: nat, b: nat, i: int)
    requires IsHistory(states) && a <= b < |states| && 0 <= i < |states[a].queue|
    ensures var j := Follow(states, a, b, i);
      -1 <= j < |states[b].queue| && (j >= 0 ==> states[b].queue[j] == states[a].queue[i])
    decreases b
  {
    if a < b {
      FollowKeepsEntry(states, a, b - 1, i);
      assert QueueStep(states[b - 1], states[b]);
    }
  }

  lemma {:induction false} FollowInjective(states: seq<PlaybackState>, a: nat, b: nat, i: int, i': int)
    requires IsHistory(states) && a <= b < |states|
    requires 0 <= i < |states[a].queue| && 0 <= i' < |states[a].queue| && i != i'
    ensures Follow(states, a, b, i) >= 0 ==> Follow(states, a, b, i) != Follow(states, a, b, i')
    decreases b
  {
    if a < b {
      FollowInjective(states, a, b - 1, i, i');
      FollowKeepsEntry(states, a, b - 1, i);
      FollowKeepsEntry(states, a, b - 1, i');
      assert QueueStep(states[b - 1], states[b]);
    }
  }

  /** Revisions order a history: equal revisions mean equal queues and maps. */
  lemma {:induction false} RevisionOrders(states: seq<PlaybackState>, a: nat, b: nat)
    requires IsHistory(states) && a <= b < |states|
    ensures Revision(states[a]) <= Revision(states[b])
    ensures Revision(states[a]) == Revision(states[b]) ==> QueueKept(states[a], states[b])
    ensures Revision(states[a]) == Revision(states[b]) ==> forall i :: Follow(states, a, b, i) == i
    decreases b
  {
    if a < b {
      RevisionOrders(states, a, b - 1);
      assert QueueStep(states[b - 1], states[b]);
    }
  }

  /** One revision later, the stored map leads straight from the one queue to the other. */
  lemma {:induction false} OneRevisionLater(states: seq<PlaybackState>, a: nat, b: nat)
    requires IsHistory(states) && a <= b < |states| && Revision(states[b]) == Revision(states[a]) + 1
    ensures states[b].indexMap.Some?
    ensures var m := states[b].indexMap.value;
      (m == [] || Carries(states[a].queue, states[b].queue, m))
      && forall i {:trigger Follow(states, a, b, i)} :: Follow(states, a, b, i) == MovedIndex(i, m)
    decreases b
  {
    assert QueueStep(states[b - 1], states[b]);
    RevisionOrders(states, a, b - 1);
    if Revision(states[b]) == Revision(states[b - 1]) {
      OneRevisionLater(states, a, b - 1);
    }
  }

  lemma {:induction false} FollowCompose(states: seq<PlaybackState>, a: nat, b: nat, c: nat, i: int)
    requires a <= b <= c < |states|
    ensures Follow(states, a, c, i) == Follow(states, b, c, Follow(states, a, b, i))
    decreases c
  {
    if b < c {
      FollowCompose(states, a, b, c - 1, i);
    }
  }

  /** Following -1 stays at -1. */
  lemma {:induction false} FollowGone(states: seq<PlaybackState>, a: nat, b: nat)
    requires a <= b < |states|
    ensures Follow(states, a, b, -1) == -1
    decreases b
  {
    if a < b {
      FollowGone(states, a, b - 1);
    }
  }

  // ------------------------------------------------------------ a client's session

  /** The selection with what it stands for: rows `chosen` of state `base`, last seen state `at`. */
  datatype Watch = Watch(view: SelectionView, at: nat, base: nat, chosen: seq<int>)

  datatype ClientEvent =
    | See(at: nat, shown: PlaybackState)      // a received broadcast showing state number `at`
    | Choose(rows: seq<int>, anchor: Option<int>)

  function WatchStep(w: Watch, e: ClientEvent): Watch {
    match e
    case See(at, shown) => w.(view := Observe(w.view, shown), at := at)
    case Choose(rows, anchor) =>
      var indices := Sorted(rows);
      Watch(w.view.(indices := indices, anchor := if indices == [] then None else anchor), w.at, w.at, rows)
  }

  function WatchAll(w: Watch, events: seq<ClientEvent>): Watch {
    if events == [] then w else WatchStep(WatchAll(w, events[..|events| - 1]), events[|events| - 1])
  }

  /** Messages arrive in order and may be missing; rows are chosen among those displayed. */
  ghost predicate Deliverable(states: seq<PlaybackState>, w: Watch, e: ClientEvent) {
    match e
    case See(at, shown) => w.at <= at < |states| && QueueKept(states[at], shown)
    case Choose(rows, _) => w.at < |states| && forall i :: i in rows ==> 0 <= i < |states[w.at].queue|
  }

  ghost predicate AllDeliverable(states: seq<PlaybackState>, w: Watch, events: seq<ClientEvent>) {
    forall k :: 0 <= k < |events| ==> Deliverable(states, WatchAll(w, events[..k]), events[k])
  }

  /** The view is up to date with state `at`. */
  predicate InSync(v: SelectionView, s: PlaybackState) {
    v.revision == Revision(s) && v.key == QueueKey(s.queue) && v.length == |s.queue|
  }

  /** Row j is where a chosen row went. */
  ghost predicate IsChosenRow(states: seq<PlaybackState>, w: Watch, j: int)
    requires w.base <= w.at < |states|
  {
    exists i :: i in w.chosen && Follow(states, w.base, w.at, i) == j
  }

  /** The selection is empty, or exactly the rows where the chosen entries now stand. */
  ghost predicate Faithful(states: seq<PlaybackState>, w: Watch) {
    && w.base <= w.at < |states|
    && InSync(w.view, states[w.at])
    && (forall i :: i in w.chosen ==> 0 <= i < |states[w.base].queue|)
    && (w.view.indices == [] || forall j :: j in w.view.indices <==> j >= 0 && IsChosenRow(states, w, j))
  }

  /** The rows of a faithful selection are rows of the state it shows. */
  lemma FaithfulInRange(states: seq<PlaybackState>, w: Watch)
    requires IsHistory(states) && Faithful(states, w)
    ensures forall j :: j in w.view.indices ==> 0 <= j < |states[w.at].queue|
  {
    forall j | j in w.view.indices
      ensures 0 <= j < |states[w.at].queue|
    {
      assert IsChosenRow(states, w, j);
      var i :| i in w.chosen && Follow(states, w.base, w.at, i) == j;
      FollowKeepsEntry(states, w.base, w.at, i);
    }
  }

  lemma SeeKeepsFaithful(states: seq<PlaybackState>, w: Watch, at: nat, shown: PlaybackState)
    requires IsHistory(states) && Faithful(states, w) && Deliverable(states, w, See(at, shown))
    ensures Faithful(states, WatchStep(w, See(at, shown)))
  {
    var w' := WatchStep(w, See(at, shown));
    RevisionOrders(states, w.at, at);
    if Revision(states[at]) == Revision(states[w.at]) {
      forall j
        ensures IsChosenRow(states, w', j) <==> IsChosenRow(states, w, j)
      {
        forall i | i in w.chosen
          ensures Follow(states, w.base, at, i) == Follow(states, w.base, w.at, i)
        {
          FollowCompose(states, w.base, w.at, at, i);
        }
      }
    } else if Revision(states[at]) == Revision(states[w.at]) + 1 {
      OneRevisionLater(states, w.at, at);
      var m := states[at].indexMap.value;
      FaithfulInRange(states, w);
      if w.view.indices != [] && |m| == w.view.length {
        RemapFaithful(states, w, at, m);
        forall j
          ensures j in Sorted(Remapped(w.view.indices, m)) <==> j >= 0 && IsChosenRow(states, w', j)
        {
          assert j in SetOf(Remapped(w.view.indices, m)) <==> j in Remapped(w.view.indices, m);
          assert IsChosenRow(states, w', j) <==> IsChosenRow(states, w.(at := at), j);
        }
      }
    }
  }

  lemma RemapFaithful(states: seq<PlaybackState>, w: Watch, at: nat, m: seq<int>)
    requires IsHistory(states) && Faithful(states, w) && w.at <= at < |states| && w.view.indices != []
    requires forall i {:trigger Follow(states, w.at, at, i)} :: Follow(states, w.at, at, i) == MovedIndex(i, m)
    ensures forall j :: j in Remapped(w.view.indices, m) <==> j >= 0 && IsChosenRow(states, w.(at := at), j)
  {
    RemappedSet(w.view.indices, m);
    var w' := w.(at := at);
    forall j | j >= 0
      ensures (exists i :: i in w.view.indices && MovedIndex(i, m) == j) <==> IsChosenRow(states, w', j)
    {
      if IsChosenRow(states, w', j) {
        var i :| i in w.chosen && Follow(states, w.base, at, i) == j;
        FollowCompose(states, w.base, w.at, at, i);
        FollowKeepsEntry(states, w.base, w.at, i);
        var k := Follow(states, w.base, w.at, i);
        assert IsChosenRow(states, w, k);
        assert MovedIndex(k, m) == Follow(states, w.at, at, k);
      }
      if i :| i in w.view.indices && MovedIndex(i, m) == j {
        assert IsChosenRow(states, w, i);
        var c :| c in w.chosen && Follow(states, w.base, w.at, c) == i;
        FollowCompose(states, w.base, w.at, at, c);
        assert Follow(states, w.at, at, i) == MovedIndex(i, m);
      }
    }
  }

  /** The map the state carries; none counts as the empty one. */
  function MapOf(s: PlaybackState): seq<int> {
    if s.indexMap.Some? then s.indexMap.value else []
  }

  /**
   A later sight leaves a selection in place if and only if the revision is the same, or it
   is one later with a map for the queue last seen by which some selected row survives.
   */
  lemma SightKeepsExactly(states: seq<PlaybackState>, w: Watch, at: nat, shown: PlaybackState)
    requires IsHistory(states) && Faithful(states, w) && Deliverable(states, w, See(at, shown)) && w.view.indices != []
    ensures var seen, next := states[w.at], states[at];
      WatchStep(w, See(at, shown)).view.indices != [] <==>
        || Revision(next) == Revision(seen)
        || (Revision(next) == Revision(seen) + 1 && |MapOf(next)| == |seen.queue|
            && exists i :: i in w.view.indices && MovedIndex(i, MapOf(next)) >= 0)
  {
    RevisionOrders(states, w.at, at);
    if Revision(states[at]) == Revision(states[w.at]) + 1 {
      var m := MapOf(states[at]);
      RemapKeeps(w.view.indices, m);
      assert MapOf(shown) == m;
    }
  }

  lemma RemapKeeps(indices: seq<int>, m: seq<int>)
    ensures Sorted(Remapped(indices, m)) != [] <==> exists i :: i in indices && MovedIndex(i, m) >= 0
  {
    RemappedSet(indices, m);
    var moved := Remapped(indices, m);
    if moved != [] {
      assert moved[0] in moved && moved[0] in SetOf(Sorted(moved));
    }
    if Sorted(moved) != [] {
      assert Sorted(moved)[0] in SetOf(moved);
    }
    if i :| i in indices && MovedIndex(i, m) >= 0 {
      assert MovedIndex(i, m) in moved;
    }
  }

  lemma ChooseKeepsFaithful(states: seq<PlaybackState>, w: Watch, rows: seq<int>, anchor: Option<int>)
    requires Faithful(states, w) && Deliverable(states, w, Choose(rows, anchor))
    ensures Faithful(states, WatchStep(w, Choose(rows, anchor)))
  {
    var w' := WatchStep(w, Choose(rows, anchor));
    forall j
      ensures j in w'.view.indices <==> j >= 0 && IsChosenRow(states, w', j)
    {
      assert j in w'.view.indices <==> j in SetOf(rows);
      assert Follow(states, w'.base, w'.at, j) == j;
    }
  }

  /** For every history and every lossy in-order delivery, the selection stays faithful. */
  lemma {:induction false} SelectionFaithful(states: seq<PlaybackState>, w: Watch, events: seq<ClientEvent>)
    requires IsHistory(states) && Faithful(states, w) && AllDeliverable(states, w, events)
    ensures Faithful(states, WatchAll(w, events))
  {
    if events != [] {
      var init, last := events[..|events| - 1], events[|events| - 1];
      forall k | 0 <= k < |init|
        ensures Deliverable(states, WatchAll(w, init[..k]), init[k])
      {
        assert init[..k] == events[..k];
      }
      SelectionFaithful(states, w, init);
      match last {
        case See(at, shown) => SeeKeepsFaithful(states, WatchAll(w, init), at, shown);
        case Choose(rows, anchor) => ChooseKeepsFaithful(states, WatchAll(w, init), rows, anchor);
      }
    }
  }

  // ------------------------------------------------------------ anchor and key

  /** Where the anchor's entry stands after later sights, as long as rows are selected. */
  predicate AnchorAt(states: seq<PlaybackState>, w: Watch, w': Watch, row: int)
    requires w.at <= w'.at < |states|
  {
    var j := Follow(states, w.at, w'.at, row);
    w'.view.anchor == (if w'.view.indices != [] && j >= 0 then Some(j) else None)
  }

  lemma AnchorStep(states: seq<PlaybackState>, w: Watch, w1: Watch, row: int, at: nat, shown: PlaybackState)
    requires IsHistory(states) && Faithful(states, w1) && Deliverable(states, w1, See(at, shown))
    requires w.at <= w1.at < |states| && AnchorAt(states, w, w1, row)
    ensures AnchorAt(states, w, WatchStep(w1, See(at, shown)), row)
  {
    var j := Follow(states, w.at, w1.at, row);
    FollowCompose(states, w.at, w1.at, at, row);
    RevisionOrders(states, w1.at, at);
    if Revision(states[at]) == Revision(states[w1.at]) + 1 {
      OneRevisionLater(states, w1.at, at);
      assert Follow(states, w1.at, at, j) == MovedIndex(j, MapOf(states[at]));
    } else {
      assert Revision(states[at]) == Revision(states[w1.at]) ==> Follow(states, w1.at, at, j) == j;
    }
    if w1.view.indices != [] && j < 0 {
      FollowNegative(states, w1.at, at, j);
    }
  }

  lemma {:induction false} FollowNegative(states: seq<PlaybackState>, a: nat, b: nat, i: int)
    requires a <= b < |states| && i < 0
    ensures Follow(states, a, b, i) < 0
    decreases b
  {
    if a < b {
      FollowNegative(states, a, b - 1, i);
    }
  }

  /**
   The anchor of a selection follows its entry over every lossy in-order delivery: it is
   where that entry stands as long as rows stay selected, and gone with the entry or the rows.
   */
  lemma {:induction false} AnchorFollows(states: seq<PlaybackState>, w: Watch, events: seq<ClientEvent>, row: nat)
    requires IsHistory(states) && Faithful(states, w) && AllDeliverable(states, w, events)
    requires w.view.indices != [] && w.view.anchor == Some(row) && forall e :: e in events ==> e.See?
    ensures w.at <= WatchAll(w, events).at < |states| && AnchorAt(states, w, WatchAll(w, events), row)
  {
    SelectionFaithful(states, w, events);
    if events != [] {
      var init, last := events[..|events| - 1], events[|events| - 1];
      assert last in events;
      forall k | 0 <= k < |init|
        ensures Deliverable(states, WatchAll(w, init[..k]), init[k])
      {
        assert init[..k] == events[..k];
      }
      AnchorFollows(states, w, init, row);
      SelectionFaithful(states, w, init);
      AnchorStep(states, w, WatchAll(w, init), row, last.at, last.shown);
    }
  }

  predicate NulFree(s: string) {
    '\0' !in s
  }

  predicate PlainIds(queue: seq<Entry>) {
    forall e :: e in queue ==> NulFree(e.id)
  }

  predicate SameIds(a: seq<Entry>, b: seq<Entry>) {
    |a| == |b| && forall k :: 0 <= k < |a| ==> a[k].id == b[k].id
  }

  lemma NoNulBehind(x: string, y: string)
    requires NulFree(y)
    ensures var s := x + ['\0'] + y; s[|x|] == '\0' && forall k :: |x| < k < |s| ==> s[k] != '\0'
  {
    var s := x + ['\0'] + y;
    forall k | |x| < k < |s|
      ensures s[k] != '\0'
    {
      assert s[k] == y[k - |x| - 1];
    }
  }

  /** What stands behind the last NUL, and what before it, is determined. */
  lemma LastPart(x: string, y: string, x': string, y': string)
    requires x + ['\0'] + y == x' + ['\0'] + y' && NulFree(y) && NulFree(y')
    ensures x == x' && y == y'
  {
    var s := x + ['\0'] + y;
    NoNulBehind(x, y);
    NoNulBehind(x', y');
    assert s[..|x|] == x && s[|x| + 1..] == y && s[..|x'|] == x' && s[|x'| + 1..] == y';
  }

  lemma LongKeyHasNul(queue: seq<Entry>)
    requires |queue| >= 2
    ensures !NulFree(QueueKey(queue))
  {
    var k := QueueKey(queue[..|queue| - 1]);
    assert QueueKey(queue)[|k|] == '\0';
  }

  lemma ShortKeyIsPlain(queue: seq<Entry>)
    requires PlainIds(queue) && |queue| <= 1
    ensures NulFree(QueueKey(queue)) && (QueueKey(queue) == "" <==> queue == [] || queue[0].id == "")
  {
    if |queue| == 1 {
      assert queue[0] in queue;
    }
  }

  /** An empty queue and a queue of one entry without id have the same key. */
  predicate BothBlank(a: seq<Entry>, b: seq<Entry>) {
    || (a == [] && |b| == 1 && b[0].id == "")
    || (b == [] && |a| == 1 && a[0].id == "")
  }

  lemma LongKeys(a: seq<Entry>, b: seq<Entry>)
    requires PlainIds(a) && PlainIds(b) && |a| >= 2 && |b| >= 2
    ensures QueueKey(a) == QueueKey(b) <==>
      QueueKey(a[..|a| - 1]) == QueueKey(b[..|b| - 1]) && a[|a| - 1].id == b[|b| - 1].id
  {
    var n, m := |a| - 1, |b| - 1;
    assert a[n] in a && b[m] in b;
    if QueueKey(a) == QueueKey(b) {
      LastPart(QueueKey(a[..n]), a[n].id, QueueKey(b[..m]), b[m].id);
    }
  }

  /**
   The key tells queues of plain ids apart: it is the same exactly for the same ids in the
   same order, but for an empty queue and a queue of one entry without id.
   */
  lemma {:induction false} KeysTellApart(a: seq<Entry>, b: seq<Entry>)
    requires PlainIds(a) && PlainIds(b)
    ensures QueueKey(a) == QueueKey(b) <==> SameIds(a, b) || BothBlank(a, b)
    decreases |a|
  {
    if |a| >= 2 && |b| >= 2 {
      KeysTellApart(a[..|a| - 1], b[..|b| - 1]);
      LongKeys(a, b);
    } else {
      if |a| >= 2 {
        LongKeyHasNul(a);
      } else {
        ShortKeyIsPlain(a);
      }
      if |b| >= 2 {
        LongKeyHasNul(b);
      } else {
        ShortKeyIsPlain(b);
      }
    }
  }

  // --------------------------------------------------------------- end to end

  /** What the hub stores for a user along a run. */
  function HubHistory(h: HubState, events: seq<Event>, user: string): seq<PlaybackState> {
    seq(|events| + 1, k requires 0 <= k < |events| + 1 => Stored(Run(h, events)[k], user).state)
  }

  lemma HubRunsAreHistories(h: HubState, events: seq<Event>, user: string)
    requires AllNormalized(h)
    ensures IsHistory(HubHistory(h, events, user))
  {
    var states := HubHistory(h, events, user);
    forall k | 0 <= k < |states| - 1
      ensures QueueStep(states[k], states[k + 1])
    {
      RunNormalized(h, events, k);
      RunStep(h, events, k);
      StepFollows(Run(h, events)[k], events[k], user);
    }
  }

  /** Row j holds the very entry chosen at row i. */
  ghost predicate HoldsEntry(states: seq<PlaybackState>, w: Watch, i: int, j: int)
    requires w.base <= w.at < |states|
  {
    && 0 <= i < |states[w.base].queue| && 0 <= j < |states[w.at].queue|
    && Follow(states, w.base, w.at, i) == j
    && states[w.at].queue[j] == states[w.base].queue[i]
  }

  /** Each selected row holds a chosen entry, and each chosen entry that survives is selected. */
  ghost predicate DenotesChosen(states: seq<PlaybackState>, w: Watch)
    requires w.base <= w.at < |states|
  {
    && (forall j :: j in w.view.indices ==> exists i :: i in w.chosen && HoldsEntry(states, w, i, j))
    && (forall i :: i in w.chosen && Follow(states, w.base, w.at, i) >= 0 ==>
          Follow(states, w.base, w.at, i) in w.view.indices)
  }

  /** No two entries followed share a row. */
  ghost predicate FollowedApart(states: seq<PlaybackState>, w: Watch)
    requires w.base <= w.at < |states|
  {
    forall i, i' :: i in w.chosen && i' in w.chosen && i != i' && Follow(states, w.base, w.at, i) >= 0 ==>
      Follow(states, w.base, w.at, i) != Follow(states, w.base, w.at, i')
  }

  /**
   For every run of the hub, every lossy in-order delivery of its broadcasts and every
   choice of rows: the selection is empty, or each selected row holds the very entry that
   was chosen and every surviving chosen entry is selected; no two share a row.
   */
  lemma SelectionDenotesChosenEntries(h: HubState, events: seq<Event>, user: string, w: Watch, seen: seq<ClientEvent>)
    requires AllNormalized(h)
    requires Faithful(HubHistory(h, events, user), w)
    requires AllDeliverable(HubHistory(h, events, user), w, seen)
    ensures var states, w' := HubHistory(h, events, user), WatchAll(w, seen);
      && w'.base <= w'.at < |states|
      && (w'.view.indices == [] || DenotesChosen(states, w'))
      && FollowedApart(states, w')
  {
    var states, w' := HubHistory(h, events, user), WatchAll(w, seen);
    HubRunsAreHistories(h, events, user);
    SelectionFaithful(states, w, seen);
    FaithfulInRange(states, w');
    if w'.view.indices != [] {
      forall j | j in w'.view.indices
        ensures exists i :: i in w'.chosen && HoldsEntry(states, w', i, j)
      {
        assert IsChosenRow(states, w', j);
        var i :| i in w'.chosen && Follow(states, w'.base, w'.at, i) == j;
        FollowKeepsEntry(states, w'.base, w'.at, i);
        assert HoldsEntry(states, w', i, j);
      }
      forall i | i in w'.chosen && Follow(states, w'.base, w'.at, i) >= 0
        ensures Follow(states, w'.base, w'.at, i) in w'.view.indices
      {
        assert IsChosenRow(states, w', Follow(states, w'.base, w'.at, i));
      }
    }
    forall i, i' | i in w'.chosen && i' in w'.chosen && i != i' && Follow(states, w'.base, w'.at, i) >= 0
      ensures Follow(states, w'.base, w'.at, i) != Follow(states, w'.base, w'.at, i')
    {
      FollowInjective(states, w'.base, w'.at, i, i');
    }
  }

  /** A broadcast of step k can be delivered as a sight of state k + 1. */
  lemma BroadcastsAreDeliverable(h: HubState, events: seq<Event>, user: string, k: nat, o: Out, w: Watch)
    requires AllNormalized(h) && k < |events| && events[k].client.user == user && w.at <= k + 1
    requires o in Outcomes(Run(h, events)[k], events[k]).out && Carried(o.message).Some?
    ensures Deliverable(HubHistory(h, events, user), w, See(k + 1, Carried(o.message).value.state))
  {
    RunNormalized(h, events, k);
    RunStep(h, events, k);
    MessagesShowStoredQueue(Run(h, events)[k], events[k], o);
  }

  /** What really reaches a client: a message of the hub's step `step`, or a gesture of the user. */
  datatype Delivery = Broadcast(step: nat, sent: Out) | Gesture(rows: seq<int>, anchor: Option<int>)

  /** The number of the state on display after some deliveries. */
  function Displayed(at: nat, ds: seq<Delivery>): nat {
    if ds == [] then at
    else if ds[|ds| - 1].Broadcast? then ds[|ds| - 1].step + 1
    else Displayed(at, ds[..|ds| - 1])
  }

  /** A message that the hub sent the user later than what is displayed, or a choice among displayed rows. */
  ghost predicate Real(h: HubState, events: seq<Event>, user: string, at: nat, d: Delivery) {
    match d
    case Broadcast(step, sent) =>
      && at <= step < |events| && events[step].client.user == user
      && sent in Outcomes(Run(h, events)[step], events[step]).out && Carried(sent.message).Some?
    case Gesture(rows, _) =>
      at <= |events| && forall i :: i in rows ==> 0 <= i < |Stored(Run(h, events)[at], user).state.queue|
  }

  /** Some of the messages that the hub sent from state `at` on, each once and in order, and gestures between them. */
  ghost predicate AllReal(h: HubState, events: seq<Event>, user: string, at: nat, ds: seq<Delivery>) {
    forall k :: 0 <= k < |ds| ==> Real(h, events, user, Displayed(at, ds[..k]), ds[k])
  }

  function Sight(d: Delivery): ClientEvent {
    match d
    case Broadcast(step, sent) =>
      See(step + 1, if Carried(sent.message).Some? then Carried(sent.message).value.state else EMPTY_STATE)
    case Gesture(rows, anchor) => Choose(rows, anchor)
  }

  function Sights(ds: seq<Delivery>): (events: seq<ClientEvent>)
    ensures |events| == |ds|
  {
    seq(|ds|, k requires 0 <= k < |ds| => Sight(ds[k]))
  }

  /** A store constructed on a status that shows state `at`. */
  function FreshWatch(s: PlaybackState, at: nat): Watch {
    Watch(SelectionView([], None, Revision(s), QueueKey(s.queue), |s.queue|), at, at, [])
  }

  lemma {:induction false} WatchesDisplayed(w: Watch, ds: seq<Delivery>)
    ensures WatchAll(w, Sights(ds)).at == Displayed(w.at, ds)
  {
    if ds != [] {
      assert Sights(ds)[..|ds| - 1] == Sights(ds[..|ds| - 1]);
      WatchesDisplayed(w, ds[..|ds| - 1]);
    }
  }

  lemma RealIsDeliverable(h: HubState, events: seq<Event>, user: string, w: Watch, ds: seq<Delivery>)
    requires AllNormalized(h) && w.at <= |events| && AllReal(h, events, user, w.at, ds)
    ensures AllDeliverable(HubHistory(h, events, user), w, Sights(ds))
  {
    forall k | 0 <= k < |ds|
      ensures Deliverable(HubHistory(h, events, user), WatchAll(w, Sights(ds)[..k]), Sights(ds)[k])
    {
      assert Sights(ds)[..k] == Sights(ds[..k]);
      WatchesDisplayed(w, ds[..k]);
      assert Real(h, events, user, Displayed(w.at, ds[..k]), ds[k]);
      if ds[k].Broadcast? {
        BroadcastsAreDeliverable(h, events, user, ds[k].step, ds[k].sent, WatchAll(w, Sights(ds[..k])));
      }
    }
  }

  /**
   End to end: a store constructed on state `at` of a run of the hub, the messages that reach
   it of those the hub sent afterwards, and any gestures in between.  The selection is empty,
   or each selected row holds the very entry chosen and every surviving chosen entry is selected.
   */
  lemma BroadcastSelectionDenotesChosen(h: HubState, events: seq<Event>, user: string, at: nat, s: PlaybackState,
                                        ds: seq<Delivery>)
    requires AllNormalized(h) && at <= |events| && QueueKept(Stored(Run(h, events)[at], user).state, s)
    requires AllReal(h, events, user, at, ds)
    ensures var states, w := HubHistory(h, events, user), WatchAll(FreshWatch(s, at), Sights(ds));
      && w.base <= w.at == Displayed(at, ds) < |states|
      && (w.view.indices == [] || DenotesChosen(states, w))
      && FollowedApart(states, w)
  {
    var w := FreshWatch(s, at);
    assert HubHistory(h, events, user)[at] == Stored(Run(h, events)[at], user).state;
    RealIsDeliverable(h, events, user, w, ds);
    SelectionDenotesChosenEntries(h, events, user, w, Sights(ds));
    WatchesDisplayed(w, ds);
  }
}
