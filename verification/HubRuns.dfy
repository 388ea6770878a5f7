/** Safety of the hub over whole runs. */
module HubRuns {
  import opened Wrappers
  import opened Playback
  import opened IndexMaps
  import opened QueueReducer
  import opened QueueLaws
  import opened Hub

  // ------------------------------------------------------------------------ runs

  /** The states a run passes through, the first one included. */
  function Run(h: HubState, events: seq<Event>): (states: seq<HubState>)
    ensures |states| == |events| + 1 && states[0] == h
    decreases |events|
  {
    if events == [] then [h] else [h] + Run(Step(h, events[0]), events[1..])
  }

  lemma {:induction false} RunStep(h: HubState, events: seq<Event>, k: nat)
    requires k < |events|
    ensures Run(h, events)[k + 1] == Step(Run(h, events)[k], events[k])
    decreases k
  {
    if k > 0 {
      RunStep(Step(h, events[0]), events[1..], k - 1);
    }
  }

  /** What is stored for a user; nothing stored is the empty state at sequence 0. */
  function Stored(h: HubState, user: string): Shared {
    if user in h.store then h.store[user] else Shared(0, "", EMPTY_STATE, 0, "")
  }

  ghost predicate AllNormalized(h: HubState) {
    forall user :: Normalized(Stored(h, user).state)
  }

  // --------------------------------------------------------------- one step's effect

  /** The queue stays, is carried by the map one revision later, or is replaced one revision later. */
  ghost predicate QueueStep(s: PlaybackState, s': PlaybackState) {
    || QueueKept(s, s')
    || QueueReplaced(s, s')
    || (Revision(s') == Revision(s) + 1 && s'.indexMap.Some? && Carries(s.queue, s'.queue, s'.indexMap.value))
  }

  /** How a saved state follows the one it was reduced from. */
  ghost predicate Follows(shared: Shared, next: Shared) {
    && Normalized(next.state)
    && shared.seqNo <= next.seqNo <= shared.seqNo + 1
    && QueueStep(shared.state, next.state)
    && (next.seqNo == shared.seqNo
        ==> QueueKept(shared.state, next.state) && (next.active == shared.active || shared.active == ""))
  }

  lemma AdvanceKeepsQueue(shared: Shared, now: int)
    requires Normalized(shared.state)
    ensures var a := Advance(shared, now);
      && Normalized(a.state) && QueueKept(shared.state, a.state)
      && a.seqNo == shared.seqNo && a.active == shared.active && a.updatedBy == shared.updatedBy
      && a.state.playing == shared.state.playing && a.updatedAt == now
  {
    NormalizeReachesFixedPoint(shared.state);
    var s := shared.state;
    var elapsed := (now - shared.updatedAt) / 1_000_000;
    NormalizeReachesFixedPoint(if s.playing == Playing && elapsed > 0 then s.(position := s.position + elapsed) else s);
  }

  lemma AsOfNow(h: HubState, user: string, now: int)
    requires AllNormalized(h)
    ensures var a, s := SharedAsOfNow(h.store, user, now), Stored(h, user);
      && Normalized(a.state) && QueueKept(s.state, a.state) && a.seqNo == s.seqNo && a.active == s.active
      && a.state.playing == s.state.playing
  {
    if user in h.store {
      assert Normalized(Stored(h, user).state);
      AdvanceKeepsQueue(h.store[user], now);
    }
  }

  lemma ReducedFollows(shared: Shared, command: Command, client: Client, online: set<string>, now: int)
    requires Normalized(shared.state) && ReduceCommand(shared, command, client, online, now).Ok?
    ensures Follows(shared, ReduceCommand(shared, command, client, online, now).value)
  {
    var s := shared.state;
    NormalizeReachesFixedPoint(s);
    if IsQueueOp(command.op) {
      QueueCommandLaw(shared, command, client.device, now);
      QueueCommandNormalized(shared, command, client.device, now);
    } else if command.op == PushState {
      var pushed := RecordChange(command.state.value.(revision := s.revision), []);
      NormalizeReachesFixedPoint(pushed);
      NormalizeKeepsQueue(pushed);
    } else if command.op == PlayQueueIndex {
      var index := command.index.value;
      var chosen := s.(current := Some(index),
                       playNext := AdjustedPlayNext(|s.queue|, s.current, s.playNext, Some(index)),
                       position := 0, playing := StoppedOrIdle(s.queue));
      NormalizeReachesFixedPoint(chosen);
      NormalizeKeepsQueue(chosen);
    }
  }

  lemma QueueCommandNormalized(shared: Shared, command: Command, device: string, now: int)
    requires Normalized(shared.state) && ReduceQueue(shared, command, device, now).Ok?
    ensures Normalized(ReduceQueue(shared, command, device, now).value.state)
  {
    NormalizeReachesFixedPoint(shared.state);
    if !(command.op in {InsertAfterCurrent, AppendToQueue} && command.items == []) {
      NormalizeReachesFixedPoint(QueueUpdate(shared.state, command).value);
    }
  }

  lemma ReportFollows(shared: Shared, report: PlaybackState, device: string, now: int)
    requires Normalized(shared.state)
    requires ReduceReport(shared, report, device, now).Ok? && ReduceReport(shared, report, device, now).value.Some?
    ensures Follows(shared, ReduceReport(shared, report, device, now).value.value)
  {
    NormalizeReachesFixedPoint(shared.state);
    var merged := MergeReport(shared.state, Decode(report).value).value;
    NormalizeReachesFixedPoint(merged);
    NormalizeKeepsQueue(merged);
  }

  lemma FreezeFollows(shared: Shared, device: string, now: int)
    requires Normalized(shared.state) && Freeze(shared, device, now).Some?
    ensures Follows(shared, Freeze(shared, device, now).value)
  {
    NormalizeReachesFixedPoint(shared.state);
    var stopped := shared.state.(playing := StoppedOrIdle(shared.state.queue));
    NormalizeReachesFixedPoint(stopped);
    NormalizeKeepsQueue(stopped);
  }

  /** Whatever the event saves follows the stored state of its user. */
  lemma SavedFollows(h: HubState, e: Event)
    requires AllNormalized(h) && Outcomes(h, e).saved.Some?
    ensures Follows(SharedAsOfNow(h.store, e.client.user, e.now), Outcomes(h, e).saved.value)
  {
    AsOfNow(h, e.client.user, e.now);
    if e.Unregister? {
      FreezeFollows(SharedAsOfNow(h.store, e.client.user, e.now), e.client.device, e.now);
    } else if e.Handle? {
      HandledFollows(SharedAsOfNow(h.store, e.client.user, e.now), h, e.client, e.inbound, e.now);
    }
  }

  lemma HandledFollows(shared: Shared, h: HubState, client: Client, inbound: Envelope, now: int)
    requires shared == SharedAsOfNow(h.store, client.user, now) && Normalized(shared.state)
    requires Outcomes(h, Handle(client, inbound, now)).saved.Some?
    ensures Follows(shared, Outcomes(h, Handle(client, inbound, now)).saved.value)
  {
    match inbound.body {
      case CommandRequest(command) =>
        var r := ReduceCommand(shared, command, client, h.Online(client.user), now);
        assert r.Ok?;
        CommittedSaves(shared, command, client, r.value, h.Online(client.user));
        ReducedFollows(shared, command, client, h.Online(client.user), now);
      case Report(state) => ReportFollows(shared, state, client.device, now);
      case _ =>
    }
  }

  /** One step, one user: a follow-up of the stored state, and other users keep theirs. */
  lemma StepFollows(h: HubState, e: Event, user: string)
    requires AllNormalized(h)
    ensures Follows(Stored(h, user), Stored(Step(h, e), user))
    ensures user != e.client.user ==> Stored(Step(h, e), user) == Stored(h, user)
  {
    assert Normalized(Stored(h, user).state);
    if user == e.client.user && Outcomes(h, e).saved.Some? {
      SavedFollows(h, e);
      AsOfNow(h, user, e.now);
    }
  }

  lemma StepNormalized(h: HubState, e: Event)
    requires AllNormalized(h)
    ensures AllNormalized(Step(h, e))
  {
    forall user
      ensures Normalized(Stored(Step(h, e), user).state)
    {
      StepFollows(h, e, user);
    }
  }

  /** Every state stored in any run is normalized, so decoding it is the identity. */
  lemma {:induction false} RunNormalized(h: HubState, events: seq<Event>, k: nat)
    requires AllNormalized(h) && k <= |events|
    ensures AllNormalized(Run(h, events)[k])
    ensures forall user :: Decode(Stored(Run(h, events)[k], user).state) == Ok(Stored(Run(h, events)[k], user).state)
  {
    if k > 0 {
      RunNormalized(h, events, k - 1);
      RunStep(h, events, k - 1);
      StepNormalized(Run(h, events)[k - 1], events[k - 1]);
    }
    forall user
      ensures Decode(Stored(Run(h, events)[k], user).state) == Ok(Stored(Run(h, events)[k], user).state)
    {
      assert Normalized(Stored(Run(h, events)[k], user).state);
      NormalizeReachesFixedPoint(Stored(Run(h, events)[k], user).state);
    }
  }

  // ------------------------------------------------------------ rejected, stale, lost

  /** The command passes the staleness check and its reducer accepts it. */
  predicate Accepted(h: HubState, client: Client, inbound: Envelope, now: int) {
    && inbound.protocolVersion in {0, PROTOCOL_VERSION}
    && inbound.body.CommandRequest?
    && var shared := SharedAsOfNow(h.store, client.user, now);
       !IsStale(shared, inbound.body.command)
       && ReduceCommand(shared, inbound.body.command, client, h.Online(client.user), now).Ok?
  }

  /** A rejected command changes nothing and is answered to its sender alone. */
  lemma RejectedChangesNothing(h: HubState, client: Client, inbound: Envelope, now: int)
    requires inbound.body.CommandRequest? && !Accepted(h, client, inbound, now)
    ensures Step(h, Handle(client, inbound, now)) == h
    ensures forall o :: o in Outcomes(h, Handle(client, inbound, now)).out ==> o.To? && o.client == client
  {}

  /** One step of a run, seen from one user. */
  lemma RunFollows(h: HubState, events: seq<Event>, user: string, k: nat)
    requires AllNormalized(h) && k < |events|
    ensures Follows(Stored(Run(h, events)[k], user), Stored(Run(h, events)[k + 1], user))
  {
    RunNormalized(h, events, k);
    RunStep(h, events, k);
    StepFollows(Run(h, events)[k], events[k], user);
  }

  /** Sequence numbers never fall, and equal ones mean an equal queue, revision and map. */
  lemma {:induction false} SequenceOrdersRun(h: HubState, events: seq<Event>, user: string, i: nat, j: nat)
    requires AllNormalized(h) && i <= j <= |events|
    ensures var a, b := Stored(Run(h, events)[i], user), Stored(Run(h, events)[j], user);
      a.seqNo <= b.seqNo <= a.seqNo + (j - i) && (a.seqNo == b.seqNo ==> QueueKept(a.state, b.state))
  {
    if i < j {
      SequenceOrdersRun(h, events, user, i, j - 1);
      RunFollows(h, events, user, j - 1);
    }
  }

  /** A reduction that does not raise the sequence number changes nothing. */
  lemma QuietReduction(shared: Shared, command: Command, client: Client, online: set<string>, now: int)
    ensures var r := ReduceCommand(shared, command, client, online, now);
      r.Ok? && r.value.seqNo == shared.seqNo ==> r.value == shared
  {
    if IsQueueOp(command.op) {
      QuietQueueReduction(shared, command, client.device, now);
    }
  }

  lemma QuietQueueReduction(shared: Shared, command: Command, device: string, now: int)
    ensures var r := ReduceQueue(shared, command, device, now);
      r.Ok? && r.value.seqNo == shared.seqNo ==> r.value == shared
  {}

  /** What an accepted command saves, if anything, is its reduced state. */
  lemma CommittedSaves(shared: Shared, command: Command, client: Client, next: Shared, online: set<string>)
    ensures Committed(shared, command, client, next, online).saved in {None, Some(next)}
    ensures Committed(shared, command, client, next, online).saved.None?
        ==> command.op.Transport? && shared.active != ""
  {}

  /** An accepted command that does not raise the sequence number changes no owner either. */
  lemma QuietCommandKeepsOwner(h: HubState, client: Client, inbound: Envelope, now: int)
    requires AllNormalized(h) && Accepted(h, client, inbound, now)
    requires Stored(Step(h, Handle(client, inbound, now)), client.user).seqNo == Stored(h, client.user).seqNo
    ensures Stored(Step(h, Handle(client, inbound, now)), client.user).active == Stored(h, client.user).active
  {
    var shared, command, online :=
        SharedAsOfNow(h.store, client.user, now), inbound.body.command, h.Online(client.user);
    var next := ReduceCommand(shared, command, client, online, now).value;
    AsOfNow(h, client.user, now);
    CommittedSaves(shared, command, client, next, online);
    QuietReduction(shared, command, client, online, now);
    assert Outcomes(h, Handle(client, inbound, now)) == Committed(shared, command, client, next, online);
  }

  /**
   No lost update: when two commands sent with the same baseSeq are both accepted, the
   earlier one changed neither queue, revision nor active device, and the later one is
   applied to the very queue the earlier one saw.
   */
  lemma NoLostUpdate(h: HubState, events: seq<Event>, i: nat, j: nat)
    requires AllNormalized(h) && i < j < |events|
    requires events[i].Handle? && events[j].Handle? && events[i].client.user == events[j].client.user
    requires Accepted(Run(h, events)[i], events[i].client, events[i].inbound, events[i].now)
    requires Accepted(Run(h, events)[j], events[j].client, events[j].inbound, events[j].now)
    requires events[i].inbound.body.command.baseSeq.Some?
    requires events[i].inbound.body.command.baseSeq == events[j].inbound.body.command.baseSeq
    ensures var user := events[i].client.user;
      var before, after, later :=
          Stored(Run(h, events)[i], user), Stored(Run(h, events)[i + 1], user), Stored(Run(h, events)[j], user);
      && QueueKept(before.state, after.state) && after.active == before.active
      && QueueKept(before.state, later.state)
  {
    var user, states := events[i].client.user, Run(h, events);
    RunNormalized(h, events, i);
    RunNormalized(h, events, j);
    AsOfNow(states[i], user, events[i].now);
    AsOfNow(states[j], user, events[j].now);
    SequenceOrdersRun(h, events, user, i, i + 1);
    SequenceOrdersRun(h, events, user, i + 1, j);
    RunStep(h, events, i);
    QuietCommandKeepsOwner(states[i], events[i].client, events[i].inbound, events[i].now);
  }

  /**
   A command built on state i of the run and accepted later acts on the very queue that
   its sender saw there.
   */
  lemma AcceptedActsOnSeenQueue(h: HubState, events: seq<Event>, i: nat, j: nat)
    requires AllNormalized(h) && i <= j < |events| && events[j].Handle?
    requires Accepted(Run(h, events)[j], events[j].client, events[j].inbound, events[j].now)
    requires events[j].inbound.body.command.baseSeq == Some(Stored(Run(h, events)[i], events[j].client.user).seqNo)
    ensures var user := events[j].client.user;
      QueueKept(Stored(Run(h, events)[i], user).state, SharedAsOfNow(Run(h, events)[j].store, user,
        events[j].now).state)
  {
    var user := events[j].client.user;
    RunNormalized(h, events, j);
    AsOfNow(Run(h, events)[j], user, events[j].now);
    SequenceOrdersRun(h, events, user, i, j);
  }

  // ------------------------------------------------- what the other reducers mean

  /** The first song with an id, found or absent. */
  lemma {:induction false} FindSongFirst(queue: seq<Entry>, songId: string, from: nat)
    requires from <= |queue|
    ensures match FindSong(queue, songId, from)
      case None => forall k :: from <= k < |queue| ==> SongIdAt(queue, k) != Some(songId)
      case Some(i) => from <= i < |queue| && SongIdAt(queue, i) == Some(songId)
                      && forall k :: from <= k < i ==> SongIdAt(queue, k) != Some(songId)
    decreases |queue| - from
  {
    if from < |queue| && SongIdAt(queue, from) != Some(songId) {
      FindSongFirst(queue, songId, from + 1);
    }
  }

  /** The entry at i can be the one the report speaks of. */
  predicate Compatible(queue: seq<Entry>, report: PlaybackState, i: int) {
    0 <= i < |queue|
    && ((report.current == Some(i) && SongIdAt(queue, i).None?)
        || (SongIdAt(queue, i).Some? && SongIdAt(queue, i) == report.songId))
  }

  /**
   A report takes effect exactly when some entry is compatible with it; it then moves the
   cursor to a compatible entry, to the reported index when that one is, leaves the queue
   alone, and consumes the region up to that entry, or all of it when the entry lies outside.
   */
  lemma ReportMeaning(s: PlaybackState, report: PlaybackState)
    requires Normalized(s)
    ensures MergeReport(s, report).Some? <==> exists i :: Compatible(s.queue, report, i)
    ensures MergeReport(s, report).Some? ==>
      var s' := MergeReport(s, report).value;
      && QueueKept(s, s') && s'.playing == report.playing && s'.position == report.position
      && s'.current.Some? && Compatible(s.queue, report, s'.current.value)
      && (report.current.Some? && Compatible(s.queue, report, report.current.value) ==> s'.current == report.current)
      && (s'.current != report.current ==>
            forall k :: 0 <= k < s'.current.value ==> SongIdAt(s.queue, k) != report.songId)
      && PlayNextEntries(s') ==
           (if s.current == s'.current || IsPlayNextIndex(|s.queue|, s.current, s.playNext, s'.current.value)
            then PlayNextSuffix(s, s'.current.value) else [])
  {
    if report.songId.Some? {
      FindSongFirst(s.queue, report.songId.value, 0);
    }
    var merged := MergeReport(s, report);
    if i :| Compatible(s.queue, report, i) {
      if report.songId.Some? && SongIdAt(s.queue, i) == report.songId {
        assert FindSong(s.queue, report.songId.value, 0).Some?;
      }
    }
    if merged.Some? {
      var j := merged.value.current.value;
      assert Compatible(s.queue, report, j);
      CurrentChangeShrinksRegion(s, j);
    }
  }

  /** The old region from behind j on. */
  function PlayNextSuffix(s: PlaybackState, j: int): seq<Entry> {
    var end := PlayNextEnd(|s.queue|, s.current, s.playNext);
    if 0 <= j < end then s.queue[j + 1..end] else []
  }

  /** Jumping to an entry makes it current at its start and consumes the region up to it. */
  lemma PlayIndexMeaning(shared: Shared, command: Command, device: string, now: int)
    requires Normalized(shared.state)
    ensures var r := ReducePlayIndex(shared, command, device, now);
      var s := shared.state;
      && (r.Ok? <==> command.index.Some? && 0 <= command.index.value < |s.queue|)
      && (r.Ok? ==>
            var s', j := r.value.state, command.index.value;
            && QueueKept(s, s') && CurrentEntry(s') == Some(s.queue[j]) && s'.position == 0 && s'.playing == Stopped
            && r.value.active == (if shared.active == "" then device else shared.active)
            && PlayNextEntries(s') == (if s.current == Some(j) || IsPlayNextIndex(|s.queue|, s.current, s.playNext, j)
                                       then PlayNextSuffix(s, j) else []))
  {
    NormalizeReachesFixedPoint(shared.state);
    if command.index.Some? && 0 <= command.index.value < |shared.state.queue| {
      CurrentChangeShrinksRegion(shared.state, command.index.value);
    }
  }

  /** A transfer hands the session over unchanged, and only to another online device with something to play. */
  lemma TransferMeaning(shared: Shared, command: Command, device: string, online: set<string>, now: int)
    requires Normalized(shared.state)
    ensures var r := ReduceTransfer(shared, command, device, online, now);
      && (r.Ok? <==>
            && command.target != "" && command.target in online && command.target != shared.active
            && shared.state.queue != [])
      && (r.Ok? ==>
            r.value.state == shared.state && r.value.active == command.target && r.value.seqNo == shared.seqNo + 1)
  {
    NormalizeReachesFixedPoint(shared.state);
  }

  /** Losing the active device stops playback where it was. */
  lemma FreezeMeaning(shared: Shared, device: string, now: int)
    requires Normalized(shared.state) && shared.active == device
    ensures Freeze(shared, device, now).Some?
    ensures var next := Freeze(shared, device, now).value;
      && QueueKept(shared.state, next.state) && next.state.current == shared.state.current
      && next.state.position == shared.state.position && PlayNextEntries(next.state) == PlayNextEntries(shared.state)
      && next.state.playing == (if shared.state.queue == [] then Idle else Stopped) && next.active == ""
  {
    NormalizeReachesFixedPoint(shared.state);
  }

  // -------------------------------------------------------------- the active device

  /** The active device is none or online; with none, nothing is playing. */
  ghost predicate ActiveIsOnline(h: HubState) {
    forall user :: OwnedOnline(Stored(h, user), h.Online(user))
  }

  /** Messages come from devices that are online; connections may be replaced freely. */
  predicate SenderOnline(h: HubState, e: Event) {
    e.Handle? ==> e.client.device in h.Online(e.client.user)
  }

  lemma StepKeepsActiveOnline(h: HubState, e: Event)
    requires AllNormalized(h) && ActiveIsOnline(h) && SenderOnline(h, e)
    ensures ActiveIsOnline(Step(h, e))
  {
    var h' := Step(h, e);
    forall user
      ensures OwnedOnline(Stored(h', user), h'.Online(user))
    {
      assert OwnedOnline(Stored(h, user), h.Online(user));
      StepOnline(h, e, user);
      if user == e.client.user {
        AsOfNow(h, user, e.now);
        ActiveAfter(h, e);
      }
    }
  }

  /** Only an unregistering current connection takes its device offline. */
  lemma StepOnline(h: HubState, e: Event, user: string)
    ensures h.Online(user)
        - (if e.Unregister? && user == e.client.user && h.IsCurrent(e.client) then {e.client.device} else {})
      <= Step(h, e).Online(user)
    ensures e.Handle? ==> Step(h, e).Online(user) == h.Online(user)
  {}

  predicate OwnedOnline(s: Shared, online: set<string>) {
    (s.active == "" || s.active in online) && (s.active == "" ==> s.state.playing != Playing)
  }

  lemma ActiveAfter(h: HubState, e: Event)
    requires AllNormalized(h) && ActiveIsOnline(h) && SenderOnline(h, e)
    ensures OwnedOnline(Stored(Step(h, e), e.client.user), Step(h, e).Online(e.client.user))
  {
    var user := e.client.user;
    var shared := SharedAsOfNow(h.store, user, e.now);
    AsOfNow(h, user, e.now);
    StepOnline(h, e, user);
    assert OwnedOnline(Stored(h, user), h.Online(user));
    match e {
      case Register(_, _) =>
      case Unregister(client, now) => FrozenOwner(shared, client.device, now);
      case Handle(client, inbound, now) =>
        if inbound.protocolVersion in {0, PROTOCOL_VERSION} {
          match inbound.body {
            case CommandRequest(command) => CommandOutcomeOwner(shared, command, client, h.Online(user), now);
            case Report(report) => ReportOwner(shared, report, client, now);
            case _ =>
          }
        }
    }
  }

  /** Freezing gives up the ownership of the device, and only of that device. */
  lemma FrozenOwner(shared: Shared, device: string, now: int)
    requires Normalized(shared.state)
    ensures Freeze(shared, device, now).Some? <==> shared.active == device
    ensures Freeze(shared, device, now).Some? ==>
      Freeze(shared, device, now).value.active == "" && Freeze(shared, device, now).value.state.playing != Playing
  {
    NormalizeReachesFixedPoint(shared.state);
  }

  lemma CommandOutcomeOwner(shared: Shared, command: Command, client: Client, online: set<string>, now: int)
    requires Normalized(shared.state) && OwnedOnline(shared, online) && client.device in online
    ensures var saved := HandleCommand(shared, command, client, online, now).saved;
      saved.Some? ==> OwnedOnline(saved.value, online)
  {
    var r := ReduceCommand(shared, command, client, online, now);
    if r.Ok? {
      CommandOwner(shared, command, client, online, now);
      CommittedSaves(shared, command, client, r.value, online);
    }
  }

  lemma ReportOwner(shared: Shared, report: PlaybackState, client: Client, now: int)
    ensures var r := ReduceReport(shared, report, client.device, now);
      r.Ok? && r.value.Some? ==> r.value.value.active == client.device
  {}

  /** A command leaves the owner alone, or makes the sender or an online target the owner. */
  lemma CommandOwner(shared: Shared, command: Command, client: Client, online: set<string>, now: int)
    requires Normalized(shared.state) && ReduceCommand(shared, command, client, online, now).Ok?
    ensures var next := ReduceCommand(shared, command, client, online, now).value;
      && (next.active == shared.active || next.active == client.device || next.active in online)
      && (next.active == "" && shared.state.playing != Playing ==> next.state.playing != Playing)
  {
    NormalizeReachesFixedPoint(shared.state);
    if IsQueueOp(command.op) && ReduceQueue(shared, command, client.device, now).value.active == "" {
      QueueCommandNormalized(shared, command, client.device, now);
    }
  }

  /**
   In every run whose messages come from online devices, the active device is none or
   online, and the shared position of an unowned session cannot advance.
   */
  lemma {:induction false} RunKeepsActiveOnline(h: HubState, events: seq<Event>, k: nat)
    requires AllNormalized(h) && ActiveIsOnline(h) && k <= |events|
    requires forall i :: 0 <= i < |events| ==> SenderOnline(Run(h, events)[i], events[i])
    ensures ActiveIsOnline(Run(h, events)[k])
  {
    if k > 0 {
      RunKeepsActiveOnline(h, events, k - 1);
      RunNormalized(h, events, k - 1);
      RunStep(h, events, k - 1);
      StepKeepsActiveOnline(Run(h, events)[k - 1], events[k - 1]);
    }
  }

  /** While nobody owns the session its position stands still, whatever the clock says. */
  lemma UnownedPositionStands(h: HubState, user: string, now: int)
    requires AllNormalized(h) && ActiveIsOnline(h) && Stored(h, user).active == ""
    ensures SharedAsOfNow(h.store, user, now).state.position == Stored(h, user).state.position
  {
    assert OwnedOnline(Stored(h, user), h.Online(user));
    assert Normalized(Stored(h, user).state);
    AdvanceOnce(Stored(h, user), now);
  }

  /** A push of the empty state. */
  function PushEmpty(): Envelope {
    Envelope(PROTOCOL_VERSION, "", CommandRequest(
      Command(PushState, "", None, [], [], None, false, None, [], None, None, "", Some(EMPTY_STATE))))
  }

  /** The rule survives every message of a client exactly when its device is online. */
  lemma ActiveOnlineExactly(h: HubState, client: Client)
    requires AllNormalized(h) && ActiveIsOnline(h)
    ensures (forall inbound, now :: ActiveIsOnline(Step(h, Handle(client, inbound, now))))
        <==> client.device in h.Online(client.user)
  {
    if client.device in h.Online(client.user) {
      forall inbound, now
        ensures ActiveIsOnline(Step(h, Handle(client, inbound, now)))
      {
        StepKeepsActiveOnline(h, Handle(client, inbound, now));
      }
    } else {
      AsOfNow(h, client.user, 0);
      var h' := Step(h, Handle(client, PushEmpty(), 0));
      NormalizeReachesFixedPoint(SharedAsOfNow(h.store, client.user, 0).state);
      assert Stored(h', client.user).active == client.device;
      assert !ActiveIsOnline(h');
    }
  }

  /** A replaced connection outlives its replacement and makes its offline device active. */
  lemma ReplacedConnectionClaims(user: string, device: DeviceId, now: int)
    ensures var old', new' := Client(user, device, 0), Client(user, device, 1);
      var events := [Register(old', now), Register(new', now), Unregister(new', now), Handle(old', PushEmpty(), now)];
      var last := Run(HubState(map[], map[]), events)[4];
      Stored(last, user).active == device && device !in last.Online(user)
  {
    var old', new' := Client(user, device, 0), Client(user, device, 1);
    var e0, e1, e2, e3 :=
        Register(old', now), Register(new', now), Unregister(new', now), Handle(old', PushEmpty(), now);
    var h0 := HubState(map[], map[]);
    var h1 := Step(h0, e0);
    var h2 := Step(h1, e1);
    var h3 := Step(h2, e2);
    var events := [e0, e1, e2, e3];
    RunStep(h0, events, 0);
    RunStep(h0, events, 1);
    RunStep(h0, events, 2);
    RunStep(h0, events, 3);
    assert h2.clients[user][device] == 1;
    assert Freeze(SharedAsOfNow(h2.store, user, now), device, now).None?;
    assert h3.store == map[];
    NormalizeReachesFixedPoint(EMPTY_STATE);
  }

  // -------------------------------------------------------- what clients are told

  /** The state a message carries, if it carries one. */
  function Carried(m: Message): Option<Shared> {
    match m
    case SharedSnapshot(shared, _) => shared
    case SharedUpdated(shared, _) => shared
    case _ => None
  }

  lemma ApplyCarriesNothing(client: Client, id: string, active: string, op: string, positionMs: Option<int>,
                            online: set<string>)
    ensures forall o :: o in ApplyToActive(client, id, active, op, positionMs, online) ==> Carried(o.message).None?
  {}

  lemma SavedCarries(client: Client, next: Shared, reason: string, more: seq<Out>, o: Out)
    requires forall m :: m in more ==> Carried(m.message).None?
    requires o in Saved(client, next, reason, more).out && Carried(o.message).Some?
    ensures Carried(o.message) == Payload(next) && o.ToAll? && o.user == client.user
  {
    assert o in more || o == ToAll(client.user, SharedUpdated(Payload(next), reason));
  }

  lemma CommittedCarries(shared: Shared, command: Command, client: Client, next: Shared, online: set<string>, o: Out)
    requires o in Committed(shared, command, client, next, online).out && Carried(o.message).Some?
    ensures Committed(shared, command, client, next, online).saved == Some(next)
    ensures Carried(o.message) == Payload(next) && o.ToAll? && o.user == client.user
  {
    match command.op {
      case PushState => SavedCarries(client, next, "push", [], o);
      case TransferPlayback => SavedCarries(client, next, "transfer", [], o);
      case PlayQueueIndex =>
        ApplyCarriesNothing(client, command.id, next.active, "play", None, online);
        SavedCarries(client, next, "command", ApplyToActive(client, command.id, next.active, "play", None, online), o);
      case SetQueue =>
        ApplyCarriesNothing(client, command.id, next.active, "play", None, online);
        SavedCarries(client, next, "command", if command.autoPlay then ApplyToActive(client, command.id,
          next.active, "play", None, online) else [], o);
      case Transport(name) =>
        ApplyCarriesNothing(client, command.id, next.active, name, command.positionMs, online);
        if shared.active == "" {
          SavedCarries(client, next, "command", ApplyToActive(client, command.id, next.active, name,
            command.positionMs, online), o);
        }
      case _ => SavedCarries(client, next, "command", [], o);
    }
  }

  lemma CommandCarries(shared: Shared, command: Command, client: Client, online: set<string>, now: int, o: Out)
    requires var r := HandleCommand(shared, command, client, online, now); o in r.out && Carried(o.message).Some?
    ensures var saved := HandleCommand(shared, command, client, online, now).saved;
      Carried(o.message) == Payload(if saved.Some? then saved.value else shared)
    ensures (o.To? ==> o.client == client) && (o.ToAll? ==> o.user == client.user) && !o.ToDevice?
  {
    if !IsStale(shared, command) {
      var r := ReduceCommand(shared, command, client, online, now);
      if r.Ok? {
        CommittedCarries(shared, command, client, r.value, online, o);
      }
    }
  }

  lemma ReportCarries(shared: Shared, report: PlaybackState, client: Client, id: string, now: int, o: Out)
    requires o in HandleReport(shared, report, client, id, now).out && Carried(o.message).Some?
    ensures var saved := HandleReport(shared, report, client, id, now).saved;
      saved.Some? && Carried(o.message) == Payload(saved.value)
    ensures o.ToAll? && o.user == client.user
  {
    var r := ReduceReport(shared, report, client.device, now);
    if r.Ok? && r.value.Some? {
      SavedCarries(client, r.value.value, "report", [], o);
    }
  }

  lemma HandledCarries(h: HubState, client: Client, inbound: Envelope, now: int, o: Out)
    requires o in Outcomes(h, Handle(client, inbound, now)).out && Carried(o.message).Some?
    ensures var saved := Outcomes(h, Handle(client, inbound, now)).saved;
      Carried(o.message) == Payload(if saved.Some? then saved.value else SharedAsOfNow(h.store, client.user, now))
    ensures (o.To? ==> o.client == client) && (o.ToAll? ==> o.user == client.user) && !o.ToDevice?
  {
    var shared := SharedAsOfNow(h.store, client.user, now);
    if inbound.protocolVersion in {0, PROTOCOL_VERSION} {
      match inbound.body {
        case CommandRequest(command) => CommandCarries(shared, command, client, h.Online(client.user), now, o);
        case Report(state) => ReportCarries(shared, state, client, inbound.id, now, o);
        case _ =>
      }
    }
  }

  /** A message carries the state just saved or, when nothing was saved, the state as of now. */
  lemma CarriedState(h: HubState, e: Event, o: Out)
    requires o in Outcomes(h, e).out && Carried(o.message).Some?
    ensures var saved := Outcomes(h, e).saved;
      Carried(o.message) == Payload(if saved.Some? then saved.value else SharedAsOfNow(h.store, e.client.user, e.now))
    ensures (o.To? ==> o.client == e.client) && (o.ToAll? ==> o.user == e.client.user) && !o.ToDevice?
  {
    if e.Handle? {
      HandledCarries(h, e.client, e.inbound, e.now, o);
    }
  }

  /**
   Every shared state sent is the one just saved or, when nothing was saved, the stored one
   as of now; so it shows the queue, revision, map, sequence number and owner that are
   stored after the step, and it goes to clients of that user only.
   */
  lemma MessagesShowStoredQueue(h: HubState, e: Event, o: Out)
    requires AllNormalized(h) && o in Outcomes(h, e).out && Carried(o.message).Some?
    ensures var shown, stored := Carried(o.message).value, Stored(Step(h, e), e.client.user);
      && shown == (if Outcomes(h, e).saved.Some? then stored else SharedAsOfNow(h.store, e.client.user, e.now))
      && QueueKept(stored.state, shown.state) && shown.seqNo == stored.seqNo && shown.active == stored.active
      && (o.To? ==> o.client == e.client) && (o.ToAll? ==> o.user == e.client.user)
  {
    CarriedState(h, e, o);
    AsOfNow(h, e.client.user, e.now);
    if Outcomes(h, e).saved.Some? {
      SavedFollows(h, e);
      NormalizeReachesFixedPoint(Outcomes(h, e).saved.value.state);
    } else {
      NormalizeReachesFixedPoint(SharedAsOfNow(h.store, e.client.user, e.now).state);
    }
  }

  /** The application of a command, if there is one, is for an online owner. */
  predicate AppliesTo(o: Out, user: string, owner: string, online: set<string>) {
    o.message.Apply? ==> o == ToDevice(user, owner, o.message) && owner in online
  }

  lemma ApplyGoesToOwner(client: Client, id: string, owner: string, op: string, positionMs: Option<int>,
                         online: set<string>)
    ensures forall o :: o in ApplyToActive(client, id, owner, op, positionMs, online) ==>
              AppliesTo(o, client.user, owner, online)
  {}

  lemma SavedApplies(client: Client, next: Shared, reason: string, more: seq<Out>, online: set<string>, o: Out)
    requires forall m :: m in more ==> AppliesTo(m, client.user, next.active, online)
    requires o in Saved(client, next, reason, more).out
    ensures AppliesTo(o, client.user, next.active, online)
  {
    assert o in more || o == ToAll(client.user, SharedUpdated(Payload(next), reason));
  }

  lemma CommittedApplies(shared: Shared, command: Command, client: Client, next: Shared, online: set<string>, o: Out)
    requires o in Committed(shared, command, client, next, online).out
    ensures AppliesTo(o, client.user, next.active, online)
  {
    ApplyGoesToOwner(client, command.id, next.active, "play", None, online);
    match command.op {
      case PushState => SavedApplies(client, next, "push", [], online, o);
      case TransferPlayback => SavedApplies(client, next, "transfer", [], online, o);
      case PlayQueueIndex =>
        SavedApplies(client, next, "command", ApplyToActive(client, command.id, next.active, "play", None, online),
          online, o);
      case SetQueue =>
        var more := if command.autoPlay then ApplyToActive(client, command.id, next.active, "play", None, online)
            else [];
        SavedApplies(client, next, "command", more, online, o);
      case Transport(name) =>
        var more := ApplyToActive(client, command.id, next.active, name, command.positionMs, online);
        ApplyGoesToOwner(client, command.id, next.active, name, command.positionMs, online);
        if shared.active == "" {
          SavedApplies(client, next, "command", more, online, o);
        }
      case _ => SavedApplies(client, next, "command", [], online, o);
    }
  }

  /** A command applies to the owner of what it saves, or of what is stored when it saves nothing. */
  lemma CommandApplies(shared: Shared, command: Command, client: Client, online: set<string>, now: int, o: Out)
    requires o in HandleCommand(shared, command, client, online, now).out
    ensures var saved := HandleCommand(shared, command, client, online, now).saved;
      AppliesTo(o, client.user, (if saved.Some? then saved.value else shared).active, online)
  {
    var r := ReduceCommand(shared, command, client, online, now);
    if !IsStale(shared, command) && r.Ok? {
      CommittedSaves(shared, command, client, r.value, online);
      CommittedApplies(shared, command, client, r.value, online, o);
    }
  }

  /** Playback is only ever applied by the device that is active after the step, and only while it is online. */
  lemma AppliesReachTheOwner(h: HubState, client: Client, inbound: Envelope, now: int, o: Out)
    requires AllNormalized(h) && o in Outcomes(h, Handle(client, inbound, now)).out && o.message.Apply?
    ensures var h' := Step(h, Handle(client, inbound, now));
      o == ToDevice(client.user, Stored(h', client.user).active, o.message) && o.device in h'.Online(client.user)
  {
    AsOfNow(h, client.user, now);
    assert inbound.body.CommandRequest?;
    CommandApplies(SharedAsOfNow(h.store, client.user, now), inbound.body.command, client, h.Online(client.user),
      now, o);
  }

  /** Whatever an event saves is broadcast to all clients of its user, as it is stored: no change stays silent. */
  lemma SavedIsBroadcast(h: HubState, e: Event)
    requires AllNormalized(h) && Outcomes(h, e).saved.Some?
    ensures var stored := Stored(Step(h, e), e.client.user);
      exists reason :: ToAll(e.client.user, SharedUpdated(Some(stored), reason)) in Outcomes(h, e).out
  {
    SavedFollows(h, e);
    var next := Outcomes(h, e).saved.value;
    NormalizeReachesFixedPoint(next.state);
    assert Payload(next) == Some(next);
    var reason := SavedReason(h, e);
    assert Stored(Step(h, e), e.client.user) == next;
    assert Outcomes(h, e).out[0] in Outcomes(h, e).out;
    assert ToAll(e.client.user, SharedUpdated(Some(next), reason)) in Outcomes(h, e).out;
  }

  /** The first message of an event that saves is the broadcast. */
  lemma SavedReason(h: HubState, e: Event) returns (reason: string)
    requires Outcomes(h, e).saved.Some?
    ensures Outcomes(h, e).out != []
    ensures Outcomes(h, e).out[0] == ToAll(e.client.user, SharedUpdated(Payload(Outcomes(h, e).saved.value), reason))
  {
    if e.Unregister? {
      reason := "activeOffline";
    } else {
      match e.inbound.body {
        case CommandRequest(command) =>
          reason := if command.op == PushState then "push" else if command.op == TransferPlayback then "transfer"
            else "command";
          CommandReason(SharedAsOfNow(h.store, e.client.user, e.now), command, e.client, h.Online(e.client.user),
            e.now);
        case Report(_) => reason := "report";
        case _ =>
      }
    }
  }

  lemma CommandReason(shared: Shared, command: Command, client: Client, online: set<string>, now: int)
    requires HandleCommand(shared, command, client, online, now).saved.Some?
    ensures var o := HandleCommand(shared, command, client, online, now);
      var reason := if command.op == PushState then "push" else if command.op == TransferPlayback then "transfer"
          else "command";
      o.out != [] && o.out[0] == ToAll(client.user, SharedUpdated(Payload(o.saved.value), reason))
  {
    var r := ReduceCommand(shared, command, client, online, now);
    if !IsStale(shared, command) && r.Ok? {
      CommittedReason(shared, command, client, r.value, online);
    }
  }

  lemma CommittedReason(shared: Shared, command: Command, client: Client, next: Shared, online: set<string>)
    requires Committed(shared, command, client, next, online).saved.Some?
    ensures var o := Committed(shared, command, client, next, online);
      var reason := if command.op == PushState then "push" else if command.op == TransferPlayback then "transfer"
          else "command";
      o.saved == Some(next) && o.out != [] && o.out[0] == ToAll(client.user, SharedUpdated(Payload(next), reason))
  {}

  // ------------------------------------------------------------------------ clock

  /** Advancing and saving at each instant in turn. */
  function AdvanceThrough(shared: Shared, instants: seq<int>): Shared {
    if instants == [] then shared
    else Advance(AdvanceThrough(shared, instants[..|instants| - 1]), instants[|instants| - 1])
  }

  ghost predicate Ordered(start: int, instants: seq<int>) {
    forall i :: 0 <= i < |instants| ==> start <= instants[i] && (i > 0 ==> instants[i - 1] <= instants[i])
  }

  /** Advancing in one go. */
  lemma AdvanceOnce(shared: Shared, now: int)
    requires Normalized(shared.state)
    ensures Advance(shared, now).state.position ==
      if shared.state.playing == Playing && now - shared.updatedAt > 0
      then shared.state.position + (now - shared.updatedAt) / 1_000_000
      else shared.state.position
  {
    NormalizeReachesFixedPoint(shared.state);
  }

  lemma {:induction false} AdvanceThroughKeeps(shared: Shared, instants: seq<int>)
    requires Normalized(shared.state)
    ensures var a := AdvanceThrough(shared, instants);
      && Normalized(a.state) && QueueKept(shared.state, a.state)
      && a.state.playing == shared.state.playing && a.seqNo == shared.seqNo && a.active == shared.active
      && a.updatedAt == (if instants == [] then shared.updatedAt else instants[|instants| - 1])
      && a.state.position >= shared.state.position
      && (shared.state.playing != Playing ==> a.state.position == shared.state.position)
  {
    if instants != [] {
      var init := instants[..|instants| - 1];
      AdvanceThroughKeeps(shared, init);
      AdvanceKeepsQueue(AdvanceThrough(shared, init), instants[|instants| - 1]);
      AdvanceOnce(AdvanceThrough(shared, init), instants[|instants| - 1]);
    }
  }

  /**
   Saving a playing state at n ordered instants never leads one advance to the last of
   them, and lags it by at most n - 1 milliseconds.
   */
  lemma {:induction false} ClockBound(shared: Shared, instants: seq<int>)
    requires Normalized(shared.state) && shared.state.playing == Playing
    requires instants != [] && Ordered(shared.updatedAt, instants)
    ensures var stepped := AdvanceThrough(shared, instants).state.position;
      var direct := Advance(shared, instants[|instants| - 1]).state.position;
      stepped <= direct <= stepped + (|instants| - 1)
  {
    var n := |instants|;
    var init, last := instants[..n - 1], instants[n - 1];
    AdvanceOnce(shared, last);
    AdvanceThroughKeeps(shared, init);
    AdvanceOnce(AdvanceThrough(shared, init), last);
    if n == 1 {
      assert AdvanceThrough(shared, init) == shared;
    } else {
      ClockBound(shared, init);
      AdvanceOnce(shared, instants[n - 2]);
      FloorSum(instants[n - 2] - shared.updatedAt, last - instants[n - 2]);
    }
  }

  lemma FloorSum(x: int, y: int)
    requires 0 <= x && 0 <= y
    ensures x / 1_000_000 + y / 1_000_000 <= (x + y) / 1_000_000 <= x / 1_000_000 + y / 1_000_000 + 1
  {}

  /** The bound is reached: two advances of half a millisecond each lose the whole one. */
  lemma ClockBoundTight(shared: Shared)
    requires Normalized(shared.state) && shared.state.playing == Playing
    ensures var t := shared.updatedAt;
      Advance(shared, t + 1_000_000).state.position
        == AdvanceThrough(shared, [t + 500_000, t + 1_000_000]).state.position + 1
  {
    var t := shared.updatedAt;
    AdvanceOnce(shared, t + 1_000_000);
    AdvanceOnce(shared, t + 500_000);
    AdvanceKeepsQueue(shared, t + 500_000);
    var half := Advance(shared, t + 500_000);
    AdvanceOnce(half, t + 1_000_000);
    assert AdvanceThrough(shared, []) == shared;
    assert [t + 500_000, t + 1_000_000][..1] == [t + 500_000];
    assert [t + 500_000][..0] == [];
    assert AdvanceThrough(shared, [t + 500_000]) == half;
  }
}
