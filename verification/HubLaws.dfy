/** What each message means for the stored session: acceptance, what is stored, who owns it, who is told. */
module HubLaws {
  import opened Wrappers
  import opened Playback
  import opened QueueReducer
  import opened QueueLaws
  import opened Hub
  import opened HubRuns

  /** As of now the stored session is what it was, but for its position and instant. */
  lemma AsOfNowExactly(h: HubState, user: string, now: int)
    requires AllNormalized(h)
    ensures var a, s := SharedAsOfNow(h.store, user, now), Stored(h, user);
      && Normalized(a.state) && a == s.(state := s.state.(position := a.state.position), updatedAt := now)
      && a.state.position >= s.state.position
  {
    AsOfNow(h, user, now);
    if user in h.store {
      var s := h.store[user];
      assert Normalized(Stored(h, user).state);
      NormalizeReachesFixedPoint(s.state);
      AdvanceOnce(s, now);
    }
  }

  // ------------------------------------------------------------------- acceptance

  /** When a command is accepted on a session, with these devices online. */
  predicate Admissible(shared: Shared, command: Command, online: set<string>) {
    && (command.baseSeq.Some? ==> command.baseSeq.value == shared.seqNo)
    && (IsQueueOp(command.op) ==> Acceptable(shared.state, command))
    && (command.op == PushState ==> command.state.Some? && WithinBounds(command.state.value))
    && (command.op == TransferPlayback ==>
          && command.target != "" && command.target in online && command.target != shared.active
          && shared.state.queue != [])
    && (command.op == PlayQueueIndex ==> command.index.Some? && 0 <= command.index.value < |shared.state.queue|)
    && !command.op.Unsupported?
  }

  lemma PushAcceptedExactly(shared: Shared, command: Command, device: string, now: int)
    requires Normalized(shared.state)
    ensures ReducePush(shared, command, device, now).Ok? <==> command.state.Some? && WithinBounds(command.state.value)
  {
    NormalizeReachesFixedPoint(shared.state);
    if command.state.Some? {
      NormalizeMeaning(RecordChange(command.state.value.(revision := shared.state.revision), []));
    }
  }

  lemma ReducedExactly(shared: Shared, command: Command, client: Client, online: set<string>, now: int)
    requires Normalized(shared.state)
    ensures !IsStale(shared, command) && ReduceCommand(shared, command, client, online, now).Ok?
      <==> Admissible(shared, command, online)
  {
    if IsQueueOp(command.op) {
      QueueCommandAcceptedExactly(shared, command, client.device, now);
    } else if command.op == PushState {
      PushAcceptedExactly(shared, command, client.device, now);
    } else if command.op == TransferPlayback {
      TransferMeaning(shared, command, client.device, online, now);
    } else if command.op == PlayQueueIndex {
      PlayIndexMeaning(shared, command, client.device, now);
    }
  }

  lemma AdmissibleAsOfNow(a: Shared, s: Shared, command: Command, online: set<string>)
    requires a == s.(state := s.state.(position := a.state.position), updatedAt := a.updatedAt)
    ensures Admissible(a, command, online) <==> Admissible(s, command, online)
  {}

  /** A command is accepted exactly when its version and sequence number fit and it is admissible on what is stored. */
  lemma AcceptedExactly(h: HubState, client: Client, inbound: Envelope, now: int)
    requires AllNormalized(h) && inbound.body.CommandRequest?
    ensures Accepted(h, client, inbound, now) <==>
      && inbound.protocolVersion in {0, PROTOCOL_VERSION}
      && Admissible(Stored(h, client.user), inbound.body.command, h.Online(client.user))
  {
    var shared, command := SharedAsOfNow(h.store, client.user, now), inbound.body.command;
    AsOfNowExactly(h, client.user, now);
    ReducedExactly(shared, command, client, h.Online(client.user), now);
    AdmissibleAsOfNow(shared, Stored(h, client.user), command, h.Online(client.user));
  }

  /** A command that is not accepted is answered with an error, and a stale one also with the current session. */
  lemma RejectionAnswered(h: HubState, client: Client, inbound: Envelope, now: int)
    requires AllNormalized(h) && inbound.body.CommandRequest? && !Accepted(h, client, inbound, now)
    ensures var command, out := inbound.body.command, Outcomes(h, Handle(client, inbound, now)).out;
      var known := inbound.protocolVersion in {0, PROTOCOL_VERSION};
      var stale := known && command.baseSeq.Some? && command.baseSeq.value != Stored(h, client.user).seqNo;
      && out != [] && out[0].To? && out[0].client == client && out[0].message.CommandError?
      && out[0].message.commandId == (if known then command.id else "")
      && out[1..] == (if stale then [To(client, SharedSnapshot(Some(SharedAsOfNow(h.store, client.user, now)),
          "stale"))] else [])
  {
    AsOfNowExactly(h, client.user, now);
    NormalizeReachesFixedPoint(SharedAsOfNow(h.store, client.user, now).state);
  }

  /** Messages that are no command and no report change nothing. */
  lemma OtherMessages(h: HubState, client: Client, inbound: Envelope, now: int)
    requires inbound.protocolVersion !in {0, PROTOCOL_VERSION}
        || (!inbound.body.CommandRequest? && !inbound.body.Report?)
    ensures var e := Handle(client, inbound, now);
      && Step(h, e) == h
      && (if inbound.protocolVersion in {0, PROTOCOL_VERSION} && inbound.body.Presence?
          then Outcomes(h, e).out == [ToAll(client.user, PresenceUpdated(h.Online(client.user)))]
          else exists text :: Outcomes(h, e).out == [To(client, CommandError("", text))])
  {
    var out := Outcomes(h, Handle(client, inbound, now)).out;
    if !(inbound.protocolVersion in {0, PROTOCOL_VERSION} && inbound.body.Presence?) {
      assert out == [To(client, CommandError("", out[0].message.text))];
    }
  }

  // ----------------------------------------------------------- owner and stamp

  /** An accepted command changes nothing, or raises the sequence number by one and bears its sender and instant. */
  lemma StampedExactly(shared: Shared, command: Command, client: Client, online: set<string>, now: int)
    requires ReduceCommand(shared, command, client, online, now).Ok?
    ensures var next := ReduceCommand(shared, command, client, online, now).value;
      next == shared || Stamped(shared, next, client.device, now)
  {
    if IsQueueOp(command.op) {
      QueueStamp(shared, command, client.device, now);
    } else if command.op == PushState {
      PushStamp(shared, command, client.device, now);
    } else if command.op == TransferPlayback {
      TransferStamp(shared, command, client.device, online, now);
    }
  }

  predicate Stamped(shared: Shared, next: Shared, device: string, now: int) {
    next.seqNo == shared.seqNo + 1 && next.updatedBy == device && next.updatedAt == now
  }

  lemma PushStamp(shared: Shared, command: Command, device: string, now: int)
    requires ReducePush(shared, command, device, now).Ok?
    ensures Stamped(shared, ReducePush(shared, command, device, now).value, device, now)
  {}

  lemma TransferStamp(shared: Shared, command: Command, device: string, online: set<string>, now: int)
    requires ReduceTransfer(shared, command, device, online, now).Ok?
    ensures Stamped(shared, ReduceTransfer(shared, command, device, online, now).value, device, now)
  {}

  lemma QueueStamp(shared: Shared, command: Command, device: string, now: int)
    requires ReduceQueue(shared, command, device, now).Ok?
    ensures var next := ReduceQueue(shared, command, device, now).value;
      if command.op in {InsertAfterCurrent, AppendToQueue} && command.items == [] then next == shared
      else Stamped(shared, next, device, now)
  {}

  /**
   A queue command never takes over an owned session.  An unowned one is claimed by the
   sender exactly when the command stores a queue that is not empty; inserting or appending
   nothing stores nothing.
   */
  lemma QueueCommandOwner(shared: Shared, command: Command, device: DeviceId, now: int)
    requires Normalized(shared.state) && IsQueueOp(command.op) && ReduceQueue(shared, command, device, now).Ok?
    ensures var next := ReduceQueue(shared, command, device, now).value;
      var nothing := command.op in {InsertAfterCurrent, AppendToQueue} && command.items == [];
      && (shared.active != "" ==> next.active == shared.active)
      && (shared.active == "" ==> next.active in {"", device})
      && (shared.active == "" ==> (next.active == device <==> !nothing && next.state.queue != []))
      && (command.op in {InsertAfterCurrent, AppendToQueue} && !nothing ==> next.state.queue != [])
  {
    QueueStamp(shared, command, device, now);
    OwnerRule(shared, command, device, now);
    QueueCommandLaw(shared, command, device, now);
    var next := ReduceQueue(shared, command, device, now).value;
    if command.op in {InsertAfterCurrent, AppendToQueue} && command.items != [] {
      assert |next.state.queue| >= |command.items|;
    }
  }

  lemma OwnerRule(shared: Shared, command: Command, device: DeviceId, now: int)
    requires ReduceQueue(shared, command, device, now).Ok?
    ensures var next := ReduceQueue(shared, command, device, now).value;
      next == shared || next.active == (if shared.active == "" && next.state.queue != [] then device else shared.active)
  {}

  /** Who owns the session after an accepted command. */
  lemma OwnerAfter(shared: Shared, command: Command, client: Client, online: set<string>, now: int)
    requires Normalized(shared.state) && ReduceCommand(shared, command, client, online, now).Ok?
    ensures var next := ReduceCommand(shared, command, client, online, now).value;
      match command.op
      case PushState => next.active == client.device
      case TransferPlayback => next.active == command.target
      case PlayQueueIndex => next.active == (if shared.active == "" then client.device else shared.active)
      case Transport(_) =>
        && next.active == (if shared.active == "" then client.device else shared.active)
        && next.state == shared.state
      case _ => shared.active != "" ==> next.active == shared.active
  {
    if IsQueueOp(command.op) {
      QueueCommandOwner(shared, command, client.device, now);
    }
  }

  // ----------------------------------------------------------------------- push

  /** The sender's playback as it was: over a queue the same entry, position and region, stopped when idle or silent. */
  predicate ShowsPush(s: PlaybackState, p: PlaybackState) {
    && s.queue == p.queue
    && (p.queue != [] ==>
          && s.current == p.current && CurrentEntry(s) == CurrentEntry(p) && s.position == p.position
          && PlayNextEntries(s) == PlayNextEntries(p)
          && s.playing == (if p.playing in {Unset, Idle} then Stopped else p.playing))
    && (p.queue == [] ==> s.current == None && s.position == 0 && PlayNextEntries(s) == [])
  }

  /** What recording and normalizing leave of a pushed state. */
  lemma PushedState(p: PlaybackState, revision: Option<int>)
    requires WithinBounds(p)
    ensures var n := Normalize(RecordChange(p.(revision := revision), []));
      n.Ok? && ShowsPush(n.value, p)
  {
    var recorded := RecordChange(p.(revision := revision), []);
    NormalizeMeaning(recorded);
    NormalizeKeepsQueue(recorded);
    assert CurrentEntry(recorded) == CurrentEntry(p) && PlayNextEntries(recorded) == PlayNextEntries(p);
  }

  lemma PushedForm(shared: Shared, command: Command, device: string, now: int)
    requires Decode(shared.state) == Ok(shared.state) && command.state.Some?
    ensures var n := Normalize(RecordChange(command.state.value.(revision := shared.state.revision), []));
      var pushed := ReducePush(shared, command, device, now);
      n.Ok? ==> pushed == Ok(Shared(shared.seqNo + 1, device, n.value, now, device))
  {}

  lemma PushReduced(shared: Shared, command: Command, device: string, now: int)
    requires Normalized(shared.state) && command.state.Some? && WithinBounds(command.state.value)
    ensures var next := ReducePush(shared, command, device, now);
      && next.Ok? && ShowsPush(next.value.state, command.state.value)
      && next.value == Shared(shared.seqNo + 1, device, next.value.state, now, device)
  {
    assert Decode(shared.state) == Ok(shared.state) by { NormalizeReachesFixedPoint(shared.state); }
    PushedForm(shared, command, device, now);
    PushedState(command.state.value, shared.state.revision);
  }

  /**
   A push is stored exactly when its version and base fit, it carries a state, and that state
   is within bounds.  The stored session shows the sender's playback, is the sender's, and
   bears its instant under the next sequence number.
   */
  lemma PushStores(h: HubState, client: Client, inbound: Envelope, now: int)
    requires AllNormalized(h) && inbound.body.CommandRequest? && inbound.body.command.op == PushState
    ensures var command, before := inbound.body.command, Stored(h, client.user);
      var h' := Step(h, Handle(client, inbound, now));
      var after := Stored(h', client.user);
      if && inbound.protocolVersion in {0, PROTOCOL_VERSION}
         && (command.baseSeq.Some? ==> command.baseSeq.value == before.seqNo)
         && command.state.Some? && WithinBounds(command.state.value)
      then
        && ShowsPush(after.state, command.state.value)
        && after == Shared(before.seqNo + 1, client.device, after.state, now, client.device)
      else h' == h
  {
    AsOfNow(h, client.user, now);
    PushOutcome(SharedAsOfNow(h.store, client.user, now), inbound.body.command, client, h.Online(client.user), now);
  }

  lemma PushOutcome(shared: Shared, command: Command, client: Client, online: set<string>, now: int)
    requires Normalized(shared.state) && command.op == PushState
    ensures var saved := HandleCommand(shared, command, client, online, now).saved;
      && (saved.Some? <==>
            && (command.baseSeq.Some? ==> command.baseSeq.value == shared.seqNo)
            && command.state.Some? && WithinBounds(command.state.value))
      && (saved.Some? ==>
            && ShowsPush(saved.value.state, command.state.value)
            && saved.value == Shared(shared.seqNo + 1, client.device, saved.value.state, now, client.device))
  {
    PushAcceptedExactly(shared, command, client.device, now);
    if command.state.Some? && WithinBounds(command.state.value) {
      PushReduced(shared, command, client.device, now);
    }
  }

  // --------------------------------------------------------------------- reports

  /** The report with the song id that its own queue and index give. */
  function AsReported(r: PlaybackState): PlaybackState {
    r.(songId := if r.current.Some? then SongIdAt(r.queue, r.current.value) else None)
  }

  /** Some entry of the shared queue can be the one the report speaks of. */
  predicate Matches(queue: seq<Entry>, r: PlaybackState) {
    r.queue != [] && exists i :: 0 <= i < |queue| && Compatible(queue, AsReported(r), i)
  }

  predicate Reports(h: HubState, e: Event) {
    e.Handle? && e.inbound.body.Report? && e.inbound.protocolVersion in {0, PROTOCOL_VERSION}
  }

  predicate ReportRefused(shared: Shared, r: PlaybackState, device: string) {
    (shared.active != "" && shared.active != device) || !WithinBounds(r)
  }

  lemma DecodedReport(r: PlaybackState)
    requires WithinBounds(r)
    ensures Decode(r).Ok?
    ensures var d := Decode(r).value;
      if r.queue == [] then d.current == None && d.songId == None
      else && d.current == r.current && d.songId == AsReported(r).songId && d.position == r.position
           && d.playing == (if r.playing in {Unset, Idle} then Stopped else r.playing)
  {}

  lemma ReportReduced(shared: Shared, r: PlaybackState, device: string, now: int)
    requires Normalized(shared.state)
    ensures ReduceReport(shared, r, device, now).Err? <==> ReportRefused(shared, r, device)
    ensures !ReportRefused(shared, r, device) ==>
      (ReduceReport(shared, r, device, now).value.Some? <==> Matches(shared.state.queue, r))
  {
    NormalizeReachesFixedPoint(shared.state);
    NormalizeMeaning(r);
    if !ReportRefused(shared, r, device) {
      var d := Decode(r).value;
      DecodedReport(r);
      ReportMeaning(shared.state, d);
      MatchesAsDecoded(shared.state.queue, r, d);
      if MergeReport(shared.state, d).Some? {
        MergedWithin(shared.state, d);
      }
    }
  }

  lemma MatchesAsDecoded(queue: seq<Entry>, r: PlaybackState, d: PlaybackState)
    requires if r.queue == [] then d.current == None && d.songId == None
             else d.current == r.current && d.songId == AsReported(r).songId
    ensures Matches(queue, r) <==> exists i :: Compatible(queue, d, i)
    ensures r.queue != [] ==> forall i :: Compatible(queue, d, i) <==> Compatible(queue, AsReported(r), i)
  {
    if i :| Compatible(queue, d, i) {
      assert r.queue != [] ==> Compatible(queue, AsReported(r), i);
    }
    if Matches(queue, r) {
      var i :| 0 <= i < |queue| && Compatible(queue, AsReported(r), i);
      assert Compatible(queue, d, i);
    }
  }

  lemma MergedWithin(s: PlaybackState, d: PlaybackState)
    requires Normalized(s) && MergeReport(s, d).Some? && 0 <= d.position
    ensures WithinBounds(MergeReport(s, d).value) && Normalize(MergeReport(s, d).value).Ok?
  {
    var merged := MergeReport(s, d).value;
    ReportMeaning(s, d);
    CurrentChangeShrinksRegion(s, merged.current.value);
    NormalizeMeaning(merged);
  }

  /** The stored state after a report that takes effect. */
  predicate ShowsReport(s: PlaybackState, s': PlaybackState, r: PlaybackState) {
    && QueueKept(s, s') && s'.position == r.position
    && s'.playing == (if r.playing in {Unset, Idle} then Stopped else r.playing)
    && s'.current.Some? && Compatible(s.queue, AsReported(r), s'.current.value)
    && (r.current.Some? && Compatible(s.queue, AsReported(r), r.current.value) ==> s'.current == r.current)
    && (s'.current != r.current ==>
          forall k :: 0 <= k < s'.current.value ==> SongIdAt(s.queue, k) != AsReported(r).songId)
    && PlayNextEntries(s') ==
         (if s.current == s'.current || IsPlayNextIndex(|s.queue|, s.current, s.playNext, s'.current.value)
          then PlayNextSuffix(s, s'.current.value) else [])
  }

  lemma ReportShown(shared: Shared, r: PlaybackState, device: string, now: int)
    requires Normalized(shared.state) && !ReportRefused(shared, r, device) && Matches(shared.state.queue, r)
    requires ReduceReport(shared, r, device, now).Ok? && ReduceReport(shared, r, device, now).value.Some?
    ensures var next := ReduceReport(shared, r, device, now).value.value;
      && ShowsReport(shared.state, next.state, r)
      && next.active == device && next.seqNo == shared.seqNo && next.updatedBy == device && next.updatedAt == now
  {
    NormalizeReachesFixedPoint(shared.state);
    NormalizeMeaning(r);
    DecodedReport(r);
    var d := Decode(r).value;
    ReportMeaning(shared.state, d);
    MatchesAsDecoded(shared.state.queue, r, d);
    var merged := MergeReport(shared.state, d).value;
    NormalizeMeaning(merged);
    NormalizeKeepsQueue(merged);
    assert ReduceReport(shared, r, device, now).value.value.state == Normalize(merged).value;
  }

  /**
   A report is refused exactly when another device is active or the reported state is out of
   bounds; it changes nothing when no entry of the queue matches it.  Otherwise the stored
   state shows what was reported, the reporter owns the session, and the sequence number stands.
   */
  lemma ReportStored(h: HubState, e: Event)
    requires AllNormalized(h) && Reports(h, e)
    ensures var r, before := e.inbound.body.state, SharedAsOfNow(h.store, e.client.user, e.now);
      var after, out := Stored(Step(h, e), e.client.user), Outcomes(h, e).out;
      if ReportRefused(before, r, e.client.device) then
        Step(h, e) == h && exists text :: out == [To(e.client, CommandError(e.inbound.id, text))]
      else if !Matches(before.state.queue, r) then
        Step(h, e) == h && out == []
      else
        && ShowsReport(before.state, after.state, r)
        && after.active == e.client.device && after.seqNo == before.seqNo
        && after.updatedBy == e.client.device && after.updatedAt == e.now
        && out == [ToAll(e.client.user, SharedUpdated(Some(after), "report"))]
  {
    var r, before := e.inbound.body.state, SharedAsOfNow(h.store, e.client.user, e.now);
    AsOfNowExactly(h, e.client.user, e.now);
    ReportReduced(before, r, e.client.device, e.now);
    if ReportRefused(before, r, e.client.device) {
      assert Outcomes(h, e).out == [To(e.client, CommandError(e.inbound.id, Outcomes(h, e).out[0].message.text))];
    } else if Matches(before.state.queue, r) {
      ReportShown(before, r, e.client.device, e.now);
      var after := Stored(Step(h, e), e.client.user);
      assert Payload(after) == Some(after) by {
        ReportFollows(before, r, e.client.device, e.now);
        NormalizeReachesFixedPoint(after.state);
      }
    }
  }

  // ----------------------------------------------------------------- connections

  /** A registered connection is online in place of any earlier one of its device, and is sent the current session. */
  lemma RegisterMeaning(h: HubState, client: Client, now: int)
    requires AllNormalized(h)
    ensures var h', out := Step(h, Register(client, now)), Outcomes(h, Register(client, now)).out;
      && h'.IsCurrent(client) && h'.Online(client.user) == h.Online(client.user) + {client.device}
      && (forall other: Client :: h'.IsCurrent(other) <==>
            other == client
            || (h.IsCurrent(other) && !(other.user == client.user && other.device == client.device)))
      && h'.store == h.store
      && out == [ToAll(client.user, PresenceUpdated(h'.Online(client.user))),
                 To(client, SharedSnapshot(Some(SharedAsOfNow(h.store, client.user, now)), "snapshot"))]
  {
    AsOfNowExactly(h, client.user, now);
    NormalizeReachesFixedPoint(SharedAsOfNow(h.store, client.user, now).state);
  }

  /** Unregistering a replaced connection does nothing; the current one takes its device, and only it, offline. */
  lemma UnregisterMeaning(h: HubState, client: Client, now: int)
    requires AllNormalized(h)
    ensures var h', out := Step(h, Unregister(client, now)), Outcomes(h, Unregister(client, now)).out;
      if !h.IsCurrent(client) then h' == h && out == []
      else
        && h'.Online(client.user) == h.Online(client.user) - {client.device}
        && (forall other: Client :: h'.IsCurrent(other) <==> other != client && h.IsCurrent(other))
        && ToAll(client.user, PresenceUpdated(h'.Online(client.user))) in out
        && (Stored(h, client.user).active != client.device ==> h'.store == h.store)
  {
    AsOfNow(h, client.user, now);
    FrozenOwner(SharedAsOfNow(h.store, client.user, now), client.device, now);
    if h.IsCurrent(client) {
      DroppedMeaning(h, Step(h, Unregister(client, now)), client);
      var out := Outcomes(h, Unregister(client, now)).out;
      assert out[|out| - 1] in out;
    }
  }

  lemma DroppedMeaning(h: HubState, h': HubState, client: Client)
    requires h.IsCurrent(client) && h'.clients == Dropped(h.clients, client)
    ensures h'.Online(client.user) == h.Online(client.user) - {client.device}
    ensures forall other: Client :: h'.IsCurrent(other) <==> other != client && h.IsCurrent(other)
  {
    var devices := h.clients[client.user] - {client.device};
    assert devices == map[] ==> devices.Keys == {};
    forall other: Client
      ensures h'.IsCurrent(other) <==> other != client && h.IsCurrent(other)
    {
      if other.user == client.user {
        assert h'.Online(other.user) == devices.Keys;
      }
    }
  }

  /** The session of a device that goes offline is stopped where it was, unowned, under the next sequence number. */
  lemma OfflineFreezes(h: HubState, client: Client, now: int)
    requires AllNormalized(h) && h.IsCurrent(client) && Stored(h, client.user).active == client.device
    ensures var before, after :=
        SharedAsOfNow(h.store, client.user, now), Stored(Step(h, Unregister(client, now)), client.user);
      && after.state == before.state.(playing := if before.state.queue == [] then Idle else Stopped)
      && after.active == "" && after.seqNo == before.seqNo + 1
      && after.updatedBy == client.device && after.updatedAt == now
      && ToAll(client.user, SharedUpdated(Some(after), "activeOffline")) in Outcomes(h, Unregister(client, now)).out
  {
    var before := SharedAsOfNow(h.store, client.user, now);
    AsOfNow(h, client.user, now);
    NormalizeReachesFixedPoint(before.state);
    FrozenState(before, client.device, now);
    var frozen := Freeze(before, client.device, now).value;
    NormalizeReachesFixedPoint(frozen.state);
    assert Outcomes(h, Unregister(client, now)).out[0]
        == ToAll(client.user, SharedUpdated(Some(frozen), "activeOffline"));
  }

  lemma FrozenState(shared: Shared, device: string, now: int)
    requires Normalized(shared.state) && shared.active == device
    ensures Freeze(shared, device, now) == Some(Shared(shared.seqNo + 1, "",
      shared.state.(playing := if shared.state.queue == [] then Idle else Stopped), now, device))
  {
    NormalizeReachesFixedPoint(shared.state);
  }

  // ------------------------------------------------------ requests and broadcasts

  /** Whatever an accepted command saves is broadcast first, under the reason of its operation. */
  lemma CommandBroadcast(shared: Shared, command: Command, client: Client, online: set<string>, now: int)
    requires Normalized(shared.state) && HandleCommand(shared, command, client, online, now).saved.Some?
    ensures var o := HandleCommand(shared, command, client, online, now);
      var reason := if command.op == PushState then "push" else if command.op == TransferPlayback then "transfer"
                    else "command";
      o.out != [] && o.out[0] == ToAll(client.user, SharedUpdated(o.saved, reason))
  {
    var next := ReduceCommand(shared, command, client, online, now).value;
    CommittedSaves(shared, command, client, next, online);
    ReducedFollows(shared, command, client, online, now);
    NormalizeReachesFixedPoint(next.state);
    assert Payload(next) == Some(next);
  }

  /** The operation that the active device has to carry out after the command, if there is one. */
  function Requested(command: Command): Option<(string, Option<int>)> {
    match command.op
    case Transport(name) => Some((name, command.positionMs))
    case PlayQueueIndex => Some(("play", None))
    case SetQueue => if command.autoPlay then Some(("play", None)) else None
    case _ => None
  }

  /** The request is sent to the owner when that is online, and answered with an error otherwise. */
  ghost predicate Requests(out: seq<Out>, command: Command, client: Client, owner: string, online: set<string>) {
    match Requested(command)
    case None => forall o :: o in out ==> !o.message.Apply? && !o.message.CommandError?
    case Some(request) =>
      if owner in online && owner != "" then
        && ToDevice(client.user, owner, Apply(command.id, request.0, request.1)) in out
        && forall o :: o in out ==> !o.message.CommandError?
      else
        && (exists text :: To(client, CommandError(command.id, text)) in out)
        && forall o :: o in out ==> !o.message.Apply?
  }

  /**
   An accepted command that asks for playback reaches the owner after the step when it is
   online, and is answered with an error otherwise; no other command is applied by a device.
   */
  lemma RequestsReachOwner(h: HubState, client: Client, inbound: Envelope, now: int)
    requires AllNormalized(h) && inbound.body.CommandRequest? && Accepted(h, client, inbound, now)
    ensures var e := Handle(client, inbound, now);
      Requests(Outcomes(h, e).out, inbound.body.command, client, Stored(Step(h, e), client.user).active,
        h.Online(client.user))
  {
    var shared, command, online :=
        SharedAsOfNow(h.store, client.user, now), inbound.body.command, h.Online(client.user);
    AsOfNow(h, client.user, now);
    var next := ReduceCommand(shared, command, client, online, now).value;
    CommittedSaves(shared, command, client, next, online);
    if command.op.Transport? && shared.active != "" {
      QuietTransport(shared, command, client, online, now);
    }
    RequestsCommitted(shared, command, client, next, online);
  }

  lemma RequestsCommitted(shared: Shared, command: Command, client: Client, next: Shared, online: set<string>)
    ensures Requests(Committed(shared, command, client, next, online).out, command, client, next.active, online)
  {
    CommittedRequests(shared, command, client, next, online);
    if Requested(command).Some? {
      var request := Requested(command).value;
      ApplyMeaning(client, command.id, next.active, request.0, request.1, online);
    }
  }

  lemma QuietTransport(shared: Shared, command: Command, client: Client, online: set<string>, now: int)
    requires command.op.Transport? && shared.active != ""
    ensures ReduceCommand(shared, command, client, online, now) == Ok(shared)
  {}

  lemma ApplyMeaning(client: Client, id: string, owner: string, op: string, positionMs: Option<int>,
                     online: set<string>)
    ensures var out := ApplyToActive(client, id, owner, op, positionMs, online);
      if owner in online && owner != "" then out == [ToDevice(client.user, owner, Apply(id, op, positionMs))]
      else exists text :: out == [To(client, CommandError(id, text))]
  {
    var out := ApplyToActive(client, id, owner, op, positionMs, online);
    if !(owner in online && owner != "") {
      assert out == [To(client, CommandError(id, out[0].message.text))];
    }
  }

  /** The messages behind the broadcast are those of the request. */
  lemma CommittedRequests(shared: Shared, command: Command, client: Client, next: Shared, online: set<string>)
    ensures var out := Committed(shared, command, client, next, online).out;
      var tail := if out != [] && out[0].ToAll? then out[1..] else out;
      match Requested(command)
      case None => tail == []
      case Some(request) => tail == ApplyToActive(client, command.id, next.active, request.0, request.1, online)
    ensures var out := Committed(shared, command, client, next, online).out;
      out != [] && out[0].ToAll? ==> out[0].message.SharedUpdated?
  {}

  /** A transport command claims an unowned session for its sender and changes nothing else of it. */
  lemma TransportClaims(h: HubState, client: Client, inbound: Envelope, now: int)
    requires AllNormalized(h) && inbound.body.CommandRequest? && inbound.body.command.op.Transport?
    requires Accepted(h, client, inbound, now)
    ensures var before, h' := SharedAsOfNow(h.store, client.user, now), Step(h, Handle(client, inbound, now));
      if Stored(h, client.user).active != "" then h' == h
      else Stored(h', client.user) == Shared(before.seqNo + 1, client.device, before.state, now, client.device)
  {
    AsOfNow(h, client.user, now);
  }
}
