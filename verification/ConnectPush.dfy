/** The push of a local queue: what the two parties agree on, step by step and over whole runs. */
module ConnectPush {
  import opened Wrappers
  import opened Playback
  import opened QueueReducer
  import opened QueueLaws
  import opened Hub
  import opened HubRuns
  import opened ConnectRuntime
  import opened ConnectWorld
  import opened ConnectCopy

  /** What the server broadcasts for an accepted push. */
  function Echo(shared: Shared): SharedMessage {
    SharedMessage(false, shared, "push")
  }

  /** The server's side of an accepted push. */
  lemma PushAccepted(shared: Shared, command: Command, client: Client, online: set<string>, now: int)
    requires Normalized(shared.state) && command.op == PushState && command.state.Some?
    requires HandleCommand(shared, command, client, online, now).saved.Some?
    ensures var o := HandleCommand(shared, command, client, online, now);
      var next := o.saved.value;
      && o.out == [ToAll(client.user, SharedUpdated(Some(next), "push"))]
      && next.state.queue == command.state.value.queue && next.active == client.device
          && next.updatedBy == client.device
      && next.seqNo == shared.seqNo + 1 && Revision(next.state) == Revision(shared.state) + 1
          && next.state.indexMap == Some([])
  {
    NormalizeReachesFixedPoint(shared.state);
    var pushed := RecordChange(command.state.value.(revision := shared.state.revision), []);
    NormalizeReachesFixedPoint(pushed);
    NormalizeKeepsQueue(pushed);
    var next := ReducePush(shared, command, client.device, now).value;
    NormalizeReachesFixedPoint(next.state);
    assert Payload(next) == Some(next);
    assert HandleCommand(shared, command, client, online, now) == Saved(client, next, "push", []);
  }

  /**
   An accepted push: the server holds the sender's queue under the next revision and
   sequence number with the sender active; the echo opens the sender's gate, applies
   nothing, and makes the unmodified local queue a synced copy.
   */
  lemma PushHandshake(shared: Shared, command: Command, client: Client, online: set<string>, now: int, w: World)
    requires Normalized(shared.state) && command.op == PushState && command.state.Some?
    requires w.rt.device == Some(client.device) && FailsPush(w.rt, command.id)
    requires w.local == QueueIds(command.state.value.queue)
    requires w.rt.shared.Some? ==> w.rt.shared.value.seqNo <= shared.seqNo
    requires HandleCommand(shared, command, client, online, now).saved.Some?
    ensures var next := HandleCommand(shared, command, client, online, now).saved.value;
      var taken := w.(rt := SharedSet(w.rt, w.rt.generation, Echo(next)));
      var update := SharedUpdateOf(w.rt, w.rt.generation, Echo(next));
      && next.state.queue == command.state.value.queue && next.active == client.device
      && next.seqNo == shared.seqNo + 1 && Revision(next.state) == Revision(shared.state) + 1
          && next.state.indexMap == Some([])
      && update.Some? && !update.value.shouldApply && !update.value.gateClosed
      && taken.rt.gate == Open && SyncedCopy(taken)
  {
    PushAccepted(shared, command, client, online, now);
  }

  /** The event is a push of the device's local queue that the server accepts. */
  ghost predicate PushesLocalQueue(h: HubState, e: Event, w: World) {
    && e.Handle? && Accepted(h, e.client, e.inbound, e.now)
    && var command := e.inbound.body.command;
       && command.op == PushState && command.state.Some?
       && w.rt.device == Some(e.client.device) && FailsPush(w.rt, command.id)
       && w.local == QueueIds(command.state.value.queue)
  }

  /** No handler has a decision, a comparison or a record to come, or an apply of an earlier generation. */
  predicate NothingUnderWay(w: World) {
    CopyAtRest(w.(rt := w.rt.(synced := Some(w.local))))
  }

  /** The sender once it has taken the broadcast of what is stored for the user. */
  function AfterEcho(w: World, stored: Shared): World {
    w.(rt := SharedSet(w.rt, w.rt.generation, Echo(stored)))
  }

  /**
   Both parties over a whole run: a device that last saw state i pushes, and event j
   accepts the push.  Then the stored queue is the pushed one with the sender active, it
   is broadcast, the broadcast opens the sender's gate, and over every undisturbed run from
   there no handler decides to ask or to push again, and every first snapshot is applied.
   */
  lemma PushOverRun(h: HubState, events: seq<Event>, i: nat, j: nat, w: World, actions: seq<Action>)
    requires AllNormalized(h) && i <= j < |events| && PushesLocalQueue(Run(h, events)[j], events[j], w)
    requires w.rt.shared.Some? ==> w.rt.shared.value.seqNo == Stored(Run(h, events)[i], events[j].client.user).seqNo
    requires NothingUnderWay(w)
        && Undisturbed(AfterEcho(w, Stored(Run(h, events)[j + 1], events[j].client.user)), actions)
    ensures var before, e := Run(h, events)[j], events[j];
      var stored := Stored(Run(h, events)[j + 1], e.client.user);
      && QueueIds(stored.state.queue) == w.local && stored.active == e.client.device
      && stored.seqNo == Stored(before, e.client.user).seqNo + 1
      && Outcomes(before, e).out == [ToAll(e.client.user, SharedUpdated(Some(stored), "push"))]
      && AfterEcho(w, stored).rt.gate == Open
      && var w' := ActAll(AfterEcho(w, stored), actions);
         && (forall id :: id in w'.tasks ==> !w'.tasks[id].Decided?)
         && (Settlers(w') == {}
             ==> SyncedCopy(w') && forall message :: Classified(w', w'.local, message) == ApplyServer)
  {
    var before, e := Run(h, events)[j], events[j];
    var user, command := e.client.user, e.inbound.body.command;
    var shared := SharedAsOfNow(before.store, user, e.now);
    RunNormalized(h, events, j);
    RunStep(h, events, j);
    AsOfNow(before, user, e.now);
    SequenceOrdersRun(h, events, user, i, j);
    AcceptedPushSaves(before, e.client, e.inbound, e.now);
    PushAccepted(shared, command, e.client, before.Online(user), e.now);
    PushHandshake(shared, command, e.client, before.Online(user), e.now, w);
    CopyRun(AfterEcho(w, Stored(Run(h, events)[j + 1], user)), actions);
  }

  lemma AcceptedPushSaves(h: HubState, client: Client, inbound: Envelope, now: int)
    requires Accepted(h, client, inbound, now) && inbound.body.command.op == PushState
    ensures var o := HandleCommand(SharedAsOfNow(h.store, client.user, now), inbound.body.command, client,
        h.Online(client.user), now);
      o.saved.Some? && Outcomes(h, Handle(client, inbound, now)) == o
  {}

  /**
   A command that a device builds on the shared state it shows, and that the server accepts
   later, is applied to the very queue the device shows.
   */
  lemma CommandActsOnShownQueue(h: HubState, events: seq<Event>, i: nat, j: nat, rt: RuntimeState, id: string, op: Op)
    requires AllNormalized(h) && i <= j < |events| && events[j].Handle?
    requires Accepted(Run(h, events)[j], events[j].client, events[j].inbound, events[j].now)
    requires var seen := Stored(Run(h, events)[i], events[j].client.user);
      rt.shared.Some? && rt.shared.value.seqNo == seen.seqNo && QueueKept(seen.state, rt.shared.value.state)
    requires var sent := CommandSent(rt, id, op, true);
      sent.Ok? && sent.value.Some? && events[j].inbound.body.command.baseSeq == Some(sent.value.value.baseSeq)
    ensures SharedAsOfNow(Run(h, events)[j].store, events[j].client.user, events[j].now).state.queue
        == rt.shared.value.state.queue
  {
    AcceptedActsOnSeenQueue(h, events, i, j);
  }

  /**
   A refused push: the server is unchanged, the sender alone is told, and the error puts a
   user's push back to the question and reopens the gate after an automatic one.
   */
  lemma RefusedPush(shared: Shared, command: Command, client: Client, online: set<string>, now: int, rt: RuntimeState)
    requires command.op == PushState && FailsPush(rt, command.id)
    requires HandleCommand(shared, command, client, online, now).saved.None?
    ensures var out := HandleCommand(shared, command, client, online, now).out;
      && out != [] && out[0].To? && out[0].client == client && out[0].message.CommandError?
      && out[0].message.commandId == command.id
      && PushFailed(rt, out[0].message.commandId, out[0].message.text).gate
         == (if rt.gate.userFacing then AwaitingChoice(Some(out[0].message.text)) else Open)
  {}
}
