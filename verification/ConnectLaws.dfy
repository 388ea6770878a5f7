/**
 What the client runtime shows, decides, applies and sends.  Each law is stated over the
 handlers' actions and their runs, in terms of queues, owners and sequence numbers.
 */
module ConnectLaws {
  import opened Wrappers
  import opened Playback
  import opened ConnectRuntime
  import opened ConnectWorld
  import opened ConnectHold
  import opened ConnectCopy

  // ------------------------------------------------------------- the first snapshot

  /** A first snapshot may go on to the backend. */
  predicate Onward(w: World, message: SharedMessage, update: SharedUpdate, preserveResume: bool, preserveActive: bool) {
    && update.shouldApply && message.reason != "activeOffline" && !preserveResume
    && !((message.snapshotType || message.reason == "snapshot") && w.rt.device == Some(message.shared.active)
         && preserveActive)
  }

  predicate Decides(w: World, id: nat, push: bool) {
    id in w.tasks && w.tasks[id].Decided? && w.tasks[id].push == push
  }

  /**
   A handler that compares decides to push exactly when the queue it read is not empty,
   is not the one recorded, and the server has none; and to ask exactly when both have a
   queue and these differ.  Otherwise the server's state goes on to the backend, unless it
   tells the device's own doing, a device went offline, or the own playback is to be preserved.
   */
  lemma DecisionExactly(w: World, id: nat, preserveResume: bool, preserveActive: bool)
    requires id in w.tasks && w.tasks[id].Comparing?
    ensures var own, server := w.tasks[id].local, IdsOf(w.tasks[id].message);
      var w' := Act(w, Compare(id, preserveResume, preserveActive));
      && (Decides(w', id, true) <==> own != [] && w.rt.synced != Some(own) && server == [])
      && (Decides(w', id, false) <==> own != [] && w.rt.synced != Some(own) && server != [] && own != server)
      && w'.rt == w.rt && w'.local == w.local
      && (id in w'.tasks && w'.tasks[id].ReadyToApply? <==>
            && (own == [] || w.rt.synced == Some(own) || own == server)
            && Onward(w, w.tasks[id].message, w.tasks[id].update, preserveResume, preserveActive))
  {
    HandlerActs(w, Compare(id, preserveResume, preserveActive));
  }

  /** The handler of a first snapshot from its reading of the queue to the gate. */
  function Answering(id: nat, preserveResume: bool, preserveActive: bool, pushId: string, readable: bool): seq<Action> {
    [ReadLocal(id), Compare(id, preserveResume, preserveActive), Clear(id), CloseGate(id, pushId, readable)]
  }

  /**
   A first snapshot under the current generation, handled undisturbed: the user is asked
   exactly when both sides have a queue, they differ, and the local one is no synced copy;
   the local queue is pushed exactly when only the device has one and it is no synced copy.
   Either way the record is cleared; in any other case gate and record stand.
   */
  lemma SnapshotAnswered(w: World, id: nat, preserveResume: bool, preserveActive: bool, pushId: string, readable: bool)
    requires id in w.tasks && w.tasks[id].Deciding? && w.tasks[id].generation == w.rt.generation
    ensures var server := IdsOf(w.tasks[id].message);
      var rt' := ActAll(w, Answering(id, preserveResume, preserveActive, pushId, readable)).rt;
      if w.local == [] || SyncedCopy(w) || w.local == server then rt' == w.rt
      else if server == [] then
        rt' == (if readable then w.rt.(synced := None, gate := Pushing(pushId, false), pendingResume := None)
                else w.rt.(synced := None))
      else rt' == w.rt.(synced := None, gate := AwaitingChoice(None), pendingResume := None)
  {
    var w1 := Act(w, ReadLocal(id));
    var w2 := Act(w1, Compare(id, preserveResume, preserveActive));
    ActFour(w, ReadLocal(id), Compare(id, preserveResume, preserveActive), Clear(id), CloseGate(id, pushId, readable));
    DecisionExactly(w1, id, preserveResume, preserveActive);
    ComparedTask(w1, id, preserveResume, preserveActive);
    DecisionCarriedOut(w2, id, pushId, readable);
  }

  /** A decision of the current connection clears the record and closes the gate; nothing else does. */
  lemma DecisionCarriedOut(w: World, id: nat, pushId: string, readable: bool)
    requires id in w.tasks ==>
      w.tasks[id].ReadyToApply? || (w.tasks[id].Decided? && w.tasks[id].generation == w.rt.generation)
    ensures var rt' := Act(Act(w, Clear(id)), CloseGate(id, pushId, readable)).rt;
      rt' == (if Decides(w, id, false) then w.rt.(synced := None, gate := AwaitingChoice(None), pendingResume := None)
              else if !Decides(w, id, true) then w.rt
              else if readable then w.rt.(synced := None, gate := Pushing(pushId, false), pendingResume := None)
              else w.rt.(synced := None))
  {}

  lemma ComparedTask(w: World, id: nat, preserveResume: bool, preserveActive: bool)
    requires id in w.tasks && w.tasks[id].Comparing?
    ensures var w' := Act(w, Compare(id, preserveResume, preserveActive));
      id in w'.tasks ==>
        w'.tasks[id].generation == w.tasks[id].generation && (w'.tasks[id].Decided? || w'.tasks[id].ReadyToApply?)
  {}

  /** Nothing has been decided, and every handler that compares has read an empty queue. */
  predicate NothingDecided(w: World) {
    forall id :: id in w.tasks ==>
      !w.tasks[id].Decided? && !w.tasks[id].Cleared? && (w.tasks[id].Comparing? ==> w.tasks[id].local == [])
  }

  /** The local queue is empty at every point of the run. */
  predicate StaysEmpty(w: World, actions: seq<Action>)
    decreases |actions|
  {
    w.local == [] && (actions == [] || StaysEmpty(Act(w, actions[0]), actions[1..]))
  }

  lemma EmptyStep(w: World, a: Action)
    requires NothingDecided(w) && w.local == []
    ensures NothingDecided(Act(w, a)) && (w.rt.gate == Open ==> Act(w, a).rt.gate == Open)
  {
    if !OfHandler(a) {
      OthersAct(w, a);
    } else {
      HandlerActs(w, a);
      EmptyHandler(w, a);
    }
  }

  /** What the handler does next is neither a decision nor a comparison of a queue. */
  predicate Undecided(w: World, id: nat) {
    id in w.tasks ==>
      var t := w.tasks[id];
      !t.Decided? && !t.Cleared? && (t.Comparing? ==> t.local == [])
  }

  lemma EmptyHandler(w: World, a: Action)
    requires NothingDecided(w) && w.local == [] && OfHandler(a)
    ensures Undecided(Act(w, a), a.id) && (w.rt.gate == Open ==> Act(w, a).rt.gate == Open)
  {
    assert Undecided(w, a.id);
    if a.Compare? {
      if a.id in w.tasks && w.tasks[a.id].Comparing? {
        DecisionExactly(w, a.id, a.preserveResume, a.preserveActive);
        ComparedTask(w, a.id, a.preserveResume, a.preserveActive);
      }
    } else {
      EmptyOther(w, a);
    }
  }

  lemma EmptyOther(w: World, a: Action)
    requires OfHandler(a) && !a.Compare? && Undecided(w, a.id) && w.local == []
    ensures Undecided(Act(w, a), a.id) && (w.rt.gate == Open ==> Act(w, a).rt.gate == Open)
  {}

  /**
   Over every run in which the local queue stays empty, no handler decides to ask or to
   push and an open gate stays open, whatever the server holds and however often it reconnects.
   */
  lemma {:induction false} EmptyQueueNeverAsks(w: World, actions: seq<Action>)
    requires NothingDecided(w) && StaysEmpty(w, actions)
    ensures var w' := ActAll(w, actions);
      && (forall id :: id in w'.tasks ==> !w'.tasks[id].Decided? && !w'.tasks[id].Cleared?)
      && NothingDecided(w') && (w.rt.gate == Open ==> w'.rt.gate == Open)
    decreases |actions|
  {
    if actions != [] {
      EmptyStep(w, actions[0]);
      EmptyQueueNeverAsks(Act(w, actions[0]), actions[1..]);
    }
  }

  // ---------------------------------------------------------------- shared messages

  /** The message is of the current connection and not older than what is shown. */
  predicate Current(w: World, generation: nat, message: SharedMessage) {
    && generation == w.rt.generation
    && (w.rt.shared.Some? ==> w.rt.shared.value.seqNo <= message.shared.seqNo)
  }

  predicate OwnDevice(w: World, device: string) {
    w.rt.device == Some(device)
  }

  /** The message only tells the device what it has done itself. */
  predicate TellsOwn(w: World, message: SharedMessage) {
    && OwnDevice(w, message.shared.updatedBy)
    && (message.reason == "push" || (message.reason == "report" && OwnDevice(w, message.shared.active)))
  }

  /** What a current message says of the device: whose doing it is, whether it plays on, whether it must wait. */
  lemma UpdateMeaning(w: World, generation: nat, message: SharedMessage)
    ensures var update := SharedUpdateOf(w.rt, generation, message);
      && (update.Some? <==> Current(w, generation, message))
      && (update.Some? ==>
            && (update.value.shouldApply <==> !TellsOwn(w, message))
            && (update.value.preserveTrack <==> Owner(w) && OwnDevice(w, message.shared.active))
            && (update.value.gateClosed <==>
                  w.rt.gate.AwaitingChoice?
                  || (w.rt.gate.Pushing?
                      && !(OwnDevice(w, message.shared.updatedBy) && message.reason == "push"))))
  {}

  /** A message that is not current is dropped; a current one is shown; only the own push touches gate and record. */
  lemma MessageShown(w: World, id: nat, preserveResume: bool, preserveActive: bool)
    requires id in w.tasks && w.tasks[id].Received?
    ensures var message := w.tasks[id].message;
      var w' := Act(w, TakeShared(id, preserveResume, preserveActive));
      var echo := OwnDevice(w, message.shared.updatedBy) && message.reason == "push";
      if !Current(w, w.tasks[id].generation, message) then w' == w.(tasks := w.tasks - {id})
      else if !echo then w'.rt == w.rt.(shared := Some(message.shared))
      else w'.rt == w.rt.(shared := Some(message.shared), synced := Some(IdsOf(message)),
                          gate := if w.rt.gate.Pushing? then Open else w.rt.gate)
  {}

  /**
   A current message goes on to the backend exactly when the gate is open behind it, it is
   no first snapshot, it tells more than the device's own doing, no device went offline,
   and neither a resumed session nor the own active playback is to be preserved from it.
   */
  lemma MessageAppliesExactly(w: World, id: nat, preserveResume: bool, preserveActive: bool)
    requires id in w.tasks && w.tasks[id].Received?
    ensures var Received(generation, message) := w.tasks[id];
      var w' := Act(w, TakeShared(id, preserveResume, preserveActive));
      && (id in w'.tasks && w'.tasks[id].Deciding? <==>
            Current(w, generation, message) && w.rt.gate == Open && message.reason == "snapshot")
      && (id in w'.tasks && w'.tasks[id].ReadyToApply? <==>
            && Current(w, generation, message) && w.rt.gate == Open
            && message.reason !in {"snapshot", "activeOffline"} && !TellsOwn(w, message) && !preserveResume
            && !(message.snapshotType && OwnDevice(w, message.shared.active) && preserveActive))
      && (id in w'.tasks && !w'.tasks[id].Deciding? ==> w'.tasks[id] == ReadyToApply(generation, message.shared))
      && (id in w'.tasks && w'.tasks[id].Deciding? ==>
            w'.tasks[id].generation == generation && w'.tasks[id].message == message)
  {}

  /** No restart, and no end of the current connection. */
  predicate KeepsLink(w: World, a: Action) {
    !a.Restart? && !(a.Disconnect? && a.generation == w.rt.generation)
  }

  predicate Linked(w: World, actions: seq<Action>)
    decreases |actions|
  {
    actions == [] || (KeepsLink(w, actions[0]) && Linked(Act(w, actions[0]), actions[1..]))
  }

  /** What `w'` shows is not older than what `w` shows. */
  predicate NotOlder(w: World, w': World) {
    w.rt.shared.Some? ==> w'.rt.shared.Some? && w.rt.shared.value.seqNo <= w'.rt.shared.value.seqNo
  }

  lemma ShownStep(w: World, a: Action)
    requires KeepsLink(w, a)
    ensures NotOlder(w, Act(w, a))
  {
    if OfHandler(a) {
      HandlerActs(w, a);
    }
  }

  /** Over a whole connection the shared state shown never falls back to an older one. */
  lemma {:induction false} ShownNeverFallsBack(w: World, actions: seq<Action>)
    requires Linked(w, actions)
    ensures NotOlder(w, ActAll(w, actions))
    decreases |actions|
  {
    if actions != [] {
      ShownStep(w, actions[0]);
      ShownNeverFallsBack(Act(w, actions[0]), actions[1..]);
    }
  }

  // ---------------------------------------------------------------- stale handlers

  /** The handler, or the event, belongs to another connection. */
  predicate Stale(w: World, a: Action) {
    match a
    case Disconnect(generation) => generation != w.rt.generation
    case Connect(generation, _) => generation != w.rt.generation
    case Flush(generation, _) => generation != w.rt.generation
    case _ => OfHandler(a) && a.id in w.tasks && StaleTask(w.tasks[a.id], w.rt.generation)
  }

  predicate StaleTask(t: Task, generation: nat) {
    !t.OpReceived? && !t.OpReady? && t.generation != generation
  }

  /**
   What belongs to another connection leaves the runtime alone, but for three things: a
   decision carried out clears the record, one to push still closes the gate, and an apply
   that ends still ends its mark.
   */
  lemma StaleLeavesRuntime(w: World, a: Action)
    requires Stale(w, a)
    ensures var rt' := Act(w, a).rt;
      if a.Clear? && w.tasks[a.id].Decided? then rt' == w.rt.(synced := None)
      else if a.CloseGate? && w.tasks[a.id].Cleared? && w.tasks[a.id].push && a.readable then
        rt' == w.rt.(gate := Pushing(a.pushId, false), pendingResume := None)
      else if a.EndApply? && w.tasks[a.id].Ending? && w.rt.applyingSeq == Some(w.tasks[a.id].seqNo) then
        rt' == w.rt.(applyingSeq := None)
      else rt' == w.rt
    ensures a.BeginApply? && w.tasks[a.id].HasDevice? ==> a.id !in Act(w, a).tasks
  {
    if OfHandler(a) {
      HandlerActs(w, a);
    }
  }

  /** An apply's mark ends with the apply of its number alone, and a remote operation runs only behind an open gate. */
  lemma EndsOwnMark(w: World, id: nat)
    requires id in w.tasks
    ensures w.tasks[id].Ending? ==>
      Act(w, EndApply(id)).rt.applyingSeq
      == (if w.rt.applyingSeq == Some(w.tasks[id].seqNo) then None else w.rt.applyingSeq)
    ensures w.tasks[id].OpReceived? ==>
      var w' := Act(w, CheckOp(id));
      w' == (if w.rt.gate == Open then w.(tasks := w.tasks[id := OpReady(w.tasks[id].name)])
             else w.(tasks := w.tasks - {id}))
  {}

  /** A new connection shows nothing, sends nothing and takes every message; what was recorded or begun stays. */
  lemma RestartMeaning(w: World, a: Action, generation: nat, message: SharedMessage)
    requires a == Restart || a == Disconnect(w.rt.generation)
    ensures var w' := Act(w, a);
      && w'.rt.shared == None && w'.rt.device == None && w'.rt.gate == Open
      && w'.rt.synced == w.rt.synced && w'.rt.applyingSeq == w.rt.applyingSeq
          && w'.rt.pendingResume == w.rt.pendingResume
      && w'.rt.generation == (if a == Restart then w.rt.generation + 1 else w.rt.generation)
      && w' == w.(rt := w'.rt)
      && Current(w', w'.rt.generation, message)
      && (forall b: Action :: (b.Publish? || b.Flush? || b.Prepare?) ==> Act(w', b).prepared == w.prepared)
  {}

  // ------------------------------------------------------------------ what is sent

  predicate Owner(w: World) {
    w.rt.shared.Some? && OwnDevice(w, w.rt.shared.value.active)
  }

  /** An unowned session that this device was the last to report may be claimed again. */
  predicate MayReclaim(w: World) {
    && w.rt.pendingResume == Some(true) && w.rt.shared.Some?
    && w.rt.shared.value.active == "" && OwnDevice(w, w.rt.shared.value.updatedBy)
  }

  function ShownSeq(w: World): int {
    if w.rt.shared.Some? then w.rt.shared.value.seqNo else 0
  }

  predicate Link(w: World) {
    w.rt.connected && w.rt.hasSender
  }

  /** The action prepares this message and nothing else. */
  predicate Prepares(w: World, a: Action, out: Outbound) {
    Act(w, a).prepared == w.prepared + multiset{out}
  }

  /** A status report is prepared exactly by the owner, behind an open gate and outside any apply. */
  lemma PublishedExactly(w: World)
    ensures if Link(w) && w.rt.gate == Open && Owner(w) && w.rt.applyingSeq == None
            then Prepares(w, Publish, ReportOut(ShownSeq(w))) && Act(w, Publish).rt == w.rt
            else Act(w, Publish) == w
  {}

  /** The resume report is prepared exactly by the owner or one that may reclaim, behind an open gate and in time. */
  lemma FlushedExactly(w: World, generation: nat, expired: bool)
    ensures var w' := Act(w, Flush(generation, expired));
      var waits := generation == w.rt.generation && w.rt.pendingResume.Some?;
      if waits && Link(w) && w.rt.gate == Open && !expired && (Owner(w) || MayReclaim(w)) then
        Prepares(w, Flush(generation, expired), ReportOut(ShownSeq(w))) && w'.rt == w.rt.(pendingResume := None)
      else w' == (if waits && expired then w.(rt := w.rt.(pendingResume := None)) else w)
  {}

  /** A command is prepared exactly while connected and unless the user is being asked; else it stays local. */
  lemma CommandExactly(w: World, id: string, op: Op)
    ensures if Link(w) && !w.rt.gate.AwaitingChoice?
            then Prepares(w, Prepare(id, op), CommandOut(id, op, ShownSeq(w))) && Act(w, Prepare(id, op)).rt == w.rt
            else Act(w, Prepare(id, op)) == w
    ensures !w.rt.connected || w.rt.gate.AwaitingChoice? <==>
      CommandSent(w.rt, id, op, true) == Ok(None)
  {}

  /** No other action prepares a message, and what is written was prepared. */
  lemma OthersPrepareNothing(w: World, a: Action)
    requires !a.Publish? && !a.Flush? && !a.Prepare?
    ensures !a.Emit? ==> Act(w, a).prepared == w.prepared && Act(w, a).sent == w.sent
    ensures a.Emit? ==> Outgoing(Act(w, a)) == Outgoing(w)
  {
    if OfHandler(a) {
      HandlerActs(w, a);
    } else if a.Emit? {
      EmitKeepsOutgoing(w, a.out);
    }
  }

  lemma NoReportToResume(w: World, a: Action)
    requires w.rt.pendingResume == None
    ensures Act(w, a).rt.pendingResume == None
  {
    if OfHandler(a) {
      HandlerActs(w, a);
    }
  }

  /** Once sent, expired or dropped by a closing gate, the resume report is gone for good. */
  lemma {:induction false} ResumeReportsOnce(w: World, actions: seq<Action>)
    requires w.rt.pendingResume == None
    ensures var w' := ActAll(w, actions);
      && w'.rt.pendingResume == None
      && forall generation, expired :: Act(w', Flush(generation, expired)) == w'
    decreases |actions|
  {
    if actions != [] {
      NoReportToResume(w, actions[0]);
      ResumeReportsOnce(Act(w, actions[0]), actions[1..]);
    }
  }

  // -------------------------------------------------------------------- the answers

  /** The user's pull, carried through. */
  function Pull(id: nat): seq<Action> {
    [UserPull(id), ReadDevice(id), BeginApply(id)] + Finish(id)
  }

  /**
   A pull in answer to the question, carried through undisturbed: the gate is open, the
   backend holds the queue shown, it is a synced copy of it, and no apply is left marked.
   */
  lemma PullAppliesShown(w: World, id: nat)
    requires w.rt.gate.AwaitingChoice? && w.rt.shared.Some? && id !in w.tasks && w.rt.device.Some?
    ensures var w' := ActAll(w, Pull(id));
      && w'.local == QueueIds(w.rt.shared.value.state.queue) && SyncedCopy(w')
      && w'.rt == w.rt.(gate := Open, applyingSeq := None, synced := Some(w'.local)) && w'.tasks == w.tasks
  {
    PullBegins(w, id);
    var w3 := ActAll(w, [UserPull(id), ReadDevice(id), BeginApply(id)]);
    ActAllConcat(w, [UserPull(id), ReadDevice(id), BeginApply(id)], Finish(id));
    ApplyFinishes(w3, id);
    assert w3.tasks - {id} == w.tasks;
  }

  lemma PullBegins(w: World, id: nat)
    requires CanPull(w.rt) && id !in w.tasks && w.rt.device.Some?
    ensures var shared := w.rt.shared.value;
      ActAll(w, [UserPull(id), ReadDevice(id), BeginApply(id)]) ==
        w.(rt := w.rt.(gate := Open, applyingSeq := Some(shared.seqNo)),
           tasks := w.tasks[id := InBackend(w.rt.generation, shared, IsDevice(w.rt, shared.active))])
  {
    PullTaken(w, id);
    ApplyStarts(Act(w, UserPull(id)), id);
    assert [UserPull(id), ReadDevice(id), BeginApply(id)][1..] == [ReadDevice(id), BeginApply(id)];
  }

  lemma PullTaken(w: World, id: nat)
    requires CanPull(w.rt) && id !in w.tasks
    ensures Act(w, UserPull(id)) ==
      w.(rt := w.rt.(gate := Open), tasks := w.tasks[id := ReadyToApply(w.rt.generation, w.rt.shared.value)])
  {}

  /** An apply of the current connection on a known device begins under its sequence number. */
  lemma ApplyStarts(w: World, id: nat)
    requires id in w.tasks && w.tasks[id].ReadyToApply? && w.tasks[id].generation == w.rt.generation
    requires w.rt.device.Some?
    ensures var shared := w.tasks[id].shared;
      ActAll(w, [ReadDevice(id), BeginApply(id)]) ==
        w.(rt := w.rt.(applyingSeq := Some(shared.seqNo)),
           tasks := w.tasks[id := InBackend(w.rt.generation, shared, IsDevice(w.rt, shared.active))])
  {
    ActTwo(w, ReadDevice(id), BeginApply(id));
    DeviceRead(w, id);
    ApplyMarked(Act(w, ReadDevice(id)), id);
  }

  lemma DeviceRead(w: World, id: nat)
    requires id in w.tasks && w.tasks[id].ReadyToApply? && w.rt.device.Some?
    ensures var ReadyToApply(generation, shared) := w.tasks[id];
      Act(w, ReadDevice(id)) == Becomes(w, id, HasDevice(generation, shared, IsDevice(w.rt, shared.active)))
  {}

  lemma ApplyMarked(w: World, id: nat)
    requires id in w.tasks && w.tasks[id].HasDevice? && w.tasks[id].generation == w.rt.generation
    ensures var HasDevice(generation, shared, isActive) := w.tasks[id];
      Act(w, BeginApply(id)) ==
        w.(rt := w.rt.(applyingSeq := Some(shared.seqNo)),
           tasks := w.tasks[id := InBackend(generation, shared, isActive)])
  {}

  /** An apply of the current connection that is not overtaken, to its end. */
  lemma ApplyFinishes(w: World, id: nat)
    requires InBackendAt(w, id) && w.tasks[id].generation == w.rt.generation
    requires w.rt.applyingSeq == Some(w.tasks[id].shared.seqNo)
    ensures var ids := Carries(w.tasks[id]);
      ActAll(w, Finish(id)) ==
        w.(rt := w.rt.(applyingSeq := None, synced := Some(ids)), local := ids, tasks := w.tasks - {id})
  {
    var ids := Carries(w.tasks[id]);
    var w1 := Act(w, Assign(id, Completed));
    assert w1 == Becomes(w.(local := ids), id, Ending(w.rt.generation, w.tasks[id].shared.seqNo, Some(ids)));
    AssignedFinishes(w1, id);
    assert Finish(id)[1..] == [EndApply(id), Record(id)];
    assert w1.tasks - {id} == w.tasks - {id};
  }

  lemma AssignedFinishes(w: World, id: nat)
    requires id in w.tasks && w.tasks[id].Ending? && w.tasks[id].generation == w.rt.generation
    requires w.rt.applyingSeq == Some(w.tasks[id].seqNo) && w.tasks[id].result.Some?
    ensures ActAll(w, [EndApply(id), Record(id)]) ==
      w.(rt := w.rt.(applyingSeq := None, synced := w.tasks[id].result), tasks := w.tasks - {id})
  {
    ActTwo(w, EndApply(id), Record(id));
    var w1 := Act(w, EndApply(id));
    assert w1 == Becomes(w.(rt := w.rt.(applyingSeq := None)), id, Recording(w.rt.generation,
        w.tasks[id].result.value));
    assert w1.tasks - {id} == w.tasks - {id};
  }

  /** An apply that is refused, or cannot play what it has assigned, ends its mark and records nothing. */
  lemma FailedApplyEnds(w: World, id: nat, application: Application)
    requires InBackendAt(w, id) && application != Completed && (application == Unplayable ==> StartsTrack(w.tasks[id]))
    requires w.rt.applyingSeq == Some(w.tasks[id].shared.seqNo)
    ensures ActAll(w, [Assign(id, application), EndApply(id)]) ==
      w.(rt := w.rt.(applyingSeq := None), tasks := w.tasks - {id},
         local := if application == Unplayable then Carries(w.tasks[id]) else w.local)
  {
    var t := w.tasks[id];
    var w1 := Act(w, Assign(id, application));
    assert w1 == Becomes(w.(local := if application == Unplayable then Carries(t) else w.local), id,
                         Ending(t.generation, t.shared.seqNo, None));
    ActTwo(w, Assign(id, application), EndApply(id));
    assert w1.tasks - {id} == w.tasks - {id};
  }

  /** An apply can fail behind its assignment exactly when the device owns a session with a track to play or pause. */
  lemma UnplayableExactly(w: World, id: nat)
    requires InBackendAt(w, id)
    ensures var shared := w.tasks[id].shared;
      Act(w, Assign(id, Unplayable)) != w <==>
        w.tasks[id].isActive && shared.state.queue != [] && shared.state.playing in {Playing, Paused}
  {
    var w' := Act(w, Assign(id, Unplayable));
    if StartsTrack(w.tasks[id]) {
      assert w'.tasks[id].Ending?;
    }
  }

  /** Without a question the user's push and pull do nothing; with one, a push replaces the question. */
  lemma ChoicesNeedQuestion(w: World, pushId: string, id: nat)
    ensures !w.rt.gate.AwaitingChoice? ==> Act(w, UserPush(pushId)) == w && Act(w, UserPull(id)) == w
    ensures w.rt.gate.AwaitingChoice? ==>
      Act(w, UserPush(pushId)).rt == w.rt.(gate := Pushing(pushId, true), pendingResume := None)
  {}

  /**
   A failure concerns the push of its own id alone: the user's push becomes the question
   again, with the reason, and an automatic push leaves the gate open.
   */
  lemma FailureAnswersItsPush(w: World, id: string, text: string)
    ensures var w' := Act(w, CommandFailed(id, text));
      if w.rt.gate == Pushing(id, true) then w' == w.(rt := w.rt.(gate := AwaitingChoice(Some(text))))
      else if w.rt.gate == Pushing(id, false) then w' == w.(rt := w.rt.(gate := Open))
      else w' == w
  {}
}
