/**
 The world of one client runtime: message handlers, user choices, failures and restarts
 interleave between any two critical sections of src-tauri/src/connect.rs.  One action is
 one critical section of the runtime, one visit to the backend, or one write to the
 connection, with the tests on local values behind it.
 */
module ConnectWorld {
  import opened Wrappers
  import opened Playback
  import opened ConnectRuntime

  /** A message handler or user apply, by what it does next. */
  datatype Task =
    | Received(generation: nat, message: SharedMessage)
    | Deciding(generation: nat, message: SharedMessage, update: SharedUpdate)    // reads the local queue
    | Comparing(generation: nat, message: SharedMessage, update: SharedUpdate, local: seq<string>)   // reads the record
    | Decided(generation: nat, push: bool)              // PushLocal, or else AskUser; clears the record
    | Cleared(generation: nat, push: bool)              // closes the gate
    | ReadyToApply(generation: nat, shared: Shared)     // reads the device
    | HasDevice(generation: nat, shared: Shared, isActive: bool)   // begin_apply_shared
    | InBackend(generation: nat, shared: Shared, isActive: bool)   // assigns the backend's queue
    | Ending(generation: nat, seqNo: int, result: Option<seq<string>>)   // end_apply_shared
    | Recording(generation: nat, ids: seq<string>)      // record_synced_queue
    | OpReceived(name: string)
    | OpReady(name: string)

  /**
   `local` is the song ids of the local backend's queue.  A message is prepared when it has
   passed its tests and not yet been written; the written ones are `sent`.
   */
  datatype World = World(
    rt: RuntimeState, local: seq<string>, tasks: map<nat, Task>, prepared: multiset<Outbound>, sent: seq<Outbound>)

  /**
   How apply_connect_shared_state ends: it fails before the queue is assigned, it assigns the
   queue and then cannot play, or it succeeds (src-tauri/src/playback/controller.rs).
   */
  datatype Application = Refused | Unplayable | Completed

  datatype Action =
    | Restart
    | Forget                                            // forget_synced_queue, when Connect is switched off
    | Disconnect(generation: nat)
    | Connect(generation: nat, device: string)
    | Receive(id: nat, generation: nat, message: SharedMessage)
    | ReceiveOp(id: nat, name: string)
    | TakeShared(id: nat, preserveResume: bool, preserveActive: bool)
    | ReadLocal(id: nat)
    | Compare(id: nat, preserveResume: bool, preserveActive: bool)
    | Clear(id: nat)
    | CloseGate(id: nat, pushId: string, readable: bool)   // whether the local state can be read
    | ReadDevice(id: nat)
    | BeginApply(id: nat)
    | Assign(id: nat, application: Application)
    | EndApply(id: nat)
    | Record(id: nat)
    | CheckOp(id: nat)
    | RunOp(id: nat)
    | UserPush(pushId: string)
    | UserPull(id: nat)
    | CommandFailed(commandId: string, text: string)
    | Publish
    | Flush(generation: nat, expired: bool)
    | Prepare(commandId: string, op: Op)
    | Emit(out: Outbound)
    | Edit(local: seq<string>)

  function Done(w: World, id: nat): World {
    w.(tasks := w.tasks - {id})
  }

  function Becomes(w: World, id: nat, task: Task): World {
    w.(tasks := w.tasks[id := task])
  }

  function Prepared(w: World, out: Option<Outbound>): World {
    if out.Some? then w.(prepared := w.prepared + multiset{out.value}) else w
  }

  /** The last tests of a shared message: apply it, or only record it. */
  function Admit(w: World, id: nat, generation: nat, message: SharedMessage, update: SharedUpdate,
                 preserveResume: bool, preserveActive: bool): World
  {
    var isActive := IsDevice(w.rt, message.shared.active);
    if !preserveResume && ShouldApplyToBackend(message, update.shouldApply, isActive, isActive && preserveActive)
    then Becomes(w, id, ReadyToApply(generation, message.shared))
    else Done(w, id)
  }

  function Classified(w: World, local: seq<string>, message: SharedMessage): SnapshotAction {
    ClassifyInitialSnapshot(local, QueueIds(message.shared.state.queue), w.rt.synced)
  }

  /** set_shared_playback and the gate test behind it. */
  function StepTakeShared(w: World, id: nat, preserveResume: bool, preserveActive: bool): World
    requires id in w.tasks && w.tasks[id].Received?
  {
    var Received(generation, message) := w.tasks[id];
    var update := SharedUpdateOf(w.rt, generation, message);
    var taken := w.(rt := SharedSet(w.rt, generation, message));
    if update.None? || update.value.gateClosed then Done(taken, id)
    else if message.reason == "snapshot" then Becomes(taken, id, Deciding(generation, message, update.value))
    else Admit(taken, id, generation, message, update.value, preserveResume, preserveActive)
  }

  /** synced_queue_ids and the classification in hold_local_queue_for_initial_snapshot. */
  function StepCompare(w: World, id: nat, preserveResume: bool, preserveActive: bool): World
    requires id in w.tasks && w.tasks[id].Comparing?
  {
    var Comparing(generation, message, update, local) := w.tasks[id];
    match Classified(w, local, message)
    case ApplyServer => Admit(w, id, generation, message, update, preserveResume, preserveActive)
    case AskUser => Becomes(w, id, Decided(generation, false))
    case PushLocal => Becomes(w, id, Decided(generation, true))
  }

  /** begin_queue_resolution, or the first section of push_local_state. */
  function StepCloseGate(w: World, id: nat, pushId: string, readable: bool): World
    requires id in w.tasks && w.tasks[id].Cleared?
  {
    var rt :=
      if !w.tasks[id].push then ResolutionBegun(w.rt, w.tasks[id].generation)
      else if readable then PushClosed(w.rt, pushId, false)
      else w.rt;
    Done(w.(rt := rt), id)
  }

  function StepBeginApply(w: World, id: nat): World
    requires id in w.tasks && w.tasks[id].HasDevice?
  {
    var HasDevice(generation, shared, isActive) := w.tasks[id];
    if w.rt.generation != generation then Done(w, id)
    else Becomes(w.(rt := ApplyBegun(w.rt, generation, shared.seqNo)), id, InBackend(generation, shared, isActive))
  }

  /** The apply also starts a track, which can fail once the queue is assigned. */
  predicate StartsTrack(t: Task) {
    t.InBackend? && t.isActive && t.shared.state.playing in {Playing, Paused} && t.shared.state.queue != []
  }

  function StepAssign(w: World, id: nat, application: Application): World
    requires id in w.tasks && w.tasks[id].InBackend?
  {
    var InBackend(generation, shared, _) := w.tasks[id];
    var ids := QueueIds(shared.state.queue);
    match application
    case Refused => Becomes(w, id, Ending(generation, shared.seqNo, None))
    case Unplayable => Becomes(w.(local := ids), id, Ending(generation, shared.seqNo, None))
    case Completed => Becomes(w.(local := ids), id, Ending(generation, shared.seqNo, Some(ids)))
  }

  function StepEndApply(w: World, id: nat): World
    requires id in w.tasks && w.tasks[id].Ending?
  {
    var Ending(generation, seqNo, result) := w.tasks[id];
    var ended := w.(rt := ApplyEnded(w.rt, seqNo));
    if result.Some? then Becomes(ended, id, Recording(generation, result.value)) else Done(ended, id)
  }

  /** What a handler does next, when it is at that point; otherwise nothing. */
  function Advance(w: World, id: nat, a: Action): World {
    if id !in w.tasks then w
    else
      match (a, w.tasks[id])
      case (TakeShared(_, preserveResume, preserveActive), Received(_, _)) =>
        StepTakeShared(w, id, preserveResume, preserveActive)
      case (ReadLocal(_), Deciding(generation, message, update)) =>
        Becomes(w, id, Comparing(generation, message, update, w.local))
      case (Compare(_, preserveResume, preserveActive), Comparing(_, _, _, _)) =>
        StepCompare(w, id, preserveResume, preserveActive)
      case (Clear(_), Decided(generation, push)) => Becomes(w.(rt := SyncCleared(w.rt)), id, Cleared(generation, push))
      case (CloseGate(_, pushId, readable), Cleared(_, _)) => StepCloseGate(w, id, pushId, readable)
      case (ReadDevice(_), ReadyToApply(generation, shared)) =>
        if w.rt.device.None? then Done(w, id)
        else Becomes(w, id, HasDevice(generation, shared, IsDevice(w.rt, shared.active)))
      case (BeginApply(_), HasDevice(_, _, _)) => StepBeginApply(w, id)
      case (Assign(_, application), InBackend(_, _, _)) =>
        if application == Unplayable && !StartsTrack(w.tasks[id]) then w else StepAssign(w, id, application)
      case (EndApply(_), Ending(_, _, _)) => StepEndApply(w, id)
      case (Record(_), Recording(generation, ids)) => Done(w.(rt := SyncRecorded(w.rt, generation, ids)), id)
      case (CheckOp(_), OpReceived(name)) => if GateClosed(w.rt) then Done(w, id) else Becomes(w, id, OpReady(name))
      case (RunOp(_), OpReady(_)) => Done(w, id)
      case _ => w
  }

  function Act(w: World, a: Action): World {
    match a
    case Restart => w.(rt := Restarted(w.rt))
    case Forget => w.(rt := SyncCleared(w.rt))
    case Disconnect(generation) => w.(rt := Disconnected(w.rt, generation))
    case Connect(generation, device) => w.(rt := Connected(w.rt, generation, device))
    case Receive(id, generation, message) => if id in w.tasks then w else Becomes(w, id, Received(generation, message))
    case ReceiveOp(id, name) => if id in w.tasks then w else Becomes(w, id, OpReceived(name))
    case UserPush(pushId) => w.(rt := PushClosed(w.rt, pushId, true))
    case UserPull(id) =>
      if id in w.tasks || !CanPull(w.rt) then w
      else Becomes(w.(rt := Pulled(w.rt)), id, ReadyToApply(w.rt.generation, w.rt.shared.value))
    case CommandFailed(commandId, text) => w.(rt := PushFailed(w.rt, commandId, text))
    case Publish => Prepared(w, Published(w.rt))
    case Flush(generation, expired) =>
      var (rt, out) := Flushed(w.rt, generation, expired);
      Prepared(w.(rt := rt), out)
    case Prepare(commandId, op) =>
      var r := CommandSent(w.rt, commandId, op, true);
      Prepared(w, if r.Ok? then r.value else None)
    case Emit(out) =>
      if out in w.prepared then w.(prepared := w.prepared - multiset{out}, sent := w.sent + [out]) else w
    case Edit(local) => w.(local := local)
    case _ => Advance(w, a.id, a)
  }

  /** Actions of one handler; the others change no handler that is under way. */
  predicate OfHandler(a: Action) {
    || a.TakeShared? || a.ReadLocal? || a.Compare? || a.Clear? || a.CloseGate? || a.ReadDevice?
    || a.BeginApply? || a.Assign? || a.EndApply? || a.Record? || a.CheckOp? || a.RunOp?
  }

  /** The handlers under way other than `id` are as they were. */
  predicate SameBut(w: World, w': World, id: nat) {
    && (forall other :: other in w.tasks && other != id ==> other in w'.tasks && w'.tasks[other] == w.tasks[other])
    && (forall other :: other in w'.tasks && other != id ==> other in w.tasks)
  }

  lemma HandlerActs(w: World, a: Action)
    requires OfHandler(a)
    ensures Act(w, a) == Advance(w, a.id, a) && SameBut(w, Act(w, a), a.id)
    ensures Act(w, a).prepared == w.prepared && Act(w, a).sent == w.sent
    ensures a.id !in w.tasks ==> Act(w, a) == w
  {
    if a.id !in w.tasks {
    } else if a.TakeShared? || a.Compare? || a.CloseGate? {
      MessageActs(w, a);
    } else if a.BeginApply? || a.Assign? || a.EndApply? || a.Record? {
      ApplyActs(w, a);
    }
  }

  lemma MessageActs(w: World, a: Action)
    requires (a.TakeShared? || a.Compare? || a.CloseGate?) && a.id in w.tasks
    ensures Act(w, a) == Advance(w, a.id, a) && SameBut(w, Act(w, a), a.id)
    ensures Act(w, a).prepared == w.prepared && Act(w, a).sent == w.sent
  {}

  lemma ApplyActs(w: World, a: Action)
    requires (a.BeginApply? || a.Assign? || a.EndApply? || a.Record?) && a.id in w.tasks
    ensures Act(w, a) == Advance(w, a.id, a) && SameBut(w, Act(w, a), a.id)
    ensures Act(w, a).prepared == w.prepared && Act(w, a).sent == w.sent
  {}

  /** Other actions start at most one handler. */
  lemma OthersAct(w: World, a: Action)
    requires !OfHandler(a)
    ensures forall id :: id in w.tasks ==> id in Act(w, a).tasks && Act(w, a).tasks[id] == w.tasks[id]
    ensures forall id :: id in Act(w, a).tasks && id !in w.tasks ==>
              var t := Act(w, a).tasks[id];
              t.Received? || t.OpReceived? || (t.ReadyToApply? && a.UserPull?)
    ensures Act(w, a).local == (if a.Edit? then a.local else w.local)
  {}

  function ActAll(w: World, actions: seq<Action>): World
    decreases |actions|
  {
    if actions == [] then w else ActAll(Act(w, actions[0]), actions[1..])
  }

  lemma {:induction false} ActAllConcat(w: World, a: seq<Action>, b: seq<Action>)
    ensures ActAll(w, a + b) == ActAll(ActAll(w, a), b)
    decreases |a|
  {
    if a == [] {
      assert a + b == b;
    } else {
      assert (a + b)[1..] == a[1..] + b;
      ActAllConcat(Act(w, a[0]), a[1..], b);
    }
  }

  lemma ActOne(w: World, a: Action)
    ensures ActAll(w, [a]) == Act(w, a)
  {
    assert [a][1..] == [];
  }

  lemma ActTwo(w: World, a: Action, b: Action)
    ensures ActAll(w, [a, b]) == Act(Act(w, a), b)
  {
    assert [a, b][1..] == [b];
    ActOne(Act(w, a), b);
  }

  lemma ActThree(w: World, a: Action, b: Action, c: Action)
    ensures ActAll(w, [a, b, c]) == Act(Act(Act(w, a), b), c)
  {
    assert [a, b, c][1..] == [b, c];
    ActTwo(Act(w, a), b, c);
  }

  lemma ActFour(w: World, a: Action, b: Action, c: Action, d: Action)
    ensures ActAll(w, [a, b, c, d]) == Act(Act(Act(Act(w, a), b), c), d)
  {
    assert [a, b, c, d][1..] == [b, c, d];
    ActThree(Act(w, a), b, c, d);
  }

  // ------------------------------------------------------------------ sample runs

  function Entries(ids: seq<string>): seq<Entry> {
    seq(|ids|, i requires 0 <= i < |ids| => Entry(ids[i], ""))
  }

  lemma EntriesIds(ids: seq<string>)
    ensures QueueIds(Entries(ids)) == ids
  {}

  /** A message showing a queue of these songs. */
  function Showing(ids: seq<string>, seqNo: int, updatedBy: string, reason: string): SharedMessage {
    SharedMessage(reason == "snapshot", Shared(seqNo, "", EMPTY_STATE.(queue := Entries(ids)), 0, updatedBy), reason)
  }

  /** The runtime as constructed, over a backend that holds the song "a". */
  const FRESH := World(RuntimeState(0, false, false, None, None, None, None, Open, None), ["a"], map[], multiset{}, [])

  /** Connected, before any message. */
  function Online(synced: Option<seq<string>>): World {
    World(RuntimeState(0, true, true, Some("d"), None, None, None, Open, synced), ["a"], map[], multiset{}, [])
  }

  lemma OnlineReachable()
    ensures ActAll(FRESH, [Connect(0, "d")]) == Online(None)
  {
    ActOne(FRESH, Connect(0, "d"));
  }
}
