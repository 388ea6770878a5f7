/**
 The Connect client runtime of src-tauri/src/connect.rs: generations, the queue gate,
 the record of the last synced queue, and the classifier of the first snapshot.
 Each function specifies one critical section of the runtime's mutex.
 */
module ConnectRuntime {
  import opened Wrappers
  import opened Playback

  datatype Gate =
    | Open
    | AwaitingChoice(error: Option<string>)
    | Pushing(commandId: string, userFacing: bool)

  datatype RuntimeState = RuntimeState(
    generation: nat,
    connected: bool,
    hasSender: bool,
    device: Option<string>,
    shared: Option<Shared>,
    applyingSeq: Option<int>,
    pendingResume: Option<bool>,          // an Android resume report; true when it may claim
    gate: Gate,
    synced: Option<seq<string>>)

  /** A playback.shared message; `snapshotType` tells the two message types apart. */
  datatype SharedMessage = SharedMessage(snapshotType: bool, shared: Shared, reason: string)

  datatype Outbound =
    | ReportOut(baseSeq: int)
    | CommandOut(id: string, op: Op, baseSeq: int)

  datatype SharedUpdate = SharedUpdate(shouldApply: bool, preserveTrack: bool, gateClosed: bool)

  function QueueIds(queue: seq<Entry>): (ids: seq<string>)
    ensures |ids| == |queue|
  {
    seq(|queue|, i requires 0 <= i < |queue| => queue[i].id)
  }

  // ------------------------------------------------------------------- classifier

  datatype SnapshotAction = ApplyServer | PushLocal | AskUser

  function ClassifyInitialSnapshot(local: seq<string>, server: seq<string>,
                                   synced: Option<seq<string>>): SnapshotAction {
    if local == [] then ApplyServer
    else if synced == Some(local) then ApplyServer
    else if server == [] then PushLocal
    else if local == server then ApplyServer
    else AskUser
  }

  function ShouldApplyToBackend(message: SharedMessage, runtimeShouldApply: bool, isActive: bool,
                                preserveActive: bool): bool {
    && runtimeShouldApply
    && message.reason != "activeOffline"
    && !((message.snapshotType || message.reason == "snapshot") && isActive && preserveActive)
  }

  // ------------------------------------------------------------ critical sections

  predicate GateClosed(r: RuntimeState) {
    r.gate != Open
  }

  predicate IsDevice(r: RuntimeState, name: string) {
    r.device.Some? && r.device.value == name
  }

  function Unlinked(r: RuntimeState): RuntimeState {
    r.(hasSender := false, device := None, shared := None, gate := Open, connected := false)
  }

  function Restarted(r: RuntimeState): RuntimeState {
    Unlinked(r).(generation := r.generation + 1)
  }

  function Disconnected(r: RuntimeState, generation: nat): RuntimeState {
    if r.generation != generation then r else Unlinked(r)
  }

  function Connected(r: RuntimeState, generation: nat, device: string): RuntimeState {
    if r.generation != generation then r else r.(hasSender := true, device := Some(device), connected := true)
  }

  predicate IsOwnPush(r: RuntimeState, message: SharedMessage) {
    IsDevice(r, message.shared.updatedBy) && message.reason == "push"
  }

  predicate TakesShared(r: RuntimeState, generation: nat, message: SharedMessage) {
    r.generation == generation && !(r.shared.Some? && message.shared.seqNo < r.shared.value.seqNo)
  }

  function SharedSet(r: RuntimeState, generation: nat, message: SharedMessage): RuntimeState {
    if !TakesShared(r, generation, message) then r
    else if IsOwnPush(r, message) then
      r.(shared := Some(message.shared), synced := Some(QueueIds(message.shared.state.queue)),
         gate := if r.gate.Pushing? then Open else r.gate)
    else r.(shared := Some(message.shared))
  }

  function SharedUpdateOf(r: RuntimeState, generation: nat, message: SharedMessage): Option<SharedUpdate> {
    if !TakesShared(r, generation, message) then None
    else
      var wasActive := r.shared.Some? && IsDevice(r, r.shared.value.active);
      var isActive := IsDevice(r, message.shared.active);
      var ownReport := isActive && IsDevice(r, message.shared.updatedBy) && message.reason == "report";
      Some(SharedUpdate(
        !ownReport && !IsOwnPush(r, message), wasActive && isActive, GateClosed(SharedSet(r, generation, message))))
  }

  function ApplyBegun(r: RuntimeState, generation: nat, seqNo: int): RuntimeState {
    if r.generation != generation then r else r.(applyingSeq := Some(seqNo))
  }

  function ApplyEnded(r: RuntimeState, seqNo: int): RuntimeState {
    if r.applyingSeq == Some(seqNo) then r.(applyingSeq := None) else r
  }

  function SyncRecorded(r: RuntimeState, generation: nat, ids: seq<string>): RuntimeState {
    if r.generation == generation then r.(synced := Some(ids)) else r
  }

  function SyncCleared(r: RuntimeState): RuntimeState {
    r.(synced := None)
  }

  /** publish_status: the report sent for a local status change, if any. */
  function Published(r: RuntimeState): Option<Outbound> {
    if !r.connected || r.applyingSeq.Some? || GateClosed(r) || r.shared.None?
       || !IsDevice(r, r.shared.value.active) || !r.hasSender then None
    else Some(ReportOut(r.shared.value.seqNo))
  }

  /** flush_pending_android_resume_report, with the age of the report as an input. */
  predicate Flushes(r: RuntimeState, generation: nat, expired: bool) {
    && r.generation == generation && r.pendingResume.Some? && !expired
    && r.connected && !GateClosed(r) && r.hasSender && r.device.Some? && r.shared.Some?
    && (IsDevice(r, r.shared.value.active)
        || (r.pendingResume.value && r.shared.value.active == "" && IsDevice(r, r.shared.value.updatedBy)))
  }

  function Flushed(r: RuntimeState, generation: nat, expired: bool): (RuntimeState, Option<Outbound>) {
    if Flushes(r, generation, expired) then (r.(pendingResume := None), Some(ReportOut(r.shared.value.seqNo)))
    else if r.generation == generation && r.pendingResume.Some? && expired then (r.(pendingResume := None), None)
    else (r, None)
  }

  /** send_playback_command; Ok(None) leaves the command to the local queue. */
  function CommandSent(r: RuntimeState, id: string, op: Op, writerUp: bool): Result<Option<Outbound>> {
    if !r.connected then Ok(None)
    else if r.gate.AwaitingChoice? then Ok(None)
    else if !r.hasSender then Err("connect: websocket is not connected")
    else if !writerUp then Err("connect: websocket writer is not available")
    else Ok(Some(CommandOut(id, op, if r.shared.Some? then r.shared.value.seqNo else 0)))
  }

  function ResolutionBegun(r: RuntimeState, generation: nat): RuntimeState {
    if r.generation != generation then r else r.(gate := AwaitingChoice(None), pendingResume := None)
  }

  predicate FailsPush(r: RuntimeState, id: string) {
    r.gate.Pushing? && r.gate.commandId == id
  }

  function PushFailed(r: RuntimeState, id: string, text: string): RuntimeState {
    if !FailsPush(r, id) then r
    else r.(gate := if r.gate.userFacing then AwaitingChoice(Some(text)) else Open)
  }

  /** The first critical section of push_local_state; a user's push needs a pending question. */
  function PushClosed(r: RuntimeState, id: string, userFacing: bool): RuntimeState {
    if userFacing && !r.gate.AwaitingChoice? then r
    else r.(gate := Pushing(id, userFacing), pendingResume := None)
  }

  predicate CanPull(r: RuntimeState) {
    r.gate.AwaitingChoice? && r.shared.Some?
  }

  function Pulled(r: RuntimeState): RuntimeState {
    if CanPull(r) then r.(gate := Open) else r
  }

  // --------------------------------------------------------------------- the class

  class Runtime {
    var generation: nat
    var connected: bool
    var hasSender: bool
    var device: Option<string>
    var shared: Option<Shared>
    var applyingSeq: Option<int>
    var pendingResume: Option<bool>
    var gate: Gate
    var synced: Option<seq<string>>

    constructor ()
      ensures View() == RuntimeState(0, false, false, None, None, None, None, Open, None)
    {
      generation, connected, hasSender, device, shared := 0, false, false, None, None;
      applyingSeq, pendingResume, gate, synced := None, None, Open, None;
    }

    function View(): RuntimeState
      reads this
    {
      RuntimeState(generation, connected, hasSender, device, shared, applyingSeq, pendingResume, gate, synced)
    }

    method Unlink()
      modifies this
      ensures View() == Unlinked(old(View()))
    {
      hasSender, connected := false, false;
      device, shared := None, None;
      gate := Open;
    }

    method BeginRestart() returns (current: nat)
      modifies this
      ensures View() == Restarted(old(View())) && current == generation
    {
      generation := generation + 1;
      Unlink();
      current := generation;
    }

    /** set_disconnected and set_disabled, which differ only in the status shown. */
    method SetDisconnected(current: nat)
      modifies this
      ensures View() == Disconnected(old(View()), current)
    {
      if generation == current {
        Unlink();
      }
    }

    method SetConnected(current: nat, name: string)
      modifies this
      ensures View() == Connected(old(View()), current, name)
    {
      if generation != current {
        return;
      }
      hasSender, device, connected := true, Some(name), true;
    }

    method SetSharedPlayback(current: nat, message: SharedMessage) returns (update: Option<SharedUpdate>)
      modifies this
      ensures View() == SharedSet(old(View()), current, message)
      ensures update == SharedUpdateOf(old(View()), current, message)
    {
      if generation != current {
        return None;
      }
      if shared.Some? && message.shared.seqNo < shared.value.seqNo {
        return None;
      }
      var wasActive := device.Some? && shared.Some? && shared.value.active == device.value;
      var isActive := device.Some? && message.shared.active == device.value;
      var fromSelf := device.Some? && message.shared.updatedBy == device.value;
      var skipOwnReport := isActive && fromSelf && message.reason == "report";
      var ownPush := fromSelf && message.reason == "push";
      if ownPush {
        synced := Some(QueueIds(message.shared.state.queue));
        if gate.Pushing? {
          gate := Open;
        }
      }
      shared := Some(message.shared);
      update := Some(SharedUpdate(!skipOwnReport && !ownPush, wasActive && isActive, gate != Open));
    }

    method BeginApplyShared(current: nat, seqNo: int) returns (ok: bool)
      modifies this`applyingSeq
      ensures View() == ApplyBegun(old(View()), current, seqNo) && (ok <==> generation == current)
    {
      if generation != current {
        return false;
      }
      applyingSeq := Some(seqNo);
      ok := true;
    }

    method EndApplyShared(seqNo: int)
      modifies this`applyingSeq
      ensures View() == ApplyEnded(old(View()), seqNo)
    {
      if applyingSeq == Some(seqNo) {
        applyingSeq := None;
      }
    }

    method RecordSyncedQueue(current: nat, ids: seq<string>)
      modifies this`synced
      ensures View() == SyncRecorded(old(View()), current, ids)
    {
      if generation == current {
        synced := Some(ids);
      }
    }

    method ClearSyncedQueue()
      modifies this`synced
      ensures View() == SyncCleared(old(View()))
    {
      synced := None;
    }

    method PublishStatus() returns (out: Option<Outbound>)
      ensures out == Published(View())
    {
      if !connected || applyingSeq.Some? || gate != Open {
        return None;
      }
      if shared.None? || device.None? {
        return None;
      }
      if shared.value.active != device.value {
        return None;
      }
      out := if hasSender then Some(ReportOut(shared.value.seqNo)) else None;
    }

    method FlushPendingResumeReport(current: nat, expired: bool) returns (out: Option<Outbound>)
      modifies this`pendingResume
      ensures (View(), out) == Flushed(old(View()), current, expired)
    {
      out := None;
      if generation != current || pendingResume.None? {
        return;
      }
      if expired {
        pendingResume := None;
        return;
      }
      if !connected || gate != Open || !hasSender || device.None? || shared.None? {
        return;
      }
      var isActive := shared.value.active == device.value;
      var reclaims := pendingResume.value && shared.value.active == "" && shared.value.updatedBy == device.value;
      if !isActive && !reclaims {
        return;
      }
      pendingResume := None;
      out := Some(ReportOut(shared.value.seqNo));
    }

    method SendPlaybackCommand(id: string, op: Op, writerUp: bool) returns (r: Result<Option<Outbound>>)
      ensures r == CommandSent(View(), id, op, writerUp)
    {
      if !connected {
        return Ok(None);
      }
      if gate.AwaitingChoice? {
        return Ok(None);
      }
      if !hasSender {
        return Err("connect: websocket is not connected");
      }
      if !writerUp {
        return Err("connect: websocket writer is not available");
      }
      var baseSeq := 0;
      if shared.Some? {
        baseSeq := shared.value.seqNo;
      }
      r := Ok(Some(CommandOut(id, op, baseSeq)));
    }

    method BeginQueueResolution(current: nat)
      modifies this
      ensures View() == ResolutionBegun(old(View()), current)
    {
      if generation != current {
        return;
      }
      gate := AwaitingChoice(None);
      pendingResume := None;
    }

    method FailPush(id: string, text: string) returns (failed: bool)
      modifies this`gate
      ensures View() == PushFailed(old(View()), id, text) && failed == FailsPush(old(View()), id)
    {
      if !gate.Pushing? || gate.commandId != id {
        return false;
      }
      gate := if gate.userFacing then AwaitingChoice(Some(text)) else Open;
      failed := true;
    }

    /**
     push_local_state undisturbed.  A user's push without a pending question changes nothing;
     any other push leaves the gate pushing exactly when its command was sent, and otherwise
     puts the question back to the user, or reopens the gate for an automatic push.
     */
    method PushLocalState(id: string, userFacing: bool, writerUp: bool) returns (r: Result<Outbound>)
      modifies this
      ensures var refused := userFacing && !old(gate).AwaitingChoice?;
        && (r.Ok? <==> !refused && connected && hasSender && writerUp)
        && (r.Ok? ==> r.value == CommandOut(id, PushState, if shared.Some? then shared.value.seqNo else 0))
        && View() == (if refused then old(View()) else old(View()).(gate := gate, pendingResume := None))
        && (!refused ==> gate == (if r.Ok? then Pushing(id, userFacing)
                                  else if userFacing then AwaitingChoice(Some(r.message))
                                  else Open))
    {
      if userFacing && !gate.AwaitingChoice? {
        return Err("connect: no queue conflict is waiting for a choice");
      }
      gate := Pushing(id, userFacing);
      pendingResume := None;
      var sent := SendPlaybackCommand(id, PushState, writerUp);
      match sent {
        case Ok(Some(out)) =>
          r := Ok(out);
        case Ok(None) =>
          r := Err("connect: websocket is not connected");
          var failed := FailPush(id, r.message);
        case Err(text) =>
          r := Err(text);
          var failed := FailPush(id, text);
      }
    }

    method TakePull() returns (r: Result<(nat, Shared)>)
      modifies this`gate
      ensures View() == Pulled(old(View()))
      ensures r.Ok? <==> CanPull(old(View()))
      ensures r.Ok? ==> Some(r.value.1) == shared && r.value.0 == generation
    {
      if !gate.AwaitingChoice? {
        return Err("connect: no queue conflict is waiting for a choice");
      }
      if shared.None? {
        return Err("connect: shared playback state is unavailable");
      }
      gate := Open;
      r := Ok((generation, shared.value));
    }
  }
}
