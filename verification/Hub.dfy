/**
 The Connect hub of server/internal/realtime/hub.go.  Each handler is one atomic step
 at one instant; the store is a total map and JSON is the identity up to normalization.
 */
module Hub {
  import opened Wrappers
  import opened Playback
  import opened QueueReducer

  /** Logins without a device id are refused (server/internal/auth/manager.go:51). */
  type DeviceId = d: string | d != "" witness "device"

  /** One connection; `conn` tells two connections of a device apart. */
  datatype Client = Client(user: string, device: DeviceId, conn: nat)

  datatype Message =
    | SharedSnapshot(shared: Option<Shared>, reason: string)
    | SharedUpdated(shared: Option<Shared>, reason: string)
    | Apply(commandId: string, op: string, positionMs: Option<int>)
    | CommandError(commandId: string, text: string)
    | PresenceUpdated(online: set<string>)

  datatype Out =
    | To(client: Client, message: Message)
    | ToDevice(user: string, device: string, message: Message)
    | ToAll(user: string, message: Message)

  datatype Body =
    | Presence
    | CommandRequest(command: Command)
    | MalformedCommand
    | Report(state: PlaybackState)
    | MalformedReport
    | UnknownType(name: string)

  datatype Envelope = Envelope(protocolVersion: int, id: string, body: Body)

  const PROTOCOL_VERSION := 3

  // ------------------------------------------------------------------ the clock

  /** advanceToNow: a playing position moves by the whole milliseconds since updatedAt. */
  function Advance(shared: Shared, now: int): Shared {
    var decoded := Decode(shared.state);
    if decoded.Err? then shared
    else
      var elapsed := (now - shared.updatedAt) / 1_000_000;
      var s := decoded.value;
      var moved := Normalize(if s.playing == Playing && elapsed > 0 then s.(position := s.position + elapsed) else s);
      if moved.Err? then shared else shared.(state := moved.value, updatedAt := now)
  }

  function SharedAsOfNow(store: map<string, Shared>, user: string, now: int): Shared {
    if user in store then Advance(store[user], now) else Shared(0, "", EMPTY_STATE, now, "")
  }

  // -------------------------------------------------------- reducers of one user

  /** pushState: the sender's whole state under the next shared revision; the sender becomes active. */
  function ReducePush(shared: Shared, command: Command, device: string, now: int): Result<Shared> {
    if command.state.None? then Err("pushState requires state")
    else
      var decoded := Decode(shared.state);
      if decoded.Err? then Err(decoded.message)
      else
        var state := Normalize(RecordChange(command.state.value.(revision := decoded.value.revision), []));
        if state.Err? then Err(state.message)
        else Ok(Shared(shared.seqNo + 1, device, state.value, now, device))
  }

  function ReduceTransfer(shared: Shared, command: Command, device: string, online: set<string>,
                          now: int): Result<Shared> {
    if command.target == "" then Err("transferPlayback requires targetDeviceId")
    else if command.target !in online then Err("target device is offline")
    else
      var decoded := Decode(shared.state);
      if decoded.Err? then Err(decoded.message)
      else if shared.active != "" && shared.active == command.target then Err("target device is already active")
      else if |decoded.value.queue| == 0 then Err("playback queue is empty")
      else
        var state := Normalize(decoded.value);
        if state.Err? then Err(state.message)
        else Ok(Shared(shared.seqNo + 1, command.target, state.value, now, device))
  }

  function ReducePlayIndex(shared: Shared, command: Command, device: string, now: int): Result<Shared> {
    if command.index.None? then Err("playQueueIndex requires index")
    else
      var decoded := Decode(shared.state);
      if decoded.Err? then Err(decoded.message)
      else
        var s, index := decoded.value, command.index.value;
        if index < 0 || index >= |s.queue| then Err("playback queue index is out of range")
        else
          var state := Normalize(s.(current := Some(index),
            playNext := AdjustedPlayNext(|s.queue|, s.current, s.playNext, Some(index)),
            position := 0, playing := StoppedOrIdle(s.queue)));
          if state.Err? then Err(state.message)
          else Ok(Shared(shared.seqNo + 1, if shared.active == "" then device else shared.active, state.value, now,
            device))
  }

  /** The first entry with the reported song id, from `from` on. */
  function FindSong(queue: seq<Entry>, songId: string, from: nat): Option<int>
    requires from <= |queue|
    decreases |queue| - from
  {
    if from == |queue| then None
    else if SongIdAt(queue, from) == Some(songId) then Some(from)
    else FindSong(queue, songId, from + 1)
  }

  function CompatibleReportIndex(queue: seq<Entry>, reportIndex: Option<int>, reportSong: Option<string>): Option<int> {
    if |queue| == 0 then None
    else if reportIndex.Some? && 0 <= reportIndex.value < |queue|
         && (SongIdAt(queue, reportIndex.value).None?
             || SongIdAt(queue, reportIndex.value) == reportSong) then reportIndex
    else if reportSong.None? then None
    else FindSong(queue, reportSong.value, 0)
  }

  function MergeReport(s: PlaybackState, report: PlaybackState): Option<PlaybackState> {
    match CompatibleReportIndex(s.queue, report.current, report.songId)
    case None => None
    case Some(i) =>
      Some(s.(playing := report.playing, current := Some(i),
              playNext := AdjustedPlayNext(|s.queue|, s.current, s.playNext, Some(i)),
              songId := SongIdAt(s.queue, i), position := report.position))
  }

  /** handlePlaybackReport: None when the report changes nothing. */
  function ReduceReport(shared: Shared, report: PlaybackState, device: string, now: int): Result<Option<Shared>> {
    if shared.active != "" && shared.active != device then Err("only the active device can report playback state")
    else
      var decoded, reported := Decode(shared.state), Decode(report);
      if decoded.Err? then Err(decoded.message)
      else if reported.Err? then Err(reported.message)
      else
        var merged := MergeReport(decoded.value, reported.value);
        if merged.None? then Ok(None)
        else
          var state := Normalize(merged.value);
          if state.Err? then Err(state.message)
          else Ok(Some(Shared(shared.seqNo, if shared.active == "" then device else shared.active, state.value, now,
            device)))
  }

  /** freezeActiveDeviceIfOffline on the state as of now. */
  function Freeze(shared: Shared, device: string, now: int): Option<Shared> {
    var decoded := Decode(shared.state);
    if shared.active != device || decoded.Err? then None
    else
      var state := Normalize(decoded.value.(playing := StoppedOrIdle(decoded.value.queue)));
      if state.Err? then None else Some(Shared(shared.seqNo + 1, "", state.value, now, device))
  }

  // ------------------------------------------------------------- command handling

  function Payload(shared: Shared): Option<Shared> {
    var decoded := Decode(shared.state);
    if decoded.Ok? then Some(shared.(state := decoded.value)) else None
  }

  function ApplyToActive(client: Client, id: string, active: string, op: string, positionMs: Option<int>,
                         online: set<string>): seq<Out> {
    if active == "" then [To(client, CommandError(id, "active device is unavailable"))]
    else if active in online then [ToDevice(client.user, active, Apply(id, op, positionMs))]
    else [To(client, CommandError(id, "active device is offline"))]
  }

  /** What one message does: the state saved, if any, and the messages sent. */
  datatype Outcome = Outcome(saved: Option<Shared>, out: seq<Out>)

  function Rejected(client: Client, id: string, text: string): Outcome {
    Outcome(None, [To(client, CommandError(id, text))])
  }

  function Saved(client: Client, shared: Shared, reason: string, more: seq<Out>): Outcome {
    Outcome(Some(shared), [ToAll(client.user, SharedUpdated(Payload(shared), reason))] + more)
  }

  predicate IsQueueOp(op: Op) {
    op in {SetQueue, InsertAfterCurrent, AppendToQueue, MoveQueueIndices, RemoveQueueIndex, RemoveQueueIndices,
      ClearQueue}
  }

  /** The reducer a command goes through; transport commands only claim an unowned session. */
  function ReduceCommand(shared: Shared, command: Command, client: Client, online: set<string>,
                         now: int): Result<Shared> {
    if IsQueueOp(command.op) then ReduceQueue(shared, command, client.device, now)
    else
      match command.op
      case PushState => ReducePush(shared, command, client.device, now)
      case TransferPlayback => ReduceTransfer(shared, command, client.device, online, now)
      case PlayQueueIndex => ReducePlayIndex(shared, command, client.device, now)
      case Transport(_) =>
        Ok(if shared.active != "" then shared
           else shared.(active := client.device, seqNo := shared.seqNo + 1, updatedAt := now,
             updatedBy := client.device))
      case _ => Err("unsupported playback op")
  }

  predicate IsStale(shared: Shared, command: Command) {
    command.baseSeq.Some? && command.baseSeq.value != shared.seqNo
  }

  /** What an accepted command saves and sends. */
  function Committed(shared: Shared, command: Command, client: Client, next: Shared, online: set<string>): Outcome {
    match command.op
    case PushState => Saved(client, next, "push", [])
    case TransferPlayback => Saved(client, next, "transfer", [])
    case PlayQueueIndex =>
      Saved(client, next, "command", ApplyToActive(client, command.id, next.active, "play", None, online))
    case SetQueue =>
      Saved(client, next, "command", if command.autoPlay then ApplyToActive(client, command.id, next.active, "play",
        None, online) else [])
    case Transport(name) =>
      var apply := ApplyToActive(client, command.id, next.active, name, command.positionMs, online);
      if shared.active != "" then Outcome(None, apply) else Saved(client, next, "command", apply)
    case _ => Saved(client, next, "command", [])
  }

  function HandleCommand(shared: Shared, command: Command, client: Client, online: set<string>, now: int): Outcome {
    if IsStale(shared, command) then
      Outcome(None, [To(client, CommandError(command.id, "shared playback state is stale")),
                     To(client, SharedSnapshot(Payload(shared), "stale"))])
    else
      match ReduceCommand(shared, command, client, online, now)
      case Err(text) => Rejected(client, command.id, text)
      case Ok(next) => Committed(shared, command, client, next, online)
  }

  function HandleReport(shared: Shared, report: PlaybackState, client: Client, id: string, now: int): Outcome {
    match ReduceReport(shared, report, client.device, now)
    case Err(text) => Rejected(client, id, text)
    case Ok(None) => Outcome(None, [])
    case Ok(Some(next)) => Saved(client, next, "report", [])
  }

  // ----------------------------------------------------------------- the hub state

  datatype HubState = HubState(clients: map<string, map<string, nat>>, store: map<string, Shared>) {
    function Online(user: string): set<string> {
      if user in clients then clients[user].Keys else {}
    }

    predicate IsCurrent(client: Client) {
      client.device in Online(client.user) && clients[client.user][client.device] == client.conn
    }
  }

  datatype Event =
    | Register(client: Client, now: int)
    | Unregister(client: Client, now: int)
    | Handle(client: Client, inbound: Envelope, now: int)

  function Added(clients: map<string, map<string, nat>>, client: Client): map<string, map<string, nat>> {
    var devices := if client.user in clients then clients[client.user] else map[];
    clients[client.user := devices[client.device := client.conn]]
  }

  function Dropped(clients: map<string, map<string, nat>>, client: Client): map<string, map<string, nat>>
    requires client.user in clients
  {
    var devices := clients[client.user] - {client.device};
    if devices == map[] then clients - {client.user} else clients[client.user := devices]
  }

  function Outcomes(h: HubState, e: Event): Outcome {
    match e
    case Register(client, now) =>
      var shared := SharedAsOfNow(h.store, client.user, now);
      Outcome(None, [ToAll(client.user, PresenceUpdated(h.(clients := Added(h.clients, client)).Online(client.user))),
                     To(client, SharedSnapshot(Payload(shared), "snapshot"))])
    case Unregister(client, now) =>
      if !h.IsCurrent(client) then Outcome(None, [])
      else
        var gone := h.(clients := Dropped(h.clients, client));
        var frozen := Freeze(SharedAsOfNow(h.store, client.user, now), client.device, now);
        var presence := [ToAll(client.user, PresenceUpdated(gone.Online(client.user)))];
        if frozen.None? then Outcome(None, presence)
        else Outcome(frozen, [ToAll(client.user, SharedUpdated(Payload(frozen.value), "activeOffline"))] + presence)
    case Handle(client, inbound, now) =>
      if inbound.protocolVersion != 0 && inbound.protocolVersion != PROTOCOL_VERSION then
        Rejected(client, "", "protocol version is not supported")
      else
        var shared := SharedAsOfNow(h.store, client.user, now);
        match inbound.body
        case Presence => Outcome(None, [ToAll(client.user, PresenceUpdated(h.Online(client.user)))])
        case CommandRequest(command) => HandleCommand(shared, command, client, h.Online(client.user), now)
        case MalformedCommand => Rejected(client, "", "playback.command.request requires op")
        case Report(state) => HandleReport(shared, state, client, inbound.id, now)
        case MalformedReport => Rejected(client, "", "playback.report requires state")
        case UnknownType(_) => Rejected(client, "", "unsupported message type")
  }

  function Clients(h: HubState, e: Event): map<string, map<string, nat>> {
    match e
    case Register(client, _) => Added(h.clients, client)
    case Unregister(client, _) => if h.IsCurrent(client) then Dropped(h.clients, client) else h.clients
    case Handle(_, _, _) => h.clients
  }

  function Step(h: HubState, e: Event): HubState {
    var saved := Outcomes(h, e).saved;
    HubState(Clients(h, e), if saved.Some? then h.store[e.client.user := saved.value] else h.store)
  }

  // --------------------------------------------------------------------- the class

  class Hub {
    var clients: map<string, map<string, nat>>
    var store: map<string, Shared>

    constructor (stored: map<string, Shared>)
      ensures View() == HubState(map[], stored)
    {
      clients, store := map[], stored;
    }

    function View(): HubState
      reads this
    {
      HubState(clients, store)
    }

    method SaveAndBroadcast(client: Client, shared: Shared, reason: string) returns (out: seq<Out>)
      modifies this`store
      ensures store == old(store)[client.user := shared]
      ensures out == [ToAll(client.user, SharedUpdated(Payload(shared), reason))]
    {
      store := store[client.user := shared];
      out := [ToAll(client.user, SharedUpdated(Payload(shared), reason))];
    }

    method Register(client: Client, now: int) returns (out: seq<Out>)
      modifies this
      ensures var e := Event.Register(client, now);
        View() == Step(old(View()), e) && out == Outcomes(old(View()), e).out
    {
      if client.user !in clients {
        clients := clients[client.user := map[]];
      }
      var devices: map<string, nat> := clients[client.user];
      devices := devices[client.device := client.conn];
      clients := clients[client.user := devices];
      assert clients == Added(old(clients), client);
      out := [ToAll(client.user, PresenceUpdated(View().Online(client.user)))];
      var shared := SharedAsOfNow(store, client.user, now);
      out := out + [To(client, SharedSnapshot(Payload(shared), "snapshot"))];
    }

    method Unregister(client: Client, now: int) returns (out: seq<Out>)
      modifies this
      ensures var e := Event.Unregister(client, now);
        View() == Step(old(View()), e) && out == Outcomes(old(View()), e).out
    {
      out := [];
      if client.user !in clients || client.device !in clients[client.user]
        || clients[client.user][client.device] != client.conn {
        return;
      }
      var devices := clients[client.user] - {client.device};
      if devices == map[] {
        clients := clients - {client.user};
      } else {
        clients := clients[client.user := devices];
      }
      var shared := SharedAsOfNow(store, client.user, now);
      var frozen := Freeze(shared, client.device, now);
      if frozen.Some? {
        out := SaveAndBroadcast(client, frozen.value, "activeOffline");
      }
      out := out + [ToAll(client.user, PresenceUpdated(View().Online(client.user)))];
    }

    method HandleCommandRequest(client: Client, command: Command, now: int) returns (out: seq<Out>)
      modifies this`store
      ensures var o := HandleCommand(SharedAsOfNow(old(store), client.user, now), command, client,
          old(View()).Online(client.user), now);
        out == o.out && store == (if o.saved.Some? then old(store)[client.user := o.saved.value] else old(store))
    {
      var shared := SharedAsOfNow(store, client.user, now);
      var online := View().Online(client.user);
      if command.baseSeq.Some? && command.baseSeq.value != shared.seqNo {
        return [To(client, CommandError(command.id, "shared playback state is stale")),
                To(client, SharedSnapshot(Payload(shared), "stale"))];
      }
      var r;
      if IsQueueOp(command.op) {
        r := ReduceQueueCommand(shared, command, client.device, now);
      } else {
        r := ReduceCommand(shared, command, client, online, now);
      }
      match r {
        case Err(text) => out := [To(client, CommandError(command.id, text))];
        case Ok(next) => out := Commit(client, command, shared, next, online);
      }
    }

    /** What each operation does with its reduced state. */
    method Commit(client: Client, command: Command, shared: Shared, next: Shared,
                  online: set<string>) returns (out: seq<Out>)
      modifies this`store
      ensures var o := Committed(shared, command, client, next, online);
        out == o.out && store == (if o.saved.Some? then old(store)[client.user := o.saved.value] else old(store))
    {
      out := [];
      match command.op {
        case PushState => out := SaveAndBroadcast(client, next, "push");
        case TransferPlayback => out := SaveAndBroadcast(client, next, "transfer");
        case PlayQueueIndex =>
          out := SaveAndBroadcast(client, next, "command");
          out := out + ApplyToActive(client, command.id, next.active, "play", None, online);
        case SetQueue =>
          out := SaveAndBroadcast(client, next, "command");
          if command.autoPlay {
            out := out + ApplyToActive(client, command.id, next.active, "play", None, online);
          }
        case Transport(name) =>
          if shared.active == "" {
            out := SaveAndBroadcast(client, next, "command");
          }
          out := out + ApplyToActive(client, command.id, next.active, name, command.positionMs, online);
        case _ => out := SaveAndBroadcast(client, next, "command");
      }
    }

    method HandlePlaybackReport(client: Client, id: string, report: PlaybackState, now: int) returns (out: seq<Out>)
      modifies this`store
      ensures var o := HandleReport(SharedAsOfNow(old(store), client.user, now), report, client, id, now);
        out == o.out && store == (if o.saved.Some? then old(store)[client.user := o.saved.value] else old(store))
    {
      var shared := SharedAsOfNow(store, client.user, now);
      match ReduceReport(shared, report, client.device, now) {
        case Err(text) => out := [To(client, CommandError(id, text))];
        case Ok(None) => out := [];
        case Ok(Some(next)) => out := SaveAndBroadcast(client, next, "report");
      }
    }

    method Handle(client: Client, inbound: Envelope, now: int) returns (out: seq<Out>)
      modifies this`store
      ensures var e := Event.Handle(client, inbound, now);
        View() == Step(old(View()), e) && out == Outcomes(old(View()), e).out
    {
      if inbound.protocolVersion != 0 && inbound.protocolVersion != PROTOCOL_VERSION {
        return [To(client, CommandError("", "protocol version is not supported"))];
      }
      match inbound.body {
        case Presence => out := [ToAll(client.user, PresenceUpdated(View().Online(client.user)))];
        case CommandRequest(command) => out := HandleCommandRequest(client, command, now);
        case MalformedCommand => out := [To(client, CommandError("", "playback.command.request requires op"))];
        case Report(state) => out := HandlePlaybackReport(client, inbound.id, state, now);
        case MalformedReport => out := [To(client, CommandError("", "playback.report requires state"))];
        case UnknownType(_) => out := [To(client, CommandError("", "unsupported message type"))];
      }
    }
  }
}
