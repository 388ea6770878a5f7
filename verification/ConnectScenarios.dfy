/** Runs of the client runtime in which a promise of the hold or of the synced copy fails. */
module ConnectScenarios {
  import opened Wrappers
  import opened Playback
  import opened ConnectRuntime
  import opened ConnectWorld
  import opened ConnectHold
  import opened ConnectCopy

  // ----------------------------------------------------------------------- steps

  const UPDATE := SharedUpdate(true, false, false)

  /** A first snapshot, or a command's update, from nobody in particular. */
  function Snapshot(ids: seq<string>): SharedMessage {
    Showing(ids, 0, "", "snapshot")
  }

  function Changed(ids: seq<string>): SharedMessage {
    Showing(ids, 0, "", "command")
  }

  function Took(w: World, message: SharedMessage): World {
    w.(rt := w.rt.(shared := Some(message.shared)))
  }

  predicate Ready(w: World, id: nat, message: SharedMessage) {
    && id in w.tasks && w.tasks[id] == Received(w.rt.generation, message)
    && w.rt.gate == Open && w.rt.device == Some("d") && w.rt.shared.None?
  }

  lemma TakesSnapshot(w: World, id: nat, ids: seq<string>)
    requires Ready(w, id, Snapshot(ids))
    ensures Act(w, TakeShared(id, false, false))
        == Becomes(Took(w, Snapshot(ids)), id, Deciding(w.rt.generation, Snapshot(ids), UPDATE))
  {}

  lemma TakesChange(w: World, id: nat, ids: seq<string>)
    requires Ready(w, id, Changed(ids))
    ensures Act(w, TakeShared(id, false, false))
        == Becomes(Took(w, Changed(ids)), id, ReadyToApply(w.rt.generation, Changed(ids).shared))
  {}

  /** The world in which a first snapshot is about to be compared with the local queue. */
  function AboutToCompare(w: World, id: nat, ids: seq<string>): World {
    Becomes(Took(w, Snapshot(ids)), id, Comparing(w.rt.generation, Snapshot(ids), UPDATE, w.local))
  }

  lemma Reads(w: World, id: nat, ids: seq<string>)
    requires Ready(w, id, Snapshot(ids))
    ensures ActAll(w, [TakeShared(id, false, false), ReadLocal(id)]) == AboutToCompare(w, id, ids)
  {
    TakesSnapshot(w, id, ids);
    ActTwo(w, TakeShared(id, false, false), ReadLocal(id));
    var w1 := Becomes(Took(w, Snapshot(ids)), id, Deciding(w.rt.generation, Snapshot(ids), UPDATE));
    assert w1.tasks[id := Comparing(w.rt.generation, Snapshot(ids), UPDATE, w.local)]
        == AboutToCompare(w, id, ids).tasks;
  }

  /** The handler ends its comparison as the classifier says. */
  lemma Compares(w: World, id: nat, ids: seq<string>)
    requires Ready(w, id, Snapshot(ids))
    ensures var w1 := AboutToCompare(w, id, ids);
      Act(w1, Compare(id, false, false)) == Becomes(w1, id,
        match ClassifyInitialSnapshot(w.local, ids, w.rt.synced)
        case ApplyServer => ReadyToApply(w.rt.generation, Snapshot(ids).shared)
        case AskUser => Decided(w.rt.generation, false)
        case PushLocal => Decided(w.rt.generation, true))
  {
    EntriesIds(ids);
  }

  lemma Overwrites(w: World, id: nat, a: Task, b: Task)
    ensures Becomes(Becomes(w, id, a), id, b) == Becomes(w, id, b)
    ensures Done(Becomes(w, id, a), id) == Done(w, id)
  {
    assert w.tasks[id := a][id := b] == w.tasks[id := b];
    assert w.tasks[id := a] - {id} == w.tasks - {id};
  }

  function Decision(id: nat): seq<Action> {
    [TakeShared(id, false, false), ReadLocal(id)] + [Compare(id, false, false)]
  }

  /** From the message to the decision. */
  lemma DecidesRun(w: World, id: nat, ids: seq<string>)
    requires Ready(w, id, Snapshot(ids))
    ensures ActAll(w, Decision(id)) ==
      Becomes(Took(w, Snapshot(ids)), id,
        match ClassifyInitialSnapshot(w.local, ids, w.rt.synced)
        case ApplyServer => ReadyToApply(w.rt.generation, Snapshot(ids).shared)
        case AskUser => Decided(w.rt.generation, false)
        case PushLocal => Decided(w.rt.generation, true))
  {
    var w1 := AboutToCompare(w, id, ids);
    Reads(w, id, ids);
    ActAllConcat(w, [TakeShared(id, false, false), ReadLocal(id)], [Compare(id, false, false)]);
    ActOne(w1, Compare(id, false, false));
    Compares(w, id, ids);
    Overwrites(Took(w, Snapshot(ids)), id, w1.tasks[id], Act(w1, Compare(id, false, false)).tasks[id]);
  }

  // --------------------------------------------------------------- a stale decision

  /** A handler of the connection before the restart has decided to push; the new connection has its first snapshot. */
  function BeforeStaleDecision(): World {
    World(RuntimeState(1, true, true, Some("d"), None, None, None, Open, None), ["a"],
          map[0 := Decided(0, true), 1 := Received(1, Snapshot(["b"]))], multiset{}, [])
  }

  /** A run leads there: the first handler finds an empty server queue and is overtaken by a restart. */
  lemma StaleDecisionReachable()
    ensures ActAll(Online(None), [Receive(0, 0, Snapshot([]))] + Decision(0)
        + [Restart, Connect(1, "d"), Receive(1, 1, Snapshot(["b"]))])
      == BeforeStaleDecision()
  {
    var w1 := Becomes(Online(None), 0, Received(0, Snapshot([])));
    var w2 := Becomes(Took(w1, Snapshot([])), 0, Decided(0, true));
    var last := [Restart, Connect(1, "d"), Receive(1, 1, Snapshot(["b"]))];
    ActOne(Online(None), Receive(0, 0, Snapshot([])));
    DecidesRun(w1, 0, []);
    Overtaken(w2);
    ActAllConcat(Online(None), [Receive(0, 0, Snapshot([]))], Decision(0));
    ActAllConcat(Online(None), [Receive(0, 0, Snapshot([]))] + Decision(0), last);
  }

  lemma Overtaken(w: World)
    requires 0 in w.tasks && w.tasks - {0} == map[] && w.tasks[0] == Decided(0, true)
    requires w.rt == Took(Online(None), Snapshot([])).rt && w.local == ["a"] && w.prepared == multiset{} && w.sent == []
    ensures ActAll(w, [Restart, Connect(1, "d"), Receive(1, 1, Snapshot(["b"]))]) == BeforeStaleDecision()
  {
    var w1, last := w.(rt := Restarted(w.rt)), BeforeStaleDecision();
    var w2 := w1.(rt := Connected(w1.rt, 1, "d"));
    assert Act(Act(w, Restart), Connect(1, "d")) == w2;
    assert forall id :: id in w.tasks <==> id == 0 || id in w.tasks - {0};
    assert 1 !in w2.tasks && w2.tasks[1 := last.tasks[1]] == last.tasks;
    assert Act(w2, Receive(1, 1, Snapshot(["b"]))) == last;
    ActThree(w, Restart, Connect(1, "d"), Receive(1, 1, Snapshot(["b"])));
  }

  /** Asking on a connection that has just brought a queue other than the local one. */
  function Asking(id: nat): seq<Action> {
    Decision(id) + [Clear(id), CloseGate(id, "p", true)]
  }

  /** The world once the question is put about a queue. */
  function Asked(w: World, id: nat, ids: seq<string>): World {
    Done(w.(rt := w.rt.(shared := Some(Snapshot(ids).shared), synced := None, gate := AwaitingChoice(None),
      pendingResume := None)), id)
  }

  /** The question is put when the queues differ and none is empty. */
  lemma AskingRun(w: World, id: nat, ids: seq<string>)
    requires Ready(w, id, Snapshot(ids))
    requires ClassifyInitialSnapshot(w.local, ids, w.rt.synced) == AskUser
    ensures ActAll(w, Asking(id)) == Asked(w, id, ids)
  {
    DecidesRun(w, id, ids);
    ActAllConcat(w, Decision(id), [Clear(id), CloseGate(id, "p", true)]);
    AsksRun(Took(w, Snapshot(ids)), id);
  }

  /** Clearing the record and closing the gate. */
  lemma AsksRun(w: World, id: nat)
    requires id in w.tasks
    ensures ActAll(Becomes(w, id, Decided(w.rt.generation, false)), [Clear(id), CloseGate(id, "p", true)])
      == Done(w.(rt := w.rt.(synced := None, gate := AwaitingChoice(None), pendingResume := None)), id)
  {
    var w1 := Becomes(w, id, Decided(w.rt.generation, false));
    var cleared := w.(rt := SyncCleared(w.rt));
    var w2 := Becomes(cleared, id, Cleared(w.rt.generation, false));
    Overwrites(cleared, id, Decided(w.rt.generation, false), Cleared(w.rt.generation, false));
    assert Act(w1, Clear(id)) == w2;
    var asked := cleared.(rt := ResolutionBegun(cleared.rt, w.rt.generation));
    Overwrites(asked, id, Cleared(w.rt.generation, false), Cleared(w.rt.generation, false));
    assert Act(w2, CloseGate(id, "p", true)) == Done(asked, id);
    ActTwo(w1, Clear(id), CloseGate(id, "p", true));
  }

  /**
   A handler of an earlier connection that had found an empty server queue pushes without
   checking its generation: the question put to the user on the new connection is lost.
   */
  lemma StaleDecisionBreaksHold()
    ensures var asked := ActAll(BeforeStaleDecision(), Asking(1));
      var broken := Act(Act(asked, Clear(0)), CloseGate(0, "q", true));
      && asked.rt.gate == AwaitingChoice(None) && CanStillPush(asked, true)
      && !Answers(asked, Clear(0)) && !Answers(Act(asked, Clear(0)), CloseGate(0, "q", true))
      && broken.rt.gate == Pushing("q", false)
      && Act(Act(broken, Prepare("q", PushState)), Emit(CommandOut("q", PushState, 0))).sent
          == [CommandOut("q", PushState, 0)]
  {
    var w := BeforeStaleDecision();
    Different("a", "b");
    AskingRun(w, 1, ["b"]);
    StalePush(Asked(w, 1, ["b"]));
  }

  lemma Different(x: string, y: string)
    requires x != y
    ensures [x] != [y] && [x] != [] && [y] != []
  {
    assert [x][0] != [y][0];
  }

  lemma StalePush(asked: World)
    requires 0 in asked.tasks && asked.tasks[0] == Decided(0, true)
    requires asked.rt.gate == AwaitingChoice(None) && asked.rt.connected && asked.rt.hasSender
    requires asked.rt.shared.Some? && asked.rt.shared.value.seqNo == 0 && asked.sent == []
        && asked.prepared == multiset{}
    ensures CanStillPush(asked, true)
    ensures var broken := Act(Act(asked, Clear(0)), CloseGate(0, "q", true));
      && broken.rt.gate == Pushing("q", false)
      && Act(Act(broken, Prepare("q", PushState)), Emit(CommandOut("q", PushState, 0))).sent
          == [CommandOut("q", PushState, 0)]
  {
    assert PushesLater(asked.tasks[0], asked.local, true);
    var w1 := Becomes(asked.(rt := SyncCleared(asked.rt)), 0, Cleared(0, true));
    var broken := Done(w1.(rt := PushClosed(w1.rt, "q", false)), 0);
    assert Act(asked, Clear(0)) == w1;
    assert Act(w1, CloseGate(0, "q", true)) == broken;
    PushLeaves(broken);
  }

  lemma PushLeaves(w: World)
    requires w.rt.gate == Pushing("q", false) && w.rt.connected && w.rt.hasSender
    requires w.rt.shared.Some? && w.rt.shared.value.seqNo == 0 && w.sent == [] && w.prepared == multiset{}
    ensures Act(Act(w, Prepare("q", PushState)), Emit(CommandOut("q", PushState, 0))).sent
        == [CommandOut("q", PushState, 0)]
  {
    var ready := w.(prepared := multiset{CommandOut("q", PushState, 0)});
    assert Act(w, Prepare("q", PushState)) == ready;
    assert CommandOut("q", PushState, 0) in ready.prepared;
  }

  // --------------------------------------------------- an apply overtaken by a restart

  /** An apply of ["b"] is in the backend under generation 0, after the restart to generation 1. */
  function ApplyOvertaken(synced: Option<seq<string>>): World {
    World(RuntimeState(1, false, false, None, None, Some(0), None, Open, synced), ["a"],
          map[0 := InBackend(0, Changed(["b"]).shared, false)], multiset{}, [])
  }

  lemma ApplyOvertakenReachable(synced: Option<seq<string>>)
    ensures ActAll(Online(synced), [Receive(0, 0, Changed(["b"])), TakeShared(0, false, false)]
        + [ReadDevice(0), BeginApply(0), Restart])
      == ApplyOvertaken(synced)
  {
    var w := Online(synced);
    var w1 := Becomes(w, 0, Received(0, Changed(["b"])));
    var w2 := Becomes(Took(w, Changed(["b"])), 0, ReadyToApply(0, Changed(["b"]).shared));
    ActTwo(w, Receive(0, 0, Changed(["b"])), TakeShared(0, false, false));
    TakesChange(w1, 0, ["b"]);
    Overwrites(Took(w, Changed(["b"])), 0, Received(0, Changed(["b"])), w2.tasks[0]);
    BeginsThenRestarts(w2, synced);
    ActAllConcat(w, [Receive(0, 0, Changed(["b"])), TakeShared(0, false, false)],
                 [ReadDevice(0), BeginApply(0), Restart]);
  }

  lemma BeginsThenRestarts(w: World, synced: Option<seq<string>>)
    requires w == Becomes(Took(Online(synced), Changed(["b"])), 0, ReadyToApply(0, Changed(["b"]).shared))
    ensures ActAll(w, [ReadDevice(0), BeginApply(0), Restart]) == ApplyOvertaken(synced)
  {
    ActThree(w, ReadDevice(0), BeginApply(0), Restart);
    Overwrites(w, 0, HasDevice(0, Changed(["b"]).shared, false), InBackend(0, Changed(["b"]).shared, false));
  }

  /** The next connection with its first snapshot. */
  function NextConnection(): seq<Action> {
    [Connect(1, "d"), Receive(1, 1, Snapshot(["c"]))]
  }

  lemma NextConnectionRun(w: World)
    requires w.rt.generation == 1 && 1 !in w.tasks
    ensures ActAll(w, NextConnection()) == Becomes(w.(rt := Connected(w.rt, 1, "d")), 1, Received(1, Snapshot(["c"])))
  {
    ActTwo(w, Connect(1, "d"), Receive(1, 1, Snapshot(["c"])));
  }

  /**
   The user is being asked on the new connection, nothing can push, and yet the overtaken
   apply still assigns the server's queue to the backend.
   */
  lemma OverwrittenWhileAsked()
    ensures var asked := ActAll(ActAll(ApplyOvertaken(None), NextConnection()), Asking(1));
      && asked.rt.gate == AwaitingChoice(None) && asked.local == ["a"]
      && !CanStillPush(asked, true) && CanStillAssign(asked)
      && !Answers(asked, Assign(0, Completed))
      && Act(asked, Assign(0, Completed)).rt.gate == AwaitingChoice(None)
          && Act(asked, Assign(0, Completed)).local == ["b"]
  {
    var w := ApplyOvertaken(None);
    NextConnectionRun(w);
    Different("a", "c");
    var w2 := ActAll(w, NextConnection());
    AskingRun(w2, 1, ["c"]);
    assert w2.tasks - {1} == w.tasks;
    LateAssignment(Asked(w2, 1, ["c"]));
  }

  lemma LateAssignment(asked: World)
    requires asked.tasks == map[0 := InBackend(0, Changed(["b"]).shared, false)] && asked.local == ["a"]
    ensures !CanStillPush(asked, true) && CanStillAssign(asked)
    ensures Act(asked, Assign(0, Completed)).rt == asked.rt && Act(asked, Assign(0, Completed)).local == ["b"]
  {
    Different("a", "b");
    EntriesIds(["b"]);
    assert 0 in asked.tasks && AssignsLater(asked.tasks[0], asked.rt.generation, asked.local);
  }

  /** The overtaken apply of a device with a synced copy ends unrecorded. */
  function ApplyUnrecorded(): World {
    World(RuntimeState(1, false, false, None, None, None, None, Open, Some(["a"])), ["b"], map[], multiset{}, [])
  }

  /**
   A synced copy is lost to an apply that finishes after a restart: the queue came from the
   server, but the next first snapshot puts the question.
   */
  lemma LateApplyLosesCopy()
    ensures SyncedCopy(ApplyOvertaken(Some(["a"])))
    ensures ActAll(ApplyOvertaken(Some(["a"])), [Assign(0, Completed), EndApply(0), Record(0)]) == ApplyUnrecorded()
    ensures !SyncedCopy(ApplyUnrecorded())
    ensures ActAll(ActAll(ApplyUnrecorded(), NextConnection()), Asking(1)).rt.gate == AwaitingChoice(None)
  {
    LateApplyEnds();
    Different("a", "b");
    Different("b", "c");
    var w1 := ApplyUnrecorded();
    NextConnectionRun(w1);
    AskingRun(ActAll(w1, NextConnection()), 1, ["c"]);
  }

  lemma LateApplyEnds()
    ensures ActAll(ApplyOvertaken(Some(["a"])), [Assign(0, Completed), EndApply(0), Record(0)]) == ApplyUnrecorded()
  {
    var w := ApplyOvertaken(Some(["a"]));
    EntriesIds(["b"]);
    var w1 := Becomes(w.(local := ["b"]), 0, Ending(0, 0, Some(["b"])));
    var w2 := Becomes(w1.(rt := w1.rt.(applyingSeq := None)), 0, Recording(0, ["b"]));
    assert Act(w, Assign(0, Completed)) == w1;
    assert Act(w1, EndApply(0)) == w2;
    assert Act(w2, Record(0)) == ApplyUnrecorded();
    ActThree(w, Assign(0, Completed), EndApply(0), Record(0));
  }

  /** Such a device is reached from the start: it applies the server's equal queue and reconnects. */
  lemma CopyReachable()
    ensures ActAll(Online(None), [Receive(0, 0, Snapshot(["a"]))] + Decision(0) + WholeApply()) == Online(Some(["a"]))
  {
    var w := Online(None);
    var w1 := Becomes(w, 0, Received(0, Snapshot(["a"])));
    var w2 := Becomes(Took(w1, Snapshot(["a"])), 0, ReadyToApply(0, Snapshot(["a"]).shared));
    ActOne(w, Receive(0, 0, Snapshot(["a"])));
    Different("a", "b");
    DecidesRun(w1, 0, ["a"]);
    Applies(w2);
    ActAllConcat(w, [Receive(0, 0, Snapshot(["a"]))], Decision(0));
    ActAllConcat(w, [Receive(0, 0, Snapshot(["a"]))] + Decision(0), WholeApply());
  }

  /** An apply to its end, and a reconnect. */
  function WholeApply(): seq<Action> {
    [ReadDevice(0), BeginApply(0), Assign(0, Completed), EndApply(0)] + [Record(0), Disconnect(0), Connect(0, "d")]
  }

  lemma Applies(w: World)
    requires 0 in w.tasks && w.tasks - {0} == map[] && w.tasks[0] == ReadyToApply(0, Snapshot(["a"]).shared)
    requires w.rt == Took(Online(None), Snapshot(["a"])).rt && w.local == ["a"] && w.prepared == multiset{}
        && w.sent == []
    ensures ActAll(w, WholeApply()) == Online(Some(["a"]))
  {
    var shared := Snapshot(["a"]).shared;
    var w2 := Becomes(Becomes(w, 0, HasDevice(0, shared, false)).(rt := w.rt.(applyingSeq := Some(0))), 0,
                      InBackend(0, shared, false));
    Begins(w, shared);
    var w4 := Becomes(Becomes(w2, 0, Ending(0, 0, Some(["a"]))).(rt := w.rt), 0, Recording(0, ["a"]));
    EntriesIds(["a"]);
    Ends(w2, shared);
    ActFour(w, ReadDevice(0), BeginApply(0), Assign(0, Completed), EndApply(0));
    RecordsAndReconnects(w4);
    ActAllConcat(w, [ReadDevice(0), BeginApply(0), Assign(0, Completed), EndApply(0)],
                 [Record(0), Disconnect(0), Connect(0, "d")]);
  }

  lemma Begins(w: World, shared: Shared)
    requires 0 in w.tasks && w.tasks[0] == ReadyToApply(0, shared) && w.rt.generation == 0 && w.rt.device.Some?
    requires shared.seqNo == 0 && !IsDevice(w.rt, shared.active)
    ensures Act(Act(w, ReadDevice(0)), BeginApply(0))
      == Becomes(Becomes(w, 0, HasDevice(0, shared, false)).(rt := w.rt.(applyingSeq := Some(0))), 0,
                 InBackend(0, shared, false))
  {}

  lemma Ends(w: World, shared: Shared)
    requires 0 in w.tasks && w.tasks[0] == InBackend(0, shared, false) && w.rt.applyingSeq == Some(0)
        && shared.seqNo == 0
    requires w.local == ["a"] && QueueIds(shared.state.queue) == ["a"]
    ensures Act(Act(w, Assign(0, Completed)), EndApply(0))
      == Becomes(Becomes(w, 0, Ending(0, 0, Some(["a"]))).(rt := w.rt.(applyingSeq := None)), 0, Recording(0, ["a"]))
  {}

  lemma RecordsAndReconnects(w: World)
    requires 0 in w.tasks && w.tasks - {0} == map[] && w.tasks[0] == Recording(0, ["a"])
    requires w.rt == Took(Online(None), Snapshot(["a"])).rt && w.local == ["a"] && w.prepared == multiset{}
        && w.sent == []
    ensures ActAll(w, [Record(0), Disconnect(0), Connect(0, "d")]) == Online(Some(["a"]))
  {
    var recorded := Took(Online(Some(["a"])), Snapshot(["a"]));
    assert Act(w, Record(0)) == recorded;
    Reconnects(recorded);
    ActThree(w, Record(0), Disconnect(0), Connect(0, "d"));
  }

  lemma Reconnects(w: World)
    requires w == Took(Online(Some(["a"])), Snapshot(["a"]))
    ensures Act(Act(w, Disconnect(0)), Connect(0, "d")) == Online(Some(["a"]))
  {}

  // ------------------------------------------------------ an apply that cannot play

  /** The device is to play this queue. */
  function ToPlay(ids: seq<string>): SharedMessage {
    SharedMessage(false, Shared(0, "d", EMPTY_STATE.(queue := Entries(ids), playing := Playing), 0, ""), "command")
  }

  /** A device with a synced copy is about to assign another queue and to play it. */
  function AboutToPlay(): World {
    var w := Took(Online(Some(["a"])), ToPlay(["b"]));
    w.(rt := w.rt.(applyingSeq := Some(0)), tasks := map[0 := InBackend(0, ToPlay(["b"]).shared, true)])
  }

  lemma AboutToPlayReachable()
    ensures ActAll(Online(Some(["a"])), [Receive(0, 0, ToPlay(["b"])), TakeShared(0, false, false), ReadDevice(0),
        BeginApply(0)])
      == AboutToPlay()
  {
    var w, shared := Online(Some(["a"])), ToPlay(["b"]).shared;
    var took := Took(w, ToPlay(["b"]));
    var w1 := w.(tasks := map[0 := Received(0, ToPlay(["b"]))]);
    var w2 := took.(tasks := map[0 := ReadyToApply(0, shared)]);
    var w3 := took.(tasks := map[0 := HasDevice(0, shared, true)]);
    assert Act(w, Receive(0, 0, ToPlay(["b"]))) == w1;
    TakesToPlay(w1);
    assert Act(w2, ReadDevice(0)) == w3;
    BeginsToPlay(w3);
    ActFour(w, Receive(0, 0, ToPlay(["b"])), TakeShared(0, false, false), ReadDevice(0), BeginApply(0));
  }

  lemma TakesToPlay(w: World)
    requires w == Online(Some(["a"])).(tasks := map[0 := Received(0, ToPlay(["b"]))])
    ensures Act(w, TakeShared(0, false, false))
        == Took(w, ToPlay(["b"])).(tasks := map[0 := ReadyToApply(0, ToPlay(["b"]).shared)])
  {}

  lemma BeginsToPlay(w: World)
    requires w == Took(Online(Some(["a"])), ToPlay(["b"])).(tasks := map[0 := HasDevice(0, ToPlay(["b"]).shared, true)])
    ensures Act(w, BeginApply(0)) == AboutToPlay()
  {}

  /**
   An apply that assigns the queue and then cannot play it loses the copy without an edit, a
   restart or an overlap: no handler is left, and the next first snapshot puts the question.
   */
  lemma FailedApplyLosesCopy()
    ensures CopyAtRest(AboutToPlay())
    ensures var w := ActAll(AboutToPlay(), [Assign(0, Unplayable), EndApply(0)]);
      && w.local == ["b"] && w.rt.synced == Some(["a"]) && w.tasks == map[] && !SyncedCopy(w)
      && Classified(w, w.local, Snapshot(["c"])) == AskUser
  {
    var w := AboutToPlay();
    Different("a", "b");
    Different("b", "c");
    EntriesIds(["b"]);
    EntriesIds(["c"]);
    assert InBackendAt(w, 0) && StartsTrack(w.tasks[0]) && Carries(w.tasks[0]) == ["b"];
    FailedApplyExactly(w, 0);
    var w' := ActAll(w, [Assign(0, Unplayable), EndApply(0)]);
    assert w'.tasks == map[] by {
      assert forall id :: id in w'.tasks ==> id in w.tasks && id != 0;
    }
  }

  // ------------------------------------------------------- a report overtaken

  /** A first snapshot by which this device is active. */
  function ActiveSnapshot(ids: seq<string>): SharedMessage {
    SharedMessage(true, Shared(0, "d", EMPTY_STATE.(queue := Entries(ids)), 0, ""), "snapshot")
  }

  /** The device has taken the snapshot and prepared a report. */
  function ReportPrepared(): World {
    Took(Online(None), ActiveSnapshot(["b"])).(
      tasks := map[0 := Deciding(0, ActiveSnapshot(["b"]), UPDATE)], prepared := multiset{ReportOut(0)})
  }

  lemma ReportPreparedReachable()
    ensures ActAll(Online(None), [Receive(0, 0, ActiveSnapshot(["b"])), TakeShared(0, false, false), Publish])
        == ReportPrepared()
  {
    var w := Online(None);
    var w1 := w.(tasks := map[0 := Received(0, ActiveSnapshot(["b"]))]);
    var w2 := Took(w, ActiveSnapshot(["b"])).(tasks := map[0 := Deciding(0, ActiveSnapshot(["b"]), UPDATE)]);
    assert Act(w, Receive(0, 0, ActiveSnapshot(["b"]))) == w1;
    TakesActive(w1);
    assert Act(w2, Publish) == ReportPrepared();
    ActThree(w, Receive(0, 0, ActiveSnapshot(["b"])), TakeShared(0, false, false), Publish);
  }

  lemma TakesActive(w: World)
    requires w == Online(None).(tasks := map[0 := Received(0, ActiveSnapshot(["b"]))])
    ensures Act(w, TakeShared(0, false, false))
      == Took(w, ActiveSnapshot(["b"])).(tasks := map[0 := Deciding(0, ActiveSnapshot(["b"]), UPDATE)])
  {}

  /** The question put over a prepared report. */
  function AskedOver(): World {
    World(Took(Online(None), ActiveSnapshot(["b"])).rt.(synced := None, gate := AwaitingChoice(None),
      pendingResume := None),
          ["a"], map[], multiset{ReportOut(0)}, [])
  }

  lemma AskedOverReachable()
    ensures ActAll(ReportPrepared(), [ReadLocal(0), Compare(0, false, false)] + [Clear(0), CloseGate(0, "p", true)])
        == AskedOver()
  {
    var w := ReportPrepared();
    DecidesOver(w);
    AsksRun(w, 0);
    ActAllConcat(w, [ReadLocal(0), Compare(0, false, false)], [Clear(0), CloseGate(0, "p", true)]);
    assert w.tasks - {0} == map[];
  }

  lemma DecidesOver(w: World)
    requires w == ReportPrepared()
    ensures ActAll(w, [ReadLocal(0), Compare(0, false, false)]) == Becomes(w, 0, Decided(0, false))
  {
    var message := ActiveSnapshot(["b"]);
    var w1 := Becomes(w, 0, Comparing(0, message, UPDATE, ["a"]));
    Different("a", "b");
    EntriesIds(["b"]);
    assert Act(w, ReadLocal(0)) == w1;
    assert Classified(w1, ["a"], message) == AskUser;
    Overwrites(w, 0, Comparing(0, message, UPDATE, ["a"]), Decided(0, false));
    ActTwo(w, ReadLocal(0), Compare(0, false, false));
  }

  /**
   A report prepared before the gate closed leaves while the user is being asked, although
   no handler is left and nothing can push.
   */
  lemma ReportLeavesWhileAsked()
    ensures AskedOver().rt.gate.AwaitingChoice? && !CanStillPush(AskedOver(), true)
    ensures !Answers(AskedOver(), Emit(ReportOut(0)))
    ensures Act(AskedOver(), Emit(ReportOut(0))).sent == [ReportOut(0)]
  {
    assert ReportOut(0) in AskedOver().prepared;
  }

  // -------------------------------------------------------------- switching off

  /** Switching off with one action between its two steps. */
  lemma SwitchingOff(w: World, a: Action)
    ensures ActAll(w, [Forget] + [a] + [Restart]) == Act(Act(Act(w, Forget), a), Restart)
  {
    ActOne(w, Forget);
    ActOne(Act(w, Forget), a);
    ActOne(Act(Act(w, Forget), a), Restart);
    ActAllConcat(w, [Forget], [a]);
    ActAllConcat(w, [Forget] + [a], [Restart]);
  }

  /** A record between forgetting and restarting survives switching Connect off. */
  lemma RecordSurvivesSwitchingOff(w: World, id: nat)
    requires id in w.tasks && w.tasks[id] == Recording(w.rt.generation, w.local)
    ensures SyncedCopy(ActAll(w, [Forget] + [Record(id)] + [Restart]))
  {
    SwitchingOff(w, Record(id));
    CopyMade(Act(w, Forget), id, false, false);
  }

  /** So does the echo of an own push taken between them. */
  lemma EchoSurvivesSwitchingOff(w: World, id: nat)
    requires TakesOwnPush(w, id) && !OwnPushOfAnother(w, id)
    ensures SyncedCopy(ActAll(w, [Forget] + [TakeShared(id, false, false)] + [Restart]))
  {
    SwitchingOff(w, TakeShared(id, false, false));
    CopyMade(Act(w, Forget), id, false, false);
  }
}
