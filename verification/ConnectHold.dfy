/**
 The hold on a local queue: from the question put to the user to its answer, over every
 interleaving.  Each promise comes with the exact condition, on the state in which the gate
 closes, under which every run keeps it.
 */
module ConnectHold {
  import opened Wrappers
  import opened Playback
  import opened ConnectRuntime
  import opened ConnectWorld

  /** The user is being asked, or the user's own push is on its way. */
  predicate Held(w: World) {
    w.rt.gate.AwaitingChoice? || (w.rt.gate.Pushing? && w.rt.gate.userFacing)
  }

  /** The user pulls, the own push comes back, or the connection ends. */
  predicate Answers(w: World, a: Action) {
    match a
    case Restart => true
    case Disconnect(generation) => generation == w.rt.generation
    case UserPull(id) => id !in w.tasks && CanPull(w.rt)
    case TakeShared(id, _, _) =>
      && id in w.tasks && w.tasks[id].Received? && w.rt.gate.Pushing?
      && TakesShared(w.rt, w.tasks[id].generation, w.tasks[id].message) && IsOwnPush(w.rt, w.tasks[id].message)
    case _ => false
  }

  /** No action of the run answers the question. */
  predicate Unanswered(w: World, actions: seq<Action>)
    decreases |actions|
  {
    actions == [] || (!Answers(w, actions[0]) && Unanswered(Act(w, actions[0]), actions[1..]))
  }

  predicate NoEdit(actions: seq<Action>) {
    forall a :: a in actions ==> !a.Edit?
  }

  predicate NoUserPush(actions: seq<Action>) {
    forall a :: a in actions ==> !a.UserPush?
  }

  /** The handler has passed the gate and can still reach the backend. */
  predicate PastGate(t: Task) {
    t.Deciding? || t.Comparing? || t.ReadyToApply? || t.HasDevice? || t.InBackend? || t.OpReady?
  }

  function Admitted(w: World): set<nat> {
    set id | id in w.tasks && PastGate(w.tasks[id])
  }

  /** Everything written or about to be written. */
  function Outgoing(w: World): multiset<Outbound> {
    multiset(w.sent) + w.prepared
  }

  function IdsOf(message: SharedMessage): seq<string> {
    QueueIds(message.shared.state.queue)
  }

  // ------------------------------------------------ what can still break the hold

  /** The handler can still push by itself; `editable` when the local queue may be edited before. */
  predicate PushesLater(t: Task, local: seq<string>, editable: bool) {
    match t
    case Deciding(_, message, _) => IdsOf(message) == [] && (editable || local != [])
    case Comparing(_, message, _, own) => IdsOf(message) == [] && own != []
    case Decided(_, push) => push
    case Cleared(_, push) => push
    case _ => false
  }

  predicate CanStillPush(w: World, editable: bool) {
    exists id :: id in w.tasks && PushesLater(w.tasks[id], w.local, editable)
  }

  /** The last test of the message can pass. */
  predicate Applicable(message: SharedMessage, update: SharedUpdate) {
    update.shouldApply && message.reason != "activeOffline"
  }

  /** The handler can still assign another queue to the backend. */
  predicate AssignsLater(t: Task, generation: nat, local: seq<string>) {
    match t
    case InBackend(_, shared, _) => QueueIds(shared.state.queue) != local
    case HasDevice(g, shared, _) => g == generation && QueueIds(shared.state.queue) != local
    case ReadyToApply(g, shared) => g == generation && QueueIds(shared.state.queue) != local
    case Deciding(g, message, update) => g == generation && Applicable(message, update) && IdsOf(message) != local
    case Comparing(g, message, update, _) => g == generation && Applicable(message, update) && IdsOf(message) != local
    case _ => false
  }

  predicate CanStillAssign(w: World) {
    exists id :: id in w.tasks && AssignsLater(w.tasks[id], w.rt.generation, w.local)
  }

  // ------------------------------------------------------------- the hold, kept

  /** The same reports, however many commands. */
  ghost predicate SameReports(a: multiset<Outbound>, b: multiset<Outbound>) {
    forall out: Outbound :: out.ReportOut? ==> a[out] == b[out]
  }

  /** What one action may do while the gate is held. */
  ghost predicate HeldStep(w: World, w': World) {
    && Held(w')
    && w'.rt.generation == w.rt.generation
    && Admitted(w') <= Admitted(w)
    && w.sent <= w'.sent
    && SameReports(Outgoing(w), Outgoing(w'))
  }

  lemma HoldStep(w: World, a: Action)
    requires Held(w) && !CanStillPush(w, true) && !Answers(w, a)
    ensures HeldStep(w, Act(w, a)) && !CanStillPush(Act(w, a), true)
  {
    if a.CloseGate? && a.id in w.tasks {
      assert !PushesLater(w.tasks[a.id], w.local, true);
    }
    HoldStepGate(w, a);
    HoldStepTasks(w, a);
    HoldStepOutgoing(w, a);
  }

  lemma HoldStepGate(w: World, a: Action)
    requires Held(w) && !Answers(w, a)
    requires a.CloseGate? && a.id in w.tasks ==> !PushesLater(w.tasks[a.id], w.local, false)
    ensures Held(Act(w, a)) && Act(w, a).rt.generation == w.rt.generation
    ensures w.rt.gate.AwaitingChoice? && !a.UserPush? ==> Act(w, a).rt.gate.AwaitingChoice?
  {
    if OfHandler(a) {
      HandlerGate(w, a);
    }
  }

  lemma HandlerGate(w: World, a: Action)
    requires Held(w) && !Answers(w, a) && OfHandler(a)
    requires a.CloseGate? && a.id in w.tasks ==> !PushesLater(w.tasks[a.id], w.local, false)
    ensures Held(Act(w, a)) && Act(w, a).rt.generation == w.rt.generation
    ensures w.rt.gate.AwaitingChoice? ==> Act(w, a).rt.gate.AwaitingChoice?
  {}

  lemma HoldStepTasks(w: World, a: Action)
    requires Held(w) && !Answers(w, a)
    ensures Admitted(Act(w, a)) <= Admitted(w)
    ensures !CanStillPush(w, true) ==> !CanStillPush(Act(w, a), true)
  {
    var w' := Act(w, a);
    if OfHandler(a) {
      HandlerActs(w, a);
      if a.id in w.tasks {
        HeldHandler(w, a);
      }
    } else {
      OthersAct(w, a);
    }
    forall id | id in w'.tasks
      ensures PastGate(w'.tasks[id]) ==> id in w.tasks && PastGate(w.tasks[id])
      ensures PushesLater(w'.tasks[id], w'.local, true) ==> id in w.tasks && PushesLater(w.tasks[id], w.local, true)
    {}
  }

  /** While the gate is held a handler passes it only if it had passed it, and pushes only if it was to push. */
  lemma HeldHandler(w: World, a: Action)
    requires Held(w) && !Answers(w, a) && OfHandler(a) && a.id in w.tasks
    ensures var w' := Act(w, a);
      a.id in w'.tasks ==>
        && (PastGate(w'.tasks[a.id]) ==> PastGate(w.tasks[a.id]))
        && (PushesLater(w'.tasks[a.id], w'.local, true) ==> PushesLater(w.tasks[a.id], w.local, true))
  {}

  /** A held gate lets no report be prepared, and a question lets nothing be prepared. */
  lemma HoldStepOutgoing(w: World, a: Action)
    requires Held(w)
    ensures w.sent <= Act(w, a).sent && SameReports(Outgoing(w), Outgoing(Act(w, a)))
    ensures w.rt.gate.AwaitingChoice? ==> Outgoing(Act(w, a)) == Outgoing(w)
  {
    if OfHandler(a) {
      HandlerActs(w, a);
    } else if a.Emit? {
      EmitKeepsOutgoing(w, a.out);
    } else if a.Publish? || a.Flush? || a.Prepare? {
      HeldPrepares(w, a);
    } else {
      assert Act(w, a).prepared == w.prepared && Act(w, a).sent == w.sent;
    }
  }

  lemma EmitKeepsOutgoing(w: World, out: Outbound)
    ensures w.sent <= Act(w, Emit(out)).sent && Outgoing(Act(w, Emit(out))) == Outgoing(w)
  {
    if out in w.prepared {
      assert multiset(w.sent + [out]) == multiset(w.sent) + multiset{out};
    }
  }

  lemma HeldPrepares(w: World, a: Action)
    requires Held(w) && (a.Publish? || a.Flush? || a.Prepare?)
    ensures var w' := Act(w, a);
      && w'.sent == w.sent && (w.rt.gate.AwaitingChoice? || !a.Prepare? ==> w'.prepared == w.prepared)
      && SameReports(Outgoing(w), Outgoing(w'))
  {}

  /**
   While the question is not answered, in every interleaving: the gate stays held, nothing
   that had not passed the gate before gets to the backend, and the reports written are
   reports prepared before the gate closed: each is still prepared or has left once.
   */
  lemma {:induction false} HoldRun(w: World, actions: seq<Action>)
    requires Held(w) && !CanStillPush(w, true) && Unanswered(w, actions)
    ensures HeldStep(w, ActAll(w, actions)) && !CanStillPush(ActAll(w, actions), true)
    decreases |actions|
  {
    if actions != [] {
      HoldStep(w, actions[0]);
      HoldRun(Act(w, actions[0]), actions[1..]);
    }
  }

  /** While the user is asked and does not push, what leaves is exactly what was prepared before. */
  lemma {:induction false} AskedRun(w: World, actions: seq<Action>)
    requires w.rt.gate.AwaitingChoice? && !CanStillPush(w, true) && Unanswered(w, actions) && NoUserPush(actions)
    ensures var w' := ActAll(w, actions);
      w'.rt.gate.AwaitingChoice? && w.sent <= w'.sent && Outgoing(w') == Outgoing(w)
    decreases |actions|
  {
    if actions != [] {
      var a := actions[0];
      assert a in actions && forall b :: b in actions[1..] ==> b in actions;
      HoldStep(w, a);
      if a.CloseGate? && a.id in w.tasks {
        assert !PushesLater(w.tasks[a.id], w.local, true);
      }
      HoldStepGate(w, a);
      HoldStepOutgoing(w, a);
      AskedRun(Act(w, a), actions[1..]);
    }
  }

  // ------------------------------------------------------ the hold, exactly

  /** A run of one action and then others. */
  lemma Prepend(w: World, a: Action, rest: seq<Action>)
    ensures ActAll(w, [a] + rest) == ActAll(Act(w, a), rest)
    ensures Unanswered(w, [a] + rest) <==> !Answers(w, a) && Unanswered(Act(w, a), rest)
    ensures NoEdit([a] + rest) <==> !a.Edit? && NoEdit(rest)
  {
    var all := [a] + rest;
    assert all[0] == a && all[1..] == rest;
    assert forall b :: b in all <==> b == a || b in rest;
  }

  /** A run after which an automatic push has closed the gate, without an edit. */
  predicate PushRun(w: World, actions: seq<Action>) {
    && Unanswered(w, actions)
    && ActAll(w, actions).rt.gate == Pushing("x", false) && ActAll(w, actions).rt.generation == w.rt.generation
  }

  lemma PushFromCleared(w: World, id: nat) returns (actions: seq<Action>)
    requires Held(w) && id in w.tasks && w.tasks[id].Cleared? && w.tasks[id].push
    ensures PushRun(w, actions) && NoEdit(actions) && ActAll(w, actions).local == w.local
  {
    Prepend(w, CloseGate(id, "x", true), []);
    actions := [CloseGate(id, "x", true)] + [];
  }

  lemma PushFromDecided(w: World, id: nat) returns (actions: seq<Action>)
    requires Held(w) && id in w.tasks && w.tasks[id].Decided? && w.tasks[id].push
    ensures PushRun(w, actions) && NoEdit(actions) && ActAll(w, actions).local == w.local
  {
    var rest := PushFromCleared(Act(w, Clear(id)), id);
    Prepend(w, Clear(id), rest);
    actions := [Clear(id)] + rest;
  }

  /** The record may be forgotten before the comparison. */
  lemma PushFromComparing(w: World, id: nat) returns (actions: seq<Action>)
    requires Held(w) && id in w.tasks && w.tasks[id].Comparing? && PushesLater(w.tasks[id], w.local, false)
    ensures PushRun(w, actions) && NoEdit(actions) && ActAll(w, actions).local == w.local
  {
    var forgotten := Act(w, Forget);
    assert Classified(forgotten, w.tasks[id].local, w.tasks[id].message) == PushLocal;
    var rest := PushFromDecided(Act(forgotten, Compare(id, false, false)), id);
    Prepend(forgotten, Compare(id, false, false), rest);
    Prepend(w, Forget, [Compare(id, false, false)] + rest);
    actions := [Forget] + ([Compare(id, false, false)] + rest);
  }

  lemma PushFromDeciding(w: World, id: nat) returns (actions: seq<Action>)
    requires Held(w) && id in w.tasks && w.tasks[id].Deciding? && PushesLater(w.tasks[id], w.local, false)
    ensures PushRun(w, actions) && NoEdit(actions) && ActAll(w, actions).local == w.local
  {
    var rest := PushFromComparing(Act(w, ReadLocal(id)), id);
    Prepend(w, ReadLocal(id), rest);
    actions := [ReadLocal(id)] + rest;
  }

  /** The run by which the handler pushes without an edit. */
  lemma PushReachable(w: World, id: nat) returns (actions: seq<Action>)
    requires Held(w) && id in w.tasks && PushesLater(w.tasks[id], w.local, false)
    ensures PushRun(w, actions) && NoEdit(actions) && ActAll(w, actions).local == w.local
  {
    match w.tasks[id] {
      case Deciding(_, _, _) => actions := PushFromDeciding(w, id);
      case Comparing(_, _, _, _) => actions := PushFromComparing(w, id);
      case Decided(_, _) => actions := PushFromDecided(w, id);
      case Cleared(_, _) => actions := PushFromCleared(w, id);
    }
  }

  /** The run by which the handler pushes, with an edit first when the local queue is empty. */
  lemma PushAfterEdit(w: World, id: nat) returns (actions: seq<Action>)
    requires Held(w) && id in w.tasks && PushesLater(w.tasks[id], w.local, true)
    ensures PushRun(w, actions)
  {
    if PushesLater(w.tasks[id], w.local, false) {
      actions := PushReachable(w, id);
    } else {
      var rest := PushFromDeciding(Act(w, Edit(["x"])), id);
      Prepend(w, Edit(["x"]), rest);
      actions := [Edit(["x"])] + rest;
    }
  }

  /**
   Every run keeps the gate held until the question is answered if and only if no handler
   can still push by itself when the gate closes: none has decided to push, and none is
   still deciding about an empty server queue.
   */
  lemma HeldExactly(w: World)
    requires Held(w)
    ensures (forall actions :: Unanswered(w, actions) ==> Held(ActAll(w, actions))) <==> !CanStillPush(w, true)
  {
    if CanStillPush(w, true) {
      var id :| id in w.tasks && PushesLater(w.tasks[id], w.local, true);
      var actions := PushAfterEdit(w, id);
      assert !Held(ActAll(w, actions));
    } else {
      forall actions | Unanswered(w, actions)
        ensures Held(ActAll(w, actions))
      {
        HoldRun(w, actions);
      }
    }
  }

  /** No report is written after these. */
  ghost predicate NoNewReport(before: seq<Outbound>, after: seq<Outbound>) {
    before <= after && forall k :: |before| <= k < |after| ==> !after[k].ReportOut?
  }

  /** No run lets a report leave before the answer if and only if none was prepared when the gate closed. */
  lemma NoReportExactly(w: World)
    requires Held(w) && !CanStillPush(w, true)
    ensures (forall actions :: Unanswered(w, actions) ==> NoNewReport(w.sent, ActAll(w, actions).sent))
      <==> (forall out :: out in w.prepared ==> !out.ReportOut?)
  {
    if out :| out in w.prepared && out.ReportOut? {
      ActOne(w, Emit(out));
      Prepend(w, Emit(out), []);
      assert [Emit(out)] + [] == [Emit(out)];
      var w' := ActAll(w, [Emit(out)]);
      assert w'.sent[|w.sent|] == out;
      assert !NoNewReport(w.sent, w'.sent);
    } else {
      forall actions | Unanswered(w, actions)
        ensures NoNewReport(w.sent, ActAll(w, actions).sent)
      {
        HoldRun(w, actions);
        NewReportsWerePrepared(w, ActAll(w, actions));
      }
    }
  }

  /** A report written since was prepared before. */
  lemma NewReportsWerePrepared(w: World, w': World)
    requires HeldStep(w, w')
    ensures forall k :: |w.sent| <= k < |w'.sent| && w'.sent[k].ReportOut? ==> w'.sent[k] in w.prepared
  {
    var fresh' := w'.sent[|w.sent|..];
    assert w'.sent == w.sent + fresh';
    forall k | |w.sent| <= k < |w'.sent| && w'.sent[k].ReportOut?
      ensures w'.sent[k] in w.prepared
    {
      var out := w'.sent[k];
      assert fresh'[k - |w.sent|] == out;
      assert multiset(fresh')[out] > 0;
      assert Outgoing(w)[out] == Outgoing(w')[out];
    }
  }

  /** While the user is asked and does not push, no run lets anything leave if and only if nothing was prepared. */
  lemma SilentExactly(w: World)
    requires w.rt.gate.AwaitingChoice? && !CanStillPush(w, true)
    ensures (forall actions :: Unanswered(w, actions) && NoUserPush(actions) ==> ActAll(w, actions).sent == w.sent)
      <==> w.prepared == multiset{}
  {
    if out :| out in w.prepared {
      ActOne(w, Emit(out));
      Prepend(w, Emit(out), []);
      assert [Emit(out)] + [] == [Emit(out)];
      assert |ActAll(w, [Emit(out)]).sent| == |w.sent| + 1;
    } else {
      forall actions | Unanswered(w, actions) && NoUserPush(actions)
        ensures ActAll(w, actions).sent == w.sent
      {
        AskedRun(w, actions);
        var w' := ActAll(w, actions);
        assert |multiset(w'.sent)| <= |Outgoing(w')|;
        assert |w'.sent| == |w.sent|;
      }
    }
  }

  // ------------------------------------------------------- the local queue, kept

  /** Nothing can assign another queue, and nothing can push and so reopen the gate. */
  predicate LocalSafe(w: World) {
    !CanStillPush(w, false) && !CanStillAssign(w)
  }

  lemma LocalSafeStep(w: World, a: Action)
    requires Held(w) && LocalSafe(w) && !Answers(w, a) && !a.Edit?
    ensures Held(Act(w, a)) && LocalSafe(Act(w, a)) && Act(w, a).local == w.local
  {
    var w' := Act(w, a);
    if OfHandler(a) {
      HandlerActs(w, a);
      if a.id in w.tasks {
        assert !PushesLater(w.tasks[a.id], w.local, false) && !AssignsLater(w.tasks[a.id], w.rt.generation, w.local);
        SafeHandler(w, a);
      }
    } else {
      OthersAct(w, a);
    }
    HoldStepGate(w, a);
    forall id | id in w'.tasks
      ensures !PushesLater(w'.tasks[id], w'.local, false) && !AssignsLater(w'.tasks[id], w'.rt.generation, w'.local)
    {
      if id in w.tasks {
        assert !PushesLater(w.tasks[id], w.local, false) && !AssignsLater(w.tasks[id], w.rt.generation, w.local);
      }
    }
  }

  /** A handler that can neither push nor assign another queue does neither and stays so. */
  lemma SafeHandler(w: World, a: Action)
    requires Held(w) && !Answers(w, a) && OfHandler(a) && a.id in w.tasks
    requires !PushesLater(w.tasks[a.id], w.local, false) && !AssignsLater(w.tasks[a.id], w.rt.generation, w.local)
    ensures var w' := Act(w, a);
      && w'.local == w.local
      && (a.id in w'.tasks ==>
            !PushesLater(w'.tasks[a.id], w.local, false) && !AssignsLater(w'.tasks[a.id], w.rt.generation, w.local))
  {}

  lemma {:induction false} LocalSafeRun(w: World, actions: seq<Action>)
    requires Held(w) && LocalSafe(w) && Unanswered(w, actions) && NoEdit(actions)
    ensures ActAll(w, actions).local == w.local
    decreases |actions|
  {
    if actions != [] {
      assert actions[0] in actions && forall b :: b in actions[1..] ==> b in actions;
      LocalSafeStep(w, actions[0]);
      LocalSafeRun(Act(w, actions[0]), actions[1..]);
    }
  }

  lemma {:induction false} FreshId(ids: set<nat>) returns (id: nat)
    ensures forall i :: i in ids ==> i < id
    decreases |ids|
  {
    if ids == {} {
      id := 0;
    } else {
      var one :| one in ids;
      var below := FreshId(ids - {one});
      assert forall i :: i in ids ==> i == one || i in ids - {one};
      id := if below > one then below else one + 1;
    }
  }

  /** Where a message may come in that the runtime does not take for an old one. */
  function NextSeq(w: World): int {
    if w.rt.shared.Some? then w.rt.shared.value.seqNo else 0
  }

  /** Connect, receive a message and take it. */
  function Arrivals(w: World, id: nat, message: SharedMessage): seq<Action> {
    [Connect(w.rt.generation, "d")] + ([Receive(id, w.rt.generation, message)] + ([TakeShared(id, false, false)] + []))
  }

  /** What a message brings to a runtime that is not pushing. */
  lemma ArrivalsRun(w: World, id: nat, message: SharedMessage)
    requires id !in w.tasks && !w.rt.gate.Pushing? && message.shared.seqNo >= NextSeq(w) && message.reason != "snapshot"
    ensures var w' := ActAll(w, Arrivals(w, id, message));
      && Unanswered(w, Arrivals(w, id, message)) && NoEdit(Arrivals(w, id, message))
      && w'.rt.generation == w.rt.generation && w'.local == w.local
      && (forall other :: other in w.tasks ==> other in w'.tasks && w'.tasks[other] == w.tasks[other])
      && (message.shared.updatedBy == "d" && message.reason == "push" ==> w'.rt.synced == Some(IdsOf(message)))
      && (message.shared.updatedBy != "d" && message.reason == "command" && w.rt.gate == Open ==>
            id in w'.tasks && w'.tasks[id] == ReadyToApply(w.rt.generation, message.shared))
  {
    var connect, receive, take :=
        Connect(w.rt.generation, "d"), Receive(id, w.rt.generation, message), TakeShared(id, false, false);
    var w1 := w.(rt := Connected(w.rt, w.rt.generation, "d"));
    var w2 := Becomes(w1, id, Received(w.rt.generation, message));
    Prepend(w2, take, []);
    Prepend(w1, receive, [take] + []);
    Prepend(w, connect, [receive] + ([take] + []));
    TakenMessage(w2, id);
    assert ActAll(w, Arrivals(w, id, message)) == Act(w2, take);
  }

  /** Taking a message of the current generation that is not a first snapshot. */
  lemma TakenMessage(w: World, id: nat)
    requires id in w.tasks && w.tasks[id].Received? && !w.rt.gate.Pushing? && w.rt.device == Some("d")
    requires w.tasks[id].generation == w.rt.generation
    requires w.tasks[id].message.shared.seqNo >= NextSeq(w) && w.tasks[id].message.reason != "snapshot"
    ensures var w', message := Act(w, TakeShared(id, false, false)), w.tasks[id].message;
      && w'.rt.generation == w.rt.generation && w'.local == w.local
      && (forall other :: other in w.tasks && other != id ==> other in w'.tasks && w'.tasks[other] == w.tasks[other])
      && (message.shared.updatedBy == "d" && message.reason == "push" ==> w'.rt.synced == Some(IdsOf(message)))
      && (message.shared.updatedBy != "d" && message.reason == "command" && w.rt.gate == Open ==>
            id in w'.tasks && w'.tasks[id] == ReadyToApply(w.rt.generation, message.shared))
  {}

  /** A run by which the handler assigns its queue. */
  lemma AssignReachable(w: World, id: nat) returns (actions: seq<Action>)
    requires id in w.tasks && AssignsLater(w.tasks[id], w.rt.generation, w.local)
    requires w.rt.gate.Pushing? ==> !w.tasks[id].Deciding? && !w.tasks[id].Comparing?
    ensures Unanswered(w, actions) && NoEdit(actions) && ActAll(w, actions).local != w.local
    decreases if w.tasks[id].Deciding? then 4 else if w.tasks[id].Comparing? then 3
      else if w.tasks[id].ReadyToApply? then 2 else if w.tasks[id].HasDevice? then 1 else 0, 1
  {
    match w.tasks[id] {
      case Deciding(_, _, _) =>
        var rest := AssignReachable(Act(w, ReadLocal(id)), id);
        Prepend(w, ReadLocal(id), rest);
        actions := [ReadLocal(id)] + rest;
      case Comparing(_, message, _, own) =>
        actions := AssignAfterEcho(w, id, own);
      case ReadyToApply(_, _) =>
        var connect := Connect(w.rt.generation, "d");
        var w1 := Act(w, connect);
        var rest := AssignReachable(Act(w1, ReadDevice(id)), id);
        Prepend(w1, ReadDevice(id), rest);
        Prepend(w, connect, [ReadDevice(id)] + rest);
        actions := [connect] + ([ReadDevice(id)] + rest);
      case HasDevice(_, _, _) =>
        var rest := AssignReachable(Act(w, BeginApply(id)), id);
        Prepend(w, BeginApply(id), rest);
        actions := [BeginApply(id)] + rest;
      case InBackend(_, _, _) =>
        Prepend(w, Assign(id, Completed), []);
        actions := [Assign(id, Completed)] + [];
    }
  }

  /** An echo of the queue that the handler has read makes it apply the server's. */
  lemma AssignAfterEcho(w: World, id: nat, own: seq<string>) returns (actions: seq<Action>)
    requires id in w.tasks && w.tasks[id].Comparing? && w.tasks[id].local == own && !w.rt.gate.Pushing?
    requires AssignsLater(w.tasks[id], w.rt.generation, w.local)
    ensures Unanswered(w, actions) && NoEdit(actions) && ActAll(w, actions).local != w.local
    decreases 3, 0
  {
    var new' := FreshId(w.tasks.Keys);
    var echo := Showing(own, NextSeq(w), "d", "push");
    EntriesIds(own);
    ArrivalsRun(w, new', echo);
    var w1 := ActAll(w, Arrivals(w, new', echo));
    var w2 := Act(w1, Compare(id, false, false));
    assert Classified(w1, own, w.tasks[id].message) == ApplyServer;
    assert w2.tasks[id] == ReadyToApply(w.rt.generation, w.tasks[id].message.shared);
    var rest := AssignReachable(w2, id);
    Prepend(w1, Compare(id, false, false), rest);
    Append(w, Arrivals(w, new', echo), [Compare(id, false, false)] + rest);
    actions := Arrivals(w, new', echo) + ([Compare(id, false, false)] + rest);
  }

  lemma Append(w: World, a: seq<Action>, b: seq<Action>)
    requires Unanswered(w, a) && Unanswered(ActAll(w, a), b)
    ensures Unanswered(w, a + b) && ActAll(w, a + b) == ActAll(ActAll(w, a), b)
    ensures NoEdit(a) && NoEdit(b) ==> NoEdit(a + b)
  {
    ActAllConcat(w, a, b);
    NoEditConcat(a, b);
    UnansweredConcat(w, a, b);
  }

  lemma {:induction false} UnansweredConcat(w: World, a: seq<Action>, b: seq<Action>)
    requires Unanswered(w, a) && Unanswered(ActAll(w, a), b)
    ensures Unanswered(w, a + b)
    decreases |a|
  {
    if a == [] {
      assert a + b == b;
    } else {
      Unfolds(w, a);
      UnansweredConcat(Act(w, a[0]), a[1..], b);
      Unfolds(w, a + b);
      assert (a + b)[1..] == a[1..] + b;
    }
  }

  lemma Unfolds(w: World, actions: seq<Action>)
    requires actions != []
    ensures ActAll(w, actions) == ActAll(Act(w, actions[0]), actions[1..])
    ensures Unanswered(w, actions) <==> !Answers(w, actions[0]) && Unanswered(Act(w, actions[0]), actions[1..])
  {}

  lemma NoEditConcat(a: seq<Action>, b: seq<Action>)
    ensures NoEdit(a) && NoEdit(b) ==> NoEdit(a + b)
  {}

  /** A run that changes the local queue, from a handler that can still assign another one. */
  lemma ChangeByAssignment(w: World, id: nat) returns (actions: seq<Action>)
    requires id in w.tasks && AssignsLater(w.tasks[id], w.rt.generation, w.local)
    ensures Unanswered(w, actions) && NoEdit(actions) && ActAll(w, actions).local != w.local
  {
    if w.rt.gate.Pushing? {
      var failed := CommandFailed(w.rt.gate.commandId, "");
      var rest := AssignReachable(Act(w, failed), id);
      Prepend(w, failed, rest);
      actions := [failed] + rest;
    } else {
      actions := AssignReachable(w, id);
    }
  }

  /** A run that changes the local queue, from an automatic push that fails and reopens the gate. */
  lemma ChangeByReopening(w: World) returns (actions: seq<Action>)
    requires w.rt.gate == Pushing("x", false)
    ensures Unanswered(w, actions) && NoEdit(actions) && ActAll(w, actions).local != w.local
  {
    var failed := CommandFailed("x", "");
    var w1 := Act(w, failed);
    var new' := FreshId(w.tasks.Keys);
    var other := w.local + ["x"];
    var message := Showing(other, NextSeq(w1), "", "command");
    EntriesIds(other);
    ArrivalsRun(w1, new', message);
    var w2 := ActAll(w1, Arrivals(w1, new', message));
    assert |other| == |w.local| + 1;
    var rest := AssignReachable(w2, new');
    Append(w1, Arrivals(w1, new', message), rest);
    Prepend(w, failed, Arrivals(w1, new', message) + rest);
    actions := [failed] + (Arrivals(w1, new', message) + rest);
  }

  /**
   Every run without an edit leaves the local queue alone until the question is answered if
   and only if, when the gate closes, no handler is still to assign another queue (it is in
   the backend, or on its way there under the current generation) and none can still push.
   */
  lemma LocalKeptExactly(w: World)
    requires Held(w)
    ensures (forall actions :: Unanswered(w, actions) && NoEdit(actions) ==> ActAll(w, actions).local == w.local)
      <==> LocalSafe(w)
  {
    if CanStillAssign(w) {
      var id :| id in w.tasks && AssignsLater(w.tasks[id], w.rt.generation, w.local);
      var actions := ChangeByAssignment(w, id);
      assert ActAll(w, actions).local != w.local;
    } else if CanStillPush(w, false) {
      var id :| id in w.tasks && PushesLater(w.tasks[id], w.local, false);
      var first := PushReachable(w, id);
      var rest := ChangeByReopening(ActAll(w, first));
      Append(w, first, rest);
      assert ActAll(w, first + rest).local != w.local;
    } else {
      forall actions | Unanswered(w, actions) && NoEdit(actions)
        ensures ActAll(w, actions).local == w.local
      {
        LocalSafeRun(w, actions);
      }
    }
  }

  // ----------------------------------------------------------------- the question

  /** AskUser closes the gate and ends its handler. */
  lemma AskCloses(w: World, id: nat, pushId: string, readable: bool)
    requires id in w.tasks && w.tasks[id] == Cleared(w.rt.generation, false)
    ensures Act(w, CloseGate(id, pushId, readable)) == Done(w.(rt := ResolutionBegun(w.rt, w.rt.generation)), id)
    ensures Act(w, CloseGate(id, pushId, readable)).rt.gate == AwaitingChoice(None)
  {}

  /**
   Once AskUser closes the gate with no handler left that could push by itself, then until
   the user pulls, the own push is echoed or the connection ends: the gate stays held, no
   further handler passes it, only reports prepared before leave, and without an edit the
   local queue is untouched unless a handler is already on its way to assign another one.
   */
  lemma HoldUntilAnswered(w: World, id: nat, pushId: string, readable: bool, actions: seq<Action>)
    requires id in w.tasks && w.tasks[id] == Cleared(w.rt.generation, false)
    requires var closed := Act(w, CloseGate(id, pushId, readable));
        !CanStillPush(closed, true) && Unanswered(closed, actions)
    ensures var closed := Act(w, CloseGate(id, pushId, readable));
      var w' := ActAll(closed, actions);
      && closed.rt.gate == AwaitingChoice(None) && Held(w')
      && Admitted(w') <= Admitted(closed)
      && closed.sent <= w'.sent && SameReports(Outgoing(closed), Outgoing(w'))
      && (NoUserPush(actions) ==> Outgoing(w') == Outgoing(closed))
      && (NoEdit(actions) && !CanStillAssign(closed) ==> w'.local == closed.local)
  {
    var closed := Act(w, CloseGate(id, pushId, readable));
    AskCloses(w, id, pushId, readable);
    HoldRun(closed, actions);
    if NoUserPush(actions) {
      AskedRun(closed, actions);
    }
    if NoEdit(actions) && !CanStillAssign(closed) {
      if CanStillPush(closed, false) {
        PushableWithoutEdit(closed);
      }
      LocalSafeRun(closed, actions);
    }
  }

  lemma PushableWithoutEdit(w: World)
    requires CanStillPush(w, false)
    ensures CanStillPush(w, true)
  {
    var id :| id in w.tasks && PushesLater(w.tasks[id], w.local, false);
    assert PushesLater(w.tasks[id], w.local, true);
  }
}
