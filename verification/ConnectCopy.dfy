/**
 The synced copy: the local queue is the one last applied from, or pushed to, the shared
 queue.  What keeps it step by step, over runs, and exactly when it survives.
 */
module ConnectCopy {
  import opened Wrappers
  import opened Playback
  import opened ConnectRuntime
  import opened ConnectWorld

  /** The local queue is the copy last applied from, or pushed to, the shared queue. */
  predicate SyncedCopy(w: World) {
    w.rt.synced == Some(w.local)
  }

  /** The queue that a handler in the backend carries. */
  function Carries(t: Task): seq<string>
    requires t.InBackend?
  {
    QueueIds(t.shared.state.queue)
  }

  predicate InBackendAt(w: World, id: nat) {
    id in w.tasks && w.tasks[id].InBackend?
  }

  /** The handler takes the own push of a queue. */
  predicate TakesOwnPush(w: World, id: nat) {
    && id in w.tasks && w.tasks[id].Received? && TakesShared(w.rt, w.tasks[id].generation, w.tasks[id].message)
    && IsOwnPush(w.rt, w.tasks[id].message)
  }

  predicate OwnPushOfAnother(w: World, id: nat) {
    TakesOwnPush(w, id) && QueueIds(w.tasks[id].message.shared.state.queue) != w.local
  }

  // ------------------------------------------------------------------ step by step

  /** What takes the copy away. */
  predicate LosesCopy(w: World, a: Action) {
    match a
    case Edit(local) => local != w.local
    case Forget => true
    case Clear(id) => id in w.tasks && w.tasks[id].Decided?
    case Assign(id, application) =>
      && InBackendAt(w, id) && Carries(w.tasks[id]) != w.local
      && (application == Completed || (application == Unplayable && StartsTrack(w.tasks[id])))
    case Record(id) =>
      id in w.tasks && w.tasks[id].Recording? && w.tasks[id].generation == w.rt.generation && w.tasks[id].ids != w.local
    case TakeShared(id, _, _) => OwnPushOfAnother(w, id)
    case _ => false
  }

  /**
   A synced copy is kept by an action exactly when it is no edit, switching off, decision
   carried out, assignment (played or not) or record of another queue, or echo of another queue.
   */
  lemma CopyKeptExactly(w: World, a: Action)
    requires SyncedCopy(w)
    ensures SyncedCopy(Act(w, a)) <==> !LosesCopy(w, a)
  {
    if a.TakeShared? {
      CopyKeptByMessage(w, a.id, a.preserveResume, a.preserveActive);
    } else if a.Assign? || a.Record? {
      CopyKeptByApply(w, a);
    } else {
      CopyKeptByOther(w, a);
    }
  }

  lemma CopyKeptByApply(w: World, a: Action)
    requires SyncedCopy(w) && (a.Assign? || a.Record?)
    ensures SyncedCopy(Act(w, a)) <==> !LosesCopy(w, a)
  {}

  lemma CopyKeptByOther(w: World, a: Action)
    requires SyncedCopy(w) && !a.TakeShared? && !a.Assign? && !a.Record?
    ensures SyncedCopy(Act(w, a)) <==> !LosesCopy(w, a)
  {}

  lemma CopyKeptByMessage(w: World, id: nat, preserveResume: bool, preserveActive: bool)
    requires SyncedCopy(w)
    ensures SyncedCopy(Act(w, TakeShared(id, preserveResume, preserveActive))) <==> !OwnPushOfAnother(w, id)
  {}

  /** A record made under the current generation, or an echo of the local queue, makes the copy. */
  lemma CopyMade(w: World, id: nat, preserveResume: bool, preserveActive: bool)
    requires id in w.tasks
    ensures w.tasks[id].Recording? && w.tasks[id].ids == w.local ==>
      (SyncedCopy(Act(w, Record(id))) <==> w.tasks[id].generation == w.rt.generation || SyncedCopy(w))
    ensures TakesOwnPush(w, id) && !OwnPushOfAnother(w, id)
        ==> SyncedCopy(Act(w, TakeShared(id, preserveResume, preserveActive)))
  {}

  /** An apply that assigns the queue and then cannot play keeps the copy exactly when it carries the local queue. */
  lemma FailedApplyExactly(w: World, id: nat)
    requires SyncedCopy(w) && InBackendAt(w, id) && StartsTrack(w.tasks[id])
    ensures var w' := ActAll(w, [Assign(id, Unplayable), EndApply(id)]);
      && (SyncedCopy(w') <==> Carries(w.tasks[id]) == w.local)
      && w'.local == Carries(w.tasks[id]) && w'.rt.synced == w.rt.synced && id !in w'.tasks && SameBut(w, w', id)
  {
    ActTwo(w, Assign(id, Unplayable), EndApply(id));
  }

  // ------------------------------------------------------------- the copy over runs

  /** The backend has been assigned and the record is still to come. */
  predicate Settling(t: Task) {
    t.Recording? || (t.Ending? && t.result.Some?)
  }

  function SettlingIds(t: Task): seq<string>
    requires Settling(t)
  {
    if t.Recording? then t.ids else t.result.value
  }

  function Settlers(w: World): set<nat> {
    set id | id in w.tasks && Settling(w.tasks[id])
  }

  /** The handler's record will count. */
  predicate Records(t: Task, generation: nat) {
    Settling(t) && t.generation == generation
  }

  predicate Pending(w: World) {
    exists id :: id in w.tasks && Records(w.tasks[id], w.rt.generation)
  }

  predicate Reading(w: World) {
    exists id :: id in w.tasks && w.tasks[id].Comparing?
  }

  /** Some apply in the backend carries another queue. */
  predicate CarriesAnother(w: World) {
    exists id :: id in w.tasks && InBackendAt(w, id) && Carries(w.tasks[id]) != w.local
  }

  /** Some apply in the backend belongs to an earlier connection. */
  predicate StaleApply(w: World) {
    exists id :: id in w.tasks && InBackendAt(w, id) && w.tasks[id].generation != w.rt.generation
  }

  /** What a handler may be doing while the copy stands (`copied`) or is about to be recorded. */
  predicate InStep(t: Task, generation: nat, local: seq<string>, copied: bool) {
    && !t.Decided?
    && (t.Comparing? ==> copied && t.local == local)
    && (t.InBackend? ==> t.generation <= generation && (t.generation == generation || Carries(t) == local))
    && (Settling(t) ==> t.generation <= generation && SettlingIds(t) == local)
  }

  /** The copy stands, or a handler is about to record it. */
  predicate CopyOnTrack(w: World) {
    && (forall id :: id in w.tasks ==> InStep(w.tasks[id], w.rt.generation, w.local, SyncedCopy(w)))
    && (SyncedCopy(w) || Pending(w))
  }

  /**
   What disturbs it: another queue by an edit, an own push or an apply that cannot play;
   switching off; a restart while an apply of another queue is in the backend or its record
   is still to come; and overlaps, in which another queue is assigned while a handler has
   yet to record, compare or assign, or the queue is read before it is recorded.
   */
  predicate Disturbs(w: World, a: Action) {
    match a
    case Edit(local) => local != w.local
    case Forget => !Pending(w) || Reading(w)
    case Restart => !SyncedCopy(w) || CarriesAnother(w)
    case Assign(id, application) =>
      && InBackendAt(w, id) && Carries(w.tasks[id]) != w.local
      && ((application == Unplayable && StartsTrack(w.tasks[id]))
          || (application == Completed && (Settlers(w) != {} || Reading(w) || StaleApply(w))))
    case ReadLocal(id) => id in w.tasks && w.tasks[id].Deciding? && !SyncedCopy(w)
    case TakeShared(id, _, _) => OwnPushOfAnother(w, id) && (!Pending(w) || Reading(w))
    case _ => false
  }

  predicate Undisturbed(w: World, actions: seq<Action>)
    decreases |actions|
  {
    actions == [] || (!Disturbs(w, actions[0]) && Undisturbed(Act(w, actions[0]), actions[1..]))
  }

  lemma TrackStep(w: World, a: Action)
    requires CopyOnTrack(w) && !Disturbs(w, a)
    ensures CopyOnTrack(Act(w, a))
  {
    if !OfHandler(a) {
      TrackRuntime(w, a);
    } else {
      HandlerActs(w, a);
      if a.id in w.tasks {
        assert InStep(w.tasks[a.id], w.rt.generation, w.local, SyncedCopy(w));
        if a.Assign? {
          TrackAssign(w, a.id, a.application);
        } else if a.TakeShared? {
          TrackMessage(w, a.id, a.preserveResume, a.preserveActive);
        } else {
          QuietHandler(w, a);
          TrackBut(w, Act(w, a), a.id);
        }
      }
    }
  }

  /** One handler has moved on, the local queue is the same, and the copy has not been lost. */
  lemma TrackBut(w: World, w': World, id: nat)
    requires CopyOnTrack(w) && SameBut(w, w', id) && id in w.tasks
    requires w'.local == w.local && w'.rt.generation == w.rt.generation && (SyncedCopy(w) ==> SyncedCopy(w'))
    requires id in w'.tasks ==> InStep(w'.tasks[id], w'.rt.generation, w'.local, SyncedCopy(w'))
    requires Records(w.tasks[id], w.rt.generation) ==>
               SyncedCopy(w') || (id in w'.tasks && Records(w'.tasks[id], w'.rt.generation))
    ensures CopyOnTrack(w')
  {
    forall other | other in w'.tasks
      ensures InStep(w'.tasks[other], w'.rt.generation, w'.local, SyncedCopy(w'))
    {
      if other != id {
        assert InStep(w.tasks[other], w.rt.generation, w.local, SyncedCopy(w));
      }
    }
    if !SyncedCopy(w') {
      var other :| other in w.tasks && Records(w.tasks[other], w.rt.generation);
      assert other in w'.tasks && Records(w'.tasks[other], w'.rt.generation);
    }
  }

  lemma QuietHandler(w: World, a: Action)
    requires OfHandler(a) && !a.Assign? && !a.TakeShared? && a.id in w.tasks && !Disturbs(w, a)
    requires InStep(w.tasks[a.id], w.rt.generation, w.local, SyncedCopy(w))
    ensures var w' := Act(w, a);
      && w'.local == w.local && w'.rt.generation == w.rt.generation && (SyncedCopy(w) ==> SyncedCopy(w'))
      && (a.id in w'.tasks ==> InStep(w'.tasks[a.id], w'.rt.generation, w'.local, SyncedCopy(w')))
      && (Records(w.tasks[a.id], w.rt.generation) ==>
            SyncedCopy(w') || (a.id in w'.tasks && Records(w'.tasks[a.id], w'.rt.generation)))
  {
    if a.Compare? && w.tasks[a.id].Comparing? {
      assert Classified(w, w.tasks[a.id].local, w.tasks[a.id].message) == ApplyServer;
    }
  }

  lemma TrackMessage(w: World, id: nat, preserveResume: bool, preserveActive: bool)
    requires CopyOnTrack(w) && !Disturbs(w, TakeShared(id, preserveResume, preserveActive)) && id in w.tasks
    ensures CopyOnTrack(Act(w, TakeShared(id, preserveResume, preserveActive)))
  {
    var a := TakeShared(id, preserveResume, preserveActive);
    HandlerActs(w, a);
    MessageTaken(w, id, preserveResume, preserveActive);
    if w.tasks[id].Received? {
      if OwnPushOfAnother(w, id) {
        TrackPending(w, Act(w, a), id);
      } else {
        TrackBut(w, Act(w, a), id);
      }
    }
  }

  /** Nobody compares and a record is to come, so the record itself may change. */
  lemma TrackPending(w: World, w': World, id: nat)
    requires CopyOnTrack(w) && SameBut(w, w', id) && Pending(w) && !Reading(w)
    requires w'.local == w.local && w'.rt.generation == w.rt.generation
    requires id in w.tasks ==> !Records(w.tasks[id], w.rt.generation)
    requires id in w'.tasks ==> w'.tasks[id].Deciding? || w'.tasks[id].ReadyToApply?
    ensures CopyOnTrack(w')
  {
    forall other | other in w'.tasks
      ensures InStep(w'.tasks[other], w'.rt.generation, w'.local, SyncedCopy(w'))
    {
      if other != id {
        assert InStep(w.tasks[other], w.rt.generation, w.local, SyncedCopy(w)) && !w.tasks[other].Comparing?;
      }
    }
    var other :| other in w.tasks && Records(w.tasks[other], w.rt.generation);
    assert other in w'.tasks && Records(w'.tasks[other], w'.rt.generation);
  }

  /** A taken message leaves its handler before any of the guarded steps. */
  lemma MessageTaken(w: World, id: nat, preserveResume: bool, preserveActive: bool)
    ensures var w' := Act(w, TakeShared(id, preserveResume, preserveActive));
      && w'.local == w.local && w'.rt.generation == w.rt.generation
      && (SyncedCopy(w) && !OwnPushOfAnother(w, id) ==> SyncedCopy(w'))
      && (id in w.tasks && !w.tasks[id].Received? ==> w' == w)
      && (id in w.tasks && w.tasks[id].Received? && id in w'.tasks ==>
            w'.tasks[id].Deciding? || w'.tasks[id].ReadyToApply?)
  {}

  lemma TrackAssign(w: World, id: nat, application: Application)
    requires CopyOnTrack(w) && !Disturbs(w, Assign(id, application)) && id in w.tasks
    ensures CopyOnTrack(Act(w, Assign(id, application)))
  {
    var a := Assign(id, application);
    HandlerActs(w, a);
    if InBackendAt(w, id) {
      assert InStep(w.tasks[id], w.rt.generation, w.local, SyncedCopy(w));
      if application == Completed && Carries(w.tasks[id]) != w.local {
        TrackAnother(w, id);
      } else {
        TrackBut(w, Act(w, a), id);
      }
    }
  }

  /** Another queue is assigned while no other handler is in the way. */
  lemma TrackAnother(w: World, id: nat)
    requires CopyOnTrack(w) && InBackendAt(w, id) && Carries(w.tasks[id]) != w.local
    requires Settlers(w) == {} && !Reading(w) && !StaleApply(w)
    ensures CopyOnTrack(Act(w, Assign(id, Completed)))
  {
    var w' := Act(w, Assign(id, Completed));
    HandlerActs(w, Assign(id, Completed));
    assert InStep(w.tasks[id], w.rt.generation, w.local, SyncedCopy(w));
    assert Records(w'.tasks[id], w'.rt.generation);
    forall other | other in w'.tasks && other != id
      ensures InStep(w'.tasks[other], w'.rt.generation, w'.local, SyncedCopy(w'))
    {
      assert InStep(w.tasks[other], w.rt.generation, w.local, SyncedCopy(w));
      assert other !in Settlers(w) && !w.tasks[other].Comparing?;
      assert w.tasks[other].InBackend? ==> InBackendAt(w, other);
    }
  }

  lemma TrackRuntime(w: World, a: Action)
    requires CopyOnTrack(w) && !Disturbs(w, a) && !OfHandler(a)
    ensures CopyOnTrack(Act(w, a))
  {
    OthersAct(w, a);
    RuntimeKeeps(w, a);
    var w' := Act(w, a);
    assert w'.local == w.local;
    forall id | id in w'.tasks
      ensures InStep(w'.tasks[id], w'.rt.generation, w'.local, SyncedCopy(w'))
    {
      if id in w.tasks {
        assert InStep(w.tasks[id], w.rt.generation, w.local, SyncedCopy(w));
        assert w.tasks[id].InBackend? ==> InBackendAt(w, id);
      }
    }
    if !SyncedCopy(w') {
      var id :| id in w.tasks && Records(w.tasks[id], w.rt.generation);
      assert Records(w'.tasks[id], w'.rt.generation);
    }
  }

  lemma RuntimeKeeps(w: World, a: Action)
    requires !OfHandler(a)
    ensures !a.Forget? ==> Act(w, a).rt.synced == w.rt.synced
    ensures Act(w, a).rt.generation == w.rt.generation + (if a.Restart? then 1 else 0)
  {}

  /** An action leads off the track exactly when it is one of the disturbances. */
  lemma OnTrackExactly(w: World, a: Action)
    requires CopyOnTrack(w)
    ensures CopyOnTrack(Act(w, a)) <==> !Disturbs(w, a)
  {
    if !Disturbs(w, a) {
      TrackStep(w, a);
    } else if a.Restart? {
      DerailedByRestart(w);
    } else if a.Assign? {
      DerailedByAssignment(w, a.id, a.application);
    } else if a.TakeShared? {
      HandlerActs(w, a);
      DerailedByRecord(w, a);
    } else if a.Forget? {
      DerailedByRecord(w, a);
    } else if a.ReadLocal? {
      OutOfStep(Act(w, a), a.id);
    } else {
      DerailedByEdit(w, a);
    }
  }

  /** A handler that is out of step takes the copy off the track. */
  lemma OutOfStep(w: World, id: nat)
    requires id in w.tasks && !InStep(w.tasks[id], w.rt.generation, w.local, SyncedCopy(w))
    ensures !CopyOnTrack(w)
  {}

  lemma StepOf(w: World, id: nat)
    requires CopyOnTrack(w) && id in w.tasks
    ensures InStep(w.tasks[id], w.rt.generation, w.local, SyncedCopy(w))
  {}

  /** A record to come after the step was to come before it. */
  lemma PendingBefore(w: World, w': World)
    requires w'.rt.generation == w.rt.generation
    requires forall id :: id in w'.tasks && Settling(w'.tasks[id]) ==> id in w.tasks && w'.tasks[id] == w.tasks[id]
    ensures Pending(w') ==> Pending(w)
  {
    if id :| id in w'.tasks && Records(w'.tasks[id], w'.rt.generation) {
      assert Records(w.tasks[id], w.rt.generation);
    }
  }

  lemma PendingSettles(w: World)
    ensures Pending(w) ==> Settlers(w) != {}
  {
    if id :| id in w.tasks && Records(w.tasks[id], w.rt.generation) {
      assert id in Settlers(w);
    }
  }

  lemma DerailedByRestart(w: World)
    requires CopyOnTrack(w) && Disturbs(w, Restart)
    ensures !CopyOnTrack(Act(w, Restart))
  {
    var w' := Act(w, Restart);
    if id :| id in w.tasks && InBackendAt(w, id) && Carries(w.tasks[id]) != w.local {
      StepOf(w, id);
      OutOfStep(w', id);
    } else {
      forall id | id in w'.tasks
        ensures !Records(w'.tasks[id], w'.rt.generation)
      {
        StepOf(w, id);
      }
      assert !Pending(w') && !SyncedCopy(w');
    }
  }

  lemma DerailedByAssignment(w: World, id: nat, application: Application)
    requires CopyOnTrack(w) && Disturbs(w, Assign(id, application))
    ensures !CopyOnTrack(Act(w, Assign(id, application)))
  {
    var w' := Act(w, Assign(id, application));
    HandlerActs(w, Assign(id, application));
    StepOf(w, id);
    assert w'.local != w.local && w'.rt.synced == w.rt.synced && w'.rt.generation == w.rt.generation;
    PendingSettles(w);
    if i :| i in Settlers(w) {
      StepOf(w, i);
      OutOfStep(w', i);
    } else if application == Unplayable {
      PendingBefore(w, w');
    } else if i :| i in w.tasks && w.tasks[i].Comparing? {
      StepOf(w, i);
      OutOfStep(w', i);
    } else {
      var i :| i in w.tasks && InBackendAt(w, i) && w.tasks[i].generation != w.rt.generation;
      StepOf(w, i);
      OutOfStep(w', i);
    }
  }

  /** The record is lost, and either nothing restores it or somebody is about to compare with it. */
  lemma DerailedByRecord(w: World, a: Action)
    requires CopyOnTrack(w) && Disturbs(w, a) && (a.Forget? || a.TakeShared?)
    requires a.TakeShared? ==> SameBut(w, Act(w, a), a.id)
    ensures !CopyOnTrack(Act(w, a))
  {
    var w' := Act(w, a);
    assert !SyncedCopy(w');
    if i :| i in w.tasks && w.tasks[i].Comparing? {
      OutOfStep(w', i);
    } else {
      PendingBefore(w, w');
    }
  }

  lemma DerailedByEdit(w: World, a: Action)
    requires CopyOnTrack(w) && a.Edit? && Disturbs(w, a)
    ensures !CopyOnTrack(Act(w, a))
  {
    var w' := Act(w, a);
    if id :| id in w.tasks && Records(w.tasks[id], w.rt.generation) {
      StepOf(w, id);
      OutOfStep(w', id);
    } else {
      assert !Pending(w);
      PendingBefore(w, w');
    }
  }

  lemma {:induction false} TrackRun(w: World, actions: seq<Action>)
    requires CopyOnTrack(w) && Undisturbed(w, actions)
    ensures CopyOnTrack(ActAll(w, actions))
    decreases |actions|
  {
    if actions != [] {
      TrackStep(w, actions[0]);
      TrackRun(Act(w, actions[0]), actions[1..]);
    }
  }

  /** A synced copy with nothing decided, read or recorded, and no apply of another connection. */
  predicate CopyAtRest(w: World) {
    && SyncedCopy(w)
    && forall id :: id in w.tasks ==>
         !w.tasks[id].Decided? && !w.tasks[id].Comparing? && !Settling(w.tasks[id])
         && (w.tasks[id].InBackend? ==> w.tasks[id].generation == w.rt.generation)
  }

  /**
   A synced copy over any undisturbed run, with any number of reconnects and any queue on
   the server: no handler ever decides to ask or to push, the local queue is a synced copy
   or about to be recorded as one, and whoever looks in between applies the server's state.
   */
  lemma CopyRun(w: World, actions: seq<Action>)
    requires CopyAtRest(w) && Undisturbed(w, actions)
    ensures var w' := ActAll(w, actions);
      && (forall id :: id in w'.tasks ==> !w'.tasks[id].Decided?)
      && (forall id :: id in Settlers(w') ==> SettlingIds(w'.tasks[id]) == w'.local)
      && (SyncedCopy(w') || Pending(w'))
      && (Settlers(w') == {} ==> SyncedCopy(w') && forall message :: Classified(w', w'.local, message) == ApplyServer)
  {
    TrackRun(w, actions);
    var w' := ActAll(w, actions);
    forall id | id in w'.tasks
      ensures InStep(w'.tasks[id], w'.rt.generation, w'.local, SyncedCopy(w'))
    {}
    if Pending(w') {
      var id :| id in w'.tasks && Records(w'.tasks[id], w'.rt.generation);
      assert id in Settlers(w');
    }
  }

  // ------------------------------------------------------- the copy, exactly

  /** What handlers do to come to an end: read, compare, assign, end, record. */
  predicate Finishing(a: Action) {
    a.ReadLocal? || a.Compare? || (a.Assign? && a.application == Completed) || a.EndApply? || a.Record?
  }

  predicate AllFinishing(actions: seq<Action>) {
    forall a :: a in actions ==> Finishing(a)
  }

  /** No handler has decided to ask or to push, and once every record is made the copy stands. */
  predicate Sound(w: World) {
    (forall id :: id in w.tasks ==> !w.tasks[id].Decided?) && (Settlers(w) == {} ==> SyncedCopy(w))
  }

  /** A synced copy with nothing decided and nothing to record; applies and comparisons may be under way. */
  predicate CopyStands(w: World) {
    SyncedCopy(w) && Sound(w) && Settlers(w) == {}
  }

  /** All applies in the backend carry the local queue, or all carry one queue and will record it. */
  predicate AppliesAgree(w: World) {
    || !CarriesAnother(w)
    || (!StaleApply(w)
        && forall i, j :: i in w.tasks && j in w.tasks && InBackendAt(w, i) && InBackendAt(w, j) ==>
             Carries(w.tasks[i]) == Carries(w.tasks[j]))
  }

  /** The queues that the backend may hold: the local one, and those that applies carry. */
  function Queues(w: World): set<seq<string>> {
    {w.local} + (set id | id in w.tasks && w.tasks[id].InBackend? :: Carries(w.tasks[id]))
  }

  /** Whatever a handler has read, or may still read, is applied over whatever may be recorded. */
  predicate ReadersAgree(w: World) {
    forall id :: id in w.tasks ==> ReaderAgrees(w.tasks[id], Queues(w))
  }

  predicate ReaderAgrees(t: Task, queues: set<seq<string>>) {
    match t
    case Comparing(_, message, _, own) => forall s :: s in queues ==> Applied(own, message, s)
    case Deciding(_, message, _) => forall own, s :: own in queues && s in queues ==> Applied(own, message, s)
    case _ => true
  }

  predicate Applied(own: seq<string>, message: SharedMessage, synced: seq<string>) {
    ClassifyInitialSnapshot(own, QueueIds(message.shared.state.queue), Some(synced)) == ApplyServer
  }

  /** Between the old queue and the one being applied. */
  predicate Between(w: World, g: nat, old': seq<string>, next: seq<string>) {
    && w.rt.generation == g
    && w.local in {old', next} && w.rt.synced in {Some(old'), Some(next)}
    && (w.rt.synced == Some(next) || Settlers(w) != {} ==> w.local == next)
    && (Settlers(w) == {} ==> SyncedCopy(w))
    && (forall id :: id in w.tasks ==> BetweenTask(w.tasks[id], g, old', next))
  }

  predicate BetweenTask(t: Task, g: nat, old': seq<string>, next: seq<string>) {
    && !t.Decided?
    && (t.InBackend? ==> Carries(t) == next && (old' != next ==> t.generation == g))
    && (Settling(t) ==> SettlingIds(t) == next && (old' != next ==> t.generation == g))
    && ReaderAgrees(t, {old', next})
  }

  lemma BetweenStep(w: World, a: Action, g: nat, old': seq<string>, next: seq<string>)
    requires Between(w, g, old', next) && Finishing(a)
    ensures Between(Act(w, a), g, old', next)
  {
    HandlerActs(w, a);
    if a.id in w.tasks {
      var w' := Act(w, a);
      assert BetweenTask(w.tasks[a.id], g, old', next);
      BetweenHandler(w, a, g, old', next);
      SettlersAfter(w, w', a.id);
      forall id | id in w'.tasks
        ensures BetweenTask(w'.tasks[id], g, old', next)
      {
        if id != a.id {
          assert BetweenTask(w.tasks[id], g, old', next);
        }
      }
    }
  }

  lemma SettlersAfter(w: World, w': World, id: nat)
    requires SameBut(w, w', id)
    ensures Settlers(w') == (Settlers(w) - {id}) + (if id in w'.tasks && Settling(w'.tasks[id]) then {id} else {})
    ensures id in Settlers(w) <==> id in w.tasks && Settling(w.tasks[id])
  {}

  lemma BetweenHandler(w: World, a: Action, g: nat, old': seq<string>, next: seq<string>)
    requires Between(w, g, old', next) && Finishing(a) && a.id in w.tasks
    requires BetweenTask(w.tasks[a.id], g, old', next)
    ensures var w', t := Act(w, a), w.tasks[a.id];
      && w'.rt.generation == g
      && w'.local == (if a.Assign? && t.InBackend? then next else w.local)
      && w'.rt.synced == (if a.Record? && t.Recording? && t.generation == g then Some(next) else w.rt.synced)
      && (a.id in w'.tasks ==> BetweenTask(w'.tasks[a.id], g, old', next))
      && ((a.id in w'.tasks && Settling(w'.tasks[a.id])) <==>
            (Settling(t) && !(a.Record? && t.Recording?)) || (a.Assign? && t.InBackend?))
  {
    if a.Compare? && w.tasks[a.id].Comparing? {
      var t := w.tasks[a.id];
      assert Applied(t.local, t.message, w.rt.synced.value);
      assert Classified(w, t.local, t.message) == ApplyServer;
    }
  }

  lemma {:induction false} BetweenRun(w: World, actions: seq<Action>, g: nat, old': seq<string>, next: seq<string>)
    requires Between(w, g, old', next) && AllFinishing(actions)
    ensures Between(ActAll(w, actions), g, old', next)
    decreases |actions|
  {
    if actions != [] {
      assert actions[0] in actions && forall b :: b in actions[1..] ==> b in actions;
      BetweenStep(w, actions[0], g, old', next);
      BetweenRun(Act(w, actions[0]), actions[1..], g, old', next);
    }
  }

  /** Agreement when the handlers start keeps every interleaving of their ends sound. */
  lemma AgreementSuffices(w: World, actions: seq<Action>)
    requires CopyStands(w) && AppliesAgree(w) && ReadersAgree(w) && AllFinishing(actions)
    ensures Sound(ActAll(w, actions))
  {
    var next := w.local;
    if id :| id in w.tasks && InBackendAt(w, id) && Carries(w.tasks[id]) != w.local {
      next := Carries(w.tasks[id]);
      assert !StaleApply(w);
    }
    forall id | id in w.tasks
      ensures BetweenTask(w.tasks[id], w.rt.generation, w.local, next)
    {
      assert id !in Settlers(w);
      assert w.tasks[id].InBackend? ==> InBackendAt(w, id);
      assert ReaderAgrees(w.tasks[id], Queues(w));
      assert {w.local, next} <= Queues(w);
    }
    BetweenRun(w, actions, w.rt.generation, w.local, next);
    var w' := ActAll(w, actions);
    forall id | id in w'.tasks
      ensures !w'.tasks[id].Decided?
    {
      assert BetweenTask(w'.tasks[id], w.rt.generation, w.local, next);
    }
  }

  /** An apply to its end. */
  function Finish(id: nat): seq<Action> {
    [Assign(id, Completed), EndApply(id), Record(id)]
  }

  lemma FinishRun(w: World, id: nat)
    requires InBackendAt(w, id)
    ensures var w' := ActAll(w, Finish(id));
      && AllFinishing(Finish(id)) && SameBut(w, w', id) && id !in w'.tasks
      && w'.rt.generation == w.rt.generation && w'.local == Carries(w.tasks[id])
      && w'.rt.synced == (if w.tasks[id].generation == w.rt.generation then Some(Carries(w.tasks[id])) else w.rt.synced)
  {
    var w1 := Act(w, Assign(id, Completed));
    EndRun(w1, id);
    assert Finish(id) == [Assign(id, Completed)] + [EndApply(id), Record(id)];
    ActAllConcat(w, [Assign(id, Completed)], [EndApply(id), Record(id)]);
    ActOne(w, Assign(id, Completed));
  }

  /** The rest of an apply that has assigned its queue. */
  lemma EndRun(w: World, id: nat)
    requires id in w.tasks && w.tasks[id].Ending? && w.tasks[id].result.Some?
    ensures var w' := ActAll(w, [EndApply(id), Record(id)]);
      && SameBut(w, w', id) && id !in w'.tasks && w'.rt.generation == w.rt.generation && w'.local == w.local
      && w'.rt.synced == (if w.tasks[id].generation == w.rt.generation then w.tasks[id].result else w.rt.synced)
  {
    ActTwo(w, EndApply(id), Record(id));
  }

  /** An apply of an earlier connection that carries another queue ends unrecorded. */
  lemma StaleDisagrees(w: World, id: nat) returns (actions: seq<Action>)
    requires CopyStands(w) && InBackendAt(w, id) && w.tasks[id].generation != w.rt.generation
    requires Carries(w.tasks[id]) != w.local
    ensures AllFinishing(actions) && !Sound(ActAll(w, actions))
  {
    actions := Finish(id);
    FinishRun(w, id);
    assert Settlers(ActAll(w, actions)) <= Settlers(w);
  }

  /** Two applies of different queues: the one that assigns first records last. */
  lemma OverlapDisagrees(w: World, x: nat, y: nat) returns (actions: seq<Action>)
    requires CopyStands(w) && InBackendAt(w, x) && InBackendAt(w, y) && Carries(w.tasks[x]) != Carries(w.tasks[y])
    requires w.tasks[x].generation == w.rt.generation
    ensures AllFinishing(actions) && !Sound(ActAll(w, actions))
  {
    var w1 := Act(w, Assign(x, Completed));
    assert InBackendAt(w1, y);
    FinishRun(w1, y);
    var w2 := ActAll(w1, Finish(y));
    EndRun(w2, x);
    var last := [EndApply(x), Record(x)];
    actions := [Assign(x, Completed)] + (Finish(y) + last);
    ActOne(w, Assign(x, Completed));
    ActAllConcat(w1, Finish(y), last);
    ActAllConcat(w, [Assign(x, Completed)], Finish(y) + last);
    assert Settlers(ActAll(w, actions)) <= Settlers(w);
  }

  lemma AppliesDisagree(w: World) returns (actions: seq<Action>)
    requires CopyStands(w) && !AppliesAgree(w)
    ensures AllFinishing(actions) && !Sound(ActAll(w, actions))
  {
    var i :| i in w.tasks && InBackendAt(w, i) && Carries(w.tasks[i]) != w.local;
    if w.tasks[i].generation != w.rt.generation {
      actions := StaleDisagrees(w, i);
    } else if k :| k in w.tasks && InBackendAt(w, k) && w.tasks[k].generation != w.rt.generation {
      if Carries(w.tasks[k]) != w.local {
        actions := StaleDisagrees(w, k);
      } else {
        actions := OverlapDisagrees(w, i, k);
      }
    } else {
      var x, y :| x in w.tasks && y in w.tasks && InBackendAt(w, x) && InBackendAt(w, y)
                  && Carries(w.tasks[x]) != Carries(w.tasks[y]);
      actions := OverlapDisagrees(w, x, y);
    }
  }

  lemma ComparesToDecide(w: World, id: nat)
    requires id in w.tasks && w.tasks[id].Comparing? && w.rt.synced.Some?
    requires !Applied(w.tasks[id].local, w.tasks[id].message, w.rt.synced.value)
    ensures !Sound(Act(w, Compare(id, false, false)))
  {
    assert Act(w, Compare(id, false, false)).tasks[id].Decided?;
  }

  /** The comparison comes after the record of another queue. */
  lemma ComparesAfterRecord(w: World, id: nat, applying: nat) returns (actions: seq<Action>)
    requires CopyStands(w) && id in w.tasks && w.tasks[id].Comparing? && InBackendAt(w, applying)
    requires w.tasks[applying].generation == w.rt.generation
    requires !Applied(w.tasks[id].local, w.tasks[id].message, Carries(w.tasks[applying]))
    ensures AllFinishing(actions) && !Sound(ActAll(w, actions))
  {
    FinishRun(w, applying);
    var w' := ActAll(w, Finish(applying));
    ComparesToDecide(w', id);
    ActOne(w', Compare(id, false, false));
    ActAllConcat(w, Finish(applying), [Compare(id, false, false)]);
    actions := Finish(applying) + [Compare(id, false, false)];
  }

  /** The queue is read after the assignment of another one and compared before its record. */
  lemma ReadsBeforeRecord(w: World, id: nat, applying: nat) returns (actions: seq<Action>)
    requires CopyStands(w) && id in w.tasks && w.tasks[id].Deciding? && InBackendAt(w, applying)
    requires !Applied(Carries(w.tasks[applying]), w.tasks[id].message, w.local)
    ensures AllFinishing(actions) && !Sound(ActAll(w, actions))
  {
    actions := [Assign(applying, Completed), ReadLocal(id), Compare(id, false, false)];
    var w1 := Act(w, Assign(applying, Completed));
    var w2 := Act(w1, ReadLocal(id));
    ComparesToDecide(w2, id);
    ActThree(w, Assign(applying, Completed), ReadLocal(id), Compare(id, false, false));
  }

  /** The queue is read before another one is assigned and compared after its record. */
  lemma ReadsBeforeAssignment(w: World, id: nat, applying: nat) returns (actions: seq<Action>)
    requires CopyStands(w) && id in w.tasks && w.tasks[id].Deciding? && InBackendAt(w, applying)
    requires w.tasks[applying].generation == w.rt.generation
    requires !Applied(w.local, w.tasks[id].message, Carries(w.tasks[applying]))
    ensures AllFinishing(actions) && !Sound(ActAll(w, actions))
  {
    var w1 := Act(w, ReadLocal(id));
    SettlersAfter(w, w1, id);
    assert forall other :: other in w1.tasks ==> !w1.tasks[other].Decided?;
    var rest := ComparesAfterRecord(w1, id, applying);
    ActOne(w, ReadLocal(id));
    ActAllConcat(w, [ReadLocal(id)], rest);
    actions := [ReadLocal(id)] + rest;
  }

  /** The apply that carries a queue other than the local one. */
  lemma CarrierOf(w: World, ids: seq<string>) returns (id: nat)
    requires AppliesAgree(w) && ids in Queues(w) && ids != w.local
    ensures InBackendAt(w, id) && Carries(w.tasks[id]) == ids && w.tasks[id].generation == w.rt.generation
  {
    id :| id in w.tasks && w.tasks[id].InBackend? && Carries(w.tasks[id]) == ids;
    assert InBackendAt(w, id);
  }

  lemma ReadersDisagree(w: World) returns (actions: seq<Action>)
    requires CopyStands(w) && AppliesAgree(w) && !ReadersAgree(w)
    ensures AllFinishing(actions) && !Sound(ActAll(w, actions))
  {
    var id :| id in w.tasks && !ReaderAgrees(w.tasks[id], Queues(w));
    match w.tasks[id] {
      case Comparing(_, message, _, own) =>
        var s :| s in Queues(w) && !Applied(own, message, s);
        if s == w.local {
          ComparesToDecide(w, id);
          ActOne(w, Compare(id, false, false));
          actions := [Compare(id, false, false)];
        } else {
          var applying := CarrierOf(w, s);
          actions := ComparesAfterRecord(w, id, applying);
        }
      case Deciding(_, message, _) =>
        var own, s :| own in Queues(w) && s in Queues(w) && !Applied(own, message, s);
        if s != w.local {
          var applying := CarrierOf(w, s);
          SameCarrier(w, own, s);
          actions := ReadsBeforeAssignment(w, id, applying);
        } else {
          var applying := CarrierOf(w, own);
          actions := ReadsBeforeRecord(w, id, applying);
        }
    }
  }

  /** Agreeing applies carry one other queue at most. */
  lemma SameCarrier(w: World, a: seq<string>, b: seq<string>)
    requires AppliesAgree(w) && a in Queues(w) && b in Queues(w) && a != b && b != w.local
    ensures a == w.local
  {
    if a != w.local {
      var i := CarrierOf(w, a);
      var j := CarrierOf(w, b);
    }
  }

  /**
   The handlers under way, left to themselves and interleaved in any order, decide neither
   to ask nor to push and end with the copy standing if and only if, at the start, the
   applies agree and every comparison would apply whatever they may leave.
   */
  lemma CopyStandsExactly(w: World)
    requires CopyStands(w)
    ensures (forall actions :: AllFinishing(actions) ==> Sound(ActAll(w, actions)))
      <==> AppliesAgree(w) && ReadersAgree(w)
  {
    if !AppliesAgree(w) {
      var actions := AppliesDisagree(w);
      assert !Sound(ActAll(w, actions));
    } else if !ReadersAgree(w) {
      var actions := ReadersDisagree(w);
      assert !Sound(ActAll(w, actions));
    } else {
      forall actions | AllFinishing(actions)
        ensures Sound(ActAll(w, actions))
      {
        AgreementSuffices(w, actions);
      }
    }
  }

  /** A restart over a copy at rest is harmless if and only if every apply in the backend carries the local queue. */
  lemma RestartExactly(w: World)
    requires CopyAtRest(w)
    ensures (forall actions :: AllFinishing(actions) ==> Sound(ActAll(Act(w, Restart), actions)))
        <==> !CarriesAnother(w)
  {
    var w' := Act(w, Restart);
    assert Settlers(w') == {} == Settlers(w);
    assert CopyStands(w');
    CopyStandsExactly(w');
    if CarriesAnother(w) {
      var id :| id in w.tasks && InBackendAt(w, id) && Carries(w.tasks[id]) != w.local;
      assert InBackendAt(w', id) && Carries(w'.tasks[id]) != w'.local && w'.tasks[id].generation != w'.rt.generation;
    } else {
      assert !CarriesAnother(w');
      OneQueue(w');
    }
  }

  /** With nothing but the local queue about, whoever reads applies the server's. */
  lemma OneQueue(w: World)
    requires !CarriesAnother(w) && forall id :: id in w.tasks ==> !w.tasks[id].Comparing?
    ensures ReadersAgree(w)
  {
    QueuesOf(w);
  }

  lemma QueuesOf(w: World)
    ensures Queues(w) == {w.local} || CarriesAnother(w)
  {
    forall s | s in Queues(w)
      ensures s == w.local || CarriesAnother(w)
    {
      if s != w.local {
        var id :| id in w.tasks && w.tasks[id].InBackend? && Carries(w.tasks[id]) == s;
        assert InBackendAt(w, id);
      }
    }
  }

  // ---------------------------------------------------------------- switching off

  /** The action makes a record: an apply's under the current generation, or the echo of an own push. */
  predicate MakesRecord(w: World, a: Action) {
    match a
    case Record(id) => id in w.tasks && w.tasks[id].Recording? && w.tasks[id].generation == w.rt.generation
    case TakeShared(id, _, _) => TakesOwnPush(w, id)
    case _ => false
  }

  predicate WipesRecord(w: World, a: Action) {
    a.Forget? || (a.Clear? && a.id in w.tasks && w.tasks[a.id].Decided?)
  }

  lemma RecordStep(w: World, a: Action)
    ensures Act(w, a).rt.synced.Some? <==> MakesRecord(w, a) || (w.rt.synced.Some? && !WipesRecord(w, a))
  {
    if OfHandler(a) {
      HandlerRecordStep(w, a);
    }
  }

  lemma HandlerRecordStep(w: World, a: Action)
    requires OfHandler(a)
    ensures Act(w, a).rt.synced.Some? <==> MakesRecord(w, a) || (w.rt.synced.Some? && !WipesRecord(w, a))
  {}

  /** The last of the run's records and wipes is a record; `recorded` before the run. */
  predicate RecordsLast(w: World, actions: seq<Action>, recorded: bool)
    decreases |actions|
  {
    if actions == [] then recorded
    else
      RecordsLast(Act(w, actions[0]), actions[1..], MakesRecord(w, actions[0])
        || (recorded && !WipesRecord(w, actions[0])))
  }

  lemma {:induction false} RecordRun(w: World, actions: seq<Action>)
    ensures ActAll(w, actions).rt.synced.Some? <==> RecordsLast(w, actions, w.rt.synced.Some?)
    decreases |actions|
  {
    if actions != [] {
      RecordStep(w, actions[0]);
      RecordRun(Act(w, actions[0]), actions[1..]);
    }
  }

  /**
   Switching off, over every run between its two steps: the local queue is the user's own
   afterwards if and only if no record under the current generation and no echo of an own
   push came after the last wipe.
   */
  lemma SwitchedOffExactly(w: World, between: seq<Action>)
    ensures ActAll(w, [Forget] + between + [Restart]).rt.synced == None
        <==> !RecordsLast(Act(w, Forget), between, false)
  {
    var w1 := Act(w, Forget);
    ActAllConcat(w, [Forget] + between, [Restart]);
    ActAllConcat(w, [Forget], between);
    ActOne(w, Forget);
    ActOne(ActAll(w1, between), Restart);
    RecordRun(w1, between);
  }
}
