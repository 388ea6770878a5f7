/**
 The cover-art fetch scheduler of src/features/albums/service.ts: at most four fetches
 run at once, started in the order they were queued, one pipeline per key.
 */
module FetchScheduler {
  import opened Wrappers

  const MAX_CONCURRENT_FETCHES := 4

  type Key = string
  type Asset = Option<string>

  datatype Stage = Looking | Queued | Running | Answered(asset: Asset) | Finished

  datatype Pipeline = Pipeline(key: Key, stage: Stage)

  /** `running` are the fetches whose finally-callback has not run; `started` is their starting order. */
  datatype State = State(
    pending: seq<nat>, active: nat, resolved: map<Key, Asset>, inFlight: map<Key, nat>,
    pipelines: seq<Pipeline>, running: set<nat>, started: seq<nat>, queued: seq<nat>)

  // ------------------------------------------------------------- specification

  function WithStage(s: State, p: nat, stage: Stage): State
  {
    if p < |s.pipelines| then s.(pipelines := s.pipelines[p := s.pipelines[p].(stage := stage)]) else s
  }

  /** run(): counts the fetch and starts its task. */
  function Run(s: State, p: nat): State {
    WithStage(s, p, Running).(active := s.active + 1, running := s.running + {p}, started := s.started + [p])
  }

  predicate PendingKnown(s: State) {
    forall k :: 0 <= k < |s.pending| ==> s.pending[k] < |s.pipelines|
  }

  function Drained(s: State): State
    decreases |s.pending|
  {
    if s.active < MAX_CONCURRENT_FETCHES && s.pending != []
    then Drained(Run(s.(pending := s.pending[1..]), s.pending[0]))
    else s
  }

  datatype Event =
    | Request(key: Key)                          // fetchCoverArtAssetUrl
    | LookedUp(pipeline: nat, cached: Option<Asset>)   // Some: answered without a fetch
    | Fetched(pipeline: nat, asset: Asset)       // the fetch's promise is resolved
    | Released(pipeline: nat)                    // its finally-callback
    | Settled(pipeline: nat)                     // the final then: cache the asset, drop the key
    | ClearCache

  predicate At(s: State, p: nat, stage: Stage) {
    p < |s.pipelines| && s.pipelines[p].stage == stage
  }

  function Next(s: State, e: Event): State {
    match e
    case Request(key) =>
      if key in s.resolved || key in s.inFlight then s
      else s.(inFlight := s.inFlight[key := |s.pipelines|], pipelines := s.pipelines + [Pipeline(key, Looking)])
    case LookedUp(p, cached) =>
      if !At(s, p, Looking) then s
      else if cached.Some? then WithStage(s, p, Answered(cached.value))
      else Drained(WithStage(s, p, Queued).(pending := s.pending + [p], queued := s.queued + [p]))
    case Fetched(p, asset) => if At(s, p, Running) then WithStage(s, p, Answered(asset)) else s
    case Released(p) =>
      if p in s.running && p < |s.pipelines| && s.pipelines[p].stage != Running && s.active > 0
      then Drained(s.(active := s.active - 1, running := s.running - {p})) else s
    case Settled(p) =>
      if p < |s.pipelines| && s.pipelines[p].stage.Answered? then
        WithStage(s, p, Finished).(resolved := s.resolved[s.pipelines[p].key := s.pipelines[p].stage.asset],
                                   inFlight := s.inFlight - {s.pipelines[p].key})
      else s
    case ClearCache => s.(resolved := map[])
  }

  const START := State([], 0, map[], map[], [], {}, [], [])

  // --------------------------------------------------------------------- the class

  class Scheduler {
    var pending: seq<nat>
    var active: nat
    var resolved: map<Key, Asset>
    var inFlight: map<Key, nat>
    var pipelines: seq<Pipeline>
    ghost var running: set<nat>
    ghost var started: seq<nat>
    ghost var queued: seq<nat>

    constructor ()
      ensures View() == START
    {
      pending, active, resolved, inFlight, pipelines := [], 0, map[], map[], [];
      running, started, queued := {}, [], [];
    }

    ghost function View(): State
      reads this
    {
      State(pending, active, resolved, inFlight, pipelines, running, started, queued)
    }

    method SetStage(p: nat, stage: Stage)
      requires p < |pipelines|
      modifies this`pipelines
      ensures View() == WithStage(old(View()), p, stage)
    {
      pipelines := pipelines[p := pipelines[p].(stage := stage)];
    }

    /** drainCoverArtFetchQueue. */
    method Drain()
      requires PendingKnown(View())
      modifies this
      ensures View() == Drained(old(View()))
    {
      while active < MAX_CONCURRENT_FETCHES
        invariant PendingKnown(View())
        invariant Drained(View()) == Drained(old(View()))
        decreases |pending|
      {
        if |pending| == 0 {
          return;
        }
        ghost var before := View();
        var p := pending[0];
        pending := pending[1..];
        active := active + 1;
        running, started := running + {p}, started + [p];
        SetStage(p, Running);
        assert View() == Run(before.(pending := before.pending[1..]), before.pending[0]);
      }
    }

    /** enqueueCoverArtFetch. */
    method Enqueue(p: nat)
      requires PendingKnown(View()) && At(View(), p, Looking)
      modifies this
      ensures View() == Next(old(View()), LookedUp(p, None))
    {
      SetStage(p, Queued);
      pending, queued := pending + [p], queued + [p];
      Drain();
    }

    method Release(p: nat)
      requires PendingKnown(View())
      requires p in running && p < |pipelines| && pipelines[p].stage != Running && active > 0
      modifies this
      ensures View() == Next(old(View()), Released(p))
    {
      active := active - 1;
      running := running - {p};
      Drain();
    }

    /** fetchCoverArtAssetUrl up to its first await: the pipeline to wait for, if one is needed. */
    method RequestAsset(key: Key) returns (p: Option<nat>)
      requires PendingKnown(View())
      modifies this
      ensures View() == Next(old(View()), Request(key))
      ensures p.None? <==> key in old(resolved)
      ensures p.Some? ==> key in inFlight && inFlight[key] == p.value
    {
      if key in resolved {
        return None;
      }
      if key in inFlight {
        return Some(inFlight[key]);
      }
      p := Some(|pipelines|);
      inFlight := inFlight[key := |pipelines|];
      pipelines := pipelines + [Pipeline(key, Looking)];
    }

    method Settle(p: nat)
      requires PendingKnown(View()) && p < |pipelines| && pipelines[p].stage.Answered?
      modifies this
      ensures View() == Next(old(View()), Settled(p))
    {
      var Pipeline(key, stage) := pipelines[p];
      resolved := resolved[key := stage.asset];
      inFlight := inFlight - {key};
      SetStage(p, Finished);
    }
  }

  // --------------------------------------------------------------------- invariant

  predicate NoRepeats(s: seq<nat>) {
    forall i, j :: 0 <= i < j < |s| ==> s[i] != s[j]
  }

  /** The bookkeeping of the queue: counts, order, and which pipelines wait. */
  ghost predicate QueueOk(s: State) {
    && |s.running| == s.active <= MAX_CONCURRENT_FETCHES
    && s.started + s.pending == s.queued
    && NoRepeats(s.queued)
    && (forall p :: p in s.queued ==> p < |s.pipelines|)
    && (forall p :: 0 <= p < |s.pipelines| ==> (s.pipelines[p].stage == Queued <==> p in s.pending))
    && (forall p :: 0 <= p < |s.pipelines| ==> (s.pipelines[p].stage == Running ==> p in s.running))
    && (forall p :: 0 <= p < |s.pipelines| ==> (s.pipelines[p].stage == Looking ==> p !in s.queued))
    && (forall p :: p in s.running ==> p in s.started)
  }

  /** Four fetches run whenever one has to wait. */
  predicate Saturated(s: State) {
    s.pending != [] ==> s.active == MAX_CONCURRENT_FETCHES
  }

  /** The key map points at the one unfinished pipeline of each key. */
  ghost predicate KeysOk(s: State) {
    && (forall key :: key in s.inFlight ==>
          && s.inFlight[key] < |s.pipelines| && s.pipelines[s.inFlight[key]].key == key
          && s.pipelines[s.inFlight[key]].stage != Finished)
    && (forall p :: 0 <= p < |s.pipelines| && s.pipelines[p].stage != Finished ==>
          s.pipelines[p].key in s.inFlight && s.inFlight[s.pipelines[p].key] == p)
  }

  ghost predicate Inv(s: State) {
    QueueOk(s) && Saturated(s) && KeysOk(s)
  }

  lemma QueueKnowsPending(s: State)
    requires QueueOk(s)
    ensures PendingKnown(s)
  {
    forall k | 0 <= k < |s.pending|
      ensures s.pending[k] < |s.pipelines|
    {
      assert s.queued[|s.started| + k] == s.pending[k];
      assert s.pending[k] in s.queued;
    }
  }

  lemma HeadIsNew(a: seq<nat>, b: seq<nat>, all: seq<nat>)
    requires all == a + b && NoRepeats(all) && b != []
    ensures b[0] !in a && b[0] !in b[1..] && b[0] in all
  {
    assert all[|a|] == b[0];
    forall i | 0 <= i < |a|
      ensures a[i] != b[0]
    {
      assert all[i] == a[i];
    }
    forall i | 0 <= i < |b[1..]|
      ensures b[1..][i] != b[0]
    {
      assert all[|a| + 1 + i] == b[1..][i];
    }
  }

  /** Starting the head of the queue keeps the books. */
  lemma RunKeepsQueue(s: State)
    requires QueueOk(s) && s.pending != [] && s.active < MAX_CONCURRENT_FETCHES
    ensures s.pending[0] < |s.pipelines|
    ensures QueueOk(Run(s.(pending := s.pending[1..]), s.pending[0]))
  {
    QueueKnowsPending(s);
    var p := s.pending[0];
    var s' := Run(s.(pending := s.pending[1..]), p);
    HeadIsNew(s.started, s.pending, s.queued);
    assert p !in s.running;
    assert s'.started + s'.pending == s.queued;
    forall q | 0 <= q < |s'.pipelines|
      ensures s'.pipelines[q].stage == Queued <==> q in s'.pending
    {
      assert q in s.pending <==> q == p || q in s.pending[1..] by {
        assert s.pending == [p] + s.pending[1..];
      }
    }
  }

  lemma {:induction false} DrainKeepsBooks(s: State)
    requires QueueOk(s) && KeysOk(s) && PendingKnown(s)
    ensures QueueOk(Drained(s)) && KeysOk(Drained(s)) && Saturated(Drained(s)) && Drained(s).queued == s.queued
    decreases |s.pending|
  {
    if s.active < MAX_CONCURRENT_FETCHES && s.pending != [] {
      RunKeepsQueue(s);
      DrainKeepsBooks(Run(s.(pending := s.pending[1..]), s.pending[0]));
    }
  }

  lemma QueueingKeepsBooks(s: State, p: nat)
    requires Inv(s) && At(s, p, Looking)
    ensures var s' := WithStage(s, p, Queued).(pending := s.pending + [p], queued := s.queued + [p]);
        QueueOk(s') && KeysOk(s')
  {
    var s' := WithStage(s, p, Queued).(pending := s.pending + [p], queued := s.queued + [p]);
    assert s'.started + s'.pending == s'.queued;
    assert forall q :: q in s'.queued <==> q in s.queued || q == p;
    assert forall q :: q in s'.pending <==> q in s.pending || q == p;
    forall i, j | 0 <= i < j < |s'.queued|
      ensures s'.queued[i] != s'.queued[j]
    {
      assert s'.queued[i] in s.queued;
    }
    assert forall q :: q in s.running ==> q in s.queued;
  }

  lemma RequestKeepsInv(s: State, key: Key)
    requires Inv(s) && PendingKnown(s)
    ensures Inv(Next(s, Request(key)))
  {
    var s' := Next(s, Request(key));
    assert forall p :: p in s.pending ==> p in s.queued by {
      assert s.queued == s.started + s.pending;
    }
    assert forall p :: 0 <= p < |s.pipelines| ==> s'.pipelines[p] == s.pipelines[p];
  }

  /** Answers and settlements touch neither the queue nor the count. */
  lemma AnswerKeepsInv(s: State, p: nat, stage: Stage)
    requires Inv(s) && p < |s.pipelines|
    requires stage.Answered? && s.pipelines[p].stage in {Looking, Running}
    ensures Inv(WithStage(s, p, stage))
  {
    assert s.pipelines[p].stage != Queued;
  }

  lemma SettleKeepsInv(s: State, p: nat)
    requires Inv(s) && PendingKnown(s) && p < |s.pipelines| && s.pipelines[p].stage.Answered?
    ensures Inv(Next(s, Settled(p)))
  {
    var s' := Next(s, Settled(p));
    assert s.inFlight[s.pipelines[p].key] == p;
    assert QueueOk(s');
    assert KeysOk(s');
  }

  lemma StepKeepsInv(s: State, e: Event)
    requires Inv(s) && PendingKnown(s)
    ensures Inv(Next(s, e)) && PendingKnown(Next(s, e))
  {
    match e {
      case Request(key) => RequestKeepsInv(s, key);
      case LookedUp(p, cached) =>
        if At(s, p, Looking) {
          if cached.Some? {
            AnswerKeepsInv(s, p, Answered(cached.value));
          } else {
            var s' := WithStage(s, p, Queued).(pending := s.pending + [p], queued := s.queued + [p]);
            QueueingKeepsBooks(s, p);
            QueueKnowsPending(s');
            DrainKeepsBooks(s');
          }
        }
      case Fetched(p, asset) =>
        if At(s, p, Running) {
          AnswerKeepsInv(s, p, Answered(asset));
        }
      case Released(p) =>
        if p in s.running && p < |s.pipelines| && s.pipelines[p].stage != Running && s.active > 0 {
          ReleaseKeepsBooks(s, p);
          DrainKeepsBooks(s.(active := s.active - 1, running := s.running - {p}));
        }
      case Settled(p) =>
        if p < |s.pipelines| && s.pipelines[p].stage.Answered? {
          SettleKeepsInv(s, p);
        }
      case ClearCache =>
        assert QueueOk(s.(resolved := map[])) && KeysOk(s.(resolved := map[]));
    }
    QueueKnowsPending(Next(s, e));
  }

  lemma ReleaseKeepsBooks(s: State, p: nat)
    requires Inv(s) && p in s.running && p < |s.pipelines| && s.pipelines[p].stage != Running
    ensures var s' := s.(active := s.active - 1, running := s.running - {p}); QueueOk(s') && KeysOk(s')
  {}

  function RunAll(events: seq<Event>): State {
    if events == [] then START else Next(RunAll(events[..|events| - 1]), events[|events| - 1])
  }

  /** Every reachable state keeps the books. */
  lemma {:induction false} RunKeepsInv(events: seq<Event>)
    ensures Inv(RunAll(events)) && PendingKnown(RunAll(events))
  {
    if events != [] {
      RunKeepsInv(events[..|events| - 1]);
      StepKeepsInv(RunAll(events[..|events| - 1]), events[|events| - 1]);
    }
  }

  /**
   After any sequence of events at most four fetches run, exactly four while any waits;
   the started fetches, each started once, and then the waiting ones are all that were
   queued, in that order; and two pipelines of one key are never unfinished together.
   */
  lemma SchedulerGuarantees(events: seq<Event>, p: nat, q: nat)
    requires var s := RunAll(events); p < |s.pipelines| && q < |s.pipelines|
    ensures var s := RunAll(events);
      && |s.running| <= 4 && (s.pending != [] ==> |s.running| == 4)
      && s.started + s.pending == s.queued && NoRepeats(s.started)
      && (s.pipelines[p].stage == Queued <==> p in s.pending)
      && (s.pipelines[p].key == s.pipelines[q].key && Finished !in {s.pipelines[p].stage, s.pipelines[q].stage} ==>
            p == q)
  {
    RunKeepsInv(events);
    var s := RunAll(events);
    assert s.queued == s.started + s.pending;
    forall i, j | 0 <= i < j < |s.started|
      ensures s.started[i] != s.started[j]
    {
      assert s.queued[i] == s.started[i] && s.queued[j] == s.started[j];
    }
  }

  /**
   At rest nothing is left over: when no fetch runs, every queued fetch has been started,
   and no key is in flight exactly when every pipeline has settled.
   */
  lemma SchedulerAtRest(events: seq<Event>)
    ensures var s := RunAll(events);
      && (s.running == {} ==> s.pending == [] && s.started == s.queued)
      && (s.inFlight == map[] <==> forall p :: 0 <= p < |s.pipelines| ==> s.pipelines[p].stage == Finished)
  {
    RunKeepsInv(events);
    var s := RunAll(events);
    if s.running == {} {
      assert s.pending == [];
      assert s.started + s.pending == s.started;
    }
    if forall p :: 0 <= p < |s.pipelines| ==> s.pipelines[p].stage == Finished {
      assert forall key :: key !in s.inFlight;
    }
  }

  function Rank(stage: Stage): nat {
    match stage
    case Looking => 0
    case Queued => 1
    case Running => 2
    case Answered(_) => 3
    case Finished => 4
  }

  lemma {:induction false} DrainOnlyStarts(s: State, p: nat)
    requires PendingKnown(s) && p < |s.pipelines|
    requires forall k :: 0 <= k < |s.pending| ==> s.pipelines[s.pending[k]].stage == Queued
    requires NoRepeats(s.pending)
    ensures var s' := Drained(s);
      |s'.pipelines| == |s.pipelines| && s'.pipelines[p].key == s.pipelines[p].key
      && (s'.pipelines[p].stage == s.pipelines[p].stage
          || (s.pipelines[p].stage == Queued && s'.pipelines[p].stage == Running))
    decreases |s.pending|
  {
    if s.active < MAX_CONCURRENT_FETCHES && s.pending != [] {
      DrainOnlyStarts(Run(s.(pending := s.pending[1..]), s.pending[0]), p);
    }
  }

  /** A pipeline only moves forward and keeps its answer, so it starts and settles at most once. */
  lemma StagesOnlyAdvance(s: State, e: Event, p: nat)
    requires Inv(s) && PendingKnown(s) && p < |s.pipelines|
    ensures var s' := Next(s, e);
      && |s.pipelines| <= |s'.pipelines| && s'.pipelines[p].key == s.pipelines[p].key
      && Rank(s.pipelines[p].stage) <= Rank(s'.pipelines[p].stage)
      && (s.pipelines[p].stage.Answered? && s'.pipelines[p].stage.Answered?
          ==> s'.pipelines[p].stage == s.pipelines[p].stage)
  {
    match e {
      case LookedUp(q, cached) =>
        if At(s, q, Looking) && cached.None? {
          QueueingAdvances(s, q, p);
        }
      case Released(q) =>
        PendingIsQueued(s);
        if q in s.running && q < |s.pipelines| && s.pipelines[q].stage != Running && s.active > 0 {
          DrainOnlyStarts(s.(active := s.active - 1, running := s.running - {q}), p);
        }
      case _ =>
    }
  }

  lemma QueueingAdvances(s: State, q: nat, p: nat)
    requires Inv(s) && PendingKnown(s) && p < |s.pipelines| && At(s, q, Looking)
    ensures var s' := Next(s, LookedUp(q, None));
      && |s'.pipelines| == |s.pipelines| && s'.pipelines[p].key == s.pipelines[p].key
      && (s'.pipelines[p].stage == s.pipelines[p].stage
          || (Rank(s.pipelines[p].stage) <= 1 && s'.pipelines[p].stage in {Queued, Running}))
  {
    var s' := WithStage(s, q, Queued).(pending := s.pending + [q], queued := s.queued + [q]);
    QueueingKeepsBooks(s, q);
    PendingIsQueued(s');
    DrainOnlyStarts(s', p);
  }

  lemma PendingIsQueued(s: State)
    requires QueueOk(s)
    ensures PendingKnown(s) && NoRepeats(s.pending)
    ensures forall k :: 0 <= k < |s.pending| ==> s.pipelines[s.pending[k]].stage == Queued
  {
    QueueKnowsPending(s);
    forall i, j | 0 <= i < j < |s.pending|
      ensures s.pending[i] != s.pending[j]
    {
      assert s.queued[|s.started| + i] == s.pending[i] && s.queued[|s.started| + j] == s.pending[j];
    }
    assert forall k :: 0 <= k < |s.pending| ==> s.pending[k] in s.pending;
  }

  // ------------------------------------------------------------------- over runs

  lemma RunStep(events: seq<Event>, k: nat)
    requires k < |events|
    ensures RunAll(events[..k + 1]) == Next(RunAll(events[..k]), events[k])
  {
    assert events[..k + 1][..k] == events[..k];
  }

  /** The pipeline is the same one, no less far, with the same answer. */
  predicate Further(s: State, s': State, p: nat)
    requires p < |s.pipelines|
  {
    && |s.pipelines| <= |s'.pipelines| && s'.pipelines[p].key == s.pipelines[p].key
    && Rank(s.pipelines[p].stage) <= Rank(s'.pipelines[p].stage)
    && (s.pipelines[p].stage.Answered? && s'.pipelines[p].stage.Answered? ==>
          s'.pipelines[p].stage == s.pipelines[p].stage)
  }

  lemma FurtherStep(events: seq<Event>, k: nat, p: nat)
    requires k < |events| && p < |RunAll(events[..k]).pipelines|
    ensures Further(RunAll(events[..k]), RunAll(events[..k + 1]), p)
  {
    RunStep(events, k);
    RunKeepsInv(events[..k]);
    StagesOnlyAdvance(RunAll(events[..k]), events[k], p);
  }

  lemma FurtherTransitive(a: State, b: State, c: State, p: nat)
    requires p < |a.pipelines| && Further(a, b, p) && Further(b, c, p)
    ensures Further(a, c, p)
  {}

  /** Over any run a pipeline keeps its key, only moves forward, and keeps its answer. */
  lemma {:induction false} StagesAdvanceOverRuns(events: seq<Event>, i: nat, j: nat, p: nat)
    requires i <= j <= |events| && p < |RunAll(events[..i]).pipelines|
    ensures Further(RunAll(events[..i]), RunAll(events[..j]), p)
    decreases j
  {
    if i < j {
      StagesAdvanceOverRuns(events, i, j - 1, p);
      FurtherStep(events, j - 1, p);
      FurtherTransitive(RunAll(events[..i]), RunAll(events[..j - 1]), RunAll(events[..j]), p);
    }
  }

  /** Event k of the run settles the pipeline. */
  predicate SettlesAt(events: seq<Event>, k: nat, p: nat)
    requires k < |events|
  {
    var s := RunAll(events[..k]);
    events[k] == Settled(p) && p < |s.pipelines| && s.pipelines[p].stage.Answered?
  }

  /** Event k of the run starts the fetch of the pipeline. */
  predicate StartsAt(events: seq<Event>, k: nat, p: nat)
    requires k < |events|
  {
    p !in RunAll(events[..k]).started && p in RunAll(events[..k + 1]).started
  }

  /** Settling a pipeline finishes it: the asset is remembered and the key is free. */
  lemma SettlingFinishes(events: seq<Event>, k: nat, p: nat)
    requires k < |events| && SettlesAt(events, k, p)
    ensures var s, s' := RunAll(events[..k]), RunAll(events[..k + 1]);
      && p < |s'.pipelines| && s'.pipelines[p].stage == Finished
      && s'.resolved == s.resolved[s.pipelines[p].key := s.pipelines[p].stage.asset]
          && s.pipelines[p].key !in s'.inFlight
  {
    RunStep(events, k);
    SettledState(RunAll(events[..k]), p);
  }

  lemma SettledState(s: State, p: nat)
    requires p < |s.pipelines| && s.pipelines[p].stage.Answered?
    ensures var s' := Next(s, Settled(p));
      && p < |s'.pipelines| && s'.pipelines[p].stage == Finished
      && s'.resolved == s.resolved[s.pipelines[p].key := s.pipelines[p].stage.asset]
          && s.pipelines[p].key !in s'.inFlight
  {}

  lemma FinishedStays(events: seq<Event>, i: nat, j: nat, p: nat)
    requires i < j < |events| && SettlesAt(events, i, p)
    ensures !SettlesAt(events, j, p)
  {
    SettlingFinishes(events, i, p);
    StagesAdvanceOverRuns(events, i + 1, j, p);
    FinishedIsLast(RunAll(events[..i + 1]), RunAll(events[..j]), p);
  }

  lemma FinishedIsLast(s: State, s': State, p: nat)
    requires p < |s.pipelines| && s.pipelines[p].stage == Finished && Further(s, s', p)
    ensures !s'.pipelines[p].stage.Answered?
  {}

  /** Each pipeline settles at most once in any run. */
  lemma SettlesOnce(events: seq<Event>, i: nat, j: nat, p: nat)
    requires i < |events| && j < |events| && SettlesAt(events, i, p) && SettlesAt(events, j, p)
    ensures i == j
  {
    if i < j {
      FinishedStays(events, i, j, p);
    } else if j < i {
      FinishedStays(events, j, i, p);
    }
  }

  /** A key that is remembered or in flight is shared; any other starts one pipeline, which is looked up first. */
  lemma RequestsShare(s: State, key: Key)
    ensures var s', p := Next(s, Request(key)), |s.pipelines|;
      if key in s.resolved || key in s.inFlight then s' == s
      else
        && s' == s.(inFlight := s'.inFlight, pipelines := s'.pipelines)
        && key in s'.inFlight && s'.inFlight[key] == p && s'.inFlight - {key} == s.inFlight
        && |s'.pipelines| == p + 1 && s'.pipelines[p] == Pipeline(key, Looking) && s'.pipelines[..p] == s.pipelines
  {}

  /** Forgetting what was remembered leaves every fetch under way. */
  lemma ClearForgets(s: State)
    ensures var s' := Next(s, ClearCache); (forall key :: key !in s'.resolved) && s' == s.(resolved := s'.resolved)
  {}

  /** How many waiting fetches find a place. */
  function Places(s: State): (n: nat)
    ensures n <= |s.pending|
  {
    var free := if s.active < 4 then 4 - s.active else 0;
    if free < |s.pending| then free else |s.pending|
  }

  /** The first n waiting fetches have been started. */
  ghost predicate StartedFirst(s: State, s': State, n: nat)
    requires n <= |s.pending|
  {
    && s'.pending == s.pending[n..] && s'.started == s.started + s.pending[..n] && s'.active == s.active + n
    && s'.queued == s.queued && forall p :: p in s'.running <==> p in s.running || p in s.pending[..n]
  }

  /** Draining starts waiting fetches from the front, as many as there are places. */
  lemma {:induction false} DrainStarts(s: State)
    requires PendingKnown(s)
    ensures StartedFirst(s, Drained(s), Places(s))
    decreases |s.pending|
  {
    if s.active < MAX_CONCURRENT_FETCHES && s.pending != [] {
      var s1 := Run(s.(pending := s.pending[1..]), s.pending[0]);
      DrainStarts(s1);
      OneMoreStarted(s, s1, Drained(s1), Places(s1));
    }
  }

  lemma OneMoreStarted(s: State, s1: State, s': State, n: nat)
    requires s.pending != [] && s1.pending == s.pending[1..] && s1.started == s.started + [s.pending[0]]
    requires s1.active == s.active + 1 && s1.running == s.running + {s.pending[0]} && s1.queued == s.queued
    requires n <= |s1.pending| && StartedFirst(s1, s', n)
    ensures StartedFirst(s, s', n + 1)
  {
    assert s.pending[..n + 1] == [s.pending[0]] + s1.pending[..n];
  }

  /** A pipeline that needs a fetch is queued at the end, and its fetch runs at once when a place is free. */
  lemma LookupQueues(events: seq<Event>, p: nat)
    requires At(RunAll(events), p, Looking)
    ensures var s := RunAll(events);
      var s' := Next(s, LookedUp(p, None));
      && s'.queued == s.queued + [p]
      && (forall q :: q in s'.running <==> q in s.running || (q == p && |s.running| < 4))
      && s'.pending == (if |s.running| < 4 then [] else s.pending + [p])
  {
    var s := RunAll(events);
    RunKeepsInv(events);
    LookupDrains(s, p);
  }

  lemma LookupDrains(s: State, p: nat)
    requires Inv(s) && At(s, p, Looking)
    ensures var s' := Next(s, LookedUp(p, None));
      && s'.queued == s.queued + [p]
      && (forall q :: q in s'.running <==> q in s.running || (q == p && s.active < 4))
      && s'.pending == (if s.active < 4 then [] else s.pending + [p])
  {
    var s1 := WithStage(s, p, Queued).(pending := s.pending + [p], queued := s.queued + [p]);
    QueueingKeepsBooks(s, p);
    QueueKnowsPending(s1);
    DrainStarts(s1);
    if s.active < 4 {
      assert s1.pending == [p] && s1.pending[..1] == [p];
    } else {
      assert s1.pending[..0] == [];
    }
  }

  /** An answered fetch that is released frees its place, and the fetch that waited longest takes it. */
  lemma ReleaseStartsNext(events: seq<Event>, p: nat)
    requires var s := RunAll(events); p in s.running && p < |s.pipelines| && s.pipelines[p].stage != Running
    ensures var s := RunAll(events);
      var s' := Next(s, Released(p));
      && (forall q :: q in s'.running <==> (q in s.running && q != p) || (s.pending != [] && q == s.pending[0]))
      && s'.pending == (if s.pending == [] then [] else s.pending[1..])
  {
    var s := RunAll(events);
    RunKeepsInv(events);
    DrainStarts(s.(active := s.active - 1, running := s.running - {p}));
    if s.pending != [] {
      assert s.pending[..1] == [s.pending[0]];
    }
  }

  /** What the event answers the pipeline with. */
  function Brings(e: Event, p: nat): Option<Asset> {
    match e
    case LookedUp(q, cached) => if q == p then cached else None
    case Fetched(q, asset) => if q == p then Some(asset) else None
    case _ => None
  }

  /** An event of the run brought this asset to a pipeline of the key. */
  ghost predicate WasBrought(events: seq<Event>, key: Key, asset: Asset) {
    exists p, i :: BroughtBy(events, p, i, key, asset)
  }

  ghost predicate BroughtBy(events: seq<Event>, p: nat, i: nat, key: Key, asset: Asset) {
    && i < |events| && Brings(events[i], p) == Some(asset)
    && p < |RunAll(events).pipelines| && RunAll(events).pipelines[p].key == key
  }

  lemma BroughtStays(events: seq<Event>, key: Key, asset: Asset)
    requires events != [] && WasBrought(events[..|events| - 1], key, asset)
    ensures WasBrought(events, key, asset)
  {
    var init := events[..|events| - 1];
    var p, i :| BroughtBy(init, p, i, key, asset);
    RunKeepsInv(init);
    StagesOnlyAdvance(RunAll(init), events[|events| - 1], p);
    assert BroughtBy(events, p, i, key, asset);
  }

  /** The asset that answers a pipeline is the one that an event brought it. */
  lemma {:induction false} AnswerWasBrought(events: seq<Event>, p: nat)
    requires p < |RunAll(events).pipelines| && RunAll(events).pipelines[p].stage.Answered?
    ensures WasBrought(events, RunAll(events).pipelines[p].key, RunAll(events).pipelines[p].stage.asset)
  {
    var n := |events| - 1;
    var s, s' := RunAll(events[..n]), RunAll(events);
    RunKeepsInv(events[..n]);
    if p < |s.pipelines| {
      StagesOnlyAdvance(s, events[n], p);
      if s.pipelines[p].stage.Answered? {
        AnswerWasBrought(events[..n], p);
        BroughtStays(events, s.pipelines[p].key, s.pipelines[p].stage.asset);
      } else {
        AnswerIsBrought(s, events[n], p);
        assert BroughtBy(events, p, n, s'.pipelines[p].key, s'.pipelines[p].stage.asset);
      }
    } else {
      NewIsUnanswered(s, events[n], p);
    }
  }

  /** A pipeline is answered exactly by what is brought to it while it is looked up or fetched. */
  lemma AnswerIsBrought(s: State, e: Event, p: nat)
    requires Inv(s) && PendingKnown(s) && p < |s.pipelines| && !s.pipelines[p].stage.Answered?
    ensures var s' := Next(s, e);
      p < |s'.pipelines| && (s'.pipelines[p].stage.Answered? <==>
        Brings(e, p).Some? && s.pipelines[p].stage == (if e.Fetched? then Running else Looking))
    ensures var s' := Next(s, e);
      p < |s'.pipelines| && s'.pipelines[p].stage.Answered? ==> Brings(e, p) == Some(s'.pipelines[p].stage.asset)
  {
    StagesOnlyAdvance(s, e, p);
    match e {
      case LookedUp(q, cached) =>
        if At(s, q, Looking) && cached.None? {
          QueueingAdvances(s, q, p);
        }
      case Released(q) =>
        PendingIsQueued(s);
        if q in s.running && q < |s.pipelines| && s.pipelines[q].stage != Running && s.active > 0 {
          DrainOnlyStarts(s.(active := s.active - 1, running := s.running - {q}), p);
        }
      case _ =>
    }
  }

  lemma NewIsUnanswered(s: State, e: Event, p: nat)
    requires Inv(s) && PendingKnown(s) && |s.pipelines| <= p
    ensures p < |Next(s, e).pipelines| ==> !Next(s, e).pipelines[p].stage.Answered?
  {
    match e {
      case LookedUp(q, cached) =>
        if At(s, q, Looking) && cached.None? {
          QueueingAdvances(s, q, q);
        }
      case Released(q) =>
        PendingIsQueued(s);
        if q in s.running && q < |s.pipelines| && s.pipelines[q].stage != Running && s.active > 0 {
          DrainOnlyStarts(s.(active := s.active - 1, running := s.running - {q}), q);
        }
      case _ =>
    }
  }

  /** Every asset remembered after any run was brought by an event to a pipeline of its key. */
  lemma {:induction false} RememberedWasBrought(events: seq<Event>, key: Key)
    requires key in RunAll(events).resolved
    ensures WasBrought(events, key, RunAll(events).resolved[key])
  {
    var n := |events| - 1;
    var s, s' := RunAll(events[..n]), RunAll(events);
    RunKeepsInv(events[..n]);
    if events[n].Settled? && SettlesAt(events, n, events[n].pipeline) && s.pipelines[events[n].pipeline].key == key {
      AnswerWasBrought(events[..n], events[n].pipeline);
      SettledState(s, events[n].pipeline);
      BroughtStays(events, key, s'.resolved[key]);
    } else {
      OthersRemember(s, events[n], key);
      RememberedWasBrought(events[..n], key);
      BroughtStays(events, key, s.resolved[key]);
    }
  }

  lemma {:induction false} DrainRemembers(s: State)
    ensures Drained(s).resolved == s.resolved
    decreases |s.pending|
  {
    if s.active < MAX_CONCURRENT_FETCHES && s.pending != [] {
      DrainRemembers(Run(s.(pending := s.pending[1..]), s.pending[0]));
    }
  }

  /** Only the settling of a pipeline of the key remembers anything for it. */
  lemma OthersRemember(s: State, e: Event, key: Key)
    requires key in Next(s, e).resolved
    requires !(e.Settled? && e.pipeline < |s.pipelines| && s.pipelines[e.pipeline].stage.Answered?
               && s.pipelines[e.pipeline].key == key)
    ensures key in s.resolved && Next(s, e).resolved[key] == s.resolved[key]
  {
    match e {
      case LookedUp(p, cached) =>
        if At(s, p, Looking) && cached.None? {
          DrainRemembers(WithStage(s, p, Queued).(pending := s.pending + [p], queued := s.queued + [p]));
        }
      case Released(p) =>
        if p in s.running && p < |s.pipelines| && s.pipelines[p].stage != Running && s.active > 0 {
          DrainRemembers(s.(active := s.active - 1, running := s.running - {p}));
        }
      case _ =>
    }
  }

  /** Draining only appends to the starting order. */
  lemma {:induction false} DrainAppends(s: State)
    requires PendingKnown(s)
    ensures s.started <= Drained(s).started
    decreases |s.pending|
  {
    if s.active < MAX_CONCURRENT_FETCHES && s.pending != [] {
      DrainAppends(Run(s.(pending := s.pending[1..]), s.pending[0]));
    }
  }

  lemma {:induction false} StartedGrows(events: seq<Event>, i: nat, j: nat)
    requires i <= j <= |events|
    ensures RunAll(events[..i]).started <= RunAll(events[..j]).started
    decreases j
  {
    if i < j {
      StartedGrows(events, i, j - 1);
      StartedStep(events, j - 1);
      PrefixTransitive(RunAll(events[..i]).started, RunAll(events[..j - 1]).started, RunAll(events[..j]).started);
    }
  }

  lemma StartedStep(events: seq<Event>, k: nat)
    requires k < |events|
    ensures RunAll(events[..k]).started <= RunAll(events[..k + 1]).started
  {
    RunStep(events, k);
    RunKeepsInv(events[..k]);
    StepAppends(RunAll(events[..k]), events[k]);
  }

  lemma PrefixTransitive<T>(a: seq<T>, b: seq<T>, c: seq<T>)
    requires a <= b <= c
    ensures a <= c
  {}

  lemma StepAppends(s: State, e: Event)
    requires Inv(s) && PendingKnown(s)
    ensures s.started <= Next(s, e).started
  {
    match e {
      case LookedUp(p, cached) =>
        if At(s, p, Looking) && cached.None? {
          var queued := WithStage(s, p, Queued).(pending := s.pending + [p], queued := s.queued + [p]);
          QueueingKeepsBooks(s, p);
          QueueKnowsPending(queued);
          DrainAppends(queued);
        }
      case Released(p) =>
        if p in s.running && p < |s.pipelines| && s.pipelines[p].stage != Running && s.active > 0 {
          DrainAppends(s.(active := s.active - 1, running := s.running - {p}));
        }
      case _ =>
    }
  }

  /** Each pipeline's fetch starts at most once in any run. */
  lemma StartsOnce(events: seq<Event>, i: nat, j: nat, p: nat)
    requires i < |events| && j < |events| && StartsAt(events, i, p) && StartsAt(events, j, p)
    ensures i == j
  {
    if i < j {
      StartedGrows(events, i + 1, j);
    } else if j < i {
      StartedGrows(events, j + 1, i);
    }
  }
}
