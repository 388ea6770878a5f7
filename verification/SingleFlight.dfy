/**
 The single-flight protocol of src-tauri/src/cover_art_cache.rs: concurrent resolves of
 one (profile, art, size) key share one refresh.  Each action is one critical section.
 */
module SingleFlight {
  import opened Wrappers

  datatype CacheKey = CacheKey(profileId: string, coverArtId: string, size: Option<nat>)

  /** The path of the image, or an error. */
  datatype Resolved = Path(path: string) | Failure(error: string)

  datatype FlightState = Running | Completed(result: Resolved)

  /** A flight, with the key and the thread it was created for. */
  datatype Flight = Flight(key: CacheKey, leader: nat, state: FlightState)

  /** Where a thread stands in resolve_cover_art. */
  datatype Thread =
    | Reading(key: CacheKey)                              // before read_entry
    | Acquiring(key: CacheKey)                            // nothing fresh was cached
    | Leading(key: CacheKey, flight: nat)                 // inside refresh_entry
    | Finishing(key: CacheKey, flight: nat, result: Resolved)   // completed, not yet removed
    | Waiting(key: CacheKey, flight: nat)
    | Returned(key: CacheKey, via: Option<nat>, result: Resolved)

  datatype Cache = Cache(inFlight: map<CacheKey, nat>, flights: seq<Flight>)

  // ------------------------------------------------------------ critical sections

  function Acquired(c: Cache, key: CacheKey, thread: nat): Cache {
    if key in c.inFlight then c
    else Cache(c.inFlight[key := |c.flights|], c.flights + [Flight(key, thread, Running)])
  }

  function CompletedFlight(c: Cache, flight: nat, result: Resolved): Cache
    requires flight < |c.flights|
  {
    c.(flights := c.flights[flight := c.flights[flight].(state := Completed(result))])
  }

  class CoverArtCache {
    var inFlight: map<CacheKey, nat>
    var flights: seq<Flight>

    constructor ()
      ensures View() == Cache(map[], [])
    {
      inFlight, flights := map[], [];
    }

    function View(): Cache
      reads this
    {
      Cache(inFlight, flights)
    }

    /** acquire_flight: the flight to wait for, or a new one to lead. */
    method AcquireFlight(key: CacheKey, thread: nat) returns (flight: nat, leads: bool)
      modifies this
      ensures View() == Acquired(old(View()), key, thread)
      ensures leads <==> key !in old(inFlight)
      ensures key in inFlight && inFlight[key] == flight
    {
      if key in inFlight {
        return inFlight[key], false;
      }
      flight, leads := |flights|, true;
      flights := flights + [Flight(key, thread, Running)];
      inFlight := inFlight[key := flight];
    }

    method Complete(flight: nat, result: Resolved)
      requires flight < |flights|
      modifies this`flights
      ensures View() == CompletedFlight(old(View()), flight, result)
    {
      flights := flights[flight := flights[flight].(state := Completed(result))];
    }

    method RemoveFlight(key: CacheKey)
      modifies this`inFlight
      ensures View() == old(View()).(inFlight := old(inFlight) - {key})
    {
      inFlight := inFlight - {key};
    }

    /** One turn of the wait loop: None goes back to the condition variable. */
    method TryWait(flight: nat) returns (r: Option<Resolved>)
      requires flight < |flights|
      ensures r.Some? <==> flights[flight].state.Completed?
      ensures r.Some? ==> flights[flight].state == Completed(r.value)
    {
      match flights[flight].state {
        case Running => r := None;
        case Completed(result) => r := Some(result);
      }
    }
  }

  // ------------------------------------------------------------------ interleavings

  datatype World = World(cache: Cache, threads: map<nat, Thread>)

  datatype Action =
    | Arrive(thread: nat, key: CacheKey)
    | Read(thread: nat, cached: Option<Resolved>)      // Some: a fresh entry, or an error reading it
    | Acquire(thread: nat)
    | Complete(thread: nat, result: Resolved)           // refresh_entry returned
    | RemoveFlight(thread: nat)
    | Wake(thread: nat)

  function Act(w: World, a: Action): World {
    var t := a.thread;
    match a
    case Arrive(_, key) => if t in w.threads then w else w.(threads := w.threads[t := Reading(key)])
    case Read(_, cached) =>
      if t in w.threads && w.threads[t].Reading? then
        var key := w.threads[t].key;
        w.(threads := w.threads[t := if cached.Some? then Returned(key, None, cached.value) else Acquiring(key)])
      else w
    case Acquire(_) =>
      if t in w.threads && w.threads[t].Acquiring? then
        var key := w.threads[t].key;
        var cache := Acquired(w.cache, key, t);
        var flight := cache.inFlight[key];
        World(cache, w.threads[t := if key in w.cache.inFlight then Waiting(key, flight) else Leading(key, flight)])
      else w
    case Complete(_, result) =>
      if t in w.threads && w.threads[t].Leading? && w.threads[t].flight < |w.cache.flights| then
        var Leading(key, flight) := w.threads[t];
        World(CompletedFlight(w.cache, flight, result), w.threads[t := Finishing(key, flight, result)])
      else w
    case RemoveFlight(_) =>
      if t in w.threads && w.threads[t].Finishing? then
        var Finishing(key, flight, result) := w.threads[t];
        World(w.cache.(inFlight := w.cache.inFlight - {key}), w.threads[t := Returned(key, Some(flight), result)])
      else w
    case Wake(_) =>
      if t in w.threads && w.threads[t].Waiting? && w.threads[t].flight < |w.cache.flights|
         && w.cache.flights[w.threads[t].flight].state.Completed? then
        var Waiting(key, flight) := w.threads[t];
        w.(threads := w.threads[t := Returned(key, Some(flight), w.cache.flights[flight].state.result)])
      else w
  }

  function ActAll(w: World, actions: seq<Action>): World {
    if actions == [] then w else Act(ActAll(w, actions[..|actions| - 1]), actions[|actions| - 1])
  }

  const START := World(Cache(map[], []), map[])

  // --------------------------------------------------------------------- invariant

  predicate Leads(w: World, key: CacheKey, flight: nat) {
    flight < |w.cache.flights| && w.cache.flights[flight].leader in w.threads
    && w.threads[w.cache.flights[flight].leader] == Leading(key, flight)
  }

  predicate Finishes(w: World, key: CacheKey, flight: nat) {
    && flight < |w.cache.flights| && w.cache.flights[flight].leader in w.threads
    && var t := w.threads[w.cache.flights[flight].leader];
       t.Finishing? && t.key == key && t.flight == flight && w.cache.flights[flight].state == Completed(t.result)
  }

  /** The flight found under a key is for that key and led by a thread inside its refresh or just past it. */
  predicate FlightOk(w: World, key: CacheKey) {
    key in w.cache.inFlight ==>
      var f := w.cache.inFlight[key];
      && f < |w.cache.flights| && w.cache.flights[f].key == key
      && ((w.cache.flights[f].state == Running && Leads(w, key, f)) || Finishes(w, key, f))
  }

  predicate Under(w: World, key: CacheKey, flight: nat) {
    key in w.cache.inFlight && w.cache.inFlight[key] == flight
  }

  predicate ThreadOk(w: World, t: nat) {
    t in w.threads ==>
      match w.threads[t]
      case Leading(key, f) =>
        Under(w, key, f) && f < |w.cache.flights| && w.cache.flights[f] == Flight(key, t, Running)
      case Finishing(key, f, result) =>
        Under(w, key, f) && f < |w.cache.flights| && w.cache.flights[f] == Flight(key, t, Completed(result))
      case Waiting(key, f) =>
        && f < |w.cache.flights| && w.cache.flights[f].key == key
        && (w.cache.flights[f].state == Running ==> Under(w, key, f))
      case Returned(key, Some(f), result) =>
        f < |w.cache.flights| && w.cache.flights[f].key == key && w.cache.flights[f].state == Completed(result)
      case _ => true
  }

  ghost predicate Inv(w: World) {
    && (forall key :: FlightOk(w, key))
    && (forall t :: ThreadOk(w, t))
  }

  lemma ActKeepsInv(w: World, a: Action)
    requires Inv(w)
    ensures Inv(Act(w, a))
  {
    var w' := Act(w, a);
    assert ThreadOk(w, a.thread);
    forall key
      ensures FlightOk(w', key)
    {
      assert FlightOk(w, key);
      if a.thread in w.threads {
        assert FlightOk(w, w.threads[a.thread].key);
      }
    }
    forall t
      ensures ThreadOk(w', t)
    {
      assert ThreadOk(w, t);
      if t in w.threads {
        assert FlightOk(w, w.threads[t].key);
      }
    }
  }

  lemma {:induction false} RunKeepsInv(actions: seq<Action>)
    ensures Inv(ActAll(START, actions))
  {
    if actions != [] {
      RunKeepsInv(actions[..|actions| - 1]);
      ActKeepsInv(ActAll(START, actions[..|actions| - 1]), actions[|actions| - 1]);
    }
  }

  // -------------------------------------------------------------------- guarantees

  /** In every interleaving at most one thread refreshes a key at a time. */
  lemma OneLeaderPerKey(actions: seq<Action>, t: nat, t': nat)
    requires var w := ActAll(START, actions);
      t in w.threads && t' in w.threads && w.threads[t].Leading? && w.threads[t'].Leading?
      && w.threads[t].key == w.threads[t'].key
    ensures t == t'
  {
    var w := ActAll(START, actions);
    RunKeepsInv(actions);
    assert ThreadOk(w, t) && ThreadOk(w, t');
  }

  /** A follower waits only for a flight that is in the map under its key and whose leader is still refreshing it. */
  lemma WaitersHaveALeader(actions: seq<Action>, t: nat)
    requires var w := ActAll(START, actions); t in w.threads && w.threads[t].Waiting?
    ensures var w := ActAll(START, actions);
      var Waiting(key, f) := w.threads[t];
      f < |w.cache.flights| && (w.cache.flights[f].state.Completed? || (Under(w, key, f) && Leads(w, key, f)))
  {
    var w := ActAll(START, actions);
    RunKeepsInv(actions);
    assert ThreadOk(w, t) && FlightOk(w, w.threads[t].key);
  }

  /** A completed flight keeps its result. */
  lemma {:induction false} ResultsStand(w: World, actions: seq<Action>, f: nat)
    requires Inv(w) && f < |w.cache.flights| && w.cache.flights[f].state.Completed?
    ensures var w' := ActAll(w, actions); Inv(w') && f < |w'.cache.flights| && w'.cache.flights[f] == w.cache.flights[f]
  {
    if actions != [] {
      var init, last := actions[..|actions| - 1], actions[|actions| - 1];
      ResultsStand(w, init, f);
      assert ThreadOk(ActAll(w, init), last.thread);
      ActKeepsInv(ActAll(w, init), last);
    }
  }

  /**
   Threads that return through one flight return one result for one key: the result that
   its leader completed it with, also for a follower that arrives after completion.
   */
  lemma FollowersShareResult(actions: seq<Action>, t: nat, t': nat)
    requires var w := ActAll(START, actions);
      t in w.threads && t' in w.threads && w.threads[t].Returned? && w.threads[t'].Returned?
      && w.threads[t].via.Some? && w.threads[t].via == w.threads[t'].via
    ensures var w := ActAll(START, actions);
        w.threads[t].result == w.threads[t'].result && w.threads[t].key == w.threads[t'].key
  {
    var w := ActAll(START, actions);
    RunKeepsInv(actions);
    assert ThreadOk(w, t) && ThreadOk(w, t');
  }

  /** A follower of a flight returns what the leader's refresh returned, whatever happens in between. */
  lemma FollowerGetsLeadersResult(before: seq<Action>, leader: nat, result: Resolved, after: seq<Action>, follower: nat)
    requires var w := ActAll(START, before); leader in w.threads && w.threads[leader].Leading?
    requires var w := ActAll(START, before);
      var w' := ActAll(Act(w, Complete(leader, result)), after);
      follower in w'.threads && w'.threads[follower].Returned?
        && w'.threads[follower].via == Some(w.threads[leader].flight)
    ensures var w' := ActAll(Act(ActAll(START, before), Complete(leader, result)), after);
      w'.threads[follower].result == result
  {
    var w := ActAll(START, before);
    RunKeepsInv(before);
    assert ThreadOk(w, leader);
    var m := Act(w, Complete(leader, result));
    ActKeepsInv(w, Complete(leader, result));
    ResultsStand(m, after, w.threads[leader].flight);
    assert ThreadOk(ActAll(m, after), follower);
  }

  /** A key in the map has a thread that refreshes it or is about to free it. */
  lemma KeyIsHeld(actions: seq<Action>, key: CacheKey)
    requires key in ActAll(START, actions).cache.inFlight
    ensures exists t :: var w := ActAll(START, actions);
      t in w.threads && (w.threads[t].Leading? || w.threads[t].Finishing?) && w.threads[t].key == key
  {
    var w := ActAll(START, actions);
    RunKeepsInv(actions);
    assert FlightOk(w, key);
    var t := w.cache.flights[w.cache.inFlight[key]].leader;
    assert t in w.threads && w.threads[t].key == key;
  }

  /** What is cached fresh, or fails to be read, is returned at once; otherwise a flight is needed. */
  lemma ReadReturns(w: World, t: nat, key: CacheKey, cached: Option<Resolved>)
    requires t in w.threads && w.threads[t] == Reading(key)
    ensures Act(w, Read(t, cached)) ==
      w.(threads := w.threads[t := if cached == None then Acquiring(key) else Returned(key, None, cached.value)])
  {}

  /** A thread that finds no flight leads one of its own to the end: it returns its result and frees the key. */
  lemma LeaderServes(w: World, t: nat, result: Resolved)
    requires t in w.threads && w.threads[t].Acquiring? && w.threads[t].key !in w.cache.inFlight
    ensures var key, f := w.threads[t].key, |w.cache.flights|;
      var w' := Act(Act(Act(w, Acquire(t)), Complete(t, result)), RemoveFlight(t));
      && w'.threads == w.threads[t := Returned(key, Some(f), result)]
      && w'.cache.inFlight == w.cache.inFlight
      && w'.cache.flights == w.cache.flights + [Flight(key, t, Completed(result))]
  {
    var key, f := w.threads[t].key, |w.cache.flights|;
    var w1 := Act(w, Acquire(t));
    assert w1.threads[t] == Leading(key, f) && w1.cache.flights[f] == Flight(key, t, Running);
    var w2 := Act(w1, Complete(t, result));
    assert w2.threads[t] == Finishing(key, f, result);
    assert w2.cache.inFlight - {key} == w.cache.inFlight;
  }

  /** A thread that finds a flight waits for it, and returns its result once there is one, not before. */
  lemma FollowerWaits(w: World, t: nat)
    requires t in w.threads && w.threads[t].Acquiring? && w.threads[t].key in w.cache.inFlight
    requires w.cache.inFlight[w.threads[t].key] < |w.cache.flights|
    ensures var key := w.threads[t].key;
      var f := w.cache.inFlight[key];
      var w1 := Act(w, Acquire(t));
      && w1 == w.(threads := w.threads[t := Waiting(key, f)])
      && Act(w1, Wake(t)) ==
           (if w.cache.flights[f].state == Running then w1
            else w.(threads := w.threads[t := Returned(key, Some(f), w.cache.flights[f].state.result)]))
  {}
}
