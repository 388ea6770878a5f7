/**
 The fallback scrobble accounting of src-tauri/src/playback/server_reporting.rs.
 Time is an input: every command carries the instant (nanoseconds) it is handled at.
 */
module Scrobble {
  import opened Wrappers

  datatype PlayState = Starting | Playing | Paused | Stopped

  datatype TrackKey = TrackKey(profileId: string, songId: string, queueIndex: Option<nat>)

  datatype Report = Report(key: TrackKey, durationMs: Option<nat>, positionMs: nat, state: PlayState, at: int)

  datatype Command =
    | Fallback(report: Report)
    | Native                     // a server with playbackReport takes over: the session is dropped
    | Clear

  datatype Submission = NowPlaying(key: TrackKey) | Played(key: TrackKey)

  datatype SessionView = SessionView(
    key: TrackKey, durationMs: Option<nat>, state: PlayState, positionMs: nat, updatedAt: int,
    playedMs: nat, nowPlayingReported: bool, playedScrobbled: bool)

  const MAX_THRESHOLD_MS := 240_000
  const UNKNOWN_THRESHOLD_MS := 30_000

  /** Instant::elapsed in whole milliseconds. */
  function ElapsedMs(since: int, now: int): nat {
    if now <= since then 0 else (now - since) / 1_000_000
  }

  function ThresholdMs(durationMs: Option<nat>): nat {
    if durationMs.Some? && durationMs.value > 0 then
      (if durationMs.value / 2 < MAX_THRESHOLD_MS then durationMs.value / 2 else MAX_THRESHOLD_MS)
    else UNKNOWN_THRESHOLD_MS
  }

  /** Half the duration but no more than four minutes; thirty seconds when the duration is unknown or zero. */
  lemma ThresholdMeaning(durationMs: Option<nat>, playedMs: nat)
    ensures playedMs >= ThresholdMs(durationMs) <==>
      (if durationMs.Some? && durationMs.value != 0
       then 2 * playedMs + 1 >= durationMs.value || playedMs >= 240_000 else playedMs >= 30_000)
  {}

  // ------------------------------------------------------------- specification

  function Started(r: Report): SessionView {
    SessionView(r.key, r.durationMs, r.state, r.positionMs, r.at, 0, false, false)
  }

  function Refreshed(s: SessionView, now: int): SessionView {
    var ms := if s.state == Playing then ElapsedMs(s.updatedAt, now) else 0;
    s.(playedMs := s.playedMs + ms, positionMs := s.positionMs + ms, updatedAt := now)
  }

  predicate Ready(s: SessionView) {
    !s.playedScrobbled && s.playedMs >= ThresholdMs(s.durationMs)
  }

  /** submit_fallback_scrobble_if_ready. */
  function Submitted(s: SessionView, now: int): (SessionView, seq<Submission>) {
    var s' := Refreshed(s, now);
    if Ready(s') then (s'.(playedScrobbled := true), [Played(s'.key)]) else (s', [])
  }

  function Finalized(session: Option<SessionView>, now: int): seq<Submission> {
    if session.None? then [] else Submitted(session.value, now).1
  }

  /** The account at an instant. */
  function AccountAt(s: SessionView, now: int): nat {
    s.playedMs + (if s.state == Playing then ElapsedMs(s.updatedAt, now) else 0)
  }

  predicate Submits(s: SessionView, r: Report) {
    r.state != Starting && !s.playedScrobbled && AccountAt(s, r.at) >= ThresholdMs(s.durationMs)
  }

  predicate Announces(s: SessionView, r: Report) {
    r.state == Playing && !s.nowPlayingReported
  }

  function AfterReport(s: SessionView, r: Report): SessionView {
    SessionView(s.key, s.durationMs, r.state, r.positionMs, r.at, AccountAt(s, r.at),
                s.nowPlayingReported || Announces(s, r), s.playedScrobbled || Submits(s, r))
  }

  function ReportOut(s: SessionView, r: Report): seq<Submission> {
    (if Announces(s, r) then [NowPlaying(s.key)] else []) + (if Submits(s, r) then [Played(s.key)] else [])
  }

  /** The session a report continues; a new one has played nothing. */
  function Continued(session: Option<SessionView>, r: Report): SessionView {
    if session.Some? && session.value.key == r.key then session.value else Started(r).(state := Starting)
  }

  /** handle_fallback_report: another track finalizes the session, then the report is accounted. */
  function NextSession(session: Option<SessionView>, r: Report): Option<SessionView> {
    if r.state == Stopped then None else Some(AfterReport(Continued(session, r), r))
  }

  function Reported(session: Option<SessionView>, r: Report): seq<Submission> {
    (if session.Some? && session.value.key != r.key then Finalized(session, r.at) else [])
      + ReportOut(Continued(session, r), r)
  }

  function NextState(session: Option<SessionView>, c: Command): Option<SessionView> {
    if c.Fallback? then NextSession(session, c.report) else None
  }

  function Handled(session: Option<SessionView>, c: Command): seq<Submission> {
    if c.Fallback? then Reported(session, c.report) else []
  }

  // --------------------------------------------------------------------- the class

  class ScrobbleSession {
    const key: TrackKey
    const durationMs: Option<nat>
    var state: PlayState
    var positionMs: nat
    var updatedAt: int
    var playedMs: nat
    var nowPlayingReported: bool
    var playedScrobbled: bool

    constructor (r: Report)
      ensures View() == Started(r)
    {
      key, durationMs, state, positionMs, updatedAt := r.key, r.durationMs, r.state, r.positionMs, r.at;
      playedMs, nowPlayingReported, playedScrobbled := 0, false, false;
    }

    function View(): SessionView
      reads this
    {
      SessionView(key, durationMs, state, positionMs, updatedAt, playedMs, nowPlayingReported, playedScrobbled)
    }

    method RefreshProgress(now: int)
      modifies this
      ensures View() == Refreshed(old(View()), now)
    {
      if state == Playing {
        var elapsed := ElapsedMs(updatedAt, now);
        playedMs := playedMs + elapsed;
        positionMs := positionMs + elapsed;
      }
      updatedAt := now;
    }

    /** Takes the new position and state over; the account at this instant is what it was before. */
    method Update(position: nat, next: PlayState, now: int)
      modifies this
      ensures AccountAt(View(), now) == AccountAt(old(View()), now)
      ensures View() == old(View()).(positionMs := position, state := next, updatedAt := now, playedMs := playedMs)
    {
      RefreshProgress(now);
      positionMs := position;
      state := next;
    }

    method SubmitIfReady(now: int) returns (out: seq<Submission>)
      modifies this
      ensures (View(), out) == Submitted(old(View()), now)
    {
      RefreshProgress(now);
      out := [];
      if !playedScrobbled && playedMs >= ThresholdMs(durationMs) {
        out := [Played(key)];
        playedScrobbled := true;
      }
    }
  }

  class FallbackReporter {
    var session: ScrobbleSession?

    constructor ()
      ensures View() == None
    {
      session := null;
    }

    function View(): Option<SessionView>
      reads this, session
    {
      if session == null then None else Some(session.View())
    }

    method Finalize(now: int) returns (out: seq<Submission>)
      modifies this, session
      ensures View() == None && out == Finalized(old(View()), now)
    {
      out := [];
      if session != null {
        out := session.SubmitIfReady(now);
        session := null;
      }
    }

    method HandleReport(r: Report) returns (out: seq<Submission>)
      modifies this, session
      ensures View() == NextSession(old(View()), r) && out == Reported(old(View()), r)
      ensures session != old(session) && session != null ==> fresh(session)
    {
      out := [];
      if session != null && session.key != r.key {
        out := Finalize(r.at);
      }
      if session == null {
        session := new ScrobbleSession(r);
      } else {
        session.Update(r.positionMs, r.state, r.at);
      }
      var more := SubmitAfter(r.state, r.at);
      out := out + more;
    }

    /** The match on the new state, once the session has taken it over. */
    method SubmitAfter(state: PlayState, now: int) returns (out: seq<Submission>)
      requires session != null && session.updatedAt == now
      modifies this, session
      ensures session != null ==> session == old(session)
      ensures var s := old(session.View());
        var first, ready := state == Playing && !s.nowPlayingReported, state != Starting && Ready(s);
        && View() == (if state == Stopped then None
                      else Some(s.(nowPlayingReported := s.nowPlayingReported || first,
                        playedScrobbled := s.playedScrobbled || ready)))
        && out == (if first then [NowPlaying(s.key)] else []) + (if ready then [Played(s.key)] else [])
    {
      out := [];
      match state {
        case Playing =>
          if !session.nowPlayingReported {
            out := [NowPlaying(session.key)];
            session.nowPlayingReported := true;
          }
          var more := session.SubmitIfReady(now);
          out := out + more;
        case Paused => out := session.SubmitIfReady(now);
        case Stopped => out := Finalize(now);
        case Starting =>
      }
    }

    method Handle(c: Command) returns (out: seq<Submission>)
      modifies this, session
      ensures View() == NextState(old(View()), c) && out == Handled(old(View()), c)
    {
      match c {
        case Fallback(r) => out := HandleReport(r);
        case Native => session, out := null, [];
        case Clear => session, out := null, [];
      }
    }
  }

  // ---------------------------------------------------------- one session's account

  /** Milliseconds spent in Playing from (state, at) over the reports rs. */
  function PlayedTime(state: PlayState, at: int, rs: seq<Report>): nat
    decreases |rs|
  {
    if rs == [] then 0
    else (if state == Playing then ElapsedMs(at, rs[0].at) else 0) + PlayedTime(rs[0].state, rs[0].at, rs[1..])
  }

  /** The state and instant after the last report. */
  function LastState(state: PlayState, rs: seq<Report>): PlayState {
    if rs == [] then state else rs[|rs| - 1].state
  }

  function LastInstant(at: int, rs: seq<Report>): int {
    if rs == [] then at else rs[|rs| - 1].at
  }

  /** Reports of one track, none of them Stopped but perhaps the last. */
  ghost predicate OneTrack(key: TrackKey, rs: seq<Report>) {
    && (forall i :: 0 <= i < |rs| ==> rs[i].key == key)
    && (forall i :: 0 <= i < |rs| - 1 ==> rs[i].state != Stopped)
  }

  /** The session after the reports rs, and what they submit. */
  function Fed(session: Option<SessionView>, rs: seq<Report>): Option<SessionView>
    decreases |rs|
  {
    if rs == [] then session else Fed(NextSession(session, rs[0]), rs[1..])
  }

  function FedOut(session: Option<SessionView>, rs: seq<Report>): seq<Submission>
    decreases |rs|
  {
    if rs == [] then [] else Reported(session, rs[0]) + FedOut(NextSession(session, rs[0]), rs[1..])
  }

  predicate PlaysAt(rs: seq<Report>) {
    exists i :: 0 <= i < |rs| && rs[i].state == Playing
  }

  /** Some submission point finds the threshold reached. */
  predicate ReachedDuring(played: nat, threshold: nat, state: PlayState, at: int, rs: seq<Report>)
    decreases |rs|
  {
    rs != [] &&
    var now := played + (if state == Playing then ElapsedMs(at, rs[0].at) else 0);
    ((rs[0].state != Starting && now >= threshold) || ReachedDuring(now, threshold, rs[0].state, rs[0].at, rs[1..]))
  }

  /** What one report of the session's own track does. */
  lemma OwnReport(s: SessionView, r: Report)
    requires r.key == s.key
    ensures NextSession(Some(s), r) == if r.state == Stopped then None else Some(AfterReport(s, r))
    ensures Reported(Some(s), r) == ReportOut(s, r)
  {
    assert [] + ReportOut(s, r) == ReportOut(s, r);
  }

  /** At most one submission of each kind, for the session's own track. */
  lemma ReportOutCounts(s: SessionView, r: Report)
    ensures multiset(ReportOut(s, r))[Played(s.key)] == (if Submits(s, r) then 1 else 0)
    ensures multiset(ReportOut(s, r))[NowPlaying(s.key)] == (if Announces(s, r) then 1 else 0)
    ensures forall o :: o in ReportOut(s, r) ==> o.key == s.key
  {}

  /** The session left behind by its reports: its account is the time in Playing. */
  predicate LeavesAccount(s: SessionView, rs: seq<Report>, last: Option<SessionView>) {
    && (last.None? <==> rs != [] && rs[|rs| - 1].state == Stopped)
    && (last.Some? ==>
          && last.value.key == s.key && last.value.durationMs == s.durationMs
          && last.value.state == LastState(s.state, rs) && last.value.updatedAt == LastInstant(s.updatedAt, rs)
          && last.value.playedMs == s.playedMs + PlayedTime(s.state, s.updatedAt, rs)
          && last.value.playedScrobbled == (s.playedScrobbled || PlayedCount(s, rs) == 1))
  }

  lemma LeavesAccountStep(s: SessionView, rs: seq<Report>, last: Option<SessionView>)
    requires rs != [] && LeavesAccount(AfterReport(s, rs[0]), rs[1..], last) && (|rs| == 1 ==> rs[0].state != Stopped)
    ensures LeavesAccount(s, rs, last)
  {
    PlayedCountStep(s, rs);
    LastStep(s.state, s.updatedAt, rs);
  }

  lemma LastStep(state: PlayState, at: int, rs: seq<Report>)
    requires rs != []
    ensures LastState(state, rs) == LastState(rs[0].state, rs[1..])
        && LastInstant(at, rs) == LastInstant(rs[0].at, rs[1..])
    ensures |rs| > 1 ==> rs[1..][|rs[1..]| - 1] == rs[|rs| - 1]
  {}

  lemma {:induction false} FedState(s: SessionView, rs: seq<Report>)
    requires OneTrack(s.key, rs)
    ensures LeavesAccount(s, rs, Fed(Some(s), rs))
    decreases |rs|
  {
    if rs != [] {
      OwnReport(s, rs[0]);
      if rs[0].state == Stopped {
        assert rs[1..] == [];
        assert Fed(Some(s), rs) == None;
      } else {
        assert Fed(Some(s), rs) == Fed(Some(AfterReport(s, rs[0])), rs[1..]);
        FedState(AfterReport(s, rs[0]), rs[1..]);
        LeavesAccountStep(s, rs, Fed(Some(s), rs));
      }
    }
  }

  /** How many played scrobbles the session still submits over rs. */
  function PlayedCount(s: SessionView, rs: seq<Report>): nat {
    if !s.playedScrobbled && ReachedDuring(s.playedMs, ThresholdMs(s.durationMs), s.state, s.updatedAt, rs)
    then 1 else 0
  }

  lemma PlayedCountStep(s: SessionView, rs: seq<Report>)
    requires rs != []
    ensures PlayedCount(s, rs) == (if Submits(s, rs[0]) then 1 else 0) + PlayedCount(AfterReport(s, rs[0]), rs[1..])
  {
    assert ReachedDuring(s.playedMs, ThresholdMs(s.durationMs), s.state, s.updatedAt, rs) <==>
      (rs[0].state != Starting && AccountAt(s, rs[0].at) >= ThresholdMs(s.durationMs))
      || ReachedDuring(AccountAt(s, rs[0].at), ThresholdMs(s.durationMs), rs[0].state, rs[0].at, rs[1..]);
  }

  lemma CountInConcat(a: seq<Submission>, b: seq<Submission>, o: Submission)
    ensures multiset(a + b)[o] == multiset(a)[o] + multiset(b)[o]
  {}

  /** Submissions are counted report by report. */
  lemma FedOutStep(s: SessionView, rs: seq<Report>)
    requires rs != [] && rs[0].key == s.key
    ensures var next := if rs[0].state == Stopped then None else Some(AfterReport(s, rs[0]));
      var out, rest := multiset(FedOut(Some(s), rs)), multiset(FedOut(next, rs[1..]));
      && out[Played(s.key)] == (if Submits(s, rs[0]) then 1 else 0) + rest[Played(s.key)]
      && out[NowPlaying(s.key)] == (if Announces(s, rs[0]) then 1 else 0) + rest[NowPlaying(s.key)]
  {
    var rest := FedOut(NextSession(Some(s), rs[0]), rs[1..]);
    OwnReport(s, rs[0]);
    ReportOutCounts(s, rs[0]);
    CountInConcat(ReportOut(s, rs[0]), rest, Played(s.key));
    CountInConcat(ReportOut(s, rs[0]), rest, NowPlaying(s.key));
  }

  /** The reports after the first one are the same track's. */
  lemma OneTrackTail(key: TrackKey, rs: seq<Report>)
    requires rs != [] && OneTrack(key, rs)
    ensures rs[0].key == key && OneTrack(key, rs[1..])
    ensures rs[0].state == Stopped ==> rs[1..] == []
  {}

  /** What the first of several reports adds to the count of played scrobbles. */
  lemma PlayedStep(s: SessionView, rs: seq<Report>)
    requires rs != [] && rs[0].key == s.key && (rs[0].state == Stopped ==> rs[1..] == [])
    ensures var next := if rs[0].state == Stopped then None else Some(AfterReport(s, rs[0]));
      multiset(FedOut(Some(s), rs))[Played(s.key)] - multiset(FedOut(next, rs[1..]))[Played(s.key)]
      == PlayedCount(s, rs) - PlayedCount(AfterReport(s, rs[0]), rs[1..])
  {
    PlayedCountStep(s, rs);
    FedOutStep(s, rs);
  }

  /** A played scrobble is submitted once, if some submission point finds the threshold reached. */
  lemma {:induction false} FedPlayed(s: SessionView, rs: seq<Report>)
    requires OneTrack(s.key, rs)
    ensures multiset(FedOut(Some(s), rs))[Played(s.key)] == PlayedCount(s, rs)
    decreases |rs|
  {
    if rs != [] {
      OneTrackTail(s.key, rs);
      PlayedStep(s, rs);
      if rs[0].state != Stopped {
        FedPlayed(AfterReport(s, rs[0]), rs[1..]);
      }
    }
  }

  function NowPlayingCount(s: SessionView, rs: seq<Report>): nat {
    if !s.nowPlayingReported && PlaysAt(rs) then 1 else 0
  }

  lemma NowPlayingStep(s: SessionView, rs: seq<Report>)
    requires rs != []
    ensures NowPlayingCount(s, rs) == (if Announces(s, rs[0]) then 1 else 0)
        + NowPlayingCount(AfterReport(s, rs[0]), rs[1..])
  {
    PlaysStep(rs);
  }

  /** What the first of several reports adds to the count of now-playings. */
  lemma AnnouncedStep(s: SessionView, rs: seq<Report>)
    requires rs != [] && rs[0].key == s.key && (rs[0].state == Stopped ==> rs[1..] == [])
    ensures var next := if rs[0].state == Stopped then None else Some(AfterReport(s, rs[0]));
      multiset(FedOut(Some(s), rs))[NowPlaying(s.key)] - multiset(FedOut(next, rs[1..]))[NowPlaying(s.key)]
      == NowPlayingCount(s, rs) - NowPlayingCount(AfterReport(s, rs[0]), rs[1..])
  {
    NowPlayingStep(s, rs);
    FedOutStep(s, rs);
  }

  /** A now-playing is submitted once, if the track plays. */
  lemma {:induction false} FedNowPlaying(s: SessionView, rs: seq<Report>)
    requires OneTrack(s.key, rs)
    ensures multiset(FedOut(Some(s), rs))[NowPlaying(s.key)] == NowPlayingCount(s, rs)
    decreases |rs|
  {
    if rs != [] {
      OneTrackTail(s.key, rs);
      AnnouncedStep(s, rs);
      if rs[0].state != Stopped {
        FedNowPlaying(AfterReport(s, rs[0]), rs[1..]);
      }
    }
  }

  lemma PlaysStep(rs: seq<Report>)
    requires rs != []
    ensures PlaysAt(rs) <==> rs[0].state == Playing || PlaysAt(rs[1..])
  {
    if PlaysAt(rs[1..]) {
      var i :| 0 <= i < |rs[1..]| && rs[1..][i].state == Playing;
      assert rs[i + 1].state == Playing;
    }
    if i :| 0 <= i < |rs| && rs[i].state == Playing && i > 0 {
      assert rs[1..][i - 1].state == Playing;
    }
  }

  lemma {:induction false} FedKeys(s: SessionView, rs: seq<Report>)
    requires OneTrack(s.key, rs)
    ensures forall o :: o in FedOut(Some(s), rs) ==> o.key == s.key
    decreases |rs|
  {
    if rs != [] {
      OwnReport(s, rs[0]);
      ReportOutCounts(s, rs[0]);
      if rs[0].state == Stopped {
        assert rs[1..] == [];
      } else {
        FedKeys(AfterReport(s, rs[0]), rs[1..]);
      }
    }
  }

  /** Time in Playing only grows, so the threshold is found reached by the end if it is reached at all. */
  lemma {:induction false} ReachedByEnd(played: nat, threshold: nat, state: PlayState, at: int, rs: seq<Report>)
    ensures ReachedDuring(played, threshold, state, at, rs) ==> played + PlayedTime(state, at, rs) >= threshold
    ensures rs != [] && rs[|rs| - 1].state != Starting && played + PlayedTime(state, at, rs) >= threshold
      ==> ReachedDuring(played, threshold, state, at, rs)
    decreases |rs|
  {
    if rs != [] {
      var now := played + (if state == Playing then ElapsedMs(at, rs[0].at) else 0);
      ReachedByEnd(now, threshold, rs[0].state, rs[0].at, rs[1..]);
      if |rs| > 1 {
        assert rs[1..][|rs[1..]| - 1] == rs[|rs| - 1];
      }
    }
  }

  // ------------------------------------------------------------------- closed sessions

  /** How a session ends: its last report is Stopped, another track reports, it is dropped, or it is still open. */
  datatype Closing = ByStop | ByOtherTrack(at: int) | Dropped | StillOpen

  datatype SessionRun = SessionRun(reports: seq<Report>, closing: Closing)

  /** Everything one session submits. */
  function SessionOut(run: SessionRun): seq<Submission> {
    FedOut(None, run.reports)
      + (if run.closing.ByOtherTrack? then Finalized(Fed(None, run.reports), run.closing.at) else [])
  }

  ghost predicate WellFormed(run: SessionRun) {
    && run.reports != [] && OneTrack(run.reports[0].key, run.reports)
    && (run.closing.ByStop? <==> run.reports[|run.reports| - 1].state == Stopped)
  }

  /** The time in Playing when the session is finalized, or after its last report. */
  function TimeAtClose(run: SessionRun): nat
    requires run.reports != []
  {
    var rs := run.reports;
    PlayedTime(Starting, rs[0].at, rs)
    + (if run.closing.ByOtherTrack? && rs[|rs| - 1].state == Playing
       then ElapsedMs(rs[|rs| - 1].at, run.closing.at) else 0)
  }

  /** The first report of a fresh session submits through the same path as any other. */
  lemma FirstReport(rs: seq<Report>)
    requires rs != [] && OneTrack(rs[0].key, rs)
    ensures var s := Blank(rs[0]); Fed(None, rs) == Fed(Some(s), rs) && FedOut(None, rs) == FedOut(Some(s), rs)
  {
    var s := Blank(rs[0]);
    assert Continued(None, rs[0]) == Continued(Some(s), rs[0]) == s;
  }

  /** A session that starts with this report and has accounted nothing yet. */
  function Blank(r: Report): SessionView {
    Started(r).(state := Starting)
  }

  /** What the reports alone submit. */
  lemma ReportsSubmit(rs: seq<Report>)
    requires rs != [] && OneTrack(rs[0].key, rs)
    ensures forall o :: o in FedOut(None, rs) ==> o.key == rs[0].key
    ensures multiset(FedOut(None, rs))[NowPlaying(rs[0].key)] == (if PlaysAt(rs) then 1 else 0)
    ensures multiset(FedOut(None, rs))[Played(rs[0].key)] == PlayedCount(Blank(rs[0]), rs)
  {
    FirstReport(rs);
    FedPlayed(Blank(rs[0]), rs);
    FedNowPlaying(Blank(rs[0]), rs);
    FedKeys(Blank(rs[0]), rs);
  }

  /** What the reports leave behind. */
  lemma ReportsLeave(rs: seq<Report>)
    requires rs != [] && OneTrack(rs[0].key, rs)
    ensures LeavesAccount(Blank(rs[0]), rs, Fed(None, rs))
  {
    FirstReport(rs);
    FedState(Blank(rs[0]), rs);
  }

  /** A scrobble submitted by the reports has earned its time; a last report that submits leaves none over. */
  lemma PlayedCountMeans(rs: seq<Report>)
    requires rs != []
    ensures var total := PlayedTime(Starting, rs[0].at, rs);
      && (PlayedCount(Blank(rs[0]), rs) == 1 ==> total >= ThresholdMs(rs[0].durationMs))
      && (rs[|rs| - 1].state != Starting && total >= ThresholdMs(rs[0].durationMs)
          ==> PlayedCount(Blank(rs[0]), rs) == 1)
  {
    ReachedByEnd(0, ThresholdMs(rs[0].durationMs), Starting, rs[0].at, rs);
  }

  /** What finalizing an open session adds. */
  lemma FinalizeAdds(s: SessionView, now: int)
    ensures var out := Finalized(Some(s), now);
      && (forall o :: o in out ==> o == Played(s.key))
      && multiset(out)[NowPlaying(s.key)] == 0
      && multiset(out)[Played(s.key)]
          == (if !s.playedScrobbled && AccountAt(s, now) >= ThresholdMs(s.durationMs) then 1 else 0)
  {}

  /** A session finalized by another track. */
  lemma FinalizedByOtherTrack(rs: seq<Report>, now: int)
    requires rs != [] && OneTrack(rs[0].key, rs) && rs[|rs| - 1].state != Stopped
    ensures var out := Finalized(Fed(None, rs), now);
      && (forall o :: o in out ==> o.key == rs[0].key)
      && multiset(out)[NowPlaying(rs[0].key)] == 0
      && multiset(out)[Played(rs[0].key)] ==
         (if PlayedCount(Blank(rs[0]), rs) == 0
           && TimeAtClose(SessionRun(rs, ByOtherTrack(now))) >= ThresholdMs(rs[0].durationMs) then 1 else 0)
  {
    var last := Fed(None, rs);
    ReportsLeave(rs);
    FinalizeAdds(last.value, now);
    assert AccountAt(last.value, now) == TimeAtClose(SessionRun(rs, ByOtherTrack(now)));
  }

  /**
   Each session submits at most one now-playing, exactly when it reports Playing, and at
   most one played scrobble.  A finalized session submits it exactly when its total time in
   Playing has reached the threshold, whatever positions were reported.
   */
  lemma SessionScrobbles(run: SessionRun)
    requires WellFormed(run)
    ensures var out, key := SessionOut(run), run.reports[0].key;
      var threshold := ThresholdMs(run.reports[0].durationMs);
      && (forall o :: o in out ==> o.key == key)
      && multiset(out)[NowPlaying(key)] == (if PlaysAt(run.reports) then 1 else 0)
      && multiset(out)[Played(key)] <= 1
      && (multiset(out)[Played(key)] == 1 ==> TimeAtClose(run) >= threshold)
      && (run.closing.ByStop? || run.closing.ByOtherTrack? ==>
            multiset(out)[Played(key)] == (if TimeAtClose(run) >= threshold then 1 else 0))
  {
    PlayedCountMeans(run.reports);
    SessionCounts(run);
  }

  /** The submissions of a session, counted by kind. */
  lemma SessionCounts(run: SessionRun)
    requires WellFormed(run)
    ensures var rs, out, key := run.reports, SessionOut(run), run.reports[0].key;
      var already := PlayedCount(Blank(rs[0]), rs);
      && (forall o :: o in out ==> o.key == key)
      && multiset(out)[NowPlaying(key)] == (if PlaysAt(rs) then 1 else 0)
      && multiset(out)[Played(key)] == already
           + (if run.closing.ByOtherTrack? && already == 0 && TimeAtClose(run) >= ThresholdMs(rs[0].durationMs)
              then 1 else 0)
  {
    var rs := run.reports;
    ReportsSubmit(rs);
    if run.closing.ByOtherTrack? {
      FinalizedByOtherTrack(rs, run.closing.at);
      ConcatCounts(FedOut(None, rs), Finalized(Fed(None, rs), run.closing.at), rs[0].key);
      assert TimeAtClose(run) == TimeAtClose(SessionRun(rs, ByOtherTrack(run.closing.at)));
    } else {
      assert SessionOut(run) == FedOut(None, rs);
    }
  }

  lemma ConcatCounts(a: seq<Submission>, b: seq<Submission>, key: TrackKey)
    ensures multiset(a + b)[Played(key)] == multiset(a)[Played(key)] + multiset(b)[Played(key)]
    ensures multiset(a + b)[NowPlaying(key)] == multiset(a)[NowPlaying(key)] + multiset(b)[NowPlaying(key)]
    ensures (forall o :: o in a ==> o.key == key) && (forall o :: o in b ==> o.key == key)
        ==> forall o :: o in a + b ==> o.key == key
  {
    assert multiset(a + b) == multiset(a) + multiset(b);
  }

  // ------------------------------------------------------------ any command sequence

  function Output(session: Option<SessionView>, cs: seq<Command>): seq<Submission>
    decreases |cs|
  {
    if cs == [] then []
    else Handled(session, cs[0]) + Output(NextState(session, cs[0]), cs[1..])
  }

  /** How many further reports belong to the session of `key` whose last report had state `state`. */
  function RunLength(key: TrackKey, state: PlayState, cs: seq<Command>): (n: nat)
    ensures n <= |cs|
    ensures forall i :: 0 <= i < n ==> cs[i].Fallback?
    decreases |cs|
  {
    if state == Stopped || cs == [] || !cs[0].Fallback? || cs[0].report.key != key then 0
    else 1 + RunLength(key, cs[0].report.state, cs[1..])
  }

  function ReportsOf(cs: seq<Command>): seq<Report>
    requires forall i :: 0 <= i < |cs| ==> cs[i].Fallback?
  {
    seq(|cs|, i requires 0 <= i < |cs| => cs[i].report)
  }

  /** The sessions of a command sequence: maximal runs of one key up to Stopped or a change of key. */
  function Sessions(cs: seq<Command>): seq<SessionRun>
    decreases |cs|
  {
    if cs == [] then []
    else if !cs[0].Fallback? then Sessions(cs[1..])
    else
      var n := FirstLength(cs);
      [SessionRun(ReportsOf(cs[..n]), ClosingOf(cs, n))] + Sessions(cs[n..])
  }

  /** How the session of the first n commands ends. */
  function ClosingOf(cs: seq<Command>, n: nat): Closing
    requires 1 <= n <= |cs| && cs[n - 1].Fallback?
  {
    if cs[n - 1].report.state == Stopped then ByStop
    else if n == |cs| then StillOpen
    else if cs[n].Fallback? then ByOtherTrack(cs[n].report.at)
    else Dropped
  }

  function AllOut(runs: seq<SessionRun>): seq<Submission> {
    if runs == [] then [] else SessionOut(runs[0]) + AllOut(runs[1..])
  }

  /** The run of a session is one track's, and only its last report may be Stopped. */
  lemma {:induction false} RunIsOneTrack(key: TrackKey, state: PlayState, cs: seq<Command>)
    ensures var n := RunLength(key, state, cs);
      && (forall i :: 0 <= i < n ==> cs[i].report.key == key)
      && (forall i :: 0 <= i < n - 1 ==> cs[i].report.state != Stopped)
      && (n > 0 ==> state != Stopped)
      && (n < |cs| && cs[n].Fallback? && (if n == 0 then state else cs[n - 1].report.state) != Stopped
          ==> cs[n].report.key != key)
    decreases |cs|
  {
    if RunLength(key, state, cs) > 0 {
      RunIsOneTrack(key, cs[0].report.state, cs[1..]);
      var n := RunLength(key, state, cs);
      assert forall i :: 1 <= i < n ==> cs[i] == cs[1..][i - 1];
      assert n < |cs| ==> cs[n] == cs[1..][n - 1];
    }
  }

  lemma {:induction false} OutputSplits(session: Option<SessionView>, cs: seq<Command>, n: nat)
    requires n <= |cs| && forall i :: 0 <= i < n ==> cs[i].Fallback?
    ensures Output(session, cs) == FedOut(session, ReportsOf(cs[..n]))
        + Output(Fed(session, ReportsOf(cs[..n])), cs[n..])
    decreases n
  {
    var rs := ReportsOf(cs[..n]);
    if n > 0 {
      var next := NextSession(session, rs[0]);
      OutputSplits(next, cs[1..], n - 1);
      assert rs[1..] == ReportsOf(cs[1..][..n - 1]);
      assert cs[1..][n - 1..] == cs[n..];
      Associates(Reported(session, rs[0]), FedOut(next, rs[1..]), Output(Fed(next, rs[1..]), cs[n..]));
    } else {
      assert cs[0..] == cs;
    }
  }

  lemma Associates<T>(a: seq<T>, b: seq<T>, c: seq<T>)
    ensures a + (b + c) == a + b + c
  {}

  /** A report of another track finalizes the session and then starts from nothing. */
  lemma OtherTrackFinalizes(s: SessionView, cs: seq<Command>)
    requires cs != [] && cs[0].Fallback? && cs[0].report.key != s.key
    ensures Output(Some(s), cs) == Finalized(Some(s), cs[0].report.at) + Output(None, cs)
  {
    var r := cs[0].report;
    assert Continued(Some(s), r) == Continued(None, r);
    assert [] + ReportOut(Continued(None, r), r) == ReportOut(Continued(None, r), r);
    Associates(Finalized(Some(s), r.at), ReportOut(Continued(None, r), r), Output(NextSession(None, r), cs[1..]));
  }

  /** For every command sequence the submissions are those of its sessions, one session after the other. */
  lemma {:induction false} OutputIsBySession(cs: seq<Command>)
    ensures Output(None, cs) == AllOut(Sessions(cs))
    ensures forall k :: 0 <= k < |Sessions(cs)| ==> WellFormed(Sessions(cs)[k])
    decreases |cs|
  {
    if cs == [] {
    } else if !cs[0].Fallback? {
      OutputIsBySession(cs[1..]);
    } else {
      var n := FirstLength(cs);
      var run := Sessions(cs)[0];
      assert Sessions(cs) == [run] + Sessions(cs[n..]);
      FirstSession(cs, run);
      OutputSplits(None, cs, n);
      OutputIsBySession(cs[n..]);
      SessionTail(run, cs[n..]);
    }
  }

  /** How many commands the first session takes. */
  function FirstLength(cs: seq<Command>): (n: nat)
    requires cs != [] && cs[0].Fallback?
    ensures 1 <= n <= |cs|
    ensures forall i :: 0 <= i < n ==> cs[i].Fallback?
  {
    var n := 1 + RunLength(cs[0].report.key, cs[0].report.state, cs[1..]);
    assert forall i :: 1 <= i < n ==> cs[i] == cs[1..][i - 1];
    n
  }

  /** The first session's commands are one track's, up to Stopped or a change of key. */
  lemma FirstRun(cs: seq<Command>)
    requires cs != [] && cs[0].Fallback?
    ensures var n := FirstLength(cs);
      && (forall i :: 0 <= i < n ==> cs[i].report.key == cs[0].report.key)
      && (forall i :: 0 <= i < n - 1 ==> cs[i].report.state != Stopped)
      && (n < |cs| && cs[n].Fallback? && cs[n - 1].report.state != Stopped ==> cs[n].report.key != cs[0].report.key)
  {
    RunIsOneTrack(cs[0].report.key, cs[0].report.state, cs[1..]);
    assert forall i :: 1 <= i < |cs| ==> cs[i] == cs[1..][i - 1];
  }

  /** The first session is well formed and its closing says what comes after it. */
  lemma FirstSession(cs: seq<Command>, run: SessionRun)
    requires cs != [] && cs[0].Fallback? && run == Sessions(cs)[0]
    ensures WellFormed(run) && run.reports == ReportsOf(cs[..FirstLength(cs)]) && ClosedBy(run, cs[FirstLength(cs)..])
  {
    var n := FirstLength(cs);
    FirstRun(cs);
    assert run == SessionRun(ReportsOf(cs[..n]), ClosingOf(cs, n));
    assert forall i :: 0 <= i < n ==> run.reports[i] == cs[i].report;
  }

  /** How the commands after a session closed it. */
  predicate ClosedBy(run: SessionRun, rest: seq<Command>)
    requires run.reports != []
  {
    match run.closing
    case ByStop => true
    case StillOpen => rest == []
    case ByOtherTrack(at) =>
      rest != [] && rest[0].Fallback? && rest[0].report.at == at && rest[0].report.key != run.reports[0].key
    case Dropped => rest != [] && !rest[0].Fallback?
  }

  /** What follows a session's reports: its finalization, if any, and the output of a fresh start. */
  lemma SessionTail(run: SessionRun, rest: seq<Command>)
    requires WellFormed(run) && ClosedBy(run, rest)
    ensures FedOut(None, run.reports) + Output(Fed(None, run.reports), rest) == SessionOut(run) + Output(None, rest)
  {
    var rs := run.reports;
    var last, out := Fed(None, rs), FedOut(None, rs);
    ReportsLeave(rs);
    if run.closing.ByOtherTrack? {
      OtherTrackFinalizes(last.value, rest);
      Associates(out, Finalized(last, run.closing.at), Output(None, rest));
    } else {
      assert out + [] == out;
    }
  }

  // -------------------------------------------------------------------- real time

  /** Nanoseconds really spent in Playing. */
  function RealTime(state: PlayState, at: int, rs: seq<Report>): nat
    decreases |rs|
  {
    if rs == [] then 0
    else (if state == Playing && rs[0].at > at then rs[0].at - at else 0) + RealTime(rs[0].state, rs[0].at, rs[1..])
  }

  /** The account never exceeds the real time and loses less than a millisecond a report. */
  lemma {:induction false} AccountFollowsRealTime(state: PlayState, at: int, rs: seq<Report>)
    ensures PlayedTime(state, at, rs) * 1_000_000 <= RealTime(state, at, rs)
    ensures RealTime(state, at, rs) <= (PlayedTime(state, at, rs) + |rs|) * 1_000_000
    decreases |rs|
  {
    if rs != [] {
      AccountFollowsRealTime(rs[0].state, rs[0].at, rs[1..]);
    }
  }

  /** Between reports the position moves with the account; a report sets position, state and instant. */
  lemma PositionFollows(s: SessionView, now: int, session: Option<SessionView>, r: Report)
    ensures var s' := Refreshed(s, now);
      && s'.playedMs == AccountAt(s, now) && s'.positionMs - s.positionMs == s'.playedMs - s.playedMs
      && s'.updatedAt == now && s'.state == s.state
    ensures var next := NextSession(session, r);
      && (next.None? <==> r.state == Stopped)
      && (next.Some? ==>
            var n := next.value;
            n.key == r.key && n.positionMs == r.positionMs && n.state == r.state && n.updatedAt == r.at)
  {}

  /** A session submits exactly when its account reaches the threshold and it has not submitted; then never again. */
  lemma SubmitsOnce(s: SessionView, now: int, later: int)
    ensures var (s', out) := Submitted(s, now);
      && out == (if !s.playedScrobbled && AccountAt(s, now) >= ThresholdMs(s.durationMs) then [Played(s.key)] else [])
      && (s'.playedScrobbled <==> s.playedScrobbled || out != [])
      && (s'.playedScrobbled ==> Submitted(s', later).1 == [])
      && s' == Refreshed(s, now).(playedScrobbled := s'.playedScrobbled)
  {}

  /** Two report sequences that differ only in positions submit the same. */
  lemma {:induction false} PositionsDoNotMatter(a: Option<SessionView>, b: Option<SessionView>, cs: seq<Command>,
                                                ds: seq<Command>)
    requires SameButPosition(a, b) && |cs| == |ds|
    requires forall i :: 0 <= i < |cs| ==> SameCommand(cs[i], ds[i])
    ensures Output(a, cs) == Output(b, ds)
    decreases |cs|
  {
    if cs != [] {
      assert SameCommand(cs[0], ds[0]);
      SameStep(a, b, cs[0], ds[0]);
      PositionsDoNotMatter(NextState(a, cs[0]), NextState(b, ds[0]), cs[1..], ds[1..]);
    }
  }

  lemma SameStep(a: Option<SessionView>, b: Option<SessionView>, c: Command, d: Command)
    requires SameButPosition(a, b) && SameCommand(c, d)
    ensures Handled(a, c) == Handled(b, d) && SameButPosition(NextState(a, c), NextState(b, d))
  {
    if c.Fallback? {
      var x, y := Continued(a, c.report), Continued(b, d.report);
      assert x.(positionMs := 0) == y.(positionMs := 0);
      assert ReportOut(x, c.report) == ReportOut(y, d.report);
    }
  }

  predicate SameButPosition(a: Option<SessionView>, b: Option<SessionView>) {
    if a.None? || b.None? then a == b else a.value.(positionMs := 0) == b.value.(positionMs := 0)
  }

  predicate SameCommand(c: Command, d: Command) {
    if c.Fallback? && d.Fallback? then c.report.(positionMs := 0) == d.report.(positionMs := 0) else c == d
  }
}
