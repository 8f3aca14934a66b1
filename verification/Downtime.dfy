/**
 * Recorded gaps: what the session loop writes down when the machine slept. Over any run
 * the gaps are long, disjoint and in order, and no session begins or ends inside one; and the
 * gaps a life of the process adds are exactly the silences between its session ticks.
 */
module Downtime {
  import opened Basics
  import opened Database
  import opened Watcher
  import opened Collector
  import opened Integrity
  import opened Ledgers

  /** Gaps last a minute or more, follow each other, and lie in the past. */
  ghost predicate InSequence(gaps: seq<Gap>, clock: int) {
    && (forall i :: 0 <= i < |gaps| ==> gaps[i].end - gaps[i].start >= 60 && gaps[i].end <= clock)
    && (forall i, j :: 0 <= i < j < |gaps| ==> gaps[i].end <= gaps[j].start)
  }

  predicate Inside(t: int, g: Gap) {
    g.start < t < g.end
  }

  /** Neither end of a session falls inside a gap. */
  ghost predicate Undisturbed(sessions: Sessions, gaps: seq<Gap>) {
    forall id, g :: id in sessions && g in gaps ==>
      && !Inside(sessions[id].startedAt, g)
      && (sessions[id].endedAt.Some? ==> !Inside(sessions[id].endedAt.value, g))
  }

  /** Once the session loop has run, nothing recorded is later than its last pass. */
  ghost predicate NothingSince(db: Tables, m: Memory) {
    m.lastSession != 0 ==>
      && SessionsDated(db.sessions, m.lastSession)
      && (forall g :: g in db.gaps ==> g.end <= m.lastSession)
  }

  ghost predicate Accounted(w: World, clock: int) {
    && SessionsDated(w.db.sessions, clock)
    && InSequence(w.db.gaps, clock)
    && Undisturbed(w.db.sessions, w.db.gaps)
    && (w.mem.Some? ==> Watching(w.db.sessions, w.mem.value) && NothingSince(w.db, w.mem.value))
  }

  /** Sessions that change only at `now` do so after every recorded gap. */
  lemma ChangesFollowGaps(before: Sessions, after: Sessions, gaps: seq<Gap>, clock: int, now: int)
    requires SessionsDated(before, clock) && clock <= now && Undisturbed(before, gaps) && InSequence(gaps, clock)
    requires Extends(before, after, now)
    requires forall id :: id in after && id !in before ==> after[id].startedAt == now && after[id].endedAt.None?
    ensures SessionsDated(after, now) && Undisturbed(after, gaps)
  {
  }

  /** A new gap starts no earlier than anything recorded, and ends now. */
  lemma GapFits(db: Tables, last: int, clock: int, now: int)
    requires SessionsDated(db.sessions, last) && (forall g :: g in db.gaps ==> g.end <= last)
    requires InSequence(db.gaps, clock) && Undisturbed(db.sessions, db.gaps)
    requires clock <= now && now - last >= GAP_THRESHOLD_SEC
    ensures InSequence(db.gaps + [Gap(last, now)], now)
    ensures Undisturbed(db.sessions, db.gaps + [Gap(last, now)])
  {
  }

  lemma SessionTickAccounts(cfg: Config, db: Tables, m: Memory, snapshot: Option<Snapshot>, clock: int, now: int)
    requires Accounted(World(db, Some(m)), clock) && clock <= now
    ensures Accounted(SessionTicked(cfg, db, m, snapshot, now), now)
  {
    if now - m.lastSession >= cfg.sessionPoll {
      var gaps := SessionTicked(cfg, db, m, snapshot, now).db.gaps;
      var after := Reconcile(db.sessions, m.held, snapshot, now).sessions;
      if m.lastSession != 0 && now - m.lastSession >= GAP_THRESHOLD_SEC {
        GapFits(db, m.lastSession, clock, now);
      } else {
        assert gaps == db.gaps;
      }
      ReconcileKeeps(db.sessions, m.held, snapshot, now);
      ChangesFollowGaps(db.sessions, after, gaps, now, now);
    }
  }

  lemma StartAccounts(db: Tables, clock: int, now: int)
    requires Accounted(World(db, None), clock) && clock <= now
    ensures Accounted(Started(db, now), now)
  {
    StartupAdopts(db.sessions, now);
    ChangesFollowGaps(db.sessions, OrphansClosed(db.sessions, now), db.gaps, clock, now);
  }

  lemma ShutdownAccounts(db: Tables, m: Memory, clock: int, now: int)
    requires Accounted(World(db, Some(m)), clock) && clock <= now
    ensures Accounted(ShutDown(db, m, now), now)
  {
    if m.active.Some? {
      ChangesFollowGaps(db.sessions, Closed(db.sessions, m.active.value, now), db.gaps, clock, now);
    }
  }

  lemma {:induction false} KeptInSequence(gaps: seq<Gap>, cutoff: int, clock: int)
    requires InSequence(gaps, clock)
    ensures InSequence(GapsSince(gaps, cutoff), clock)
    ensures forall g :: g in GapsSince(gaps, cutoff) ==> g in gaps
  {
    if gaps != [] {
      var n := |gaps| - 1;
      var before := GapsSince(gaps[..n], cutoff);
      KeptInSequence(gaps[..n], cutoff, clock);
      assert forall g :: g in gaps[..n] ==> g.end <= gaps[n].start;
      assert forall i :: 0 <= i < |before| ==> before[i] in before;
    }
  }

  lemma PurgedUndisturbed(before: Sessions, expired: set<int>, gaps: seq<Gap>, kept: seq<Gap>, clock: int)
    requires SessionsDated(before, clock) && Undisturbed(before, gaps)
    requires forall g :: g in kept ==> g in gaps
    ensures SessionsDated(before - expired, clock) && Undisturbed(before - expired, kept)
  {
  }

  lemma PurgeAccounts(cfg: Config, db: Tables, m: Memory, clock: int, now: int)
    requires Accounted(World(db, Some(m)), clock) && clock <= now
    ensures Accounted(RetentionTicked(cfg, db, m, now), now)
  {
    var cutoff := now - cfg.sampleRetention;
    KeptInSequence(db.gaps, cutoff, clock);
    PurgeKeepsHeld(db.sessions, m.held, cutoff);
    PurgedUndisturbed(db.sessions, ExpiredIds(db.sessions, cutoff), db.gaps, GapsSince(db.gaps, cutoff), clock);
  }

  lemma StepAccounts(cfg: Config, w: World, e: Event, clock: int)
    requires Enabled(w, e) && Accounted(w, clock) && clock <= e.now
    ensures Accounted(Step(cfg, w, e), e.now)
  {
    match e
    case Start(now) => StartAccounts(w.db, clock, now);
    case SessionPoll(snapshot, now) => SessionTickAccounts(cfg, w.db, w.mem.value, snapshot, clock, now);
    case RetentionPoll(now) => PurgeAccounts(cfg, w.db, w.mem.value, clock, now);
    case Shutdown(now) => ShutdownAccounts(w.db, w.mem.value, clock, now);
    case _ =>
  }

  /**
   * In every state of every run, with sleeps, crashes, restarts and purges, recorded gaps
   * last a minute or more, are disjoint and in order, and no session begins or ends inside one.
   */
  lemma {:induction false} RunAccounts(cfg: Config, w: World, clock: int, events: seq<Event>)
    requires ValidRun(cfg, w, clock, events) && Accounted(w, clock)
    ensures var after := Run(cfg, w, clock, events);
            && Accounted(after, EndClock(clock, events))
            && InSequence(after.db.gaps, EndClock(clock, events))
            && Undisturbed(after.db.sessions, after.db.gaps)
    decreases |events|
  {
    if events != [] {
      StepAccounts(cfg, w, events[0], clock);
      RunAccounts(cfg, Step(cfg, w, events[0]), events[0].now, events[1..]);
    }
  }

  // ---------------------------------------------------------------------------------
  // Which gaps are recorded.

  /** When the session loop runs a tick. */
  function TickAt(cfg: Config, w: World, e: Event): seq<int>
    requires Enabled(w, e)
  {
    if e.SessionPoll? && e.now - w.mem.value.lastSession >= cfg.sessionPoll then [e.now] else []
  }

  ghost function TickTimes(cfg: Config, w: World, clock: int, events: seq<Event>): seq<int>
    requires ValidRun(cfg, w, clock, events)
    decreases |events|
  {
    if events == [] then []
    else TickAt(cfg, w, events[0]) + TickTimes(cfg, Step(cfg, w, events[0]), events[0].now, events[1..])
  }

  function GapsBy(cfg: Config, w: World, e: Event): seq<Gap>
    requires Enabled(w, e)
  {
    if e.SessionPoll? then Step(cfg, w, e).db.gaps[|w.db.gaps|..] else []
  }

  /** The gaps a run adds, deleted later or not. */
  ghost function GapsAdded(cfg: Config, w: World, clock: int, events: seq<Event>): seq<Gap>
    requires ValidRun(cfg, w, clock, events)
    decreases |events|
  {
    if events == [] then []
    else GapsBy(cfg, w, events[0]) + GapsAdded(cfg, Step(cfg, w, events[0]), events[0].now, events[1..])
  }

  /** The silences of a minute or more between successive ticks, after one at `last`; 0 stands for no tick yet. */
  function Silences(last: int, times: seq<int>): seq<Gap>
    decreases |times|
  {
    if times == [] then []
    else
      (if last != 0 && times[0] - last >= GAP_THRESHOLD_SEC then [Gap(last, times[0])] else [])
      + Silences(times[0], times[1..])
  }

  /** Two successive ticks a minute or more apart, the first not at 0. */
  ghost predicate SilentAt(times: seq<int>, i: int, g: Gap) {
    && 0 <= i < |times| - 1 && g == Gap(times[i], times[i + 1])
    && times[i] != 0 && times[i + 1] - times[i] >= 60
  }

  lemma {:induction false} SilenceAfter(last: int, times: seq<int>, g: Gap)
    ensures g in Silences(last, times) <==> exists i :: SilentAt([last] + times, i, g)
    decreases |times|
  {
    var all := [last] + times;
    if times != [] {
      assert all[1..] == [times[0]] + times[1..];
      SilenceAfter(times[0], times[1..], g);
      var rest := [times[0]] + times[1..];
      if g in Silences(times[0], times[1..]) {
        var j :| SilentAt(rest, j, g);
        assert SilentAt(all, j + 1, g);
      } else if g in Silences(last, times) {
        assert SilentAt(all, 0, g);
      }
      if i :| SilentAt(all, i, g) {
        assert i > 0 ==> SilentAt(rest, i - 1, g);
      }
    }
  }

  /** A silence is a pair of successive ticks a minute or more apart. */
  lemma SilencesIff(times: seq<int>, g: Gap)
    ensures g in Silences(0, times) <==> exists i :: SilentAt(times, i, g)
  {
    if times != [] {
      SilenceAfter(times[0], times[1..], g);
      assert [times[0]] + times[1..] == times;
    }
  }

  /** A life adds exactly the silences between its session ticks, starting with no tick. */
  lemma {:induction false} LifeGaps(cfg: Config, w: World, clock: int, events: seq<Event>)
    requires ValidRun(cfg, w, clock, events) && SameProcess(events) && w.mem.Some?
    ensures GapsAdded(cfg, w, clock, events)
         == Silences(w.mem.value.lastSession, TickTimes(cfg, w, clock, events))
    decreases |events|
  {
    if events != [] {
      var e, rest := events[0], events[1..];
      assert e in events && SameProcess(rest);
      StepGaps(cfg, w, e);
      LifeGaps(cfg, Step(cfg, w, e), e.now, rest);
      var times := TickTimes(cfg, Step(cfg, w, e), e.now, rest);
      if TickAt(cfg, w, e) == [] {
        assert [] + times == times;
        assert [] + GapsAdded(cfg, Step(cfg, w, e), e.now, rest) == GapsAdded(cfg, Step(cfg, w, e), e.now, rest);
      } else {
        assert ([e.now] + times)[1..] == times;
      }
    }
  }

  lemma StepGaps(cfg: Config, w: World, e: Event)
    requires Enabled(w, e) && w.mem.Some? && !e.Shutdown? && !e.Crash?
    ensures var m, after := w.mem.value, Step(cfg, w, e);
            && after.mem.Some?
            && (TickAt(cfg, w, e) == [] ==> GapsBy(cfg, w, e) == [] && after.mem.value.lastSession == m.lastSession)
            && (TickAt(cfg, w, e) != [] ==>
                  && TickAt(cfg, w, e) == [e.now] && after.mem.value.lastSession == e.now
                  && GapsBy(cfg, w, e)
                     == if m.lastSession != 0 && e.now - m.lastSession >= GAP_THRESHOLD_SEC
                        then [Gap(m.lastSession, e.now)] else [])
  {
  }
}
