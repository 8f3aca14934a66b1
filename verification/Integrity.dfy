/**
 * What every run of the collector keeps, from any database it may be started on:
 * rows refer to sessions that cover them, one session at most is open, and purging never
 * meets a foreign key.
 */
module Integrity {
  import opened Basics
  import opened Database
  import opened Watcher
  import opened Collector

  // ---------------------------------------------------------------------------------
  // Runs: sequences of enabled steps under a clock that never goes back.

  ghost predicate ValidRun(cfg: Config, w: World, clock: int, events: seq<Event>)
    decreases |events|
  {
    events == [] || (
      && Enabled(w, events[0])
      && clock <= events[0].now
      && ValidRun(cfg, Step(cfg, w, events[0]), events[0].now, events[1..]))
  }

  ghost function Run(cfg: Config, w: World, clock: int, events: seq<Event>): World
    requires ValidRun(cfg, w, clock, events)
    decreases |events|
  {
    if events == [] then w
    else Run(cfg, Step(cfg, w, events[0]), events[0].now, events[1..])
  }

  function EndClock(clock: int, events: seq<Event>): int {
    if events == [] then clock else events[|events| - 1].now
  }

  lemma {:induction false} ClockAdvances(cfg: Config, w: World, clock: int, events: seq<Event>)
    requires ValidRun(cfg, w, clock, events)
    ensures clock <= EndClock(clock, events)
    decreases |events|
  {
    if events != [] {
      ClockAdvances(cfg, Step(cfg, w, events[0]), events[0].now, events[1..]);
    }
  }

  // ---------------------------------------------------------------------------------
  // The invariant.

  /** A row refers to a session that existed when it was stored and had not ended before. */
  ghost predicate Covered(sessions: Sessions, ts: int, sid: int, clock: int) {
    && sid in sessions
    && sessions[sid].startedAt <= ts <= clock
    && (sessions[sid].endedAt.Some? ==> ts <= sessions[sid].endedAt.value)
  }

  ghost predicate SessionsDated(sessions: Sessions, clock: int) {
    forall id :: id in sessions ==>
      && sessions[id].startedAt <= clock
      && (sessions[id].endedAt.Some? ==> sessions[id].startedAt <= sessions[id].endedAt.value <= clock)
  }

  ghost predicate Sound(db: Tables, clock: int) {
    && SessionsDated(db.sessions, clock)
    && (forall r :: r in db.iface ==> Covered(db.sessions, r.ts, r.sid, clock))
    && (forall r :: r in db.procs ==> Covered(db.sessions, r.ts, r.sid, clock))
    && (forall r :: r in db.conns ==> Covered(db.sessions, r.ts, r.sid, clock))
  }

  ghost predicate Inv(w: World, clock: int) {
    && Sound(w.db, clock)
    && (w.mem.Some? ==> Watching(w.db.sessions, w.mem.value))
  }

  // ---------------------------------------------------------------------------------
  // One lemma per kind of step.

  lemma ExtendedRowsCovered(db: Tables, after: Sessions, clock: int, now: int)
    requires Sound(db, clock) && clock <= now
    requires Extends(db.sessions, after, now)
    requires forall id :: id in after && id !in db.sessions ==> after[id].startedAt == now && after[id].endedAt.None?
    ensures Sound(db.(sessions := after), now)
  {
  }

  /** Every row a process tick stores carries the tick's time and the active session. */
  lemma {:induction false} StoredProcessRows(
    procIn: Delta.Anchors, procOut: Delta.Anchors, rows: seq<Nettop.NettopRow>, now: int, maxPerSec: int,
    active: Option<int>)
    ensures forall r :: r in ProcessesStored(procIn, procOut, rows, now, maxPerSec, active) ==>
              r.ts == now && active == Some(r.sid)
  {
    if rows != [] {
      StoredProcessRows(procIn, procOut, rows[..|rows| - 1], now, maxPerSec, active);
    }
  }

  lemma SweptMembers(t: Tables, cutoff: int)
    ensures forall r :: r in SamplesPurged(t, cutoff).iface <==> r in t.iface && r.ts >= cutoff
    ensures forall r :: r in SamplesPurged(t, cutoff).procs <==> r in t.procs && r.ts >= cutoff
    ensures forall r :: r in SamplesPurged(t, cutoff).conns <==> r in t.conns && r.ts >= cutoff
  {
    KeepMembers(t.iface, (r: InterfaceSample) => r.ts >= cutoff);
    KeepMembers(t.procs, (r: ProcessSample) => r.ts >= cutoff);
    KeepMembers(t.conns, (r: Connection) => r.ts >= cutoff);
  }

  /** No surviving row refers to an expired session, so the foreign keys never stop a purge. */
  lemma PurgeNeverRefused(db: Tables, clock: int, cutoff: int)
    requires Sound(db, clock)
    ensures !PurgeRefused(db, cutoff)
  {
    SweptMembers(db, cutoff);
  }

  /** A row young enough to survive keeps its session. */
  lemma CoverSurvives(sessions: Sessions, ts: int, sid: int, clock: int, cutoff: int, now: int)
    requires Covered(sessions, ts, sid, clock) && cutoff <= ts && clock <= now
    ensures Covered(sessions - ExpiredIds(sessions, cutoff), ts, sid, now)
  {
  }

  lemma PurgedIsSound(db: Tables, clock: int, now: int, sampleRetention: int, dnsRetention: int)
    requires Sound(db, clock) && clock <= now
    ensures Sound(Purged(db, now, sampleRetention, dnsRetention), now)
  {
    var cutoff := now - sampleRetention;
    var after := Purged(db, now, sampleRetention, dnsRetention);
    PurgeNeverRefused(db, clock, cutoff);
    SweptMembers(db, cutoff);
    forall r | r in after.iface
      ensures Covered(after.sessions, r.ts, r.sid, now)
    {
      CoverSurvives(db.sessions, r.ts, r.sid, clock, cutoff, now);
    }
    forall r | r in after.procs
      ensures Covered(after.sessions, r.ts, r.sid, now)
    {
      CoverSurvives(db.sessions, r.ts, r.sid, clock, cutoff, now);
    }
    forall r | r in after.conns
      ensures Covered(after.sessions, r.ts, r.sid, now)
    {
      CoverSurvives(db.sessions, r.ts, r.sid, clock, cutoff, now);
    }
  }

  // ---------------------------------------------------------------------------------
  // Every step, then every run.

  /** Sessions alone: holds from a database of any contents once the process has started. */
  lemma StepWatches(cfg: Config, w: World, e: Event)
    requires Enabled(w, e)
    requires w.mem.Some? ==> Watching(w.db.sessions, w.mem.value)
    ensures var after := Step(cfg, w, e);
            after.mem.Some? ==> Watching(after.db.sessions, after.mem.value)
  {
    if e.Start? {
      StartupAdopts(w.db.sessions, e.now);
    } else if e.SessionPoll? {
      ReconcileKeeps(w.db.sessions, w.mem.value.held, e.snapshot, e.now);
    } else if e.RetentionPoll? {
      PurgeKeepsHeld(w.db.sessions, w.mem.value.held, e.now - cfg.sampleRetention);
    }
  }

  lemma StartIsSound(db: Tables, clock: int, now: int)
    requires Sound(db, clock) && clock <= now
    ensures Sound(Started(db, now).db, now)
  {
    StartupAdopts(db.sessions, now);
    ExtendedRowsCovered(db, OrphansClosed(db.sessions, now), clock, now);
  }

  lemma SessionTickIsSound(cfg: Config, db: Tables, m: Memory, snapshot: Option<Snapshot>, clock: int, now: int)
    requires Sound(db, clock) && Watching(db.sessions, m) && clock <= now
    ensures Sound(SessionTicked(cfg, db, m, snapshot, now).db, now)
  {
    ReconcileKeeps(db.sessions, m.held, snapshot, now);
    ExtendedRowsCovered(db, Reconcile(db.sessions, m.held, snapshot, now).sessions, clock, now);
  }

  lemma SampleTicksAreSound(cfg: Config, db: Tables, m: Memory, e: Event, clock: int)
    requires Sound(db, clock) && Watching(db.sessions, m) && clock <= e.now
    requires e.InterfacePoll? || e.ProcessPoll? || e.ConnectionPoll?
    ensures Sound(Step(cfg, World(db, Some(m)), e).db, e.now)
  {
    assert Sound(db, e.now);
    assert m.active.Some? ==> IsOpen(db.sessions, m.active.value);
    if e.ProcessPoll? {
      StoredProcessRows(m.procIn, m.procOut, e.rows, e.now, cfg.maxPerSec, m.active);
    }
  }

  lemma ShutdownIsSound(db: Tables, m: Memory, clock: int, now: int)
    requires Sound(db, clock) && Watching(db.sessions, m) && clock <= now
    ensures Sound(ShutDown(db, m, now).db, now)
  {
    if m.active.Some? {
      ExtendedRowsCovered(db, Closed(db.sessions, m.active.value, now), clock, now);
    }
  }

  lemma StepIsSound(cfg: Config, w: World, e: Event, clock: int)
    requires Enabled(w, e) && Inv(w, clock) && clock <= e.now
    ensures Sound(Step(cfg, w, e).db, e.now)
  {
    match e
    case Start(now) => StartIsSound(w.db, clock, now);
    case SessionPoll(snapshot, now) => SessionTickIsSound(cfg, w.db, w.mem.value, snapshot, clock, now);
    case RetentionPoll(now) => PurgedIsSound(w.db, clock, now, cfg.sampleRetention, cfg.dnsRetention);
    case Shutdown(now) => ShutdownIsSound(w.db, w.mem.value, clock, now);
    case DnsDequeue(_, _, _) =>
    case Crash(_) =>
    case _ => SampleTicksAreSound(cfg, w.db, w.mem.value, e, clock);
  }

  /**
   * Referential integrity over all runs: from any database whose rows are covered by
   * their sessions, with any number of sessions open, every reachable state is sound, and
   * while the process runs its watcher holds the only open session.
   */
  lemma {:induction false} RunKeeps(cfg: Config, w: World, clock: int, events: seq<Event>)
    requires ValidRun(cfg, w, clock, events) && Inv(w, clock)
    ensures Inv(Run(cfg, w, clock, events), EndClock(clock, events))
    decreases |events|
  {
    if events != [] {
      StepIsSound(cfg, w, events[0], clock);
      StepWatches(cfg, w, events[0]);
      RunKeeps(cfg, Step(cfg, w, events[0]), events[0].now, events[1..]);
    }
  }

  /**
   * From a database of any contents whatever: after startup, in every state of every run,
   * a running watcher holds the only open session.
   */
  lemma {:induction false} RunWatches(cfg: Config, w: World, clock: int, events: seq<Event>)
    requires ValidRun(cfg, w, clock, events)
    requires w.mem.Some? ==> Watching(w.db.sessions, w.mem.value)
    ensures var after := Run(cfg, w, clock, events);
            after.mem.Some? ==> Watching(after.db.sessions, after.mem.value)
    decreases |events|
  {
    if events != [] {
      StepWatches(cfg, w, events[0]);
      RunWatches(cfg, Step(cfg, w, events[0]), events[0].now, events[1..]);
    }
  }

  /** The collector's active session is the unique open session right after a session tick. */
  lemma ActiveAfterTick(cfg: Config, w: World, snapshot: Option<Snapshot>, now: int)
    requires w.mem.Some? && Watching(w.db.sessions, w.mem.value)
    requires now - w.mem.value.lastSession >= cfg.sessionPoll
    ensures var after := Step(cfg, w, SessionPoll(snapshot, now));
            && (forall k :: IsOpen(after.db.sessions, k) <==> after.mem.value.active == Some(k))
            && (after.mem.value.active.Some? <==> snapshot.Some?)
  {
    ReconcileKeeps(w.db.sessions, w.mem.value.held, snapshot, now);
  }

  /** In every reachable state a purge runs to its end and keeps the session the watcher holds. */
  lemma RunPurgesSafely(cfg: Config, w: World, clock: int, events: seq<Event>, now: int)
    requires ValidRun(cfg, w, clock, events) && Inv(w, clock)
    ensures var after := Run(cfg, w, clock, events);
            && !PurgeRefused(after.db, now - cfg.sampleRetention)
            && (after.mem.Some? ==>
                  Holds(Purged(after.db, now, cfg.sampleRetention, cfg.dnsRetention).sessions, after.mem.value.held))
  {
    RunKeeps(cfg, w, clock, events);
    var after := Run(cfg, w, clock, events);
    PurgeNeverRefused(after.db, EndClock(clock, events), now - cfg.sampleRetention);
    if after.mem.Some? {
      PurgeKeepsHeld(after.db.sessions, after.mem.value.held, now - cfg.sampleRetention);
    }
  }

  /** A reused id is never one that a stored row still refers to. */
  lemma ReusedIdIsUnreferenced(db: Tables, clock: int)
    requires Sound(db, clock)
    ensures NextId(db.sessions) !in References(db)
  {
  }
}
