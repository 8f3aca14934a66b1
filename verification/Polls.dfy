/**
 * What each poll adds to the tables, column by column, and how polls are paced: the ticks of
 * a loop are the polls of it that come an interval or more after the tick before.
 */
module Polls {
  import opened Basics
  import opened Delta
  import opened Database
  import opened Nettop
  import opened Lsof
  import opened Watcher
  import opened Collector
  import opened Integrity
  import opened RunLength

  // ---------------------------------------------------------------------------------
  // Pacing.

  datatype Loop = Sessions | Interfaces | Processes | Connections | Retention

  function LoopOf(e: Event): Option<Loop> {
    match e
    case SessionPoll(_, _) => Some(Sessions)
    case InterfacePoll(_, _) => Some(Interfaces)
    case ProcessPoll(_, _) => Some(Processes)
    case ConnectionPoll(_, _) => Some(Connections)
    case RetentionPoll(_) => Some(Retention)
    case _ => None
  }

  function IntervalOf(cfg: Config, loop: Loop): int {
    match loop
    case Sessions => cfg.sessionPoll
    case Interfaces => cfg.ifacePoll
    case Processes => cfg.procPoll
    case Connections => cfg.connPoll
    case Retention => 86400
  }

  /** When a loop last ran its tick in this process; 0 if it has not. */
  function LastRun(m: Memory, loop: Loop): int {
    match loop
    case Sessions => m.lastSession
    case Interfaces => m.lastIface
    case Processes => m.lastProc
    case Connections => m.lastConn
    case Retention => m.lastPurge
  }

  /** A loop runs its tick when the interval has passed since its last run. */
  predicate Due(cfg: Config, w: World, e: Event) {
    && w.mem.Some? && LoopOf(e).Some?
    && e.now - LastRun(w.mem.value, LoopOf(e).value) >= IntervalOf(cfg, LoopOf(e).value)
  }

  /** A poll that is not due changes nothing at all; one that is due moves its own loop's time, and no other's. */
  lemma PollPaces(cfg: Config, w: World, e: Event, loop: Loop)
    requires w.mem.Some? && LoopOf(e).Some?
    ensures Enabled(w, e)
    ensures !Due(cfg, w, e) ==> Step(cfg, w, e) == w
    ensures Due(cfg, w, e) ==>
              && Step(cfg, w, e).mem.Some?
              && LastRun(Step(cfg, w, e).mem.value, loop)
                 == if LoopOf(e) == Some(loop) then e.now else LastRun(w.mem.value, loop)
  {
  }

  /**
   * A start ends orphaned sessions and touches nothing else in the database; the process
   * begins with the adopted session held but not active, no counter known and no loop run.
   */
  lemma StartIsFresh(cfg: Config, db: Tables, now: int, loop: Loop)
    ensures var w := Step(cfg, World(db, None), Start(now));
            && w.db == db.(sessions := w.db.sessions) && w.db.sessions.Keys == db.sessions.Keys
            && w.mem.Some? && w.mem.value.active.None? && w.mem.value.held.id == ActiveSession(db.sessions)
            && w.mem.value.ifaceAnchors == map[] && w.mem.value.procIn == map[] && w.mem.value.procOut == map[]
            && LastRun(w.mem.value, loop) == 0
  {
    StartupAdopts(db.sessions, now);
  }

  /** A clean exit ends the active session and changes nothing else in the database. */
  lemma ShutdownEnds(cfg: Config, w: World, now: int)
    requires w.mem.Some? && (w.mem.value.active.Some? ==> w.mem.value.active.value in w.db.sessions)
    ensures var after := Step(cfg, w, Shutdown(now));
            && after.mem.None? && after.db == w.db.(sessions := after.db.sessions)
            && after.db.sessions.Keys == w.db.sessions.Keys
            && (forall id :: id in w.db.sessions ==>
                  after.db.sessions[id]
                  == if w.mem.value.active == Some(id) then w.db.sessions[id].(endedAt := Some(now))
                     else w.db.sessions[id])
  {
  }

  /** The times at which one loop polls, and those at which it runs its tick, along a run. */
  ghost function PollTimes(events: seq<Event>, loop: Loop): seq<int> {
    if events == [] then []
    else (if LoopOf(events[0]) == Some(loop) then [events[0].now] else []) + PollTimes(events[1..], loop)
  }

  ghost function RunTimes(cfg: Config, w: World, clock: int, events: seq<Event>, loop: Loop): seq<int>
    requires ValidRun(cfg, w, clock, events)
    decreases |events|
  {
    if events == [] then []
    else
      var e := events[0];
      (if LoopOf(e) == Some(loop) && Due(cfg, w, e) then [e.now] else [])
      + RunTimes(cfg, Step(cfg, w, e), e.now, events[1..], loop)
  }

  /** The times that are an interval or more after the last one taken. */
  function Thinned(last: int, interval: int, times: seq<int>): seq<int>
    decreases |times|
  {
    if times == [] then []
    else if times[0] - last >= interval then [times[0]] + Thinned(times[0], interval, times[1..])
    else Thinned(last, interval, times[1..])
  }

  /** In one process a loop runs at exactly the polls that thinning its poll times leaves. */
  lemma {:induction false} LifePaces(cfg: Config, w: World, clock: int, events: seq<Event>, loop: Loop)
    requires ValidRun(cfg, w, clock, events) && w.mem.Some?
    requires forall e :: e in events ==> !e.Start? && !e.Shutdown? && !e.Crash?
    ensures RunTimes(cfg, w, clock, events, loop)
         == Thinned(LastRun(w.mem.value, loop), IntervalOf(cfg, loop), PollTimes(events, loop))
    decreases |events|
  {
    if events != [] {
      var e, rest := events[0], events[1..];
      var next := Step(cfg, w, e);
      assert e in events && forall x :: x in rest ==> x in events;
      StepPaces(cfg, w, e, loop);
      LifePaces(cfg, next, e.now, rest, loop);
      var times := PollTimes(rest, loop);
      if LoopOf(e) == Some(loop) {
        assert ([e.now] + times)[1..] == times;
        if !Due(cfg, w, e) {
          assert [] + RunTimes(cfg, next, e.now, rest, loop) == RunTimes(cfg, next, e.now, rest, loop);
        }
      } else {
        assert [] + times == times;
        assert [] + RunTimes(cfg, next, e.now, rest, loop) == RunTimes(cfg, next, e.now, rest, loop);
      }
    }
  }

  lemma StepPaces(cfg: Config, w: World, e: Event, loop: Loop)
    requires Enabled(w, e) && w.mem.Some? && !e.Shutdown? && !e.Crash?
    ensures Step(cfg, w, e).mem.Some?
    ensures LastRun(Step(cfg, w, e).mem.value, loop)
         == if LoopOf(e) == Some(loop) && Due(cfg, w, e) then e.now else LastRun(w.mem.value, loop)
  {
    if LoopOf(e).Some? {
      PollPaces(cfg, w, e, loop);
    }
  }

  /** Successive ticks of a loop are an interval or more apart. */
  lemma {:induction false} ThinnedApart(last: int, interval: int, times: seq<int>)
    ensures var taken := Thinned(last, interval, times);
            && (taken != [] ==> taken[0] - last >= interval)
            && (forall i :: 0 < i < |taken| ==> taken[i] - taken[i - 1] >= interval)
    decreases |times|
  {
    if times != [] {
      if times[0] - last >= interval {
        ThinnedApart(times[0], interval, times[1..]);
        var rest := Thinned(times[0], interval, times[1..]);
        assert forall i :: 1 < i < |rest| + 1 ==> ([times[0]] + rest)[i] == rest[i - 1];
      } else {
        ThinnedApart(last, interval, times[1..]);
      }
    }
  }

  // ---------------------------------------------------------------------------------
  // Deltas.

  /**
   * A counter has not gone back since its anchor, and grew by less than (threshold + 1) for
   * each second that passed, counting at least one.
   */
  predicate PlainDelta(since: Anchor, value: int, now: int, maxPerSec: int) {
    && since.value <= value
    && (now - since.ts >= 1 ==> value - since.value < (maxPerSec + 1) * (now - since.ts))
    && (now - since.ts < 1 ==> value - since.value < maxPerSec + 1)
  }

  /** The delta of a known counter, where one is reported. */
  predicate Plain(anchors: Anchors, key: string, value: int, now: int, maxPerSec: int) {
    key in anchors && PlainDelta(anchors[key], value, now, maxPerSec)
  }

  lemma PlainIsReported(anchors: Anchors, key: string, value: int, now: int, maxPerSec: int)
    ensures Reported(Judge(Lookup(anchors, key), value, now, maxPerSec))
         == if Plain(anchors, key, value, now, maxPerSec) then Some(value - anchors[key].value) else None
  {
    if key in anchors {
      ReportedIff(Lookup(anchors, key), value, now, maxPerSec, value - anchors[key].value);
    }
  }

  // ---------------------------------------------------------------------------------
  // Interface polls.

  function ReceivedBy(r: NettopRow): int {
    r.bytesIn
  }

  function SentBy(r: NettopRow): int {
    r.bytesOut
  }

  lemma {:induction false} TotalsAreSums(rows: seq<NettopRow>)
    ensures TotalIn(rows) == SumOver(rows, ReceivedBy) && TotalOut(rows) == SumOver(rows, SentBy)
  {
    if rows != [] {
      TotalsAreSums(rows[..|rows| - 1]);
    }
  }

  /**
   * A due interface poll with rows, while a session is active, adds one sample if the sums
   * over all routes are plain deltas in both directions: at its time, of the active session,
   * with the two deltas. Otherwise it adds none. Either way both sums are the new anchors.
   */
  lemma InterfacePollAdds(cfg: Config, w: World, rows: seq<NettopRow>, now: int)
    requires w.mem.Some? && now - w.mem.value.lastIface >= cfg.ifacePoll
    ensures var m, after := w.mem.value, Step(cfg, w, InterfacePoll(rows, now));
            var received, sent := SumOver(rows, ReceivedBy), SumOver(rows, SentBy);
            var a := m.ifaceAnchors;
            && after.mem.Some?
            && after.db == w.db.(iface := after.db.iface)
            && (if rows != [] && m.active.Some?
                   && Plain(a, "external:in", received, now, cfg.maxPerSec)
                   && Plain(a, "external:out", sent, now, cfg.maxPerSec)
                then after.db.iface == w.db.iface + [InterfaceSample(
                       now, m.active.value, received - a["external:in"].value, sent - a["external:out"].value)]
                else after.db.iface == w.db.iface)
            && after.mem.value.ifaceAnchors
               == if rows == [] then a
                  else a["external:in" := Anchor(received, now, 0)]["external:out" := Anchor(sent, now, 0)]
  {
    var a := w.mem.value.ifaceAnchors;
    TotalsAreSums(rows);
    PlainIsReported(a, IN_KEY, TotalIn(rows), now, cfg.maxPerSec);
    PlainIsReported(a, OUT_KEY, TotalOut(rows), now, cfg.maxPerSec);
    if rows != [] {
      TwoUpdates(a, InterfacePollOf(rows, now));
    }
    assert w.db.iface + [] == w.db.iface;
  }

  // ---------------------------------------------------------------------------------
  // Connection polls.

  /** A stored connection that records a row of a poll, column by column. */
  predicate Records(c: Connection, r: LsofRow, now: int, sid: int) {
    && c.ts == now && c.sid == sid
    && c.process == r.process && c.remoteIp == r.remoteIp && c.remotePort == r.remotePort
    && c.protocol == r.protocol && c.scope == Some(r.scope)
  }

  /** A due connection poll records every row while a session is active, in order, and none otherwise. */
  lemma ConnectionPollAdds(cfg: Config, w: World, rows: seq<LsofRow>, now: int)
    requires w.mem.Some? && now - w.mem.value.lastConn >= cfg.connPoll
    ensures var m, before, after := w.mem.value, w.db.conns, Step(cfg, w, ConnectionPoll(rows, now)).db;
            && after == w.db.(conns := after.conns)
            && (m.active.None? ==> after.conns == before)
            && (m.active.Some? ==>
                  && |after.conns| == |before| + |rows|
                  && after.conns[..|before|] == before
                  && forall i :: 0 <= i < |rows| ==> Records(after.conns[|before| + i], rows[i], now, m.active.value))
  {
    assert w.db.conns + [] == w.db.conns;
  }

  /** A connection poll that ran, with the session that was active then. */
  datatype Sighting = Sighting(rows: seq<LsofRow>, now: int, active: Option<int>)

  ghost function SightingAt(cfg: Config, w: World, e: Event): seq<Sighting> {
    if e.ConnectionPoll? && Due(cfg, w, e) then [Sighting(e.connections, e.now, w.mem.value.active)] else []
  }

  /** The connection polls that ran along a run. */
  ghost function SightingsOf(cfg: Config, w: World, clock: int, events: seq<Event>): seq<Sighting>
    requires ValidRun(cfg, w, clock, events)
    decreases |events|
  {
    if events == [] then []
    else SightingAt(cfg, w, events[0]) + SightingsOf(cfg, Step(cfg, w, events[0]), events[0].now, events[1..])
  }

  /** The rows that a poll which ran leaves in the table. */
  function Recorded(s: Sighting): seq<Connection> {
    if s.active.None? then []
    else
      seq(|s.rows|, i requires 0 <= i < |s.rows| =>
          Connection(s.now, s.active.value, s.rows[i].process, s.rows[i].remoteIp, s.rows[i].remotePort,
                     s.rows[i].protocol, Some(s.rows[i].scope)))
  }

  function AllRecorded(sightings: seq<Sighting>): seq<Connection> {
    if sightings == [] then [] else Recorded(sightings[0]) + AllRecorded(sightings[1..])
  }

  /**
   * Every recorded connection records a row of some poll that ran while a session was active,
   * and each such row is recorded.
   */
  lemma {:induction false} RecordedIff(sightings: seq<Sighting>, c: Connection)
    ensures c in AllRecorded(sightings) <==>
              exists s, r :: s in sightings && s.active.Some? && r in s.rows && Records(c, r, s.now, s.active.value)
  {
    if sightings != [] {
      var first, rest := sightings[0], sightings[1..];
      RecordedIff(rest, c);
      RecordedOnce(first, c);
      assert sightings == [first] + rest;
    }
  }

  lemma RecordedOnce(s: Sighting, c: Connection)
    ensures c in Recorded(s) <==> s.active.Some? && exists r :: r in s.rows && Records(c, r, s.now, s.active.value)
  {
    if s.active.Some? {
      if c in Recorded(s) {
        var i :| 0 <= i < |s.rows| && Recorded(s)[i] == c;
        assert s.rows[i] in s.rows && Records(c, s.rows[i], s.now, s.active.value);
      }
      if r :| r in s.rows && Records(c, r, s.now, s.active.value) {
        var i :| 0 <= i < |s.rows| && s.rows[i] == r;
        assert Recorded(s)[i] == c;
      }
    }
  }

  /** What is left of recorded connections after the last purge that fired. */
  function LeftOf(conns: seq<Connection>, cutoff: Option<int>): seq<Connection> {
    if cutoff.None? then conns else Keep(conns, (c: Connection) => c.ts >= cutoff.value)
  }

  lemma StepRecords(cfg: Config, w: World, e: Event)
    requires Enabled(w, e)
    ensures var after := Step(cfg, w, e).db.conns;
            var added := AllRecorded(SightingAt(cfg, w, e));
            && (!PurgeFires(w, e) ==> after == w.db.conns + added)
            && (PurgeFires(w, e) ==> added == [] && after == LeftOf(w.db.conns, Some(e.now - cfg.sampleRetention)))
  {
    if e.ConnectionPoll? && Due(cfg, w, e) {
      ConnectionPollAdds(cfg, w, e.connections, e.now);
      var s := Sighting(e.connections, e.now, w.mem.value.active);
      assert [s][1..] == [];
      assert AllRecorded([s]) == Recorded(s) + [];
      assert Step(cfg, w, e).db.conns == w.db.conns + Recorded(s);
    } else {
      assert w.db.conns + [] == w.db.conns;
    }
  }

  lemma {:induction false} AllRecordedJoins(a: seq<Sighting>, b: seq<Sighting>)
    ensures AllRecorded(a + b) == AllRecorded(a) + AllRecorded(b)
  {
    if a == [] {
      assert a + b == b;
      assert [] + AllRecorded(b) == AllRecorded(b);
    } else {
      assert (a + b)[1..] == a[1..] + b;
      AllRecordedJoins(a[1..], b);
      Associate(Recorded(a[0]), AllRecorded(a[1..]), AllRecorded(b));
    }
  }

  lemma {:induction false} KeepAgain(conns: seq<Connection>, before: Option<int>, cutoff: int)
    requires before.Some? ==> before.value <= cutoff
    ensures LeftOf(LeftOf(conns, before), Some(cutoff)) == LeftOf(conns, Some(cutoff))
  {
    if before.Some? && conns != [] {
      var n := |conns| - 1;
      var p, q := (c: Connection) => c.ts >= before.value, (c: Connection) => c.ts >= cutoff;
      KeepAgain(conns[..n], before, cutoff);
      SingleRow(conns[n], p, (c: Connection) => Some(c));
      SingleRow(conns[n], q, (c: Connection) => Some(c));
      if p(conns[n]) {
        KeepAppend(Keep(conns[..n], p), [conns[n]], q);
      } else {
        assert Keep(conns, p) == Keep(conns[..n], p);
      }
    }
  }

  /** Rows no older than the cutoff are not touched by it. */
  lemma NewRowsStay(conns: seq<Connection>, added: seq<Connection>, cutoff: Option<int>)
    requires forall c :: c in added && cutoff.Some? ==> c.ts >= cutoff.value
    ensures LeftOf(conns + added, cutoff) == LeftOf(conns, cutoff) + added
  {
    if cutoff.Some? {
      var keep := (c: Connection) => c.ts >= cutoff.value;
      KeepAppend(conns, added, keep);
      KeepAll(added, keep);
    }
  }

  /** The last cutoff so far, once a step has run. */
  ghost function CutoffAfter(cfg: Config, w: World, e: Event, cutoff: Option<int>): Option<int>
    requires Enabled(w, e)
  {
    if PurgeFires(w, e) then Some(e.now - cfg.sampleRetention) else cutoff
  }

  lemma StepLeaves(cfg: Config, w: World, e: Event, clock: int, all: seq<Connection>, cutoff: Option<int>)
    requires Enabled(w, e) && clock <= e.now && cfg.sampleRetention >= 0
    requires w.db.conns == LeftOf(all, cutoff) && (cutoff.Some? ==> cutoff.value <= clock - cfg.sampleRetention)
    ensures Step(cfg, w, e).db.conns
         == LeftOf(all + AllRecorded(SightingAt(cfg, w, e)), CutoffAfter(cfg, w, e, cutoff))
  {
    var added := AllRecorded(SightingAt(cfg, w, e));
    StepRecords(cfg, w, e);
    if PurgeFires(w, e) {
      assert all + added == all;
      KeepAgain(all, cutoff, e.now - cfg.sampleRetention);
    } else {
      AddedAreNow(cfg, w, e);
      NewRowsStay(all, added, cutoff);
    }
  }

  lemma AddedAreNow(cfg: Config, w: World, e: Event)
    ensures forall c :: c in AllRecorded(SightingAt(cfg, w, e)) ==> c.ts == e.now
  {
    forall c | c in AllRecorded(SightingAt(cfg, w, e))
      ensures c.ts == e.now
    {
      RecordedIff(SightingAt(cfg, w, e), c);
    }
  }

  /**
   * The connections table of any run, with restarts and purges: exactly what the polls that
   * ran recorded, in order, after what was there, less the rows older than the last cutoff.
   */
  lemma {:induction false} RunRecords(
    cfg: Config, w: World, clock: int, events: seq<Event>, all: seq<Connection>, cutoff: Option<int>)
    requires ValidRun(cfg, w, clock, events) && cfg.sampleRetention >= 0
    requires w.db.conns == LeftOf(all, cutoff) && (cutoff.Some? ==> cutoff.value <= clock - cfg.sampleRetention)
    ensures Run(cfg, w, clock, events).db.conns
         == LeftOf(all + AllRecorded(SightingsOf(cfg, w, clock, events)),
                   LastCutoff(Cutoffs(cfg, w, clock, events), cutoff))
    decreases |events|
  {
    if events == [] {
      assert all + [] == all;
    } else {
      var e, rest := events[0], events[1..];
      var next, more := Step(cfg, w, e), AllRecorded(SightingAt(cfg, w, e));
      var after := CutoffAfter(cfg, w, e, cutoff);
      StepLeaves(cfg, w, e, clock, all, cutoff);
      RunRecords(cfg, next, e.now, rest, all + more, after);
      RecordedFirst(cfg, w, clock, events, all);
      CutoffsFirst(cfg, w, clock, events, cutoff);
    }
  }

  /** The last of these cutoffs, or the one before them. */
  function LastCutoff(cutoffs: seq<int>, before: Option<int>): Option<int> {
    if cutoffs == [] then before else Some(cutoffs[|cutoffs| - 1])
  }

  lemma RecordedFirst(cfg: Config, w: World, clock: int, events: seq<Event>, all: seq<Connection>)
    requires ValidRun(cfg, w, clock, events) && events != []
    ensures var e := events[0];
            all + AllRecorded(SightingsOf(cfg, w, clock, events))
            == all + AllRecorded(SightingAt(cfg, w, e))
               + AllRecorded(SightingsOf(cfg, Step(cfg, w, e), e.now, events[1..]))
  {
    var e := events[0];
    var first, later := SightingAt(cfg, w, e), SightingsOf(cfg, Step(cfg, w, e), e.now, events[1..]);
    AllRecordedJoins(first, later);
    Associate(all, AllRecorded(first), AllRecorded(later));
  }

  lemma CutoffsFirst(cfg: Config, w: World, clock: int, events: seq<Event>, cutoff: Option<int>)
    requires ValidRun(cfg, w, clock, events) && events != []
    ensures var e := events[0];
            LastCutoff(Cutoffs(cfg, w, clock, events), cutoff)
            == LastCutoff(Cutoffs(cfg, Step(cfg, w, e), e.now, events[1..]), CutoffAfter(cfg, w, e, cutoff))
  {
    var rest := Cutoffs(cfg, Step(cfg, w, events[0]), events[0].now, events[1..]);
    assert [] + rest == rest;
  }

  /** From an empty database the connections table is what the polls recorded, less what the last purge took. */
  lemma RunRecordsFromEmpty(cfg: Config, clock: int, events: seq<Event>)
    requires ValidRun(cfg, World(EMPTY, None), clock, events) && cfg.sampleRetention >= 0
    ensures var cutoffs := Cutoffs(cfg, World(EMPTY, None), clock, events);
            var recorded := AllRecorded(SightingsOf(cfg, World(EMPTY, None), clock, events));
            Run(cfg, World(EMPTY, None), clock, events).db.conns
            == if cutoffs == [] then recorded
               else Keep(recorded, (c: Connection) => c.ts >= cutoffs[|cutoffs| - 1])
  {
    var recorded := AllRecorded(SightingsOf(cfg, World(EMPTY, None), clock, events));
    RunRecords(cfg, World(EMPTY, None), clock, events, [], None);
    assert [] + recorded == recorded;
  }
}
