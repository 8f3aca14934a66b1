/**
 * The rate bound, end to end: what the tracker lets through, stored by ticks of any run
 * with restarts and purges, limits what any budget window can report.
 */
module Metering {
  import opened Basics
  import opened Delta
  import opened Database
  import opened Nettop
  import opened Collector
  import opened Integrity
  import opened Reports
  import Ledgers

  // ---------------------------------------------------------------------------------
  // Readings: when the interface counters were read.

  /** An interface tick reads the counters when its throttle lets it run and its tool prints rows. */
  predicate Reads(cfg: Config, w: World, e: Event)
    requires Enabled(w, e)
  {
    Ledgers.InterfaceFires(cfg, w, e) && e.rows != []
  }

  function ReadingAt(cfg: Config, w: World, e: Event): seq<int>
    requires Enabled(w, e)
  {
    if Reads(cfg, w, e) then [e.now] else []
  }

  /** The times of a run's readings. */
  ghost function Readings(cfg: Config, w: World, clock: int, events: seq<Event>): seq<int>
    requires ValidRun(cfg, w, clock, events)
    decreases |events|
  {
    if events == [] then []
    else
      var e := events[0];
      ReadingAt(cfg, w, e) + Readings(cfg, Step(cfg, w, e), e.now, events[1..])
  }

  /** The latest reading before a time. */
  function LastReading(readings: seq<int>, t: int): (last: Option<int>)
    ensures last.Some? ==> last.value in readings && last.value < t
    ensures last.Some? ==> forall r :: r in readings && r < t ==> r <= last.value
    ensures last.None? ==> forall r :: r in readings ==> t <= r
  {
    if readings == [] then None
    else
      var n := |readings| - 1;
      var before := LastReading(readings[..n], t);
      assert readings == readings[..n] + [readings[n]];
      if readings[n] < t && (before.None? || before.value <= readings[n]) then Some(readings[n]) else before
  }

  /** When a sample's interval begins: at the last reading before it. */
  function Since(readings: seq<int>, row: InterfaceSample): int {
    var last := LastReading(readings, row.ts);
    if last.Some? then last.value else row.ts
  }

  lemma LaterReading(readings: seq<int>, more: seq<int>, row: InterfaceSample)
    requires forall r :: r in more ==> row.ts <= r
    ensures Since(readings + more, row) == Since(readings, row)
  {
    var last, after := LastReading(readings, row.ts), LastReading(readings + more, row.ts);
    assert last.Some? ==> last.value in readings + more;
    assert after.Some? ==> after.value in readings;
  }

  // ---------------------------------------------------------------------------------
  // The rate bound.

  /** What a counter must not reach in some seconds, or the tracker skips it: (threshold + 1) bytes a second. */
  function Growth(maxPerSec: int, seconds: int): int
    decreases seconds
  {
    if seconds <= 0 then 0 else Growth(maxPerSec, seconds - 1) + (maxPerSec + 1)
  }

  lemma {:induction false} GrowthIsProduct(maxPerSec: int, seconds: nat)
    ensures Growth(maxPerSec, seconds) == (maxPerSec + 1) * seconds
  {
    if seconds > 0 {
      GrowthIsProduct(maxPerSec, seconds - 1);
      assert (maxPerSec + 1) * seconds == (maxPerSec + 1) * (seconds - 1) + (maxPerSec + 1);
    }
  }

  lemma {:induction false} GrowthAdds(maxPerSec: int, a: nat, b: nat)
    ensures Growth(maxPerSec, a + b) == Growth(maxPerSec, a) + Growth(maxPerSec, b)
    decreases b
  {
    if b > 0 {
      GrowthAdds(maxPerSec, a, b - 1);
    }
  }

  lemma {:induction false} GrowthGrows(maxPerSec: nat, a: int, b: int)
    requires a <= b
    ensures Growth(maxPerSec, a) <= Growth(maxPerSec, b)
    decreases b
  {
    if a < b && b > 0 {
      GrowthGrows(maxPerSec, a, b - 1);
    }
  }

  lemma RateIsPositive(rate: int, seconds: nat)
    requires 0 < rate * seconds
    ensures rate >= 1
  {
    assert rate <= 0 ==> rate * seconds <= 0;
  }

  // ---------------------------------------------------------------------------------
  // Samples cover disjoint intervals.

  /** Each direction grew by less than (threshold + 1) bytes a second, over a second or more. */
  predicate Plausible(row: InterfaceSample, since: int, maxPerSec: int) {
    && since < row.ts
    && 0 <= row.bytesIn < Growth(maxPerSec, row.ts - since)
    && 0 <= row.bytesOut < Growth(maxPerSec, row.ts - since)
  }

  /**
   * Every sample was taken at a reading, after the samples before it, and is within the
   * rate bound for the time since the reading before. So intervals never overlap.
   */
  ghost predicate Metered(rows: seq<InterfaceSample>, readings: seq<int>, maxPerSec: int) {
    rows == [] || (
      var n := |rows| - 1;
      && Metered(rows[..n], readings, maxPerSec)
      && (n > 0 ==> rows[n - 1].ts < rows[n].ts)
      && rows[n].ts in readings
      && Plausible(rows[n], Since(readings, rows[n]), maxPerSec))
  }

  lemma {:induction false} MeteredEach(rows: seq<InterfaceSample>, readings: seq<int>, maxPerSec: int, i: nat)
    requires Metered(rows, readings, maxPerSec) && i < |rows|
    ensures rows[i].ts in readings && Plausible(rows[i], Since(readings, rows[i]), maxPerSec)
    ensures LastReading(readings, rows[i].ts) == Some(Since(readings, rows[i]))
  {
    if i < |rows| - 1 {
      MeteredEach(rows[..|rows| - 1], readings, maxPerSec, i);
    }
  }

  /** While the interface counters are tracked, both anchors are from the latest reading. */
  ghost predicate Anchored(m: Memory, readings: seq<int>) {
    && (IN_KEY in m.ifaceAnchors <==> OUT_KEY in m.ifaceAnchors)
    && (IN_KEY in m.ifaceAnchors ==>
          && m.ifaceAnchors[IN_KEY].ts == m.ifaceAnchors[OUT_KEY].ts <= m.lastIface
          && m.ifaceAnchors[IN_KEY].ts in readings
          && forall r :: r in readings ==> r <= m.ifaceAnchors[IN_KEY].ts)
  }

  ghost predicate Measuring(cfg: Config, w: World, clock: int, readings: seq<int>) {
    && Metered(w.db.iface, readings, cfg.maxPerSec)
    && (forall r :: r in readings ==> r <= clock)
    && (w.mem.Some? ==> Anchored(w.mem.value, readings))
  }

  lemma {:induction false} MeteredLater(rows: seq<InterfaceSample>, readings: seq<int>, now: int, maxPerSec: int)
    requires Metered(rows, readings, maxPerSec)
    requires forall r :: r in readings ==> r <= now
    ensures Metered(rows, readings + [now], maxPerSec)
  {
    if rows != [] {
      MeteredLater(rows[..|rows| - 1], readings, now, maxPerSec);
      LaterReading(readings, [now], rows[|rows| - 1]);
    }
  }

  /** A stored sample's interval runs from the anchors' time to its own. */
  lemma StoredIsPlausible(m: Memory, rows: seq<NettopRow>, now: int, maxPerSec: int, readings: seq<int>)
    requires Anchored(m, readings) && m.lastIface < now
    requires InterfaceStored(m.ifaceAnchors, rows, now, maxPerSec, m.active) != []
    ensures IN_KEY in m.ifaceAnchors
    ensures var stored := InterfaceStored(m.ifaceAnchors, rows, now, maxPerSec, m.active);
            && |stored| == 1 && stored[0].ts == now
            && Plausible(stored[0], m.ifaceAnchors[IN_KEY].ts, maxPerSec)
  {
    var stored := InterfaceStored(m.ifaceAnchors, rows, now, maxPerSec, m.active);
    ReportedIff(Lookup(m.ifaceAnchors, IN_KEY), TotalIn(rows), now, maxPerSec, stored[0].bytesIn);
    ReportedIff(Lookup(m.ifaceAnchors, OUT_KEY), TotalOut(rows), now, maxPerSec, stored[0].bytesOut);
    GrowthIsProduct(maxPerSec, now - m.ifaceAnchors[IN_KEY].ts);
  }

  /** The time the tracker measures a new sample from is the last reading before it. */
  lemma AnchorIsSince(m: Memory, row: InterfaceSample, readings: seq<int>)
    requires Anchored(m, readings) && IN_KEY in m.ifaceAnchors && m.lastIface < row.ts
    ensures Since(readings + [row.ts], row) == m.ifaceAnchors[IN_KEY].ts
  {
    LaterReading(readings, [row.ts], row);
  }

  lemma OneMoreSample(rows: seq<InterfaceSample>, readings: seq<int>, row: InterfaceSample, maxPerSec: int)
    requires Metered(rows, readings, maxPerSec) && (forall r :: r in readings ==> r < row.ts)
    requires Plausible(row, Since(readings + [row.ts], row), maxPerSec)
    ensures Metered(rows + [row], readings + [row.ts], maxPerSec)
  {
    MeteredLater(rows, readings, row.ts, maxPerSec);
    assert (rows + [row])[..|rows|] == rows;
  }

  /** One reading, on the samples and the memory alone. */
  lemma ReadingMeters(
    table: seq<InterfaceSample>, m: Memory, rows: seq<NettopRow>, now: int, maxPerSec: int, readings: seq<int>)
    requires Metered(table, readings, maxPerSec) && (forall r :: r in readings ==> r <= now)
    requires Anchored(m, readings) && m.lastIface < now
    ensures Metered(table + InterfaceStored(m.ifaceAnchors, rows, now, maxPerSec, m.active),
                    readings + [now], maxPerSec)
  {
    var stored := InterfaceStored(m.ifaceAnchors, rows, now, maxPerSec, m.active);
    if stored == [] {
      assert table + stored == table;
      MeteredLater(table, readings, now, maxPerSec);
    } else {
      StoredIsPlausible(m, rows, now, maxPerSec, readings);
      AnchorIsSince(m, stored[0], readings);
      OneMoreSample(table, readings, stored[0], maxPerSec);
      assert stored == [stored[0]];
    }
  }

  lemma ReadingAnchors(m: Memory, rows: seq<NettopRow>, now: int, readings: seq<int>)
    requires (forall r :: r in readings ==> r <= now) && rows != []
    ensures Anchored(m.(ifaceAnchors := Played(m.ifaceAnchors, InterfacePollOf(rows, now)), lastIface := now),
                     readings + [now])
  {
    TwoUpdates(m.ifaceAnchors, InterfacePollOf(rows, now));
  }

  lemma ReadingMeasures(cfg: Config, w: World, e: Event, clock: int, readings: seq<int>)
    requires Enabled(w, e) && Reads(cfg, w, e) && clock <= e.now && cfg.ifacePoll >= 1
    requires Measuring(cfg, w, clock, readings)
    ensures Measuring(cfg, Step(cfg, w, e), e.now, readings + [e.now])
  {
    ReadingMeters(w.db.iface, w.mem.value, e.rows, e.now, cfg.maxPerSec, readings);
    ReadingAnchors(w.mem.value, e.rows, e.now, readings);
  }

  /** Any selection of metered samples is metered. */
  lemma {:induction false} KeepMeters(
    rows: seq<InterfaceSample>, readings: seq<int>, maxPerSec: int, keep: InterfaceSample -> bool)
    requires Metered(rows, readings, maxPerSec)
    ensures var kept := Keep(rows, keep);
            && Metered(kept, readings, maxPerSec)
            && (kept != [] ==> rows != [] && kept[|kept| - 1].ts <= rows[|rows| - 1].ts)
  {
    if rows != [] {
      var n := |rows| - 1;
      var before := Keep(rows[..n], keep);
      KeepMeters(rows[..n], readings, maxPerSec, keep);
      if keep(rows[n]) {
        var kept := before + [rows[n]];
        assert Keep(rows, keep) == kept && kept[..|before|] == before;
      } else {
        assert Keep(rows, keep) == before;
      }
    }
  }

  /** A step that reads no counters adds no sample, and keeps the anchors or drops them all. */
  lemma OtherStep(cfg: Config, w: World, e: Event)
    requires Enabled(w, e) && !Reads(cfg, w, e)
    ensures var after := Step(cfg, w, e);
            && (after.db.iface == w.db.iface
                || after.db.iface == InterfaceSince(w.db.iface, e.now - cfg.sampleRetention))
            && (after.mem.Some? ==>
                  || after.mem.value.ifaceAnchors == map[]
                  || (w.mem.Some? && after.mem.value.ifaceAnchors == w.mem.value.ifaceAnchors
                      && (after.mem.value.lastIface == w.mem.value.lastIface || after.mem.value.lastIface == e.now)))
  {
  }

  lemma StepMeasures(cfg: Config, w: World, e: Event, clock: int, readings: seq<int>)
    requires Enabled(w, e) && clock <= e.now && cfg.ifacePoll >= 1
    requires Measuring(cfg, w, clock, readings)
    ensures Measuring(cfg, Step(cfg, w, e), e.now, readings + ReadingAt(cfg, w, e))
  {
    if Reads(cfg, w, e) {
      ReadingMeasures(cfg, w, e, clock, readings);
    } else {
      assert readings + [] == readings;
      OtherStep(cfg, w, e);
      KeepMeters(w.db.iface, readings, cfg.maxPerSec, (r: InterfaceSample) => r.ts >= e.now - cfg.sampleRetention);
    }
  }

  /**
   * Over any run, crashes, restarts and purges included, every stored sample covers the time
   * since the last reading before it, and the tracker measures the next one from the latest.
   */
  lemma {:induction false} RunMeasures(cfg: Config, w: World, clock: int, events: seq<Event>, readings: seq<int>)
    requires ValidRun(cfg, w, clock, events) && cfg.ifacePoll >= 1
    requires Measuring(cfg, w, clock, readings)
    ensures Measuring(cfg, Run(cfg, w, clock, events), EndClock(clock, events),
                      readings + Readings(cfg, w, clock, events))
    decreases |events|
  {
    if events == [] {
      assert readings + [] == readings;
    } else {
      var e, rest := events[0], events[1..];
      var next := Step(cfg, w, e);
      StepMeasures(cfg, w, e, clock, readings);
      RunMeasures(cfg, next, e.now, rest, readings + ReadingAt(cfg, w, e));
      Associate(readings, ReadingAt(cfg, w, e), Readings(cfg, next, e.now, rest));
    }
  }

  // ---------------------------------------------------------------------------------
  // What metered samples can hold.

  lemma PlausibleFits(row: InterfaceSample, since: int, maxPerSec: int, seconds: int)
    requires Plausible(row, since, maxPerSec) && seconds == row.ts - since
    ensures maxPerSec >= 0 && seconds >= 1
    ensures row.bytesIn + row.bytesOut <= 2 * Growth(maxPerSec, seconds)
  {
    GrowthIsProduct(maxPerSec, seconds);
    RateIsPositive(maxPerSec + 1, seconds);
  }

  function SumOf(amounts: seq<int>): int {
    if amounts == [] then 0 else SumOf(amounts[..|amounts| - 1]) + amounts[|amounts| - 1]
  }

  /** Amounts that each fit their own seconds fit all of the seconds together. */
  lemma {:induction false} SumFits(amounts: seq<int>, seconds: seq<int>, maxPerSec: nat)
    requires |amounts| == |seconds|
    requires forall i :: 0 <= i < |amounts| ==> 0 <= seconds[i] && amounts[i] <= 2 * Growth(maxPerSec, seconds[i])
    ensures 0 <= SumOf(seconds) && SumOf(amounts) <= 2 * Growth(maxPerSec, SumOf(seconds))
  {
    if amounts != [] {
      var n := |amounts| - 1;
      SumFits(amounts[..n], seconds[..n], maxPerSec);
      GrowthAdds(maxPerSec, SumOf(seconds[..n]), seconds[n]);
    }
  }

  /** The bytes of each sample, and the seconds each one covers. */
  function Loads(rows: seq<InterfaceSample>): seq<int> {
    seq(|rows|, i requires 0 <= i < |rows| => rows[i].bytesIn + rows[i].bytesOut)
  }

  function Spans(rows: seq<InterfaceSample>, readings: seq<int>): seq<int> {
    seq(|rows|, i requires 0 <= i < |rows| => rows[i].ts - Since(readings, rows[i]))
  }

  lemma MeteredFits(rows: seq<InterfaceSample>, readings: seq<int>, maxPerSec: int)
    requires Metered(rows, readings, maxPerSec) && rows != []
    ensures maxPerSec >= 0
    ensures SumOf(Loads(rows)) <= 2 * Growth(maxPerSec, SumOf(Spans(rows, readings)))
  {
    var loads, seconds := Loads(rows), Spans(rows, readings);
    forall i | 0 <= i < |rows|
      ensures maxPerSec >= 0 && 0 <= seconds[i] && loads[i] <= 2 * Growth(maxPerSec, seconds[i])
    {
      MeteredEach(rows, readings, maxPerSec, i);
      PlausibleFits(rows[i], Since(readings, rows[i]), maxPerSec, seconds[i]);
    }
    assert 0 <= seconds[0];
    SumFits(loads, seconds, maxPerSec);
  }

  /** The covered seconds are disjoint, so together they are no more than the time they lie in. */
  lemma {:induction false} SpansAreDisjoint(rows: seq<InterfaceSample>, readings: seq<int>, maxPerSec: int)
    requires Metered(rows, readings, maxPerSec) && rows != []
    ensures SumOf(Spans(rows, readings)) <= rows[|rows| - 1].ts - Since(readings, rows[0])
  {
    var n := |rows| - 1;
    var seconds := Spans(rows, readings);
    assert seconds[..n] == Spans(rows[..n], readings);
    if n > 0 {
      SpansAreDisjoint(rows[..n], readings, maxPerSec);
      MeteredEach(rows, readings, maxPerSec, n - 1);
      assert rows[n - 1].ts <= Since(readings, rows[n]);
    } else {
      assert SumOf(seconds[..n]) == 0;
    }
  }

  /** The bytes of samples that lie in a window, in terms of its length and the first one's interval. */
  lemma SamplesFit(rows: seq<InterfaceSample>, readings: seq<int>, maxPerSec: int, from: int, to: int, seconds: int)
    requires Metered(rows, readings, maxPerSec) && rows != []
    requires from <= rows[0].ts && rows[|rows| - 1].ts < to
    requires seconds == (to - from) + (rows[0].ts - Since(readings, rows[0]))
    ensures maxPerSec >= 0
    ensures SumOf(Loads(rows)) <= 2 * Growth(maxPerSec, seconds)
  {
    MeteredFits(rows, readings, maxPerSec);
    SpansAreDisjoint(rows, readings, maxPerSec);
    GrowthGrows(maxPerSec, SumOf(Spans(rows, readings)), seconds);
  }

  // ---------------------------------------------------------------------------------
  // What a budget can report.

  function CountedBy(sessions: Sessions, from: int, to: int, f: NetFilter): InterfaceSample -> bool {
    (r: InterfaceSample) => from <= r.ts < to && r.sid in sessions && Admits(f, sessions[r.sid].net)
  }

  /** The samples a budget counts: those in its window, on a network in its scope. */
  function Counted(db: Tables, from: int, to: int, f: NetFilter): seq<InterfaceSample> {
    Keep(db.iface, CountedBy(db.sessions, from, to, f))
  }

  lemma {:induction false} UsedIsCounted(
    rows: seq<InterfaceSample>, sessions: Sessions, from: int, to: int, f: NetFilter)
    ensures Used(Choose(rows, LocateIn(sessions, from, to)), f)
         == SumOf(Loads(Keep(rows, CountedBy(sessions, from, to, f))))
  {
    if rows != [] {
      var n := |rows| - 1;
      UsedIsCounted(rows[..n], sessions, from, to, f);
      UsedGrows(Choose(rows[..n], LocateIn(sessions, from, to)), LocateIn(sessions, from, to)(rows[n]), f);
      LoadsGrow(Keep(rows[..n], CountedBy(sessions, from, to, f)), rows[n]);
      if !CountedBy(sessions, from, to, f)(rows[n]) {
        assert Keep(rows, CountedBy(sessions, from, to, f)) == Keep(rows[..n], CountedBy(sessions, from, to, f));
      }
    }
  }

  lemma UsedGrows(located: seq<Located>, l: Option<Located>, f: NetFilter)
    ensures Used(located + if l.Some? then [l.value] else [], f)
         == Used(located, f) + if l.Some? && Admits(f, l.value.net) then LocatedBytes(l.value) else 0
  {
    if l.Some? {
      assert (located + [l.value])[..|located|] == located;
    } else {
      assert located + [] == located;
    }
  }

  lemma LoadsGrow(rows: seq<InterfaceSample>, r: InterfaceSample)
    ensures SumOf(Loads(rows + [r])) == SumOf(Loads(rows)) + r.bytesIn + r.bytesOut
  {
    assert Loads(rows + [r])[..|rows|] == Loads(rows);
  }

  /** A budget's seconds: its window, and what its first sample covers. */
  function BudgetSeconds(period: string, first: InterfaceSample, readings: seq<int>): int {
    PeriodSeconds(period) + (first.ts - Since(readings, first))
  }

  lemma FitsProduct(bytes: int, maxPerSec: nat, seconds: int)
    requires bytes <= 2 * Growth(maxPerSec, seconds) && 0 <= seconds
    ensures bytes <= 2 * ((maxPerSec + 1) * seconds)
  {
    GrowthIsProduct(maxPerSec, seconds);
  }

  /**
   * A budget that counts these samples reports at most twice (threshold + 1) for each of its
   * seconds, and nothing if it counts none.
   */
  ghost predicate WithinRate(
    counted: seq<InterfaceSample>, readings: seq<int>, maxPerSec: int, period: string, usedBytes: int)
  {
    if counted == [] then usedBytes == 0
    else
      && LastReading(readings, counted[0].ts).Some?
      && usedBytes <= 2 * ((maxPerSec + 1) * BudgetSeconds(period, counted[0], readings))
  }

  lemma CountedWithinRate(
    counted: seq<InterfaceSample>, readings: seq<int>, maxPerSec: int, period: string, now: int)
    requires Metered(counted, readings, maxPerSec)
    requires forall r :: r in counted ==> now - PeriodSeconds(period) <= r.ts < now
    ensures WithinRate(counted, readings, maxPerSec, period, SumOf(Loads(counted)))
  {
    if counted != [] {
      var seconds := BudgetSeconds(period, counted[0], readings);
      assert counted[0] in counted && counted[|counted| - 1] in counted;
      MeteredEach(counted, readings, maxPerSec, 0);
      SamplesFit(counted, readings, maxPerSec, now - PeriodSeconds(period), now, seconds);
      FitsProduct(SumOf(Loads(counted)), maxPerSec, seconds);
    }
  }

  /** A budget's bytes are those of the samples it counts. */
  lemma BudgetIsCounted(
    db: Tables, capBytes: int, period: string, now: int, scope: string, ssid: Option<string>, linkType: Option<string>)
    ensures QueryBudget(db, capBytes, period, now, scope, ssid, linkType).usedBytes
         == SumOf(Loads(Counted(db, now - PeriodSeconds(period), now, ScopeFilter(scope, ssid, linkType))))
  {
    UsedIsCounted(db.iface, db.sessions, now - PeriodSeconds(period), now, ScopeFilter(scope, ssid, linkType));
  }

  lemma CountedIsMetered(db: Tables, readings: seq<int>, maxPerSec: int, from: int, to: int, f: NetFilter)
    requires Metered(db.iface, readings, maxPerSec)
    ensures Metered(Counted(db, from, to, f), readings, maxPerSec)
    ensures forall r :: r in Counted(db, from, to, f) ==> from <= r.ts < to
  {
    KeepMeters(db.iface, readings, maxPerSec, CountedBy(db.sessions, from, to, f));
    KeepMembers(db.iface, CountedBy(db.sessions, from, to, f));
  }

  lemma MeteredReport(
    db: Tables, readings: seq<int>, maxPerSec: int, capBytes: int, period: string, now: int,
    scope: string, ssid: Option<string>, linkType: Option<string>)
    requires Metered(db.iface, readings, maxPerSec)
    ensures WithinRate(Counted(db, now - PeriodSeconds(period), now, ScopeFilter(scope, ssid, linkType)),
                       readings, maxPerSec, period,
                       QueryBudget(db, capBytes, period, now, scope, ssid, linkType).usedBytes)
  {
    var from, f := now - PeriodSeconds(period), ScopeFilter(scope, ssid, linkType);
    CountedIsMetered(db, readings, maxPerSec, from, now, f);
    CountedWithinRate(Counted(db, from, now, f), readings, maxPerSec, period, now);
    BudgetIsCounted(db, capBytes, period, now, scope, ssid, linkType);
  }

  lemma RunMetered(cfg: Config, clock: int, events: seq<Event>)
    requires ValidRun(cfg, World(EMPTY, None), clock, events) && cfg.ifacePoll >= 1
    ensures Metered(Run(cfg, World(EMPTY, None), clock, events).db.iface,
                    Readings(cfg, World(EMPTY, None), clock, events), cfg.maxPerSec)
  {
    var readings := Readings(cfg, World(EMPTY, None), clock, events);
    RunMeasures(cfg, World(EMPTY, None), clock, events, []);
    assert [] + readings == readings;
  }

  /**
   * The end-to-end rate bound. After any run from an empty database with a polling interval
   * of a second or more, with restarts and purges, no budget of any period and scope exceeds
   * twice (threshold + 1) for each second of its window and of the time the first sample it
   * counts covers: from the last reading of the counters before that sample, which is what
   * the tracker measured the sample from. A budget that counts no sample reports nothing.
   */
  lemma BudgetRate(
    cfg: Config, clock: int, events: seq<Event>, capBytes: int, period: string, now: int,
    scope: string, ssid: Option<string>, linkType: Option<string>)
    requires ValidRun(cfg, World(EMPTY, None), clock, events) && cfg.ifacePoll >= 1
    ensures var db := Run(cfg, World(EMPTY, None), clock, events).db;
            var readings := Readings(cfg, World(EMPTY, None), clock, events);
            var counted := Counted(db, now - PeriodSeconds(period), now, ScopeFilter(scope, ssid, linkType));
            WithinRate(counted, readings, cfg.maxPerSec, period,
                       QueryBudget(db, capBytes, period, now, scope, ssid, linkType).usedBytes)
  {
    RunMetered(cfg, clock, events);
    MeteredReport(Run(cfg, World(EMPTY, None), clock, events).db, Readings(cfg, World(EMPTY, None), clock, events),
                  cfg.maxPerSec, capBytes, period, now, scope, ssid, linkType);
  }
}
