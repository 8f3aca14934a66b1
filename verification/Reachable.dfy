/**
 * What the attribution theorems need of the database holds in every reachable one: stored
 * bytes are never negative, and every stored scope is one of the two the parser assigns.
 */
module Reachable {
  import opened Basics
  import opened Delta
  import opened Database
  import opened Nettop
  import opened Lsof
  import opened Collector
  import opened Integrity
  import opened Grouping
  import opened Reports
  import opened Attribution
  import opened RealSums

  // ---------------------------------------------------------------------------------
  // Bytes are never negative.

  ghost predicate Clean(db: Tables) {
    && (forall r :: r in db.iface ==> r.bytesIn >= 0 && r.bytesOut >= 0)
    && (forall r :: r in db.procs ==> r.bytesIn >= 0 && r.bytesOut >= 0)
  }

  lemma RowIsNonNegative(procIn: Anchors, procOut: Anchors, r: NettopRow, now: int, maxPerSec: int, active: Option<int>)
    ensures forall s :: s in RowStored(procIn, procOut, r, now, maxPerSec, active) ==> s.bytesIn >= 0 && s.bytesOut >= 0
  {
  }

  lemma {:induction false} StoredIsNonNegative(
    procIn: Anchors, procOut: Anchors, rows: seq<NettopRow>, now: int, maxPerSec: int, active: Option<int>)
    ensures forall s :: s in ProcessesStored(procIn, procOut, rows, now, maxPerSec, active) ==>
              s.bytesIn >= 0 && s.bytesOut >= 0
  {
    if rows != [] {
      var before, r := rows[..|rows| - 1], rows[|rows| - 1];
      StoredIsNonNegative(procIn, procOut, before, now, maxPerSec, active);
      RowIsNonNegative(Played(procIn, InPoll(before, now)), Played(procOut, OutPoll(before, now)),
                       r, now, maxPerSec, active);
    }
  }

  lemma StepIsClean(cfg: Config, w: World, e: Event)
    requires Enabled(w, e) && Clean(w.db)
    ensures Clean(Step(cfg, w, e).db)
  {
    if e.ProcessPoll? {
      var m := w.mem.value;
      StoredIsNonNegative(m.procIn, m.procOut, e.rows, e.now, cfg.maxPerSec, m.active);
    } else if e.RetentionPoll? {
      SweptMembers(w.db, e.now - cfg.sampleRetention);
    }
  }

  lemma {:induction false} RunIsClean(cfg: Config, w: World, clock: int, events: seq<Event>)
    requires ValidRun(cfg, w, clock, events) && Clean(w.db)
    ensures Clean(Run(cfg, w, clock, events).db)
    decreases |events|
  {
    if events != [] {
      StepIsClean(cfg, w, events[0]);
      RunIsClean(cfg, Step(cfg, w, events[0]), events[0].now, events[1..]);
    }
  }

  // ---------------------------------------------------------------------------------
  // Scopes are those the parser assigns.

  /** A connection poll carries what the parser returns: each row's scope classifies its address. */
  predicate Parsed(e: Event) {
    e.ConnectionPoll? ==> forall r :: r in e.connections ==> r.scope == ClassifyScope(r.remoteIp)
  }

  ghost predicate Scoped(db: Tables) {
    forall c :: c in db.conns ==> c.scope == Some(ClassifyScope(c.remoteIp))
  }

  lemma StepIsScoped(cfg: Config, w: World, e: Event)
    requires Enabled(w, e) && Scoped(w.db) && Parsed(e)
    ensures Scoped(Step(cfg, w, e).db)
  {
    if e.RetentionPoll? {
      SweptMembers(w.db, e.now - cfg.sampleRetention);
    }
  }

  lemma {:induction false} RunIsScoped(cfg: Config, w: World, clock: int, events: seq<Event>)
    requires ValidRun(cfg, w, clock, events) && Scoped(w.db)
    requires forall e :: e in events ==> Parsed(e)
    ensures Scoped(Run(cfg, w, clock, events).db)
    decreases |events|
  {
    if events != [] {
      assert events[0] in events;
      StepIsScoped(cfg, w, events[0]);
      RunIsScoped(cfg, Step(cfg, w, events[0]), events[0].now, events[1..]);
    }
  }

  // ---------------------------------------------------------------------------------
  // Attribution in reachable databases.

  lemma {:induction false} ChosenCharges(rows: seq<ProcessSample>, sessions: Sessions, f: NetFilter, from: int, to: int)
    requires forall r :: r in rows ==> r.bytesIn >= 0 && r.bytesOut >= 0
    ensures NonNegative(Choose(rows, ChargeIn(sessions, f, from, to)))
  {
    if rows != [] {
      ChosenCharges(rows[..|rows| - 1], sessions, f, from, to);
    }
  }

  lemma {:induction false} ChosenSightings(rows: seq<Connection>, sessions: Sessions, f: NetFilter, from: int, to: int)
    requires forall c :: c in rows ==> c.scope == Some(ClassifyScope(c.remoteIp))
    ensures TwoScopes(Choose(rows, SightingIn(sessions, f, from, to)))
  {
    if rows != [] {
      ChosenSightings(rows[..|rows| - 1], sessions, f, from, to);
    }
  }

  lemma ReachableCharges(cfg: Config, clock: int, events: seq<Event>, f: NetFilter, from: int, to: int)
    requires ValidRun(cfg, World(EMPTY, None), clock, events)
    ensures NonNegative(ProcessCharges(Run(cfg, World(EMPTY, None), clock, events).db, f, from, to))
  {
    RunIsClean(cfg, World(EMPTY, None), clock, events);
    var db := Run(cfg, World(EMPTY, None), clock, events).db;
    ChosenCharges(db.procs, db.sessions, f, from, to);
  }

  /** By-domain conserves bytes in every reachable database, for any window, network and scope. */
  lemma ReachableByDomain(
    cfg: Config, clock: int, events: seq<Event>, f: NetFilter, from: int, to: int, scope: string, d: Direction)
    requires ValidRun(cfg, World(EMPTY, None), clock, events)
    ensures var db := Run(cfg, World(EMPTY, None), clock, events).db;
            var report := ByDomain(db, f, from, to, scope);
            var exact := Attributable(db, f, from, to, scope, d);
            var reported := Sum(report.Keys, ReportedAmount(report, d));
            && UncutTotal(db, f, from, to, scope, d) == exact as real
            && reported <= exact as real
            && (report != map[] ==> exact as real < reported + |report| as real)
            && (report == map[] ==> exact == 0)
            && exact <= BytesOf(db, f, from, to, Anything(), d)
  {
    ReachableCharges(cfg, clock, events, f, from, to);
    ByDomainConserves(Run(cfg, World(EMPTY, None), clock, events).db, f, from, to, scope, d);
  }

  /** In every reachable database a process's internet and lan rows never add up to more than its exact row. */
  lemma ReachableByProcess(
    cfg: Config, clock: int, events: seq<Event>, f: NetFilter, from: int, to: int, d: Direction, exact: Charge<string>)
    requires ValidRun(cfg, World(EMPTY, None), clock, events)
    requires forall e :: e in events ==> Parsed(e)
    requires exact in ByProcessAll(Run(cfg, World(EMPTY, None), clock, events).db, f, from, to)
    ensures var db := Run(cfg, World(EMPTY, None), clock, events).db;
            Shown(ByProcess(db, f, from, to, "internet"), exact.key, d)
            + Shown(ByProcess(db, f, from, to, "lan"), exact.key, d)
            <= Amount(exact.bytes, d)
  {
    var db := Run(cfg, World(EMPTY, None), clock, events).db;
    ReachableCharges(cfg, clock, events, f, from, to);
    RunIsScoped(cfg, World(EMPTY, None), clock, events);
    ChosenSightings(db.conns, db.sessions, f, from, to);
    ByProcessSplits(db, f, from, to, exact.key, d, exact);
    ByProcessTruncates(db, f, from, to, exact.key, "internet", d);
    ByProcessTruncates(db, f, from, to, exact.key, "lan", d);
  }

  /** What a report shows for a process; nothing if it has no row. */
  function Shown(report: map<string, Bytes>, process: string, d: Direction): int {
    if process in report then Amount(report[process], d) else 0
  }

  // ---------------------------------------------------------------------------------
  // Budgets in reachable databases.

  /**
   * In every reachable database the budgets of requests for different networks never exceed
   * the budget of all networks, and meet it exactly when every byte in the window is on a
   * network some request asks for.
   */
  lemma ReachableBudgets(
    cfg: Config, clock: int, events: seq<Event>, capBytes: int, period: string, now: int, requests: seq<Request>)
    requires ValidRun(cfg, World(EMPTY, None), clock, events) && Distinct(requests)
    ensures var db := Run(cfg, World(EMPTY, None), clock, events).db;
            var rows := Joined(db, now - PeriodSeconds(period), now);
            var all := QueryBudget(db, capBytes, period, now, "all", None, None).usedBytes;
            && SumOfBudgets(db, capBytes, period, now, requests) <= all
            && (SumOfBudgets(db, capBytes, period, now, requests) == all
                <==> forall l :: l in rows ==> Asks(requests, l.net) || LocatedBytes(l) == 0)
  {
    RunIsClean(cfg, World(EMPTY, None), clock, events);
    BudgetsMeetIff(Run(cfg, World(EMPTY, None), clock, events).db, capBytes, period, now, requests);
  }

  /** A session poll sees what the collector's parsers return: a link type, and an SSID or none. */
  predicate Named(e: Event) {
    e.SessionPoll? && e.snapshot.Some? ==> FilterOf(e.snapshot.value.Net()).Some?
  }

  ghost predicate AllNamed(sessions: Sessions) {
    forall id :: id in sessions ==> FilterOf(sessions[id].net).Some?
  }

  lemma StepIsNamed(cfg: Config, w: World, e: Event)
    requires Enabled(w, e) && AllNamed(w.db.sessions) && Named(e)
    ensures AllNamed(Step(cfg, w, e).db.sessions)
  {
  }

  lemma {:induction false} RunIsNamed(cfg: Config, w: World, clock: int, events: seq<Event>)
    requires ValidRun(cfg, w, clock, events) && AllNamed(w.db.sessions)
    requires forall e :: e in events ==> Named(e)
    ensures AllNamed(Run(cfg, w, clock, events).db.sessions)
    decreases |events|
  {
    if events != [] {
      assert events[0] in events;
      StepIsNamed(cfg, w, events[0]);
      RunIsNamed(cfg, Step(cfg, w, events[0]), events[0].now, events[1..]);
    }
  }

  /**
   * When every polled network has a link type and no empty SSID, which is what the parsers
   * return, single networks partition the traffic of every reachable database: any requests
   * for different networks that ask for each network in the window add up to the budget of
   * all networks, and one request for each network that appears is such a list.
   */
  lemma NamedBudgetsAddUp(
    cfg: Config, clock: int, events: seq<Event>, capBytes: int, period: string, now: int, requests: seq<Request>)
    requires ValidRun(cfg, World(EMPTY, None), clock, events) && Distinct(requests)
    requires forall e :: e in events ==> Named(e)
    ensures var db := Run(cfg, World(EMPTY, None), clock, events).db;
            var rows := Joined(db, now - PeriodSeconds(period), now);
            var all := QueryBudget(db, capBytes, period, now, "all", None, None).usedBytes;
            && ((forall l :: l in rows ==> Asks(requests, l.net)) ==>
                  SumOfBudgets(db, capBytes, period, now, requests) == all)
            && SumOfBudgets(db, capBytes, period, now, RequestsFor(rows)) == all
  {
    var db := Run(cfg, World(EMPTY, None), clock, events).db;
    var rows := Joined(db, now - PeriodSeconds(period), now);
    RunIsNamed(cfg, World(EMPTY, None), clock, events);
    LocatedRows(db.iface, db.sessions, now - PeriodSeconds(period), now);
    RequestsForAll(rows);
    ReachableBudgets(cfg, clock, events, capBytes, period, now, requests);
    ReachableBudgets(cfg, clock, events, capBytes, period, now, RequestsFor(rows));
  }
}
