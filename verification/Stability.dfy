/**
 * Reports do not change under the reader's feet: a purge is invisible to every report it
 * should be invisible to, and a window of past time reads the same however the collector
 * runs on, crashes, restarts and purges.
 */
module Stability {
  import opened Basics
  import opened Database
  import opened Watcher
  import opened Delta
  import opened Nettop
  import opened Collector
  import opened Integrity
  import opened Reports
  import opened Attribution

  /** Every query over [from, to) selects the same rows with the same networks. */
  ghost predicate SameWindow(a: Tables, b: Tables, from: int, to: int) {
    && Joined(a, from, to) == Joined(b, from, to)
    && (forall f :: ProcessCharges(a, f, from, to) == ProcessCharges(b, f, from, to))
    && (forall f :: Sightings(a, f, from, to) == Sightings(b, f, from, to))
  }

  // ---------------------------------------------------------------------------------
  // Purging.

  lemma PurgedRowsAgree(db: Tables, clock: int, cutoff: int, from: int, to: int, f: NetFilter)
    requires Sound(db, clock) && cutoff <= from
    ensures var kept := db.sessions - ExpiredIds(db.sessions, cutoff);
            && (forall r :: r in db.iface ==> LocateIn(db.sessions, from, to)(r) == LocateIn(kept, from, to)(r))
            && (forall r :: r in db.procs ==> ChargeIn(db.sessions, f, from, to)(r) == ChargeIn(kept, f, from, to)(r))
            && (forall r :: r in db.conns ==>
                  SightingIn(db.sessions, f, from, to)(r) == SightingIn(kept, f, from, to)(r))
  {
  }

  lemma PurgedJoin(db: Tables, clock: int, cutoff: int, from: int, to: int)
    requires Sound(db, clock) && cutoff <= from
    ensures var kept := db.sessions - ExpiredIds(db.sessions, cutoff);
            Choose(InterfaceSince(db.iface, cutoff), LocateIn(kept, from, to)) == Joined(db, from, to)
  {
    var kept := db.sessions - ExpiredIds(db.sessions, cutoff);
    PurgedRowsAgree(db, clock, cutoff, from, to, AllNetworks);
    ChooseKept(db.iface, (r: InterfaceSample) => r.ts >= cutoff, LocateIn(kept, from, to));
    ChooseAgrees(db.iface, LocateIn(db.sessions, from, to), LocateIn(kept, from, to));
  }

  lemma PurgedSamples(db: Tables, clock: int, cutoff: int, from: int, to: int, f: NetFilter)
    requires Sound(db, clock) && cutoff <= from
    ensures var kept := db.sessions - ExpiredIds(db.sessions, cutoff);
            && Choose(ProcessesSince(db.procs, cutoff), ChargeIn(kept, f, from, to)) == ProcessCharges(db, f, from, to)
            && Choose(ConnectionsSince(db.conns, cutoff), SightingIn(kept, f, from, to)) == Sightings(db, f, from, to)
  {
    var kept := db.sessions - ExpiredIds(db.sessions, cutoff);
    PurgedRowsAgree(db, clock, cutoff, from, to, f);
    ChooseKept(db.procs, (r: ProcessSample) => r.ts >= cutoff, ChargeIn(kept, f, from, to));
    ChooseAgrees(db.procs, ChargeIn(db.sessions, f, from, to), ChargeIn(kept, f, from, to));
    ChooseKept(db.conns, (r: Connection) => r.ts >= cutoff, SightingIn(kept, f, from, to));
    ChooseAgrees(db.conns, SightingIn(db.sessions, f, from, to), SightingIn(kept, f, from, to));
  }

  lemma PurgedTables(db: Tables, clock: int, now: int, sampleRetention: int, dnsRetention: int)
    requires Sound(db, clock)
    ensures var after := Purged(db, now, sampleRetention, dnsRetention);
            var cutoff := now - sampleRetention;
            && after.sessions == db.sessions - ExpiredIds(db.sessions, cutoff)
            && after.iface == InterfaceSince(db.iface, cutoff)
            && after.procs == ProcessesSince(db.procs, cutoff)
            && after.conns == ConnectionsSince(db.conns, cutoff)
            && after.gaps == GapsSince(db.gaps, cutoff)
            && after.dns == DnsSince(db.dns, now - dnsRetention)
  {
    PurgeNeverRefused(db, clock, now - sampleRetention);
  }

  /** A purge changes no window that starts at or after its cutoff, whenever that window ends. */
  lemma PurgeKeepsWindows(db: Tables, clock: int, now: int, sampleRetention: int, dnsRetention: int, from: int, to: int)
    requires Sound(db, clock) && now - sampleRetention <= from
    ensures SameWindow(db, Purged(db, now, sampleRetention, dnsRetention), from, to)
  {
    var cutoff := now - sampleRetention;
    var after := Purged(db, now, sampleRetention, dnsRetention);
    PurgedTables(db, clock, now, sampleRetention, dnsRetention);
    PurgedJoin(db, clock, cutoff, from, to);
    forall f
      ensures ProcessCharges(db, f, from, to) == ProcessCharges(after, f, from, to)
      ensures Sightings(db, f, from, to) == Sightings(after, f, from, to)
    {
      PurgedSamples(db, clock, cutoff, from, to, f);
    }
  }

  const THIRTY_DAYS := 2592000

  /**
   * Purging is invisible: with at least thirty days of retention, in every reachable state
   * a purge at p changes no budget asked at p or later, for any period, scope and network.
   */
  lemma PurgeKeepsBudgets(
    cfg: Config, w: World, clock: int, events: seq<Event>, p: int, now: int,
    capBytes: int, period: string, scope: string, ssid: Option<string>, linkType: Option<string>)
    requires ValidRun(cfg, w, clock, events) && Inv(w, clock)
    requires cfg.sampleRetention >= THIRTY_DAYS && p <= now
    ensures var db := Run(cfg, w, clock, events).db;
            var after := Purged(db, p, cfg.sampleRetention, cfg.dnsRetention);
            QueryBudget(after, capBytes, period, now, scope, ssid, linkType)
            == QueryBudget(db, capBytes, period, now, scope, ssid, linkType)
  {
    RunKeeps(cfg, w, clock, events);
    PurgeKeepsWindows(Run(cfg, w, clock, events).db, EndClock(clock, events), p,
                      cfg.sampleRetention, cfg.dnsRetention, now - PeriodSeconds(period), now);
  }

  /** No purge changes a budget asked then or later, whatever sound database it finds. */
  ghost predicate BudgetsSurvive(sampleRetention: int, dnsRetention: int) {
    forall db, clock, p, now, capBytes, period, scope, ssid, linkType ::
      Sound(db, clock) && p <= now ==>
        QueryBudget(Purged(db, p, sampleRetention, dnsRetention), capBytes, period, now, scope, ssid, linkType)
        == QueryBudget(db, capBytes, period, now, scope, ssid, linkType)
  }

  /** The same for databases that runs from an empty one reach, purged at the run's end or later. */
  ghost predicate RunBudgetsSurvive(sampleRetention: int, dnsRetention: int) {
    forall cfg: Config, clock, events, p, now, capBytes, period, scope, ssid, linkType ::
      && cfg.sampleRetention == sampleRetention && cfg.dnsRetention == dnsRetention
      && ValidRun(cfg, World(EMPTY, None), clock, events)
      && EndClock(clock, events) <= p <= now
      ==>
        var db := Run(cfg, World(EMPTY, None), clock, events).db;
        QueryBudget(Purged(db, p, sampleRetention, dnsRetention), capBytes, period, now, scope, ssid, linkType)
        == QueryBudget(db, capBytes, period, now, scope, ssid, linkType)
  }

  /**
   * Thirty days, which is also the default retention, is exactly what budgets need: with it
   * they survive in every sound database, and without it some run loses bytes.
   */
  lemma BudgetsSurviveIff(sampleRetention: int, dnsRetention: int)
    ensures BudgetsSurvive(sampleRetention, dnsRetention) <==> sampleRetention >= THIRTY_DAYS
    ensures RunBudgetsSurvive(sampleRetention, dnsRetention) <==> sampleRetention >= THIRTY_DAYS
  {
    if sampleRetention >= THIRTY_DAYS {
      forall db, clock, p, now, capBytes, period, scope, ssid, linkType | Sound(db, clock) && p <= now
        ensures QueryBudget(Purged(db, p, sampleRetention, dnsRetention), capBytes, period, now, scope, ssid, linkType)
             == QueryBudget(db, capBytes, period, now, scope, ssid, linkType)
      {
        PurgeKeepsWindows(db, clock, p, sampleRetention, dnsRetention, now - PeriodSeconds(period), now);
      }
      SurvivalReachesRuns(sampleRetention, dnsRetention);
    } else {
      ShortRetentionLoses(sampleRetention, dnsRetention);
    }
  }

  lemma SurvivalReachesRuns(sampleRetention: int, dnsRetention: int)
    requires BudgetsSurvive(sampleRetention, dnsRetention)
    ensures RunBudgetsSurvive(sampleRetention, dnsRetention)
  {
    forall cfg: Config, clock, events | ValidRun(cfg, World(EMPTY, None), clock, events)
      ensures Sound(Run(cfg, World(EMPTY, None), clock, events).db, EndClock(clock, events))
    {
      RunKeeps(cfg, World(EMPTY, None), clock, events);
    }
  }

  // A run whose only sample a purge deletes too early.

  const HOME := Snapshot("en0", "wifi", None, None, None)

  function CounterAt(bytes: int): seq<NettopRow> {
    [NettopRow("route", None, bytes, 0)]
  }

  function ShortRun(): seq<Event> {
    [Start(1), SessionPoll(Some(HOME), 1), InterfacePoll(CounterAt(0), 1), InterfacePoll(CounterAt(1), 2)]
  }

  function EachSecond(sampleRetention: int, dnsRetention: int): Config {
    Config(1, 1, 1, 1, 1, sampleRetention, dnsRetention)
  }

  lemma CounterTotals(bytes: int)
    ensures TotalIn(CounterAt(bytes)) == bytes && TotalOut(CounterAt(bytes)) == 0
  {
    assert CounterAt(bytes)[..0] == [];
  }

  lemma FirstReading(cfg: Config, w: World, bytes: int, now: int)
    requires w.mem.Some? && w.mem.value.ifaceAnchors == map[] && now - w.mem.value.lastIface >= cfg.ifacePoll
    ensures Step(cfg, w, InterfacePoll(CounterAt(bytes), now))
         == World(w.db, Some(w.mem.value.(
                          ifaceAnchors := map[IN_KEY := Anchor(bytes, now, 0), OUT_KEY := Anchor(0, now, 0)],
                          lastIface := now)))
  {
    CounterTotals(bytes);
    TwoUpdates(map[], InterfacePollOf(CounterAt(bytes), now));
    assert w.db.iface + [] == w.db.iface;
  }

  lemma SecondReading(cfg: Config, w: World, sid: int)
    requires w.mem.Some? && cfg.ifacePoll == 1 && cfg.maxPerSec == 1
    requires w.mem.value.ifaceAnchors == map[IN_KEY := Anchor(0, 1, 0), OUT_KEY := Anchor(0, 1, 0)]
    requires w.mem.value.lastIface == 1 && w.mem.value.active == Some(sid)
    ensures var after := Step(cfg, w, InterfacePoll(CounterAt(1), 2));
            after.db == w.db.(iface := w.db.iface + [InterfaceSample(2, sid, 1, 0)])
  {
    CounterTotals(1);
    var rows := CounterAt(1);
    assert Reported(Judge(Lookup(w.mem.value.ifaceAnchors, IN_KEY), TotalIn(rows), 2, 1)) == Some(1);
    assert Reported(Judge(Lookup(w.mem.value.ifaceAnchors, OUT_KEY), TotalOut(rows), 2, 1)) == Some(0);
  }

  lemma FirstStep(cfg: Config, w: World, clock: int, e: Event, rest: seq<Event>)
    requires Enabled(w, e) && clock <= e.now && ValidRun(cfg, Step(cfg, w, e), e.now, rest)
    ensures ValidRun(cfg, w, clock, [e] + rest)
    ensures Run(cfg, w, clock, [e] + rest) == Run(cfg, Step(cfg, w, e), e.now, rest)
  {
    assert ([e] + rest)[1..] == rest;
  }

  /** Start and join a network. */
  lemma Joins(cfg: Config, w0: World)
    requires cfg.sessionPoll == 1 && w0 == World(EMPTY, None)
    ensures var w := Step(cfg, Step(cfg, w0, Start(1)), SessionPoll(Some(HOME), 1));
            && w.db == EMPTY.(sessions := map[1 := Session(1, None, HOME.Net(), None)])
            && w.mem.Some? && w.mem.value.active == Some(1)
            && w.mem.value.ifaceAnchors == map[] && w.mem.value.lastIface == 0
  {
    assert OrphansClosed(map[], 1) == map[];
    var w1 := Step(cfg, w0, Start(1));
    assert w1.db == EMPTY && w1.mem.value.held == Held(None, None);
  }

  /** Start, join a network, read a counter of 0 and a second later a counter of 1. */
  lemma ShortRunStores(cfg: Config)
    requires cfg == EachSecond(cfg.sampleRetention, cfg.dnsRetention)
    ensures ValidRun(cfg, World(EMPTY, None), 1, ShortRun())
    ensures Run(cfg, World(EMPTY, None), 1, ShortRun()).db
         == EMPTY.(sessions := map[1 := Session(1, None, HOME.Net(), None)], iface := [InterfaceSample(2, 1, 1, 0)])
  {
    var w0, readings := World(EMPTY, None), [InterfacePoll(CounterAt(0), 1)] + [InterfacePoll(CounterAt(1), 2)];
    Joins(cfg, w0);
    TwoReadings(cfg, Step(cfg, Step(cfg, w0, Start(1)), SessionPoll(Some(HOME), 1)));
    ThenJoin(cfg, w0, readings);
    assert [Start(1)] + ([SessionPoll(Some(HOME), 1)] + readings) == ShortRun();
  }

  /** A run that starts and joins a network first. */
  lemma ThenJoin(cfg: Config, w0: World, rest: seq<Event>)
    requires w0.mem.None?
    requires ValidRun(cfg, Step(cfg, Step(cfg, w0, Start(1)), SessionPoll(Some(HOME), 1)), 1, rest)
    ensures var e1, e2 := Start(1), SessionPoll(Some(HOME), 1);
            && ValidRun(cfg, w0, 1, [e1] + ([e2] + rest))
            && Run(cfg, w0, 1, [e1] + ([e2] + rest)) == Run(cfg, Step(cfg, Step(cfg, w0, e1), e2), 1, rest)
  {
    var e1, e2 := Start(1), SessionPoll(Some(HOME), 1);
    var w1 := Step(cfg, w0, e1);
    assert Enabled(w1, e2);
    FirstStep(cfg, w1, 1, e2, rest);
    FirstStep(cfg, w0, 1, e1, [e2] + rest);
  }

  lemma TwoReadings(cfg: Config, w: World)
    requires cfg == EachSecond(cfg.sampleRetention, cfg.dnsRetention)
    requires w.mem.Some? && w.mem.value.active == Some(1)
    requires w.mem.value.ifaceAnchors == map[] && w.mem.value.lastIface == 0
    ensures var readings := [InterfacePoll(CounterAt(0), 1)] + [InterfacePoll(CounterAt(1), 2)];
            && ValidRun(cfg, w, 1, readings)
            && Run(cfg, w, 1, readings).db == w.db.(iface := w.db.iface + [InterfaceSample(2, 1, 1, 0)])
  {
    var e3, e4 := InterfacePoll(CounterAt(0), 1), InterfacePoll(CounterAt(1), 2);
    FirstReading(cfg, w, 0, 1);
    var w3 := Step(cfg, w, e3);
    SecondReading(cfg, w3, 1);
    FirstStep(cfg, w3, 1, e4, []);
    assert [e4] + [] == [e4];
    FirstStep(cfg, w, 1, e3, [e4]);
  }

  /** That sample is exactly thirty days old, still inside the month window, when the purge deletes it. */
  lemma EarlyPurge(db: Tables, p: int, sampleRetention: int, dnsRetention: int)
    requires db.iface == [InterfaceSample(2, 1, 1, 0)] && 1 in db.sessions
    requires p == THIRTY_DAYS + 2 && sampleRetention < THIRTY_DAYS
    ensures QueryBudget(db, 1, "month", p, "all", None, None).usedBytes == 1
    ensures QueryBudget(Purged(db, p, sampleRetention, dnsRetention), 1, "month", p, "all", None, None).usedBytes == 0
  {
    var row := InterfaceSample(2, 1, 1, 0);
    assert PeriodSeconds("month") == THIRTY_DAYS;
    OneSample(db, row, 2, p, AllNetworks);
    SingleRow(row, (r: InterfaceSample) => r.ts >= p - sampleRetention, LocateIn(db.sessions, 2, p));
    assert Purged(db, p, sampleRetention, dnsRetention).iface == [];
  }

  lemma SurvivesRun(
    cfg: Config, clock: int, events: seq<Event>, p: int, now: int,
    capBytes: int, period: string, scope: string, ssid: Option<string>, linkType: Option<string>)
    requires RunBudgetsSurvive(cfg.sampleRetention, cfg.dnsRetention)
    requires ValidRun(cfg, World(EMPTY, None), clock, events) && EndClock(clock, events) <= p <= now
    ensures var db := Run(cfg, World(EMPTY, None), clock, events).db;
            var after := Purged(db, p, cfg.sampleRetention, cfg.dnsRetention);
            QueryBudget(after, capBytes, period, now, scope, ssid, linkType)
            == QueryBudget(db, capBytes, period, now, scope, ssid, linkType)
  {
  }

  lemma ShortRetentionLoses(sampleRetention: int, dnsRetention: int)
    requires sampleRetention < THIRTY_DAYS
    ensures !RunBudgetsSurvive(sampleRetention, dnsRetention)
    ensures !BudgetsSurvive(sampleRetention, dnsRetention)
  {
    if BudgetsSurvive(sampleRetention, dnsRetention) {
      SurvivalReachesRuns(sampleRetention, dnsRetention);
    }
    if RunBudgetsSurvive(sampleRetention, dnsRetention) {
      var cfg, events, p := EachSecond(sampleRetention, dnsRetention), ShortRun(), THIRTY_DAYS + 2;
      ShortRunStores(cfg);
      ShortRunEnds();
      SurvivesRun(cfg, 1, events, p, p, 1, "month", "all", None, None);
      EarlyPurge(Run(cfg, World(EMPTY, None), 1, events).db, p, sampleRetention, dnsRetention);
      assert false;
    }
  }

  lemma ShortRunEnds()
    ensures EndClock(1, ShortRun()) == 2
  {
  }

  /** The same holds of every exact or by-process report over a window that starts at the cutoff or later. */
  lemma PurgeKeepsReports(
    cfg: Config, w: World, clock: int, events: seq<Event>, p: int, from: int, to: int,
    granularity: string, f: NetFilter, scope: string)
    requires ValidRun(cfg, w, clock, events) && Inv(w, clock)
    requires p - cfg.sampleRetention <= from
    ensures var db := Run(cfg, w, clock, events).db;
            var after := Purged(db, p, cfg.sampleRetention, cfg.dnsRetention);
            && Timeseries(after, from, to, granularity, f) == Timeseries(db, from, to, granularity, f)
            && ByNetwork(after, from, to) == ByNetwork(db, from, to)
            && ByProcessAll(after, f, from, to) == ByProcessAll(db, f, from, to)
            && ByProcess(after, f, from, to, scope) == ByProcess(db, f, from, to, scope)
            && GapsIn(after, from, to) == GapsIn(db, from, to)
            && SessionsIn(after, from, to) == SessionsIn(db, from, to)
  {
    RunKeeps(cfg, w, clock, events);
    var db := Run(cfg, w, clock, events).db;
    PurgeKeepsWindows(db, EndClock(clock, events), p, cfg.sampleRetention, cfg.dnsRetention, from, to);
    PurgeKeepsLists(db, EndClock(clock, events), p, cfg.sampleRetention, cfg.dnsRetention, from, to);
  }

  /**
   * By-domain under a purge of samples and DNS names together. Losing a name may rename
   * hosts, but the hosts of the new report share exactly the bytes that those of the old one
   * did; and if the purge takes no name of an address sighted in the window, the whole report
   * stays as it was.
   */
  lemma PurgeKeepsAttribution(
    cfg: Config, w: World, clock: int, events: seq<Event>, p: int, from: int, to: int,
    f: NetFilter, scope: string, d: Direction)
    requires ValidRun(cfg, w, clock, events) && Inv(w, clock)
    requires p - cfg.sampleRetention <= from
    ensures var db := Run(cfg, w, clock, events).db;
            var after := Purged(db, p, cfg.sampleRetention, cfg.dnsRetention);
            && UncutTotal(after, f, from, to, scope, d) == UncutTotal(db, f, from, to, scope, d)
            && (NamesKept(db.dns, p - cfg.dnsRetention, Sightings(db, f, from, to)) ==>
                  ByDomain(after, f, from, to, scope) == ByDomain(db, f, from, to, scope))
  {
    RunKeeps(cfg, w, clock, events);
    var db := Run(cfg, w, clock, events).db;
    var after := Purged(db, p, cfg.sampleRetention, cfg.dnsRetention);
    PurgeKeepsWindows(db, EndClock(clock, events), p, cfg.sampleRetention, cfg.dnsRetention, from, to);
    PurgedTables(db, EndClock(clock, events), p, cfg.sampleRetention, cfg.dnsRetention);
    assert Sightings(after, f, from, to) == Sightings(db, f, from, to);
    assert ProcessCharges(after, f, from, to) == ProcessCharges(db, f, from, to);
    SameBytesShared(db, after, f, from, to, scope, d);
    if NamesKept(db.dns, p - cfg.dnsRetention, Sightings(db, f, from, to)) {
      SameNamesSameReport(db, after, f, from, to, scope);
    }
  }

  /** No purge with this cutoff deletes the name of an address among the connections. */
  ghost predicate NamesKept(dns: DnsCache, cutoff: int, conns: seq<Connection>) {
    forall c :: c in conns && c.remoteIp in dns && dns[c.remoteIp].hostname.Some? ==>
      dns[c.remoteIp].resolvedAt >= cutoff
  }

  lemma {:induction false} KeepTwice<T>(rows: seq<T>, p: T -> bool, q: T -> bool)
    requires forall r :: r in rows && q(r) ==> p(r)
    ensures Keep(Keep(rows, p), q) == Keep(rows, q)
  {
    if rows != [] {
      var n := |rows| - 1;
      KeepTwice(rows[..n], p, q);
      if p(rows[n]) {
        assert Keep(rows, p)[..|Keep(rows[..n], p)|] == Keep(rows[..n], p);
      } else {
        assert Keep(rows, p) == Keep(rows[..n], p);
      }
    }
  }

  lemma PurgeKeepsLists(db: Tables, clock: int, now: int, sampleRetention: int, dnsRetention: int, from: int, to: int)
    requires Sound(db, clock) && now - sampleRetention <= from
    ensures GapsIn(Purged(db, now, sampleRetention, dnsRetention), from, to) == GapsIn(db, from, to)
    ensures SessionsIn(Purged(db, now, sampleRetention, dnsRetention), from, to) == SessionsIn(db, from, to)
  {
    var cutoff := now - sampleRetention;
    PurgedTables(db, clock, now, sampleRetention, dnsRetention);
    KeepTwice(db.gaps, (g: Gap) => g.end >= cutoff, (g: Gap) => g.end > from && g.start < to);
    var after := Purged(db, now, sampleRetention, dnsRetention);
    forall id
      ensures id in SessionsIn(after, from, to) <==> id in SessionsIn(db, from, to)
    {
    }
  }

  // ---------------------------------------------------------------------------------
  // Any step.

  /** Rows added outside a window, under sessions that keep their networks, leave it alone. */
  lemma AddedRowsInvisible(
    a: Tables, b: Tables, clock: int, from: int, to: int,
    iface: seq<InterfaceSample>, procs: seq<ProcessSample>, conns: seq<Connection>)
    requires Sound(a, clock)
    requires forall id :: id in a.sessions ==> id in b.sessions && b.sessions[id].net == a.sessions[id].net
    requires b.iface == a.iface + iface && b.procs == a.procs + procs && b.conns == a.conns + conns
    requires forall r :: r in iface ==> r.ts >= to
    requires forall r :: r in procs ==> r.ts >= to
    requires forall r :: r in conns ==> r.ts >= to
    ensures SameWindow(a, b, from, to)
  {
    ChooseAppend(a.iface, iface, LocateIn(b.sessions, from, to));
    ChooseNothing(iface, LocateIn(b.sessions, from, to));
    ChooseAgrees(a.iface, LocateIn(a.sessions, from, to), LocateIn(b.sessions, from, to));
    forall f
      ensures ProcessCharges(a, f, from, to) == ProcessCharges(b, f, from, to)
      ensures Sightings(a, f, from, to) == Sightings(b, f, from, to)
    {
      ChooseAppend(a.procs, procs, ChargeIn(b.sessions, f, from, to));
      ChooseNothing(procs, ChargeIn(b.sessions, f, from, to));
      ChooseAgrees(a.procs, ChargeIn(a.sessions, f, from, to), ChargeIn(b.sessions, f, from, to));
      ChooseAppend(a.conns, conns, SightingIn(b.sessions, f, from, to));
      ChooseNothing(conns, SightingIn(b.sessions, f, from, to));
      ChooseAgrees(a.conns, SightingIn(a.sessions, f, from, to), SightingIn(b.sessions, f, from, to));
    }
  }

  lemma SessionStepInvisible(cfg: Config, w: World, e: Event, clock: int, from: int, to: int)
    requires Enabled(w, e) && Inv(w, clock)
    requires e.Start? || e.SessionPoll? || e.Shutdown? || e.Crash? || e.DnsDequeue?
    ensures SameWindow(w.db, Step(cfg, w, e).db, from, to)
  {
    var b := Step(cfg, w, e).db;
    if e.Start? {
      StartupAdopts(w.db.sessions, e.now);
    } else if e.SessionPoll? {
      ReconcileKeeps(w.db.sessions, w.mem.value.held, e.snapshot, e.now);
    }
    assert b.iface == w.db.iface + [] && b.procs == w.db.procs + [] && b.conns == w.db.conns + [];
    AddedRowsInvisible(w.db, b, clock, from, to, [], [], []);
  }

  lemma PollInvisible(cfg: Config, w: World, e: Event, clock: int, from: int, to: int)
    requires Enabled(w, e) && Inv(w, clock) && to <= e.now
    requires e.InterfacePoll? || e.ProcessPoll? || e.ConnectionPoll?
    ensures SameWindow(w.db, Step(cfg, w, e).db, from, to)
  {
    var a, b, m := w.db, Step(cfg, w, e).db, w.mem.value;
    var iface := b.iface[|a.iface|..];
    var procs := b.procs[|a.procs|..];
    var conns := b.conns[|a.conns|..];
    if e.ProcessPoll? {
      StoredProcessRows(m.procIn, m.procOut, e.rows, e.now, cfg.maxPerSec, m.active);
    }
    AddedRowsInvisible(a, b, clock, from, to, iface, procs, conns);
  }

  /**
   * History is settled. A window that lies in the past reads the same after any further
   * run of polls, network changes, crashes, restarts and purges, as long as it starts
   * within the retention of the run's end; so ids that purges free and later sessions take
   * again never move a stored byte to another network.
   */
  lemma {:induction false} SettledWindows(cfg: Config, w: World, clock: int, events: seq<Event>, from: int, to: int)
    requires ValidRun(cfg, w, clock, events) && Inv(w, clock)
    requires to <= clock && EndClock(clock, events) - cfg.sampleRetention <= from
    ensures SameWindow(w.db, Run(cfg, w, clock, events).db, from, to)
    decreases |events|
  {
    if events != [] {
      var e := events[0];
      var next := Step(cfg, w, e);
      ClockAdvances(cfg, next, e.now, events[1..]);
      if e.RetentionPoll? {
        PurgeKeepsWindows(w.db, clock, e.now, cfg.sampleRetention, cfg.dnsRetention, from, to);
      } else if e.InterfacePoll? || e.ProcessPoll? || e.ConnectionPoll? {
        PollInvisible(cfg, w, e, clock, from, to);
      } else {
        SessionStepInvisible(cfg, w, e, clock, from, to);
      }
      StepIsSound(cfg, w, e, clock);
      StepWatches(cfg, w, e);
      SettledWindows(cfg, next, e.now, events[1..], from, to);
    }
  }

  /** What that means for by-domain: later DNS answers and purges may rename its hosts, not change what they share. */
  lemma SettledAttribution(
    cfg: Config, w: World, clock: int, events: seq<Event>, from: int, to: int,
    f: NetFilter, scope: string, d: Direction)
    requires ValidRun(cfg, w, clock, events) && Inv(w, clock)
    requires to <= clock && EndClock(clock, events) - cfg.sampleRetention <= from
    ensures UncutTotal(Run(cfg, w, clock, events).db, f, from, to, scope, d) == UncutTotal(w.db, f, from, to, scope, d)
  {
    SettledWindows(cfg, w, clock, events, from, to);
    SameBytesShared(Run(cfg, w, clock, events).db, w.db, f, from, to, scope, d);
  }

  /** What that means for a budget window that has closed: its answer is final. */
  lemma SettledBudgets(
    cfg: Config, w: World, clock: int, events: seq<Event>, now: int,
    capBytes: int, period: string, scope: string, ssid: Option<string>, linkType: Option<string>)
    requires ValidRun(cfg, w, clock, events) && Inv(w, clock)
    requires now <= clock && EndClock(clock, events) - cfg.sampleRetention <= now - PeriodSeconds(period)
    ensures QueryBudget(Run(cfg, w, clock, events).db, capBytes, period, now, scope, ssid, linkType)
         == QueryBudget(w.db, capBytes, period, now, scope, ssid, linkType)
  {
    SettledWindows(cfg, w, clock, events, now - PeriodSeconds(period), now);
  }
}
