/**
 * appband/collector.py: the poll ticks, the loops that throttle them, startup and shutdown.
 *
 * `World` is everything the program's behaviour depends on between two steps: the database
 * file, and the memory of the running process if there is one. `Step` gives the world after
 * each step; the class `Collector` performs the steps in place and is proved against it.
 *
 * Two assumptions are built in. A step is atomic: its readings, its clock value and its
 * writes belong together. A step completes: no statement or subprocess fails half way.
 */
module Collector {
  import opened Basics
  import opened Text
  import opened Delta
  import opened Database
  import opened Watcher
  import opened Nettop
  import opened Lsof
  import Dns

  datatype Config = Config(
    sessionPoll: int, ifacePoll: int, procPoll: int, connPoll: int,
    maxPerSec: int, sampleRetention: int, dnsRetention: int)

  const GAP_THRESHOLD_SEC := 60
  const PURGE_EVERY_SEC := 86400
  const EVICTION_MISSES := 3
  const IN_KEY := "external:in"
  const OUT_KEY := "external:out"

  // ---------------------------------------------------------------------------------
  // Interface tick: two counters, summed over all routes.

  function TotalIn(rows: seq<NettopRow>): int {
    if rows == [] then 0 else TotalIn(rows[..|rows| - 1]) + rows[|rows| - 1].bytesIn
  }

  function TotalOut(rows: seq<NettopRow>): int {
    if rows == [] then 0 else TotalOut(rows[..|rows| - 1]) + rows[|rows| - 1].bytesOut
  }

  function InterfacePollOf(rows: seq<NettopRow>, now: int): Poll {
    if rows == [] then []
    else [Update(IN_KEY, TotalIn(rows), now), Update(OUT_KEY, TotalOut(rows), now)]
  }

  /** The sample an interface tick stores: none unless both counters report and a session is active. */
  function InterfaceStored(anchors: Anchors, rows: seq<NettopRow>, now: int, maxPerSec: int, active: Option<int>)
    : seq<InterfaceSample>
  {
    var dIn := Reported(Judge(Lookup(anchors, IN_KEY), TotalIn(rows), now, maxPerSec));
    var dOut := Reported(Judge(Lookup(anchors, OUT_KEY), TotalOut(rows), now, maxPerSec));
    if rows != [] && dIn.Some? && dOut.Some? && active.Some?
    then [InterfaceSample(now, active.value, dIn.value, dOut.value)]
    else []
  }

  // ---------------------------------------------------------------------------------
  // Process tick: two counters for each process, in two trackers.

  function PidText(pid: Option<nat>): string {
    if pid.Some? then PrintNat(pid.value) else "None"
  }

  function RowKey(row: NettopRow): string {
    PidText(row.pid) + ":" + row.process
  }

  function InPoll(rows: seq<NettopRow>, now: int): Poll {
    seq(|rows|, i requires 0 <= i < |rows| => Update(RowKey(rows[i]) + ":in", rows[i].bytesIn, now))
  }

  function OutPoll(rows: seq<NettopRow>, now: int): Poll {
    seq(|rows|, i requires 0 <= i < |rows| => Update(RowKey(rows[i]) + ":out", rows[i].bytesOut, now))
  }

  /** Both trackers are aged against the keys of both directions. */
  function PresentKeys(rows: seq<NettopRow>): set<string> {
    (set r | r in rows :: RowKey(r) + ":in") + (set r | r in rows :: RowKey(r) + ":out")
  }

  /** The samples a process tick stores, in row order. */
  function ProcessesStored(
    procIn: Anchors, procOut: Anchors, rows: seq<NettopRow>, now: int, maxPerSec: int, active: Option<int>)
    : seq<ProcessSample>
  {
    if rows == [] then []
    else
      var n := |rows| - 1;
      var before, r := rows[..n], rows[n];
      ProcessesStored(procIn, procOut, before, now, maxPerSec, active)
      + RowStored(Played(procIn, InPoll(before, now)), Played(procOut, OutPoll(before, now)), r, now, maxPerSec, active)
  }

  function RowStored(
    procIn: Anchors, procOut: Anchors, r: NettopRow, now: int, maxPerSec: int, active: Option<int>)
    : seq<ProcessSample>
  {
    var dIn := Reported(Judge(Lookup(procIn, RowKey(r) + ":in"), r.bytesIn, now, maxPerSec));
    var dOut := Reported(Judge(Lookup(procOut, RowKey(r) + ":out"), r.bytesOut, now, maxPerSec));
    if dIn.Some? && dOut.Some? && active.Some? && !(dIn.value == 0 && dOut.value == 0)
    then [ProcessSample(now, active.value, r.process, r.pid, dIn.value, dOut.value)]
    else []
  }

  // ---------------------------------------------------------------------------------
  // Connection tick.

  function ConnectionsStored(rows: seq<LsofRow>, now: int, active: Option<int>): seq<Connection> {
    if active.None? then []
    else seq(|rows|, i requires 0 <= i < |rows| =>
             Connection(now, active.value, rows[i].process, rows[i].remoteIp, rows[i].remotePort,
                        rows[i].protocol, Some(rows[i].scope)))
  }

  // ---------------------------------------------------------------------------------
  // The world and its steps.

  datatype Memory = Memory(
    held: Held, active: Option<int>,
    ifaceAnchors: Anchors, procIn: Anchors, procOut: Anchors,
    lastSession: int, lastIface: int, lastProc: int, lastConn: int, lastPurge: int)

  datatype World = World(db: Tables, mem: Option<Memory>)

  datatype Event =
    | Start(now: int)
    | SessionPoll(snapshot: Option<Snapshot>, now: int)
    | InterfacePoll(rows: seq<NettopRow>, now: int)
    | ProcessPoll(rows: seq<NettopRow>, now: int)
    | ConnectionPoll(connections: seq<LsofRow>, now: int)
    | RetentionPoll(now: int)
    | DnsDequeue(ip: string, answer: Option<string>, now: int)
    | Shutdown(now: int)
    | Crash(now: int)

  /** Between ticks the collector's active session is the watcher's, or not yet set. */
  ghost predicate Watching(sessions: Sessions, m: Memory) {
    Holds(sessions, m.held) && (m.active.Some? ==> m.active == m.held.id)
  }

  /** A process is started when none runs; everything else happens to a running process. */
  predicate Enabled(w: World, e: Event) {
    e.Start? <==> w.mem.None?
  }

  function Started(db: Tables, now: int): World {
    var sessions := OrphansClosed(db.sessions, now);
    World(db.(sessions := sessions),
          Some(Memory(Recovered(sessions), None, map[], map[], map[], 0, 0, 0, 0, 0)))
  }

  function SessionTicked(cfg: Config, db: Tables, m: Memory, snapshot: Option<Snapshot>, now: int): World {
    if now - m.lastSession < cfg.sessionPoll then World(db, Some(m))
    else
      var gap := if m.lastSession != 0 && now - m.lastSession >= GAP_THRESHOLD_SEC
                 then [Gap(m.lastSession, now)] else [];
      var r := Reconcile(db.sessions, m.held, snapshot, now);
      World(db.(sessions := r.sessions, gaps := db.gaps + gap),
            Some(m.(held := r.held, active := r.held.id, lastSession := now)))
  }

  function InterfaceTicked(cfg: Config, db: Tables, m: Memory, rows: seq<NettopRow>, now: int): World {
    if now - m.lastIface < cfg.ifacePoll then World(db, Some(m))
    else
      World(db.(iface := db.iface + InterfaceStored(m.ifaceAnchors, rows, now, cfg.maxPerSec, m.active)),
            Some(m.(ifaceAnchors := Played(m.ifaceAnchors, InterfacePollOf(rows, now)), lastIface := now)))
  }

  function ProcessesTicked(cfg: Config, db: Tables, m: Memory, rows: seq<NettopRow>, now: int): World {
    if now - m.lastProc < cfg.procPoll then World(db, Some(m))
    else
      World(db.(procs := db.procs + ProcessesStored(m.procIn, m.procOut, rows, now, cfg.maxPerSec, m.active)),
            Some(m.(procIn := Evicted(Played(m.procIn, InPoll(rows, now)), PresentKeys(rows), EVICTION_MISSES),
                    procOut := Evicted(Played(m.procOut, OutPoll(rows, now)), PresentKeys(rows), EVICTION_MISSES),
                    lastProc := now)))
  }

  function ConnectionsTicked(cfg: Config, db: Tables, m: Memory, rows: seq<LsofRow>, now: int): World {
    if now - m.lastConn < cfg.connPoll then World(db, Some(m))
    else
      World(db.(conns := db.conns + ConnectionsStored(rows, now, m.active)), Some(m.(lastConn := now)))
  }

  function RetentionTicked(cfg: Config, db: Tables, m: Memory, now: int): World {
    if now - m.lastPurge < PURGE_EVERY_SEC then World(db, Some(m))
    else World(Purged(db, now, cfg.sampleRetention, cfg.dnsRetention), Some(m.(lastPurge := now)))
  }

  /** A clean exit closes the active session; a session adopted but not yet ticked stays open. */
  function ShutDown(db: Tables, m: Memory, now: int): World {
    World(if m.active.Some? then db.(sessions := Closed(db.sessions, m.active.value, now)) else db, None)
  }

  function Step(cfg: Config, w: World, e: Event): World
    requires Enabled(w, e)
  {
    if e.Start? then Started(w.db, e.now)
    else
      var m := w.mem.value;
      match e
      case SessionPoll(snapshot, now) => SessionTicked(cfg, w.db, m, snapshot, now)
      case InterfacePoll(rows, now) => InterfaceTicked(cfg, w.db, m, rows, now)
      case ProcessPoll(rows, now) => ProcessesTicked(cfg, w.db, m, rows, now)
      case ConnectionPoll(rows, now) => ConnectionsTicked(cfg, w.db, m, rows, now)
      case RetentionPoll(now) => RetentionTicked(cfg, w.db, m, now)
      case DnsDequeue(ip, answer, now) =>
        w.(db := w.db.(dns := Dns.AfterJob(w.db.dns, Dns.Dequeue(ip, answer, now), cfg.dnsRetention)))
      case Shutdown(now) => ShutDown(w.db, m, now)
      case Crash(_) => World(w.db, None)
  }

  // ---------------------------------------------------------------------------------
  // The running process.

  class Collector {
    const cfg: Config
    const store: Store
    const watcher: SessionWatcher
    const ifaceTracker: DeltaTracker
    const procInTracker: DeltaTracker
    const procOutTracker: DeltaTracker
    const resolver: Dns.DnsResolver
    var activeSession: Option<int>
    var lastSession: int
    var lastIface: int
    var lastProc: int
    var lastConn: int
    var lastPurge: int

    /** The objects are distinct and wired to one database, and the active session exists in it. */
    ghost predicate Wired()
      reads this, store
    {
      && watcher.conn == store && resolver.conn == store
      && ifaceTracker != procInTracker && ifaceTracker != procOutTracker && procInTracker != procOutTracker
      && ifaceTracker.maxPerSec == procInTracker.maxPerSec == procOutTracker.maxPerSec == cfg.maxPerSec
      && (activeSession.Some? ==> activeSession.value in store.sessions)
    }

    /** Moreover the watcher holds the only open session. */
    ghost predicate Valid()
      reads this, store, watcher, ifaceTracker, procInTracker, procOutTracker
    {
      Wired() && Watching(store.sessions, Recall())
    }

    /** Everything the running process remembers. */
    ghost function Recall(): Memory
      reads this, watcher, ifaceTracker, procInTracker, procOutTracker
    {
      Memory(watcher.State(), activeSession,
             ifaceTracker.state, procInTracker.state, procOutTracker.state,
             lastSession, lastIface, lastProc, lastConn, lastPurge)
    }

    ghost function State(): World
      reads this, store, watcher, ifaceTracker, procInTracker, procOutTracker
    {
      World(store.Contents(), Some(Recall()))
    }

    constructor (cfg: Config, store: Store, now: int)
      modifies store`sessions
      ensures Valid() && this.cfg == cfg && this.store == store
      ensures fresh(watcher) && fresh(ifaceTracker) && fresh(procInTracker) && fresh(procOutTracker)
      ensures State() == Step(cfg, World(old(store.Contents()), None), Start(now))
    {
      StartupAdopts(store.sessions, now);
      store.CloseOrphanSessions(now);
      this.cfg := cfg;
      this.store := store;
      var adopting := new SessionWatcher(store);
      watcher := adopting;
      var looking := new Dns.DnsResolver(store);
      resolver := looking;
      var t0 := new DeltaTracker(cfg.maxPerSec);
      var t1 := new DeltaTracker(cfg.maxPerSec);
      var t2 := new DeltaTracker(cfg.maxPerSec);
      ifaceTracker, procInTracker, procOutTracker := t0, t1, t2;
      activeSession := None;
      lastSession, lastIface, lastProc, lastConn, lastPurge := 0, 0, 0, 0, 0;
    }

    method RunInterfaceTick(rows: seq<NettopRow>, now: int)
      requires Wired()
      modifies ifaceTracker, store`iface
      ensures ifaceTracker.state == Played(old(ifaceTracker.state), InterfacePollOf(rows, now))
      ensures store.iface == old(store.iface)
              + InterfaceStored(old(ifaceTracker.state), rows, now, cfg.maxPerSec, activeSession)
    {
      if |rows| == 0 {
        return;
      }
      var totalIn, totalOut := 0, 0;
      for i := 0 to |rows|
        invariant totalIn == TotalIn(rows[..i]) && totalOut == TotalOut(rows[..i])
      {
        assert rows[..i + 1][..i] == rows[..i];
        totalIn, totalOut := totalIn + rows[i].bytesIn, totalOut + rows[i].bytesOut;
      }
      assert rows[..|rows|] == rows;
      var deltaIn := ifaceTracker.Update(IN_KEY, totalIn, now);
      var deltaOut := ifaceTracker.Update(OUT_KEY, totalOut, now);
      TwoUpdates(old(ifaceTracker.state), InterfacePollOf(rows, now));
      if deltaIn.None? || deltaOut.None? {
        return;
      }
      if activeSession.None? {
        return;
      }
      store.InsertInterfaceSample(InterfaceSample(now, activeSession.value, deltaIn.value, deltaOut.value));
    }

    /** The body of the process tick's loop. */
    method RunProcessRow(r: NettopRow, now: int)
      requires Wired()
      modifies procInTracker, procOutTracker, store`procs
      ensures procInTracker.state
           == old(procInTracker.state)[RowKey(r) + ":in" := Anchor(r.bytesIn, now, 0)]
      ensures procOutTracker.state
           == old(procOutTracker.state)[RowKey(r) + ":out" := Anchor(r.bytesOut, now, 0)]
      ensures store.procs == old(store.procs)
              + RowStored(old(procInTracker.state), old(procOutTracker.state), r, now, cfg.maxPerSec, activeSession)
    {
      var key := RowKey(r);
      var deltaIn := procInTracker.Update(key + ":in", r.bytesIn, now);
      var deltaOut := procOutTracker.Update(key + ":out", r.bytesOut, now);
      if deltaIn.None? || deltaOut.None? {
        return;
      }
      if activeSession.None? {
        return;
      }
      if deltaIn.value == 0 && deltaOut.value == 0 {
        return;
      }
      store.InsertProcessSample(
        ProcessSample(now, activeSession.value, r.process, r.pid, deltaIn.value, deltaOut.value));
    }

    /** The process tick's loop, with the keys of both directions it has seen. */
    method RunProcessRows(rows: seq<NettopRow>, now: int) returns (present: set<string>)
      requires Wired()
      modifies procInTracker, procOutTracker, store`procs
      ensures present == PresentKeys(rows)
      ensures procInTracker.state == Played(old(procInTracker.state), InPoll(rows, now))
      ensures procOutTracker.state == Played(old(procOutTracker.state), OutPoll(rows, now))
      ensures store.procs == old(store.procs)
              + ProcessesStored(old(procInTracker.state), old(procOutTracker.state), rows, now,
                                cfg.maxPerSec, activeSession)
    {
      ghost var in0, out0, procs0, stored := procInTracker.state, procOutTracker.state, store.procs, [];
      present := {};
      assert rows[..0] == [] && InPoll([], now) == [] && OutPoll([], now) == [];
      for i := 0 to |rows|
        invariant RowsPlayed(rows, i, now, in0, out0, procInTracker.state, procOutTracker.state, present)
        invariant stored == ProcessesStored(in0, out0, rows[..i], now, cfg.maxPerSec, activeSession)
        invariant store.procs == procs0 + stored
      {
        ghost var a, b, seen := procInTracker.state, procOutTracker.state, present;
        RunProcessRow(rows[i], now);
        present := present + {RowKey(rows[i]) + ":in", RowKey(rows[i]) + ":out"};
        OneMoreRow(rows, i, now, in0, out0, a, b, seen, cfg.maxPerSec, activeSession);
        ghost var added := RowStored(a, b, rows[i], now, cfg.maxPerSec, activeSession);
        Associate(procs0, stored, added);
        stored := stored + added;
      }
      assert rows[..|rows|] == rows;
    }

    method RunProcessTick(rows: seq<NettopRow>, now: int)
      requires Wired()
      modifies procInTracker, procOutTracker, store`procs
      ensures procInTracker.state
           == Evicted(Played(old(procInTracker.state), InPoll(rows, now)), PresentKeys(rows), EVICTION_MISSES)
      ensures procOutTracker.state
           == Evicted(Played(old(procOutTracker.state), OutPoll(rows, now)), PresentKeys(rows), EVICTION_MISSES)
      ensures store.procs == old(store.procs)
              + ProcessesStored(old(procInTracker.state), old(procOutTracker.state), rows, now,
                                cfg.maxPerSec, activeSession)
    {
      var present := RunProcessRows(rows, now);
      procInTracker.EvictMissing(present, EVICTION_MISSES);
      procOutTracker.EvictMissing(present, EVICTION_MISSES);
    }

    /** Every address is queued for DNS, whether or not its row could be stored. */
    method RunConnectionTick(rows: seq<LsofRow>, now: int) returns (queued: seq<string>)
      requires Wired()
      modifies store`conns
      ensures store.conns == old(store.conns) + ConnectionsStored(rows, now, activeSession)
      ensures |queued| == |rows| && forall i :: 0 <= i < |rows| ==> queued[i] == rows[i].remoteIp
    {
      queued := [];
      for i := 0 to |rows|
        invariant |queued| == i && forall j :: 0 <= j < i ==> queued[j] == rows[j].remoteIp
        invariant store.conns == old(store.conns) + ConnectionsStored(rows[..i], now, activeSession)
      {
        assert rows[..i + 1] == rows[..i] + [rows[i]];
        if activeSession.None? {
          queued := queued + [rows[i].remoteIp];
          continue;
        }
        store.InsertConnection(
          Connection(now, activeSession.value, rows[i].process, rows[i].remoteIp, rows[i].remotePort,
                     rows[i].protocol, Some(rows[i].scope)));
        queued := queued + [rows[i].remoteIp];
      }
      assert rows[..|rows|] == rows;
    }

    method SessionLoop(snapshot: Option<Snapshot>, now: int)
      requires Valid()
      modifies this, store, watcher
      ensures Valid()
      ensures State() == Step(cfg, old(State()), SessionPoll(snapshot, now))
    {
      ReconcileKeeps(store.sessions, watcher.State(), snapshot, now);
      if now - lastSession >= cfg.sessionPoll {
        if lastSession != 0 && now - lastSession >= GAP_THRESHOLD_SEC {
          store.RecordGap(lastSession, now);
        }
        activeSession := watcher.Tick(snapshot, now);
        lastSession := now;
      }
    }

    method InterfaceLoop(rows: seq<NettopRow>, now: int)
      requires Valid()
      modifies this`lastIface, ifaceTracker, store`iface
      ensures Valid()
      ensures State() == Step(cfg, old(State()), InterfacePoll(rows, now))
    {
      if now - lastIface >= cfg.ifacePoll {
        RunInterfaceTick(rows, now);
        lastIface := now;
      }
    }

    method ProcessLoop(rows: seq<NettopRow>, now: int)
      requires Valid()
      modifies this`lastProc, procInTracker, procOutTracker, store`procs
      ensures Valid()
      ensures State() == Step(cfg, old(State()), ProcessPoll(rows, now))
    {
      if now - lastProc >= cfg.procPoll {
        RunProcessTick(rows, now);
        lastProc := now;
      }
    }

    method ConnectionLoop(rows: seq<LsofRow>, now: int) returns (queued: seq<string>)
      requires Valid()
      modifies this`lastConn, store`conns
      ensures Valid()
      ensures State() == Step(cfg, old(State()), ConnectionPoll(rows, now))
      ensures now - old(lastConn) >= cfg.connPoll ==>
                |queued| == |rows| && forall i :: 0 <= i < |rows| ==> queued[i] == rows[i].remoteIp
      ensures now - old(lastConn) < cfg.connPoll ==> queued == []
    {
      queued := [];
      if now - lastConn >= cfg.connPoll {
        queued := RunConnectionTick(rows, now);
        lastConn := now;
      }
    }

    method RetentionLoop(now: int)
      requires Valid()
      modifies this`lastPurge, store
      ensures Valid()
      ensures State() == Step(cfg, old(State()), RetentionPoll(now))
    {
      if now - lastPurge >= PURGE_EVERY_SEC {
        PurgeKeepsHeld(store.sessions, watcher.State(), now - cfg.sampleRetention);
        var completed := store.PurgeOld(now, cfg.sampleRetention, cfg.dnsRetention);
        lastPurge := now;
      }
    }

    method ResolverLoop(ip: string, answer: Option<string>, now: int)
      requires Valid()
      modifies store`dns
      ensures Valid()
      ensures State() == Step(cfg, old(State()), DnsDequeue(ip, answer, now))
    {
      var log := resolver.Serve(ip, answer, now);
    }

    method ShutdownStep(now: int)
      requires Valid()
      modifies store`sessions
      ensures World(store.Contents(), None) == Step(cfg, old(State()), Shutdown(now))
    {
      if activeSession.Some? {
        store.CloseSession(activeSession.value, now);
      }
    }
  }

  /** The trackers and the seen keys after the first `i` rows of a process poll. */
  ghost predicate RowsPlayed(
    rows: seq<NettopRow>, i: nat, now: int, in0: Anchors, out0: Anchors,
    procIn: Anchors, procOut: Anchors, present: set<string>)
    requires i <= |rows|
  {
    && procIn == Played(in0, InPoll(rows[..i], now))
    && procOut == Played(out0, OutPoll(rows[..i], now))
    && present == PresentKeys(rows[..i])
  }

  lemma OneMoreUpdate(anchors: Anchors, poll: Poll, u: Update)
    ensures Played(anchors, poll + [u]) == Played(anchors, poll)[u.key := Anchor(u.value, u.now, 0)]
  {
    assert (poll + [u])[..|poll|] == poll;
  }

  lemma PollsGrow(rows: seq<NettopRow>, r: NettopRow, now: int)
    ensures InPoll(rows + [r], now) == InPoll(rows, now) + [Update(RowKey(r) + ":in", r.bytesIn, now)]
    ensures OutPoll(rows + [r], now) == OutPoll(rows, now) + [Update(RowKey(r) + ":out", r.bytesOut, now)]
  {
  }

  lemma KeysGrow(rows: seq<NettopRow>, r: NettopRow)
    ensures PresentKeys(rows + [r]) == PresentKeys(rows) + {RowKey(r) + ":in", RowKey(r) + ":out"}
  {
  }

  lemma StoredGrows(
    procIn: Anchors, procOut: Anchors, rows: seq<NettopRow>, r: NettopRow, now: int, maxPerSec: int,
    active: Option<int>)
    ensures ProcessesStored(procIn, procOut, rows + [r], now, maxPerSec, active)
         == ProcessesStored(procIn, procOut, rows, now, maxPerSec, active)
            + RowStored(Played(procIn, InPoll(rows, now)), Played(procOut, OutPoll(rows, now)),
                        r, now, maxPerSec, active)
  {
    assert (rows + [r])[..|rows|] == rows;
  }

  /** One more row moves all that the process tick keeps up to date. */
  lemma OneMoreRow(
    rows: seq<NettopRow>, i: nat, now: int, in0: Anchors, out0: Anchors,
    procIn: Anchors, procOut: Anchors, present: set<string>, maxPerSec: int, active: Option<int>)
    requires i < |rows| && RowsPlayed(rows, i, now, in0, out0, procIn, procOut, present)
    ensures var r := rows[i];
            RowsPlayed(rows, i + 1, now, in0, out0,
                       procIn[RowKey(r) + ":in" := Anchor(r.bytesIn, now, 0)],
                       procOut[RowKey(r) + ":out" := Anchor(r.bytesOut, now, 0)],
                       present + {RowKey(r) + ":in", RowKey(r) + ":out"})
    ensures ProcessesStored(in0, out0, rows[..i + 1], now, maxPerSec, active)
         == ProcessesStored(in0, out0, rows[..i], now, maxPerSec, active)
            + RowStored(procIn, procOut, rows[i], now, maxPerSec, active)
  {
    var before, r := rows[..i], rows[i];
    assert rows[..i + 1] == before + [r];
    PollsGrow(before, r, now);
    OneMoreUpdate(in0, InPoll(before, now), Update(RowKey(r) + ":in", r.bytesIn, now));
    OneMoreUpdate(out0, OutPoll(before, now), Update(RowKey(r) + ":out", r.bytesOut, now));
    KeysGrow(before, r);
    StoredGrows(in0, out0, before, r, now, maxPerSec, active);
  }

  lemma TwoUpdates(anchors: Anchors, poll: Poll)
    requires |poll| == 2
    ensures Played(anchors, poll)
         == anchors[poll[0].key := Anchor(poll[0].value, poll[0].now, 0)]
                   [poll[1].key := Anchor(poll[1].value, poll[1].now, 0)]
  {
    assert poll[..1][..0] == [];
    assert Played(anchors, poll[..1]) == anchors[poll[0].key := Anchor(poll[0].value, poll[0].now, 0)];
  }
}
