/**
 * From counters to samples over the life of one process: what the trackers hold is a
 * function of the polls that fired, and every byte they count is stored or accounted for.
 */
module Ledgers {
  import opened Basics
  import opened Text
  import opened Delta
  import opened Database
  import opened Nettop
  import opened Collector
  import opened Integrity

  // ---------------------------------------------------------------------------------
  // Interface ticks: one counter pair, and where its deltas go.

  /** An interface tick that fired, with the session that was active then. */
  datatype Tick = Tick(rows: seq<NettopRow>, now: int, active: Option<int>)

  function UpdatesOf(ticks: seq<Tick>): seq<Update> {
    if ticks == [] then []
    else
      var last := ticks[|ticks| - 1];
      UpdatesOf(ticks[..|ticks| - 1]) + InterfacePollOf(last.rows, last.now)
  }

  /** The samples a sequence of ticks stores. */
  function StoredBy(ticks: seq<Tick>, maxPerSec: int): seq<InterfaceSample> {
    if ticks == [] then []
    else
      var before, last := ticks[..|ticks| - 1], ticks[|ticks| - 1];
      StoredBy(before, maxPerSec)
      + InterfaceStored(Played(map[], UpdatesOf(before)), last.rows, last.now, maxPerSec, last.active)
  }

  // Each statement below is about one direction, inbound or outbound.

  function KeyOf(inbound: bool): string {
    if inbound then IN_KEY else OUT_KEY
  }

  function CounterOf(rows: seq<NettopRow>, inbound: bool): int {
    if inbound then TotalIn(rows) else TotalOut(rows)
  }

  function SumStored(samples: seq<InterfaceSample>, inbound: bool): int {
    if samples == [] then 0
    else
      var last := samples[|samples| - 1];
      SumStored(samples[..|samples| - 1], inbound) + if inbound then last.bytesIn else last.bytesOut
  }

  /** Deltas that were counted but not stored, by the reason the tick gave up. */
  datatype Dropped = Dropped(otherDirection: int, noSession: int)

  function DeltaOf(updates: seq<Update>, tick: Tick, inbound: bool, maxPerSec: int): Option<int> {
    Reported(Judge(Lookup(Played(map[], updates), KeyOf(inbound)), CounterOf(tick.rows, inbound), tick.now, maxPerSec))
  }

  function TickDropped(updates: seq<Update>, tick: Tick, inbound: bool, maxPerSec: int): Dropped {
    var own, other := DeltaOf(updates, tick, inbound, maxPerSec), DeltaOf(updates, tick, !inbound, maxPerSec);
    if tick.rows == [] || own.None? then Dropped(0, 0)
    else if other.None? then Dropped(own.value, 0)
    else if tick.active.None? then Dropped(0, own.value)
    else Dropped(0, 0)
  }

  function DroppedBy(ticks: seq<Tick>, inbound: bool, maxPerSec: int): Dropped {
    if ticks == [] then Dropped(0, 0)
    else
      var before := ticks[..|ticks| - 1];
      var d := DroppedBy(before, inbound, maxPerSec);
      var t := TickDropped(UpdatesOf(before), ticks[|ticks| - 1], inbound, maxPerSec);
      Dropped(d.otherDirection + t.otherDirection, d.noSession + t.noSession)
  }

  /** One tick stores its delta or drops it, whole. */
  lemma TickStoresOrDrops(updates: seq<Update>, tick: Tick, inbound: bool, maxPerSec: int)
    ensures var stored := InterfaceStored(Played(map[], updates), tick.rows, tick.now, maxPerSec, tick.active);
            var own := DeltaOf(updates, tick, inbound, maxPerSec);
            var d := TickDropped(updates, tick, inbound, maxPerSec);
            && |stored| <= 1 && d.otherDirection >= 0 && d.noSession >= 0
            && (if stored == [] then 0 else if inbound then stored[0].bytesIn else stored[0].bytesOut)
               + d.otherDirection + d.noSession
               == if tick.rows == [] || own.None? then 0 else own.value
  {
  }

  lemma PlayedAppend(anchors: Anchors, updates: seq<Update>, u: Update)
    ensures Played(anchors, updates + [u]) == Played(anchors, updates)[u.key := Anchor(u.value, u.now, 0)]
  {
    assert (updates + [u])[..|updates|] == updates;
  }

  /** One tick's two updates change a direction's tally by its own verdict alone. */
  lemma TallyTick(updates: seq<Update>, tick: Tick, inbound: bool, maxPerSec: int)
    requires tick.rows != []
    ensures var after := updates + InterfacePollOf(tick.rows, tick.now);
            var own := DeltaOf(updates, tick, inbound, maxPerSec);
            Tally(map[], after, KeyOf(inbound), maxPerSec).counted
            == Tally(map[], updates, KeyOf(inbound), maxPerSec).counted + (if own.Some? then own.value else 0)
  {
    var first, second := Update(IN_KEY, TotalIn(tick.rows), tick.now), Update(OUT_KEY, TotalOut(tick.rows), tick.now);
    assert updates + InterfacePollOf(tick.rows, tick.now) == (updates + [first]) + [second];
    PlayedAppend(map[], updates, first);
    assert (updates + [first])[..|updates|] == updates;
    assert ((updates + [first]) + [second])[..|updates| + 1] == updates + [first];
  }

  lemma StoredAppend(samples: seq<InterfaceSample>, more: seq<InterfaceSample>, inbound: bool)
    requires |more| <= 1
    ensures SumStored(samples + more, inbound)
         == SumStored(samples, inbound)
            + if more == [] then 0 else if inbound then more[0].bytesIn else more[0].bytesOut
  {
    if more == [] {
      assert samples + more == samples;
    } else {
      assert (samples + more)[..|samples|] == samples;
    }
  }

  /** Counted bytes are stored, or dropped for want of a session or of the other direction. */
  lemma {:induction false} CountedIsStoredOrDropped(ticks: seq<Tick>, inbound: bool, maxPerSec: int)
    ensures var d := DroppedBy(ticks, inbound, maxPerSec);
            && SumStored(StoredBy(ticks, maxPerSec), inbound) + d.otherDirection + d.noSession
               == Tally(map[], UpdatesOf(ticks), KeyOf(inbound), maxPerSec).counted
            && d.otherDirection >= 0 && d.noSession >= 0
  {
    if ticks != [] {
      var n := |ticks| - 1;
      var before, last := ticks[..n], ticks[n];
      CountedIsStoredOrDropped(before, inbound, maxPerSec);
      var stored := InterfaceStored(Played(map[], UpdatesOf(before)), last.rows, last.now, maxPerSec, last.active);
      TickStoresOrDrops(UpdatesOf(before), last, inbound, maxPerSec);
      StoredAppend(StoredBy(before, maxPerSec), stored, inbound);
      if last.rows == [] {
        assert UpdatesOf(before) + [] == UpdatesOf(before);
      } else {
        TallyTick(UpdatesOf(before), last, inbound, maxPerSec);
      }
    }
  }

  /**
   * The interface ledger of one process life, for each direction: stored bytes, plus bytes
   * dropped for want of the other direction or of a session, plus discontinuity jumps,
   * minus reset losses, is how far the counter moved. So no life stores more than it counted.
   */
  lemma InterfaceLedger(ticks: seq<Tick>, inbound: bool, maxPerSec: int)
    requires KeyOf(inbound) in Played(map[], UpdatesOf(ticks))
    ensures var updates := UpdatesOf(ticks);
            var t := Tally(map[], updates, KeyOf(inbound), maxPerSec);
            var d := DroppedBy(ticks, inbound, maxPerSec);
            && SumStored(StoredBy(ticks, maxPerSec), inbound) + d.otherDirection + d.noSession + t.jumped - t.lost
               == Played(map[], updates)[KeyOf(inbound)].value - Baseline(map[], updates, KeyOf(inbound))
            && SumStored(StoredBy(ticks, maxPerSec), inbound) <= t.counted
  {
    CountedIsStoredOrDropped(ticks, inbound, maxPerSec);
    LedgerBalances(map[], UpdatesOf(ticks), KeyOf(inbound), maxPerSec);
  }

  // ---------------------------------------------------------------------------------
  // Process ticks.

  function SumProcesses(samples: seq<ProcessSample>, inbound: bool): int {
    if samples == [] then 0
    else
      var last := samples[|samples| - 1];
      SumProcesses(samples[..|samples| - 1], inbound) + if inbound then last.bytesIn else last.bytesOut
  }

  /** Bytes a tick's rows report in one direction, and those of them it does not store. */
  datatype RowTotals = RowTotals(counted: int, dropped: int)

  function RowDelta(
    procIn: Anchors, procOut: Anchors, before: seq<NettopRow>, r: NettopRow, now: int, maxPerSec: int, inbound: bool):
    Option<int>
  {
    if inbound
    then Reported(Judge(Lookup(Played(procIn, InPoll(before, now)), RowKey(r) + ":in"), r.bytesIn, now, maxPerSec))
    else Reported(Judge(Lookup(Played(procOut, OutPoll(before, now)), RowKey(r) + ":out"), r.bytesOut, now, maxPerSec))
  }

  function ProcessTotals(
    procIn: Anchors, procOut: Anchors, rows: seq<NettopRow>, now: int, maxPerSec: int, active: Option<int>,
    inbound: bool): RowTotals
  {
    if rows == [] then RowTotals(0, 0)
    else
      var before, r := rows[..|rows| - 1], rows[|rows| - 1];
      var t := ProcessTotals(procIn, procOut, before, now, maxPerSec, active, inbound);
      var own := RowTotal(procIn, procOut, before, r, now, maxPerSec, active, inbound);
      RowTotals(t.counted + own.counted, t.dropped + own.dropped)
  }

  function RowTotal(
    procIn: Anchors, procOut: Anchors, before: seq<NettopRow>, r: NettopRow, now: int, maxPerSec: int,
    active: Option<int>, inbound: bool): RowTotals
  {
    var own := RowDelta(procIn, procOut, before, r, now, maxPerSec, inbound);
    var other := RowDelta(procIn, procOut, before, r, now, maxPerSec, !inbound);
    if own.None? then RowTotals(0, 0)
    else RowTotals(own.value, if other.None? || active.None? then own.value else 0)
  }

  function SampleOf(stored: seq<ProcessSample>, inbound: bool): int {
    if stored == [] then 0 else if inbound then stored[0].bytesIn else stored[0].bytesOut
  }

  lemma RowStoresOrDrops(
    procIn: Anchors, procOut: Anchors, before: seq<NettopRow>, r: NettopRow, now: int, maxPerSec: int,
    active: Option<int>, inbound: bool)
    ensures var a, b := Played(procIn, InPoll(before, now)), Played(procOut, OutPoll(before, now));
            var stored := RowStored(a, b, r, now, maxPerSec, active);
            var t := RowTotal(procIn, procOut, before, r, now, maxPerSec, active, inbound);
            |stored| <= 1 && SampleOf(stored, inbound) == t.counted - t.dropped && 0 <= t.dropped <= t.counted
  {
  }

  lemma ProcessesAppend(samples: seq<ProcessSample>, more: seq<ProcessSample>, inbound: bool)
    requires |more| <= 1
    ensures SumProcesses(samples + more, inbound) == SumProcesses(samples, inbound) + SampleOf(more, inbound)
  {
    if more == [] {
      assert samples + more == samples;
    } else {
      assert (samples + more)[..|samples|] == samples;
    }
  }

  /** A process tick stores exactly the counted bytes of rows with both directions and a session. */
  lemma {:induction false} ProcessTickLedger(
    procIn: Anchors, procOut: Anchors, rows: seq<NettopRow>, now: int, maxPerSec: int, active: Option<int>,
    inbound: bool)
    ensures var t := ProcessTotals(procIn, procOut, rows, now, maxPerSec, active, inbound);
            && SumProcesses(ProcessesStored(procIn, procOut, rows, now, maxPerSec, active), inbound)
               == t.counted - t.dropped
            && 0 <= t.dropped <= t.counted
  {
    if rows != [] {
      var n := |rows| - 1;
      ProcessTickLedger(procIn, procOut, rows[..n], now, maxPerSec, active, inbound);
      RowStoresOrDrops(procIn, procOut, rows[..n], rows[n], now, maxPerSec, active, inbound);
      ProcessesAppend(
        ProcessesStored(procIn, procOut, rows[..n], now, maxPerSec, active),
        RowStored(Played(procIn, InPoll(rows[..n], now)), Played(procOut, OutPoll(rows[..n], now)),
                  rows[n], now, maxPerSec, active),
        inbound);
    }
  }

  // ---------------------------------------------------------------------------------
  // Keys.

  /** Different processes never share an anchor, whatever colons their names contain. */
  lemma RowKeysDiffer(a: NettopRow, b: NettopRow)
    ensures RowKey(a) == RowKey(b) <==> a.pid == b.pid && a.process == b.process
  {
    if RowKey(a) == RowKey(b) {
      assert ':' !in PidText(a.pid) && ':' !in PidText(b.pid);
      assert PidText(a.pid) + [':'] + a.process == PidText(b.pid) + [':'] + b.process;
      CutUnique(PidText(a.pid), a.process, PidText(b.pid), b.process, ':');
      PidTextsDiffer(a.pid, b.pid);
    }
  }

  lemma PidTextsDiffer(a: Option<nat>, b: Option<nat>)
    requires PidText(a) == PidText(b)
    ensures a == b
  {
    assert a.Some? ==> PidText(a)[0] in PidText(a) && IsDigit(PidText(a)[0]);
    assert b.Some? ==> PidText(b)[0] in PidText(b) && IsDigit(PidText(b)[0]);
    assert "None"[0] == 'N' && !IsDigit('N');
    if a.Some? && b.Some? {
      PrintInjective(a.value, b.value);
    }
  }

  ghost predicate EndIn(anchors: Anchors, last: char) {
    forall k :: k in anchors ==> k != "" && k[|k| - 1] == last
  }

  lemma {:induction false} PlayedEndIn(anchors: Anchors, poll: Poll, last: char)
    requires EndIn(anchors, last)
    requires forall u :: u in poll ==> u.key != "" && u.key[|u.key| - 1] == last
    ensures EndIn(Played(anchors, poll), last)
  {
    if poll != [] {
      PlayedEndIn(anchors, poll[..|poll| - 1], last);
    }
  }

  lemma PollKeys(rows: seq<NettopRow>, now: int, k: string)
    ensures k in Keys(InPoll(rows, now)) <==> exists r :: r in rows && RowKey(r) + ":in" == k
    ensures k in Keys(OutPoll(rows, now)) <==> exists r :: r in rows && RowKey(r) + ":out" == k
  {
    if r :| r in rows && RowKey(r) + ":in" == k {
      var i :| 0 <= i < |rows| && rows[i] == r;
      assert InPoll(rows, now)[i] in InPoll(rows, now);
    }
    if r :| r in rows && RowKey(r) + ":out" == k {
      var i :| 0 <= i < |rows| && rows[i] == r;
      assert OutPoll(rows, now)[i] in OutPoll(rows, now);
    }
  }

  lemma EvictedAgrees(anchors: Anchors, p: set<string>, q: set<string>, maxMisses: int)
    requires forall k :: k in anchors ==> (k in p <==> k in q)
    ensures Evicted(anchors, p, maxMisses) == Evicted(anchors, q, maxMisses)
  {
  }

  /** The other direction's keys in the present set make no difference to eviction. */
  lemma InEviction(anchors: Anchors, rows: seq<NettopRow>, now: int)
    requires EndIn(anchors, 'n')
    ensures Evicted(Played(anchors, InPoll(rows, now)), PresentKeys(rows), EVICTION_MISSES)
         == AfterPoll(anchors, InPoll(rows, now), EVICTION_MISSES)
    ensures EndIn(AfterPoll(anchors, InPoll(rows, now), EVICTION_MISSES), 'n')
  {
    var played := Played(anchors, InPoll(rows, now));
    PlayedEndIn(anchors, InPoll(rows, now), 'n');
    forall k | k in played
      ensures k in PresentKeys(rows) <==> k in Keys(InPoll(rows, now))
    {
      PollKeys(rows, now, k);
    }
    EvictedAgrees(played, PresentKeys(rows), Keys(InPoll(rows, now)), EVICTION_MISSES);
  }

  lemma OutEviction(anchors: Anchors, rows: seq<NettopRow>, now: int)
    requires EndIn(anchors, 't')
    ensures Evicted(Played(anchors, OutPoll(rows, now)), PresentKeys(rows), EVICTION_MISSES)
         == AfterPoll(anchors, OutPoll(rows, now), EVICTION_MISSES)
    ensures EndIn(AfterPoll(anchors, OutPoll(rows, now), EVICTION_MISSES), 't')
  {
    var played := Played(anchors, OutPoll(rows, now));
    PlayedEndIn(anchors, OutPoll(rows, now), 't');
    forall k | k in played
      ensures k in PresentKeys(rows) <==> k in Keys(OutPoll(rows, now))
    {
      PollKeys(rows, now, k);
    }
    EvictedAgrees(played, PresentKeys(rows), Keys(OutPoll(rows, now)), EVICTION_MISSES);
  }

  // ---------------------------------------------------------------------------------
  // The life of one process, as the polls that fired in it.

  /** The process polls that fire along a run, as the inbound and outbound trackers see them. */
  ghost function FiredPolls(cfg: Config, w: World, clock: int, events: seq<Event>, inbound: bool): seq<Poll>
    requires ValidRun(cfg, w, clock, events)
    decreases |events|
  {
    if events == [] then []
    else
      var e := events[0];
      var rest := FiredPolls(cfg, Step(cfg, w, e), e.now, events[1..], inbound);
      if Fires(cfg, w, e) then [if inbound then InPoll(e.rows, e.now) else OutPoll(e.rows, e.now)] + rest
      else rest
  }

  lemma FiredFirst(cfg: Config, w: World, clock: int, events: seq<Event>, past: seq<Poll>, inbound: bool)
    requires ValidRun(cfg, w, clock, events) && events != []
    ensures var e := events[0];
            var more := if !Fires(cfg, w, e) then []
                        else if inbound then [InPoll(e.rows, e.now)] else [OutPoll(e.rows, e.now)];
            past + FiredPolls(cfg, w, clock, events, inbound)
            == past + more + FiredPolls(cfg, Step(cfg, w, e), e.now, events[1..], inbound)
  {
    var rest := FiredPolls(cfg, Step(cfg, w, events[0]), events[0].now, events[1..], inbound);
    assert past + [] == past;
    if Fires(cfg, w, events[0]) {
      var p := if inbound then InPoll(events[0].rows, events[0].now) else OutPoll(events[0].rows, events[0].now);
      assert past + ([p] + rest) == past + [p] + rest;
    }
  }

  ghost predicate SameProcess(events: seq<Event>) {
    forall e :: e in events ==> !e.Start? && !e.Shutdown? && !e.Crash?
  }

  lemma AfterOneMore(polls: seq<Poll>, p: Poll)
    ensures AfterPolls(polls + [p], EVICTION_MISSES)
         == AfterPoll(AfterPolls(polls, EVICTION_MISSES), p, EVICTION_MISSES)
  {
    assert (polls + [p])[..|polls|] == polls;
  }

  /** The two process trackers hold what these polls leave behind. */
  ghost predicate Tracks(m: Memory, pastIn: seq<Poll>, pastOut: seq<Poll>) {
    && m.procIn == AfterPolls(pastIn, EVICTION_MISSES) && EndIn(m.procIn, 'n')
    && m.procOut == AfterPolls(pastOut, EVICTION_MISSES) && EndIn(m.procOut, 't')
  }

  lemma FiredPollTracks(m: Memory, after: Memory, rows: seq<NettopRow>, now: int, pastIn: seq<Poll>, pastOut: seq<Poll>)
    requires Tracks(m, pastIn, pastOut)
    requires after.procIn == Evicted(Played(m.procIn, InPoll(rows, now)), PresentKeys(rows), EVICTION_MISSES)
    requires after.procOut == Evicted(Played(m.procOut, OutPoll(rows, now)), PresentKeys(rows), EVICTION_MISSES)
    ensures Tracks(after, pastIn + [InPoll(rows, now)], pastOut + [OutPoll(rows, now)])
  {
    InEviction(m.procIn, rows, now);
    OutEviction(m.procOut, rows, now);
    AfterOneMore(pastIn, InPoll(rows, now));
    AfterOneMore(pastOut, OutPoll(rows, now));
  }

  predicate Fires(cfg: Config, w: World, e: Event)
    requires Enabled(w, e)
  {
    e.ProcessPoll? && e.now - w.mem.value.lastProc >= cfg.procPoll
  }

  lemma LifeStep(cfg: Config, w: World, e: Event, pastIn: seq<Poll>, pastOut: seq<Poll>)
    requires Enabled(w, e) && w.mem.Some? && Tracks(w.mem.value, pastIn, pastOut)
    requires !e.Shutdown? && !e.Crash?
    ensures var next := Step(cfg, w, e);
            && next.mem.Some?
            && (Fires(cfg, w, e) ==>
                  Tracks(next.mem.value, pastIn + [InPoll(e.rows, e.now)], pastOut + [OutPoll(e.rows, e.now)]))
            && (!Fires(cfg, w, e) ==> Tracks(next.mem.value, pastIn, pastOut))
  {
    if Fires(cfg, w, e) {
      FiredPollTracks(w.mem.value, Step(cfg, w, e).mem.value, e.rows, e.now, pastIn, pastOut);
    } else {
      var m, after := w.mem.value, Step(cfg, w, e).mem.value;
      assert after.procIn == m.procIn && after.procOut == m.procOut;
    }
  }

  /** While a process runs its trackers are the history of its fired polls, whatever else happens between them. */
  lemma {:induction false} LifeIsHistory(
    cfg: Config, w: World, clock: int, events: seq<Event>, pastIn: seq<Poll>, pastOut: seq<Poll>)
    requires ValidRun(cfg, w, clock, events) && SameProcess(events)
    requires w.mem.Some? && Tracks(w.mem.value, pastIn, pastOut)
    ensures var after := Run(cfg, w, clock, events);
            && after.mem.Some?
            && Tracks(after.mem.value, pastIn + FiredPolls(cfg, w, clock, events, true),
                      pastOut + FiredPolls(cfg, w, clock, events, false))
    decreases |events|
  {
    if events == [] {
      assert pastIn + [] == pastIn && pastOut + [] == pastOut;
    } else {
      var e, rest := events[0], events[1..];
      assert e in events && SameProcess(rest);
      var next := Step(cfg, w, e);
      var moreIn := if Fires(cfg, w, e) then [InPoll(e.rows, e.now)] else [];
      var moreOut := if Fires(cfg, w, e) then [OutPoll(e.rows, e.now)] else [];
      assert next.mem.Some? && Tracks(next.mem.value, pastIn + moreIn, pastOut + moreOut) by {
        LifeStep(cfg, w, e, pastIn, pastOut);
        assert pastIn + [] == pastIn && pastOut + [] == pastOut;
      }
      LifeIsHistory(cfg, next, e.now, rest, pastIn + moreIn, pastOut + moreOut);
      FiredFirst(cfg, w, clock, events, pastIn, true);
      FiredFirst(cfg, w, clock, events, pastOut, false);
    }
  }

  /**
   * From its start, through any steps of the same process, the collector tracks a key
   * exactly when one of its last three fired process polls listed it, and never more keys
   * than those polls listed.
   */
  lemma LifeTracksRecent(cfg: Config, db: Tables, start: int, events: seq<Event>)
    requires ValidRun(cfg, Started(db, start), start, events) && SameProcess(events)
    ensures var after := Run(cfg, Started(db, start), start, events);
            && after.mem.Some?
            && after.mem.value.procIn.Keys
               == RecentKeys(FiredPolls(cfg, Started(db, start), start, events, true), 3)
            && after.mem.value.procOut.Keys
               == RecentKeys(FiredPolls(cfg, Started(db, start), start, events, false), 3)
  {
    var w := Started(db, start);
    LifeIsHistory(cfg, w, start, events, [], []);
    assert [] + FiredPolls(cfg, w, start, events, true) == FiredPolls(cfg, w, start, events, true);
    assert [] + FiredPolls(cfg, w, start, events, false) == FiredPolls(cfg, w, start, events, false);
    TrackedKeys(FiredPolls(cfg, w, start, events, true), EVICTION_MISSES);
    TrackedKeys(FiredPolls(cfg, w, start, events, false), EVICTION_MISSES);
  }

  // ---------------------------------------------------------------------------------
  // The interface ledger over the life of one process.

  predicate InterfaceFires(cfg: Config, w: World, e: Event)
    requires Enabled(w, e)
  {
    e.InterfacePoll? && e.now - w.mem.value.lastIface >= cfg.ifacePoll
  }

  function FiredTick(cfg: Config, w: World, e: Event): seq<Tick>
    requires Enabled(w, e)
  {
    if InterfaceFires(cfg, w, e) then [Tick(e.rows, e.now, w.mem.value.active)] else []
  }

  function InsertedBy(cfg: Config, w: World, e: Event): seq<InterfaceSample>
    requires Enabled(w, e)
  {
    if e.InterfacePoll? then Step(cfg, w, e).db.iface[|w.db.iface|..] else []
  }

  /** The interface ticks that fire along a run, each with the session active at its time. */
  ghost function FiredTicks(cfg: Config, w: World, clock: int, events: seq<Event>): seq<Tick>
    requires ValidRun(cfg, w, clock, events)
    decreases |events|
  {
    if events == [] then []
    else
      var e := events[0];
      FiredTick(cfg, w, e) + FiredTicks(cfg, Step(cfg, w, e), e.now, events[1..])
  }

  /** The interface samples a run inserts, deleted later or not. */
  ghost function Inserted(cfg: Config, w: World, clock: int, events: seq<Event>): seq<InterfaceSample>
    requires ValidRun(cfg, w, clock, events)
    decreases |events|
  {
    if events == [] then []
    else
      var e := events[0];
      InsertedBy(cfg, w, e) + Inserted(cfg, Step(cfg, w, e), e.now, events[1..])
  }

  lemma OneMoreTick(past: seq<Tick>, t: Tick, maxPerSec: int)
    ensures StoredBy(past + [t], maxPerSec)
         == StoredBy(past, maxPerSec)
            + InterfaceStored(Played(map[], UpdatesOf(past)), t.rows, t.now, maxPerSec, t.active)
    ensures UpdatesOf(past + [t]) == UpdatesOf(past) + InterfacePollOf(t.rows, t.now)
  {
    assert (past + [t])[..|past|] == past;
  }

  lemma {:induction false} PlayedTwice(anchors: Anchors, a: seq<Update>, b: seq<Update>)
    ensures Played(anchors, a + b) == Played(Played(anchors, a), b)
  {
    if b == [] {
      assert a + b == a;
    } else {
      assert (a + b)[..|a| + |b| - 1] == a + b[..|b| - 1];
      PlayedTwice(anchors, a, b[..|b| - 1]);
    }
  }

  lemma StepOfTick(cfg: Config, w: World, e: Event)
    requires Enabled(w, e) && w.mem.Some? && !e.Shutdown? && !e.Crash?
    ensures var after := Step(cfg, w, e);
            var m := w.mem.value;
            && after.mem.Some?
            && (InterfaceFires(cfg, w, e) ==>
                  && after.mem.value.ifaceAnchors == Played(m.ifaceAnchors, InterfacePollOf(e.rows, e.now))
                  && InsertedBy(cfg, w, e) == InterfaceStored(m.ifaceAnchors, e.rows, e.now, cfg.maxPerSec, m.active))
            && (!InterfaceFires(cfg, w, e) ==>
                  after.mem.value.ifaceAnchors == m.ifaceAnchors && InsertedBy(cfg, w, e) == [])
  {
  }

  lemma LifeTick(cfg: Config, w: World, e: Event, past: seq<Tick>)
    requires Enabled(w, e) && w.mem.Some? && !e.Shutdown? && !e.Crash?
    requires w.mem.value.ifaceAnchors == Played(map[], UpdatesOf(past))
    ensures Step(cfg, w, e).mem.Some?
    ensures Step(cfg, w, e).mem.value.ifaceAnchors == Played(map[], UpdatesOf(past + FiredTick(cfg, w, e)))
    ensures StoredBy(past + FiredTick(cfg, w, e), cfg.maxPerSec)
         == StoredBy(past, cfg.maxPerSec) + InsertedBy(cfg, w, e)
  {
    StepOfTick(cfg, w, e);
    if InterfaceFires(cfg, w, e) {
      var t := Tick(e.rows, e.now, w.mem.value.active);
      OneMoreTick(past, t, cfg.maxPerSec);
      PlayedTwice(map[], UpdatesOf(past), InterfacePollOf(e.rows, e.now));
    } else {
      assert past + [] == past;
      assert StoredBy(past, cfg.maxPerSec) + [] == StoredBy(past, cfg.maxPerSec);
    }
  }

  /** What a life inserts is what its fired ticks store. */
  lemma {:induction false} LifeInserts(cfg: Config, w: World, clock: int, events: seq<Event>, past: seq<Tick>)
    requires ValidRun(cfg, w, clock, events) && SameProcess(events) && w.mem.Some?
    requires w.mem.value.ifaceAnchors == Played(map[], UpdatesOf(past))
    ensures StoredBy(past + FiredTicks(cfg, w, clock, events), cfg.maxPerSec)
         == StoredBy(past, cfg.maxPerSec) + Inserted(cfg, w, clock, events)
    decreases |events|
  {
    if events == [] {
      assert past + [] == past;
    } else {
      var e, rest := events[0], events[1..];
      assert e in events && SameProcess(rest);
      var next := Step(cfg, w, e);
      var fired, inserted := FiredTick(cfg, w, e), InsertedBy(cfg, w, e);
      LifeTick(cfg, w, e, past);
      LifeInserts(cfg, next, e.now, rest, past + fired);
      Associate(past, fired, FiredTicks(cfg, next, e.now, rest));
      Associate(StoredBy(past, cfg.maxPerSec), inserted, Inserted(cfg, next, e.now, rest));
    }
  }

  /**
   * The ledger over the life of a process: for each direction, the bytes it inserts, plus
   * those it drops, plus jumps, minus losses, is how far the polled counter moved.
   */
  lemma LifeLedger(cfg: Config, db: Tables, start: int, events: seq<Event>, inbound: bool)
    requires ValidRun(cfg, Started(db, start), start, events) && SameProcess(events)
    requires KeyOf(inbound) in Played(map[], UpdatesOf(FiredTicks(cfg, Started(db, start), start, events)))
    ensures var ticks := FiredTicks(cfg, Started(db, start), start, events);
            var t := Tally(map[], UpdatesOf(ticks), KeyOf(inbound), cfg.maxPerSec);
            var d := DroppedBy(ticks, inbound, cfg.maxPerSec);
            SumStored(Inserted(cfg, Started(db, start), start, events), inbound)
            + d.otherDirection + d.noSession + t.jumped - t.lost
            == Played(map[], UpdatesOf(ticks))[KeyOf(inbound)].value - Baseline(map[], UpdatesOf(ticks), KeyOf(inbound))
  {
    var w := Started(db, start);
    var ticks, inserted := FiredTicks(cfg, w, start, events), Inserted(cfg, w, start, events);
    assert inserted == StoredBy(ticks, cfg.maxPerSec) by {
      LifeInserts(cfg, w, start, events, []);
      assert [] + ticks == ticks;
      assert StoredBy([], cfg.maxPerSec) + inserted == inserted;
    }
    InterfaceLedger(ticks, inbound, cfg.maxPerSec);
  }
}
