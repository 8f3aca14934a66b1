/**
 * The ledger of one process over the life of the collector, evictions included: where every
 * byte its counters moved by went.
 */
module ProcessLedger {
  import opened Basics
  import opened Delta
  import opened Database
  import opened Nettop
  import opened Collector
  import opened Integrity
  import opened Ledgers

  /** A process as the collector tells them apart. */
  datatype Who = Who(process: string, pid: Option<nat>)

  predicate IsOf(r: NettopRow, who: Who) {
    r.process == who.process && r.pid == who.pid
  }

  function Suffix(inbound: bool): string {
    if inbound then ":in" else ":out"
  }

  /** The key of a process in the tracker of one direction. */
  function WhoKey(who: Who, inbound: bool): string {
    RowKey(NettopRow(who.process, who.pid, 0, 0)) + Suffix(inbound)
  }

  lemma KeyIsOf(r: NettopRow, who: Who, inbound: bool)
    ensures RowKey(r) + Suffix(inbound) == WhoKey(who, inbound) <==> IsOf(r, who)
  {
    var other := NettopRow(who.process, who.pid, 0, 0);
    RowKeysDiffer(r, other);
    var a, b := RowKey(r) + Suffix(inbound), RowKey(other) + Suffix(inbound);
    if a == b {
      assert a[..|a| - |Suffix(inbound)|] == RowKey(r) && b[..|b| - |Suffix(inbound)|] == RowKey(other);
    }
  }

  // ---------------------------------------------------------------------------------
  // The history of polls: counted, jumped and lost bytes, and those nobody watched.

  function Both(a: Ledger, b: Ledger): Ledger {
    Ledger(a.counted + b.counted, a.jumped + b.jumped, a.lost + b.lost)
  }

  /** What the tracker counts, skips and loses for a key along polls and their eviction rounds. */
  function LifeTally(polls: seq<Poll>, key: string, maxMisses: int, maxPerSec: int): Ledger {
    if polls == [] then Ledger(0, 0, 0)
    else
      var before, last := polls[..|polls| - 1], polls[|polls| - 1];
      Both(LifeTally(before, key, maxMisses, maxPerSec), Tally(AfterPolls(before, maxMisses), last, key, maxPerSec))
  }

  /** The first update of `key` in a poll that has one. */
  function FirstUpdate(poll: Poll, key: string): (u: Update)
    requires key in Keys(poll)
    ensures u in poll && u.key == key
  {
    var n := |poll| - 1;
    if key in Keys(poll[..n]) then FirstUpdate(poll[..n], key)
    else
      assert poll == poll[..n] + [poll[n]];
      poll[n]
  }

  /** The counter's value when it was first and last observed. */
  function FirstSeen(polls: seq<Poll>, key: string): Option<int> {
    if polls == [] then None
    else
      var before, last := polls[..|polls| - 1], polls[|polls| - 1];
      if FirstSeen(before, key).Some? then FirstSeen(before, key)
      else if key in Keys(last) then Some(FirstUpdate(last, key).value) else None
  }

  function LastSeen(polls: seq<Poll>, key: string): Option<int> {
    if polls == [] then None
    else
      var before, last := polls[..|polls| - 1], polls[|polls| - 1];
      if key in Keys(last) then Some(LastUpdate(last, key).value) else LastSeen(before, key)
  }

  /** The key comes back after an absence so long that it was forgotten. */
  predicate Forgotten(before: seq<Poll>, last: Poll, key: string, maxMisses: int) {
    key in Keys(last) && Age(before, key).Some? && Age(before, key).value >= maxMisses
  }

  /** How far the counter moved during the absences for which it was forgotten. */
  function Unwatched(polls: seq<Poll>, key: string, maxMisses: int): int {
    if polls == [] then 0
    else
      var before, last := polls[..|polls| - 1], polls[|polls| - 1];
      Unwatched(before, key, maxMisses)
      + if Forgotten(before, last, key, maxMisses) && LastSeen(before, key).Some?
        then FirstUpdate(last, key).value - LastSeen(before, key).value else 0
  }

  lemma {:induction false} LastSeenIsAge(polls: seq<Poll>, key: string)
    ensures Age(polls, key).None? <==> LastSeen(polls, key).None?
    ensures Age(polls, key).None? <==> FirstSeen(polls, key).None?
    ensures Age(polls, key).Some? ==>
              LastSeen(polls, key) == Some(LastUpdate(polls[|polls| - 1 - Age(polls, key).value], key).value)
  {
    if polls != [] {
      LastSeenIsAge(polls[..|polls| - 1], key);
    }
  }

  /** A tracked key's anchor is where it was last seen. */
  lemma AnchorIsLastSeen(polls: seq<Poll>, key: string, maxMisses: int)
    requires maxMisses >= 1
    ensures key in AfterPolls(polls, maxMisses) <==> Age(polls, key).Some? && Age(polls, key).value < maxMisses
    ensures key in AfterPolls(polls, maxMisses) ==>
              LastSeen(polls, key) == Some(AfterPolls(polls, maxMisses)[key].value)
  {
    TrackerIsHistory(polls, key, maxMisses);
    LastSeenIsAge(polls, key);
  }

  lemma {:induction false} BaselineIsFirst(anchors: Anchors, poll: Poll, key: string)
    requires key in Keys(poll) && key !in anchors
    ensures key in Played(anchors, poll)
    ensures Baseline(anchors, poll, key) == FirstUpdate(poll, key).value
  {
    var n := |poll| - 1;
    assert poll == poll[..n] + [poll[n]];
    assert Keys(poll) == Keys(poll[..n]) + {poll[n].key};
    PlayedLookup(anchors, poll[..n], key);
    if key in Keys(poll[..n]) {
      BaselineIsFirst(anchors, poll[..n], key);
    }
  }

  /** One poll that lists the key. */
  lemma PollBalances(anchors: Anchors, poll: Poll, key: string, maxPerSec: int)
    requires key in Keys(poll)
    ensures var t := Tally(anchors, poll, key, maxPerSec);
            t.counted + t.jumped - t.lost
            == LastUpdate(poll, key).value - if key in anchors then anchors[key].value else FirstUpdate(poll, key).value
  {
    PlayedLookup(anchors, poll, key);
    LedgerBalances(anchors, poll, key, maxPerSec);
    if key !in anchors {
      BaselineIsFirst(anchors, poll, key);
    }
  }

  lemma {:induction false} UnlistedHasNoTally(anchors: Anchors, poll: Poll, key: string, maxPerSec: int)
    requires key !in Keys(poll)
    ensures Tally(anchors, poll, key, maxPerSec) == Ledger(0, 0, 0)
  {
    if poll != [] {
      var n := |poll| - 1;
      assert poll == poll[..n] + [poll[n]];
      UnlistedHasNoTally(anchors, poll[..n], key, maxPerSec);
    }
  }

  lemma OneMoreBalances(before: seq<Poll>, last: Poll, key: string, maxMisses: int, maxPerSec: int)
    requires maxMisses >= 1 && key in Keys(last)
    ensures var t := Tally(AfterPolls(before, maxMisses), last, key, maxPerSec);
            var moved := LastUpdate(last, key).value - FirstUpdate(last, key).value;
            && (LastSeen(before, key).None? ==> t.counted + t.jumped - t.lost == moved)
            && (LastSeen(before, key).Some? ==>
                  t.counted + t.jumped - t.lost
                  + (if Forgotten(before, last, key, maxMisses)
                     then FirstUpdate(last, key).value - LastSeen(before, key).value else 0)
                  == LastUpdate(last, key).value - LastSeen(before, key).value)
  {
    AnchorIsLastSeen(before, key, maxMisses);
    LastSeenIsAge(before, key);
    PollBalances(AfterPolls(before, maxMisses), last, key, maxPerSec);
  }

  /**
   * Conservation over any history of polls: counted bytes, jumps and the movement that went
   * unwatched, less losses, are how far the counter moved from its first observation to its last.
   */
  lemma {:induction false} HistoryBalances(polls: seq<Poll>, key: string, maxMisses: int, maxPerSec: int)
    requires maxMisses >= 1
    ensures var t := LifeTally(polls, key, maxMisses, maxPerSec);
            t.counted + t.jumped - t.lost + Unwatched(polls, key, maxMisses)
            == if LastSeen(polls, key).Some? && FirstSeen(polls, key).Some?
               then LastSeen(polls, key).value - FirstSeen(polls, key).value else 0
    ensures LastSeen(polls, key).Some? <==> FirstSeen(polls, key).Some?
  {
    LastSeenIsAge(polls, key);
    if polls != [] {
      var before, last := polls[..|polls| - 1], polls[|polls| - 1];
      HistoryBalances(before, key, maxMisses, maxPerSec);
      if key in Keys(last) {
        OneMoreBalances(before, last, key, maxMisses, maxPerSec);
      } else {
        UnlistedHasNoTally(AfterPolls(before, maxMisses), last, key, maxPerSec);
      }
    }
  }

  // ---------------------------------------------------------------------------------
  // One process tick: counted bytes are stored or dropped.

  function PollOf(rows: seq<NettopRow>, now: int, inbound: bool): Poll {
    if inbound then InPoll(rows, now) else OutPoll(rows, now)
  }

  function SumOfWho(samples: seq<ProcessSample>, who: Who, inbound: bool): int {
    if samples == [] then 0
    else
      var last := samples[|samples| - 1];
      SumOfWho(samples[..|samples| - 1], who, inbound)
      + if last.process == who.process && last.pid == who.pid
        then (if inbound then last.bytesIn else last.bytesOut) else 0
  }

  /** Bytes that one process's rows of a tick report, and those of them the tick does not store. */
  function WhoTotals(
    procIn: Anchors, procOut: Anchors, rows: seq<NettopRow>, now: int, maxPerSec: int, active: Option<int>,
    who: Who, inbound: bool): RowTotals
  {
    if rows == [] then RowTotals(0, 0)
    else
      var before, r := rows[..|rows| - 1], rows[|rows| - 1];
      var t := WhoTotals(procIn, procOut, before, now, maxPerSec, active, who, inbound);
      if IsOf(r, who) then
        var own := RowTotal(procIn, procOut, before, r, now, maxPerSec, active, inbound);
        RowTotals(t.counted + own.counted, t.dropped + own.dropped)
      else t
  }

  lemma SumOfWhoAppend(samples: seq<ProcessSample>, more: seq<ProcessSample>, who: Who, inbound: bool)
    requires |more| <= 1
    ensures SumOfWho(samples + more, who, inbound)
         == SumOfWho(samples, who, inbound)
            + if more != [] && more[0].process == who.process && more[0].pid == who.pid
              then SampleOf(more, inbound) else 0
  {
    if more == [] {
      assert samples + more == samples;
    } else {
      assert (samples + more)[..|samples|] == samples;
    }
  }

  /** What one row adds to the stored bytes of a process. */
  lemma RowStoresOf(
    procIn: Anchors, procOut: Anchors, before: seq<NettopRow>, r: NettopRow, now: int, maxPerSec: int,
    active: Option<int>, samples: seq<ProcessSample>, who: Who, inbound: bool)
    ensures var a, b := Played(procIn, InPoll(before, now)), Played(procOut, OutPoll(before, now));
            var own := RowTotal(procIn, procOut, before, r, now, maxPerSec, active, inbound);
            && SumOfWho(samples + RowStored(a, b, r, now, maxPerSec, active), who, inbound)
               == SumOfWho(samples, who, inbound) + (if IsOf(r, who) then own.counted - own.dropped else 0)
            && 0 <= own.dropped <= own.counted
  {
    var a, b := Played(procIn, InPoll(before, now)), Played(procOut, OutPoll(before, now));
    var stored := RowStored(a, b, r, now, maxPerSec, active);
    RowStoresOrDrops(procIn, procOut, before, r, now, maxPerSec, active, inbound);
    SumOfWhoAppend(samples, stored, who, inbound);
    StoredIsOfRow(a, b, r, now, maxPerSec, active);
  }

  lemma StoredIsOfRow(procIn: Anchors, procOut: Anchors, r: NettopRow, now: int, maxPerSec: int, active: Option<int>)
    ensures forall s :: s in RowStored(procIn, procOut, r, now, maxPerSec, active) ==>
              s.process == r.process && s.pid == r.pid
  {
  }

  lemma {:induction false} WhoStoresOrDrops(
    procIn: Anchors, procOut: Anchors, rows: seq<NettopRow>, now: int, maxPerSec: int, active: Option<int>,
    who: Who, inbound: bool)
    ensures var t := WhoTotals(procIn, procOut, rows, now, maxPerSec, active, who, inbound);
            && SumOfWho(ProcessesStored(procIn, procOut, rows, now, maxPerSec, active), who, inbound)
               == t.counted - t.dropped
            && 0 <= t.dropped <= t.counted
  {
    if rows != [] {
      var before, r := rows[..|rows| - 1], rows[|rows| - 1];
      WhoStoresOrDrops(procIn, procOut, before, now, maxPerSec, active, who, inbound);
      RowStoresOf(procIn, procOut, before, r, now, maxPerSec, active,
                  ProcessesStored(procIn, procOut, before, now, maxPerSec, active), who, inbound);
    }
  }

  lemma TallyGrows(anchors: Anchors, poll: Poll, u: Update, key: string, maxPerSec: int)
    ensures var own := Reported(Judge(Lookup(Played(anchors, poll), u.key), u.value, u.now, maxPerSec));
            Tally(anchors, poll + [u], key, maxPerSec).counted
            == Tally(anchors, poll, key, maxPerSec).counted + if u.key == key && own.Some? then own.value else 0
  {
    assert (poll + [u])[..|poll|] == poll;
  }

  function UpdateOf(r: NettopRow, now: int, inbound: bool): Update {
    Update(RowKey(r) + Suffix(inbound), if inbound then r.bytesIn else r.bytesOut, now)
  }

  lemma PollOfGrows(before: seq<NettopRow>, r: NettopRow, now: int, inbound: bool)
    ensures PollOf(before + [r], now, inbound) == PollOf(before, now, inbound) + [UpdateOf(r, now, inbound)]
  {
    PollsGrow(before, r, now);
  }

  lemma RowCounts(
    procIn: Anchors, procOut: Anchors, before: seq<NettopRow>, r: NettopRow, now: int, maxPerSec: int,
    active: Option<int>, inbound: bool)
    ensures var u := UpdateOf(r, now, inbound);
            var anchors := Played(if inbound then procIn else procOut, PollOf(before, now, inbound));
            var own := Reported(Judge(Lookup(anchors, u.key), u.value, u.now, maxPerSec));
            RowTotal(procIn, procOut, before, r, now, maxPerSec, active, inbound).counted
            == if own.Some? then own.value else 0
  {
  }

  /** What one row adds to what the tracker's ledger counts for a process's key. */
  lemma TallyOfRow(
    procIn: Anchors, procOut: Anchors, before: seq<NettopRow>, r: NettopRow, now: int, maxPerSec: int,
    active: Option<int>, who: Who, inbound: bool)
    ensures var anchors, key := if inbound then procIn else procOut, WhoKey(who, inbound);
            Tally(anchors, PollOf(before + [r], now, inbound), key, maxPerSec).counted
            == Tally(anchors, PollOf(before, now, inbound), key, maxPerSec).counted
               + if IsOf(r, who)
                 then RowTotal(procIn, procOut, before, r, now, maxPerSec, active, inbound).counted else 0
  {
    var anchors, u := if inbound then procIn else procOut, UpdateOf(r, now, inbound);
    PollOfGrows(before, r, now, inbound);
    TallyGrows(anchors, PollOf(before, now, inbound), u, WhoKey(who, inbound), maxPerSec);
    KeyIsOf(r, who, inbound);
    RowCounts(procIn, procOut, before, r, now, maxPerSec, active, inbound);
  }

  /** What a tick counts for a process is what the tracker's ledger counts for its key. */
  lemma {:induction false} WhoCounts(
    procIn: Anchors, procOut: Anchors, rows: seq<NettopRow>, now: int, maxPerSec: int, active: Option<int>,
    who: Who, inbound: bool)
    ensures WhoTotals(procIn, procOut, rows, now, maxPerSec, active, who, inbound).counted
         == Tally(if inbound then procIn else procOut, PollOf(rows, now, inbound),
                  WhoKey(who, inbound), maxPerSec).counted
  {
    if rows != [] {
      var before, r := rows[..|rows| - 1], rows[|rows| - 1];
      assert rows == before + [r];
      WhoCounts(procIn, procOut, before, now, maxPerSec, active, who, inbound);
      TallyOfRow(procIn, procOut, before, r, now, maxPerSec, active, who, inbound);
    }
  }

  // ---------------------------------------------------------------------------------
  // The ticks of a life.

  /** The polls one direction's tracker sees. */
  function PollsOf(ticks: seq<Tick>, inbound: bool): seq<Poll> {
    if ticks == [] then []
    else
      var last := ticks[|ticks| - 1];
      PollsOf(ticks[..|ticks| - 1], inbound) + [PollOf(last.rows, last.now, inbound)]
  }

  function AnchorsAfter(ticks: seq<Tick>, inbound: bool): Anchors {
    AfterPolls(PollsOf(ticks, inbound), EVICTION_MISSES)
  }

  /** The process samples a sequence of ticks stores. */
  function StoredByAll(ticks: seq<Tick>, maxPerSec: int): seq<ProcessSample> {
    if ticks == [] then []
    else
      var before, last := ticks[..|ticks| - 1], ticks[|ticks| - 1];
      StoredByAll(before, maxPerSec)
      + ProcessesStored(AnchorsAfter(before, true), AnchorsAfter(before, false),
                        last.rows, last.now, maxPerSec, last.active)
  }

  /** Counted bytes of a process that its ticks did not store. */
  function DroppedOf(ticks: seq<Tick>, who: Who, inbound: bool, maxPerSec: int): int {
    if ticks == [] then 0
    else
      var before, last := ticks[..|ticks| - 1], ticks[|ticks| - 1];
      DroppedOf(before, who, inbound, maxPerSec)
      + WhoTotals(AnchorsAfter(before, true), AnchorsAfter(before, false), last.rows, last.now, maxPerSec,
                  last.active, who, inbound).dropped
  }

  lemma {:induction false} SumOfWhoJoins(a: seq<ProcessSample>, b: seq<ProcessSample>, who: Who, inbound: bool)
    ensures SumOfWho(a + b, who, inbound) == SumOfWho(a, who, inbound) + SumOfWho(b, who, inbound)
  {
    if b == [] {
      assert a + b == a;
    } else {
      var n := |b| - 1;
      assert (a + b)[..|a| + n] == a + b[..n];
      SumOfWhoJoins(a, b[..n], who, inbound);
    }
  }

  lemma {:induction false} TicksStoreOrDrop(ticks: seq<Tick>, who: Who, inbound: bool, maxPerSec: int)
    ensures var t := LifeTally(PollsOf(ticks, inbound), WhoKey(who, inbound), EVICTION_MISSES, maxPerSec);
            && SumOfWho(StoredByAll(ticks, maxPerSec), who, inbound) + DroppedOf(ticks, who, inbound, maxPerSec)
               == t.counted
            && DroppedOf(ticks, who, inbound, maxPerSec) >= 0
  {
    if ticks != [] {
      var before, last := ticks[..|ticks| - 1], ticks[|ticks| - 1];
      var a, b := AnchorsAfter(before, true), AnchorsAfter(before, false);
      TicksStoreOrDrop(before, who, inbound, maxPerSec);
      WhoStoresOrDrops(a, b, last.rows, last.now, maxPerSec, last.active, who, inbound);
      WhoCounts(a, b, last.rows, last.now, maxPerSec, last.active, who, inbound);
      SumOfWhoJoins(StoredByAll(before, maxPerSec),
                    ProcessesStored(a, b, last.rows, last.now, maxPerSec, last.active), who, inbound);
      var polls := PollsOf(ticks, inbound);
      assert polls[..|polls| - 1] == PollsOf(before, inbound);
    }
  }

  // ---------------------------------------------------------------------------------
  // The life of a process of the collector.

  function FiredProcessTick(cfg: Config, w: World, e: Event): seq<Tick>
    requires Enabled(w, e)
  {
    if Fires(cfg, w, e) then [Tick(e.rows, e.now, w.mem.value.active)] else []
  }

  /** The process ticks that fire along a run, each with the session active at its time. */
  ghost function FiredProcessTicks(cfg: Config, w: World, clock: int, events: seq<Event>): seq<Tick>
    requires ValidRun(cfg, w, clock, events)
    decreases |events|
  {
    if events == [] then []
    else
      var e := events[0];
      FiredProcessTick(cfg, w, e) + FiredProcessTicks(cfg, Step(cfg, w, e), e.now, events[1..])
  }

  function ProcessesInsertedBy(cfg: Config, w: World, e: Event): seq<ProcessSample>
    requires Enabled(w, e)
  {
    if e.ProcessPoll? then Step(cfg, w, e).db.procs[|w.db.procs|..] else []
  }

  /** The process samples a run inserts, deleted later or not. */
  ghost function ProcessesInserted(cfg: Config, w: World, clock: int, events: seq<Event>): seq<ProcessSample>
    requires ValidRun(cfg, w, clock, events)
    decreases |events|
  {
    if events == [] then []
    else
      var e := events[0];
      ProcessesInsertedBy(cfg, w, e) + ProcessesInserted(cfg, Step(cfg, w, e), e.now, events[1..])
  }

  /** The collector's process trackers hold what these ticks leave behind. */
  ghost predicate TracksTicks(m: Memory, past: seq<Tick>) {
    Tracks(m, PollsOf(past, true), PollsOf(past, false))
  }

  lemma OneMoreProcessTick(past: seq<Tick>, t: Tick, maxPerSec: int)
    ensures PollsOf(past + [t], true) == PollsOf(past, true) + [InPoll(t.rows, t.now)]
    ensures PollsOf(past + [t], false) == PollsOf(past, false) + [OutPoll(t.rows, t.now)]
    ensures StoredByAll(past + [t], maxPerSec)
         == StoredByAll(past, maxPerSec)
            + ProcessesStored(AnchorsAfter(past, true), AnchorsAfter(past, false), t.rows, t.now, maxPerSec, t.active)
  {
    assert (past + [t])[..|past|] == past;
  }

  lemma ProcessesOfStep(cfg: Config, w: World, e: Event)
    requires Enabled(w, e) && w.mem.Some?
    ensures var m := w.mem.value;
            ProcessesInsertedBy(cfg, w, e)
            == if Fires(cfg, w, e)
               then ProcessesStored(m.procIn, m.procOut, e.rows, e.now, cfg.maxPerSec, m.active) else []
  {
  }

  lemma ProcessStep(cfg: Config, w: World, e: Event, past: seq<Tick>)
    requires Enabled(w, e) && w.mem.Some? && TracksTicks(w.mem.value, past)
    requires !e.Shutdown? && !e.Crash?
    ensures var next := Step(cfg, w, e);
            next.mem.Some? && TracksTicks(next.mem.value, past + FiredProcessTick(cfg, w, e))
    ensures StoredByAll(past + FiredProcessTick(cfg, w, e), cfg.maxPerSec)
         == StoredByAll(past, cfg.maxPerSec) + ProcessesInsertedBy(cfg, w, e)
  {
    LifeStep(cfg, w, e, PollsOf(past, true), PollsOf(past, false));
    ProcessesOfStep(cfg, w, e);
    if Fires(cfg, w, e) {
      OneMoreProcessTick(past, Tick(e.rows, e.now, w.mem.value.active), cfg.maxPerSec);
    } else {
      assert past + [] == past;
      assert StoredByAll(past, cfg.maxPerSec) + [] == StoredByAll(past, cfg.maxPerSec);
    }
  }

  /** What a life inserts is what its fired process ticks store. */
  lemma {:induction false} LifeInsertsProcesses(cfg: Config, w: World, clock: int, events: seq<Event>, past: seq<Tick>)
    requires ValidRun(cfg, w, clock, events) && SameProcess(events)
    requires w.mem.Some? && TracksTicks(w.mem.value, past)
    ensures StoredByAll(past + FiredProcessTicks(cfg, w, clock, events), cfg.maxPerSec)
         == StoredByAll(past, cfg.maxPerSec) + ProcessesInserted(cfg, w, clock, events)
    decreases |events|
  {
    if events == [] {
      assert past + [] == past;
      assert StoredByAll(past, cfg.maxPerSec) + [] == StoredByAll(past, cfg.maxPerSec);
    } else {
      var e, rest := events[0], events[1..];
      assert e in events && SameProcess(rest);
      var next := Step(cfg, w, e);
      ProcessStep(cfg, w, e, past);
      LifeInsertsProcesses(cfg, next, e.now, rest, past + FiredProcessTick(cfg, w, e));
      Associate(past, FiredProcessTick(cfg, w, e), FiredProcessTicks(cfg, next, e.now, rest));
      Associate(StoredByAll(past, cfg.maxPerSec), ProcessesInsertedBy(cfg, w, e),
                ProcessesInserted(cfg, next, e.now, rest));
    }
  }

  /**
   * The ledger of one process over the collector's life, in each direction and with evictions
   * and every other step in between: bytes inserted for it, bytes dropped, jumps, and movement
   * while it was forgotten, less losses, are how far its counter moved between its first and
   * its last observation. So no more is ever stored for it than its tracker counted.
   */
  lemma ProcessLifeLedger(cfg: Config, db: Tables, start: int, events: seq<Event>, who: Who, inbound: bool)
    requires ValidRun(cfg, Started(db, start), start, events) && SameProcess(events)
    ensures var ticks := FiredProcessTicks(cfg, Started(db, start), start, events);
            var polls, key := PollsOf(ticks, inbound), WhoKey(who, inbound);
            var t := LifeTally(polls, key, EVICTION_MISSES, cfg.maxPerSec);
            var stored := SumOfWho(ProcessesInserted(cfg, Started(db, start), start, events), who, inbound);
            && stored + DroppedOf(ticks, who, inbound, cfg.maxPerSec) == t.counted
            && stored <= t.counted
            && (LastSeen(polls, key).Some? <==> FirstSeen(polls, key).Some?)
            && t.counted + t.jumped - t.lost + Unwatched(polls, key, EVICTION_MISSES)
               == if LastSeen(polls, key).Some? && FirstSeen(polls, key).Some?
                  then LastSeen(polls, key).value - FirstSeen(polls, key).value else 0
  {
    var w := Started(db, start);
    var ticks := FiredProcessTicks(cfg, w, start, events);
    LifeInsertsProcesses(cfg, w, start, events, []);
    assert [] + ticks == ticks;
    assert [] + ProcessesInserted(cfg, w, start, events) == ProcessesInserted(cfg, w, start, events);
    TicksStoreOrDrop(ticks, who, inbound, cfg.maxPerSec);
    HistoryBalances(PollsOf(ticks, inbound), WhoKey(who, inbound), EVICTION_MISSES, cfg.maxPerSec);
  }
}
