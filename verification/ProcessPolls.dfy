/**
 * What process polls store and leave in the trackers, on the columns of their rows: each row
 * is judged against the last row of its process, in this poll or, failing that, before it.
 */
module ProcessPolls {
  import opened Basics
  import opened Delta
  import opened Database
  import opened Nettop
  import opened Collector
  import opened Integrity
  import opened Ledgers
  import opened ProcessLedger
  import opened Polls

  /** The rows of one process, in order. */
  function RowsOf(rows: seq<NettopRow>, who: Who): seq<NettopRow> {
    Keep(rows, (r: NettopRow) => r.process == who.process && r.pid == who.pid)
  }

  /** A row's counter of bytes received, or of bytes sent. */
  function Counter(r: NettopRow, inbound: bool): int {
    if inbound then r.bytesIn else r.bytesOut
  }

  // ---------------------------------------------------------------------------------
  // One poll.

  /** A poll lists a key iff a process has rows, and then from the first row's counter to the last row's. */
  predicate Lists(poll: Poll, own: seq<NettopRow>, now: int, key: string, inbound: bool) {
    && (key in Keys(poll) <==> own != [])
    && (key in Keys(poll) && own != [] ==>
          && FirstUpdate(poll, key) == Update(key, Counter(own[0], inbound), now)
          && LastUpdate(poll, key) == Update(key, Counter(own[|own| - 1], inbound), now))
  }

  lemma {:induction false} ListsRows(rows: seq<NettopRow>, now: int, who: Who, inbound: bool)
    ensures Lists(PollOf(rows, now, inbound), RowsOf(rows, who), now, WhoKey(who, inbound), inbound)
  {
    if rows == [] {
      assert PollOf(rows, now, inbound) == [];
    } else {
      var before, r := rows[..|rows| - 1], rows[|rows| - 1];
      ListsRows(before, now, who, inbound);
      PollOneMore(rows, now, who, inbound);
      RowsOneMore(rows, who);
      ListsOneMore(PollOf(before, now, inbound), RowsOf(before, who), UpdateOf(r, now, inbound), r, now,
                   WhoKey(who, inbound), inbound, PollOf(rows, now, inbound), RowsOf(rows, who));
    }
  }

  lemma PollOneMore(rows: seq<NettopRow>, now: int, who: Who, inbound: bool)
    requires rows != []
    ensures var before, r := PollOf(rows[..|rows| - 1], now, inbound), rows[|rows| - 1];
            var u := UpdateOf(r, now, inbound);
            && PollOf(rows, now, inbound) == before + [u]
            && (u.key == WhoKey(who, inbound) <==> IsOf(r, who))
            && u.value == Counter(r, inbound) && u.now == now
  {
    var n := |rows| - 1;
    assert rows == rows[..n] + [rows[n]];
    PollOfGrows(rows[..n], rows[n], now, inbound);
    KeyIsOf(rows[n], who, inbound);
  }

  lemma RowsOneMore(rows: seq<NettopRow>, who: Who)
    requires rows != []
    ensures var before, r := RowsOf(rows[..|rows| - 1], who), rows[|rows| - 1];
            RowsOf(rows, who) == if IsOf(r, who) then before + [r] else before
  {
  }

  lemma ListsOneMore(
    poll: Poll, own: seq<NettopRow>, u: Update, r: NettopRow, now: int, key: string, inbound: bool,
    pollAfter: Poll, ownAfter: seq<NettopRow>)
    requires Lists(poll, own, now, key, inbound)
    requires u.value == Counter(r, inbound) && u.now == now
    requires pollAfter == poll + [u] && ownAfter == if u.key == key then own + [r] else own
    ensures Lists(pollAfter, ownAfter, now, key, inbound)
  {
    UpdatesGrow(poll, u, key);
  }

  lemma UpdatesGrow(poll: Poll, u: Update, key: string)
    ensures Keys(poll + [u]) == Keys(poll) + {u.key}
    ensures key in Keys(poll + [u]) ==>
              && LastUpdate(poll + [u], key) == (if u.key == key then u else LastUpdate(poll, key))
              && FirstUpdate(poll + [u], key) == (if key in Keys(poll) then FirstUpdate(poll, key) else u)
  {
    assert (poll + [u])[..|poll|] == poll;
  }

  /** A counter in the last of a process's rows. */
  function LastRow(rows: seq<NettopRow>, now: int, who: Who, inbound: bool): Option<Anchor> {
    var own := RowsOf(rows, who);
    if own == [] then None else Some(Anchor(Counter(own[|own| - 1], inbound), now, 0))
  }

  /** What is known of a counter after some rows of a poll: its value in the last row, or else its anchor before. */
  function Known(anchors: Anchors, rows: seq<NettopRow>, now: int, who: Who, inbound: bool): Option<Anchor> {
    var last := LastRow(rows, now, who, inbound);
    if last.Some? then last else Lookup(anchors, WhoKey(who, inbound))
  }

  lemma PlayedIsKnown(anchors: Anchors, rows: seq<NettopRow>, now: int, who: Who, inbound: bool)
    ensures Lookup(Played(anchors, PollOf(rows, now, inbound)), WhoKey(who, inbound))
         == Known(anchors, rows, now, who, inbound)
  {
    ListsRows(rows, now, who, inbound);
    PlayedLookup(anchors, PollOf(rows, now, inbound), WhoKey(who, inbound));
  }

  /** How far a counter has grown, where that is a plain delta. */
  function Grown(known: Option<Anchor>, value: int, now: int, maxPerSec: int): Option<int> {
    if known.Some? && PlainDelta(known.value, value, now, maxPerSec) then Some(value - known.value.value) else None
  }

  /** The sample that a row adds: both of its counters have grown plainly, and not both by nothing. */
  function SampleAdded(
    procIn: Anchors, procOut: Anchors, before: seq<NettopRow>, r: NettopRow, now: int, maxPerSec: int, sid: int)
    : seq<ProcessSample>
  {
    var who := Who(r.process, r.pid);
    var received := Grown(Known(procIn, before, now, who, true), r.bytesIn, now, maxPerSec);
    var sent := Grown(Known(procOut, before, now, who, false), r.bytesOut, now, maxPerSec);
    if received.Some? && sent.Some? && (received.value > 0 || sent.value > 0)
    then [ProcessSample(now, sid, r.process, r.pid, received.value, sent.value)] else []
  }

  function SamplesAdded(
    procIn: Anchors, procOut: Anchors, rows: seq<NettopRow>, now: int, maxPerSec: int, sid: int): seq<ProcessSample>
  {
    if rows == [] then []
    else
      var before, r := rows[..|rows| - 1], rows[|rows| - 1];
      SamplesAdded(procIn, procOut, before, now, maxPerSec, sid)
      + SampleAdded(procIn, procOut, before, r, now, maxPerSec, sid)
  }

  lemma ProcessRowAdds(
    procIn: Anchors, procOut: Anchors, before: seq<NettopRow>, r: NettopRow, now: int, maxPerSec: int,
    active: Option<int>)
    ensures RowStored(Played(procIn, InPoll(before, now)), Played(procOut, OutPoll(before, now)),
                      r, now, maxPerSec, active)
         == if active.Some? then SampleAdded(procIn, procOut, before, r, now, maxPerSec, active.value) else []
  {
    var who := Who(r.process, r.pid);
    KeyIsOf(r, who, true);
    KeyIsOf(r, who, false);
    PlayedIsKnown(procIn, before, now, who, true);
    PlayedIsKnown(procOut, before, now, who, false);
    GrownIsReported(Known(procIn, before, now, who, true), r.bytesIn, now, maxPerSec);
    GrownIsReported(Known(procOut, before, now, who, false), r.bytesOut, now, maxPerSec);
  }

  lemma GrownIsReported(known: Option<Anchor>, value: int, now: int, maxPerSec: int)
    ensures Reported(Judge(known, value, now, maxPerSec)) == Grown(known, value, now, maxPerSec)
  {
    if known.Some? {
      ReportedIff(known, value, now, maxPerSec, value - known.value.value);
    }
  }

  lemma {:induction false} ProcessRowsAdd(
    procIn: Anchors, procOut: Anchors, rows: seq<NettopRow>, now: int, maxPerSec: int, active: Option<int>)
    ensures ProcessesStored(procIn, procOut, rows, now, maxPerSec, active)
         == if active.Some? then SamplesAdded(procIn, procOut, rows, now, maxPerSec, active.value) else []
  {
    if rows != [] {
      var n := |rows| - 1;
      ProcessRowsAdd(procIn, procOut, rows[..n], now, maxPerSec, active);
      ProcessRowAdds(procIn, procOut, rows[..n], rows[n], now, maxPerSec, active);
    }
  }

  /**
   * A due process poll adds, while a session is active, one sample for each row whose two
   * counters both grew plainly since they were last known, and not both by nothing: at its
   * time, of the active session, with the row's name and pid and the two growths.
   */
  lemma ProcessPollAdds(cfg: Config, w: World, rows: seq<NettopRow>, now: int)
    requires w.mem.Some? && now - w.mem.value.lastProc >= cfg.procPoll
    ensures var m, after := w.mem.value, Step(cfg, w, ProcessPoll(rows, now)).db;
            && after == w.db.(procs := after.procs)
            && (m.active.None? ==> after.procs == w.db.procs)
            && (m.active.Some? ==>
                  after.procs
                  == w.db.procs + SamplesAdded(m.procIn, m.procOut, rows, now, cfg.maxPerSec, m.active.value))
  {
    ProcessRowsAdd(w.mem.value.procIn, w.mem.value.procOut, rows, now, cfg.maxPerSec, w.mem.value.active);
    assert w.db.procs + [] == w.db.procs;
  }

  /** A poll that lists a process once judges its row against what was known before the poll. */
  lemma ListedOnce(anchors: Anchors, rows: seq<NettopRow>, i: nat, now: int, inbound: bool)
    requires i < |rows|
    requires forall j :: 0 <= j < i ==> !(rows[j].process == rows[i].process && rows[j].pid == rows[i].pid)
    ensures var who := Who(rows[i].process, rows[i].pid);
            Known(anchors, rows[..i], now, who, inbound) == Lookup(anchors, WhoKey(who, inbound))
  {
    var who := Who(rows[i].process, rows[i].pid);
    KeepNone(rows[..i], (r: NettopRow) => r.process == who.process && r.pid == who.pid);
  }

  /** What a poll leaves known of a process: its last row, or what was known before, until the third miss. */
  function KnownAfter(before: Option<Anchor>, last: Option<Anchor>): Option<Anchor> {
    if last.Some? then last
    else if before.Some? && before.value.misses < 2
    then Some(Anchor(before.value.value, before.value.ts, before.value.misses + 1))
    else None
  }

  lemma PollLeaves(anchors: Anchors, rows: seq<NettopRow>, now: int, who: Who, inbound: bool)
    ensures var left := Evicted(Played(anchors, PollOf(rows, now, inbound)), PresentKeys(rows), EVICTION_MISSES);
            Lookup(left, WhoKey(who, inbound))
            == KnownAfter(Lookup(anchors, WhoKey(who, inbound)), LastRow(rows, now, who, inbound))
  {
    PresentIff(rows, who, inbound);
    PlayedIsKnown(anchors, rows, now, who, inbound);
    EvictedLookup(Played(anchors, PollOf(rows, now, inbound)), PresentKeys(rows), WhoKey(who, inbound),
                  Lookup(anchors, WhoKey(who, inbound)), LastRow(rows, now, who, inbound));
  }

  lemma EvictedLookup(
    played: Anchors, present: set<string>, key: string, before: Option<Anchor>, last: Option<Anchor>)
    requires Lookup(played, key) == if last.Some? then last else before
    requires (key in present <==> last.Some?) && (last.Some? ==> last.value.misses == 0)
    ensures Lookup(Evicted(played, present, EVICTION_MISSES), key) == KnownAfter(before, last)
  {
  }

  /**
   * What a due process poll leaves known of a process, in each direction: its last row's
   * counter at the poll's time if it has a row, and otherwise what was known, with one more
   * miss, until the third.
   */
  lemma ProcessPollAnchors(cfg: Config, w: World, rows: seq<NettopRow>, now: int, who: Who)
    requires w.mem.Some? && now - w.mem.value.lastProc >= cfg.procPoll
    ensures var m, after := w.mem.value, Step(cfg, w, ProcessPoll(rows, now)).mem;
            var received, sent := WhoKey(who, true), WhoKey(who, false);
            && after.Some?
            && Lookup(after.value.procIn, received)
               == KnownAfter(Lookup(m.procIn, received), LastRow(rows, now, who, true))
            && Lookup(after.value.procOut, sent)
               == KnownAfter(Lookup(m.procOut, sent), LastRow(rows, now, who, false))
  {
    ProcessPollMoves(cfg, w, rows, now);
    PollLeaves(w.mem.value.procIn, rows, now, who, true);
    PollLeaves(w.mem.value.procOut, rows, now, who, false);
  }

  lemma ProcessPollMoves(cfg: Config, w: World, rows: seq<NettopRow>, now: int)
    requires w.mem.Some? && now - w.mem.value.lastProc >= cfg.procPoll
    ensures var m, after := w.mem.value, Step(cfg, w, ProcessPoll(rows, now)).mem;
            var present := PresentKeys(rows);
            && after.Some?
            && after.value.procIn == Evicted(Played(m.procIn, PollOf(rows, now, true)), present, EVICTION_MISSES)
            && after.value.procOut == Evicted(Played(m.procOut, PollOf(rows, now, false)), present, EVICTION_MISSES)
  {
  }

  /** A key of one direction is present only through a row of its process. */
  lemma PresentIff(rows: seq<NettopRow>, who: Who, inbound: bool)
    ensures WhoKey(who, inbound) in PresentKeys(rows) <==> RowsOf(rows, who) != []
  {
    var own := (r: NettopRow) => r.process == who.process && r.pid == who.pid;
    KeepMembers(rows, own);
    forall r: NettopRow
      ensures RowKey(r) + Suffix(inbound) == WhoKey(who, inbound) <==> own(r)
      ensures RowKey(r) + Suffix(!inbound) != WhoKey(who, inbound)
    {
      KeyIsOf(r, who, inbound);
      LastsDiffer(r, who, inbound);
    }
    if RowsOf(rows, who) != [] {
      assert RowsOf(rows, who)[0] in RowsOf(rows, who);
    }
  }

  lemma LastsDiffer(r: NettopRow, who: Who, inbound: bool)
    ensures RowKey(r) + Suffix(!inbound) != WhoKey(who, inbound)
  {
    var a, b := RowKey(r) + Suffix(!inbound), WhoKey(who, inbound);
    assert a[|a| - 1] == (if inbound then 't' else 'n') && b[|b| - 1] == (if inbound then 'n' else 't');
  }

  // ---------------------------------------------------------------------------------
  // All polls of a life.

  /** The rows of one process in these ticks, in order. */
  function AllRowsOf(ticks: seq<Tick>, who: Who): seq<NettopRow> {
    if ticks == [] then [] else AllRowsOf(ticks[..|ticks| - 1], who) + RowsOf(ticks[|ticks| - 1].rows, who)
  }

  /** A counter was first seen in the first of these rows, and last in the last. */
  predicate Seen(polls: seq<Poll>, own: seq<NettopRow>, key: string, inbound: bool) {
    && FirstSeen(polls, key) == (if own == [] then None else Some(Counter(own[0], inbound)))
    && LastSeen(polls, key) == (if own == [] then None else Some(Counter(own[|own| - 1], inbound)))
  }

  lemma {:induction false} SeenInRows(ticks: seq<Tick>, who: Who, inbound: bool)
    ensures Seen(PollsOf(ticks, inbound), AllRowsOf(ticks, who), WhoKey(who, inbound), inbound)
  {
    if ticks != [] {
      var n := |ticks| - 1;
      SeenInRows(ticks[..n], who, inbound);
      ListsRows(ticks[n].rows, ticks[n].now, who, inbound);
      SeenOneMore(PollsOf(ticks[..n], inbound), AllRowsOf(ticks[..n], who), WhoKey(who, inbound), inbound,
                  PollOf(ticks[n].rows, ticks[n].now, inbound), RowsOf(ticks[n].rows, who), ticks[n].now);
    }
  }

  lemma SeenOneMore(
    polls: seq<Poll>, own: seq<NettopRow>, key: string, inbound: bool, poll: Poll, more: seq<NettopRow>, now: int)
    requires Seen(polls, own, key, inbound) && Lists(poll, more, now, key, inbound)
    ensures Seen(polls + [poll], own + more, key, inbound)
  {
    assert (polls + [poll])[..|polls|] == polls;
    assert more == [] ==> own + more == own;
    assert own == [] ==> own + more == more;
  }

  /**
   * The ledger of one process over a life of the collector, on the rows of the polls that
   * ran: stored, dropped and jumped bytes and movement while forgotten, less losses, are the
   * counter of its last row less that of its first.
   */
  lemma ProcessLifeOnRows(cfg: Config, db: Tables, start: int, events: seq<Event>, who: Who, inbound: bool)
    requires ValidRun(cfg, Started(db, start), start, events) && SameProcess(events)
    ensures var ticks := FiredProcessTicks(cfg, Started(db, start), start, events);
            var polls, key, own := PollsOf(ticks, inbound), WhoKey(who, inbound), AllRowsOf(ticks, who);
            var t := LifeTally(polls, key, 3, cfg.maxPerSec);
            SumOfWho(ProcessesInserted(cfg, Started(db, start), start, events), who, inbound)
            + DroppedOf(ticks, who, inbound, cfg.maxPerSec) + t.jumped - t.lost + Unwatched(polls, key, 3)
            == if own == [] then 0 else Counter(own[|own| - 1], inbound) - Counter(own[0], inbound)
  {
    ProcessLifeLedger(cfg, db, start, events, who, inbound);
    SeenInRows(FiredProcessTicks(cfg, Started(db, start), start, events), who, inbound);
  }
}
