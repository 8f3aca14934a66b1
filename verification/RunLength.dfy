/**
 * The sessions table as a function of what was observed: its rows are the maximal runs of
 * one network in the history of session ticks, under consecutive ids, less exactly the runs
 * that had expired when a purge last fired. Crashes and restarts leave no trace in it.
 */
module RunLength {
  import opened Basics
  import opened Database
  import opened Watcher
  import opened Collector
  import opened Integrity

  /** One observation of the network: None when offline, or when the collector exits cleanly. */
  datatype Observation = Observation(time: int, snapshot: Option<Snapshot>) {
    function Net(): Option<Identity> {
      match snapshot
      case None => None
      case Some(s) => Some(Identity(s.iface, s.linkType, s.ssid, s.bssid))
    }
  }

  type History = seq<Observation>

  // ---------------------------------------------------------------------------------
  // Maximal runs, declared on the whole history.

  /** Two observations of one network, or both of none; the address does not matter. */
  predicate SameNetwork(a: Observation, b: Observation) {
    match (a.snapshot, b.snapshot)
    case (None, None) => true
    case (Some(x), Some(y)) =>
      x.iface == y.iface && x.linkType == y.linkType && x.ssid == y.ssid && x.bssid == y.bssid
    case _ => false
  }

  /** A run starts wherever the network is known and differs from the observation before. */
  predicate Boundary(h: History, i: nat)
    requires i < |h|
  {
    h[i].snapshot.Some? && (i == 0 || !SameNetwork(h[i - 1], h[i]))
  }

  function Starts(h: History): (starts: seq<nat>)
    ensures forall i :: i in starts <==> 0 <= i < |h| && Boundary(h, i)
    ensures forall a :: 0 <= a < |starts| ==> starts[a] < |h| && Boundary(h, starts[a])
    ensures forall a, b :: 0 <= a < b < |starts| ==> starts[a] < starts[b]
  {
    if h == [] then []
    else
      var n := |h| - 1;
      var before := Starts(h[..n]);
      assert forall i: nat :: i < n ==> (Boundary(h[..n], i) <==> Boundary(h, i));
      assert forall a :: 0 <= a < |before| ==> before[a] < n;
      if Boundary(h, n) then before + [n] else before
  }

  /** The time of the first observation after `i` that is not on its network. */
  function EndTime(h: History, i: nat): Option<int>
    requires i < |h|
  {
    if i == |h| - 1 then None
    else
      var n := |h| - 1;
      match EndTime(h[..n], i)
      case Some(t) => Some(t)
      case None => if !SameNetwork(h[i], h[n]) then Some(h[n].time) else None
  }

  lemma {:induction false} EndTimeIsFirst(h: History, i: nat)
    requires i < |h|
    ensures EndTime(h, i).None? ==> forall j :: i <= j < |h| ==> SameNetwork(h[i], h[j])
    ensures EndTime(h, i).Some? ==> exists j :: LeavesAt(h, i, j) && h[j].time == EndTime(h, i).value
  {
    if i < |h| - 1 {
      var n := |h| - 1;
      EndTimeIsFirst(h[..n], i);
      if EndTime(h[..n], i).Some? {
        var j :| LeavesAt(h[..n], i, j) && h[..n][j].time == EndTime(h, i).value;
        assert forall k :: i <= k <= j ==> h[k] == h[..n][k];
        assert LeavesAt(h, i, j);
      } else {
        assert forall j :: i <= j < n ==> h[j] == h[..n][j];
        assert !SameNetwork(h[i], h[n]) ==> LeavesAt(h, i, n);
      }
    }
  }

  /** The first observation after `i` that is not on its network. */
  ghost predicate LeavesAt(h: History, i: nat, j: int) {
    i < j < |h| && !SameNetwork(h[i], h[j]) && forall k :: i <= k < j ==> SameNetwork(h[i], h[k])
  }

  function RunAt(h: History, i: nat): Session
    requires i < |h| && h[i].snapshot.Some?
  {
    var s := h[i].snapshot.value;
    Session(h[i].time, EndTime(h, i), Identity(s.iface, s.linkType, s.ssid, s.bssid), s.ip)
  }

  /** The maximal runs of a history, as the session rows that describe them. */
  function Runs(h: History): (runs: seq<Session>)
    ensures |runs| == |Starts(h)|
  {
    seq(|Starts(h)|, k requires 0 <= k < |Starts(h)| => RunAt(h, Starts(h)[k]))
  }

  function Current(h: History): Option<Identity> {
    if h == [] then None else h[|h| - 1].Net()
  }

  // ---------------------------------------------------------------------------------
  // One more observation.

  function EndOpen(s: Session, now: int): Session {
    if s.endedAt.None? then s.(endedAt := Some(now)) else s
  }

  function Ended(runs: seq<Session>, now: int): (ended: seq<Session>)
    ensures |ended| == |runs|
  {
    seq(|runs|, k requires 0 <= k < |runs| => EndOpen(runs[k], now))
  }

  lemma BoundaryAtEnd(h: History, o: Observation)
    ensures Boundary(h + [o], |h|) <==> o.Net().Some? && o.Net() != Current(h)
  {
    var g, n := h + [o], |h|;
    assert g[n] == o;
    assert n > 0 ==> g[n - 1] == h[n - 1];
  }

  lemma StartsGrow(h: History, o: Observation)
    ensures Starts(h + [o]) == Starts(h) + if o.Net().Some? && o.Net() != Current(h) then [|h|] else []
  {
    BoundaryAtEnd(h, o);
    assert (h + [o])[..|h|] == h;
    if !Boundary(h + [o], |h|) {
      assert Starts(h) + [] == Starts(h);
    }
  }

  /** A run that goes on to the end of the history ends when the next observation is elsewhere. */
  lemma RunGrows(h: History, o: Observation, i: nat)
    requires i < |h| && h[i].Net().Some?
    ensures RunAt(h + [o], i) == if o.Net() == Current(h) then RunAt(h, i) else EndOpen(RunAt(h, i), o.time)
  {
    var g := h + [o];
    assert g[..|h|] == h && g[i] == h[i];
    assert h[|h| - 1].Net() == Current(h);
  }

  lemma RunsGrow(h: History, o: Observation)
    ensures o.Net() == Current(h) ==> Runs(h + [o]) == Runs(h)
    ensures o.Net() != Current(h) ==>
              Runs(h + [o]) == Ended(Runs(h), o.time)
                               + if o.Net().Some?
                                 then [Session(o.time, None, o.Net().value, o.snapshot.value.ip)]
                                 else []
  {
    StartsGrow(h, o);
    forall k | 0 <= k < |Starts(h)|
      ensures Runs(h + [o])[k] == if o.Net() == Current(h) then Runs(h)[k] else EndOpen(Runs(h)[k], o.time)
    {
      var i := Starts(h)[k];
      assert Boundary(h, i);
      RunGrows(h, o, i);
    }
    if o.Net().Some? && o.Net() != Current(h) {
      assert RunAt(h + [o], |h|) == Session(o.time, None, o.Net().value, o.snapshot.value.ip);
    }
  }

  ghost predicate Chronological(h: History, clock: int) {
    && (forall i, j :: 0 <= i < j < |h| ==> h[i].time <= h[j].time)
    && (forall i :: 0 <= i < |h| ==> h[i].time <= clock)
  }

  /** Runs follow each other in time; all have ended, except the last while its network lasts. */
  ghost predicate InOrder(runs: seq<Session>, current: Option<Identity>, clock: int) {
    && (forall k :: 0 <= k < |runs| - 1 ==> runs[k].endedAt.Some?)
    && (current.Some? ==> runs != [] && runs[|runs| - 1].endedAt.None? && runs[|runs| - 1].net == current.value)
    && (current.None? && runs != [] ==> runs[|runs| - 1].endedAt.Some?)
    && (forall k :: 0 <= k < |runs| ==>
          && runs[k].startedAt <= clock
          && (runs[k].endedAt.Some? ==> runs[k].startedAt <= runs[k].endedAt.value <= clock))
    && (forall j, k :: 0 <= j < k < |runs| ==>
          runs[j].endedAt.Some? && runs[j].endedAt.value <= runs[k].startedAt)
  }

  lemma EndedInOrder(runs: seq<Session>, current: Option<Identity>, clock: int, now: int)
    requires InOrder(runs, current, clock) && clock <= now
    ensures InOrder(Ended(runs, now), None, now)
    ensures forall k :: 0 <= k < |runs| ==> Ended(runs, now)[k].endedAt.Some?
  {
  }

  lemma OpenedInOrder(runs: seq<Session>, now: int, net: Identity, ip: Option<string>)
    requires InOrder(runs, None, now)
    requires forall k :: 0 <= k < |runs| ==> runs[k].endedAt.Some?
    ensures InOrder(runs + [Session(now, None, net, ip)], Some(net), now)
  {
  }

  lemma InOrderLater(runs: seq<Session>, current: Option<Identity>, clock: int, now: int)
    requires InOrder(runs, current, clock) && clock <= now
    ensures InOrder(runs, current, now)
  {
  }

  lemma {:induction false} RunsInOrder(h: History, clock: int)
    requires Chronological(h, clock)
    ensures InOrder(Runs(h), Current(h), clock)
  {
    if h != [] {
      var n := |h| - 1;
      var g, o := h[..n], h[n];
      assert h == g + [o];
      RunsInOrder(g, o.time);
      RunsGrow(g, o);
      InOrderLater(Runs(h), Current(h), o.time, clock) by {
        if o.Net() != Current(g) {
          var ended := Ended(Runs(g), o.time);
          EndedInOrder(Runs(g), Current(g), o.time, o.time);
          if o.Net().None? {
            assert Runs(h) == ended;
          } else {
            OpenedInOrder(ended, o.time, o.Net().value, o.snapshot.value.ip);
          }
        }
      }
    }
  }

  // ---------------------------------------------------------------------------------
  // The sessions table represents the runs.

  /**
   * The table holds the runs from the `dropped`-th on, and run k has the id k - epoch + 1.
   * When every run has been dropped the next one begins a new epoch: ids start again from 1.
   */
  ghost predicate Represents(sessions: Sessions, runs: seq<Session>, dropped: nat, epoch: nat) {
    && epoch <= dropped <= |runs|
    && (forall id :: id in sessions <==> dropped <= id - 1 + epoch < |runs|)
    && (forall id :: id in sessions ==> sessions[id] == runs[id - 1 + epoch])
    && (dropped == |runs| ==> epoch == dropped)
  }

  lemma NextIdFollows(sessions: Sessions, runs: seq<Session>, dropped: nat, epoch: nat)
    requires Represents(sessions, runs, dropped, epoch)
    ensures NextId(sessions) == |runs| - epoch + 1
  {
    var top := |runs| - epoch;
    var id := NextId(sessions);
    if dropped == |runs| {
      assert id - 1 !in sessions;
    } else {
      assert top in sessions && id - 1 in sessions;
    }
  }

  /** The open session is the last run, if the network is known. */
  lemma OpenIsLast(
    sessions: Sessions, runs: seq<Session>, current: Option<Identity>, clock: int, dropped: nat, epoch: nat)
    requires Represents(sessions, runs, dropped, epoch)
    requires InOrder(runs, current, clock)
    requires current.Some? ==> dropped < |runs|
    ensures current.Some? ==> IsOpen(sessions, |runs| - epoch)
    ensures forall id :: IsOpen(sessions, id) ==> current.Some? && id == |runs| - epoch
  {
    if current.Some? {
      assert |runs| - epoch in sessions;
    }
    forall id | IsOpen(sessions, id)
      ensures current.Some? && id == |runs| - epoch
    {
      assert sessions[id] == runs[id - 1 + epoch];
    }
  }

  lemma HeldIsCurrent(
    sessions: Sessions, held: Held, runs: seq<Session>, current: Option<Identity>,
    clock: int, dropped: nat, epoch: nat)
    requires Represents(sessions, runs, dropped, epoch) && InOrder(runs, current, clock)
    requires current.Some? ==> dropped < |runs|
    requires Holds(sessions, held)
    ensures held.net == current
    ensures held.id.Some? ==> held.id.value == |runs| - epoch && dropped < |runs|
    ensures held.id.None? ==> forall k :: 0 <= k < |runs| ==> runs[k].endedAt.Some?
  {
    OpenIsLast(sessions, runs, current, clock, dropped, epoch);
  }

  lemma EndRepresents(
    sessions: Sessions, held: Held, runs: seq<Session>, current: Option<Identity>,
    clock: int, now: int, dropped: nat, epoch: nat)
    requires Represents(sessions, runs, dropped, epoch) && InOrder(runs, current, clock)
    requires current.Some? ==> dropped < |runs|
    requires Holds(sessions, held)
    ensures Represents(if held.id.Some? then Closed(sessions, held.id.value, now) else sessions,
                       Ended(runs, now), dropped, epoch)
    ensures held.net == current
  {
    HeldIsCurrent(sessions, held, runs, current, clock, dropped, epoch);
    if held.id.Some? {
      EndLast(sessions, runs, now, dropped, epoch, held.id.value);
    } else {
      assert Ended(runs, now) == runs;
    }
  }

  lemma EndLast(sessions: Sessions, runs: seq<Session>, now: int, dropped: nat, epoch: nat, id: int)
    requires Represents(sessions, runs, dropped, epoch) && dropped < |runs|
    requires runs[|runs| - 1].endedAt.None? && id == |runs| - epoch
    requires forall k :: 0 <= k < |runs| - 1 ==> runs[k].endedAt.Some?
    ensures Represents(Closed(sessions, id, now), Ended(runs, now), dropped, epoch)
  {
  }

  lemma OpenRepresents(
    sessions: Sessions, runs: seq<Session>, dropped: nat, epoch: nat, now: int, net: Identity, ip: Option<string>)
    requires Represents(sessions, runs, dropped, epoch)
    ensures Represents(Opened(sessions, now, net, ip), runs + [Session(now, None, net, ip)], dropped, epoch)
  {
    NextIdFollows(sessions, runs, dropped, epoch);
  }

  /** A session tick adds one observation to the history and nothing else. */
  lemma TickRepresents(
    sessions: Sessions, held: Held, snapshot: Option<Snapshot>, h: History,
    clock: int, now: int, dropped: nat, epoch: nat)
    requires Represents(sessions, Runs(h), dropped, epoch) && InOrder(Runs(h), Current(h), clock)
    requires Current(h).Some? ==> dropped < |Runs(h)|
    requires Holds(sessions, held)
    ensures Represents(Reconcile(sessions, held, snapshot, now).sessions,
                       Runs(h + [Observation(now, snapshot)]), dropped, epoch)
    ensures snapshot.Some? ==> dropped < |Runs(h + [Observation(now, snapshot)])|
  {
    var o := Observation(now, snapshot);
    RunsGrow(h, o);
    EndRepresents(sessions, held, Runs(h), Current(h), clock, now, dropped, epoch);
    if o.Net() != Current(h) {
      if snapshot.Some? {
        var closed := if held.id.Some? then Closed(sessions, held.id.value, now) else sessions;
        OpenRepresents(closed, Ended(Runs(h), now), dropped, epoch, now, snapshot.value.Net(), snapshot.value.ip);
      } else {
        assert Runs(h + [o]) == Ended(Runs(h), now);
      }
    }
  }

  /** How many of the oldest runs a purge deletes. Runs end in order, so it keeps all later ones. */
  function FirstKept(runs: seq<Session>, cutoff: int): (kept: nat)
    ensures kept <= |runs|
    ensures forall k :: 0 <= k < kept ==> Expired(runs[k], cutoff)
    ensures kept < |runs| ==> !Expired(runs[kept], cutoff)
  {
    if runs == [] || !Expired(runs[0], cutoff) then 0
    else
      var kept := FirstKept(runs[1..], cutoff);
      assert forall k :: 1 <= k < kept + 1 ==> runs[k] == runs[1..][k - 1];
      kept + 1
  }

  lemma KeptToTheEnd(runs: seq<Session>, current: Option<Identity>, clock: int, cutoff: int)
    requires InOrder(runs, current, clock)
    ensures forall k :: FirstKept(runs, cutoff) <= k < |runs| ==> !Expired(runs[k], cutoff)
  {
    var kept := FirstKept(runs, cutoff);
    forall k | kept <= k < |runs|
      ensures !Expired(runs[k], cutoff)
    {
      if kept < k {
        assert runs[kept].endedAt.value <= runs[k].startedAt;
      }
    }
  }

  function EpochAfter(runs: seq<Session>, kept: nat, epoch: nat): nat {
    if kept == |runs| then kept else epoch
  }

  /** A purge drops exactly the expired runs. */
  lemma PurgeRepresents(
    sessions: Sessions, runs: seq<Session>, cutoff: int, dropped: nat, epoch: nat, kept: nat)
    requires Represents(sessions, runs, dropped, epoch) && dropped <= kept <= |runs|
    requires forall k :: 0 <= k < kept ==> Expired(runs[k], cutoff)
    requires forall k :: kept <= k < |runs| ==> !Expired(runs[k], cutoff)
    ensures Represents(sessions - ExpiredIds(sessions, cutoff), runs, kept, EpochAfter(runs, kept, epoch))
  {
    var after := sessions - ExpiredIds(sessions, cutoff);
    forall id | id in sessions
      ensures id in after <==> kept <= id - 1 + epoch
    {
      assert sessions[id] == runs[id - 1 + epoch];
    }
  }

  /** With one open session at most, startup closes nothing. */
  lemma NoOrphans(sessions: Sessions, now: int)
    requires forall j, k :: IsOpen(sessions, j) && IsOpen(sessions, k) ==> j == k
    ensures OrphansClosed(sessions, now) == sessions
  {
    forall id | id in sessions
      ensures OrphansClosed(sessions, now)[id] == sessions[id]
    {
      if IsOpen(sessions, id) {
        assert ActiveSession(sessions) == Some(id);
      }
    }
  }

  // ---------------------------------------------------------------------------------
  // Runs of the collector.

  /** What a step observes: a session tick that fires, or a clean exit with an active session. */
  function Observed(cfg: Config, w: World, e: Event): History
    requires Enabled(w, e)
  {
    match e
    case SessionPoll(snapshot, now) =>
      if now - w.mem.value.lastSession >= cfg.sessionPoll then [Observation(now, snapshot)] else []
    case Shutdown(now) => if w.mem.value.active.Some? then [Observation(now, None)] else []
    case _ => []
  }

  ghost function Observations(cfg: Config, w: World, clock: int, events: seq<Event>): History
    requires ValidRun(cfg, w, clock, events)
    decreases |events|
  {
    if events == [] then []
    else Observed(cfg, w, events[0]) + Observations(cfg, Step(cfg, w, events[0]), events[0].now, events[1..])
  }

  predicate PurgeFires(w: World, e: Event)
    requires Enabled(w, e)
  {
    e.RetentionPoll? && e.now - w.mem.value.lastPurge >= PURGE_EVERY_SEC
  }

  /** The cutoffs of the purges that fire along a run. */
  ghost function Cutoffs(cfg: Config, w: World, clock: int, events: seq<Event>): seq<int>
    requires ValidRun(cfg, w, clock, events)
    decreases |events|
  {
    if events == [] then []
    else
      var e := events[0];
      (if PurgeFires(w, e) then [e.now - cfg.sampleRetention] else [])
      + Cutoffs(cfg, Step(cfg, w, e), e.now, events[1..])
  }

  // ---------------------------------------------------------------------------------
  // The table is a function of what was observed and of when purges fired.

  /** What purges have left of the runs: how many are dropped, where ids begin, and the last cutoff. */
  datatype Kept = Kept(dropped: nat, epoch: nat, cutoff: Option<int>)

  datatype Past = Past(history: History, kept: Kept)

  const NOTHING: Past := Past([], Kept(0, 0, None))

  /** A purge drops the runs that have expired by then; it begins a new epoch when those are all. */
  function Sifted(runs: seq<Session>, kept: Kept, cutoff: int): Kept {
    Kept(FirstKept(runs, cutoff), EpochAfter(runs, FirstKept(runs, cutoff), kept.epoch), Some(cutoff))
  }

  function Noted(cfg: Config, p: Past, w: World, e: Event): Past
    requires Enabled(w, e)
  {
    if PurgeFires(w, e) then p.(kept := Sifted(Runs(p.history), p.kept, e.now - cfg.sampleRetention))
    else p.(history := p.history + Observed(cfg, w, e))
  }

  ghost function PastOf(cfg: Config, w: World, clock: int, events: seq<Event>, p: Past): Past
    requires ValidRun(cfg, w, clock, events)
    decreases |events|
  {
    if events == [] then p
    else PastOf(cfg, Step(cfg, w, events[0]), events[0].now, events[1..], Noted(cfg, p, w, events[0]))
  }

  lemma {:induction false} PastIsObserved(cfg: Config, w: World, clock: int, events: seq<Event>, p: Past)
    requires ValidRun(cfg, w, clock, events)
    ensures var after, cutoffs := PastOf(cfg, w, clock, events, p), Cutoffs(cfg, w, clock, events);
            && after.history == p.history + Observations(cfg, w, clock, events)
            && after.kept.cutoff == if cutoffs == [] then p.kept.cutoff else Some(cutoffs[|cutoffs| - 1])
    decreases |events|
  {
    if events == [] {
      assert p.history + [] == p.history;
    } else {
      var e, rest := events[0], events[1..];
      PastIsObserved(cfg, Step(cfg, w, e), e.now, rest, Noted(cfg, p, w, e));
      assert p.history + [] == p.history;
      Associate(p.history, Observed(cfg, w, e), Observations(cfg, Step(cfg, w, e), e.now, rest));
    }
  }

  /**
   * The table holds the runs but those dropped, which are exactly the runs that had expired
   * at the last purge's cutoff, and none before the first purge. With a negative retention
   * cutoffs lie in the future, and later runs may end before them.
   */
  ghost predicate Tabled(
    sessions: Sessions, runs: seq<Session>, current: Option<Identity>, kept: Kept, clock: int, sampleRetention: int)
  {
    && Represents(sessions, runs, kept.dropped, kept.epoch)
    && (current.Some? ==> kept.dropped < |runs|)
    && Pinned(runs, kept, sampleRetention)
    && (kept.cutoff.Some? ==> kept.cutoff.value <= clock - sampleRetention)
  }

  ghost predicate Pinned(runs: seq<Session>, kept: Kept, sampleRetention: int) {
    && kept.dropped <= |runs|
    && (kept.cutoff.None? ==> kept.dropped == 0 && kept.epoch == 0)
    && (kept.cutoff.Some? ==> forall k :: 0 <= k < kept.dropped ==> Expired(runs[k], kept.cutoff.value))
    && (kept.cutoff.Some? && sampleRetention >= 0 ==>
          forall k :: kept.dropped <= k < |runs| ==> !Expired(runs[k], kept.cutoff.value))
  }

  /** A sessions table at a time, against the past that led to it. */
  ghost predicate Groups(sessions: Sessions, p: Past, clock: int, sampleRetention: int) {
    && Chronological(p.history, clock)
    && Tabled(sessions, Runs(p.history), Current(p.history), p.kept, clock, sampleRetention)
  }

  /** Ending the open run and starting another makes no run expire under a cutoff in the past. */
  lemma PinnedStays(
    runs: seq<Session>, more: seq<Session>, kept: Kept, clock: int, now: int, sampleRetention: int)
    requires Pinned(runs, kept, sampleRetention) && clock <= now
    requires kept.cutoff.Some? ==> kept.cutoff.value <= clock - sampleRetention
    requires forall s :: s in more ==> s.endedAt.None?
    ensures Pinned(Ended(runs, now) + more, kept, sampleRetention)
  {
    var after := Ended(runs, now) + more;
    forall k | 0 <= k < |after|
      ensures k < |runs| ==> after[k] == EndOpen(runs[k], now)
      ensures k >= |runs| ==> after[k].endedAt.None?
    {
      if k >= |runs| {
        assert after[k] == more[k - |runs|] && after[k] in more;
      }
    }
  }

  lemma PinnedGrows(h: History, o: Observation, kept: Kept, clock: int, sampleRetention: int)
    requires Pinned(Runs(h), kept, sampleRetention) && clock <= o.time
    requires kept.cutoff.Some? ==> kept.cutoff.value <= clock - sampleRetention
    ensures Pinned(Runs(h + [o]), kept, sampleRetention)
  {
    var more := if o.Net().Some? then [Session(o.time, None, o.Net().value, o.snapshot.value.ip)] else [];
    RunsGrow(h, o);
    PinnedStays(Runs(h), more, kept, clock, o.time, sampleRetention);
  }

  lemma HistoryGrows(h: History, o: Observation, clock: int)
    requires Chronological(h, clock) && clock <= o.time
    ensures Chronological(h + [o], o.time)
  {
  }

  /** An observation, on the sessions alone. */
  lemma ObservationGroups(
    sessions: Sessions, held: Held, snapshot: Option<Snapshot>, p: Past, clock: int, now: int, sampleRetention: int)
    requires Groups(sessions, p, clock, sampleRetention) && clock <= now && Holds(sessions, held)
    ensures Groups(Reconcile(sessions, held, snapshot, now).sessions,
                   p.(history := p.history + [Observation(now, snapshot)]), now, sampleRetention)
  {
    var o, kept := Observation(now, snapshot), p.kept;
    RunsInOrder(p.history, clock);
    TickRepresents(sessions, held, snapshot, p.history, clock, now, kept.dropped, kept.epoch);
    PinnedGrows(p.history, o, kept, clock, sampleRetention);
    HistoryGrows(p.history, o, clock);
    assert Current(p.history + [o]) == o.Net();
  }

  /** A session tick that fires reconciles with its snapshot; a clean exit closes the session the watcher holds. */
  lemma ObservedSessions(cfg: Config, w: World, e: Event)
    requires Enabled(w, e) && Observed(cfg, w, e) != []
    requires Watching(w.db.sessions, w.mem.value)
    ensures var snapshot := if e.SessionPoll? then e.snapshot else None;
            && Observed(cfg, w, e) == [Observation(e.now, snapshot)]
            && Step(cfg, w, e).db.sessions == Reconcile(w.db.sessions, w.mem.value.held, snapshot, e.now).sessions
  {
  }

  lemma StepObserves(cfg: Config, w: World, e: Event, clock: int, p: Past)
    requires Enabled(w, e) && clock <= e.now && Groups(w.db.sessions, p, clock, cfg.sampleRetention)
    requires Observed(cfg, w, e) != [] && Watching(w.db.sessions, w.mem.value)
    ensures Groups(Step(cfg, w, e).db.sessions, Noted(cfg, p, w, e), e.now, cfg.sampleRetention)
  {
    var snapshot := if e.SessionPoll? then e.snapshot else None;
    ObservedSessions(cfg, w, e);
    ObservationGroups(w.db.sessions, w.mem.value.held, snapshot, p, clock, e.now, cfg.sampleRetention);
  }

  /** A step that observes nothing and purges nothing leaves the sessions alone. */
  lemma UnobservedSessions(cfg: Config, w: World, e: Event)
    requires Enabled(w, e) && Observed(cfg, w, e) == [] && !PurgeFires(w, e)
    requires forall j, k :: IsOpen(w.db.sessions, j) && IsOpen(w.db.sessions, k) ==> j == k
    ensures Step(cfg, w, e).db.sessions == w.db.sessions
  {
    if e.Start? {
      NoOrphans(w.db.sessions, e.now);
    }
  }

  lemma OneOpen(sessions: Sessions, p: Past, clock: int, sampleRetention: int)
    requires Groups(sessions, p, clock, sampleRetention)
    ensures forall j, k :: IsOpen(sessions, j) && IsOpen(sessions, k) ==> j == k
  {
    RunsInOrder(p.history, clock);
    OpenIsLast(sessions, Runs(p.history), Current(p.history), clock, p.kept.dropped, p.kept.epoch);
  }

  lemma GroupsLater(sessions: Sessions, p: Past, clock: int, now: int, sampleRetention: int)
    requires Groups(sessions, p, clock, sampleRetention) && clock <= now
    ensures Groups(sessions, p, now, sampleRetention)
  {
  }

  lemma StepUnobserved(cfg: Config, w: World, e: Event, clock: int, p: Past)
    requires Enabled(w, e) && clock <= e.now && Groups(w.db.sessions, p, clock, cfg.sampleRetention)
    requires Observed(cfg, w, e) == [] && !PurgeFires(w, e)
    ensures Groups(Step(cfg, w, e).db.sessions, Noted(cfg, p, w, e), e.now, cfg.sampleRetention)
  {
    assert p.history + [] == p.history;
    OneOpen(w.db.sessions, p, clock, cfg.sampleRetention);
    UnobservedSessions(cfg, w, e);
    GroupsLater(w.db.sessions, p, clock, e.now, cfg.sampleRetention);
  }

  lemma SiftPins(
    runs: seq<Session>, current: Option<Identity>, kept: Kept, clock: int, cutoff: int, sampleRetention: int)
    requires InOrder(runs, current, clock)
    ensures Pinned(runs, Sifted(runs, kept, cutoff), sampleRetention)
    ensures current.Some? ==> Sifted(runs, kept, cutoff).dropped < |runs|
  {
    KeptToTheEnd(runs, current, clock, cutoff);
    assert current.Some? ==> !Expired(runs[|runs| - 1], cutoff);
  }

  lemma DroppedHaveExpired(runs: seq<Session>, kept: Kept, sampleRetention: int, cutoff: int)
    requires Pinned(runs, kept, sampleRetention) && (kept.cutoff.Some? ==> kept.cutoff.value <= cutoff)
    ensures forall k :: 0 <= k < kept.dropped ==> Expired(runs[k], cutoff)
  {
  }

  /** A purge that fires, on any runs that follow each other in time. */
  lemma PurgeTables(
    sessions: Sessions, runs: seq<Session>, current: Option<Identity>, kept: Kept, clock: int, now: int,
    sampleRetention: int)
    requires Tabled(sessions, runs, current, kept, clock, sampleRetention)
    requires InOrder(runs, current, clock) && clock <= now
    ensures var cutoff := now - sampleRetention;
            Tabled(sessions - ExpiredIds(sessions, cutoff), runs, current, Sifted(runs, kept, cutoff),
                   now, sampleRetention)
  {
    var cutoff := now - sampleRetention;
    KeptToTheEnd(runs, current, clock, cutoff);
    DroppedHaveExpired(runs, kept, sampleRetention, cutoff);
    PurgeRepresents(sessions, runs, cutoff, kept.dropped, kept.epoch, FirstKept(runs, cutoff));
    SiftPins(runs, current, kept, clock, cutoff, sampleRetention);
  }

  lemma PurgeGroups(
    sessions: Sessions, p: Past, clock: int, now: int, sampleRetention: int, after: Sessions, next: Past)
    requires Groups(sessions, p, clock, sampleRetention) && clock <= now
    requires after == sessions - ExpiredIds(sessions, now - sampleRetention)
    requires next == p.(kept := Sifted(Runs(p.history), p.kept, now - sampleRetention))
    ensures Groups(after, next, now, sampleRetention)
  {
    RunsInOrder(p.history, clock);
    PurgeTables(sessions, Runs(p.history), Current(p.history), p.kept, clock, now, sampleRetention);
  }

  lemma PurgedSessions(cfg: Config, w: World, e: Event, clock: int)
    requires Enabled(w, e) && PurgeFires(w, e) && Sound(w.db, clock)
    ensures Step(cfg, w, e).db.sessions == w.db.sessions - ExpiredIds(w.db.sessions, e.now - cfg.sampleRetention)
  {
    PurgeNeverRefused(w.db, clock, e.now - cfg.sampleRetention);
  }

  lemma StepPurges(cfg: Config, w: World, e: Event, clock: int, p: Past, after: Sessions)
    requires Enabled(w, e) && clock <= e.now && PurgeFires(w, e)
    requires Groups(w.db.sessions, p, clock, cfg.sampleRetention)
    requires after == w.db.sessions - ExpiredIds(w.db.sessions, e.now - cfg.sampleRetention)
    ensures Groups(after, Noted(cfg, p, w, e), e.now, cfg.sampleRetention)
  {
    PurgeGroups(w.db.sessions, p, clock, e.now, cfg.sampleRetention, after, Noted(cfg, p, w, e));
  }

  lemma StepGroups(cfg: Config, w: World, e: Event, clock: int, p: Past)
    requires Enabled(w, e) && clock <= e.now && Inv(w, clock)
    requires Groups(w.db.sessions, p, clock, cfg.sampleRetention)
    ensures Groups(Step(cfg, w, e).db.sessions, Noted(cfg, p, w, e), e.now, cfg.sampleRetention)
  {
    if PurgeFires(w, e) {
      PurgedSessions(cfg, w, e, clock);
      StepPurges(cfg, w, e, clock, p, Step(cfg, w, e).db.sessions);
    } else if Observed(cfg, w, e) != [] {
      StepObserves(cfg, w, e, clock, p);
    } else {
      StepUnobserved(cfg, w, e, clock, p);
    }
  }

  /**
   * Run-length grouping, with crashes, restarts, clean exits and purges interleaved: the
   * table is the maximal runs of the observed history, in order under consecutive ids, less
   * the runs that purges have dropped, which `PastOf` determines from when they fired.
   */
  lemma {:induction false} RunGroups(cfg: Config, w: World, clock: int, events: seq<Event>, p: Past)
    requires ValidRun(cfg, w, clock, events) && Inv(w, clock)
    requires Groups(w.db.sessions, p, clock, cfg.sampleRetention)
    ensures Groups(Run(cfg, w, clock, events).db.sessions, PastOf(cfg, w, clock, events, p),
                   EndClock(clock, events), cfg.sampleRetention)
    decreases |events|
  {
    if events != [] {
      var e := events[0];
      StepGroups(cfg, w, e, clock, p);
      StepIsSound(cfg, w, e, clock);
      StepWatches(cfg, w, e);
      RunGroups(cfg, Step(cfg, w, e), e.now, events[1..], Noted(cfg, p, w, e));
    }
  }

  /**
   * What is in the table after purges with these cutoffs. Before any purge the sessions are
   * exactly the maximal runs, with ids from 1. After one they are exactly the maximal runs
   * that had not expired at the last purge's cutoff.
   */
  ghost predicate Survivors(
    sessions: Sessions, runs: seq<Session>, kept: Kept, cutoffs: seq<int>, sampleRetention: int)
  {
    && Represents(sessions, runs, kept.dropped, kept.epoch)
    && (cutoffs == [] ==> kept.dropped == 0 && kept.epoch == 0)
    && (cutoffs != [] && sampleRetention >= 0 ==>
          forall k :: 0 <= k < |runs| ==>
            (k < kept.dropped
             <==> runs[k].endedAt.Some? && runs[k].endedAt.value < cutoffs[|cutoffs| - 1]))
  }

  lemma GroupsSurvive(
    sessions: Sessions, p: Past, clock: int, sampleRetention: int, cutoffs: seq<int>, h: History)
    requires Groups(sessions, p, clock, sampleRetention) && p.history == h
    requires p.kept.cutoff == if cutoffs == [] then None else Some(cutoffs[|cutoffs| - 1])
    ensures Survivors(sessions, Runs(h), p.kept, cutoffs, sampleRetention)
  {
  }

  /** The grouping theorem from an empty database, with no assumption but a valid run. */
  lemma RunGroupsFromEmpty(cfg: Config, clock: int, events: seq<Event>)
    requires ValidRun(cfg, World(EMPTY, None), clock, events)
    ensures Survivors(Run(cfg, World(EMPTY, None), clock, events).db.sessions,
                      Runs(Observations(cfg, World(EMPTY, None), clock, events)),
                      PastOf(cfg, World(EMPTY, None), clock, events, NOTHING).kept,
                      Cutoffs(cfg, World(EMPTY, None), clock, events), cfg.sampleRetention)
  {
    var w := World(EMPTY, None);
    var p := PastOf(cfg, w, clock, events, NOTHING);
    RunGroups(cfg, w, clock, events, NOTHING);
    PastIsObserved(cfg, w, clock, events, NOTHING);
    GroupsSurvive(Run(cfg, w, clock, events).db.sessions, p, EndClock(clock, events), cfg.sampleRetention,
                  Cutoffs(cfg, w, clock, events), Observations(cfg, w, clock, events));
  }

  /** Id order is start order, and sessions never overlap, even though ids are reused. */
  lemma IdsFollowTime(cfg: Config, clock: int, events: seq<Event>)
    requires ValidRun(cfg, World(EMPTY, None), clock, events)
    ensures var sessions := Run(cfg, World(EMPTY, None), clock, events).db.sessions;
            forall i, j :: i in sessions && j in sessions && i < j ==>
              sessions[i].endedAt.Some? && sessions[i].endedAt.value <= sessions[j].startedAt
  {
    RunGroups(cfg, World(EMPTY, None), clock, events, NOTHING);
    var p := PastOf(cfg, World(EMPTY, None), clock, events, NOTHING);
    var end := EndClock(clock, events);
    RunsInOrder(p.history, end);
    TableInOrder(Run(cfg, World(EMPTY, None), clock, events).db.sessions,
                 Runs(p.history), Current(p.history), end, p.kept.dropped, p.kept.epoch);
  }

  lemma TableInOrder(
    sessions: Sessions, runs: seq<Session>, current: Option<Identity>, clock: int, dropped: nat, epoch: nat)
    requires Represents(sessions, runs, dropped, epoch) && InOrder(runs, current, clock)
    ensures forall i, j :: i in sessions && j in sessions && i < j ==>
              sessions[i].endedAt.Some? && sessions[i].endedAt.value <= sessions[j].startedAt
  {
    forall i, j | i in sessions && j in sessions && i < j
      ensures sessions[i].endedAt.Some? && sessions[i].endedAt.value <= sessions[j].startedAt
    {
      assert sessions[i] == runs[i - 1 + epoch];
      assert sessions[j] == runs[j - 1 + epoch];
    }
  }

  /** A crash and a restart change no session, and recovery rebuilds what the watcher knew. */
  lemma RestartRecovers(cfg: Config, w: World, crash: int, start: int)
    requires w.mem.Some? && Watching(w.db.sessions, w.mem.value)
    ensures var after := Step(cfg, Step(cfg, w, Crash(crash)), Start(start));
            && after.db == w.db
            && after.mem.value.held == w.mem.value.held
  {
    NoOrphans(w.db.sessions, start);
  }
}
