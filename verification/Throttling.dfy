/**
 * DNS throttling over whole runs of the collector: queued addresses, daily purges, crashes
 * and restarts interleave as they may, and lookups of one address stay apart.
 */
module Throttling {
  import opened Basics
  import opened Database
  import opened Collector
  import opened Integrity
  import Dns

  /** A queued address is served as it comes; a retention tick purges only when it fires. */
  function JobOf(w: World, e: Event): seq<Dns.Job>
    requires Enabled(w, e)
  {
    match e
    case DnsDequeue(ip, answer, now) => [Dns.Dequeue(ip, answer, now)]
    case RetentionPoll(now) => if now - w.mem.value.lastPurge >= PURGE_EVERY_SEC then [Dns.Purge(now)] else []
    case _ => []
  }

  /** What the DNS cache goes through along a run. */
  ghost function JobsOf(cfg: Config, w: World, clock: int, events: seq<Event>): seq<Dns.Job>
    requires ValidRun(cfg, w, clock, events)
    decreases |events|
  {
    if events == [] then []
    else JobOf(w, events[0]) + JobsOf(cfg, Step(cfg, w, events[0]), events[0].now, events[1..])
  }

  /** Nothing but queued addresses and purges touches the cache, and no purge stops before it. */
  lemma StepMovesCache(cfg: Config, w: World, e: Event, clock: int)
    requires Enabled(w, e) && Sound(w.db, clock)
    ensures JobOf(w, e) == [] ==> Step(cfg, w, e).db.dns == w.db.dns
    ensures JobOf(w, e) != [] ==> Step(cfg, w, e).db.dns == Dns.AfterJob(w.db.dns, JobOf(w, e)[0], cfg.dnsRetention)
  {
    if e.RetentionPoll? {
      PurgeNeverRefused(w.db, clock, e.now - cfg.sampleRetention);
    }
  }

  lemma StepOfCache(cfg: Config, w: World, e: Event, clock: int)
    requires Enabled(w, e) && Sound(w.db, clock)
    ensures Step(cfg, w, e).db.dns == Dns.CacheAfter(w.db.dns, JobOf(w, e), cfg.dnsRetention)
  {
    StepMovesCache(cfg, w, e, clock);
    var jobs := JobOf(w, e);
    if jobs != [] {
      Dns.OneJob(w.db.dns, jobs[0], cfg.dnsRetention);
      SingleJob(w, e);
    }
  }

  lemma {:induction false} CacheJoins(cache: DnsCache, a: seq<Dns.Job>, b: seq<Dns.Job>, retention: int)
    ensures Dns.CacheAfter(cache, a + b, retention) == Dns.CacheAfter(Dns.CacheAfter(cache, a, retention), b, retention)
  {
    if b == [] {
      assert a + b == a;
    } else {
      var n := |b| - 1;
      assert a + b == a + b[..n] + [b[n]] && b == b[..n] + [b[n]];
      Dns.OneMoreJob(cache, a + b[..n], b[n], retention);
      Dns.OneMoreJob(Dns.CacheAfter(cache, a, retention), b[..n], b[n], retention);
      CacheJoins(cache, a, b[..n], retention);
    }
  }

  lemma {:induction false} JobsInOrder(cfg: Config, w: World, clock: int, events: seq<Event>)
    requires ValidRun(cfg, w, clock, events)
    ensures Dns.Ordered(JobsOf(cfg, w, clock, events))
    ensures forall j :: j in JobsOf(cfg, w, clock, events) ==> clock <= j.now
    decreases |events|
  {
    if events != [] {
      JobsInOrder(cfg, Step(cfg, w, events[0]), events[0].now, events[1..]);
      Prepended(JobOf(w, events[0]), JobsOf(cfg, Step(cfg, w, events[0]), events[0].now, events[1..]), events[0].now);
    }
  }

  lemma Prepended(a: seq<Dns.Job>, b: seq<Dns.Job>, now: int)
    requires |a| <= 1 && Dns.Ordered(b)
    requires (forall j :: j in a ==> j.now == now) && (forall j :: j in b ==> now <= j.now)
    ensures Dns.Ordered(a + b)
  {
    forall i, j | 0 <= i < j < |a + b|
      ensures (a + b)[i].now <= (a + b)[j].now
    {
      assert (a + b)[j] == b[j - |a|];
      if i >= |a| {
        assert (a + b)[i] == b[i - |a|];
      }
    }
  }

  /** The lookups a run performs, in order, each decided on the cache stored at its time. */
  ghost function LookupsOfRun(cfg: Config, w: World, clock: int, events: seq<Event>): seq<Dns.Lookup>
    requires ValidRun(cfg, w, clock, events)
    decreases |events|
  {
    if events == [] then []
    else
      var e := events[0];
      LookupsAt(w, e) + LookupsOfRun(cfg, Step(cfg, w, e), e.now, events[1..])
  }

  function LookupsAt(w: World, e: Event): seq<Dns.Lookup>
    requires Enabled(w, e)
  {
    if JobOf(w, e) == [] then [] else Dns.LookupsOf(w.db.dns, JobOf(w, e)[0])
  }

  lemma {:induction false} LookupsJoin(cache: DnsCache, a: seq<Dns.Job>, b: seq<Dns.Job>, retention: int)
    ensures Dns.Lookups(cache, a + b, retention)
         == Dns.Lookups(cache, a, retention) + Dns.Lookups(Dns.CacheAfter(cache, a, retention), b, retention)
  {
    if b == [] {
      assert a + b == a;
    } else {
      var n := |b| - 1;
      var after := Dns.CacheAfter(cache, a, retention);
      assert a + b == a + b[..n] + [b[n]] && b == b[..n] + [b[n]];
      Dns.OneMoreJob(cache, a + b[..n], b[n], retention);
      Dns.OneMoreJob(after, b[..n], b[n], retention);
      CacheJoins(cache, a, b[..n], retention);
      LookupsJoin(cache, a, b[..n], retention);
      Associate(Dns.Lookups(cache, a, retention), Dns.Lookups(after, b[..n], retention),
                Dns.LookupsOf(Dns.CacheAfter(after, b[..n], retention), b[n]));
    }
  }

  lemma SingleJob(w: World, e: Event)
    requires Enabled(w, e)
    ensures JobOf(w, e) == [] || JobOf(w, e) == [JobOf(w, e)[0]]
  {
  }

  lemma LookupsOfJob(w: World, e: Event, retention: int)
    requires Enabled(w, e)
    ensures Dns.Lookups(w.db.dns, JobOf(w, e), retention) == LookupsAt(w, e)
  {
    SingleJob(w, e);
    if JobOf(w, e) != [] {
      Dns.OneJob(w.db.dns, JobOf(w, e)[0], retention);
    }
  }

  /** The lookups of a run are those of its queue and purges, taken by themselves. */
  lemma {:induction false} RunOfLookups(cfg: Config, w: World, clock: int, events: seq<Event>)
    requires ValidRun(cfg, w, clock, events) && Inv(w, clock)
    ensures LookupsOfRun(cfg, w, clock, events)
         == Dns.Lookups(w.db.dns, JobsOf(cfg, w, clock, events), cfg.dnsRetention)
    decreases |events|
  {
    if events != [] {
      var e, rest := events[0], events[1..];
      var next := Step(cfg, w, e);
      StepOfCache(cfg, w, e, clock);
      StepIsSound(cfg, w, e, clock);
      StepWatches(cfg, w, e);
      RunOfLookups(cfg, next, e.now, rest);
      LookupsOfJob(w, e, cfg.dnsRetention);
      LookupsJoin(w.db.dns, JobOf(w, e), JobsOf(cfg, next, e.now, rest), cfg.dnsRetention);
    }
  }

  lemma SpacedGap(log: seq<Dns.Lookup>, retention: int, i: nat, j: nat)
    requires Dns.Spaced(log, retention) && Dns.Successive(log, i, j)
    ensures retention >= Dns.FAILURE_RETRY_SEC ==> log[j].at - log[i].at > Dns.FAILURE_RETRY_SEC
    ensures retention >= Dns.SUCCESS_RETRY_SEC && log[i].answer.Some? ==> log[j].at - log[i].at > Dns.SUCCESS_RETRY_SEC
  {
    assert log[j].at - log[i].at > Dns.Wait(log[i], retention);
  }

  /**
   * Throttling over runs. Whatever the run, restarts and purges included, two successive
   * lookups of one address are more than 24 hours apart, and more than 90 days after an
   * answer with a name, as long as the cache is kept that long.
   */
  lemma RunSpacesLookups(cfg: Config, w: World, clock: int, events: seq<Event>, i: nat, j: nat)
    requires ValidRun(cfg, w, clock, events) && Inv(w, clock)
    requires Dns.Successive(LookupsOfRun(cfg, w, clock, events), i, j)
    ensures var log := LookupsOfRun(cfg, w, clock, events);
            var gap := log[j].at - log[i].at;
            && (cfg.dnsRetention >= Dns.FAILURE_RETRY_SEC ==> gap > Dns.FAILURE_RETRY_SEC)
            && (cfg.dnsRetention >= Dns.SUCCESS_RETRY_SEC && log[i].answer.Some? ==> gap > Dns.SUCCESS_RETRY_SEC)
  {
    JobsInOrder(cfg, w, clock, events);
    RunOfLookups(cfg, w, clock, events);
    Dns.DrainSpaces(w.db.dns, JobsOf(cfg, w, clock, events), cfg.dnsRetention);
    SpacedGap(LookupsOfRun(cfg, w, clock, events), cfg.dnsRetention, i, j);
  }

  /** With ninety days of DNS retention, purges cause no lookup that was not already due. */
  lemma RunLooksUpOnlyWhatIsDue(cfg: Config, w: World, clock: int, events: seq<Event>)
    requires ValidRun(cfg, w, clock, events) && Inv(w, clock)
    requires cfg.dnsRetention >= Dns.SUCCESS_RETRY_SEC
    ensures LookupsOfRun(cfg, w, clock, events)
         == Dns.Lookups(w.db.dns, Dns.WithoutPurges(JobsOf(cfg, w, clock, events)), cfg.dnsRetention)
  {
    JobsInOrder(cfg, w, clock, events);
    RunOfLookups(cfg, w, clock, events);
    Dns.PurgesChangeNothing(w.db.dns, JobsOf(cfg, w, clock, events), cfg.dnsRetention);
  }

  // ---------------------------------------------------------------------------------
  // Ninety days is also necessary.

  /** Over every run from an empty database, purges cause no lookup. */
  ghost predicate RunPurgesInvisible(dnsRetention: int) {
    forall cfg: Config, clock, events ::
      cfg.dnsRetention == dnsRetention && ValidRun(cfg, World(EMPTY, None), clock, events) ==>
        LookupsOfRun(cfg, World(EMPTY, None), clock, events)
        == Dns.Lookups(map[], Dns.WithoutPurges(JobsOf(cfg, World(EMPTY, None), clock, events)), dnsRetention)
  }

  const NAMED: Dns.Job := Dns.Dequeue("1.1.1.1", Some("one"), 1)
  const LATER: int := 1 + Dns.SUCCESS_RETRY_SEC

  /** A name is resolved, and ninety days later the cache is purged just before the address comes up again. */
  function NinetyDays(): seq<Event> {
    [Start(1)] + ([DnsDequeue("1.1.1.1", Some("one"), 1)]
    + ([RetentionPoll(LATER)] + ([DnsDequeue("1.1.1.1", Some("one"), LATER)] + [])))
  }

  function JobsOfNinetyDays(): seq<Dns.Job> {
    [NAMED] + ([Dns.Purge(LATER)] + ([Dns.Dequeue("1.1.1.1", Some("one"), LATER)] + []))
  }

  lemma FirstJob(cfg: Config, w: World, clock: int, e: Event, rest: seq<Event>)
    requires Enabled(w, e) && clock <= e.now && ValidRun(cfg, Step(cfg, w, e), e.now, rest)
    ensures ValidRun(cfg, w, clock, [e] + rest)
    ensures JobsOf(cfg, w, clock, [e] + rest) == JobOf(w, e) + JobsOf(cfg, Step(cfg, w, e), e.now, rest)
  {
    assert ([e] + rest)[1..] == rest;
  }

  lemma NinetyDaysRun(cfg: Config)
    ensures ValidRun(cfg, World(EMPTY, None), 1, NinetyDays())
    ensures JobsOf(cfg, World(EMPTY, None), 1, NinetyDays()) == JobsOfNinetyDays()
  {
    var e1, e2 := Start(1), DnsDequeue("1.1.1.1", Some("one"), 1);
    var e3, e4 := RetentionPoll(LATER), DnsDequeue("1.1.1.1", Some("one"), LATER);
    var w0 := World(EMPTY, None);
    var w1 := Step(cfg, w0, e1);
    var w2 := Step(cfg, w1, e2);
    var w3 := Step(cfg, w2, e3);
    FirstJob(cfg, w3, LATER, e4, []);
    FirstJob(cfg, w2, 1, e3, [e4] + []);
    FirstJob(cfg, w1, 1, e2, [e3] + ([e4] + []));
    FirstJob(cfg, w0, 1, e1, [e2] + ([e3] + ([e4] + [])));
    assert JobOf(w2, e3) == [Dns.Purge(LATER)];
    assert JobsOf(cfg, Step(cfg, w3, e4), LATER, []) == [];
  }

  /** The name is due again once purged, and only then. */
  lemma PurgeMakesDue(cached: DnsCache, again: Dns.Job, dnsRetention: int)
    requires cached == map["1.1.1.1" := DnsEntry(Some("one"), 1)] && dnsRetention < Dns.SUCCESS_RETRY_SEC
    requires again == Dns.Dequeue("1.1.1.1", Some("one"), LATER)
    ensures Dns.AfterJob(map[], NAMED, dnsRetention) == cached && |Dns.LookupsOf(map[], NAMED)| == 1
    ensures Dns.AfterJob(cached, Dns.Purge(LATER), dnsRetention) == map[]
    ensures Dns.LookupsOf(cached, Dns.Purge(LATER)) == [] && Dns.LookupsOf(cached, again) == []
    ensures |Dns.LookupsOf(map[], again)| == 1
  {
  }

  /** With the purge the address is looked up twice, without it once. */
  lemma NinetyDaysLookups(dnsRetention: int)
    requires dnsRetention < Dns.SUCCESS_RETRY_SEC
    ensures |Dns.Lookups(map[], JobsOfNinetyDays(), dnsRetention)| == 2
    ensures |Dns.Lookups(map[], Dns.WithoutPurges(JobsOfNinetyDays()), dnsRetention)| == 1
  {
    var purge, again := Dns.Purge(LATER), Dns.Dequeue("1.1.1.1", Some("one"), LATER);
    var cached: DnsCache := map["1.1.1.1" := DnsEntry(Some("one"), 1)];
    PurgeMakesDue(cached, again, dnsRetention);
    assert JobsOfNinetyDays() == [NAMED] + [purge] + [again];
    TwoOrThreeJobs(NAMED, purge, again, dnsRetention);
  }

  /** The lookups of three jobs, a purge in the middle, and of the two others alone. */
  lemma TwoOrThreeJobs(first: Dns.Job, purge: Dns.Job, last: Dns.Job, retention: int)
    requires first.Dequeue? && purge.Purge? && last.Dequeue?
    ensures var a := Dns.AfterJob(map[], first, retention);
            var b := Dns.AfterJob(a, purge, retention);
            && Dns.Lookups(map[], [first] + [purge] + [last], retention)
               == Dns.LookupsOf(map[], first) + Dns.LookupsOf(a, purge) + Dns.LookupsOf(b, last)
            && Dns.Lookups(map[], Dns.WithoutPurges([first] + [purge] + [last]), retention)
               == Dns.LookupsOf(map[], first) + Dns.LookupsOf(a, last)
  {
    Dns.OneJob(map[], first, retention);
    Dns.OneMoreJob(map[], [first], purge, retention);
    Dns.OneMoreJob(map[], [first] + [purge], last, retention);
    assert Dns.WithoutPurges([first] + [purge] + [last]) == [first] + [last] by {
      assert [] + [first] == [first];
      Dns.OneMoreJob(map[], [], first, retention);
    }
    Dns.OneMoreJob(map[], [first], last, retention);
  }

  /**
   * Over all runs from an empty database, purges cause no lookup exactly when the cache is
   * kept for ninety days.
   */
  lemma RunPurgesInvisibleIff(dnsRetention: int)
    ensures RunPurgesInvisible(dnsRetention) <==> dnsRetention >= Dns.SUCCESS_RETRY_SEC
  {
    if dnsRetention >= Dns.SUCCESS_RETRY_SEC {
      forall cfg: Config, clock, events |
        cfg.dnsRetention == dnsRetention && ValidRun(cfg, World(EMPTY, None), clock, events)
        ensures LookupsOfRun(cfg, World(EMPTY, None), clock, events)
             == Dns.Lookups(map[], Dns.WithoutPurges(JobsOf(cfg, World(EMPTY, None), clock, events)), dnsRetention)
      {
        RunLooksUpOnlyWhatIsDue(cfg, World(EMPTY, None), clock, events);
      }
    } else if RunPurgesInvisible(dnsRetention) {
      var cfg := Config(1, 1, 1, 1, 1, 1, dnsRetention);
      NinetyDaysRun(cfg);
      RunOfLookups(cfg, World(EMPTY, None), 1, NinetyDays());
      NinetyDaysLookups(dnsRetention);
      assert false;
    }
  }
}
