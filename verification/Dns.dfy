/**
 * appband/dns_cache.py: the resolver that drains the lookup queue one address at a time,
 * while retention purges the cache it decides by.
 */
module Dns {
  import opened Basics
  import opened Database

  const FAILURE_RETRY_SEC := 24 * 3600
  const SUCCESS_RETRY_SEC := 90 * 24 * 3600

  /** How long an answer is good for. */
  function RetryAfter(entry: DnsEntry): int {
    if entry.hostname.Some? then SUCCESS_RETRY_SEC else FAILURE_RETRY_SEC
  }

  predicate ShouldLookup(cache: DnsCache, ip: string, now: int) {
    ip !in cache || now - cache[ip].resolvedAt > RetryAfter(cache[ip])
  }

  /** An address taken off the queue, with the answer a lookup would get, or a purge. */
  datatype Job = Dequeue(ip: string, answer: Option<string>, now: int) | Purge(now: int)

  datatype Lookup = Lookup(ip: string, answer: Option<string>, at: int)

  function AfterJob(cache: DnsCache, job: Job, retention: int): DnsCache {
    match job
    case Dequeue(ip, answer, now) =>
      if ShouldLookup(cache, ip, now) then cache[ip := DnsEntry(answer, now)] else cache
    case Purge(now) => DnsSince(cache, now - retention)
  }

  function LookupsOf(cache: DnsCache, job: Job): seq<Lookup> {
    if job.Dequeue? && ShouldLookup(cache, job.ip, job.now) then [Lookup(job.ip, job.answer, job.now)] else []
  }

  function CacheAfter(cache: DnsCache, jobs: seq<Job>, retention: int): DnsCache {
    if jobs == [] then cache
    else AfterJob(CacheAfter(cache, jobs[..|jobs| - 1], retention), jobs[|jobs| - 1], retention)
  }

  /** The lookups a sequence of jobs performs, in order. */
  function Lookups(cache: DnsCache, jobs: seq<Job>, retention: int): seq<Lookup> {
    if jobs == [] then []
    else
      var before := jobs[..|jobs| - 1];
      Lookups(cache, before, retention) + LookupsOf(CacheAfter(cache, before, retention), jobs[|jobs| - 1])
  }

  lemma OneMoreJob(cache: DnsCache, jobs: seq<Job>, job: Job, retention: int)
    ensures CacheAfter(cache, jobs + [job], retention) == AfterJob(CacheAfter(cache, jobs, retention), job, retention)
    ensures Lookups(cache, jobs + [job], retention)
         == Lookups(cache, jobs, retention) + LookupsOf(CacheAfter(cache, jobs, retention), job)
    ensures WithoutPurges(jobs + [job]) == WithoutPurges(jobs) + if job.Purge? then [] else [job]
  {
    assert (jobs + [job])[..|jobs|] == jobs;
  }

  lemma OneJob(cache: DnsCache, job: Job, retention: int)
    ensures CacheAfter(cache, [job], retention) == AfterJob(cache, job, retention)
    ensures Lookups(cache, [job], retention) == LookupsOf(cache, job)
  {
    assert [job][..0] == [];
  }

  class DnsResolver {
    const conn: Store

    constructor (conn: Store)
      ensures this.conn == conn
    {
      this.conn := conn;
    }

    /** A failed lookup is cached too, without a name. */
    method ResolveOne(ip: string, answer: Option<string>, now: int)
      modifies conn`dns
      ensures conn.dns == old(conn.dns)[ip := DnsEntry(answer, now)]
    {
      conn.UpsertDns(ip, answer, now);
    }

    /** The body of run_forever's loop. */
    method Serve(ip: string, answer: Option<string>, now: int) returns (log: seq<Lookup>)
      modifies conn`dns
      ensures forall retention :: conn.dns == AfterJob(old(conn.dns), Dequeue(ip, answer, now), retention)
      ensures log == LookupsOf(old(conn.dns), Dequeue(ip, answer, now))
    {
      log := [];
      if ShouldLookup(conn.dns, ip, now) {
        ResolveOne(ip, answer, now);
        log := [Lookup(ip, answer, now)];
      }
    }

    /** run_forever on a finite prefix of its queue, with the purges that fall in between. */
    method Drain(jobs: seq<Job>, retention: int) returns (log: seq<Lookup>)
      modifies conn`dns
      ensures conn.dns == CacheAfter(old(conn.dns), jobs, retention)
      ensures log == Lookups(old(conn.dns), jobs, retention)
    {
      log := [];
      for i := 0 to |jobs|
        invariant conn.dns == CacheAfter(old(conn.dns), jobs[..i], retention)
        invariant log == Lookups(old(conn.dns), jobs[..i], retention)
      {
        assert jobs[..i + 1][..i] == jobs[..i];
        match jobs[i] {
          case Dequeue(ip, answer, now) =>
            var looked := Serve(ip, answer, now);
            log := log + looked;
          case Purge(now) =>
            conn.dns := DnsSince(conn.dns, now - retention);
        }
      }
      assert jobs[..|jobs|] == jobs;
    }
  }

  ghost predicate Ordered(jobs: seq<Job>) {
    forall i, j :: 0 <= i < j < |jobs| ==> jobs[i].now <= jobs[j].now
  }

  // ---------------------------------------------------------------------------------
  // Throttling.

  function Min(a: int, b: int): int {
    if a <= b then a else b
  }

  /** The wait a lookup's answer imposes on the next lookup of its address. */
  function Wait(l: Lookup, retention: int): int {
    Min(retention, if l.answer.Some? then SUCCESS_RETRY_SEC else FAILURE_RETRY_SEC)
  }

  /** The i-th lookup is the last one of its address. */
  ghost predicate Latest(log: seq<Lookup>, i: nat) {
    i < |log| && forall k :: i < k < |log| ==> log[k].ip != log[i].ip
  }

  /**
   * The last lookup of each address is in the cache with its time and answer, unless it is
   * longer ago than the retention.
   */
  ghost predicate Remembers(cache: DnsCache, log: seq<Lookup>, clock: int, retention: int) {
    forall i :: 0 <= i < |log| && Latest(log, i) ==> Remembered(cache, log[i], clock, retention)
  }

  predicate Remembered(cache: DnsCache, l: Lookup, clock: int, retention: int) {
    clock - l.at > retention || (l.ip in cache && cache[l.ip] == DnsEntry(l.answer, l.at))
  }

  /** Two lookups of one address with none in between. */
  ghost predicate Successive(log: seq<Lookup>, i: nat, j: nat) {
    i < j < |log| && log[i].ip == log[j].ip && forall k :: i < k < j ==> log[k].ip != log[i].ip
  }

  ghost predicate Spaced(log: seq<Lookup>, retention: int) {
    forall i, j :: 0 <= i < j < |log| && Successive(log, i, j) ==> log[j].at - log[i].at > Wait(log[i], retention)
  }

  /** A remembered address is looked up again only once its wait is over. */
  lemma DueIsSpaced(cache: DnsCache, last: Lookup, clock: int, now: int, retention: int)
    requires Remembered(cache, last, clock, retention) && clock <= now && ShouldLookup(cache, last.ip, now)
    ensures now - last.at > Wait(last, retention)
  {
  }

  lemma SpacedGrows(log: seq<Lookup>, l: Lookup, retention: int)
    requires Spaced(log, retention)
    requires forall i :: 0 <= i < |log| && Latest(log, i) && log[i].ip == l.ip ==>
               l.at - log[i].at > Wait(log[i], retention)
    ensures Spaced(log + [l], retention)
  {
    var after := log + [l];
    forall i, j | 0 <= i < j < |after| && Successive(after, i, j)
      ensures after[j].at - after[i].at > Wait(after[i], retention)
    {
      assert forall k :: i < k < |log| ==> after[k] == log[k];
      if j < |log| {
        assert Successive(log, i, j);
      } else {
        assert Latest(log, i);
      }
    }
  }

  lemma RemembersNew(cache: DnsCache, log: seq<Lookup>, clock: int, l: Lookup, retention: int)
    requires Remembers(cache, log, clock, retention) && clock <= l.at
    ensures Remembers(cache[l.ip := DnsEntry(l.answer, l.at)], log + [l], l.at, retention)
  {
    var after := log + [l];
    forall i | 0 <= i < |after| && Latest(after, i)
      ensures Remembered(cache[l.ip := DnsEntry(l.answer, l.at)], after[i], l.at, retention)
    {
      if i < |log| {
        assert after[|log|] == l && after[|log|].ip != after[i].ip;
        assert forall k :: i < k < |log| ==> after[k] == log[k];
        assert Latest(log, i);
      }
    }
  }

  lemma RemembersLater(cache: DnsCache, log: seq<Lookup>, clock: int, now: int, retention: int)
    requires Remembers(cache, log, clock, retention) && clock <= now
    ensures Remembers(cache, log, now, retention)
    ensures Remembers(DnsSince(cache, now - retention), log, now, retention)
  {
  }

  lemma JobKeepsSpacing(cache: DnsCache, log: seq<Lookup>, clock: int, job: Job, retention: int)
    requires Remembers(cache, log, clock, retention) && Spaced(log, retention) && clock <= job.now
    ensures Remembers(AfterJob(cache, job, retention), log + LookupsOf(cache, job), job.now, retention)
    ensures Spaced(log + LookupsOf(cache, job), retention)
  {
    if LookupsOf(cache, job) == [] {
      assert log + [] == log;
      RemembersLater(cache, log, clock, job.now, retention);
    } else {
      forall i | 0 <= i < |log| && Latest(log, i) && log[i].ip == job.ip
        ensures job.now - log[i].at > Wait(log[i], retention)
      {
        DueIsSpaced(cache, log[i], clock, job.now, retention);
      }
      var l := Lookup(job.ip, job.answer, job.now);
      SpacedGrows(log, l, retention);
      RemembersNew(cache, log, clock, l, retention);
    }
  }

  /**
   * Throttling survives purging. In any interleaving of queued addresses, repeated ones
   * included, and purges, on any cache, two successive lookups of one address are further
   * apart than the wait its last answer imposes, unless the cache forgets even sooner.
   */
  lemma {:induction false} DrainSpaces(cache: DnsCache, jobs: seq<Job>, retention: int)
    requires Ordered(jobs)
    ensures Spaced(Lookups(cache, jobs, retention), retention)
    ensures jobs != [] ==>
              Remembers(CacheAfter(cache, jobs, retention), Lookups(cache, jobs, retention),
                        jobs[|jobs| - 1].now, retention)
  {
    if jobs != [] {
      var n := |jobs| - 1;
      DrainSpaces(cache, jobs[..n], retention);
      var clock := if n == 0 then jobs[n].now else jobs[n - 1].now;
      JobKeepsSpacing(CacheAfter(cache, jobs[..n], retention), Lookups(cache, jobs[..n], retention),
                      clock, jobs[n], retention);
    }
  }

  // ---------------------------------------------------------------------------------
  // Throttling ends.

  /** An address is due when it is not cached, a day after a failure, and ninety days after a name. */
  lemma DueIff(cache: DnsCache, ip: string, now: int)
    ensures ShouldLookup(cache, ip, now) <==>
              || ip !in cache
              || (cache[ip].hostname.None? && now - cache[ip].resolvedAt > 86400)
              || (cache[ip].hostname.Some? && now - cache[ip].resolvedAt > 7776000)
  {
  }

  /** What is cached of an address that was looked up is its last lookup. */
  ghost predicate Echoes(cache: DnsCache, log: seq<Lookup>) {
    forall i :: 0 <= i < |log| && Latest(log, i) && log[i].ip in cache ==>
      cache[log[i].ip] == DnsEntry(log[i].answer, log[i].at)
  }

  lemma EchoesNew(cache: DnsCache, log: seq<Lookup>, l: Lookup)
    requires Echoes(cache, log)
    ensures Echoes(cache[l.ip := DnsEntry(l.answer, l.at)], log + [l])
  {
    var after := log + [l];
    forall i | 0 <= i < |after| && Latest(after, i) && after[i].ip in cache[l.ip := DnsEntry(l.answer, l.at)]
      ensures cache[l.ip := DnsEntry(l.answer, l.at)][after[i].ip] == DnsEntry(after[i].answer, after[i].at)
    {
      if i < |log| {
        assert after[|log|] == l && after[|log|].ip != after[i].ip;
        assert forall k :: i < k < |log| ==> after[k] == log[k];
        assert Latest(log, i);
      }
    }
  }

  lemma {:induction false} DrainEchoes(cache: DnsCache, jobs: seq<Job>, retention: int)
    ensures Echoes(CacheAfter(cache, jobs, retention), Lookups(cache, jobs, retention))
  {
    if jobs != [] {
      var before, job := jobs[..|jobs| - 1], jobs[|jobs| - 1];
      var after, log := CacheAfter(cache, before, retention), Lookups(cache, before, retention);
      DrainEchoes(cache, before, retention);
      if LookupsOf(after, job) == [] {
        assert log + [] == log;
      } else {
        EchoesNew(after, log, Lookup(job.ip, job.answer, job.now));
      }
    }
  }

  /**
   * Throttling is not forever. Whatever happened before, purges included, an address that
   * comes up again is looked up if its last lookup failed more than a day ago, or found a
   * name more than ninety days ago.
   */
  lemma LookedUpAgain(cache: DnsCache, jobs: seq<Job>, retention: int, i: nat, ip: string, now: int)
    requires var log := Lookups(cache, jobs, retention);
             && Latest(log, i) && log[i].ip == ip
             && now - log[i].at > (if log[i].answer.Some? then 7776000 else 86400)
    ensures ShouldLookup(CacheAfter(cache, jobs, retention), ip, now)
  {
    DrainEchoes(cache, jobs, retention);
  }

  // ---------------------------------------------------------------------------------
  // A purge with enough retention is invisible.

  function WithoutPurges(jobs: seq<Job>): seq<Job> {
    if jobs == [] then []
    else
      var last := jobs[|jobs| - 1];
      WithoutPurges(jobs[..|jobs| - 1]) + if last.Purge? then [] else [last]
  }

  /** The purged cache lacks only entries that are due anyway. */
  ghost predicate SameDue(purged: DnsCache, kept: DnsCache, clock: int) {
    && (forall ip :: ip in purged ==> ip in kept && kept[ip] == purged[ip])
    && (forall ip :: ip in kept && ip !in purged ==> clock - kept[ip].resolvedAt > SUCCESS_RETRY_SEC)
  }

  lemma PurgeKeepsDue(purged: DnsCache, kept: DnsCache, clock: int, now: int, retention: int)
    requires SameDue(purged, kept, clock) && clock <= now && retention >= SUCCESS_RETRY_SEC
    ensures SameDue(AfterJob(purged, Purge(now), retention), kept, now)
  {
  }

  lemma DequeueKeepsDue(purged: DnsCache, kept: DnsCache, clock: int, job: Job, retention: int)
    requires job.Dequeue? && SameDue(purged, kept, clock) && clock <= job.now
    ensures SameDue(AfterJob(purged, job, retention), AfterJob(kept, job, retention), job.now)
    ensures LookupsOf(purged, job) == LookupsOf(kept, job)
  {
  }

  /** With and without its purges a run has looked up the same, and its cache has the same due. */
  ghost predicate Alike(cache: DnsCache, jobs: seq<Job>, clock: int, retention: int) {
    && Lookups(cache, jobs, retention) == Lookups(cache, WithoutPurges(jobs), retention)
    && SameDue(CacheAfter(cache, jobs, retention), CacheAfter(cache, WithoutPurges(jobs), retention), clock)
  }

  lemma PurgeStaysAlike(cache: DnsCache, jobs: seq<Job>, clock: int, now: int, retention: int)
    requires Alike(cache, jobs, clock, retention) && clock <= now && retention >= SUCCESS_RETRY_SEC
    ensures Alike(cache, jobs + [Purge(now)], now, retention)
  {
    OneMoreJob(cache, jobs, Purge(now), retention);
    assert WithoutPurges(jobs) + [] == WithoutPurges(jobs);
    PurgeKeepsDue(CacheAfter(cache, jobs, retention), CacheAfter(cache, WithoutPurges(jobs), retention),
                  clock, now, retention);
  }

  lemma DequeueStaysAlike(cache: DnsCache, jobs: seq<Job>, clock: int, job: Job, retention: int)
    requires Alike(cache, jobs, clock, retention) && clock <= job.now && job.Dequeue?
    ensures Alike(cache, jobs + [job], job.now, retention)
  {
    OneMoreJob(cache, jobs, job, retention);
    OneMoreJob(cache, WithoutPurges(jobs), job, retention);
    DequeueKeepsDue(CacheAfter(cache, jobs, retention), CacheAfter(cache, WithoutPurges(jobs), retention),
                    clock, job, retention);
  }

  lemma {:induction false} PurgesChangeNothing(cache: DnsCache, jobs: seq<Job>, retention: int)
    requires Ordered(jobs) && retention >= SUCCESS_RETRY_SEC
    ensures Alike(cache, jobs, if jobs == [] then 0 else jobs[|jobs| - 1].now, retention)
  {
    if jobs != [] {
      var n := |jobs| - 1;
      PurgesChangeNothing(cache, jobs[..n], retention);
      var clock := if n == 0 then jobs[n].now else jobs[n - 1].now;
      assert Alike(cache, jobs[..n], clock, retention);
      assert jobs == jobs[..n] + [jobs[n]];
      if jobs[n].Purge? {
        PurgeStaysAlike(cache, jobs[..n], clock, jobs[n].now, retention);
      } else {
        DequeueStaysAlike(cache, jobs[..n], clock, jobs[n], retention);
      }
    }
  }

  /**
   * Throttling survives purging exactly when the cache is kept for ninety days: the
   * lookups of every run are those of the same run without its purges.
   */
  lemma PurgesInvisibleIff(retention: int)
    ensures (forall cache, jobs ::
               Ordered(jobs) ==> Lookups(cache, jobs, retention) == Lookups(cache, WithoutPurges(jobs), retention))
       <==> retention >= SUCCESS_RETRY_SEC
  {
    if retention >= SUCCESS_RETRY_SEC {
      forall cache, jobs | Ordered(jobs)
        ensures Lookups(cache, jobs, retention) == Lookups(cache, WithoutPurges(jobs), retention)
      {
        PurgesChangeNothing(cache, jobs, retention);
      }
    } else {
      EarlyPurgeCausesLookup(retention);
    }
  }

  /** A name resolved ninety days ago is not due yet, but a purge just before makes it so. */
  lemma EarlyPurge(cache: DnsCache, purge: Job, again: Job, retention: int)
    requires retention < SUCCESS_RETRY_SEC && cache == map["1.1.1.1" := DnsEntry(Some("one"), 0)]
    requires purge == Purge(SUCCESS_RETRY_SEC) && again == Dequeue("1.1.1.1", Some("one"), SUCCESS_RETRY_SEC)
    ensures LookupsOf(cache, again) == []
    ensures |LookupsOf(AfterJob(cache, purge, retention), again)| == 1
  {
  }

  lemma EarlyPurgeCausesLookup(retention: int)
    requires retention < SUCCESS_RETRY_SEC
    ensures exists cache, jobs ::
              Ordered(jobs) && Lookups(cache, jobs, retention) != Lookups(cache, WithoutPurges(jobs), retention)
  {
    var cache: DnsCache := map["1.1.1.1" := DnsEntry(Some("one"), 0)];
    var again := Dequeue("1.1.1.1", Some("one"), SUCCESS_RETRY_SEC);
    var purge := Purge(SUCCESS_RETRY_SEC);
    var jobs := [purge] + [again];
    EarlyPurge(cache, purge, again, retention);
    assert WithoutPurges(jobs) == [again] by {
      OneMoreJob(cache, [], purge, retention);
      assert [] + [purge] == [purge];
      OneMoreJob(cache, [purge], again, retention);
    }
    OneJob(cache, again, retention);
    assert |Lookups(cache, jobs, retention)| >= 1 by {
      OneJob(cache, purge, retention);
      OneMoreJob(cache, [purge], again, retention);
    }
    assert Ordered(jobs);
  }
}
