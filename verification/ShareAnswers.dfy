/**
 * What the approximate reports answer, written out on the rows of the tables: what one host,
 * or one process in one scope, gets of each process sample.
 */
module ShareAnswers {
  import opened Basics
  import opened Database
  import opened Grouping
  import opened Reports
  import opened ExactAnswers
  import opened Attribution
  import opened RealSums

  // ---------------------------------------------------------------------------------
  // Rows in the window, and rows of the same process in the same five minutes.

  /** A row in the window, on the network asked for; with no network asked for, sessions are not looked at. */
  predicate InWindow(
    sessions: Sessions, ts: int, sid: int, from: int, to: int, ssid: Option<string>, linkType: Option<string>)
  {
    from <= ts < to && (Asking(ssid, linkType) ==> sid in sessions && OnAsked(sessions[sid], ssid, linkType))
  }

  lemma InWindowCounts(
    sessions: Sessions, ts: int, sid: int, from: int, to: int, ssid: Option<string>, linkType: Option<string>)
    ensures Counts(sessions, FilterFor(ssid, linkType), ts, sid, from, to)
       <==> InWindow(sessions, ts, sid, from, to, ssid, linkType)
  {
    if sid in sessions {
      AskedIsAdmitted(sessions[sid], ssid, linkType);
    }
  }

  /** Two times in one interval of five minutes. */
  ghost predicate SameFiveMinutes(a: int, b: int) {
    exists key :: key % 300 == 0 && Interval(a, key, 300) && Interval(b, key, 300)
  }

  lemma SameBucket(a: int, b: int)
    ensures SameFiveMinutes(a, b) <==> Bucket(a, 300) == Bucket(b, 300)
  {
    FiveMinutesIff(a, Bucket(a, 300));
    FiveMinutesIff(b, Bucket(a, 300));
    if key :| key % 300 == 0 && Interval(a, key, 300) && Interval(b, key, 300) {
      FiveMinutesIff(a, key);
      FiveMinutesIff(b, key);
    }
  }

  /** A connection in the window, seen of the sample's process in the sample's five minutes. */
  ghost predicate Beside(
    sessions: Sessions, c: Connection, r: ProcessSample, from: int, to: int,
    ssid: Option<string>, linkType: Option<string>)
  {
    && InWindow(sessions, c.ts, c.sid, from, to, ssid, linkType)
    && c.process == r.process && SameFiveMinutes(c.ts, r.ts)
  }

  lemma BesideIsInSlot(
    sessions: Sessions, c: Connection, r: ProcessSample, from: int, to: int,
    ssid: Option<string>, linkType: Option<string>)
    ensures Beside(sessions, c, r, from, to, ssid, linkType)
       <==> && Counts(sessions, FilterFor(ssid, linkType), c.ts, c.sid, from, to)
            && InSlot(c, Slot(r.process, Bucket(r.ts, BUCKET)))
  {
    InWindowCounts(sessions, c.ts, c.sid, from, to, ssid, linkType);
    SameBucket(c.ts, r.ts);
  }

  lemma {:induction false} SightingsAre(conns: seq<Connection>, sessions: Sessions, f: NetFilter, from: int, to: int)
    ensures forall c :: c in Choose(conns, SightingIn(sessions, f, from, to)) <==>
              c in conns && Counts(sessions, f, c.ts, c.sid, from, to)
  {
    if conns != [] {
      var n := |conns| - 1;
      SightingsAre(conns[..n], sessions, f, from, to);
      assert conns == conns[..n] + [conns[n]];
    }
  }

  // ---------------------------------------------------------------------------------
  // A part of each charge, added up: grouping changes nothing.

  function SumParts<K>(charges: seq<Charge<K>>, part: Charge<K> -> real): real {
    if charges == [] then 0.0 else part(charges[0]) + SumParts(charges[1..], part)
  }

  ghost predicate Additive<K(!new)>(part: Charge<K> -> real) {
    forall k, a, b :: part(Charge(k, Plus(a, b))) == part(Charge(k, a)) + part(Charge(k, b))
  }

  lemma {:induction false} InsertAddsPart<K(!new)>(
    groups: seq<Charge<K>>, c: Charge<K>, before: (K, K) -> bool, part: Charge<K> -> real)
    requires Additive(part)
    ensures SumParts(Insert(groups, c, before), part) == SumParts(groups, part) + part(c)
  {
    if groups == [] {
      assert [c][1..] == [];
    } else if groups[0].key == c.key {
      var merged := Charge(c.key, Plus(groups[0].bytes, c.bytes));
      assert ([merged] + groups[1..])[1..] == groups[1..];
      assert groups[0] == Charge(c.key, groups[0].bytes) && c == Charge(c.key, c.bytes);
    } else if before(c.key, groups[0].key) {
      assert ([c] + groups)[1..] == groups;
    } else {
      InsertAddsPart(groups[1..], c, before, part);
      var rest := Insert(groups[1..], c, before);
      assert ([groups[0]] + rest)[1..] == rest;
    }
  }

  lemma {:induction false} PartsLast<K>(charges: seq<Charge<K>>, c: Charge<K>, part: Charge<K> -> real)
    ensures SumParts(charges + [c], part) == SumParts(charges, part) + part(c)
  {
    if charges == [] {
      assert [] + [c] == [c] && [c][1..] == [];
    } else {
      assert (charges + [c])[1..] == charges[1..] + [c];
      PartsLast(charges[1..], c, part);
    }
  }

  lemma {:induction false} GroupingKeepsParts<K(!new)>(
    charges: seq<Charge<K>>, before: (K, K) -> bool, part: Charge<K> -> real)
    requires Additive(part)
    ensures SumParts(GroupBy(charges, before), part) == SumParts(charges, part)
  {
    if charges != [] {
      var n := |charges| - 1;
      GroupingKeepsParts(charges[..n], before, part);
      InsertAddsPart(GroupBy(charges[..n], before), charges[n], before, part);
      PartsLast(charges[..n], charges[n], part);
      assert charges == charges[..n] + [charges[n]];
    }
  }

  function PartOfRow(c: Option<Charge<Slot>>, part: Charge<Slot> -> real): real {
    if c.Some? then part(c.value) else 0.0
  }

  /** Parts of the charges of the samples in the window are parts of the samples. */
  lemma {:induction false} PartsOfRows(
    rows: seq<ProcessSample>, sessions: Sessions, f: NetFilter, from: int, to: int,
    part: Charge<Slot> -> real, share: ProcessSample -> real)
    requires forall r :: r in rows ==> share(r) == PartOfRow(ChargeIn(sessions, f, from, to)(r), part)
    ensures SumParts(Choose(rows, ChargeIn(sessions, f, from, to)), part) == SumReal(rows, share)
  {
    if rows != [] {
      var n := |rows| - 1;
      assert rows[n] in rows && forall r :: r in rows[..n] ==> r in rows;
      PartsOfRows(rows[..n], sessions, f, from, to, part, share);
      var before, last := Choose(rows[..n], ChargeIn(sessions, f, from, to)), ChargeIn(sessions, f, from, to)(rows[n]);
      if last.Some? {
        PartsLast(before, last.value, part);
      } else {
        assert before + [] == before;
      }
    }
  }

  // ---------------------------------------------------------------------------------
  // By domain.

  /** What a host is called: its address' cached name, or its address. */
  function Called(dns: DnsCache, ip: string): string {
    if ip in dns && dns[ip].hostname.Some? then dns[ip].hostname.value else ip
  }

  /** The distinct hosts in scope that a sample's process was connected to in the sample's five minutes. */
  ghost function HostsBeside(
    db: Tables, r: ProcessSample, from: int, to: int, ssid: Option<string>, linkType: Option<string>, scope: string)
    : set<string>
  {
    set c | c in db.conns && Beside(db.sessions, c, r, from, to, ssid, linkType)
            && (scope == "all" || c.scope == Some(scope)) :: Called(db.dns, c.remoteIp)
  }

  /** What a host gets of a sample's bytes: an equal part with every other host beside it. */
  ghost function HostGets(
    db: Tables, r: ProcessSample, from: int, to: int, ssid: Option<string>, linkType: Option<string>, scope: string,
    host: string, bytes: int): real
  {
    var hosts := HostsBeside(db, r, from, to, ssid, linkType, scope);
    if InWindow(db.sessions, r.ts, r.sid, from, to, ssid, linkType) && host in hosts
    then bytes as real / |hosts| as real else 0.0
  }

  ghost function HostBytes(
    db: Tables, from: int, to: int, ssid: Option<string>, linkType: Option<string>, scope: string, host: string,
    d: Direction): ProcessSample -> real
  {
    (r: ProcessSample) =>
      HostGets(db, r, from, to, ssid, linkType, scope, host, if d == In then r.bytesIn else r.bytesOut)
  }

  lemma HostsBesideAreHosts(
    db: Tables, r: ProcessSample, from: int, to: int, ssid: Option<string>, linkType: Option<string>, scope: string)
    ensures var view := View(Sightings(db, FilterFor(ssid, linkType), from, to), db.dns, scope);
            HostsBeside(db, r, from, to, ssid, linkType, scope)
            == view.Hosts(Slot(r.process, Bucket(r.ts, BUCKET)))
  {
    var f := FilterFor(ssid, linkType);
    SightingsAre(db.conns, db.sessions, f, from, to);
    forall c
      ensures Beside(db.sessions, c, r, from, to, ssid, linkType)
         <==> Counts(db.sessions, f, c.ts, c.sid, from, to) && InSlot(c, Slot(r.process, Bucket(r.ts, BUCKET)))
    {
      BesideIsInSlot(db.sessions, c, r, from, to, ssid, linkType);
    }
  }

  function HostPart(view: View, host: string, d: Direction): Charge<Slot> -> real {
    (c: Charge<Slot>) => HostShare(view, c, host, d)
  }

  lemma QuotientAdds(a: real, b: real, n: real)
    requires n > 0.0
    ensures (a + b) / n == a / n + b / n
  {
  }

  lemma HostPartAdds(view: View, host: string, d: Direction)
    ensures Additive(HostPart(view, host, d))
  {
    forall k: Slot, a, b
      ensures HostShare(view, Charge(k, Plus(a, b)), host, d)
           == HostShare(view, Charge(k, a), host, d) + HostShare(view, Charge(k, b), host, d)
    {
      if host in view.Hosts(k) {
        QuotientAdds(Amount(a, d) as real, Amount(b, d) as real, |view.Hosts(k)| as real);
      }
    }
  }

  lemma {:induction false} HostAmountIsParts(view: View, slots: seq<Charge<Slot>>, host: string, d: Direction)
    ensures HostAmount(view, slots, host, d) == SumParts(slots, HostPart(view, host, d))
  {
    if slots != [] {
      HostAmountIsParts(view, slots[1..], host, d);
    }
  }

  /** A host's amount before truncation is what it gets of each process sample. */
  lemma HostAmountOnRows(
    db: Tables, from: int, to: int, ssid: Option<string>, linkType: Option<string>, scope: string, host: string,
    d: Direction)
    ensures var f := FilterFor(ssid, linkType);
            var view := View(Sightings(db, f, from, to), db.dns, scope);
            HostAmount(view, ProcBuckets(ProcessCharges(db, f, from, to)), host, d)
            == SumReal(db.procs, HostBytes(db, from, to, ssid, linkType, scope, host, d))
  {
    var f := FilterFor(ssid, linkType);
    var view := View(Sightings(db, f, from, to), db.dns, scope);
    var charges := ProcessCharges(db, f, from, to);
    HostAmountIsParts(view, ProcBuckets(charges), host, d);
    HostPartAdds(view, host, d);
    GroupingKeepsParts(charges, NoOrder, HostPart(view, host, d));
    var share := HostBytes(db, from, to, ssid, linkType, scope, host, d);
    forall r | r in db.procs
      ensures share(r) == PartOfRow(ChargeIn(db.sessions, f, from, to)(r), HostPart(view, host, d))
    {
      InWindowCounts(db.sessions, r.ts, r.sid, from, to, ssid, linkType);
      HostsBesideAreHosts(db, r, from, to, ssid, linkType, scope);
    }
    PartsOfRows(db.procs, db.sessions, f, from, to, HostPart(view, host, d), share);
  }

  lemma {:induction false} ReportHostsAre(view: View, slots: seq<Charge<Slot>>, host: string)
    ensures host in ReportHosts(view, slots) <==> exists k :: k in Keys(slots) && host in view.Hosts(k)
  {
    if slots != [] {
      ReportHostsAre(view, slots[1..], host);
      assert slots == [slots[0]] + slots[1..];
      assert Keys(slots) == {slots[0].key} + Keys(slots[1..]);
    }
  }

  lemma {:induction false} ChargeKeys(
    rows: seq<ProcessSample>, sessions: Sessions, f: NetFilter, from: int, to: int, k: Slot)
    ensures k in Keys(Choose(rows, ChargeIn(sessions, f, from, to))) <==>
              exists r :: r in rows && Counts(sessions, f, r.ts, r.sid, from, to)
                          && k == Slot(r.process, Bucket(r.ts, BUCKET))
  {
    if rows != [] {
      var n := |rows| - 1;
      var before := Choose(rows[..n], ChargeIn(sessions, f, from, to));
      var last := ChargeIn(sessions, f, from, to)(rows[n]);
      ChargeKeys(rows[..n], sessions, f, from, to, k);
      assert rows == rows[..n] + [rows[n]];
      if last.Some? {
        KeysLast(before, last.value);
      } else {
        assert before + [] == before;
      }
    }
  }

  lemma ByDomainSlots(db: Tables, f: NetFilter, from: int, to: int, scope: string, host: string)
    ensures var view := View(Sightings(db, f, from, to), db.dns, scope);
            host in ByDomain(db, f, from, to, scope)
            <==> exists k :: k in Keys(ProcessCharges(db, f, from, to)) && host in view.Hosts(k)
  {
    var charges := ProcessCharges(db, f, from, to);
    GroupIsSum(charges, NoOrder);
    ReportHostsAre(View(Sightings(db, f, from, to), db.dns, scope), ProcBuckets(charges), host);
  }

  /** A sample of the window with a host beside it, and the slot it is charged to. */
  lemma SlotOfSample(
    db: Tables, r: ProcessSample, from: int, to: int, ssid: Option<string>, linkType: Option<string>, scope: string,
    host: string)
    requires r in db.procs && InWindow(db.sessions, r.ts, r.sid, from, to, ssid, linkType)
    requires host in HostsBeside(db, r, from, to, ssid, linkType, scope)
    ensures var f := FilterFor(ssid, linkType);
            var k := Slot(r.process, Bucket(r.ts, BUCKET));
            && k in Keys(ProcessCharges(db, f, from, to))
            && host in View(Sightings(db, f, from, to), db.dns, scope).Hosts(k)
  {
    InWindowCounts(db.sessions, r.ts, r.sid, from, to, ssid, linkType);
    HostsBesideAreHosts(db, r, from, to, ssid, linkType, scope);
    ChargeKeys(db.procs, db.sessions, FilterFor(ssid, linkType), from, to, Slot(r.process, Bucket(r.ts, BUCKET)));
  }

  lemma SampleOfSlot(
    db: Tables, k: Slot, from: int, to: int, ssid: Option<string>, linkType: Option<string>, scope: string,
    host: string) returns (r: ProcessSample)
    requires k in Keys(ProcessCharges(db, FilterFor(ssid, linkType), from, to))
    requires host in View(Sightings(db, FilterFor(ssid, linkType), from, to), db.dns, scope).Hosts(k)
    ensures r in db.procs && InWindow(db.sessions, r.ts, r.sid, from, to, ssid, linkType)
    ensures host in HostsBeside(db, r, from, to, ssid, linkType, scope)
  {
    var f := FilterFor(ssid, linkType);
    ChargeKeys(db.procs, db.sessions, f, from, to, k);
    r :| r in db.procs && Counts(db.sessions, f, r.ts, r.sid, from, to) && k == Slot(r.process, Bucket(r.ts, BUCKET));
    InWindowCounts(db.sessions, r.ts, r.sid, from, to, ssid, linkType);
    HostsBesideAreHosts(db, r, from, to, ssid, linkType, scope);
  }

  /** The hosts of by-domain are those beside some process sample of the window. */
  lemma ByDomainHosts(
    db: Tables, from: int, to: int, ssid: Option<string>, linkType: Option<string>, scope: string, host: string)
    ensures host in ByDomain(db, FilterFor(ssid, linkType), from, to, scope) <==>
              exists r :: r in db.procs && InWindow(db.sessions, r.ts, r.sid, from, to, ssid, linkType)
                          && host in HostsBeside(db, r, from, to, ssid, linkType, scope)
  {
    var f := FilterFor(ssid, linkType);
    ByDomainSlots(db, f, from, to, scope, host);
    if host in ByDomain(db, f, from, to, scope) {
      var k :| k in Keys(ProcessCharges(db, f, from, to))
               && host in View(Sightings(db, f, from, to), db.dns, scope).Hosts(k);
      var r := SampleOfSlot(db, k, from, to, ssid, linkType, scope, host);
    }
    if r :| r in db.procs && InWindow(db.sessions, r.ts, r.sid, from, to, ssid, linkType)
            && host in HostsBeside(db, r, from, to, ssid, linkType, scope) {
      SlotOfSample(db, r, from, to, ssid, linkType, scope, host);
    }
  }

  /**
   * By-domain, on the tables: each process sample in the window is split equally over the
   * distinct hosts in scope that its process was connected to in its five minutes. A host
   * beside some sample has a row, which shows all it gets, cut to an integer once in each
   * direction.
   */
  lemma ByDomainAnswer(
    db: Tables, from: int, to: int, ssid: Option<string>, linkType: Option<string>, scope: string, host: string)
    ensures var report := ByDomain(db, FilterFor(ssid, linkType), from, to, scope);
            && (host in report <==>
                  exists r :: r in db.procs && InWindow(db.sessions, r.ts, r.sid, from, to, ssid, linkType)
                              && host in HostsBeside(db, r, from, to, ssid, linkType, scope))
            && (host in report ==>
                  report[host] == Bytes(
                    Truncate(SumReal(db.procs, HostBytes(db, from, to, ssid, linkType, scope, host, In))),
                    Truncate(SumReal(db.procs, HostBytes(db, from, to, ssid, linkType, scope, host, Out)))))
  {
    ByDomainHosts(db, from, to, ssid, linkType, scope, host);
    HostAmountOnRows(db, from, to, ssid, linkType, scope, host, In);
    HostAmountOnRows(db, from, to, ssid, linkType, scope, host, Out);
  }

  /** Any two hosts beside a sample get the same of it, and a host that is not gets nothing. */
  lemma HostsShareEqually(
    db: Tables, r: ProcessSample, from: int, to: int, ssid: Option<string>, linkType: Option<string>, scope: string,
    a: string, b: string, d: Direction)
    requires a in HostsBeside(db, r, from, to, ssid, linkType, scope)
    ensures var hosts := HostsBeside(db, r, from, to, ssid, linkType, scope);
            var getsA := HostBytes(db, from, to, ssid, linkType, scope, a, d)(r);
            var getsB := HostBytes(db, from, to, ssid, linkType, scope, b, d)(r);
            getsB == if b in hosts then getsA else 0.0
  {
  }

  // ---------------------------------------------------------------------------------
  // By process.

  /** The connections beside a sample that were classified as in a scope, and all that were classified. */
  ghost function InScopeBeside(
    db: Tables, r: ProcessSample, from: int, to: int, ssid: Option<string>, linkType: Option<string>, scope: string)
    : Connection -> bool
  {
    (c: Connection) => Beside(db.sessions, c, r, from, to, ssid, linkType) && c.scope == Some(scope)
  }

  ghost function ClassifiedBeside(
    db: Tables, r: ProcessSample, from: int, to: int, ssid: Option<string>, linkType: Option<string>)
    : Connection -> bool
  {
    (c: Connection) => Beside(db.sessions, c, r, from, to, ssid, linkType) && c.scope.Some?
  }

  /** What a scope gets of a sample's bytes: its part of the classified connections beside the sample. */
  ghost function ScopeGets(
    db: Tables, r: ProcessSample, from: int, to: int, ssid: Option<string>, linkType: Option<string>, scope: string,
    bytes: int): real
  {
    var matching := |Keep(db.conns, InScopeBeside(db, r, from, to, ssid, linkType, scope))|;
    var total := |Keep(db.conns, ClassifiedBeside(db, r, from, to, ssid, linkType))|;
    if total == 0 then 0.0 else bytes as real * (matching as real / total as real)
  }

  ghost function ScopeBytes(
    db: Tables, from: int, to: int, ssid: Option<string>, linkType: Option<string>, scope: string, process: string,
    d: Direction): ProcessSample -> real
  {
    (r: ProcessSample) =>
      if r.process == process && InWindow(db.sessions, r.ts, r.sid, from, to, ssid, linkType)
      then ScopeGets(db, r, from, to, ssid, linkType, scope, if d == In then r.bytesIn else r.bytesOut) else 0.0
  }

  lemma {:induction false} MatchingIsCount(
    conns: seq<Connection>, sessions: Sessions, f: NetFilter, from: int, to: int, slot: Slot, scope: string,
    keep: Connection -> bool)
    requires forall c :: c in conns ==>
               keep(c) == (Counts(sessions, f, c.ts, c.sid, from, to) && InSlot(c, slot) && c.scope == Some(scope))
    ensures Matching(Choose(conns, SightingIn(sessions, f, from, to)), slot, scope) == |Keep(conns, keep)|
  {
    if conns != [] {
      var n := |conns| - 1;
      assert conns[n] in conns && forall c :: c in conns[..n] ==> c in conns;
      MatchingIsCount(conns[..n], sessions, f, from, to, slot, scope, keep);
      var before := Choose(conns[..n], SightingIn(sessions, f, from, to));
      MatchingLast(before, conns[n], slot, scope);
      if !Counts(sessions, f, conns[n].ts, conns[n].sid, from, to) {
        assert before + [] == before;
      }
    }
  }

  lemma {:induction false} MatchingLast(conns: seq<Connection>, c: Connection, slot: Slot, scope: string)
    ensures Matching(conns + [c], slot, scope)
         == Matching(conns, slot, scope) + if InSlot(c, slot) && c.scope == Some(scope) then 1 else 0
  {
    if conns == [] {
      assert [] + [c] == [c] && [c][1..] == [];
    } else {
      assert (conns + [c])[1..] == conns[1..] + [c];
      MatchingLast(conns[1..], c, slot, scope);
    }
  }

  lemma {:induction false} ClassifiedIsCount(
    conns: seq<Connection>, sessions: Sessions, f: NetFilter, from: int, to: int, slot: Slot, keep: Connection -> bool)
    requires forall c :: c in conns ==>
               keep(c) == (Counts(sessions, f, c.ts, c.sid, from, to) && InSlot(c, slot) && c.scope.Some?)
    ensures Classified(Choose(conns, SightingIn(sessions, f, from, to)), slot) == |Keep(conns, keep)|
  {
    if conns != [] {
      var n := |conns| - 1;
      assert conns[n] in conns && forall c :: c in conns[..n] ==> c in conns;
      ClassifiedIsCount(conns[..n], sessions, f, from, to, slot, keep);
      var before := Choose(conns[..n], SightingIn(sessions, f, from, to));
      ClassifiedLast(before, conns[n], slot);
      if !Counts(sessions, f, conns[n].ts, conns[n].sid, from, to) {
        assert before + [] == before;
      }
    }
  }

  lemma {:induction false} ClassifiedLast(conns: seq<Connection>, c: Connection, slot: Slot)
    ensures Classified(conns + [c], slot)
         == Classified(conns, slot) + if InSlot(c, slot) && c.scope.Some? then 1 else 0
  {
    if conns == [] {
      assert [] + [c] == [c] && [c][1..] == [];
    } else {
      assert (conns + [c])[1..] == conns[1..] + [c];
      ClassifiedLast(conns[1..], c, slot);
    }
  }

  function ProcessPart(conns: seq<Connection>, process: string, scope: string, d: Direction): Charge<Slot> -> real {
    (c: Charge<Slot>) => ScopePart(conns, c, process, scope, d)
  }

  lemma ProductAdds(a: real, b: real, x: real)
    ensures (a + b) * x == a * x + b * x
  {
  }

  lemma ProcessPartAdds(conns: seq<Connection>, process: string, scope: string, d: Direction)
    ensures Additive(ProcessPart(conns, process, scope, d))
  {
    forall k: Slot, a, b
      ensures ScopePart(conns, Charge(k, Plus(a, b)), process, scope, d)
           == ScopePart(conns, Charge(k, a), process, scope, d) + ScopePart(conns, Charge(k, b), process, scope, d)
    {
      ProductAdds(Amount(a, d) as real, Amount(b, d) as real, ScopeShare(conns, k, scope));
    }
  }

  lemma {:induction false} ScopeAmountIsParts(
    conns: seq<Connection>, slots: seq<Charge<Slot>>, process: string, scope: string, d: Direction)
    ensures ScopeAmount(conns, slots, process, scope, d) == SumParts(slots, ProcessPart(conns, process, scope, d))
  {
    if slots != [] {
      ScopeAmountIsParts(conns, slots[1..], process, scope, d);
    }
  }

  /** A slot's share is the fraction counted beside any of its samples. */
  lemma ShareIsFraction(
    db: Tables, r: ProcessSample, from: int, to: int, ssid: Option<string>, linkType: Option<string>, scope: string,
    bytes: int)
    ensures var conns := Sightings(db, FilterFor(ssid, linkType), from, to);
            ScopeGets(db, r, from, to, ssid, linkType, scope, bytes)
            == bytes as real * ScopeShare(conns, Slot(r.process, Bucket(r.ts, BUCKET)), scope)
  {
    var f, slot := FilterFor(ssid, linkType), Slot(r.process, Bucket(r.ts, BUCKET));
    forall c
      ensures Beside(db.sessions, c, r, from, to, ssid, linkType)
         <==> Counts(db.sessions, f, c.ts, c.sid, from, to) && InSlot(c, slot)
    {
      BesideIsInSlot(db.sessions, c, r, from, to, ssid, linkType);
    }
    MatchingIsCount(db.conns, db.sessions, f, from, to, slot, scope,
                    InScopeBeside(db, r, from, to, ssid, linkType, scope));
    ClassifiedIsCount(db.conns, db.sessions, f, from, to, slot, ClassifiedBeside(db, r, from, to, ssid, linkType));
  }

  /** A process's amount in a scope before truncation is what the scope gets of each of its samples. */
  lemma ScopeAmountOnRows(
    db: Tables, from: int, to: int, ssid: Option<string>, linkType: Option<string>, scope: string, process: string,
    d: Direction)
    ensures var f := FilterFor(ssid, linkType);
            ScopeAmount(Sightings(db, f, from, to), ProcBuckets(ProcessCharges(db, f, from, to)), process, scope, d)
            == SumReal(db.procs, ScopeBytes(db, from, to, ssid, linkType, scope, process, d))
  {
    var f := FilterFor(ssid, linkType);
    var conns, charges := Sightings(db, f, from, to), ProcessCharges(db, f, from, to);
    var part := ProcessPart(conns, process, scope, d);
    ScopeAmountIsParts(conns, ProcBuckets(charges), process, scope, d);
    ProcessPartAdds(conns, process, scope, d);
    GroupingKeepsParts(charges, NoOrder, part);
    forall r | r in db.procs
      ensures ScopeBytes(db, from, to, ssid, linkType, scope, process, d)(r)
           == PartOfRow(ChargeIn(db.sessions, f, from, to)(r), part)
    {
      ScopeBytesOfRow(db, r, from, to, ssid, linkType, scope, process, d);
    }
    PartsOfRows(db.procs, db.sessions, f, from, to, part, ScopeBytes(db, from, to, ssid, linkType, scope, process, d));
  }

  lemma ScopeBytesOfRow(
    db: Tables, r: ProcessSample, from: int, to: int, ssid: Option<string>, linkType: Option<string>, scope: string,
    process: string, d: Direction)
    ensures var f := FilterFor(ssid, linkType);
            ScopeBytes(db, from, to, ssid, linkType, scope, process, d)(r)
            == PartOfRow(ChargeIn(db.sessions, f, from, to)(r),
                         ProcessPart(Sightings(db, f, from, to), process, scope, d))
  {
    InWindowCounts(db.sessions, r.ts, r.sid, from, to, ssid, linkType);
    ShareIsFraction(db, r, from, to, ssid, linkType, scope, if d == In then r.bytesIn else r.bytesOut);
  }

  /**
   * By-process in one scope, on the tables: of each sample in the window the scope gets the
   * fraction that connections in it are of the classified connections of its process in its
   * five minutes. A process has a row iff its two amounts add up to more than nothing, and
   * the row shows them cut to integers.
   */
  lemma ByProcessAnswer(
    db: Tables, from: int, to: int, ssid: Option<string>, linkType: Option<string>, scope: string, process: string)
    ensures var report := ByProcess(db, FilterFor(ssid, linkType), from, to, scope);
            var received := SumReal(db.procs, ScopeBytes(db, from, to, ssid, linkType, scope, process, In));
            var sent := SumReal(db.procs, ScopeBytes(db, from, to, ssid, linkType, scope, process, Out));
            && (process in report <==> received + sent > 0.0)
            && (process in report ==> report[process] == Bytes(Truncate(received), Truncate(sent)))
  {
    var f := FilterFor(ssid, linkType);
    var conns, slots := Sightings(db, f, from, to), ProcBuckets(ProcessCharges(db, f, from, to));
    ScopeAmountOnRows(db, from, to, ssid, linkType, scope, process, In);
    ScopeAmountOnRows(db, from, to, ssid, linkType, scope, process, Out);
    NoSlotsNoAmount(conns, slots, process, scope, In);
    NoSlotsNoAmount(conns, slots, process, scope, Out);
  }

  lemma {:induction false} NoSlotsNoAmount(
    conns: seq<Connection>, slots: seq<Charge<Slot>>, process: string, scope: string, d: Direction)
    ensures process !in (set s | s in slots :: s.key.process) ==> ScopeAmount(conns, slots, process, scope, d) == 0.0
  {
    if slots != [] {
      NoSlotsNoAmount(conns, slots[1..], process, scope, d);
    }
  }

  /** What a sample gives where some connection beside it has been classified. */
  ghost function ClassifiedBytes(
    db: Tables, from: int, to: int, ssid: Option<string>, linkType: Option<string>, process: string, d: Direction)
    : ProcessSample -> real
  {
    (r: ProcessSample) =>
      if r.process == process && InWindow(db.sessions, r.ts, r.sid, from, to, ssid, linkType)
         && Keep(db.conns, ClassifiedBeside(db, r, from, to, ssid, linkType)) != []
      then (if d == In then r.bytesIn else r.bytesOut) as real else 0.0
  }

  /** A process whose classified connections are all in one scope has all its classified bytes there. */
  lemma OneScope(
    db: Tables, from: int, to: int, ssid: Option<string>, linkType: Option<string>, scope: string, other: string,
    process: string, d: Direction)
    requires scope != other
    requires forall c :: c in db.conns && c.process == process && c.scope.Some? ==> c.scope == Some(scope)
    ensures SumReal(db.procs, ScopeBytes(db, from, to, ssid, linkType, scope, process, d))
         == SumReal(db.procs, ClassifiedBytes(db, from, to, ssid, linkType, process, d))
    ensures SumReal(db.procs, ScopeBytes(db, from, to, ssid, linkType, other, process, d)) == 0.0
    ensures process !in ByProcess(db, FilterFor(ssid, linkType), from, to, other)
  {
    OneScopeEach(db, from, to, ssid, linkType, scope, other, process, d);
    OneScopeEach(db, from, to, ssid, linkType, scope, other, process, In);
    OneScopeEach(db, from, to, ssid, linkType, scope, other, process, Out);
    ByProcessAnswer(db, from, to, ssid, linkType, other, process);
  }

  lemma OneScopeEach(
    db: Tables, from: int, to: int, ssid: Option<string>, linkType: Option<string>, scope: string, other: string,
    process: string, d: Direction)
    requires scope != other
    requires forall c :: c in db.conns && c.process == process && c.scope.Some? ==> c.scope == Some(scope)
    ensures SumReal(db.procs, ScopeBytes(db, from, to, ssid, linkType, scope, process, d))
         == SumReal(db.procs, ClassifiedBytes(db, from, to, ssid, linkType, process, d))
    ensures SumReal(db.procs, ScopeBytes(db, from, to, ssid, linkType, other, process, d)) == 0.0
  {
    forall r | r in db.procs
      ensures ScopeBytes(db, from, to, ssid, linkType, scope, process, d)(r)
           == ClassifiedBytes(db, from, to, ssid, linkType, process, d)(r)
      ensures ScopeBytes(db, from, to, ssid, linkType, other, process, d)(r) == 0.0
    {
      if r.process == process {
        OneScopeRow(db, r, from, to, ssid, linkType, scope, other, if d == In then r.bytesIn else r.bytesOut);
      }
    }
    SumRealAgrees(db.procs, ScopeBytes(db, from, to, ssid, linkType, scope, process, d),
                  ClassifiedBytes(db, from, to, ssid, linkType, process, d));
    SumOfNothing(db.procs, ScopeBytes(db, from, to, ssid, linkType, other, process, d));
  }

  lemma OneScopeRow(
    db: Tables, r: ProcessSample, from: int, to: int, ssid: Option<string>, linkType: Option<string>,
    scope: string, other: string, bytes: int)
    requires scope != other
    requires forall c :: c in db.conns && c.process == r.process && c.scope.Some? ==> c.scope == Some(scope)
    ensures ScopeGets(db, r, from, to, ssid, linkType, scope, bytes)
         == if Keep(db.conns, ClassifiedBeside(db, r, from, to, ssid, linkType)) != [] then bytes as real else 0.0
    ensures ScopeGets(db, r, from, to, ssid, linkType, other, bytes) == 0.0
  {
    var classified := ClassifiedBeside(db, r, from, to, ssid, linkType);
    KeepAgrees(db.conns, InScopeBeside(db, r, from, to, ssid, linkType, scope), classified);
    KeepNone(db.conns, InScopeBeside(db, r, from, to, ssid, linkType, other));
    WholePart(bytes, |Keep(db.conns, classified)|);
  }

  lemma WholePart(bytes: int, n: nat)
    ensures n > 0 ==> bytes as real * (n as real / n as real) == bytes as real
    ensures n > 0 ==> bytes as real * (0 as real / n as real) == 0.0
  {
  }

  lemma {:induction false} SumOfNothing<T>(rows: seq<T>, f: T -> real)
    requires forall r :: r in rows ==> f(r) == 0.0
    ensures SumReal(rows, f) == 0.0
  {
    if rows != [] {
      assert rows[|rows| - 1] in rows;
      SumOfNothing(rows[..|rows| - 1], f);
    }
  }

  // The exact rows of scope=all.

  function SampleIn(r: ProcessSample): int {
    r.bytesIn
  }

  function SampleOut(r: ProcessSample): int {
    r.bytesOut
  }

  function ProcessRows(
    sessions: Sessions, from: int, to: int, ssid: Option<string>, linkType: Option<string>, process: string)
    : ProcessSample -> bool
  {
    (r: ProcessSample) => r.process == process && InWindow(sessions, r.ts, r.sid, from, to, ssid, linkType)
  }

  lemma SampleBytesLast(
    rows: seq<ProcessSample>, r: ProcessSample, sessions: Sessions, f: NetFilter, from: int, to: int,
    p: Slot -> bool, d: Direction)
    ensures SampleBytes(rows + [r], sessions, f, from, to, p, d)
         == SampleBytes(rows, sessions, f, from, to, p, d)
            + if Counts(sessions, f, r.ts, r.sid, from, to) && p(Slot(r.process, Bucket(r.ts, BUCKET)))
              then (if d.In? then r.bytesIn else r.bytesOut) else 0
  {
    assert (rows + [r])[..|rows|] == rows;
  }

  lemma {:induction false} SampleBytesIsSum(
    rows: seq<ProcessSample>, sessions: Sessions, f: NetFilter, from: int, to: int, p: Slot -> bool, d: Direction,
    part: ProcessSample -> int)
    requires forall r :: r in rows ==>
               part(r) == if Counts(sessions, f, r.ts, r.sid, from, to) && p(Slot(r.process, Bucket(r.ts, BUCKET)))
                          then (if d.In? then r.bytesIn else r.bytesOut) else 0
    ensures SampleBytes(rows, sessions, f, from, to, p, d) == SumOver(rows, part)
  {
    if rows != [] {
      var before, r := rows[..|rows| - 1], rows[|rows| - 1];
      assert rows == before + [r];
      SampleBytesIsSum(before, sessions, f, from, to, p, d, part);
      SampleBytesLast(before, r, sessions, f, from, to, p, d);
    }
  }

  /** The bytes of a process's samples in the window, each sample on its own. */
  function ProcessBytes(keep: ProcessSample -> bool, d: Direction): ProcessSample -> int {
    (r: ProcessSample) => if keep(r) then (if d == In then r.bytesIn else r.bytesOut) else 0
  }

  lemma ProcessSums(
    db: Tables, from: int, to: int, ssid: Option<string>, linkType: Option<string>, process: string)
    ensures var f := FilterFor(ssid, linkType);
            var rows := Keep(db.procs, ProcessRows(db.sessions, from, to, ssid, linkType, process));
            && BytesOf(db, f, from, to, OfProcess(process), In) == SumOver(rows, SampleIn)
            && BytesOf(db, f, from, to, OfProcess(process), Out) == SumOver(rows, SampleOut)
  {
    var f, keep := FilterFor(ssid, linkType), ProcessRows(db.sessions, from, to, ssid, linkType, process);
    forall r: ProcessSample
      ensures keep(r) <==> Counts(db.sessions, f, r.ts, r.sid, from, to) && r.process == process
    {
      InWindowCounts(db.sessions, r.ts, r.sid, from, to, ssid, linkType);
    }
    SampleBytesIsSum(db.procs, db.sessions, f, from, to, OfProcess(process), In, ProcessBytes(keep, In));
    SampleBytesIsSum(db.procs, db.sessions, f, from, to, OfProcess(process), Out, ProcessBytes(keep, Out));
    SumOverKept(db.procs, keep, SampleIn, ProcessBytes(keep, In));
    SumOverKept(db.procs, keep, SampleOut, ProcessBytes(keep, Out));
  }

  lemma {:induction false} RekeyedProcesses(charges: seq<Charge<Slot>>, process: string)
    ensures process in Keys(Rekey(charges, ProcessOf())) <==> exists k :: k in Keys(charges) && k.process == process
  {
    RekeyKeys(charges, ProcessOf(), process);
  }

  /** By-process with scope=all: a row for each process with a sample in the window, the plain sums of its samples. */
  lemma ByProcessAllAnswer(
    db: Tables, from: int, to: int, ssid: Option<string>, linkType: Option<string>, row: Charge<string>)
    ensures var rows := Keep(db.procs, ProcessRows(db.sessions, from, to, ssid, linkType, row.key));
            row in ByProcessAll(db, FilterFor(ssid, linkType), from, to)
            <==> rows != [] && row.bytes == Bytes(SumOver(rows, SampleIn), SumOver(rows, SampleOut))
  {
    var f := FilterFor(ssid, linkType);
    var charges := ProcessCharges(db, f, from, to);
    var keep := ProcessRows(db.sessions, from, to, ssid, linkType, row.key);
    forall r: ProcessSample
      ensures Counts(db.sessions, f, r.ts, r.sid, from, to)
         <==> InWindow(db.sessions, r.ts, r.sid, from, to, ssid, linkType)
    {
      InWindowCounts(db.sessions, r.ts, r.sid, from, to, ssid, linkType);
    }
    GroupRow(Rekey(charges, ProcessOf()), NoNameOrder, row);
    RekeyTotal(charges, ProcessOf(), Equals(row.key));
    TotalAgrees(charges, After(Equals(row.key), ProcessOf()), OfProcess(row.key));
    ChargesAreSamples(db.procs, db.sessions, f, from, to, OfProcess(row.key), In);
    ChargesAreSamples(db.procs, db.sessions, f, from, to, OfProcess(row.key), Out);
    ProcessSums(db, from, to, ssid, linkType, row.key);
    RekeyedProcesses(charges, row.key);
    KeepMembers(db.procs, keep);
    forall k
      ensures k in Keys(charges) <==>
                exists r :: r in db.procs && Counts(db.sessions, f, r.ts, r.sid, from, to)
                            && k == Slot(r.process, Bucket(r.ts, BUCKET))
    {
      ChargeKeys(db.procs, db.sessions, f, from, to, k);
    }
    if Keep(db.procs, keep) != [] {
      var r := Keep(db.procs, keep)[0];
      assert r in Keep(db.procs, keep);
      assert Slot(r.process, Bucket(r.ts, BUCKET)) in Keys(charges);
    }
  }
}
