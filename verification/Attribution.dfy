/**
 * The approximate reports of appband/server.py: process bytes handed out to the hosts or
 * the scope a process was connected to in the same five minutes. Shares are exact rationals.
 */
module Attribution {
  import opened Basics
  import opened Database
  import opened Grouping
  import opened Reports
  import opened RealSums

  const BUCKET := 300

  /** One process in one five-minute bucket. */
  datatype Slot = Slot(process: string, bucket: int)

  datatype Direction = In | Out

  function Amount(b: Bytes, d: Direction): int {
    if d.In? then b.rx else b.tx
  }

  // ---------------------------------------------------------------------------------
  // Rows the queries read. Without a network filter there is no join with sessions.

  predicate Counts(sessions: Sessions, f: NetFilter, ts: int, sid: int, from: int, to: int) {
    from <= ts < to && (f.AllNetworks? || (sid in sessions && Admits(f, sessions[sid].net)))
  }

  function ChargeIn(sessions: Sessions, f: NetFilter, from: int, to: int): ProcessSample -> Option<Charge<Slot>> {
    (r: ProcessSample) =>
      if Counts(sessions, f, r.ts, r.sid, from, to)
      then Some(Charge(Slot(r.process, Bucket(r.ts, BUCKET)), Bytes(r.bytesIn, r.bytesOut))) else None
  }

  function SightingIn(sessions: Sessions, f: NetFilter, from: int, to: int): Connection -> Option<Connection> {
    (c: Connection) => if Counts(sessions, f, c.ts, c.sid, from, to) then Some(c) else None
  }

  function ProcessCharges(db: Tables, f: NetFilter, from: int, to: int): seq<Charge<Slot>> {
    Choose(db.procs, ChargeIn(db.sessions, f, from, to))
  }

  function Sightings(db: Tables, f: NetFilter, from: int, to: int): seq<Connection> {
    Choose(db.conns, SightingIn(db.sessions, f, from, to))
  }

  /** The declarative sum the queries start from: sampled bytes of the slots that meet a condition. */
  function SampleBytes(
    rows: seq<ProcessSample>, sessions: Sessions, f: NetFilter, from: int, to: int, p: Slot -> bool, d: Direction): int
  {
    if rows == [] then 0
    else
      var r := rows[|rows| - 1];
      SampleBytes(rows[..|rows| - 1], sessions, f, from, to, p, d)
      + if Counts(sessions, f, r.ts, r.sid, from, to) && p(Slot(r.process, Bucket(r.ts, BUCKET)))
        then (if d.In? then r.bytesIn else r.bytesOut) else 0
  }

  function BytesOf(db: Tables, f: NetFilter, from: int, to: int, p: Slot -> bool, d: Direction): int {
    SampleBytes(db.procs, db.sessions, f, from, to, p, d)
  }

  lemma {:induction false} ChargesAreSamples(
    rows: seq<ProcessSample>, sessions: Sessions, f: NetFilter, from: int, to: int, p: Slot -> bool, d: Direction)
    ensures Amount(TotalWhere(Choose(rows, ChargeIn(sessions, f, from, to)), p), d)
         == SampleBytes(rows, sessions, f, from, to, p, d)
  {
    if rows != [] {
      var n := |rows| - 1;
      var before := Choose(rows[..n], ChargeIn(sessions, f, from, to));
      ChargesAreSamples(rows[..n], sessions, f, from, to, p, d);
      var last := ChargeIn(sessions, f, from, to)(rows[n]);
      if last.Some? {
        TotalLast(before, last.value, p);
      } else {
        assert before + [] == before;
      }
    }
  }

  predicate NoOrder(a: Slot, b: Slot) {
    false
  }

  /** The CTE proc_buckets: bytes grouped by process and bucket. */
  function ProcBuckets(charges: seq<Charge<Slot>>): seq<Charge<Slot>> {
    GroupBy(charges, NoOrder)
  }

  predicate InSlot(c: Connection, slot: Slot) {
    c.process == slot.process && Bucket(c.ts, BUCKET) == slot.bucket
  }

  // ---------------------------------------------------------------------------------
  // By domain: each slot's bytes, split equally over the hosts seen in it.

  /** A connection's host: the cached name of its address, or the address while it has none. */
  function HostOf(c: Connection, dns: DnsCache): string {
    if c.remoteIp in dns && dns[c.remoteIp].hostname.Some? then dns[c.remoteIp].hostname.value else c.remoteIp
  }

  /** The connections a scope selects; the scope "all" selects every one. */
  predicate InScope(c: Connection, scope: string) {
    scope == "all" || c.scope == Some(scope)
  }

  predicate Sighted(conns: seq<Connection>, scope: string, slot: Slot) {
    exists c :: c in conns && InSlot(c, slot) && InScope(c, scope)
  }

  /** The slots that have at least one in-scope connection. */
  function SeenIn(conns: seq<Connection>, scope: string): Slot -> bool {
    slot => Sighted(conns, scope, slot)
  }

  datatype View = View(conns: seq<Connection>, dns: DnsCache, scope: string) {
    /** conn_buckets, for one slot: the distinct hosts in scope. */
    function Hosts(slot: Slot): set<string> {
      set c | c in conns && InSlot(c, slot) && InScope(c, scope) :: HostOf(c, dns)
    }
  }

  function HostShare(view: View, s: Charge<Slot>, host: string, d: Direction): real {
    if host in view.Hosts(s.key) then Amount(s.bytes, d) as real / |view.Hosts(s.key)| as real else 0.0
  }

  /** A host's amount before truncation. */
  function HostAmount(view: View, slots: seq<Charge<Slot>>, host: string, d: Direction): real {
    if slots == [] then 0.0
    else HostShare(view, slots[0], host, d) + HostAmount(view, slots[1..], host, d)
  }

  /** The hosts that get a row: those seen in a slot that has process bytes. */
  function ReportHosts(view: View, slots: seq<Charge<Slot>>): set<string> {
    if slots == [] then {} else view.Hosts(slots[0].key) + ReportHosts(view, slots[1..])
  }

  /** _by_domain without a limit. */
  function ByDomain(db: Tables, f: NetFilter, from: int, to: int, scope: string): map<string, Bytes> {
    var view := View(Sightings(db, f, from, to), db.dns, scope);
    var slots := ProcBuckets(ProcessCharges(db, f, from, to));
    map h | h in ReportHosts(view, slots) ::
      Bytes(Truncate(HostAmount(view, slots, h, In)), Truncate(HostAmount(view, slots, h, Out)))
  }

  function Amounts(view: View, slots: seq<Charge<Slot>>, d: Direction): string -> real {
    h => HostAmount(view, slots, h, d)
  }

  function Shares(view: View, s: Charge<Slot>, d: Direction): string -> real {
    h => HostShare(view, s, h, d)
  }

  lemma SightedHasHosts(view: View, slot: Slot)
    ensures Sighted(view.conns, view.scope, slot) <==> view.Hosts(slot) != {}
  {
    if c :| c in view.conns && InSlot(c, slot) && InScope(c, view.scope) {
      assert HostOf(c, view.dns) in view.Hosts(slot);
    }
  }

  /** A slot's bytes come back in full when its shares are added up over all hosts. */
  lemma SharesAddUp(view: View, s: Charge<Slot>, hosts: set<string>, d: Direction)
    requires view.Hosts(s.key) <= hosts
    ensures Sum(hosts, Shares(view, s, d)) == Amount(Part(s, SeenIn(view.conns, view.scope)), d) as real
  {
    var mine := view.Hosts(s.key);
    SightedHasHosts(view, s.key);
    if mine == {} {
      SumConstant(hosts, {}, Shares(view, s, d), 0.0);
    } else {
      var v := Amount(s.bytes, d) as real / |mine| as real;
      SumConstant(hosts, mine, Shares(view, s, d), v);
      PartsMakeWhole(|mine|, Amount(s.bytes, d) as real);
    }
  }

  /** Before truncation, the hosts together get exactly the bytes of the slots with a host. */
  lemma {:induction false} HostsAddUp(view: View, slots: seq<Charge<Slot>>, hosts: set<string>, d: Direction)
    requires ReportHosts(view, slots) <= hosts
    ensures Sum(hosts, Amounts(view, slots, d)) == Amount(TotalWhere(slots, SeenIn(view.conns, view.scope)), d) as real
  {
    if slots == [] {
      SumConstant(hosts, {}, Amounts(view, slots, d), 0.0);
    } else {
      HostsAddUp(view, slots[1..], hosts, d);
      SharesAddUp(view, slots[0], hosts, d);
      SumPlus(hosts, Shares(view, slots[0], d), Amounts(view, slots[1..], d), Amounts(view, slots, d));
    }
  }

  ghost predicate NonNegative<K>(charges: seq<Charge<K>>) {
    forall c :: c in charges ==> c.bytes.rx >= 0 && c.bytes.tx >= 0
  }

  lemma AmountAdds(a: Bytes, b: Bytes, d: Direction)
    ensures Amount(Plus(a, b), d) == Amount(a, d) + Amount(b, d)
  {
  }

  lemma PartIsMonotone<K>(c: Charge<K>, p: K -> bool, q: K -> bool, d: Direction)
    requires c.bytes.rx >= 0 && c.bytes.tx >= 0 && (p(c.key) ==> q(c.key))
    ensures 0 <= Amount(Part(c, p), d) <= Amount(Part(c, q), d)
  {
  }

  lemma {:induction false} TotalsAreMonotone<K>(charges: seq<Charge<K>>, p: K -> bool, q: K -> bool, d: Direction)
    requires NonNegative(charges)
    requires forall c :: c in charges && p(c.key) ==> q(c.key)
    ensures 0 <= Amount(TotalWhere(charges, p), d) <= Amount(TotalWhere(charges, q), d)
  {
    if charges != [] {
      var c, rest := charges[0], charges[1..];
      assert c in charges && forall x :: x in rest ==> x in charges;
      TotalsAreMonotone(rest, p, q, d);
      PartIsMonotone(c, p, q, d);
      AmountAdds(Part(c, p), TotalWhere(rest, p), d);
      AmountAdds(Part(c, q), TotalWhere(rest, q), d);
    }
  }

  /** Groups of non-negative charges are non-negative. */
  lemma GroupsNonNegative<K(!new)>(charges: seq<Charge<K>>, before: (K, K) -> bool)
    requires StrictOrder(before) && NonNegative(charges)
    ensures NonNegative(GroupBy(charges, before))
  {
    forall g | g in GroupBy(charges, before)
      ensures g.bytes.rx >= 0 && g.bytes.tx >= 0
    {
      GroupRow(charges, before, g);
      TotalsAreMonotone(charges, Equals(g.key), Equals(g.key), In);
      TotalsAreMonotone(charges, Equals(g.key), Equals(g.key), Out);
    }
  }

  lemma {:induction false} HostAmountNonNegative(view: View, slots: seq<Charge<Slot>>, host: string, d: Direction)
    requires NonNegative(slots)
    ensures HostAmount(view, slots, host, d) >= 0.0
  {
    if slots != [] {
      HostAmountNonNegative(view, slots[1..], host, d);
      if host in view.Hosts(slots[0].key) {
        var n := |view.Hosts(slots[0].key)| as real;
        assert n > 0.0;
        assert Amount(slots[0].bytes, d) as real / n >= 0.0;
      }
    }
  }

  function ReportedAmount(report: map<string, Bytes>, d: Direction): string -> real {
    h => if h in report then Amount(report[h], d) as real else 0.0
  }

  /** The process bytes of the slots that have at least one in-scope connection. */
  function Attributable(db: Tables, f: NetFilter, from: int, to: int, scope: string, d: Direction): int {
    BytesOf(db, f, from, to, SeenIn(Sightings(db, f, from, to), scope), d)
  }

  /**
   * By-domain conserves bytes. Before truncation the hosts' amounts sum exactly to the
   * process bytes of slots with an in-scope connection. The reported sum is at most that
   * and short of it by less than one byte for each host. Neither exceeds the exact total.
   */
  lemma ByDomainConserves(db: Tables, f: NetFilter, from: int, to: int, scope: string, d: Direction)
    requires NonNegative(ProcessCharges(db, f, from, to))
    ensures var report := ByDomain(db, f, from, to, scope);
            var view := View(Sightings(db, f, from, to), db.dns, scope);
            var slots := ProcBuckets(ProcessCharges(db, f, from, to));
            var exact := Attributable(db, f, from, to, scope, d);
            var reported := Sum(report.Keys, ReportedAmount(report, d));
            && Sum(report.Keys, Amounts(view, slots, d)) == exact as real
            && reported <= exact as real
            && (report != map[] ==> exact as real < reported + |report| as real)
            && (report == map[] ==> exact == 0)
            && exact <= BytesOf(db, f, from, to, Anything(), d)
  {
    var report := ByDomain(db, f, from, to, scope);
    var view := View(Sightings(db, f, from, to), db.dns, scope);
    var charges := ProcessCharges(db, f, from, to);
    var slots := ProcBuckets(charges);
    GroupIsSum(charges, NoOrder);
    GroupsNonNegative(charges, NoOrder);
    HostsAddUp(view, slots, report.Keys, d);
    TotalsAreMonotone(charges, SeenIn(view.conns, view.scope), Anything(), d);
    ChargesAreSamples(db.procs, db.sessions, f, from, to, SeenIn(view.conns, view.scope), d);
    ChargesAreSamples(db.procs, db.sessions, f, from, to, Anything(), d);
    forall h | h in report.Keys
      ensures HostAmount(view, slots, h, d) >= 0.0
    {
      HostAmountNonNegative(view, slots, h, d);
    }
    TruncatedSum(report.Keys, Amounts(view, slots, d), ReportedAmount(report, d));
    assert |report.Keys| == |report|;
  }

  /** What the hosts of a by-domain report share before truncation, all together. */
  ghost function UncutTotal(db: Tables, f: NetFilter, from: int, to: int, scope: string, d: Direction): real {
    var view := View(Sightings(db, f, from, to), db.dns, scope);
    Sum(ByDomain(db, f, from, to, scope).Keys, Amounts(view, ProcBuckets(ProcessCharges(db, f, from, to)), d))
  }

  /** It does not depend on what the addresses are called. */
  lemma SameBytesShared(a: Tables, b: Tables, f: NetFilter, from: int, to: int, scope: string, d: Direction)
    requires Sightings(a, f, from, to) == Sightings(b, f, from, to)
    requires ProcessCharges(a, f, from, to) == ProcessCharges(b, f, from, to)
    ensures UncutTotal(a, f, from, to, scope, d) == UncutTotal(b, f, from, to, scope, d)
  {
    var conns, slots := Sightings(a, f, from, to), ProcBuckets(ProcessCharges(a, f, from, to));
    HostsAddUp(View(conns, a.dns, scope), slots, ByDomain(a, f, from, to, scope).Keys, d);
    HostsAddUp(View(conns, b.dns, scope), slots, ByDomain(b, f, from, to, scope).Keys, d);
  }

  ghost predicate SameHosts(a: View, b: View) {
    forall slot :: a.Hosts(slot) == b.Hosts(slot)
  }

  lemma SameNamesSameHosts(a: View, b: View)
    requires a.conns == b.conns && a.scope == b.scope
    requires forall c :: c in a.conns ==> HostOf(c, a.dns) == HostOf(c, b.dns)
    ensures SameHosts(a, b)
  {
  }

  lemma {:induction false} SameHostsSameAmounts(a: View, b: View, slots: seq<Charge<Slot>>, host: string, d: Direction)
    requires SameHosts(a, b)
    ensures HostAmount(a, slots, host, d) == HostAmount(b, slots, host, d)
    ensures ReportHosts(a, slots) == ReportHosts(b, slots)
  {
    if slots != [] {
      SameHostsSameAmounts(a, b, slots[1..], host, d);
      assert a.Hosts(slots[0].key) == b.Hosts(slots[0].key);
    }
  }

  /** Databases that differ only in names no sighted address has report the same hosts and bytes. */
  lemma SameNamesSameReport(a: Tables, b: Tables, f: NetFilter, from: int, to: int, scope: string)
    requires Sightings(a, f, from, to) == Sightings(b, f, from, to)
    requires ProcessCharges(a, f, from, to) == ProcessCharges(b, f, from, to)
    requires forall c :: c in Sightings(a, f, from, to) ==> HostOf(c, a.dns) == HostOf(c, b.dns)
    ensures ByDomain(b, f, from, to, scope) == ByDomain(a, f, from, to, scope)
  {
    var conns, slots := Sightings(a, f, from, to), ProcBuckets(ProcessCharges(a, f, from, to));
    var x, y := View(conns, a.dns, scope), View(conns, b.dns, scope);
    SameNamesSameHosts(x, y);
    forall h
      ensures HostAmount(x, slots, h, In) == HostAmount(y, slots, h, In)
      ensures HostAmount(x, slots, h, Out) == HostAmount(y, slots, h, Out)
    {
      SameHostsSameAmounts(x, y, slots, h, In);
      SameHostsSameAmounts(x, y, slots, h, Out);
    }
    SameHostsSameAmounts(x, y, slots, "", In);
  }

  // ---------------------------------------------------------------------------------
  // By process: each slot's bytes, scaled by the fraction of its connections in a scope.

  /** How many of a slot's connections are in a scope. */
  function Matching(conns: seq<Connection>, slot: Slot, scope: string): nat {
    if conns == [] then 0
    else
      Matching(conns[1..], slot, scope)
      + if InSlot(conns[0], slot) && conns[0].scope == Some(scope) then 1 else 0
  }

  /** How many of a slot's connections have been classified at all. */
  function Classified(conns: seq<Connection>, slot: Slot): nat {
    if conns == [] then 0
    else
      Classified(conns[1..], slot)
      + if InSlot(conns[0], slot) && conns[0].scope.Some? then 1 else 0
  }

  /** The slot's share, zero where the left join finds no connection or no classified one. */
  function ScopeShare(conns: seq<Connection>, slot: Slot, scope: string): real {
    var total := Classified(conns, slot);
    if total > 0 then Matching(conns, slot, scope) as real / total as real else 0.0
  }

  function ScopePart(conns: seq<Connection>, s: Charge<Slot>, process: string, scope: string, d: Direction): real {
    if s.key.process == process then Amount(s.bytes, d) as real * ScopeShare(conns, s.key, scope) else 0.0
  }

  /** A process's amount in a scope before truncation. */
  function ScopeAmount(
    conns: seq<Connection>, slots: seq<Charge<Slot>>, process: string, scope: string, d: Direction): real
  {
    if slots == [] then 0.0
    else ScopePart(conns, slots[0], process, scope, d) + ScopeAmount(conns, slots[1..], process, scope, d)
  }

  /** _by_process for one scope, without a limit; HAVING drops processes with nothing in it. */
  function ByProcess(db: Tables, f: NetFilter, from: int, to: int, scope: string): map<string, Bytes> {
    var conns := Sightings(db, f, from, to);
    var slots := ProcBuckets(ProcessCharges(db, f, from, to));
    map p | p in (set s | s in slots :: s.key.process)
            && ScopeAmount(conns, slots, p, scope, In) + ScopeAmount(conns, slots, p, scope, Out) > 0.0 ::
      Bytes(Truncate(ScopeAmount(conns, slots, p, scope, In)), Truncate(ScopeAmount(conns, slots, p, scope, Out)))
  }

  function ProcessOf(): Slot -> string {
    (slot: Slot) => slot.process
  }

  predicate NoNameOrder(a: string, b: string) {
    false
  }

  /** _by_process with scope=all: the exact rows. */
  function ByProcessAll(db: Tables, f: NetFilter, from: int, to: int): seq<Charge<string>> {
    GroupBy(Rekey(ProcessCharges(db, f, from, to), ProcessOf()), NoNameOrder)
  }

  function OfProcess(process: string): Slot -> bool {
    (slot: Slot) => slot.process == process
  }

  /** A process's slots with at least one classified connection. */
  function ClassifiedOf(conns: seq<Connection>, process: string): Slot -> bool {
    (slot: Slot) => slot.process == process && Classified(conns, slot) > 0
  }

  ghost predicate TwoScopes(conns: seq<Connection>) {
    forall c :: c in conns && c.scope.Some? ==> c.scope.value == "internet" || c.scope.value == "lan"
  }

  lemma {:induction false} ScopesPartition(conns: seq<Connection>, slot: Slot)
    requires TwoScopes(conns)
    ensures Matching(conns, slot, "internet") + Matching(conns, slot, "lan") == Classified(conns, slot)
  {
    if conns != [] {
      ScopesPartition(conns[1..], slot);
      assert conns[0] in conns;
    }
  }

  lemma SharesMakeWhole(b: real, m: real, n: real, t: real)
    requires t > 0.0 && m + n == t
    ensures b * (m / t) + b * (n / t) == b
  {
    assert m / t + n / t == (m + n) / t == 1.0;
    assert b * (m / t) + b * (n / t) == b * (m / t + n / t);
  }

  lemma SlotScopesAddUp(conns: seq<Connection>, s: Charge<Slot>, process: string, d: Direction)
    requires TwoScopes(conns)
    ensures ScopePart(conns, s, process, "internet", d) + ScopePart(conns, s, process, "lan", d)
         == Amount(Part(s, ClassifiedOf(conns, process)), d) as real
  {
    ScopesPartition(conns, s.key);
    if s.key.process == process && Classified(conns, s.key) > 0 {
      SharesMakeWhole(Amount(s.bytes, d) as real, Matching(conns, s.key, "internet") as real,
                      Matching(conns, s.key, "lan") as real, Classified(conns, s.key) as real);
    }
  }

  lemma {:induction false} ScopesAddUp(conns: seq<Connection>, slots: seq<Charge<Slot>>, process: string, d: Direction)
    requires TwoScopes(conns)
    ensures ScopeAmount(conns, slots, process, "internet", d) + ScopeAmount(conns, slots, process, "lan", d)
         == Amount(TotalWhere(slots, ClassifiedOf(conns, process)), d) as real
  {
    if slots != [] {
      ScopesAddUp(conns, slots[1..], process, d);
      SlotScopesAddUp(conns, slots[0], process, d);
    }
  }

  lemma SlotShareNonNegative(conns: seq<Connection>, s: Charge<Slot>, process: string, scope: string, d: Direction)
    requires s.bytes.rx >= 0 && s.bytes.tx >= 0
    ensures ScopePart(conns, s, process, scope, d) >= 0.0
  {
    var b, share := Amount(s.bytes, d) as real, ScopeShare(conns, s.key, scope);
    assert b >= 0.0 && share >= 0.0;
    assert b * share >= 0.0;
  }

  lemma {:induction false} ScopeAmountNonNegative(
    conns: seq<Connection>, slots: seq<Charge<Slot>>, process: string, scope: string, d: Direction)
    requires NonNegative(slots)
    ensures ScopeAmount(conns, slots, process, scope, d) >= 0.0
    ensures process !in (set s | s in slots :: s.key.process) ==> ScopeAmount(conns, slots, process, scope, d) == 0.0
  {
    if slots != [] {
      ScopeAmountNonNegative(conns, slots[1..], process, scope, d);
      SlotShareNonNegative(conns, slots[0], process, scope, d);
    }
  }

  /** A scope=all row is the plain sum over its process's samples. */
  lemma AllRowIsTotal(charges: seq<Charge<Slot>>, exact: Charge<string>)
    requires exact in GroupBy(Rekey(charges, ProcessOf()), NoNameOrder)
    ensures exact.bytes == TotalWhere(charges, OfProcess(exact.key))
  {
    GroupRow(Rekey(charges, ProcessOf()), NoNameOrder, exact);
    RekeyTotal(charges, ProcessOf(), Equals(exact.key));
    TotalAgrees(charges, After(Equals(exact.key), ProcessOf()), OfProcess(exact.key));
  }

  /**
   * The two scopes complement each other. Before truncation a process's internet and lan
   * amounts add up to its bytes in slots with a classified connection, so never to more
   * than its scope=all row.
   */
  lemma ByProcessSplits(
    db: Tables, f: NetFilter, from: int, to: int, process: string, d: Direction, exact: Charge<string>)
    requires NonNegative(ProcessCharges(db, f, from, to)) && TwoScopes(Sightings(db, f, from, to))
    requires exact in ByProcessAll(db, f, from, to) && exact.key == process
    ensures var conns := Sightings(db, f, from, to);
            var slots := ProcBuckets(ProcessCharges(db, f, from, to));
            var internet := ScopeAmount(conns, slots, process, "internet", d);
            var lan := ScopeAmount(conns, slots, process, "lan", d);
            && internet + lan == BytesOf(db, f, from, to, ClassifiedOf(conns, process), d) as real
            && internet + lan <= BytesOf(db, f, from, to, OfProcess(process), d) as real
            && Amount(exact.bytes, d) == BytesOf(db, f, from, to, OfProcess(process), d)
  {
    var conns := Sightings(db, f, from, to);
    var charges := ProcessCharges(db, f, from, to);
    ScopesAddUp(conns, ProcBuckets(charges), process, d);
    GroupIsSum(charges, NoOrder);
    AllRowIsTotal(charges, exact);
    TotalsAreMonotone(charges, ClassifiedOf(conns, process), OfProcess(process), d);
    ChargesAreSamples(db.procs, db.sessions, f, from, to, ClassifiedOf(conns, process), d);
    ChargesAreSamples(db.procs, db.sessions, f, from, to, OfProcess(process), d);
  }

  /** What a scoped row shows is within one byte of the amount, and a process without a row has none. */
  lemma ByProcessTruncates(db: Tables, f: NetFilter, from: int, to: int, process: string, scope: string, d: Direction)
    requires NonNegative(ProcessCharges(db, f, from, to))
    ensures var report := ByProcess(db, f, from, to, scope);
            var conns := Sightings(db, f, from, to);
            var slots := ProcBuckets(ProcessCharges(db, f, from, to));
            var amount := ScopeAmount(conns, slots, process, scope, d);
            && (process in report ==>
                  var shown := Amount(report[process], d) as real; shown <= amount < shown + 1.0)
            && (process !in report <==>
                  && ScopeAmount(conns, slots, process, scope, In) == 0.0
                  && ScopeAmount(conns, slots, process, scope, Out) == 0.0)
  {
    var conns := Sightings(db, f, from, to);
    var slots := ProcBuckets(ProcessCharges(db, f, from, to));
    GroupsNonNegative(ProcessCharges(db, f, from, to), NoOrder);
    ScopeAmountNonNegative(conns, slots, process, scope, In);
    ScopeAmountNonNegative(conns, slots, process, scope, Out);
  }
}
