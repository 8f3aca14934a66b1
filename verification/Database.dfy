/**
 * appband/db.py and appband/retention.py: the tables and the statements that change them.
 *
 * `Tables` is the contents of the database file as a value. `Store` is the database the
 * collector's threads update in place; each method is proved against a function on `Tables`.
 * Row ids of the sample tables are never read, so sample tables are sequences of rows.
 * The sessions table is keyed by its INTEGER PRIMARY KEY.
 */
module Database {
  import opened Basics

  datatype Identity = Identity(iface: string, linkType: string, ssid: Option<string>, bssid: Option<string>)

  datatype Session = Session(startedAt: int, endedAt: Option<int>, net: Identity, ip: Option<string>)

  datatype InterfaceSample = InterfaceSample(ts: int, sid: int, bytesIn: int, bytesOut: int)

  datatype ProcessSample = ProcessSample(
    ts: int, sid: int, process: string, pid: Option<nat>, bytesIn: int, bytesOut: int)

  datatype Connection = Connection(
    ts: int, sid: int, process: string, remoteIp: string, remotePort: Option<int>,
    protocol: string, scope: Option<string>)

  datatype DnsEntry = DnsEntry(hostname: Option<string>, resolvedAt: int)

  datatype Gap = Gap(start: int, end: int)

  type Sessions = map<int, Session>
  type DnsCache = map<string, DnsEntry>

  datatype Tables = Tables(
    sessions: Sessions, iface: seq<InterfaceSample>, procs: seq<ProcessSample>,
    conns: seq<Connection>, dns: DnsCache, gaps: seq<Gap>)

  const EMPTY: Tables := Tables(map[], [], [], [], map[], [])

  // ---------------------------------------------------------------------------------
  // Session ids. Without AUTOINCREMENT, SQLite gives a new row one more than the largest
  // id in the table, so ids come back after the rows that had them are deleted.

  lemma {:induction false} LargestExists(ids: set<int>)
    requires ids != {}
    ensures exists m :: m in ids && forall k :: k in ids ==> k <= m
  {
    var x := Pick(ids);
    if ids != {x} {
      LargestExists(ids - {x});
      var m :| m in ids - {x} && forall k :: k in ids - {x} ==> k <= m;
      assert forall k :: k in ids ==> k in ids - {x} || k == x;
      var top := Max(m, x);
      assert top in ids;
    } else {
      assert forall k :: k in ids ==> k <= x;
    }
  }

  /** The id of the next inserted session: unused, and above every id in the table. */
  function NextId(sessions: Sessions): (id: int)
    ensures id !in sessions
    ensures forall k :: k in sessions ==> k < id
    ensures sessions == map[] ==> id == 1
    ensures sessions != map[] ==> id - 1 in sessions
  {
    if sessions.Keys == {} then 1
    else
      LargestExists(sessions.Keys);
      var m :| m in sessions.Keys && forall k :: k in sessions.Keys ==> k <= m;
      m + 1
  }

  predicate IsOpen(sessions: Sessions, id: int) {
    id in sessions && sessions[id].endedAt.None?
  }

  /** Row `a` is no newer than row `b`: by start time, then by id. */
  predicate NotNewer(sessions: Sessions, a: int, b: int)
    requires a in sessions && b in sessions
  {
    || sessions[a].startedAt < sessions[b].startedAt
    || (sessions[a].startedAt == sessions[b].startedAt && a <= b)
  }

  lemma {:induction false} NewestExists(sessions: Sessions, ids: set<int>)
    requires ids != {} && ids <= sessions.Keys
    ensures exists m :: m in ids && forall k :: k in ids ==> NotNewer(sessions, k, m)
  {
    var x := Pick(ids);
    if ids == {x} {
      assert forall k :: k in ids ==> NotNewer(sessions, k, x);
    } else {
      NewestExists(sessions, ids - {x});
      var m :| m in ids - {x} && forall k :: k in ids - {x} ==> NotNewer(sessions, k, m);
      var top := if NotNewer(sessions, x, m) then m else x;
      assert top in ids && forall k :: k in ids ==> k in ids - {x} || k == x;
      assert forall k :: k in ids ==> NotNewer(sessions, k, top);
    }
  }

  function OpenIds(sessions: Sessions): set<int> {
    set id | id in sessions && sessions[id].endedAt.None?
  }

  /** get_active_session: the newest open session, if any session is open. */
  function ActiveSession(sessions: Sessions): (active: Option<int>)
    ensures active.None? <==> forall k :: !IsOpen(sessions, k)
    ensures active.Some? ==> IsOpen(sessions, active.value)
    ensures active.Some? ==> forall k :: IsOpen(sessions, k) ==>
              || sessions[k].startedAt < sessions[active.value].startedAt
              || (sessions[k].startedAt == sessions[active.value].startedAt && k <= active.value)
  {
    var open := OpenIds(sessions);
    assert forall k :: IsOpen(sessions, k) <==> k in open;
    if open == {} then None
    else
      NewestExists(sessions, open);
      var m :| m in open && forall k :: k in open ==> NotNewer(sessions, k, m);
      Some(m)
  }

  // ---------------------------------------------------------------------------------
  // Statements, as functions on the sessions table.

  function Opened(sessions: Sessions, now: int, net: Identity, ip: Option<string>): Sessions {
    sessions[NextId(sessions) := Session(now, None, net, ip)]
  }

  function Closed(sessions: Sessions, id: int, now: int): Sessions {
    if id in sessions then sessions[id := sessions[id].(endedAt := Some(now))] else sessions
  }

  /** Every open session ends now, except the one `ActiveSession` would pick. */
  function OrphansClosed(sessions: Sessions, now: int): Sessions {
    map id | id in sessions ::
      if sessions[id].endedAt.None? && ActiveSession(sessions) != Some(id)
      then sessions[id].(endedAt := Some(now)) else sessions[id]
  }

  // ---------------------------------------------------------------------------------
  // purge_old.

  function InterfaceSince(rows: seq<InterfaceSample>, cutoff: int): seq<InterfaceSample> {
    Keep(rows, (r: InterfaceSample) => r.ts >= cutoff)
  }

  function ProcessesSince(rows: seq<ProcessSample>, cutoff: int): seq<ProcessSample> {
    Keep(rows, (r: ProcessSample) => r.ts >= cutoff)
  }

  function ConnectionsSince(rows: seq<Connection>, cutoff: int): seq<Connection> {
    Keep(rows, (r: Connection) => r.ts >= cutoff)
  }

  function GapsSince(gaps: seq<Gap>, cutoff: int): seq<Gap> {
    Keep(gaps, (g: Gap) => g.end >= cutoff)
  }

  function DnsSince(dns: DnsCache, cutoff: int): DnsCache {
    map ip | ip in dns && dns[ip].resolvedAt >= cutoff :: dns[ip]
  }

  function SamplesPurged(t: Tables, cutoff: int): Tables {
    t.(iface := InterfaceSince(t.iface, cutoff),
       procs := ProcessesSince(t.procs, cutoff),
       conns := ConnectionsSince(t.conns, cutoff))
  }

  /** Sessions the purge deletes: ended, and ended before the cutoff. */
  predicate Expired(s: Session, cutoff: int) {
    s.endedAt.Some? && s.endedAt.value < cutoff
  }

  /** Ids that some sample row refers to, i.e. the FOREIGN KEY references into sessions. */
  function References(t: Tables): set<int> {
    (set r | r in t.iface :: r.sid) + (set r | r in t.procs :: r.sid) + (set r | r in t.conns :: r.sid)
  }

  function ExpiredIds(sessions: Sessions, cutoff: int): set<int> {
    set id | id in sessions && Expired(sessions[id], cutoff)
  }

  /** With foreign_keys=ON the delete from sessions fails if a remaining row refers to an expired session. */
  predicate PurgeRefused(t: Tables, cutoff: int) {
    References(SamplesPurged(t, cutoff)) * ExpiredIds(t.sessions, cutoff) != {}
  }

  /** The tables after purge_old. A refused delete raises, which skips the statements after it. */
  function Purged(t: Tables, now: int, sampleRetention: int, dnsRetention: int): Tables {
    var cutoff := now - sampleRetention;
    var swept := SamplesPurged(t, cutoff);
    if PurgeRefused(t, cutoff) then swept
    else swept.(
           sessions := t.sessions - ExpiredIds(t.sessions, cutoff),
           dns := DnsSince(t.dns, now - dnsRetention),
           gaps := GapsSince(t.gaps, cutoff))
  }

  /** A purge that is not refused, on the tables' own columns. */
  lemma PurgeOnColumns(t: Tables, now: int, sampleRetention: int, dnsRetention: int)
    requires !PurgeRefused(t, now - sampleRetention)
    ensures var after := Purged(t, now, sampleRetention, dnsRetention);
            && after.iface == Keep(t.iface, (r: InterfaceSample) => r.ts >= now - sampleRetention)
            && after.procs == Keep(t.procs, (r: ProcessSample) => r.ts >= now - sampleRetention)
            && after.conns == Keep(t.conns, (r: Connection) => r.ts >= now - sampleRetention)
            && after.gaps == Keep(t.gaps, (g: Gap) => g.end >= now - sampleRetention)
            && (forall id :: id in after.sessions <==>
                  && id in t.sessions
                  && (t.sessions[id].endedAt.None? || t.sessions[id].endedAt.value >= now - sampleRetention))
            && (forall id :: id in after.sessions ==> after.sessions[id] == t.sessions[id])
            && (forall ip :: ip in after.dns <==> ip in t.dns && t.dns[ip].resolvedAt >= now - dnsRetention)
            && (forall ip :: ip in after.dns ==> after.dns[ip] == t.dns[ip])
  {
  }

  /** Some row of session `sid` stays after a purge with this cutoff. */
  ghost predicate StillReferred(t: Tables, sid: int, cutoff: int) {
    || (exists r :: r in t.iface && r.ts >= cutoff && r.sid == sid)
    || (exists r :: r in t.procs && r.ts >= cutoff && r.sid == sid)
    || (exists r :: r in t.conns && r.ts >= cutoff && r.sid == sid)
  }

  lemma ReferredIff(t: Tables, sid: int, cutoff: int)
    ensures sid in References(SamplesPurged(t, cutoff)) <==> StillReferred(t, sid, cutoff)
  {
    KeepMembers(t.iface, (r: InterfaceSample) => r.ts >= cutoff);
    KeepMembers(t.procs, (r: ProcessSample) => r.ts >= cutoff);
    KeepMembers(t.conns, (r: Connection) => r.ts >= cutoff);
  }

  /** A purge is refused exactly when a row that stays is of a session that has expired; then only samples go. */
  lemma PurgeRefusedIff(t: Tables, now: int, sampleRetention: int, dnsRetention: int)
    ensures PurgeRefused(t, now - sampleRetention) <==>
              exists sid :: sid in t.sessions && t.sessions[sid].endedAt.Some?
                && t.sessions[sid].endedAt.value < now - sampleRetention
                && StillReferred(t, sid, now - sampleRetention)
    ensures PurgeRefused(t, now - sampleRetention) ==>
              var after := Purged(t, now, sampleRetention, dnsRetention);
              after.sessions == t.sessions && after.dns == t.dns && after.gaps == t.gaps
  {
    var cutoff := now - sampleRetention;
    var both := References(SamplesPurged(t, cutoff)) * ExpiredIds(t.sessions, cutoff);
    if both != {} {
      var sid := Pick(both);
      ReferredIff(t, sid, cutoff);
    }
    if sid :| sid in t.sessions && t.sessions[sid].endedAt.Some? && t.sessions[sid].endedAt.value < cutoff
              && StillReferred(t, sid, cutoff) {
      ReferredIff(t, sid, cutoff);
      assert sid in both;
    }
  }

  class Store {
    var sessions: Sessions
    var iface: seq<InterfaceSample>
    var procs: seq<ProcessSample>
    var conns: seq<Connection>
    var dns: DnsCache
    var gaps: seq<Gap>

    function Contents(): Tables
      reads this
    {
      Tables(sessions, iface, procs, conns, dns, gaps)
    }

    /** Opens the database file, whatever it holds. */
    constructor (t: Tables)
      ensures Contents() == t
    {
      sessions, iface, procs, conns, dns, gaps := t.sessions, t.iface, t.procs, t.conns, t.dns, t.gaps;
    }

    method OpenSession(startedAt: int, net: Identity, ip: Option<string>) returns (id: int)
      modifies this`sessions
      ensures sessions == Opened(old(sessions), startedAt, net, ip)
      ensures id == NextId(old(sessions))
    {
      id := NextId(sessions);
      sessions := sessions[id := Session(startedAt, None, net, ip)];
    }

    method CloseSession(id: int, endedAt: int)
      modifies this`sessions
      ensures sessions == Closed(old(sessions), id, endedAt)
    {
      if id in sessions {
        sessions := sessions[id := sessions[id].(endedAt := Some(endedAt))];
      }
    }

    method CloseOrphanSessions(now: int)
      modifies this`sessions
      ensures sessions == OrphansClosed(old(sessions), now)
    {
      var survivor := ActiveSession(sessions);
      sessions := map id | id in sessions ::
        if sessions[id].endedAt.None? && Some(id) != survivor
        then sessions[id].(endedAt := Some(now)) else sessions[id];
    }

    /** REFERENCES sessions(id): the row's session must exist. */
    method InsertInterfaceSample(row: InterfaceSample)
      requires row.sid in sessions
      modifies this`iface
      ensures iface == old(iface) + [row]
    {
      iface := iface + [row];
    }

    method InsertProcessSample(row: ProcessSample)
      requires row.sid in sessions
      modifies this`procs
      ensures procs == old(procs) + [row]
    {
      procs := procs + [row];
    }

    method InsertConnection(row: Connection)
      requires row.sid in sessions
      modifies this`conns
      ensures conns == old(conns) + [row]
    {
      conns := conns + [row];
    }

    method UpsertDns(ip: string, hostname: Option<string>, resolvedAt: int)
      modifies this`dns
      ensures dns == old(dns)[ip := DnsEntry(hostname, resolvedAt)]
    {
      dns := dns[ip := DnsEntry(hostname, resolvedAt)];
    }

    method RecordGap(start: int, end: int)
      modifies this`gaps
      ensures gaps == old(gaps) + [Gap(start, end)]
    {
      gaps := gaps + [Gap(start, end)];
    }

    /** Returns whether every statement ran; a refused delete leaves the later tables alone. */
    method PurgeOld(now: int, sampleRetention: int, dnsRetention: int) returns (completed: bool)
      modifies this
      ensures Contents() == Purged(old(Contents()), now, sampleRetention, dnsRetention)
      ensures completed <==> !PurgeRefused(old(Contents()), now - sampleRetention)
    {
      var sampleCutoff := now - sampleRetention;
      var dnsCutoff := now - dnsRetention;
      iface := InterfaceSince(iface, sampleCutoff);
      procs := ProcessesSince(procs, sampleCutoff);
      conns := ConnectionsSince(conns, sampleCutoff);
      var expired := ExpiredIds(sessions, sampleCutoff);
      if References(Contents()) * expired != {} {
        return false;
      }
      sessions := sessions - expired;
      dns := DnsSince(dns, dnsCutoff);
      gaps := GapsSince(gaps, sampleCutoff);
      return true;
    }
  }
}
