/** appband/session_watcher.py: which session the collector is in, and when it changes. */
module Watcher {
  import opened Basics
  import opened Database

  datatype Snapshot = Snapshot(
    iface: string, linkType: string, ssid: Option<string>, bssid: Option<string>, ip: Option<string>)
  {
    /** The network a snapshot is on; an address change alone is not a new network. */
    function Net(): Identity {
      Identity(iface, linkType, ssid, bssid)
    }
  }

  /** The watcher's memory: the id and the network of the session it keeps open. */
  datatype Held = Held(id: Option<int>, net: Option<Identity>)

  function Recovered(sessions: Sessions): Held {
    match ActiveSession(sessions)
    case None => Held(None, None)
    case Some(id) => Held(Some(id), Some(sessions[id].net))
  }

  datatype Reconciled = Reconciled(sessions: Sessions, held: Held)

  /** The sessions table and the watcher after one tick. */
  function Reconcile(sessions: Sessions, held: Held, snapshot: Option<Snapshot>, now: int): Reconciled {
    var closed := if held.id.Some? then Closed(sessions, held.id.value, now) else sessions;
    match snapshot
    case None => if held.id.Some? then Reconciled(closed, Held(None, None)) else Reconciled(sessions, held)
    case Some(s) =>
      if held.net == Some(s.Net()) then Reconciled(sessions, held)
      else Reconciled(Opened(closed, now, s.Net(), s.ip), Held(Some(NextId(closed)), Some(s.Net())))
  }

  // ---------------------------------------------------------------------------------
  // What startup, every tick and every purge keep about the open sessions.

  /** The watcher holds the unique open session and its network, or none is open. */
  ghost predicate Holds(sessions: Sessions, held: Held) {
    && (held.id.Some? ==> IsOpen(sessions, held.id.value) && held.net == Some(sessions[held.id.value].net))
    && (held.id.None? ==> held.net.None?)
    && (forall k :: IsOpen(sessions, k) ==> held.id == Some(k))
  }

  /**
   * A session table may be replaced by a later one that keeps every session's start, network
   * and address, never rewrites an end, and ends none in the past.
   */
  ghost predicate Extends(before: Sessions, after: Sessions, now: int) {
    forall id :: id in before ==>
      && id in after
      && after[id].startedAt == before[id].startedAt
      && after[id].net == before[id].net && after[id].ip == before[id].ip
      && (before[id].endedAt.Some? ==> after[id].endedAt == before[id].endedAt)
      && (before[id].endedAt.None? ==> after[id].endedAt.None? || after[id].endedAt == Some(now))
  }

  /**
   * From any table, with any number of open sessions, startup leaves open exactly the one
   * that recovery adopts: the newest by start time, then by id.
   */
  lemma StartupAdopts(sessions: Sessions, now: int)
    ensures var after := OrphansClosed(sessions, now);
            && Holds(after, Recovered(after))
            && Recovered(after).id == ActiveSession(sessions)
            && Extends(sessions, after, now)
            && after.Keys == sessions.Keys
  {
    var after := OrphansClosed(sessions, now);
    var survivor := ActiveSession(sessions);
    assert forall k :: IsOpen(after, k) <==> survivor == Some(k);
    assert ActiveSession(after) == survivor;
  }

  /** A watcher tick leaves one open session at most, and touches no ended one. */
  lemma ReconcileKeeps(sessions: Sessions, held: Held, snapshot: Option<Snapshot>, now: int)
    requires Holds(sessions, held)
    ensures var r := Reconcile(sessions, held, snapshot, now);
            && Holds(r.sessions, r.held)
            && Extends(sessions, r.sessions, now)
            && (forall id :: id in r.sessions && id !in sessions ==>
                  r.sessions[id].startedAt == now && r.sessions[id].endedAt.None?)
            && (snapshot.Some? ==> r.held.net == Some(snapshot.value.Net()))
            && (snapshot.None? ==> r.held.id.None?)
  {
    if held.id.Some? {
      var closed := Closed(sessions, held.id.value, now);
      assert forall k :: k != held.id.value ==> (IsOpen(closed, k) <==> IsOpen(sessions, k));
      assert forall k :: !IsOpen(closed, k);
    }
  }

  /** A network is its interface, link type, ssid and bssid: a change of any one of them is a change of network. */
  lemma SameNetIff(a: Snapshot, b: Snapshot)
    ensures a.Net() == b.Net()
       <==> a.iface == b.iface && a.linkType == b.linkType && a.ssid == b.ssid && a.bssid == b.bssid
  {
  }

  lemma SameKeysSameNextId(a: Sessions, b: Sessions)
    requires a.Keys == b.Keys
    ensures NextId(a) == NextId(b)
  {
    assert forall k :: k in a <==> k in b;
    if a.Keys == {} {
      assert a == map[] && b == map[];
    } else {
      assert a != map[] && b != map[];
    }
  }

  /** Whether a session row is of the network a snapshot is on, column by column. */
  predicate OfNetwork(row: Session, s: Snapshot) {
    row.net.iface == s.iface && row.net.linkType == s.linkType && row.net.ssid == s.ssid && row.net.bssid == s.bssid
  }

  /** The table with every open session ended. */
  function AllEnded(sessions: Sessions, now: int): Sessions {
    map id | id in sessions ::
      if sessions[id].endedAt.None? then sessions[id].(endedAt := Some(now)) else sessions[id]
  }

  /**
   * A tick on the table's own columns. Offline, every session has ended. On the network of
   * the open session nothing changes, whatever the address. Otherwise the open session ends
   * and one row is added, open, with the snapshot's interface, link type, ssid, bssid and
   * address in their own columns.
   */
  lemma TickOnColumns(sessions: Sessions, held: Held, snapshot: Option<Snapshot>, now: int)
    requires Holds(sessions, held)
    ensures var after := Reconcile(sessions, held, snapshot, now).sessions;
            match snapshot
            case None => after == AllEnded(sessions, now)
            case Some(s) =>
              if exists id :: IsOpen(sessions, id) && OfNetwork(sessions[id], s) then after == sessions
              else
                var id := NextId(sessions);
                && after.Keys == sessions.Keys + {id}
                && OfNetwork(after[id], s) && after[id].ip == s.ip
                && after[id].startedAt == now && after[id].endedAt.None?
                && (forall k :: k in sessions ==> after[k] == AllEnded(sessions, now)[k])
  {
    var closed := if held.id.Some? then Closed(sessions, held.id.value, now) else sessions;
    assert closed.Keys == sessions.Keys;
    forall id | id in sessions
      ensures closed[id] == AllEnded(sessions, now)[id]
    {
      assert sessions[id].endedAt.None? <==> IsOpen(sessions, id);
      assert IsOpen(sessions, id) <==> held.id == Some(id);
    }
    assert closed == AllEnded(sessions, now);
    SameKeysSameNextId(closed, sessions);
    if snapshot.Some? && held.id.Some? {
      assert IsOpen(sessions, held.id.value);
      assert held.net == Some(snapshot.value.Net()) <==> OfNetwork(sessions[held.id.value], snapshot.value);
    }
  }

  /** A purge never deletes the session the watcher holds. */
  lemma PurgeKeepsHeld(sessions: Sessions, held: Held, cutoff: int)
    requires Holds(sessions, held)
    ensures Holds(sessions - ExpiredIds(sessions, cutoff), held)
  {
    assert forall k :: IsOpen(sessions - ExpiredIds(sessions, cutoff), k) <==> IsOpen(sessions, k);
  }

  // ---------------------------------------------------------------------------------
  // The watcher.

  class SessionWatcher {
    const conn: Store
    var currentId: Option<int>
    var currentNet: Option<Identity>

    function State(): Held
      reads this
    {
      Held(currentId, currentNet)
    }

    /** Adopts the session a previous run left open, if there is one. */
    constructor (conn: Store)
      ensures this.conn == conn
      ensures State() == Recovered(conn.sessions)
    {
      this.conn := conn;
      currentId, currentNet := None, None;
      new;
      var active := ActiveSession(conn.sessions);
      if active.Some? {
        currentId := active;
        currentNet := Some(conn.sessions[active.value].net);
      }
    }

    method Tick(snapshot: Option<Snapshot>, now: int) returns (sid: Option<int>)
      modifies this, conn`sessions
      ensures Reconciled(conn.sessions, State())
           == Reconcile(old(conn.sessions), old(State()), snapshot, now)
      ensures sid == if snapshot.None? then None else currentId
    {
      if snapshot.None? {
        if currentId.Some? {
          conn.CloseSession(currentId.value, now);
          currentId, currentNet := None, None;
        }
        return None;
      }
      if Some(snapshot.value.Net()) == currentNet {
        return currentId;
      }
      if currentId.Some? {
        conn.CloseSession(currentId.value, now);
      }
      var id := conn.OpenSession(now, snapshot.value.Net(), snapshot.value.ip);
      currentId, currentNet := Some(id), Some(snapshot.value.Net());
      return currentId;
    }
  }
}
