/**
 * What the exact reports answer, written out on the rows of the tables: which samples each
 * row of a time series, budget or by-network report counts, and that it sums them plainly.
 */
module ExactAnswers {
  import opened Basics
  import opened Database
  import opened Grouping
  import opened Reports

  // ---------------------------------------------------------------------------------
  // Intervals.

  /**
   * The times that a bucket with this key stands for. Division truncates toward zero, so
   * buckets of negative times end at their key, and bucket 0 reaches both ways.
   */
  predicate Interval(ts: int, key: int, width: int) {
    if key > 0 then key <= ts < key + width
    else if key < 0 then key - width < ts <= key
    else -width < ts < width
  }

  lemma MinuteIff(ts: int, key: int)
    ensures Bucket(ts, 60) == key <==> key % 60 == 0 && Interval(ts, key, 60)
  {
  }

  lemma FiveMinutesIff(ts: int, key: int)
    ensures Bucket(ts, 300) == key <==> key % 300 == 0 && Interval(ts, key, 300)
  {
  }

  lemma HourIff(ts: int, key: int)
    ensures Bucket(ts, 3600) == key <==> key % 3600 == 0 && Interval(ts, key, 3600)
  {
  }

  lemma DayIff(ts: int, key: int)
    ensures Bucket(ts, 86400) == key <==> key % 86400 == 0 && Interval(ts, key, 86400)
  {
  }

  /** The seconds of a time series' buckets; an unknown granularity means hours. */
  function SecondsOf(granularity: string): (seconds: int)
    ensures seconds > 0
  {
    if granularity == "minute" then 60 else if granularity == "day" then 86400 else 3600
  }

  /** A time is charged to the bucket whose interval it lies in, and to no other. */
  lemma BucketIff(ts: int, key: int, granularity: string)
    ensures Bucket(ts, WidthOf(granularity)) == key
       <==> key % SecondsOf(granularity) == 0 && Interval(ts, key, SecondsOf(granularity))
  {
    MinuteIff(ts, key);
    HourIff(ts, key);
    DayIff(ts, key);
  }

  // ---------------------------------------------------------------------------------
  // The network asked for.

  /** Whether a request names a network. */
  predicate Asking(ssid: Option<string>, linkType: Option<string>) {
    (ssid.Some? && ssid.value != "") || (linkType.Some? && linkType.value != "")
  }

  /** A session is on the network asked for: by ssid, else by link type where there is no ssid, else any. */
  predicate OnAsked(s: Session, ssid: Option<string>, linkType: Option<string>) {
    if ssid.Some? && ssid.value != "" then s.net.ssid == ssid
    else if linkType.Some? && linkType.value != "" then s.net.linkType == linkType.value && s.net.ssid.None?
    else true
  }

  lemma AskedIsAdmitted(s: Session, ssid: Option<string>, linkType: Option<string>)
    ensures Admits(FilterFor(ssid, linkType), s.net) <==> OnAsked(s, ssid, linkType)
    ensures FilterFor(ssid, linkType).AllNetworks? <==> !Asking(ssid, linkType)
  {
  }

  // ---------------------------------------------------------------------------------
  // Plain sums over samples.

  function BytesIn(r: InterfaceSample): int {
    r.bytesIn
  }

  function BytesOut(r: InterfaceSample): int {
    r.bytesOut
  }

  /** The two plain sums over the samples that a condition keeps. */
  function SumsOf(rows: seq<InterfaceSample>, keep: InterfaceSample -> bool): Bytes {
    Bytes(SumOver(Keep(rows, keep), BytesIn), SumOver(Keep(rows, keep), BytesOut))
  }

  lemma {:induction false} SamplesAreSums(
    rows: seq<InterfaceSample>, sessions: Sessions, from: int, to: int,
    p: Located -> bool, keep: InterfaceSample -> bool)
    requires forall r :: r in rows ==>
               keep(r) == (from <= r.ts < to && r.sid in sessions && p(Located(r, sessions[r.sid].net)))
    ensures SumSamples(rows, sessions, from, to, p) == SumsOf(rows, keep)
    ensures (exists l :: l in Choose(rows, LocateIn(sessions, from, to)) && p(l)) <==> Keep(rows, keep) != []
  {
    if rows != [] {
      var n := |rows| - 1;
      var before, r := rows[..n], rows[n];
      assert r in rows && forall x :: x in before ==> x in rows;
      SamplesAreSums(before, sessions, from, to, p, keep);
      SelectionGrows(Choose(before, LocateIn(sessions, from, to)), LocateIn(sessions, from, to)(r), p);
      if keep(r) {
        SumOverLast(Keep(before, keep), r, BytesIn);
        SumOverLast(Keep(before, keep), r, BytesOut);
      } else {
        assert Keep(rows, keep) == Keep(before, keep);
      }
    }
  }

  lemma SelectionGrows(located: seq<Located>, l: Option<Located>, p: Located -> bool)
    ensures (exists x :: x in located + (if l.Some? then [l.value] else []) && p(x))
       <==> (exists x :: x in located && p(x)) || (l.Some? && p(l.value))
  {
    if l.Some? {
      assert l.value in located + [l.value];
    }
  }

  // ---------------------------------------------------------------------------------
  // Time series.

  /** The samples that a time-series row counts. */
  function SeriesRows(
    sessions: Sessions, from: int, to: int, ssid: Option<string>, linkType: Option<string>, key: int, seconds: int)
    : InterfaceSample -> bool
  {
    (r: InterfaceSample) =>
      && from <= r.ts < to && r.sid in sessions && OnAsked(sessions[r.sid], ssid, linkType)
      && Interval(r.ts, key, seconds)
  }

  /**
   * A time series has a row exactly for each interval of its granularity that holds a sample
   * of the window on the network asked for, in ascending order, and the row sums those
   * samples.
   */
  lemma SeriesAnswer(
    db: Tables, from: int, to: int, granularity: string, ssid: Option<string>, linkType: Option<string>,
    row: Charge<int>)
    ensures var series := Timeseries(db, from, to, granularity, FilterFor(ssid, linkType));
            var seconds := SecondsOf(granularity);
            var counted := SeriesRows(db.sessions, from, to, ssid, linkType, row.key, seconds);
            && (row in series <==>
                  row.key % seconds == 0 && Keep(db.iface, counted) != [] && row.bytes == SumsOf(db.iface, counted))
            && (forall i, j :: 0 <= i < j < |series| ==> series[i].key < series[j].key)
  {
    var f := FilterFor(ssid, linkType);
    var inBucket := AdmittedIn(f, WidthOf(granularity), row.key);
    var counted := SeriesRows(db.sessions, from, to, ssid, linkType, row.key, SecondsOf(granularity));
    SeriesRow(db, from, to, granularity, f, row);
    SeriesAscends(db, from, to, granularity, f);
    if row.key % SecondsOf(granularity) == 0 {
      forall r | r in db.iface
        ensures counted(r)
             == (from <= r.ts < to && r.sid in db.sessions && inBucket(Located(r, db.sessions[r.sid].net)))
      {
        BucketIff(r.ts, row.key, granularity);
        if r.sid in db.sessions {
          AskedIsAdmitted(db.sessions[r.sid], ssid, linkType);
        }
      }
      SamplesAreSums(db.iface, db.sessions, from, to, inBucket, counted);
    } else {
      forall l
        ensures !inBucket(l)
      {
        BucketIff(l.row.ts, row.key, granularity);
      }
    }
  }

  lemma SeriesAscends(db: Tables, from: int, to: int, granularity: string, f: NetFilter)
    ensures var series := Timeseries(db, from, to, granularity, f);
            forall i, j :: 0 <= i < j < |series| ==> series[i].key < series[j].key
  {
    GroupIsSum(SeriesCharges(Joined(db, from, to), f, WidthOf(granularity)), Earlier);
  }

  // ---------------------------------------------------------------------------------
  // Budgets.

  /** The rolling window of a period; an unknown period means the month. */
  function WindowOf(period: string): int {
    if period == "hour" then 3600 else if period == "day" then 86400 else if period == "week" then 604800 else 2592000
  }

  /** A session counts for a scope: metered links, the network asked for, or all. */
  predicate InBudgetScope(s: Session, scope: string, ssid: Option<string>, linkType: Option<string>) {
    if scope == "metered" then s.net.linkType == "iphone-hotspot" || s.net.linkType == "usb-tether"
    else if scope == "net" then OnAsked(s, ssid, linkType)
    else true
  }

  function BudgetRows(
    sessions: Sessions, from: int, to: int, scope: string, ssid: Option<string>, linkType: Option<string>)
    : InterfaceSample -> bool
  {
    (r: InterfaceSample) =>
      from <= r.ts < to && r.sid in sessions && InBudgetScope(sessions[r.sid], scope, ssid, linkType)
  }

  /**
   * A budget sums both directions of the samples in its window and scope; it is over once
   * they reach a positive cap.
   */
  lemma BudgetAnswer(
    db: Tables, capBytes: int, period: string, now: int, scope: string, ssid: Option<string>, linkType: Option<string>)
    ensures var budget := QueryBudget(db, capBytes, period, now, scope, ssid, linkType);
            var sums := SumsOf(db.iface, BudgetRows(db.sessions, now - WindowOf(period), now, scope, ssid, linkType));
            && budget.from == now - WindowOf(period) && budget.to == now
            && budget.usedBytes == sums.rx + sums.tx
            && (budget.over <==> capBytes > 0 && sums.rx + sums.tx >= capBytes)
  {
    var counted := BudgetRows(db.sessions, now - WindowOf(period), now, scope, ssid, linkType);
    var admitted := Admitted(ScopeFilter(scope, ssid, linkType));
    assert PeriodSeconds(period) == WindowOf(period);
    BudgetIsSum(db, capBytes, period, now, scope, ssid, linkType);
    forall r | r in db.iface && r.sid in db.sessions
      ensures InBudgetScope(db.sessions[r.sid], scope, ssid, linkType)
         <==> admitted(Located(r, db.sessions[r.sid].net))
    {
      AskedIsAdmitted(db.sessions[r.sid], ssid, linkType);
    }
    SamplesAreSums(db.iface, db.sessions, now - WindowOf(period), now, admitted, counted);
  }

  // ---------------------------------------------------------------------------------
  // By network, gaps and sessions.

  function NetworkRows(sessions: Sessions, from: int, to: int, linkType: string, ssid: Option<string>)
    : InterfaceSample -> bool
  {
    (r: InterfaceSample) =>
      && from <= r.ts < to && r.sid in sessions
      && sessions[r.sid].net.linkType == linkType && sessions[r.sid].net.ssid == ssid
  }

  /** One row for each pair of link type and ssid with a sample in the window; it sums those samples. */
  lemma ByNetworkAnswer(db: Tables, from: int, to: int, row: Charge<Network>)
    ensures var counted := NetworkRows(db.sessions, from, to, row.key.linkType, row.key.ssid);
            row in ByNetwork(db, from, to)
            <==> Keep(db.iface, counted) != [] && row.bytes == SumsOf(db.iface, counted)
  {
    ByNetworkRow(db, from, to, row);
    SamplesAreSums(db.iface, db.sessions, from, to, OnNetwork(row.key),
                   NetworkRows(db.sessions, from, to, row.key.linkType, row.key.ssid));
  }

  /** The gaps and the sessions that overlap a window. */
  lemma ListsAnswer(db: Tables, from: int, to: int)
    ensures forall g :: g in GapsIn(db, from, to) <==> g in db.gaps && g.end > from && g.start < to
    ensures forall id :: id in SessionsIn(db, from, to) <==>
              && id in db.sessions && db.sessions[id].startedAt < to
              && (db.sessions[id].endedAt.None? || db.sessions[id].endedAt.value >= from)
  {
    KeepMembers(db.gaps, (g: Gap) => g.end > from && g.start < to);
  }
}
