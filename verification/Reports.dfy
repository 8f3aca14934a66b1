/**
 * The exact reports of appband/db.py and appband/server.py: time series, budgets and
 * per-network totals, all read from interface samples joined with their sessions.
 */
module Reports {
  import opened Basics
  import opened Database
  import opened Grouping

  // ---------------------------------------------------------------------------------
  // Network filters.

  datatype NetFilter = AllNetworks | BySsid(ssid: string) | ByLink(link: string) | Metered

  const METERED_LINKS: set<string> := {"iphone-hotspot", "usb-tether"}

  /** The WHERE clause a filter stands for; `ssid = ?` is never true of a NULL ssid. */
  predicate Admits(f: NetFilter, net: Identity) {
    match f
    case AllNetworks => true
    case BySsid(s) => net.ssid == Some(s)
    case ByLink(l) => net.linkType == l && net.ssid.None?
    case Metered => net.linkType in METERED_LINKS
  }

  /** `ssid` wins over `link_type`; None and the empty string both count as absent. */
  function FilterFor(ssid: Option<string>, linkType: Option<string>): NetFilter {
    if ssid.Some? && ssid.value != "" then BySsid(ssid.value)
    else if linkType.Some? && linkType.value != "" then ByLink(linkType.value)
    else AllNetworks
  }

  /**
   * The filter that singles out one network, if it can be asked for at all: a request can
   * name neither an empty SSID nor an empty link type.
   */
  function FilterOf(net: Identity): Option<NetFilter> {
    match net.ssid
    case None => if net.linkType == "" then None else Some(ByLink(net.linkType))
    case Some(s) => if s == "" then None else Some(BySsid(s))
  }

  // ---------------------------------------------------------------------------------
  // Interface samples in a window, each with the network of its session.

  datatype Located = Located(row: InterfaceSample, net: Identity)

  function LocateIn(sessions: Sessions, from: int, to: int): InterfaceSample -> Option<Located> {
    (r: InterfaceSample) =>
      if from <= r.ts < to && r.sid in sessions then Some(Located(r, sessions[r.sid].net)) else None
  }

  function Joined(db: Tables, from: int, to: int): seq<Located> {
    Choose(db.iface, LocateIn(db.sessions, from, to))
  }

  function RowBytes(l: Located): Bytes {
    Bytes(l.row.bytesIn, l.row.bytesOut)
  }

  /** The bytes of the admitted rows, both directions together. */
  function Used(rows: seq<Located>, f: NetFilter): int {
    if rows == [] then 0
    else
      var last := rows[|rows| - 1];
      Used(rows[..|rows| - 1], f) + if Admits(f, last.net) then last.row.bytesIn + last.row.bytesOut else 0
  }

  // ---------------------------------------------------------------------------------
  // Time series.

  /** SQLite's integer division truncates toward zero. */
  function SqlDiv(a: int, b: int): int
    requires b > 0
  {
    if a >= 0 then a / b else -((-a) / b)
  }

  function Bucket(ts: int, width: int): int
    requires width > 0
  {
    SqlDiv(ts, width) * width
  }

  function WidthOf(granularity: string): (width: int)
    ensures width > 0
  {
    if granularity == "minute" then 60 else if granularity == "day" then 86400 else 3600
  }

  function SeriesCharges(rows: seq<Located>, f: NetFilter, width: int): seq<Charge<int>>
    requires width > 0
  {
    if rows == [] then []
    else
      var last := rows[|rows| - 1];
      SeriesCharges(rows[..|rows| - 1], f, width)
      + if Admits(f, last.net) then [Charge(Bucket(last.row.ts, width), RowBytes(last))] else []
  }

  /** query_timeseries: one row for each bucket with an admitted sample, in bucket order. */
  function Timeseries(db: Tables, from: int, to: int, granularity: string, f: NetFilter): seq<Charge<int>> {
    GroupBy(SeriesCharges(Joined(db, from, to), f, WidthOf(granularity)), Earlier)
  }

  function ToBucket(width: int): int -> int
    requires width > 0
  {
    (ts: int) => Bucket(ts, width)
  }

  lemma MinutesNestInHours(ts: int)
    ensures Bucket(Bucket(ts, 60), 3600) == Bucket(ts, 3600)
  {
    var x := if ts >= 0 then ts else -ts;
    var q := x / 60;
    var p, s, r := q / 60, q % 60, x % 60;
    assert x == 3600 * p + 60 * s + r && q * 60 == 3600 * p + 60 * s;
    assert (q * 60) / 3600 == p && x / 3600 == p;
  }

  lemma HoursNestInDays(ts: int)
    ensures Bucket(Bucket(ts, 3600), 86400) == Bucket(ts, 86400)
  {
    var x := if ts >= 0 then ts else -ts;
    var q := x / 3600;
    var p, s, r := q / 24, q % 24, x % 3600;
    assert x == 86400 * p + 3600 * s + r && q * 3600 == 86400 * p + 3600 * s;
    assert (q * 3600) / 86400 == p && x / 86400 == p;
  }

  lemma {:induction false} ChargesRekey(rows: seq<Located>, f: NetFilter, fine: int, coarse: int)
    requires fine > 0 && coarse > 0
    requires forall ts :: Bucket(Bucket(ts, fine), coarse) == Bucket(ts, coarse)
    ensures Rekey(SeriesCharges(rows, f, fine), ToBucket(coarse)) == SeriesCharges(rows, f, coarse)
  {
    if rows != [] {
      ChargesRekey(rows[..|rows| - 1], f, fine, coarse);
    }
  }

  /** Grouping the minute series by hour is the hour series, and the hour series by day the day series. */
  lemma SeriesRollUp(db: Tables, from: int, to: int, f: NetFilter)
    ensures GroupBy(Rekey(Timeseries(db, from, to, "minute", f), ToBucket(3600)), Earlier)
         == Timeseries(db, from, to, "hour", f)
    ensures GroupBy(Rekey(Timeseries(db, from, to, "hour", f), ToBucket(86400)), Earlier)
         == Timeseries(db, from, to, "day", f)
  {
    var rows := Joined(db, from, to);
    forall ts
      ensures Bucket(Bucket(ts, 60), 3600) == Bucket(ts, 3600)
      ensures Bucket(Bucket(ts, 3600), 86400) == Bucket(ts, 86400)
    {
      MinutesNestInHours(ts);
      HoursNestInDays(ts);
    }
    ChargesRekey(rows, f, 60, 3600);
    ChargesRekey(rows, f, 3600, 86400);
    RollUp(SeriesCharges(rows, f, 60), ToBucket(3600));
    RollUp(SeriesCharges(rows, f, 3600), ToBucket(86400));
  }

  // ---------------------------------------------------------------------------------
  // Reports as plain sums over the samples table.

  /** The bytes of the samples in a window that meet a condition on the row and its network. */
  function SumSamples(rows: seq<InterfaceSample>, sessions: Sessions, from: int, to: int, p: Located -> bool): Bytes {
    if rows == [] then ZERO
    else
      var r := rows[|rows| - 1];
      var before := SumSamples(rows[..|rows| - 1], sessions, from, to, p);
      if from <= r.ts < to && r.sid in sessions && p(Located(r, sessions[r.sid].net))
      then Plus(before, Bytes(r.bytesIn, r.bytesOut)) else before
  }

  function SumLocated(rows: seq<Located>, p: Located -> bool): Bytes {
    if rows == [] then ZERO
    else
      var before := SumLocated(rows[..|rows| - 1], p);
      if p(rows[|rows| - 1]) then Plus(before, RowBytes(rows[|rows| - 1])) else before
  }

  lemma {:induction false} JoinSums(
    rows: seq<InterfaceSample>, sessions: Sessions, from: int, to: int, p: Located -> bool)
    ensures SumLocated(Choose(rows, LocateIn(sessions, from, to)), p) == SumSamples(rows, sessions, from, to, p)
  {
    if rows != [] {
      var n := |rows| - 1;
      var before := Choose(rows[..n], LocateIn(sessions, from, to));
      JoinSums(rows[..n], sessions, from, to, p);
      var last := LocateIn(sessions, from, to)(rows[n]);
      if last.Some? {
        assert (before + [last.value])[..|before|] == before;
      } else {
        assert before + [] == before;
      }
    }
  }

  function Admitted(f: NetFilter): Located -> bool {
    (l: Located) => Admits(f, l.net)
  }

  /** The admitted samples of one bucket. */
  function AdmittedIn(f: NetFilter, width: int, bucket: int): Located -> bool
    requires width > 0
  {
    (l: Located) => Admits(f, l.net) && Bucket(l.row.ts, width) == bucket
  }

  lemma OneMoreLocated(rows: seq<Located>, l: Located, f: NetFilter, width: int)
    requires width > 0
    ensures SeriesCharges(rows + [l], f, width)
         == if Admits(f, l.net) then SeriesCharges(rows, f, width) + [Charge(Bucket(l.row.ts, width), RowBytes(l))]
            else SeriesCharges(rows, f, width)
  {
    assert (rows + [l])[..|rows|] == rows;
  }

  lemma OneMoreSum(rows: seq<Located>, l: Located, p: Located -> bool)
    ensures SumLocated(rows + [l], p) == if p(l) then Plus(SumLocated(rows, p), RowBytes(l)) else SumLocated(rows, p)
  {
    assert (rows + [l])[..|rows|] == rows;
  }

  lemma OneMoreCharge(before: seq<Charge<int>>, c: Charge<int>, bucket: int)
    ensures TotalAt(before + [c], bucket)
         == if c.key == bucket then Plus(TotalAt(before, bucket), c.bytes) else TotalAt(before, bucket)
    ensures bucket in Keys(before + [c]) <==> bucket in Keys(before) || c.key == bucket
  {
    TotalLast(before, c, Equals(bucket));
    KeysLast(before, c);
  }

  lemma {:induction false} SeriesTotals(rows: seq<Located>, f: NetFilter, width: int, bucket: int)
    requires width > 0
    ensures TotalAt(SeriesCharges(rows, f, width), bucket) == SumLocated(rows, AdmittedIn(f, width, bucket))
  {
    if rows != [] {
      var n := |rows| - 1;
      SeriesTotals(rows[..n], f, width, bucket);
      assert rows == rows[..n] + [rows[n]];
      OneMoreLocated(rows[..n], rows[n], f, width);
      OneMoreSum(rows[..n], rows[n], AdmittedIn(f, width, bucket));
      OneMoreCharge(SeriesCharges(rows[..n], f, width), Charge(Bucket(rows[n].row.ts, width), RowBytes(rows[n])),
                    bucket);
    }
  }

  lemma {:induction false} SeriesKeys(rows: seq<Located>, f: NetFilter, width: int, bucket: int)
    requires width > 0
    ensures bucket in Keys(SeriesCharges(rows, f, width)) <==> exists l :: l in rows && AdmittedIn(f, width, bucket)(l)
  {
    if rows != [] {
      var n := |rows| - 1;
      var p := AdmittedIn(f, width, bucket);
      SeriesKeys(rows[..n], f, width, bucket);
      assert rows == rows[..n] + [rows[n]];
      assert (exists l :: l in rows && p(l)) <==> (exists l :: l in rows[..n] && p(l)) || p(rows[n]);
      OneMoreLocated(rows[..n], rows[n], f, width);
      OneMoreCharge(SeriesCharges(rows[..n], f, width), Charge(Bucket(rows[n].row.ts, width), RowBytes(rows[n])),
                    bucket);
    }
  }

  lemma KeysLast<K>(charges: seq<Charge<K>>, c: Charge<K>)
    ensures Keys(charges + [c]) == Keys(charges) + {c.key}
  {
  }

  lemma {:induction false} ChargesTotal(rows: seq<Located>, f: NetFilter, width: int)
    requires width > 0
    ensures Total(SeriesCharges(rows, f, width)) == SumLocated(rows, Admitted(f))
  {
    if rows != [] {
      var n := |rows| - 1;
      ChargesTotal(rows[..n], f, width);
      assert rows == rows[..n] + [rows[n]];
      OneMoreLocated(rows[..n], rows[n], f, width);
      OneMoreSum(rows[..n], rows[n], Admitted(f));
      TotalLast(SeriesCharges(rows[..n], f, width), Charge(Bucket(rows[n].row.ts, width), RowBytes(rows[n])),
                Anything());
    }
  }

  /** Every series, over any window and at every granularity, adds up to the plain sums of its samples. */
  lemma SeriesTotal(db: Tables, from: int, to: int, granularity: string, f: NetFilter)
    ensures Total(Timeseries(db, from, to, granularity, f))
         == SumSamples(db.iface, db.sessions, from, to, Admitted(f))
  {
    var rows := Joined(db, from, to);
    GroupIsSum(SeriesCharges(rows, f, WidthOf(granularity)), Earlier);
    ChargesTotal(rows, f, WidthOf(granularity));
    JoinSums(db.iface, db.sessions, from, to, Admitted(f));
  }

  /**
   * A row of a time series, in both directions: its bucket holds an admitted sample, and
   * its two amounts are the plain sums over those samples.
   */
  lemma SeriesRow(db: Tables, from: int, to: int, granularity: string, f: NetFilter, row: Charge<int>)
    ensures var inBucket := AdmittedIn(f, WidthOf(granularity), row.key);
            row in Timeseries(db, from, to, granularity, f)
            <==> (exists l :: l in Joined(db, from, to) && inBucket(l))
                 && row.bytes == SumSamples(db.iface, db.sessions, from, to, inBucket)
  {
    var rows := Joined(db, from, to);
    GroupRow(SeriesCharges(rows, f, WidthOf(granularity)), Earlier, row);
    SeriesTotals(rows, f, WidthOf(granularity), row.key);
    SeriesKeys(rows, f, WidthOf(granularity), row.key);
    JoinSums(db.iface, db.sessions, from, to, AdmittedIn(f, WidthOf(granularity), row.key));
  }

  lemma {:induction false} UsedIsSum(rows: seq<Located>, f: NetFilter)
    ensures var t := SumLocated(rows, Admitted(f)); Used(rows, f) == t.rx + t.tx
  {
    if rows != [] {
      UsedIsSum(rows[..|rows| - 1], f);
    }
  }

  // ---------------------------------------------------------------------------------
  // Budgets.

  function PeriodSeconds(period: string): (seconds: int)
    ensures 0 < seconds <= 2592000
  {
    if period == "hour" then 3600
    else if period == "day" then 86400
    else if period == "week" then 604800
    else 2592000
  }

  function ScopeFilter(scope: string, ssid: Option<string>, linkType: Option<string>): NetFilter {
    if scope == "metered" then Metered
    else if scope == "net" then FilterFor(ssid, linkType)
    else AllNetworks
  }

  datatype Budget = Budget(from: int, to: int, usedBytes: int, over: bool)

  /** query_budget over the rolling window that ends at `now`; the percentage is left out. */
  function QueryBudget(
    db: Tables, capBytes: int, period: string, now: int,
    scope: string, ssid: Option<string>, linkType: Option<string>): Budget
  {
    var from := now - PeriodSeconds(period);
    var used := Used(Joined(db, from, now), ScopeFilter(scope, ssid, linkType));
    Budget(from, now, used, capBytes > 0 && used >= capBytes)
  }

  /** A budget's bytes are the plain sum of both directions over its window and scope. */
  lemma BudgetIsSum(
    db: Tables, capBytes: int, period: string, now: int, scope: string, ssid: Option<string>, linkType: Option<string>)
    ensures var f := ScopeFilter(scope, ssid, linkType);
            var t := SumSamples(db.iface, db.sessions, now - PeriodSeconds(period), now, Admitted(f));
            QueryBudget(db, capBytes, period, now, scope, ssid, linkType).usedBytes == t.rx + t.tx
  {
    var f := ScopeFilter(scope, ssid, linkType);
    JoinSums(db.iface, db.sessions, now - PeriodSeconds(period), now, Admitted(f));
    UsedIsSum(Joined(db, now - PeriodSeconds(period), now), f);
  }

  /** Every series, at every granularity, adds up to what the budget reports for its window and network. */
  lemma SeriesSumsToBudget(
    db: Tables, capBytes: int, period: string, now: int, granularity: string,
    ssid: Option<string>, linkType: Option<string>)
    ensures var budget := QueryBudget(db, capBytes, period, now, "net", ssid, linkType);
            var t := Total(Timeseries(db, budget.from, budget.to, granularity, FilterFor(ssid, linkType)));
            t.rx + t.tx == budget.usedBytes
  {
    SeriesTotal(db, now - PeriodSeconds(period), now, granularity, FilterFor(ssid, linkType));
    BudgetIsSum(db, capBytes, period, now, "net", ssid, linkType);
  }

  // ---------------------------------------------------------------------------------
  // Networks partition traffic.

  /** A budget request for one network: by ssid, else by link type. */
  datatype Request = Request(ssid: Option<string>, linkType: Option<string>) {
    function Filter(): NetFilter {
      FilterFor(ssid, linkType)
    }
  }

  /** The server refuses a request that names no network. */
  predicate Accepted(r: Request) {
    (r.ssid.Some? && r.ssid.value != "") || (r.linkType.Some? && r.linkType.value != "")
  }

  /** Requests the server accepts, each for another network. */
  ghost predicate Distinct(requests: seq<Request>) {
    && (forall r :: r in requests ==> Accepted(r))
    && (forall i, j :: 0 <= i < j < |requests| ==> requests[i].Filter() != requests[j].Filter())
  }

  function NetBudget(db: Tables, capBytes: int, period: string, now: int, r: Request): int {
    QueryBudget(db, capBytes, period, now, "net", r.ssid, r.linkType).usedBytes
  }

  function SumOfBudgets(db: Tables, capBytes: int, period: string, now: int, requests: seq<Request>): int {
    if requests == [] then 0
    else
      var n := |requests| - 1;
      SumOfBudgets(db, capBytes, period, now, requests[..n]) + NetBudget(db, capBytes, period, now, requests[n])
  }

  predicate Asks(requests: seq<Request>, net: Identity) {
    FilterOf(net).Some? && exists r :: r in requests && r.Filter() == FilterOf(net).value
  }

  function LocatedBytes(l: Located): int {
    l.row.bytesIn + l.row.bytesOut
  }

  /** Bytes on networks that none of the requests asks for. */
  function Missed(rows: seq<Located>, requests: seq<Request>): int {
    if rows == [] then 0
    else
      var last := rows[|rows| - 1];
      Missed(rows[..|rows| - 1], requests) + if Asks(requests, last.net) then 0 else LocatedBytes(last)
  }

  /** A network's own filter is the only single-network filter that admits it. */
  lemma OneFilterAdmits(r: Request, net: Identity)
    requires Accepted(r)
    ensures Admits(r.Filter(), net) <==> FilterOf(net) == Some(r.Filter())
  {
  }

  lemma AsksGrows(requests: seq<Request>, r: Request, net: Identity)
    requires Distinct(requests + [r])
    ensures Distinct(requests)
    ensures Asks(requests + [r], net) <==> Asks(requests, net) || Admits(r.Filter(), net)
    ensures !(Asks(requests, net) && Admits(r.Filter(), net))
  {
    var all := requests + [r];
    assert all[|requests|] == r && r in all;
    assert forall i :: 0 <= i < |requests| ==> all[i] == requests[i];
    OneFilterAdmits(r, net);
  }

  /** One more request takes its budget out of what is missed. */
  lemma {:induction false} MissedShrinks(rows: seq<Located>, requests: seq<Request>, r: Request)
    requires Distinct(requests + [r])
    ensures Missed(rows, requests) == Missed(rows, requests + [r]) + Used(rows, r.Filter())
  {
    if rows != [] {
      var n := |rows| - 1;
      MissedShrinks(rows[..n], requests, r);
      AsksGrows(requests, r, rows[n].net);
    }
  }

  lemma {:induction false} NothingAsked(rows: seq<Located>)
    ensures Missed(rows, []) == Used(rows, AllNetworks)
  {
    if rows != [] {
      NothingAsked(rows[..|rows| - 1]);
    }
  }

  /**
   * Budgets of single networks partition the traffic: over any requests for different
   * networks they add up to the budget of all networks, less exactly the bytes on networks
   * that no request asks for.
   */
  lemma {:induction false} BudgetsPartition(db: Tables, capBytes: int, period: string, now: int, requests: seq<Request>)
    requires Distinct(requests)
    ensures SumOfBudgets(db, capBytes, period, now, requests)
         == QueryBudget(db, capBytes, period, now, "all", None, None).usedBytes
            - Missed(Joined(db, now - PeriodSeconds(period), now), requests)
  {
    var rows := Joined(db, now - PeriodSeconds(period), now);
    if requests == [] {
      NothingAsked(rows);
    } else {
      var n := |requests| - 1;
      assert requests == requests[..n] + [requests[n]];
      BudgetsPartition(db, capBytes, period, now, requests[..n]);
      MissedShrinks(rows, requests[..n], requests[n]);
    }
  }

  lemma {:induction false} MissesNothing(rows: seq<Located>, requests: seq<Request>)
    requires forall l :: l in rows ==> LocatedBytes(l) >= 0
    ensures Missed(rows, requests) >= 0
    ensures Missed(rows, requests) == 0 <==> forall l :: l in rows ==> Asks(requests, l.net) || LocatedBytes(l) == 0
  {
    if rows != [] {
      var n := |rows| - 1;
      MissesNothing(rows[..n], requests);
      assert rows == rows[..n] + [rows[n]];
    }
  }

  /**
   * With no negative samples the budgets of any requests for different networks never exceed
   * the budget of all networks, and meet it exactly when every sample in the window that has
   * bytes is on a network some request asks for.
   */
  lemma BudgetsMeetIff(db: Tables, capBytes: int, period: string, now: int, requests: seq<Request>)
    requires Distinct(requests)
    requires forall r :: r in db.iface ==> r.bytesIn >= 0 && r.bytesOut >= 0
    ensures var rows := Joined(db, now - PeriodSeconds(period), now);
            var all := QueryBudget(db, capBytes, period, now, "all", None, None).usedBytes;
            && SumOfBudgets(db, capBytes, period, now, requests) <= all
            && (SumOfBudgets(db, capBytes, period, now, requests) == all
                <==> forall l :: l in rows ==> Asks(requests, l.net) || LocatedBytes(l) == 0)
  {
    var rows := Joined(db, now - PeriodSeconds(period), now);
    BudgetsPartition(db, capBytes, period, now, requests);
    LocatedRows(db.iface, db.sessions, now - PeriodSeconds(period), now);
    MissesNothing(rows, requests);
  }

  lemma {:induction false} LocatedRows(rows: seq<InterfaceSample>, sessions: Sessions, from: int, to: int)
    ensures forall l :: l in Choose(rows, LocateIn(sessions, from, to)) ==>
              l.row in rows && l.row.sid in sessions && l.net == sessions[l.row.sid].net
  {
    if rows != [] {
      var n := |rows| - 1;
      LocatedRows(rows[..n], sessions, from, to);
      assert rows == rows[..n] + [rows[n]];
    }
  }

  // Requests that ask for everything that can be asked for.

  function RequestFor(net: Identity): Request {
    Request(net.ssid, Some(net.linkType))
  }

  /** One request for each network in the window, in the order in which they first appear. */
  function RequestsFor(rows: seq<Located>): seq<Request> {
    if rows == [] then []
    else
      var last := rows[|rows| - 1];
      var before := RequestsFor(rows[..|rows| - 1]);
      if FilterOf(last.net).None? || Asks(before, last.net) then before else before + [RequestFor(last.net)]
  }

  lemma {:induction false} RequestsForAll(rows: seq<Located>)
    ensures Distinct(RequestsFor(rows))
    ensures forall l :: l in rows && FilterOf(l.net).Some? ==> Asks(RequestsFor(rows), l.net)
  {
    if rows != [] {
      var n := |rows| - 1;
      var before, last := RequestsFor(rows[..n]), rows[n];
      RequestsForAll(rows[..n]);
      assert rows == rows[..n] + [last];
      var r := RequestFor(last.net);
      if FilterOf(last.net).Some? && !Asks(before, last.net) {
        assert r.Filter() == FilterOf(last.net).value;
        assert RequestsFor(rows) == before + [r] && r in before + [r];
      }
    }
  }

  /** Single networks can be made to add up exactly when every network that has bytes can be asked for. */
  lemma BudgetsCanMeetIff(db: Tables, capBytes: int, period: string, now: int)
    requires forall r :: r in db.iface ==> r.bytesIn >= 0 && r.bytesOut >= 0
    ensures var rows := Joined(db, now - PeriodSeconds(period), now);
            var all := QueryBudget(db, capBytes, period, now, "all", None, None).usedBytes;
            (exists requests :: Distinct(requests) && SumOfBudgets(db, capBytes, period, now, requests) == all)
            <==> forall l :: l in rows ==> FilterOf(l.net).Some? || LocatedBytes(l) == 0
  {
    var rows := Joined(db, now - PeriodSeconds(period), now);
    var all := QueryBudget(db, capBytes, period, now, "all", None, None).usedBytes;
    RequestsForAll(rows);
    BudgetsMeetIff(db, capBytes, period, now, RequestsFor(rows));
    if requests :| Distinct(requests) && SumOfBudgets(db, capBytes, period, now, requests) == all {
      BudgetsMeetIff(db, capBytes, period, now, requests);
    }
  }

  /** A window that holds a single sample. */
  lemma OneSample(db: Tables, row: InterfaceSample, from: int, to: int, f: NetFilter)
    requires db.iface == [row] && row.sid in db.sessions && from <= row.ts < to
    ensures Used(Joined(db, from, to), f)
         == if Admits(f, db.sessions[row.sid].net) then row.bytesIn + row.bytesOut else 0
  {
    var rows := [Located(row, db.sessions[row.sid].net)];
    SingleRow(row, (x: InterfaceSample) => true, LocateIn(db.sessions, from, to));
    assert Joined(db, from, to) == rows;
    assert rows[..0] == [];
  }

  /** A sample on a network that cannot be asked for counts for all networks, and for no accepted request. */
  lemma UnaskableSample(db: Tables, row: InterfaceSample, from: int, to: int, r: Request)
    requires db.iface == [row] && row.sid in db.sessions && from <= row.ts < to
    requires FilterOf(db.sessions[row.sid].net).None? && Accepted(r)
    ensures Used(Joined(db, from, to), AllNetworks) == row.bytesIn + row.bytesOut
    ensures Used(Joined(db, from, to), r.Filter()) == 0
  {
    OneSample(db, row, from, to, AllNetworks);
    OneSample(db, row, from, to, r.Filter());
    OneFilterAdmits(r, db.sessions[row.sid].net);
  }

  function OneByte(net: Identity, now: int): Tables {
    EMPTY.(sessions := map[1 := Session(now - 2, None, net, None)], iface := [InterfaceSample(now - 1, 1, 1, 0)])
  }

  /** A network that no request can ask for: its only byte counts, and no single-network budget has it. */
  lemma UnaskableNetwork(net: Identity, now: int, capBytes: int, period: string, r: Request)
    requires FilterOf(net).None? && Accepted(r)
    ensures QueryBudget(OneByte(net, now), capBytes, period, now, "all", None, None).usedBytes == 1
    ensures NetBudget(OneByte(net, now), capBytes, period, now, r) == 0
  {
    UnaskableSample(OneByte(net, now), InterfaceSample(now - 1, 1, 1, 0), now - PeriodSeconds(period), now, r);
  }

  // ---------------------------------------------------------------------------------
  // By network.

  datatype Network = Network(linkType: string, ssid: Option<string>)

  predicate Unordered(a: Network, b: Network) {
    false
  }

  function NetworkCharges(rows: seq<Located>): seq<Charge<Network>> {
    if rows == [] then []
    else
      var last := rows[|rows| - 1];
      NetworkCharges(rows[..|rows| - 1]) + [Charge(Network(last.net.linkType, last.net.ssid), RowBytes(last))]
  }

  /** _by_network: one row for each (link_type, ssid) pair in the window. */
  function ByNetwork(db: Tables, from: int, to: int): seq<Charge<Network>> {
    GroupBy(NetworkCharges(Joined(db, from, to)), Unordered)
  }

  /** The ssid a row of the report shows: an empty one is shown as none. */
  function ShownSsid(n: Network): Option<string> {
    if n.ssid == Some("") then None else n.ssid
  }

  function Shows(ssid: string): Network -> bool {
    (n: Network) => ShownSsid(n) == Some(ssid)
  }

  lemma {:induction false} NetworkTotals(rows: seq<Located>, ssid: string)
    ensures var t := Total(NetworkCharges(rows)); t.rx + t.tx == Used(rows, AllNetworks)
    ensures ssid != "" ==>
              var t := TotalWhere(NetworkCharges(rows), Shows(ssid)); t.rx + t.tx == Used(rows, BySsid(ssid))
  {
    if rows != [] {
      var n := |rows| - 1;
      NetworkTotals(rows[..n], ssid);
      var c := Charge(Network(rows[n].net.linkType, rows[n].net.ssid), RowBytes(rows[n]));
      TotalLast(NetworkCharges(rows[..n]), c, Anything());
      TotalLast(NetworkCharges(rows[..n]), c, Shows(ssid));
    }
  }

  /**
   * The by-network rows add up to the whole window, and those that show one SSID add up to
   * the budget that asks for it.
   */
  lemma ByNetworkSums(db: Tables, from: int, to: int, ssid: string)
    ensures var t := Total(ByNetwork(db, from, to)); t.rx + t.tx == Used(Joined(db, from, to), AllNetworks)
    ensures ssid != "" ==>
              var t := TotalWhere(ByNetwork(db, from, to), Shows(ssid));
              t.rx + t.tx == Used(Joined(db, from, to), FilterFor(Some(ssid), None))
  {
    GroupIsSum(NetworkCharges(Joined(db, from, to)), Unordered);
    NetworkTotals(Joined(db, from, to), ssid);
  }

  function OnNetwork(n: Network): Located -> bool {
    (l: Located) => l.net.linkType == n.linkType && l.net.ssid == n.ssid
  }

  lemma {:induction false} OneNetworkTotals(rows: seq<Located>, n: Network)
    ensures TotalAt(NetworkCharges(rows), n) == SumLocated(rows, OnNetwork(n))
    ensures n in Keys(NetworkCharges(rows)) <==> exists l :: l in rows && OnNetwork(n)(l)
  {
    if rows != [] {
      var last := rows[|rows| - 1];
      var before := NetworkCharges(rows[..|rows| - 1]);
      OneNetworkTotals(rows[..|rows| - 1], n);
      assert rows == rows[..|rows| - 1] + [last];
      var c := Charge(Network(last.net.linkType, last.net.ssid), RowBytes(last));
      TotalLast(before, c, Equals(n));
      KeysLast(before, c);
    }
  }

  /** A by-network row: its network has a sample in the window, and its amounts are their plain sums. */
  lemma ByNetworkRow(db: Tables, from: int, to: int, row: Charge<Network>)
    ensures row in ByNetwork(db, from, to)
       <==> (exists l :: l in Joined(db, from, to) && OnNetwork(row.key)(l))
            && row.bytes == SumSamples(db.iface, db.sessions, from, to, OnNetwork(row.key))
  {
    GroupRow(NetworkCharges(Joined(db, from, to)), Unordered, row);
    OneNetworkTotals(Joined(db, from, to), row.key);
    JoinSums(db.iface, db.sessions, from, to, OnNetwork(row.key));
  }

  // ---------------------------------------------------------------------------------
  // Gaps and sessions lists.

  /** get_gaps, before sorting: the gaps that overlap the window. */
  function GapsIn(db: Tables, from: int, to: int): seq<Gap> {
    Keep(db.gaps, (g: Gap) => g.end > from && g.start < to)
  }

  /** _sessions: the ids of the sessions that overlap the window. */
  function SessionsIn(db: Tables, from: int, to: int): set<int> {
    set id | id in db.sessions && db.sessions[id].startedAt < to
             && (db.sessions[id].endedAt.None? || db.sessions[id].endedAt.value >= from)
  }
}
