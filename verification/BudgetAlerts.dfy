/**
 * checkBudgetThresholds of mac-app/Sources/AppBand/NetworkMonitor.swift: alerts at 80 and
 * 100 percent, deduplicated through one "bucket:threshold" string for each period.
 * Times are whole seconds, which is all that dividing by a window keeps.
 */
module BudgetAlerts {
  import opened Basics
  import opened Text

  type Defaults = map<string, string>

  function Crossed(pct: real): nat {
    if pct >= 100.0 then 100 else if pct >= 80.0 then 80 else 0
  }

  function Window(period: string): (seconds: nat)
    ensures seconds > 0
  {
    if period == "hour" then 3600
    else if period == "day" then 86400
    else if period == "week" then 604800
    else 2592000
  }

  function BucketOf(period: string, now: nat): nat {
    now / Window(period)
  }

  function Key(period: string): string {
    "budget.notified." + period
  }

  function Encode(bucket: nat, threshold: nat): string {
    PrintNat(bucket) + ":" + PrintNat(threshold)
  }

  /** Swift's Int(_:) on text: an optional sign and digits, nothing else. */
  function SwiftInt(s: string): Option<int> {
    var digits := if s != "" && (s[0] == '-' || s[0] == '+') then s[1..] else s;
    if digits == "" || !AllDigits(digits) then None
    else
      var magnitude: int := ReadNat(digits);
      Some(if s[0] == '-' then -magnitude else magnitude)
  }

  /** The parts of a text between its colons; Swift's split omits empty ones. */
  function Parts(s: string): seq<string> {
    Keep(Split(s, ':'), (p: string) => p != "")
  }

  datatype Notified = Notified(bucket: int, threshold: int)

  function GetOr(n: Option<int>, otherwise: int): int {
    if n.Some? then n.value else otherwise
  }

  function Decode(stored: Option<string>): Notified {
    if stored.None? then Notified(-1, 0)
    else
      var parts := Parts(stored.value);
      if |parts| == 2 then Notified(GetOr(SwiftInt(parts[0]), -1), GetOr(SwiftInt(parts[1]), 0))
      else Notified(-1, 0)
  }

  lemma NonEmptyParts(a: string, b: string)
    requires a != "" && b != ""
    ensures Keep([a, b], (p: string) => p != "") == [a, b]
  {
    assert [a, b][..1] == [a] && [a][..0] == [];
    assert Keep([a], (p: string) => p != "") == [a];
  }

  lemma IntPrinted(n: nat)
    ensures SwiftInt(PrintNat(n)) == Some(n)
  {
    var s := PrintNat(n);
    assert s[0] in s;
    ReadPrinted(n);
  }

  /** The stored string survives its own parse. */
  lemma DecodeEncoded(bucket: nat, threshold: nat)
    ensures Decode(Some(Encode(bucket, threshold))) == Notified(bucket, threshold)
  {
    var a, b := PrintNat(bucket), PrintNat(threshold);
    assert ':' !in a && ':' !in b;
    SplitFirst(a, ':', b);
    assert Split(b, ':') == [b];
    assert Split(a + ":" + b, ':') == [a, b];
    NonEmptyParts(a, b);
    IntPrinted(bucket);
    IntPrinted(threshold);
  }

  /** A stored text without a colon, or none at all, counts as no alert so far. */
  lemma UnreadableIsForgotten(text: string)
    requires ':' !in text
    ensures Decode(Some(text)) == Notified(-1, 0) && Decode(None) == Notified(-1, 0)
  {
    assert Split(text, ':') == [text];
    SingleRow(text, (p: string) => p != "", (p: string) => Some(p));
  }

  // ---------------------------------------------------------------------------------
  // One check.

  datatype Check = Check(period: string, pct: real, now: nat)

  function Bucket(c: Check): nat {
    BucketOf(c.period, c.now)
  }

  function Stored(defaults: Defaults, period: string): Option<string> {
    if Key(period) in defaults then Some(defaults[Key(period)]) else None
  }

  /** The threshold announced by a check, if it announces one. */
  function Alert(defaults: Defaults, c: Check): Option<nat> {
    var last := Decode(Stored(defaults, c.period));
    var already := if last.bucket == Bucket(c) then last.threshold else 0;
    if Crossed(c.pct) > 0 && Crossed(c.pct) > already then Some(Crossed(c.pct)) else None
  }

  function AfterCheck(defaults: Defaults, c: Check): Defaults {
    var alert := Alert(defaults, c);
    if alert.Some? then defaults[Key(c.period) := Encode(Bucket(c), alert.value)] else defaults
  }

  class NetworkMonitor {
    var defaults: Defaults

    constructor ()
      ensures defaults == map[]
    {
      defaults := map[];
    }

    method CheckBudgetThresholds(pct: real, period: string, now: nat) returns (alert: Option<nat>)
      modifies this
      ensures alert == Alert(old(defaults), Check(period, pct, now))
      ensures defaults == AfterCheck(old(defaults), Check(period, pct, now))
    {
      var crossed := if pct >= 100.0 then 100 else if pct >= 80.0 then 80 else 0;
      if crossed == 0 {
        return None;
      }
      var bucket := now / Window(period);
      var lastBucket, lastThreshold := -1, 0;
      if Key(period) in defaults {
        var parts := Parts(defaults[Key(period)]);
        if |parts| == 2 {
          lastBucket := GetOr(SwiftInt(parts[0]), -1);
          lastThreshold := GetOr(SwiftInt(parts[1]), 0);
        }
      }
      var alreadyFired := if bucket == lastBucket then lastThreshold else 0;
      if crossed <= alreadyFired {
        return None;
      }
      defaults := defaults[Key(period) := Encode(bucket, crossed)];
      return Some(crossed);
    }
  }

  // ---------------------------------------------------------------------------------
  // Runs of checks.

  function DefaultsAfter(checks: seq<Check>): Defaults {
    if checks == [] then map[] else AfterCheck(DefaultsAfter(checks[..|checks| - 1]), checks[|checks| - 1])
  }

  /** What the i-th check of a run announces. */
  function AlertAt(checks: seq<Check>, i: nat): Option<nat>
    requires i < |checks|
  {
    Alert(DefaultsAfter(checks[..i]), checks[i])
  }

  ghost predicate Ordered(checks: seq<Check>) {
    forall i, j :: 0 <= i < j < |checks| ==> checks[i].now <= checks[j].now
  }

  predicate InBucket(c: Check, period: string, bucket: nat) {
    c.period == period && Bucket(c) == bucket
  }

  /** The highest threshold a period's bucket has reached; 0 if none. */
  function Highest(checks: seq<Check>, period: string, bucket: nat): nat {
    if checks == [] then 0
    else
      var last := checks[|checks| - 1];
      var before := Highest(checks[..|checks| - 1], period, bucket);
      if InBucket(last, period, bucket) then Max(before, Crossed(last.pct)) else before
  }

  /** The bucket in which a period last crossed a threshold. */
  function LastCrossed(checks: seq<Check>, period: string): Option<nat> {
    if checks == [] then None
    else
      var last := checks[|checks| - 1];
      if last.period == period && Crossed(last.pct) > 0 then Some(Bucket(last))
      else LastCrossed(checks[..|checks| - 1], period)
  }

  lemma BucketsAdvance(period: string, a: nat, b: nat)
    requires a <= b
    ensures BucketOf(period, a) <= BucketOf(period, b)
  {
    var w := Window(period);
    var p, q := a / w, b / w;
    assert a == p * w + a % w && b == q * w + b % w;
    assert p > q ==> p * w >= (q + 1) * w;
  }

  /** Only buckets up to the last crossed one have reached anything. */
  lemma {:induction false} LaterBucketsEmpty(checks: seq<Check>, period: string, bucket: nat)
    requires Ordered(checks)
    requires LastCrossed(checks, period).None? || LastCrossed(checks, period).value < bucket
    ensures Highest(checks, period, bucket) == 0
  {
    if checks != [] {
      var n := |checks| - 1;
      var last := checks[n];
      if last.period == period && Crossed(last.pct) > 0 {
        NothingAhead(checks[..n], period, bucket, last.now);
      } else {
        LaterBucketsEmpty(checks[..n], period, bucket);
      }
    }
  }

  lemma {:induction false} NothingAhead(checks: seq<Check>, period: string, bucket: nat, now: nat)
    requires forall i :: 0 <= i < |checks| ==> checks[i].now <= now
    requires BucketOf(period, now) < bucket
    ensures Highest(checks, period, bucket) == 0
  {
    if checks != [] {
      var n := |checks| - 1;
      NothingAhead(checks[..n], period, bucket, now);
      BucketsAdvance(period, checks[n].now, now);
    }
  }

  lemma {:induction false} LastCrossedBounded(checks: seq<Check>, period: string, now: nat)
    requires forall i :: 0 <= i < |checks| ==> checks[i].now <= now
    ensures LastCrossed(checks, period).Some? ==> LastCrossed(checks, period).value <= BucketOf(period, now)
    ensures LastCrossed(checks, period).Some? ==> Highest(checks, period, LastCrossed(checks, period).value) > 0
  {
    if checks != [] {
      var n := |checks| - 1;
      LastCrossedBounded(checks[..n], period, now);
      BucketsAdvance(period, checks[n].now, now);
    }
  }

  /** What the defaults hold for a period: its last crossed bucket and the highest threshold there. */
  ghost predicate Recorded(defaults: Defaults, checks: seq<Check>, period: string) {
    Stored(defaults, period)
    == match LastCrossed(checks, period)
       case None => None
       case Some(b) => Some(Encode(b, Highest(checks, period, b)))
  }

  lemma KeysDiffer(p: string, q: string)
    ensures Key(p) == Key(q) <==> p == q
  {
    var prefix := "budget.notified.";
    assert Key(p)[|prefix|..] == p && Key(q)[|prefix|..] == q;
  }

  /** A check whose period's record is right announces exactly what is new in its bucket. */
  lemma AlertIsNews(defaults: Defaults, checks: seq<Check>, c: Check)
    requires Ordered(checks + [c]) && Recorded(defaults, checks, c.period)
    ensures Alert(defaults, c)
         == if Crossed(c.pct) > Highest(checks, c.period, Bucket(c)) then Some(Crossed(c.pct)) else None
  {
    assert forall i :: 0 <= i < |checks| ==> (checks + [c])[i] == checks[i];
    assert (checks + [c])[|checks|] == c;
    LastCrossedBounded(checks, c.period, c.now);
    match LastCrossed(checks, c.period)
    case None => LaterBucketsEmpty(checks, c.period, Bucket(c));
    case Some(b) =>
      DecodeEncoded(b, Highest(checks, c.period, b));
      if b < Bucket(c) {
        LaterBucketsEmpty(checks, c.period, Bucket(c));
      }
  }

  /** What one more check adds to the summary of a run. */
  lemma OneMoreCheck(checks: seq<Check>, c: Check, period: string, bucket: nat)
    ensures LastCrossed(checks + [c], period)
         == if c.period == period && Crossed(c.pct) > 0 then Some(Bucket(c)) else LastCrossed(checks, period)
    ensures Highest(checks + [c], period, bucket)
         == if InBucket(c, period, bucket) then Max(Highest(checks, period, bucket), Crossed(c.pct))
            else Highest(checks, period, bucket)
  {
    assert (checks + [c])[..|checks|] == checks;
  }

  lemma OwnCheckRecords(defaults: Defaults, checks: seq<Check>, c: Check)
    requires Ordered(checks + [c]) && Recorded(defaults, checks, c.period)
    ensures Recorded(AfterCheck(defaults, c), checks + [c], c.period)
  {
    AlertIsNews(defaults, checks, c);
    OneMoreCheck(checks, c, c.period, Bucket(c));
    assert forall i :: 0 <= i < |checks| ==> (checks + [c])[i] == checks[i];
    assert (checks + [c])[|checks|] == c;
    LastCrossedBounded(checks, c.period, c.now);
    match LastCrossed(checks, c.period)
    case None => LaterBucketsEmpty(checks, c.period, Bucket(c));
    case Some(b) =>
      OneMoreCheck(checks, c, c.period, b);
      if b < Bucket(c) {
        LaterBucketsEmpty(checks, c.period, Bucket(c));
      }
  }

  lemma OtherCheckRecords(defaults: Defaults, checks: seq<Check>, c: Check, period: string)
    requires c.period != period && Recorded(defaults, checks, period)
    ensures Recorded(AfterCheck(defaults, c), checks + [c], period)
  {
    KeysDiffer(c.period, period);
    OneMoreCheck(checks, c, period, 0);
    match LastCrossed(checks, period)
    case None =>
    case Some(b) => OneMoreCheck(checks, c, period, b);
  }

  lemma {:induction false} RunRecords(checks: seq<Check>, period: string)
    requires Ordered(checks)
    ensures Recorded(DefaultsAfter(checks), checks, period)
  {
    if checks != [] {
      var n := |checks| - 1;
      assert checks == checks[..n] + [checks[n]];
      RunRecords(checks[..n], period);
      if checks[n].period == period {
        OwnCheckRecords(DefaultsAfter(checks[..n]), checks[..n], checks[n]);
      } else {
        OtherCheckRecords(DefaultsAfter(checks[..n]), checks[..n], checks[n], period);
      }
    }
  }

  /**
   * In any run of checks in time order, with periods interleaved at will, a check alerts
   * exactly when it crosses a threshold above everything its period's bucket has reached.
   */
  lemma AlertsAreNews(checks: seq<Check>, i: nat)
    requires Ordered(checks) && i < |checks|
    ensures var c := checks[i];
            AlertAt(checks, i)
            == if Crossed(c.pct) > Highest(checks[..i], c.period, Bucket(c)) then Some(Crossed(c.pct)) else None
  {
    var before := checks[..i];
    RunRecords(before, checks[i].period);
    assert before + [checks[i]] == checks[..i + 1];
    AlertIsNews(DefaultsAfter(before), before, checks[i]);
  }

  lemma {:induction false} HighestReached(checks: seq<Check>, i: nat, period: string, bucket: nat)
    requires i < |checks| && InBucket(checks[i], period, bucket)
    ensures Highest(checks, period, bucket) >= Crossed(checks[i].pct)
  {
    if i < |checks| - 1 {
      HighestReached(checks[..|checks| - 1], i, period, bucket);
    }
  }

  /** Within a bucket alerts only rise: one 80 and one 100 at most, and never 80 after 100. */
  lemma AlertsRise(checks: seq<Check>, i: nat, j: nat)
    requires Ordered(checks) && i < j < |checks|
    requires checks[i].period == checks[j].period && Bucket(checks[i]) == Bucket(checks[j])
    requires AlertAt(checks, i).Some? && AlertAt(checks, j).Some?
    ensures AlertAt(checks, i) == Some(80) && AlertAt(checks, j) == Some(100)
  {
    AlertsAreNews(checks, i);
    AlertsAreNews(checks, j);
    HighestReached(checks[..j], i, checks[j].period, Bucket(checks[j]));
  }

  /** The last alert of a bucket; 0 if it had none. */
  function LastAlert(checks: seq<Check>, period: string, bucket: nat): nat {
    if checks == [] then 0
    else
      var n := |checks| - 1;
      if InBucket(checks[n], period, bucket) && AlertAt(checks, n).Some? then AlertAt(checks, n).value
      else LastAlert(checks[..n], period, bucket)
  }

  /** The last alert of every bucket is the highest threshold seen in it, so none is missed. */
  lemma {:induction false} LastAlertIsHighest(checks: seq<Check>, period: string, bucket: nat)
    requires Ordered(checks)
    ensures LastAlert(checks, period, bucket) == Highest(checks, period, bucket)
  {
    if checks != [] {
      var n := |checks| - 1;
      LastAlertIsHighest(checks[..n], period, bucket);
      AlertsAreNews(checks, n);
    }
  }

  // ---------------------------------------------------------------------------------
  // The rule, on percentages and times alone.

  /** Two checks in one rolling interval of their period; an unknown period means the month. */
  predicate SameInterval(a: Check, b: Check) {
    && a.period == b.period
    && (if a.period == "hour" then a.now / 3600 == b.now / 3600
        else if a.period == "day" then a.now / 86400 == b.now / 86400
        else if a.period == "week" then a.now / 604800 == b.now / 604800
        else a.now / 2592000 == b.now / 2592000)
  }

  lemma SameIntervalIff(a: Check, b: Check)
    ensures SameInterval(a, b) <==> InBucket(a, b.period, Bucket(b))
  {
  }

  lemma {:induction false} HighestIsReached(checks: seq<Check>, period: string, bucket: nat)
    ensures Highest(checks, period, bucket) >= 100 <==>
              exists i :: 0 <= i < |checks| && InBucket(checks[i], period, bucket) && checks[i].pct >= 100.0
    ensures Highest(checks, period, bucket) >= 80 <==>
              exists i :: 0 <= i < |checks| && InBucket(checks[i], period, bucket) && checks[i].pct >= 80.0
    ensures Highest(checks, period, bucket) in {0, 80, 100}
  {
    if checks != [] {
      var n := |checks| - 1;
      HighestIsReached(checks[..n], period, bucket);
      assert forall i :: 0 <= i < n ==> checks[..n][i] == checks[i];
    }
  }

  /**
   * A check alerts at 100 exactly when it is at 100 percent or more and no earlier check in
   * its interval was; it alerts at 80 exactly when it is at 80 or more, below 100, and no
   * earlier check in its interval was at 80 or more. Otherwise it does not alert.
   */
  lemma AlertRule(checks: seq<Check>, i: nat)
    requires Ordered(checks) && i < |checks|
    ensures AlertAt(checks, i) == Some(100) <==>
              && checks[i].pct >= 100.0
              && forall j :: 0 <= j < i && SameInterval(checks[j], checks[i]) ==> checks[j].pct < 100.0
    ensures AlertAt(checks, i) == Some(80) <==>
              && 80.0 <= checks[i].pct < 100.0
              && forall j :: 0 <= j < i && SameInterval(checks[j], checks[i]) ==> checks[j].pct < 80.0
    ensures AlertAt(checks, i) in {None, Some(80), Some(100)}
  {
    var c, before := checks[i], checks[..i];
    AlertsAreNews(checks, i);
    HighestIsReached(before, c.period, Bucket(c));
    forall j | 0 <= j < i
      ensures before[j] == checks[j]
      ensures SameInterval(checks[j], c) <==> InBucket(before[j], c.period, Bucket(c))
    {
      SameIntervalIff(checks[j], c);
    }
  }
}
