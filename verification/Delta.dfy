/**
 * appband/delta.py: cumulative counters become per-interval deltas.
 *
 * The class is the tracker as the collector holds it; `Judge` and `Evicted` are the
 * values its two methods are proved against, and the lemmas below say what any sequence
 * of calls adds up to.
 */
module Delta {
  import opened Basics

  datatype Anchor = Anchor(value: int, ts: int, misses: int)

  type Anchors = map<string, Anchor>

  /** Why `update` returned a number or None. The source returns None for all but Counted. */
  datatype Verdict = First | Reset(lost: int) | Jump(skipped: int) | Counted(bytes: int)

  function Lookup(anchors: Anchors, key: string): Option<Anchor> {
    if key in anchors then Some(anchors[key]) else None
  }

  function Elapsed(since: int, now: int): int {
    Max(now - since, 1)
  }

  function Judge(prev: Option<Anchor>, value: int, now: int, maxPerSec: int): Verdict {
    match prev
    case None => First
    case Some(a) =>
      if value < a.value then Reset(a.value - value)
      else if (value - a.value) / Elapsed(a.ts, now) > maxPerSec then Jump(value - a.value)
      else Counted(value - a.value)
  }

  function Reported(verdict: Verdict): Option<int> {
    if verdict.Counted? then Some(verdict.bytes) else None
  }

  /** Floor division compared with a bound is a strict product bound. */
  lemma FloorBound(a: int, b: int, m: int)
    requires b >= 1
    ensures a / b <= m <==> a < (m + 1) * b
  {
    var q, r := a / b, a % b;
    assert a == q * b + r && 0 <= r < b;
    if q <= m {
      assert q * b <= m * b;
    } else {
      assert q * b >= (m + 1) * b;
    }
  }

  /**
   * The meaning of a reported delta, in both directions: the counter did not go back and
   * grew by less than (threshold + 1) bytes for each elapsed second.
   */
  lemma ReportedIff(prev: Option<Anchor>, value: int, now: int, maxPerSec: int, d: int)
    ensures Reported(Judge(prev, value, now, maxPerSec)) == Some(d)
       <==> prev.Some? && d == value - prev.value.value
            && 0 <= d
            && (now - prev.value.ts >= 1 ==> d <= (maxPerSec + 1) * (now - prev.value.ts) - 1)
            && (now - prev.value.ts < 1 ==> d <= maxPerSec)
  {
    if prev.Some? {
      assert Elapsed(prev.value.ts, now) == if now - prev.value.ts >= 1 then now - prev.value.ts else 1;
      FloorBound(value - prev.value.value, Elapsed(prev.value.ts, now), maxPerSec);
    }
  }

  /** One round of miss counting: present keys are cleared, absent ones age and drop out. */
  function Evicted(anchors: Anchors, present: set<string>, maxMisses: int): Anchors {
    map k | k in anchors && (k in present || anchors[k].misses + 1 < maxMisses) ::
      anchors[k].(misses := if k in present then 0 else anchors[k].misses + 1)
  }

  class DeltaTracker {
    const maxPerSec: int
    var state: Anchors

    constructor (maxPerSec: int)
      ensures this.maxPerSec == maxPerSec && state == map[]
    {
      this.maxPerSec := maxPerSec;
      state := map[];
    }

    method Update(key: string, value: int, now: int) returns (delta: Option<int>)
      modifies this`state
      ensures state == old(state)[key := Anchor(value, now, 0)]
      ensures delta == Reported(Judge(Lookup(old(state), key), value, now, maxPerSec))
      ensures delta.Some? <==>
              && key in old(state)
              && old(state)[key].value <= value
              && (now - old(state)[key].ts >= 1 ==>
                    value - old(state)[key].value < (maxPerSec + 1) * (now - old(state)[key].ts))
              && (now - old(state)[key].ts < 1 ==> value - old(state)[key].value < maxPerSec + 1)
      ensures delta.Some? ==> delta.value == value - old(state)[key].value
    {
      ghost var prev := Lookup(state, key);
      ReportedIff(prev, value, now, maxPerSec, if prev.Some? then value - prev.value.value else 0);
      if key !in state || value < state[key].value {
        state := state[key := Anchor(value, now, 0)];
        return None;
      }
      var elapsed := Max(now - state[key].ts, 1);
      var d := value - state[key].value;
      if d / elapsed > maxPerSec {
        state := state[key := Anchor(value, now, 0)];
        return None;
      }
      state := state[key := Anchor(value, now, 0)];
      return Some(d);
    }

    method EvictMissing(presentKeys: set<string>, maxMisses: int)
      modifies this`state
      ensures state == Evicted(old(state), presentKeys, maxMisses)
      ensures forall k :: k in state <==>
                k in old(state) && (k in presentKeys || old(state)[k].misses + 1 < maxMisses)
      ensures forall k :: k in state ==>
                state[k] == Anchor(old(state)[k].value, old(state)[k].ts,
                                   if k in presentKeys then 0 else old(state)[k].misses + 1)
    {
      var keys := state.Keys;
      ghost var before := state;
      while keys != {}
        invariant keys <= before.Keys
        invariant forall k :: k in keys ==> k in state && state[k] == before[k]
        invariant forall k :: k !in keys ==>
                    (k in state <==> k in Evicted(before, presentKeys, maxMisses))
        invariant forall k :: k !in keys && k in state ==>
                    state[k] == Evicted(before, presentKeys, maxMisses)[k]
        decreases keys
      {
        var key :| key in keys;
        if key in presentKeys {
          state := state[key := state[key].(misses := 0)];
        } else {
          var aged := state[key].(misses := state[key].misses + 1);
          state := state[key := aged];
          if aged.misses >= maxMisses {
            state := state - {key};
          }
        }
        keys := keys - {key};
      }
    }
  }

  // ---------------------------------------------------------------------------------
  // The ledger: what a sequence of updates adds up to, for one key among many.

  datatype Update = Update(key: string, value: int, now: int)

  /** The anchors after a sequence of updates of any keys in any order. */
  function Played(anchors: Anchors, updates: seq<Update>): Anchors {
    if updates == [] then anchors
    else
      var u := updates[|updates| - 1];
      Played(anchors, updates[..|updates| - 1])[u.key := Anchor(u.value, u.now, 0)]
  }

  datatype Ledger = Ledger(counted: int, jumped: int, lost: int)

  /** What `update` counted, skipped and lost for one key along a sequence of updates. */
  function Tally(anchors: Anchors, updates: seq<Update>, key: string, maxPerSec: int): Ledger {
    if updates == [] then Ledger(0, 0, 0)
    else
      var n := |updates| - 1;
      var t := Tally(anchors, updates[..n], key, maxPerSec);
      if updates[n].key != key then t
      else
        match Judge(Lookup(Played(anchors, updates[..n]), key), updates[n].value, updates[n].now, maxPerSec)
        case First => t
        case Reset(lost) => t.(lost := t.lost + lost)
        case Jump(skipped) => t.(jumped := t.jumped + skipped)
        case Counted(bytes) => t.(counted := t.counted + bytes)
  }

  /** The value `key` is first anchored at: its old anchor, or its first update. */
  function Baseline(anchors: Anchors, updates: seq<Update>, key: string): int
    requires key in Played(anchors, updates)
  {
    if key in anchors then anchors[key].value
    else
      var n := |updates| - 1;
      if key in Played(anchors, updates[..n]) then Baseline(anchors, updates[..n], key) else updates[n].value
  }

  /**
   * Conservation for one key under any interleaving with other keys: counted bytes plus
   * skipped jumps minus reset losses is the last value minus the first one.
   */
  lemma {:induction false} LedgerBalances(anchors: Anchors, updates: seq<Update>, key: string, maxPerSec: int)
    requires key in Played(anchors, updates)
    ensures var t := Tally(anchors, updates, key, maxPerSec);
            t.counted + t.jumped - t.lost
            == Played(anchors, updates)[key].value - Baseline(anchors, updates, key)
  {
    if updates != [] {
      var n := |updates| - 1;
      if key in Played(anchors, updates[..n]) {
        LedgerBalances(anchors, updates[..n], key, maxPerSec);
      } else {
        UnseenHasNoTally(anchors, updates[..n], key, maxPerSec);
      }
    }
  }

  lemma {:induction false} UnseenHasNoTally(anchors: Anchors, updates: seq<Update>, key: string, maxPerSec: int)
    requires key !in Played(anchors, updates)
    ensures Tally(anchors, updates, key, maxPerSec) == Ledger(0, 0, 0)
    ensures key !in anchors
  {
    if updates != [] {
      UnseenHasNoTally(anchors, updates[..|updates| - 1], key, maxPerSec);
    }
  }

  /** No entry of the ledger is ever negative, so counted bytes are at most growth plus losses. */
  lemma {:induction false} LedgerNonNegative(anchors: Anchors, updates: seq<Update>, key: string, maxPerSec: int)
    ensures var t := Tally(anchors, updates, key, maxPerSec);
            t.counted >= 0 && t.jumped >= 0 && t.lost >= 0
  {
    if updates != [] {
      LedgerNonNegative(anchors, updates[..|updates| - 1], key, maxPerSec);
    }
  }

  // ---------------------------------------------------------------------------------
  // Eviction refines history: the anchors are a function of the last few polls.

  /** One poll of a tracker: its updates in order; an eviction round follows them. */
  type Poll = seq<Update>

  function Keys(poll: Poll): set<string> {
    set u | u in poll :: u.key
  }

  function AfterPoll(anchors: Anchors, poll: Poll, maxMisses: int): Anchors {
    Evicted(Played(anchors, poll), Keys(poll), maxMisses)
  }

  function AfterPolls(polls: seq<Poll>, maxMisses: int): Anchors {
    if polls == [] then map[]
    else AfterPoll(AfterPolls(polls[..|polls| - 1], maxMisses), polls[|polls| - 1], maxMisses)
  }

  /** The last update of `key` in a poll that has one. */
  function LastUpdate(poll: Poll, key: string): (u: Update)
    requires key in Keys(poll)
    ensures u in poll && u.key == key
  {
    var n := |poll| - 1;
    if poll[n].key == key then poll[n]
    else
      assert poll == poll[..n] + [poll[n]];
      LastUpdate(poll[..n], key)
  }

  /** How many polls ago `key` was last seen; None if it never was. */
  function Age(polls: seq<Poll>, key: string): (age: Option<nat>)
    ensures age.Some? ==> age.value < |polls| && key in Keys(polls[|polls| - 1 - age.value])
    ensures age.Some? ==> forall i :: |polls| - age.value <= i < |polls| ==> key !in Keys(polls[i])
    ensures age.None? ==> forall i :: 0 <= i < |polls| ==> key !in Keys(polls[i])
  {
    if polls == [] then None
    else
      var n := |polls| - 1;
      if key in Keys(polls[n]) then Some(0)
      else
        match Age(polls[..n], key)
        case None => None
        case Some(a) => Some(a + 1)
  }

  lemma {:induction false} PlayedLookup(anchors: Anchors, poll: Poll, key: string)
    ensures key in Keys(poll) ==>
              var u := LastUpdate(poll, key);
              Lookup(Played(anchors, poll), key) == Some(Anchor(u.value, u.now, 0))
    ensures key !in Keys(poll) ==> Lookup(Played(anchors, poll), key) == Lookup(anchors, key)
  {
    if poll != [] {
      var n := |poll| - 1;
      assert poll == poll[..n] + [poll[n]];
      assert Keys(poll) == Keys(poll[..n]) + {poll[n].key};
      PlayedLookup(anchors, poll[..n], key);
    }
  }

  /** One poll and its eviction round, seen from one key. */
  lemma PollLookup(anchors: Anchors, poll: Poll, key: string, maxMisses: int)
    ensures key in Keys(poll) ==>
              var u := LastUpdate(poll, key);
              Lookup(AfterPoll(anchors, poll, maxMisses), key) == Some(Anchor(u.value, u.now, 0))
    ensures key !in Keys(poll) ==>
              Lookup(AfterPoll(anchors, poll, maxMisses), key)
              == if key in anchors && anchors[key].misses + 1 < maxMisses
                 then Some(anchors[key].(misses := anchors[key].misses + 1)) else None
  {
    PlayedLookup(anchors, poll, key);
  }

  /** What is left of a key, read off the history of polls: its latest observation, while recent. */
  function Remembered(polls: seq<Poll>, key: string, maxMisses: int): Option<Anchor> {
    var age := Age(polls, key);
    if age.Some? && age.value < maxMisses then
      var u := LastUpdate(polls[|polls| - 1 - age.value], key);
      Some(Anchor(u.value, u.now, age.value))
    else None
  }

  lemma OneMorePoll(polls: seq<Poll>, poll: Poll, key: string, maxMisses: int)
    requires maxMisses >= 1
    ensures key in Keys(poll) ==>
              var u := LastUpdate(poll, key);
              Remembered(polls + [poll], key, maxMisses) == Some(Anchor(u.value, u.now, 0))
    ensures key !in Keys(poll) ==>
              var past := Remembered(polls, key, maxMisses);
              Remembered(polls + [poll], key, maxMisses)
              == if past.Some? && past.value.misses + 1 < maxMisses
                 then Some(past.value.(misses := past.value.misses + 1)) else None
  {
    assert (polls + [poll])[..|polls|] == polls;
  }

  /**
   * After any history of polls a key is tracked exactly when one of the last `maxMisses`
   * polls saw it, and then its anchor is its latest observation with its age as misses.
   */
  lemma {:induction false} TrackerIsHistory(polls: seq<Poll>, key: string, maxMisses: int)
    requires maxMisses >= 1
    ensures Lookup(AfterPolls(polls, maxMisses), key) == Remembered(polls, key, maxMisses)
  {
    if polls != [] {
      var n := |polls| - 1;
      assert polls == polls[..n] + [polls[n]];
      TrackerIsHistory(polls[..n], key, maxMisses);
      PollLookup(AfterPolls(polls[..n], maxMisses), polls[n], key, maxMisses);
      OneMorePoll(polls[..n], polls[n], key, maxMisses);
    }
  }

  /**
   * A key that comes back is judged against its latest observation exactly when it was
   * absent from fewer than `maxMisses` polls; after that it starts over.
   */
  lemma Reappearance(polls: seq<Poll>, key: string, value: int, now: int, maxMisses: int, maxPerSec: int)
    requires maxMisses >= 1
    ensures var verdict := Judge(Lookup(AfterPolls(polls, maxMisses), key), value, now, maxPerSec);
            var age := Age(polls, key);
            && (verdict.First? <==> age.None? || age.value >= maxMisses)
            && (verdict.Counted? ==>
                  verdict.bytes == value - LastUpdate(polls[|polls| - 1 - age.value], key).value)
  {
    TrackerIsHistory(polls, key, maxMisses);
  }

  /** The keys of the last `window` polls. */
  function RecentKeys(polls: seq<Poll>, window: int): set<string> {
    if polls == [] || window <= 0 then {}
    else Keys(polls[|polls| - 1]) + RecentKeys(polls[..|polls| - 1], window - 1)
  }

  lemma {:induction false} RecentKeysAge(polls: seq<Poll>, window: int, key: string)
    ensures key in RecentKeys(polls, window) <==> Age(polls, key).Some? && Age(polls, key).value < window
  {
    if polls != [] && window > 0 {
      RecentKeysAge(polls[..|polls| - 1], window - 1, key);
    }
  }

  /** The tracker's memory is bounded by the distinct keys of the last `maxMisses` polls: it is that set. */
  lemma TrackedKeys(polls: seq<Poll>, maxMisses: int)
    requires maxMisses >= 1
    ensures AfterPolls(polls, maxMisses).Keys == RecentKeys(polls, maxMisses)
    ensures |AfterPolls(polls, maxMisses)| == |RecentKeys(polls, maxMisses)|
  {
    forall key
      ensures key in AfterPolls(polls, maxMisses) <==> key in RecentKeys(polls, maxMisses)
    {
      TrackerIsHistory(polls, key, maxMisses);
      RecentKeysAge(polls, maxMisses, key);
    }
    assert AfterPolls(polls, maxMisses).Keys == RecentKeys(polls, maxMisses);
  }
}
