/**
 * SQL's GROUP BY with SUM, in one pass over the rows, against the sum it stands for.
 */
module Grouping {

  datatype Bytes = Bytes(rx: int, tx: int)

  const ZERO: Bytes := Bytes(0, 0)

  function Plus(a: Bytes, b: Bytes): Bytes {
    Bytes(a.rx + b.rx, a.tx + b.tx)
  }

  datatype Charge<K> = Charge(key: K, bytes: Bytes)

  function Keys<K>(charges: seq<Charge<K>>): set<K> {
    set c | c in charges :: c.key
  }

  /** What one charge contributes to the sum over the keys that meet a condition. */
  function Part<K>(c: Charge<K>, p: K -> bool): Bytes {
    if p(c.key) then c.bytes else ZERO
  }

  /** The declarative sum: the bytes of every charge whose key meets a condition. */
  function TotalWhere<K>(charges: seq<Charge<K>>, p: K -> bool): Bytes {
    if charges == [] then ZERO
    else Plus(Part(charges[0], p), TotalWhere(charges[1..], p))
  }

  function Equals<K(==)>(key: K): K -> bool {
    k => k == key
  }

  function Anything<K>(): K -> bool {
    _ => true
  }

  function TotalAt<K(==)>(charges: seq<Charge<K>>, key: K): Bytes {
    TotalWhere(charges, Equals(key))
  }

  function Total<K>(charges: seq<Charge<K>>): Bytes {
    TotalWhere(charges, Anything())
  }

  lemma {:induction false} TotalAppend<K>(a: seq<Charge<K>>, b: seq<Charge<K>>, p: K -> bool)
    ensures TotalWhere(a + b, p) == Plus(TotalWhere(a, p), TotalWhere(b, p))
  {
    if a == [] {
      assert a + b == b;
    } else {
      assert (a + b)[1..] == a[1..] + b;
      TotalAppend(a[1..], b, p);
    }
  }

  lemma TotalLast<K>(a: seq<Charge<K>>, c: Charge<K>, p: K -> bool)
    ensures TotalWhere(a + [c], p) == Plus(TotalWhere(a, p), Part(c, p))
  {
    TotalAppend(a, [c], p);
    assert [c][1..] == [];
    assert TotalWhere([c], p) == Plus(Part(c, p), ZERO);
  }

  lemma {:induction false} TotalAgrees<K>(charges: seq<Charge<K>>, p: K -> bool, q: K -> bool)
    requires forall c :: c in charges ==> p(c.key) == q(c.key)
    ensures TotalWhere(charges, p) == TotalWhere(charges, q)
  {
    if charges != [] {
      TotalAgrees(charges[1..], p, q);
    }
  }

  lemma {:induction false} TotalNone<K>(charges: seq<Charge<K>>, p: K -> bool)
    requires forall c :: c in charges ==> !p(c.key)
    ensures TotalWhere(charges, p) == ZERO
  {
    if charges != [] {
      TotalNone(charges[1..], p);
    }
  }

  // ---------------------------------------------------------------------------------
  // One pass.

  /** Adds a charge to its group, or starts a group where `before` puts it. */
  function Insert<K(==)>(groups: seq<Charge<K>>, c: Charge<K>, before: (K, K) -> bool): seq<Charge<K>> {
    if groups == [] then [c]
    else if groups[0].key == c.key then [Charge(c.key, Plus(groups[0].bytes, c.bytes))] + groups[1..]
    else if before(c.key, groups[0].key) then [c] + groups
    else [groups[0]] + Insert(groups[1..], c, before)
  }

  function GroupBy<K(==)>(charges: seq<Charge<K>>, before: (K, K) -> bool): seq<Charge<K>> {
    if charges == [] then []
    else Insert(GroupBy(charges[..|charges| - 1], before), charges[|charges| - 1], before)
  }

  ghost predicate StrictOrder<K(!new)>(before: (K, K) -> bool) {
    && (forall a :: !before(a, a))
    && (forall a, b, c :: before(a, b) && before(b, c) ==> before(a, c))
  }

  /** Groups have different keys and none stands after one it should come before. */
  ghost predicate Settled<K>(groups: seq<Charge<K>>, before: (K, K) -> bool) {
    forall i, j :: 0 <= i < j < |groups| ==>
      groups[i].key != groups[j].key && !before(groups[j].key, groups[i].key)
  }

  lemma {:induction false} InsertKeepsTotals<K>(
    groups: seq<Charge<K>>, c: Charge<K>, before: (K, K) -> bool, p: K -> bool)
    ensures TotalWhere(Insert(groups, c, before), p) == Plus(TotalWhere(groups, p), Part(c, p))
  {
    var after := Insert(groups, c, before);
    if groups == [] {
      assert after[1..] == [];
    } else if groups[0].key == c.key {
      assert after[1..] == groups[1..];
    } else if before(c.key, groups[0].key) {
      assert after[1..] == groups;
    } else {
      assert after[1..] == Insert(groups[1..], c, before);
      InsertKeepsTotals(groups[1..], c, before, p);
    }
  }

  lemma {:induction false} InsertKeys<K>(groups: seq<Charge<K>>, c: Charge<K>, before: (K, K) -> bool)
    ensures Keys(Insert(groups, c, before)) == Keys(groups) + {c.key}
  {
    if groups != [] {
      var rest := groups[1..];
      assert groups == [groups[0]] + rest;
      assert Keys(groups) == {groups[0].key} + Keys(rest);
      if groups[0].key != c.key && !before(c.key, groups[0].key) {
        InsertKeys(rest, c, before);
        assert Keys([groups[0]] + Insert(rest, c, before)) == {groups[0].key} + Keys(Insert(rest, c, before));
      } else if groups[0].key == c.key {
        var merged := Charge(c.key, Plus(groups[0].bytes, c.bytes));
        assert Keys([merged] + rest) == {c.key} + Keys(rest);
      } else {
        assert Keys([c] + groups) == {c.key} + Keys(groups);
      }
    }
  }

  lemma {:induction false} InsertSettles<K(!new)>(groups: seq<Charge<K>>, c: Charge<K>, before: (K, K) -> bool)
    requires StrictOrder(before) && Settled(groups, before)
    ensures Settled(Insert(groups, c, before), before)
  {
    if groups != [] {
      var rest := groups[1..];
      if groups[0].key != c.key && !before(c.key, groups[0].key) {
        InsertSettles(rest, c, before);
        InsertKeys(rest, c, before);
        var inserted := Insert(rest, c, before);
        forall j | 0 <= j < |inserted|
          ensures groups[0].key != inserted[j].key && !before(inserted[j].key, groups[0].key)
        {
          assert inserted[j].key in Keys(inserted);
        }
      }
    }
  }

  /**
   * The one-pass grouping is the declarative one: its rows are the keys that occur, once
   * each and in order, and any condition on keys selects the same bytes before and after.
   */
  lemma {:induction false} GroupIsSum<K(!new)>(charges: seq<Charge<K>>, before: (K, K) -> bool)
    requires StrictOrder(before)
    ensures Settled(GroupBy(charges, before), before)
    ensures Keys(GroupBy(charges, before)) == Keys(charges)
    ensures forall p :: TotalWhere(GroupBy(charges, before), p) == TotalWhere(charges, p)
  {
    if charges != [] {
      var n := |charges| - 1;
      assert charges == charges[..n] + [charges[n]];
      var groups := GroupBy(charges[..n], before);
      GroupIsSum(charges[..n], before);
      InsertSettles(groups, charges[n], before);
      InsertKeys(groups, charges[n], before);
      forall p: K -> bool
        ensures TotalWhere(GroupBy(charges, before), p) == TotalWhere(charges, p)
      {
        InsertKeepsTotals(groups, charges[n], before, p);
        TotalLast(charges[..n], charges[n], p);
      }
    }
  }

  /** With one group for each key, a group's bytes are the total at its key. */
  lemma {:induction false} TotalAtGroup<K>(groups: seq<Charge<K>>, i: nat)
    requires i < |groups|
    requires forall a, b :: 0 <= a < b < |groups| ==> groups[a].key != groups[b].key
    ensures TotalAt(groups, groups[i].key) == groups[i].bytes
  {
    var p := Equals(groups[i].key);
    if i == 0 {
      TotalNone(groups[1..], p);
    } else {
      TotalAtGroup(groups[1..], i - 1);
      assert Part(groups[0], p) == ZERO;
    }
  }

  /** Each row of a grouped report carries the sum of the charges with its key. */
  lemma GroupRow<K(!new)>(charges: seq<Charge<K>>, before: (K, K) -> bool, row: Charge<K>)
    requires StrictOrder(before)
    ensures row in GroupBy(charges, before) <==> row.key in Keys(charges) && row.bytes == TotalAt(charges, row.key)
  {
    GroupIsSum(charges, before);
    var groups := GroupBy(charges, before);
    if row.key in Keys(groups) {
      var g :| g in groups && g.key == row.key;
      var i :| 0 <= i < |groups| && groups[i] == g;
      TotalAtGroup(groups, i);
      if row in groups {
        var j :| 0 <= j < |groups| && groups[j] == row;
        assert i == j;
      }
    }
  }

  // ---------------------------------------------------------------------------------
  // Groupings in ascending order are determined by their totals.

  predicate Earlier(a: int, b: int) {
    a < b
  }

  lemma TailKeys(a: seq<Charge<int>>, k: int)
    requires a != [] && Settled(a, Earlier)
    ensures Settled(a[1..], Earlier)
    ensures k in Keys(a[1..]) <==> k in Keys(a) && k != a[0].key
    ensures k in Keys(a) ==> a[0].key <= k
  {
    assert a == [a[0]] + a[1..];
    assert Keys(a) == {a[0].key} + Keys(a[1..]);
  }

  lemma TailTotals(a: seq<Charge<int>>, k: int)
    requires a != [] && Settled(a, Earlier)
    ensures TotalAt(a[1..], k) == if k == a[0].key then ZERO else TotalAt(a, k)
  {
    if k == a[0].key {
      forall c | c in a[1..]
        ensures c.key != k
      {
        var i :| 0 <= i < |a[1..]| && a[1..][i] == c;
        assert a[i + 1] == c;
      }
      TotalNone(a[1..], Equals(k));
    } else {
      assert Part(a[0], Equals(k)) == ZERO;
    }
  }

  lemma {:induction false} Canonical(a: seq<Charge<int>>, b: seq<Charge<int>>)
    requires Settled(a, Earlier) && Settled(b, Earlier)
    requires forall k :: k in Keys(a) <==> k in Keys(b)
    requires forall k :: TotalAt(a, k) == TotalAt(b, k)
    ensures a == b
  {
    assert a != [] ==> a[0].key in Keys(a);
    assert b != [] ==> b[0].key in Keys(b);
    if a != [] && b != [] {
      TailKeys(a, b[0].key);
      TailKeys(b, a[0].key);
      TotalAtGroup(a, 0);
      TotalAtGroup(b, 0);
      forall k
        ensures k in Keys(a[1..]) <==> k in Keys(b[1..])
        ensures TotalAt(a[1..], k) == TotalAt(b[1..], k)
      {
        TailKeys(a, k);
        TailKeys(b, k);
        TailTotals(a, k);
        TailTotals(b, k);
      }
      Canonical(a[1..], b[1..]);
    }
  }

  // ---------------------------------------------------------------------------------
  // Re-keying.

  function Rekey<K, L>(charges: seq<Charge<K>>, f: K -> L): seq<Charge<L>> {
    seq(|charges|, i requires 0 <= i < |charges| => Charge(f(charges[i].key), charges[i].bytes))
  }

  function After<K, L>(p: L -> bool, f: K -> L): K -> bool {
    k => p(f(k))
  }

  lemma {:induction false} RekeyTotal<K, L>(charges: seq<Charge<K>>, f: K -> L, p: L -> bool)
    ensures TotalWhere(Rekey(charges, f), p) == TotalWhere(charges, After(p, f))
  {
    if charges != [] {
      assert Rekey(charges, f)[1..] == Rekey(charges[1..], f);
      RekeyTotal(charges[1..], f, p);
    }
  }

  lemma RekeyKeys<K, L>(charges: seq<Charge<K>>, f: K -> L, l: L)
    ensures l in Keys(Rekey(charges, f)) <==> exists k :: k in Keys(charges) && f(k) == l
  {
    if l in Keys(Rekey(charges, f)) {
      var c :| c in Rekey(charges, f) && c.key == l;
      var i :| 0 <= i < |charges| && Rekey(charges, f)[i] == c;
      assert charges[i] in charges && charges[i].key in Keys(charges);
    }
    if k :| k in Keys(charges) && f(k) == l {
      var c :| c in charges && c.key == k;
      var i :| 0 <= i < |charges| && charges[i] == c;
      assert Rekey(charges, f)[i] in Rekey(charges, f);
    }
  }

  lemma RekeyedTotals(charges: seq<Charge<int>>, f: int -> int, k: int)
    ensures var fine := GroupBy(charges, Earlier);
            && (k in Keys(Rekey(fine, f)) <==> k in Keys(Rekey(charges, f)))
            && TotalAt(Rekey(fine, f), k) == TotalAt(Rekey(charges, f), k)
  {
    var fine := GroupBy(charges, Earlier);
    GroupIsSum(charges, Earlier);
    RekeyKeys(fine, f, k);
    RekeyKeys(charges, f, k);
    RekeyTotal(fine, f, Equals(k));
    RekeyTotal(charges, f, Equals(k));
  }

  /** Grouping twice, the second time by a function of the first key, is grouping once by that function. */
  lemma RollUp(charges: seq<Charge<int>>, f: int -> int)
    ensures GroupBy(Rekey(GroupBy(charges, Earlier), f), Earlier) == GroupBy(Rekey(charges, f), Earlier)
  {
    var a, b := Rekey(GroupBy(charges, Earlier), f), Rekey(charges, f);
    GroupIsSum(a, Earlier);
    GroupIsSum(b, Earlier);
    forall k
      ensures k in Keys(GroupBy(a, Earlier)) <==> k in Keys(GroupBy(b, Earlier))
      ensures TotalAt(GroupBy(a, Earlier), k) == TotalAt(GroupBy(b, Earlier), k)
    {
      RekeyedTotals(charges, f, k);
    }
    Canonical(GroupBy(a, Earlier), GroupBy(b, Earlier));
  }
}
