/** Small shared vocabulary: optional values and the row filter behind every SQL `DELETE`. */
module Basics {

  datatype Option<+T> = None | Some(value: T)

  function Max(a: int, b: int): int {
    if a >= b then a else b
  }

  /** The rows of a table that a condition keeps, in table order. */
  function Keep<T>(rows: seq<T>, keep: T -> bool): (kept: seq<T>)
  {
    if rows == [] then []
    else
      var last := rows[|rows| - 1];
      Keep(rows[..|rows| - 1], keep) + if keep(last) then [last] else []
  }

  /** A kept row is exactly an old row that meets the condition. */
  lemma {:induction false} KeepMembers<T>(rows: seq<T>, keep: T -> bool)
    ensures forall r :: r in Keep(rows, keep) <==> r in rows && keep(r)
  {
    if rows != [] {
      var n := |rows| - 1;
      KeepMembers(rows[..n], keep);
      assert rows == rows[..n] + [rows[n]];
    }
  }

  /** A SELECT: the rows a chooser maps to something, in table order. */
  function Choose<R, S>(rows: seq<R>, choose: R -> Option<S>): seq<S> {
    if rows == [] then []
    else
      var last := choose(rows[|rows| - 1]);
      Choose(rows[..|rows| - 1], choose) + if last.Some? then [last.value] else []
  }

  lemma SingleRow<R, S>(r: R, keep: R -> bool, choose: R -> Option<S>)
    ensures Keep([r], keep) == if keep(r) then [r] else []
    ensures Choose([r], choose) == if choose(r).Some? then [choose(r).value] else []
  {
    assert [r][..0] == [];
  }

  lemma {:induction false} ChooseAgrees<R, S>(rows: seq<R>, f: R -> Option<S>, g: R -> Option<S>)
    requires forall r :: r in rows ==> f(r) == g(r)
    ensures Choose(rows, f) == Choose(rows, g)
  {
    if rows != [] {
      ChooseAgrees(rows[..|rows| - 1], f, g);
    }
  }

  lemma {:induction false} ChooseAppend<R, S>(rows: seq<R>, more: seq<R>, f: R -> Option<S>)
    ensures Choose(rows + more, f) == Choose(rows, f) + Choose(more, f)
  {
    if more == [] {
      assert rows + more == rows;
    } else {
      var n := |more| - 1;
      assert (rows + more)[..|rows| + n] == rows + more[..n];
      ChooseAppend(rows, more[..n], f);
    }
  }

  lemma {:induction false} ChooseNothing<R, S>(rows: seq<R>, f: R -> Option<S>)
    requires forall r :: r in rows ==> f(r).None?
    ensures Choose(rows, f) == []
  {
    if rows != [] {
      ChooseNothing(rows[..|rows| - 1], f);
    }
  }

  /** Deleting rows that a SELECT does not choose leaves its answer alone. */
  lemma {:induction false} ChooseKept<R, S>(rows: seq<R>, keep: R -> bool, f: R -> Option<S>)
    requires forall r :: r in rows && !keep(r) ==> f(r).None?
    ensures Choose(Keep(rows, keep), f) == Choose(rows, f)
  {
    if rows != [] {
      var n := |rows| - 1;
      ChooseKept(rows[..n], keep, f);
      ChooseAppend(Keep(rows[..n], keep), if keep(rows[n]) then [rows[n]] else [], f);
    }
  }

  /** Some element of a non-empty set. */
  lemma Pick<T>(s: set<T>) returns (x: T)
    requires s != {}
    ensures x in s
  {
    x :| x in s;
  }

  lemma Associate<T>(a: seq<T>, b: seq<T>, c: seq<T>)
    ensures a + b + c == a + (b + c)
  {
  }

  // ---------------------------------------------------------------------------------
  // Selections and sums, by what they do to a single row and to two tables in a row.

  lemma {:induction false} KeepAppend<T>(rows: seq<T>, more: seq<T>, keep: T -> bool)
    ensures Keep(rows + more, keep) == Keep(rows, keep) + Keep(more, keep)
  {
    if more == [] {
      assert rows + more == rows;
    } else {
      var n := |more| - 1;
      assert (rows + more)[..|rows| + n] == rows + more[..n];
      KeepAppend(rows, more[..n], keep);
    }
  }

  lemma {:induction false} KeepAgrees<T>(rows: seq<T>, p: T -> bool, q: T -> bool)
    requires forall r :: r in rows ==> p(r) == q(r)
    ensures Keep(rows, p) == Keep(rows, q)
  {
    if rows != [] {
      KeepAgrees(rows[..|rows| - 1], p, q);
    }
  }

  lemma {:induction false} KeepNone<T>(rows: seq<T>, keep: T -> bool)
    requires forall r :: r in rows ==> !keep(r)
    ensures Keep(rows, keep) == []
  {
    if rows != [] {
      KeepNone(rows[..|rows| - 1], keep);
    }
  }

  lemma {:induction false} KeepAll<T>(rows: seq<T>, keep: T -> bool)
    requires forall r :: r in rows ==> keep(r)
    ensures Keep(rows, keep) == rows
  {
    if rows != [] {
      var n := |rows| - 1;
      assert rows[n] in rows;
      KeepAll(rows[..n], keep);
    }
  }

  /** The sum of an amount over rows. */
  function SumOver<T>(rows: seq<T>, amount: T -> int): int {
    if rows == [] then 0 else SumOver(rows[..|rows| - 1], amount) + amount(rows[|rows| - 1])
  }

  lemma SumOverLast<T>(rows: seq<T>, r: T, amount: T -> int)
    ensures SumOver(rows + [r], amount) == SumOver(rows, amount) + amount(r)
  {
    assert (rows + [r])[..|rows|] == rows;
  }

  /** Summing the kept rows is summing over all rows with nothing for the others. */
  lemma {:induction false} SumOverKept<T>(rows: seq<T>, keep: T -> bool, amount: T -> int, part: T -> int)
    requires forall r :: r in rows ==> part(r) == if keep(r) then amount(r) else 0
    ensures SumOver(Keep(rows, keep), amount) == SumOver(rows, part)
  {
    if rows != [] {
      var n := |rows| - 1;
      SumOverKept(rows[..n], keep, amount, part);
      if keep(rows[n]) {
        SumOverLast(Keep(rows[..n], keep), rows[n], amount);
      } else {
        assert Keep(rows, keep) == Keep(rows[..n], keep);
      }
    }
  }
}
