/** Sums of exact rationals over finite sets, and what truncating each term can cost. */
module RealSums {
  import opened Basics

  ghost function Sum<T>(s: set<T>, f: T -> real): real {
    if s == {} then 0.0
    else
      var x :| x in s;
      f(x) + Sum(s - {x}, f)
  }

  /** Any element may be taken out first. */
  lemma {:induction false} SumRemove<T>(s: set<T>, f: T -> real, x: T)
    requires x in s
    ensures Sum(s, f) == f(x) + Sum(s - {x}, f)
  {
    var y :| y in s && Sum(s, f) == f(y) + Sum(s - {y}, f);
    if x != y {
      SumRemove(s - {y}, f, x);
      SumRemove(s - {x}, f, y);
      assert s - {x} - {y} == s - {y} - {x};
    }
  }

  lemma {:induction false} SumAgrees<T>(s: set<T>, f: T -> real, g: T -> real)
    requires forall x :: x in s ==> f(x) == g(x)
    ensures Sum(s, f) == Sum(s, g)
  {
    if s != {} {
      var x := Pick(s);
      SumRemove(s, f, x);
      SumRemove(s, g, x);
      SumAgrees(s - {x}, f, g);
    }
  }

  lemma {:induction false} SumPlus<T>(s: set<T>, f: T -> real, g: T -> real, both: T -> real)
    requires forall x :: x in s ==> both(x) == f(x) + g(x)
    ensures Sum(s, both) == Sum(s, f) + Sum(s, g)
  {
    if s != {} {
      var x := Pick(s);
      SumRemove(s, f, x);
      SumRemove(s, g, x);
      SumRemove(s, both, x);
      SumPlus(s - {x}, f, g, both);
    }
  }

  function Times(n: nat, v: real): real {
    if n == 0 then 0.0 else v + Times(n - 1, v)
  }

  /** n equal parts of a number make the number. */
  lemma PartsMakeWhole(n: nat, whole: real)
    requires n > 0
    ensures Times(n, whole / n as real) == whole
  {
    TimesIsProduct(n, whole / n as real);
  }

  lemma {:induction false} TimesIsProduct(n: nat, v: real)
    ensures Times(n, v) == n as real * v
  {
    if n > 0 {
      TimesIsProduct(n - 1, v);
      assert n as real * v == (n - 1) as real * v + v;
    }
  }

  /** A sum whose terms are one value on a subset and zero elsewhere. */
  lemma {:induction false} SumConstant<T>(s: set<T>, part: set<T>, f: T -> real, v: real)
    requires part <= s
    requires forall x :: x in s ==> f(x) == if x in part then v else 0.0
    ensures Sum(s, f) == Times(|part|, v)
  {
    if s != {} {
      var x := Pick(s);
      SumRemove(s, f, x);
      SumConstant(s - {x}, part - {x}, f, v);
      if x in part {
        assert |part| == |part - {x}| + 1;
      } else {
        assert part - {x} == part;
      }
    }
  }

  /** A real cut to an integer, toward zero. */
  function Truncate(x: real): int {
    if x >= 0.0 then x.Floor else -((-x).Floor)
  }

  /** Truncating each of n non-negative terms once loses less than n in all. */
  lemma {:induction false} TruncatedSum<T>(s: set<T>, f: T -> real, g: T -> real)
    requires forall x :: x in s ==> f(x) >= 0.0 && g(x) == Truncate(f(x)) as real
    ensures Sum(s, g) <= Sum(s, f)
    ensures s != {} ==> Sum(s, f) < Sum(s, g) + |s| as real
  {
    if s != {} {
      var x := Pick(s);
      SumRemove(s, f, x);
      SumRemove(s, g, x);
      TruncatedSum(s - {x}, f, g);
      assert |s| == |s - {x}| + 1;
    }
  }

  // ---------------------------------------------------------------------------------
  // Sums over the rows of a table.

  function SumReal<T>(rows: seq<T>, amount: T -> real): real {
    if rows == [] then 0.0 else SumReal(rows[..|rows| - 1], amount) + amount(rows[|rows| - 1])
  }

  lemma {:induction false} SumRealAgrees<T>(rows: seq<T>, f: T -> real, g: T -> real)
    requires forall r :: r in rows ==> f(r) == g(r)
    ensures SumReal(rows, f) == SumReal(rows, g)
  {
    if rows != [] {
      SumRealAgrees(rows[..|rows| - 1], f, g);
    }
  }
}
