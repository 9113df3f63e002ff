/** Counting with finite sets of indices. */
module FiniteSets {

  lemma Pick<T>(s: set<T>) returns (x: T)
    requires |s| > 0
    ensures x in s
  {
    x :| x in s;
  }

  lemma {:induction false} HasMax(s: set<int>) returns (m: int)
    requires |s| > 0
    ensures m in s && forall x :: x in s ==> x <= m
    decreases |s|
  {
    m := Pick(s);
    if |s - {m}| > 0 {
      var n := HasMax(s - {m});
      assert forall x :: x in s ==> x == m || x in s - {m};
      m := if m < n then n else m;
    }
  }

  lemma {:induction false} HasMin(s: set<int>) returns (m: int)
    requires |s| > 0
    ensures m in s && forall x :: x in s ==> m <= x
    decreases |s|
  {
    m := Pick(s);
    if |s - {m}| > 0 {
      var n := HasMin(s - {m});
      assert forall x :: x in s ==> x == m || x in s - {m};
      m := if n < m then n else m;
    }
  }

  lemma {:induction false} SubsetSize<T>(a: set<T>, b: set<T>)
    requires a <= b
    ensures |a| <= |b|
    decreases |a|
  {
    if |a| > 0 {
      var x :| x in a;
      SubsetSize(a - {x}, b - {x});
    }
  }

  lemma {:induction false} RangeSize(s: set<int>, a: int, b: int)
    requires a <= b && forall i :: i in s ==> a <= i < b
    ensures |s| <= b - a
    decreases b - a
  {
    if a < b {
      RangeSize(s - {b - 1}, a, b - 1);
    } else if |s| > 0 {
      var x := Pick(s);
      assert false;
    }
  }

  /** The indices from `a` up to but not including `b`. */
  function Interval(a: int, b: int): set<int>
    decreases b - a
  {
    if a >= b then {} else Interval(a, b - 1) + {b - 1}
  }

  lemma {:induction false} IntervalFacts(a: int, b: int)
    requires a <= b
    ensures |Interval(a, b)| == b - a && forall j :: j in Interval(a, b) <==> a <= j < b
    decreases b - a
  {
    if a < b {
      IntervalFacts(a, b - 1);
    }
  }
}
