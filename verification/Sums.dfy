/** Sums of a weight over row ids 0..n-1, the shape of every SQL `SUM` and `COUNT` in the model. */
module Sums {
  function Sum(f: nat -> int, n: nat): int {
    if n == 0 then 0 else Sum(f, n - 1) + f(n - 1)
  }

  lemma {:induction false} SumEqual(f: nat -> int, g: nat -> int, n: nat)
    requires forall i: nat :: i < n ==> f(i) == g(i)
    ensures Sum(f, n) == Sum(g, n)
  {
    if n != 0 {
      SumEqual(f, g, n - 1);
    }
  }

  lemma {:induction false} SumAtMost(f: nat -> int, g: nat -> int, n: nat)
    requires forall i: nat :: i < n ==> f(i) <= g(i)
    ensures Sum(f, n) <= Sum(g, n)
  {
    if n != 0 {
      SumAtMost(f, g, n - 1);
    }
  }

  /** Replacing the weight of one row moves the sum by exactly that row's difference. */
  lemma {:induction false} SumOneChange(f: nat -> int, g: nat -> int, n: nat, k: nat)
    requires k < n
    requires forall i: nat :: i < n && i != k ==> f(i) == g(i)
    ensures Sum(g, n) == Sum(f, n) - f(k) + g(k)
  {
    if k == n - 1 {
      SumEqual(f, g, n - 1);
    } else {
      SumOneChange(f, g, n - 1, k);
    }
  }

  lemma {:induction false} SumNonNegative(f: nat -> int, n: nat)
    requires forall i: nat :: i < n ==> 0 <= f(i)
    ensures 0 <= Sum(f, n)
  {
    if n != 0 {
      SumNonNegative(f, n - 1);
    }
  }

  /** A row's non-negative weight is at most the sum. */
  lemma {:induction false} SumAtLeast(f: nat -> int, n: nat, k: nat)
    requires k < n
    requires forall i: nat :: i < n ==> 0 <= f(i)
    ensures f(k) <= Sum(f, n)
  {
    if k == n - 1 {
      SumNonNegative(f, n - 1);
    } else {
      SumAtLeast(f, n - 1, k);
    }
  }

  lemma {:induction false} SumZero(f: nat -> int, n: nat)
    requires forall i: nat :: i < n ==> f(i) == 0
    ensures Sum(f, n) == 0
  {
    if n != 0 {
      SumZero(f, n - 1);
    }
  }

  lemma {:induction false} SumOfTwo(f: nat -> int, g: nat -> int, h: nat -> int, n: nat)
    requires forall i: nat :: i < n ==> h(i) == f(i) + g(i)
    ensures Sum(h, n) == Sum(f, n) + Sum(g, n)
  {
    if n != 0 {
      SumOfTwo(f, g, h, n - 1);
    }
  }

  /** More rows of non-negative weight do not lower the sum. */
  lemma {:induction false} SumGrows(f: nat -> int, n: nat, m: nat)
    requires n <= m
    requires forall i: nat :: n <= i < m ==> 0 <= f(i)
    ensures Sum(f, n) <= Sum(f, m)
  {
    if n < m {
      SumGrows(f, n, m - 1);
    }
  }

  /** Appended rows that weigh alike in two sums add alike to both. */
  lemma {:induction false} SumTailsAgree(f: nat -> int, more: nat -> int, g: nat -> int, moreToo: nat -> int, n: nat, m: nat)
    requires n <= m
    requires forall i: nat :: i < n ==> more(i) == f(i) && moreToo(i) == g(i)
    requires forall i: nat :: n <= i < m ==> more(i) == moreToo(i)
    ensures Sum(more, m) - Sum(f, n) == Sum(moreToo, m) - Sum(g, n)
  {
    if n == m {
      SumEqual(f, more, n);
      SumEqual(g, moreToo, n);
    } else {
      SumTailsAgree(f, more, g, moreToo, n, m - 1);
    }
  }

  /** Rows n..m-1 that all weigh `v` add `v` each. */
  lemma {:induction false} SumConstantTail(f: nat -> int, n: nat, m: nat, v: int)
    requires n <= m
    requires forall i: nat :: n <= i < m ==> f(i) == v
    ensures Sum(f, m) == Sum(f, n) + (m - n) * v
  {
    if n < m {
      SumConstantTail(f, n, m - 1, v);
    }
  }

  /** The weight `f` restricted to the rows whose group is `k`: one group of a SQL `GROUP BY`. */
  function InGroup(f: nat -> int, group: nat -> int, k: int): nat -> int {
    (i: nat) => if group(i) == k then f(i) else 0
  }

  /** The totals of the listed groups, in listing order. */
  function GroupTotals(f: nat -> int, group: nat -> int, n: nat, listing: seq<nat>): nat -> int {
    (k: nat) => if k < |listing| then Sum(InGroup(f, group, listing[k]), n) else 0
  }

  /** If every row's group is listed once, the groups of a `GROUP BY` add up to the ungrouped total. */
  lemma {:induction false} GroupsCoverTotal(f: nat -> int, group: nat -> int, n: nat, listing: seq<nat>)
    requires forall j, k :: 0 <= j < k < |listing| ==> listing[j] != listing[k]
    requires forall i: nat :: i < n && f(i) != 0 ==> group(i) in listing
    ensures Sum(GroupTotals(f, group, n, listing), |listing|) == Sum(f, n)
  {
    if n == 0 {
      SumZero(GroupTotals(f, group, 0, listing), |listing|);
    } else {
      GroupsCoverTotal(f, group, n - 1, listing);
      var before, after := GroupTotals(f, group, n - 1, listing), GroupTotals(f, group, n, listing);
      if f(n - 1) == 0 {
        SumEqual(before, after, |listing|);
      } else {
        var last :| 0 <= last < |listing| && listing[last] == group(n - 1);
        SumOneChange(before, after, |listing|, last);
      }
    }
  }
}
