/** Sums over tables. A table is a sequence of rows; a row is never deleted, only appended or updated in place. */
module Sums {

  function Total<T>(f: T -> int, s: seq<T>): int
  {
    if s == [] then 0 else Total(f, s[..|s| - 1]) + f(s[|s| - 1])
  }

  lemma TotalAppend<T>(f: T -> int, s: seq<T>, x: T)
    ensures Total(f, s + [x]) == Total(f, s) + f(x)
  {
  }

  lemma {:induction false} TotalConcat<T>(f: T -> int, a: seq<T>, b: seq<T>)
    ensures Total(f, a + b) == Total(f, a) + Total(f, b)
  {
    if b == [] {
      assert a + b == a;
    } else {
      var init, last := b[..|b| - 1], b[|b| - 1];
      assert a + b == (a + init) + [last];
      TotalAppend(f, a + init, last);
      TotalConcat(f, a, init);
    }
  }

  lemma {:induction false} TotalUpdate<T>(f: T -> int, s: seq<T>, i: nat, x: T)
    requires i < |s|
    ensures Total(f, s[i := x]) == Total(f, s) - f(s[i]) + f(x)
  {
    var n := |s| - 1;
    if i == n {
      assert s[i := x][..n] == s[..n];
    } else {
      assert s[i := x][..n] == s[..n][i := x];
      TotalUpdate(f, s[..n], i, x);
    }
  }

  /** Two row weights that agree on every row have the same total. */
  lemma {:induction false} TotalSame<T>(f: T -> int, g: T -> int, s: seq<T>)
    requires forall i :: 0 <= i < |s| ==> f(s[i]) == g(s[i])
    ensures Total(f, s) == Total(g, s)
  {
    if s == [] {
    } else {
      var n := |s| - 1;
      assert forall i :: 0 <= i < n ==> s[..n][i] == s[i];
      TotalSame(f, g, s[..n]);
    }
  }

  /** Two tables whose rows weigh the same, position by position. */
  lemma {:induction false} TotalEqual<T>(f: T -> int, a: seq<T>, b: seq<T>)
    requires |a| == |b| && forall i :: 0 <= i < |a| ==> f(a[i]) == f(b[i])
    ensures Total(f, a) == Total(f, b)
  {
    if a == [] {
    } else {
      var n := |a| - 1;
      assert forall i :: 0 <= i < n ==> a[..n][i] == a[i] && b[..n][i] == b[i];
      TotalEqual(f, a[..n], b[..n]);
    }
  }

  lemma {:induction false} TotalMonotone<T>(f: T -> int, g: T -> int, s: seq<T>)
    requires forall i :: 0 <= i < |s| ==> f(s[i]) <= g(s[i])
    ensures Total(f, s) <= Total(g, s)
  {
    if s == [] {
    } else {
      var n := |s| - 1;
      assert forall i :: 0 <= i < n ==> s[..n][i] == s[i];
      TotalMonotone(f, g, s[..n]);
    }
  }

  lemma {:induction false} TotalPlus<T>(f: T -> int, g: T -> int, h: T -> int, s: seq<T>)
    requires forall i :: 0 <= i < |s| ==> h(s[i]) == f(s[i]) + g(s[i])
    ensures Total(h, s) == Total(f, s) + Total(g, s)
  {
    if s == [] {
    } else {
      var n := |s| - 1;
      assert forall i :: 0 <= i < n ==> s[..n][i] == s[i];
      TotalPlus(f, g, h, s[..n]);
    }
  }

  lemma {:induction false} TotalZero<T>(f: T -> int, s: seq<T>)
    requires forall i :: 0 <= i < |s| ==> f(s[i]) == 0
    ensures Total(f, s) == 0
  {
    if s == [] {
    } else {
      var n := |s| - 1;
      assert forall i :: 0 <= i < n ==> s[..n][i] == s[i];
      TotalZero(f, s[..n]);
    }
  }

  /** With non-negative weights, the total is at least the weight of any one row. */
  lemma {:induction false} TotalAtLeast<T>(f: T -> int, s: seq<T>, k: nat)
    requires forall i :: 0 <= i < |s| ==> f(s[i]) >= 0
    ensures Total(f, s) >= 0
    ensures k < |s| ==> Total(f, s) >= f(s[k])
  {
    if s == [] {
    } else {
      var n := |s| - 1;
      assert forall i :: 0 <= i < n ==> s[..n][i] == s[i];
      TotalAtLeast(f, s[..n], k);
    }
  }

  /** With weights 0 and 1 and at most one row of weight 1, the total is at most 1. */
  lemma {:induction false} TotalAtMostOne<T>(f: T -> int, s: seq<T>)
    requires forall i :: 0 <= i < |s| ==> 0 <= f(s[i]) <= 1
    requires forall i, j :: 0 <= i < |s| && 0 <= j < |s| && f(s[i]) == 1 && f(s[j]) == 1 ==> i == j
    ensures 0 <= Total(f, s) <= 1
    ensures Total(f, s) == 1 <==> exists i :: 0 <= i < |s| && f(s[i]) == 1
  {
    if s == [] {
    } else {
      var n := |s| - 1;
      assert forall i :: 0 <= i < n ==> s[..n][i] == s[i];
      TotalAtMostOne(f, s[..n]);
      if f(s[n]) == 1 {
        TotalZero(f, s[..n]);
      }
      if exists i :: 0 <= i < n && f(s[..n][i]) == 1 {
        var i :| 0 <= i < n && f(s[..n][i]) == 1;
        assert f(s[i]) == 1;
      }
    }
  }

  /** Two row weights that differ at one row only. */
  lemma {:induction false} TotalDiffersAt<T>(f: T -> int, g: T -> int, s: seq<T>, k: nat)
    requires k < |s|
    requires forall i :: 0 <= i < |s| && i != k ==> f(s[i]) == g(s[i])
    ensures Total(g, s) == Total(f, s) + g(s[k]) - f(s[k])
  {
    var n := |s| - 1;
    assert forall i :: 0 <= i < n ==> s[..n][i] == s[i];
    if k == n {
      TotalSame(f, g, s[..n]);
    } else {
      TotalDiffersAt(f, g, s[..n], k);
    }
  }

  /** With non-negative weights, two rows of weight 1 make a total of at least 2. */
  lemma TotalAtLeastTwo<T>(f: T -> int, s: seq<T>, i: nat, j: nat)
    requires forall k :: 0 <= k < |s| ==> f(s[k]) >= 0
    requires i < j < |s| && f(s[i]) == f(s[j]) == 1
    ensures Total(f, s) >= 2
  {
    TotalConcat(f, s[..j], s[j..]);
    assert s[..j] + s[j..] == s;
    TotalAtLeast(f, s[..j], i);
    TotalAtLeast(f, s[j..], 0);
  }

  /** With non-negative weights, the total is at least the number of any set of rows that weigh 1 or more. */
  lemma {:induction false} TotalAtLeastCount<T>(f: T -> int, s: seq<T>, rows: set<nat>)
    requires forall i :: 0 <= i < |s| ==> f(s[i]) >= 0
    requires forall i <- rows :: i < |s| && f(s[i]) >= 1
    ensures Total(f, s) >= |rows|
  {
    if s == [] {
      assert forall i: nat :: i !in rows;
      assert rows == {};
    } else {
      var n := |s| - 1;
      assert forall i :: 0 <= i < n ==> s[..n][i] == s[i];
      TotalAtLeastCount(f, s[..n], rows - {n});
      assert rows <= (rows - {n}) + {n};
    }
  }
}
