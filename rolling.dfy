/** The trailing simple moving average that `rolling(window).mean()` writes
    into the `SMA` column of the price table (main.py:35). */
module Rolling {
  import opened Wrappers

  /** Sum of a sequence of closes, accumulated from the front. */
  function Sum(s: seq<real>): real
  {
    if s == [] then 0.0 else Sum(s[..|s| - 1]) + s[|s| - 1]
  }

  /** Arithmetic mean of a non-empty sequence. */
  function Mean(s: seq<real>): real
    requires |s| > 0
  {
    Sum(s) / (|s| as real)
  }

  /** The `window` closes ending at (and including) position `i`. */
  function TrailingWindow(closes: seq<real>, i: nat, window: nat): (win: seq<real>)
    requires 0 < window <= i + 1 <= |closes|
    ensures |win| == window
    ensures win[window - 1] == closes[i]
    ensures forall k :: 0 <= k < window ==> win[k] == closes[i + 1 - window + k]
  {
    closes[i + 1 - window .. i + 1]
  }

  /** The SMA at row `i`: the mean of exactly the trailing window ending there. */
  function SmaAt(closes: seq<real>, i: nat, window: nat): real
    requires 0 < window <= i + 1 <= |closes|
  {
    Mean(TrailingWindow(closes, i, window))
  }

  /** The value of the last row of the SMA column for `closes`: undefined
      (NaN in pandas) until a whole window is available. */
  function LastRolling(closes: seq<real>, window: nat): (v: Option<real>)
    requires window > 0
  {
    if |closes| >= window then Some(SmaAt(closes, |closes| - 1, window)) else None
  }

  /** The whole SMA column, built row by row from the front, so that each row
      depends only on the rows up to and including it. */
  function RollingMean(closes: seq<real>, window: nat): (col: seq<Option<real>>)
    requires window > 0
    ensures |col| == |closes|
  {
    if closes == [] then []
    else RollingMean(closes[..|closes| - 1], window) + [LastRolling(closes, window)]
  }

  /** The sum can equally be split at the front: the first close plus the rest. */
  lemma {:induction false} SumFront(s: seq<real>)
    requires |s| > 0
    ensures Sum(s) == s[0] + Sum(s[1..])
  {
    if |s| > 1 {
      SumFront(s[..|s| - 1]);
      assert s[..|s| - 1][1..] == s[1..][..|s[1..]| - 1];
      assert s[..|s| - 1][0] == s[0];
    } else {
      assert s[1..] == [];
      assert s[..0] == [];
    }
  }

  /** A sum of closes that are all at most `b` is at most `|s| * b`. */
  lemma {:induction false} SumAtMost(s: seq<real>, b: real)
    requires forall k :: 0 <= k < |s| ==> s[k] <= b
    ensures Sum(s) <= (|s| as real) * b
  {
    if s != [] {
      var front := s[..|s| - 1];
      SumAtMost(front, b);
      assert (|s| as real) * b == (|front| as real) * b + b;
    }
  }

  /** ... and strictly less than that when the close at `j` is below `b`. */
  lemma {:induction false} SumBelow(s: seq<real>, b: real, j: nat)
    requires forall k :: 0 <= k < |s| ==> s[k] <= b
    requires j < |s| && s[j] < b
    ensures Sum(s) < (|s| as real) * b
  {
    var front := s[..|s| - 1];
    assert (|s| as real) * b == (|front| as real) * b + b;
    if j < |s| - 1 {
      SumBelow(front, b, j);
    } else {
      SumAtMost(front, b);
    }
  }

  /** A sum of closes that are all at least `b` is at least `|s| * b`. */
  lemma {:induction false} SumAtLeast(s: seq<real>, b: real)
    requires forall k :: 0 <= k < |s| ==> b <= s[k]
    ensures (|s| as real) * b <= Sum(s)
  {
    if s != [] {
      SumAtLeast(s[..|s| - 1], b);
      assert (|s| as real) * b == ((|s| - 1) as real) * b + b;
    }
  }

  /** The mean is at least any lower bound of the closes. */
  lemma MeanAtLeast(s: seq<real>, lo: real)
    requires |s| > 0
    requires forall k :: 0 <= k < |s| ==> lo <= s[k]
    ensures lo <= Mean(s)
  {
    SumAtLeast(s, lo);
    assert Mean(s) * (|s| as real) == Sum(s);
  }

  /** The mean is strictly below an upper bound that the close at `j` misses. */
  lemma MeanBelow(s: seq<real>, hi: real, j: nat)
    requires forall k :: 0 <= k < |s| ==> s[k] <= hi
    requires j < |s| && s[j] < hi
    ensures Mean(s) < hi
  {
    SumBelow(s, hi, j);
    assert Mean(s) * (|s| as real) == Sum(s);
  }

  /** Row `i` of the column is undefined before a whole window is available,
      and is the mean of exactly the `window` closes ending at row `i` after. */
  lemma {:induction false} RollingMeanAt(closes: seq<real>, window: nat, i: nat)
    requires window > 0 && i < |closes|
    ensures RollingMean(closes, window)[i] ==
            if i + 1 < window then None else Some(SmaAt(closes, i, window))
    decreases |closes|
  {
    var n := |closes|;
    if i < n - 1 {
      var front := closes[..n - 1];
      RollingMeanAt(front, window, i);
      if i + 1 >= window {
        assert TrailingWindow(front, i, window) == TrailingWindow(closes, i, window);
      }
    }
  }

  /** The column is order-preserving and restartable: computing it over a
      longer series leaves the rows of the shorter prefix as they were. */
  lemma {:induction false} RollingMeanPrefix(closes: seq<real>, more: seq<real>, window: nat)
    requires window > 0
    ensures RollingMean(closes + more, window)[..|closes|] == RollingMean(closes, window)
  {
    var all := closes + more;
    var whole := RollingMean(all, window);
    var part := RollingMean(closes, window);
    forall i | 0 <= i < |closes|
      ensures whole[i] == part[i]
    {
      RollingMeanAt(all, window, i);
      RollingMeanAt(closes, window, i);
      if i + 1 >= window {
        assert TrailingWindow(all, i, window) == TrailingWindow(closes, i, window) by {
          assert all[..|closes|] == closes;
        }
      }
    }
    assert |whole[..|closes|]| == |part|;
  }

  /** Moving the window one row on: the newest close enters the sum, and
      the oldest one can then be dropped from its front. */
  lemma SlideSum(closes: seq<real>, lo: nat, i: nat)
    requires lo <= i < |closes|
    ensures Sum(closes[lo .. i + 1]) == Sum(closes[lo .. i]) + closes[i]
    ensures Sum(closes[lo + 1 .. i + 1]) == Sum(closes[lo .. i + 1]) - closes[lo]
  {
    var win := closes[lo .. i + 1];
    assert win[..|win| - 1] == closes[lo .. i];
    SumFront(win);
    assert win[1..] == closes[lo + 1 .. i + 1];
  }

  /** Row `i` of the column, once a whole window is available, is the sum of
      that window divided by its length. */
  lemma RollingMeanRow(closes: seq<real>, window: nat, i: nat)
    requires 0 < window <= i + 1 <= |closes|
    ensures RollingMean(closes, window)[i] == Some(Sum(closes[i + 1 - window .. i + 1]) / (window as real))
  {
    RollingMeanAt(closes, window, i);
  }

  /** Where the running sum of `FillSmaColumn` starts before row `i` is added. */
  function WindowStart(i: nat, window: nat): nat
  {
    if i < window then 0 else i - window
  }

  /** Fills the `sma` column in place, one row at a time, keeping a running
      sum of the current window: each step adds the newest close and, once the
      window is full, drops the one that left it. */
  method FillSmaColumn(closes: seq<real>, sma: array<Option<real>>, window: nat)
    requires window > 0
    requires sma.Length == |closes|
    modifies sma
    ensures sma[..] == RollingMean(closes, window)
  {
    ghost var column := RollingMean(closes, window);
    var total := 0.0;
    var i := 0;
    while i < |closes|
      invariant 0 <= i <= |closes|
      invariant total == Sum(closes[WindowStart(i, window) .. i])
      invariant forall k :: 0 <= k < i ==> sma[k] == column[k]
    {
      SlideSum(closes, WindowStart(i, window), i);
      if i + 1 >= window {
        RollingMeanRow(closes, window, i);
      } else {
        RollingMeanAt(closes, window, i);
      }
      total := total + closes[i];
      if i >= window {
        total := total - closes[i - window];
      }
      sma[i] := if i + 1 >= window then Some(total / (window as real)) else None;
      i := i + 1;
    }
    assert sma[..] == column;
  }
}
