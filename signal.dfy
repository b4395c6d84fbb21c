/** The signal engine of main.py: the data-length guard, the latest close and
    latest SMA, and the LEVERAGE / CASH rule with its risk-off tie-break. */
module SignalEngine {
  import opened Wrappers
  import opened Rolling

  /** The moving-average periods offered by the sidebar, and the one
      preselected (`index=4`). */
  const MaPeriods: seq<nat> := [10, 20, 50, 100, 200]
  const DefaultChoice: nat := 4

  /** The period picked by the user from the sidebar list. */
  function SelectPeriod(choice: nat): (window: nat)
    requires choice < |MaPeriods|
    ensures window in {10, 20, 50, 100, 200}
    ensures 10 <= window <= 200 && window % 10 == 0
    ensures choice == DefaultChoice ==> window == 200
  {
    MaPeriods[choice]
  }

  datatype Signal = Leverage | Cash

  /** Why no signal could be computed: the window the user asked for and the
      number of closes that were available. */
  datatype Shortfall = InsufficientData(required: nat, available: nat)

  /** What the engine reports: the last close, the last SMA and the signal. */
  datatype Report = Report(close: real, sma: real, signal: Signal)

  /** The guard in front of the computation: data present and at least one
      window long. */
  predicate Sufficient(available: nat, window: nat)
  {
    available != 0 && available >= window
  }

  /** LEVERAGE only when the close is strictly above the SMA; a tie goes to CASH. */
  function Decide(close: real, sma: real): Signal
  {
    if close > sma then Leverage else Cash
  }

  /** The whole engine: guard, SMA column, latest values, signal. */
  function ComputeSignal(closes: seq<real>, window: nat): (r: Result<Report, Shortfall>)
    requires window > 0
    ensures r.Failure? <==> |closes| < window
    ensures r.Failure? ==> r.error == InsufficientData(window, |closes|)
    ensures r.Success? ==>
              && r.value.close == closes[|closes| - 1]
              && r.value.sma == Mean(closes[|closes| - window..])
              && RollingMean(closes, window)[|closes| - 1] == Some(r.value.sma)
              && (r.value.signal == Leverage <==> r.value.close > r.value.sma)
  {
    if !Sufficient(|closes|, window) then
      Failure(InsufficientData(window, |closes|))
    else
      var column := RollingMean(closes, window);
      var last := |closes| - 1;
      RollingMeanAt(closes, window, last);
      var latestClose := closes[last];
      var latestSma := column[last].value;
      assert TrailingWindow(closes, last, window) == closes[|closes| - window..];
      Success(Report(latestClose, latestSma, Decide(latestClose, latestSma)))
  }

  /** A window exactly as long as the series passes the guard and averages
      every close. */
  lemma WholeSeriesWindow(closes: seq<real>)
    requires |closes| > 0
    ensures ComputeSignal(closes, |closes|).Success?
    ensures ComputeSignal(closes, |closes|).value.sma == Mean(closes)
  {
  }

  /** Only the trailing window matters: closes before it change nothing in
      the report. */
  lemma EarlierClosesIgnored(earlier: seq<real>, closes: seq<real>, window: nat)
    requires 0 < window <= |closes|
    ensures ComputeSignal(earlier + closes, window) == ComputeSignal(closes, window)
  {
    var all := earlier + closes;
    assert all[|all| - window..] == closes[|closes| - window..];
    assert all[|all| - 1] == closes[|closes| - 1];
  }

  /** When the last close is at least every close in its window and strictly
      above one of them, the signal is LEVERAGE. */
  lemma CloseAboveWindowIsLeverage(closes: seq<real>, window: nat, j: nat)
    requires 0 < window <= |closes|
    requires forall k :: |closes| - window <= k < |closes| ==> closes[k] <= closes[|closes| - 1]
    requires |closes| - window <= j < |closes| && closes[j] < closes[|closes| - 1]
    ensures ComputeSignal(closes, window).Success?
    ensures ComputeSignal(closes, window).value.signal == Leverage
  {
    var n := |closes|;
    var win := closes[n - window..];
    assert forall k :: 0 <= k < window ==> win[k] == closes[n - window + k];
    MeanBelow(win, closes[n - 1], j - (n - window));
  }

  /** When no close in the window is below the last close, the last close
      cannot exceed their mean and the signal is CASH; a flat window is the
      case where close and SMA tie. */
  lemma CloseAtOrBelowWindowIsCash(closes: seq<real>, window: nat)
    requires 0 < window <= |closes|
    requires forall k :: |closes| - window <= k < |closes| ==> closes[|closes| - 1] <= closes[k]
    ensures ComputeSignal(closes, window).Success?
    ensures ComputeSignal(closes, window).value.signal == Cash
  {
    var n := |closes|;
    var win := closes[n - window..];
    assert forall k :: 0 <= k < window ==> win[k] == closes[n - window + k];
    MeanAtLeast(win, closes[n - 1]);
  }

  /** A one-day SMA is the close itself, so the tie-break always gives CASH. */
  lemma OneDayWindowIsCash(closes: seq<real>)
    requires |closes| > 0
    ensures ComputeSignal(closes, 1) == Success(Report(closes[|closes| - 1], closes[|closes| - 1], Cash))
  {
    var c := closes[|closes| - 1];
    assert closes[|closes| - 1..] == [c];
    assert Mean([c]) == c by {
      assert [c][..0] == [];
      assert Sum([c]) == c;
      assert |[c]| as real == 1.0;
    }
    var r := ComputeSignal(closes, 1);
    assert r.Success? && r.value.close == c && r.value.sma == c;
  }

  /** Closes 10, 12, 14, 16, 18 over 3 days: SMA 16 and close 18, LEVERAGE. */
  lemma RisingExample()
    ensures ComputeSignal([10.0, 12.0, 14.0, 16.0, 18.0], 3) == Success(Report(18.0, 16.0, Leverage))
  {
    assert [10.0, 12.0, 14.0, 16.0, 18.0][2..] == [14.0, 16.0, 18.0];
    assert Sum([14.0, 16.0, 18.0]) == 48.0 by {
      assert [14.0, 16.0, 18.0][..2] == [14.0, 16.0];
      assert [14.0, 16.0][..1] == [14.0];
      assert [14.0][..0] == [];
    }
  }

  /** Closes 20, 18, 16, 14, 10 over 3 days: SMA 40/3 and close 10, CASH. */
  lemma FallingExample()
    ensures ComputeSignal([20.0, 18.0, 16.0, 14.0, 10.0], 3) == Success(Report(10.0, 40.0 / 3.0, Cash))
  {
    assert [20.0, 18.0, 16.0, 14.0, 10.0][2..] == [16.0, 14.0, 10.0];
    assert Sum([16.0, 14.0, 10.0]) == 40.0 by {
      assert [16.0, 14.0, 10.0][..2] == [16.0, 14.0];
      assert [16.0, 14.0][..1] == [16.0];
      assert [16.0][..0] == [];
    }
  }

  /** Closes 5, 5, 5 over 3 days: close equals SMA, CASH by the tie-break. */
  lemma TieExample()
    ensures ComputeSignal([5.0, 5.0, 5.0], 3) == Success(Report(5.0, 5.0, Cash))
  {
    assert [5.0, 5.0, 5.0][0..] == [5.0, 5.0, 5.0];
    assert Sum([5.0, 5.0, 5.0]) == 15.0 by {
      assert [5.0, 5.0, 5.0][..2] == [5.0, 5.0];
      assert [5.0, 5.0][..1] == [5.0];
      assert [5.0][..0] == [];
    }
  }

  /** Two closes cannot fill a 5-day window: the failure names both counts. */
  lemma ShortSeriesExample()
    ensures ComputeSignal([1.0, 2.0], 5) == Failure(InsufficientData(5, 2))
  {
  }
}
