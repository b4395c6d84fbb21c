# LRS signal engine — a Dafny model

The dashboard in `main.py` decides, for the next trading day, whether the
Leverage Rotation Strategy holds a leveraged position or moves to cash. Its
only logic is the SMA signal engine: it checks that the daily closes are
present and at least one moving-average window long, writes the trailing
simple moving average of `Close` into a new `SMA` column, reads the latest
close and the latest SMA, and answers LEVERAGE when the close is strictly
above the SMA and CASH otherwise (a tie goes to CASH). When the guard fails
it shows an error instead and computes nothing.

This project models that engine over closes given as `seq<real>`:

- `wrappers.dfy` — `Option` (the undefined leading rows of the SMA column,
  NaN in pandas) and `Result` (the failure branch).
- `rolling.dfy` — module `Rolling`: `Sum`, `Mean`, the trailing window, the
  whole SMA column as a specification function (`RollingMean`), and
  `FillSmaColumn`, a method that fills an array column in place row by row
  with a running window sum (add the newest close, drop the one that left
  the window), proved equal to the specification.
- `signal.dfy` — module `SignalEngine`: the sidebar's period choices, the guard,
  `ComputeSignal` (guard, SMA column, latest values, LEVERAGE/CASH), and
  lemmas about when each signal is produced.

The source's error text (main.py:85) names only the requested period. The
model's failure value also records how many closes were available. The
branch and its condition are the same.

## Model

| member | source | states |
|---|---|---|
| SignalEngine.SelectPeriod | main.py:18 | the period is one of the sidebar's choices 10, 20, 50, 100 or 200 (so positive), and 200 for the preselected `index=4` |
| SignalEngine.ComputeSignal | main.py:33-48 | fails exactly when fewer closes than the window are available, with a failure carrying the required and available counts; otherwise the close is the last close, the SMA is the mean of exactly the last `window` closes and equals the last row of the SMA column, and the signal is LEVERAGE if and only if the close is strictly above the SMA |
| SignalEngine.WholeSeriesWindow | main.py:33 | a window as long as the whole series passes the guard (`>=`, not `>`) and its SMA is the mean of every close |
| SignalEngine.EarlierClosesIgnored | main.py:35-39 | prepending any earlier closes to a series at least one window long leaves the whole report unchanged: no close before the trailing window affects it |
| SignalEngine.CloseAboveWindowIsLeverage | main.py:43-46 | a last close at least every close of its window and strictly above one of them yields LEVERAGE |
| SignalEngine.CloseAtOrBelowWindowIsCash | main.py:47-50 | a last close that no close of its window is below, including a flat window where close and SMA tie, yields CASH |
| SignalEngine.OneDayWindowIsCash | main.py:43-48 | with a one-day window the SMA equals the close, so the tie-break always yields CASH |
| SignalEngine.RisingExample | main.py:43-46 | closes 10, 12, 14, 16, 18 with a 3-day window report close 18, SMA 16 and LEVERAGE |
| SignalEngine.FallingExample | main.py:47-50 | closes 20, 18, 16, 14, 10 with a 3-day window report close 10, SMA 40/3 and CASH |
| SignalEngine.TieExample | main.py:47-48 | closes 5, 5, 5 with a 3-day window report close 5, SMA 5 and CASH |
| SignalEngine.ShortSeriesExample | main.py:84-85 | two closes with a 5-day window take the failure branch, reporting 5 required and 2 available |
| Rolling.RollingMean | main.py:35 | the SMA column has as many rows as the `Close` column |
| Rolling.RollingMeanAt | main.py:35 | row `i` of the SMA column is undefined when `i < window - 1` and otherwise the mean of exactly the closes at rows `i - window + 1` to `i` |
| Rolling.RollingMeanPrefix | main.py:35 | the column is order-preserving and restartable: computing it over a longer series leaves the rows of the shorter prefix unchanged |
| Rolling.FillSmaColumn | main.py:35 | filling the column in place with a running window sum produces exactly the SMA column of the closes |
| Rolling.MeanAtLeast | main.py:35 | the mean of a window is at least any lower bound of its closes |
| Rolling.MeanBelow | main.py:35 | the mean of a window is strictly below an upper bound that one of its closes misses |

## Left out

- Streamlit page setup, sidebar widget, metrics, HTML banner, colours, explanation texts and the line chart (main.py:10-18, main.py:52-82): presentation with nothing to check; the sidebar is modelled only as the list of periods it offers.
- The yfinance download, `@st.cache_data` caching and the start-date arithmetic (main.py:21-30): network I/O and foreign library calls; the model takes the downloaded closes as its input.
- The date of the last row and its `strftime` formatting (main.py:40), and the currency formatting (main.py:57-59): presentation only; the date is read from the same last row as the close.
- Floating point: closes are `real`, so the mean and the comparison at main.py:43 are exact; pandas' rounding in its running sum and NaN propagation from missing closes are not modelled.
- The signal labels and emoji/CJK texts (main.py:44-50): the signal is the two-constructor datatype `Signal`.
- The period passed to the engine: `ComputeSignal` takes any positive window rather than only the sidebar's periods, because the engine's behaviour does not depend on which period was chosen; `SelectPeriod` shows every choice is positive.
