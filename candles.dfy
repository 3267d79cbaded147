/**
 * The candle series engine (`generate_realistic_candles`, main.py:291-487):
 * a process-wide store from "<symbol>_<timeframe>" to a list of OHLCV
 * candles. The first request for a key synthesises `limit` candles on the
 * timeframe grid ending at the current bar; later requests append one
 * candle per bar boundary that has passed, each opening at the previous
 * close, trim the list, and re-draw only the newest candle's close.
 *
 * The wall clock is the parameter `nowMs` (milliseconds since the epoch,
 * UTC) and every random draw is a parameter: `steps(k)` for the k-th
 * candle generated by a call, `seedFactor` for the first open of a new
 * series, and `intra` for the live candle.
 */
module Candles {
  import opened Wrappers
  import Symbols
  import Arith

  const MinuteMs: int := 60000
  const DayMs: int := 86400000

  /** Candles kept beyond the requested `limit` before the list is cut (main.py:411). */
  const Margin: int := 50

  /** One OHLCV candle; `t` is its opening time in milliseconds. */
  datatype Candle = Candle(t: int, o: real, h: real, l: real, c: real, v: real)

  /**
   * The random draws behind one generated candle: the relative change of the
   * close against the open (already including the occasional 1.5-2.5x
   * amplification), the relative gap of the open against the previous close
   * (bootstrap only; 0 when no gap is drawn), the two wick factors and the
   * volume base.
   */
  datatype Step = Step(change: real, gap: real, wickUp: real, wickDown: real, volume: real)

  /** The ranges the code draws from: uniform(0.2, 1.2) for the wicks, uniform(100, 500) for the volume base. */
  predicate Drawn(d: Step)
  {
    0.2 <= d.wickUp <= 1.2 && 0.2 <= d.wickDown <= 1.2 && 100.0 <= d.volume <= 500.0
  }

  /** The OHLC envelope: the high is at or above both open and close, the low at or below both. */
  predicate Envelope(c: Candle)
  {
    c.l <= Min(c.o, c.c) && Max(c.o, c.c) <= c.h
  }

  predicate Increasing(s: seq<Candle>)
  {
    forall i :: 0 < i < |s| ==> s[i - 1].t < s[i].t
  }

  /** What every series in the store satisfies: increasing opening times, every candle inside its envelope. */
  predicate WellFormed(s: seq<Candle>)
  {
    Increasing(s) && forall i :: 0 <= i < |s| ==> Envelope(s[i])
  }

  /** Whether every opening time lies on the grid of `tfMs`-wide bars. */
  predicate OnGrid(s: seq<Candle>, tfMs: int)
    requires tfMs > 0
  {
    forall i :: 0 <= i < |s| ==> s[i].t % tfMs == 0
  }

  /** Whether consecutive candles open exactly `d` apart, as a series of `d`-wide bars does. */
  predicate Spaced(s: seq<Candle>, d: int)
  {
    forall i :: 0 < i < |s| ==> s[i].t == s[i - 1].t + d
  }

  /** A series of bars `tfMs` wide: well formed, exactly one bar apart and on the grid. */
  predicate Regular(s: seq<Candle>, tfMs: int)
    requires tfMs > 0
  {
    WellFormed(s) && Spaced(s, tfMs) && OnGrid(s, tfMs)
  }

  // ---------------------------------------------------------------- tables

  /** BASE_PRICES (main.py:236-240): the fallback reference price per asset. */
  const BasePrices: map<string, real> := map[
    "BTC" := 45000.0, "ETH" := 2500.0, "SOL" := 100.0, "ADA" := 0.55, "DOT" := 7.5,
    "LINK" := 15.0, "MATIC" := 0.85, "AVAX" := 35.0, "XRP" := 0.60, "DOGE" := 0.08,
    "SHIB" := 0.000025, "UNI" := 8.0, "LTC" := 90.0, "BCH" := 250.0, "TRX" := 0.10]

  /** VOLATILITY (main.py:243-247): the volatility coefficient per asset. */
  const Volatilities: map<string, real> := map[
    "BTC" := 0.015, "ETH" := 0.02, "SOL" := 0.03, "ADA" := 0.025, "DOT" := 0.025,
    "LINK" := 0.03, "MATIC" := 0.03, "AVAX" := 0.035, "XRP" := 0.025, "DOGE" := 0.04,
    "SHIB" := 0.05, "UNI" := 0.03, "LTC" := 0.02, "BCH" := 0.025, "TRX" := 0.03]

  /** The timeframe table of main.py:313-316, in minutes. */
  const Timeframes: map<string, int> := map[
    "1m" := 1, "2m" := 2, "5m" := 5, "10m" := 10, "15m" := 15,
    "30m" := 30, "1h" := 60, "4h" := 240, "1d" := 1440]

  function BasePrice(sym: string): real
  {
    if sym in BasePrices then BasePrices[sym] else 100.0
  }

  function Volatility(sym: string): (v: real)
    ensures v > 0.0
  {
    if sym in Volatilities then Volatilities[sym] else 0.02
  }

  /** Bar width in minutes; an unknown timeframe is 5 minutes. Every width divides a day. */
  function TfMinutes(tf: string): (m: int)
    ensures m >= 1 && 1440 % m == 0
    ensures tf !in Timeframes ==> m == 5
  {
    if tf in Timeframes then Timeframes[tf] else 5
  }

  /** The cache key `f"{symbol}_{tf}"`. */
  function SeriesKey(symbol: string, tf: string): string
  {
    symbol + "_" + tf
  }

  /** The first open of a new series: the reference price (or the table's) times the drawn factor. */
  function FirstOpen(symbol: string, basePrice: Option<real>, seedFactor: real): real
  {
    (if basePrice.None? then BasePrice(Symbols.BaseSymbol(symbol)) else basePrice.value) * seedFactor
  }

  // ---------------------------------------------------------------- time grid

  /**
   * The opening time of the bar that contains `nowMs` (main.py:318-328):
   * midnight UTC plus the whole number of bars since midnight. It is on the
   * minute grid, at or before the clock, and less than one bar before it;
   * for a width dividing a day it is on the bar grid.
   */
  function BarStart(nowMs: int, tfMin: int): (start: int)
    requires tfMin >= 1
    ensures start <= nowMs < start + tfMin * MinuteMs
    ensures start % MinuteMs == 0
    ensures 1440 % tfMin == 0 ==> start % (tfMin * MinuteMs) == 0
  {
    var midnight := nowMs - nowMs % DayMs;
    var minutes := (nowMs % DayMs) / MinuteMs;
    var index := minutes / tfMin;
    BarStartFacts(nowMs, tfMin);
    midnight + index * tfMin * MinuteMs
  }

  lemma BarStartFacts(nowMs: int, tfMin: int)
    requires tfMin >= 1
    ensures var start := (nowMs - nowMs % DayMs) + ((nowMs % DayMs) / MinuteMs / tfMin) * tfMin * MinuteMs;
      && start <= nowMs < start + tfMin * MinuteMs
      && start % MinuteMs == 0
      && (1440 % tfMin == 0 ==> start % (tfMin * MinuteMs) == 0)
  {
    var day := nowMs / DayMs;
    var msOfDay := nowMs % DayMs;
    var minutes := msOfDay / MinuteMs;
    var index := minutes / tfMin;
    var midnight := nowMs - msOfDay;
    assert midnight == day * DayMs;
    assert msOfDay == minutes * MinuteMs + msOfDay % MinuteMs;
    assert minutes == index * tfMin + minutes % tfMin;
    var start := midnight + index * tfMin * MinuteMs;
    assert index * tfMin * MinuteMs == (index * tfMin) * MinuteMs;
    assert start == (day * 1440 + index * tfMin) * MinuteMs;
    Arith.MultipleMod(day * 1440 + index * tfMin, MinuteMs);
    if 1440 % tfMin == 0 {
      var perDay := 1440 / tfMin;
      assert 1440 == perDay * tfMin;
      assert start == (day * perDay + index) * (tfMin * MinuteMs);
      Arith.MultipleMod(day * perDay + index, tfMin * MinuteMs);
    }
  }

  /** A later clock never gives an earlier bar. */
  lemma BarStartMonotone(now0: int, now1: int, tfMin: int)
    requires tfMin >= 1 && 1440 % tfMin == 0 && now0 <= now1
    ensures BarStart(now0, tfMin) <= BarStart(now1, tfMin)
  {
    var s0, s1 := BarStart(now0, tfMin), BarStart(now1, tfMin);
    if s1 < s0 {
      Arith.MultiplesApart(s1, s0, tfMin * MinuteMs);
    }
  }

  // ---------------------------------------------------------------- one candle

  /**
   * A candle opening at `open`: close = open * (1 + change); the wicks are
   * the drawn fractions of the body, above the higher and below the lower of
   * open and close; the volume grows with the size of the move.
   */
  function Forge(t: int, open: real, d: Step, vol: real): (c: Candle)
    requires vol > 0.0
    ensures c.t == t && c.o == open && c.c == Moved(open, d.change)
    ensures Drawn(d) ==> Envelope(c) && c.v >= d.volume
  {
    var close := Moved(open, d.change);
    var body := Abs(close - open);
    var up := body * d.wickUp;
    var down := body * d.wickDown;
    var volume := d.volume * (1.0 + Abs(d.change) / vol * 2.0);
    assert Drawn(d) ==> up >= 0.0 && down >= 0.0 && volume >= d.volume by {
      if Drawn(d) {
        NonNegProduct(body, d.wickUp);
        NonNegProduct(body, d.wickDown);
        NonNegProduct(d.volume, Abs(d.change) / vol * 2.0);
      }
    }
    Candle(t, open, Max(open, close) + up, Min(open, close) - down, close, volume)
  }

  lemma NonNegProduct(x: real, y: real)
    requires x >= 0.0 && y >= 0.0
    ensures x * y >= 0.0
  {
  }

  /**
   * A price moved by the fraction `f` of itself: no move keeps it, and a
   * positive price stays positive under any move above -100%.
   */
  function Moved(x: real, f: real): (r: real)
    ensures f == 0.0 ==> r == x
    ensures x > 0.0 && f > -1.0 ==> r > 0.0
  {
    var y := 1.0 + f;
    assert x > 0.0 && f > -1.0 ==> y > 0.0;
    x * y
  }

  /**
   * The live update of the newest candle (main.py:477-485): its close is
   * re-drawn from its open, and its high and low widen just enough to
   * contain the new close.
   */
  function Touch(c: Candle, intra: real): (r: Candle)
    ensures r.t == c.t && r.o == c.o && r.v == c.v
    ensures r.c == Moved(c.o, intra)
    ensures c.h <= r.h && r.c <= r.h && (r.h == c.h || r.h == r.c)
    ensures r.l <= c.l && r.l <= r.c && (r.l == c.l || r.l == r.c)
    ensures Envelope(c) ==> Envelope(r)
  {
    var close := Moved(c.o, intra);
    Candle(c.t, c.o, Max(c.h, close), Min(c.l, close), close, c.v)
  }

  // ---------------------------------------------------------------- bootstrap

  /**
   * The first `n` candles of a new series of `limit` candles whose last one
   * opens at `start`: candle i opens at start - (limit-1-i) bars; the first
   * opens at `first`, each later one at the previous close moved by its gap.
   */
  function Bootstrapped(n: nat, limit: int, start: int, tfMs: int, first: real, steps: nat -> Step, vol: real): (s: seq<Candle>)
    requires vol > 0.0
    ensures |s| == n
  {
    if n == 0 then []
    else
      var prev := Bootstrapped(n - 1, limit, start, tfMs, first, steps, vol);
      var i := n - 1;
      var open := if i == 0 then first else Moved(prev[i - 1].c, steps(i).gap);
      prev + [Forge(start - BarsBack(limit - 1 - i, tfMs), open, steps(i), vol)]
  }

  /** The bootstrap loop (main.py:330-370). */
  method Bootstrap(limit: int, start: int, tfMs: int, first: real, steps: nat -> Step, vol: real)
    returns (candles: seq<Candle>)
    requires vol > 0.0
    ensures candles == Bootstrapped(if limit < 0 then 0 else limit, limit, start, tfMs, first, steps, vol)
  {
    candles := [];
    var i := 0;
    while i < limit
      invariant 0 <= i <= (if limit < 0 then 0 else limit)
      invariant candles == Bootstrapped(i, limit, start, tfMs, first, steps, vol)
    {
      var t := start - BarsBack(limit - 1 - i, tfMs);
      var open := if i == 0 then first else candles[i - 1].c;
      if i > 0 {
        open := Moved(open, steps(i).gap);
      }
      ghost var nx := Bootstrapped(i + 1, limit, start, tfMs, first, steps, vol);
      assert |nx| == i + 1;
      assert nx[..i] == candles;
      assert nx[i].t == t;
      assert nx[i].o == open;
      assert nx[i] == Forge(t, open, steps(i), vol);
      assert nx == candles + [Forge(t, open, steps(i), vol)];
      candles := candles + [Forge(t, open, steps(i), vol)];
      i := i + 1;
    }
  }

  /** The time `k` bars of `tfMs` milliseconds span. */
  function BarsBack(k: int, tfMs: int): (r: int)
    ensures tfMs > 0 ==> r % tfMs == 0
  {
    if tfMs > 0 then Arith.MultipleMod(k, tfMs); k * tfMs else k * tfMs
  }

  lemma BarsBackStep(k: int, tfMs: int)
    ensures BarsBack(k + 1, tfMs) == BarsBack(k, tfMs) + tfMs
  {
  }

  /**
   * Bootstrapped opening times: the newest of the first n candles opens
   * (limit - n) bars before `start`, consecutive candles are exactly one bar
   * apart, and the last of `limit` candles opens at `start`.
   */
  lemma {:induction false} BootstrapTimes(n: nat, limit: int, start: int, tfMs: int, first: real, steps: nat -> Step, vol: real)
    requires vol > 0.0
    ensures var s := Bootstrapped(n, limit, start, tfMs, first, steps, vol);
      && (n > 0 ==> s[n - 1].t == start - BarsBack(limit - n, tfMs))
      && (forall i :: 0 < i < n ==> s[i].t == s[i - 1].t + tfMs)
      && (n == limit > 0 ==> s[n - 1].t == start)
  {
    if n > 0 {
      BootstrapTimes(n - 1, limit, start, tfMs, first, steps, vol);
      var s := Bootstrapped(n, limit, start, tfMs, first, steps, vol);
      var prev := Bootstrapped(n - 1, limit, start, tfMs, first, steps, vol);
      assert s == prev + [s[n - 1]];
      assert s[n - 1].t == start - BarsBack(limit - n, tfMs);
      if n > 1 {
        assert prev[n - 2].t == start - BarsBack(limit - n + 1, tfMs);
        BarsBackStep(limit - n, tfMs);
      }
    }
  }

  /**
   * Bootstrapped opens: the first candle opens at `first`, every later one at
   * the previous close moved by its drawn gap.
   */
  lemma {:induction false} BootstrapOpens(n: nat, limit: int, start: int, tfMs: int, first: real, steps: nat -> Step, vol: real)
    requires vol > 0.0
    ensures var s := Bootstrapped(n, limit, start, tfMs, first, steps, vol);
      && (n > 0 ==> s[0].o == first)
      && (forall i :: 0 < i < n ==> s[i].o == Moved(s[i - 1].c, steps(i).gap))
  {
    if n > 0 {
      BootstrapOpens(n - 1, limit, start, tfMs, first, steps, vol);
      var s := Bootstrapped(n, limit, start, tfMs, first, steps, vol);
      var prev := Bootstrapped(n - 1, limit, start, tfMs, first, steps, vol);
      assert s == prev + [s[n - 1]];
      forall i | 0 < i < n ensures s[i].o == Moved(s[i - 1].c, steps(i).gap) {
        if i < n - 1 {
          assert s[i] == prev[i] && s[i - 1] == prev[i - 1];
        } else {
          assert s[i - 1] == prev[n - 2];
        }
      }
    }
  }

  /** With in-range draws a bootstrapped series is well formed. */
  lemma {:induction false} BootstrapWellFormed(n: nat, limit: int, start: int, tfMs: int, first: real, steps: nat -> Step, vol: real)
    requires vol > 0.0 && tfMs > 0 && forall k :: Drawn(steps(k))
    ensures WellFormed(Bootstrapped(n, limit, start, tfMs, first, steps, vol))
  {
    if n > 0 {
      BootstrapWellFormed(n - 1, limit, start, tfMs, first, steps, vol);
      BootstrapTimes(n, limit, start, tfMs, first, steps, vol);
      var s := Bootstrapped(n, limit, start, tfMs, first, steps, vol);
      var prev := Bootstrapped(n - 1, limit, start, tfMs, first, steps, vol);
      assert forall i :: 0 <= i < n - 1 ==> s[i] == prev[i];
      assert Envelope(s[n - 1]);
    }
  }

  /** With the bar start on the bar grid, every bootstrapped candle is on it. */
  lemma {:induction false} BootstrapOnGrid(n: nat, limit: int, start: int, tfMs: int, first: real, steps: nat -> Step, vol: real)
    requires vol > 0.0 && tfMs > 0 && start % tfMs == 0
    ensures OnGrid(Bootstrapped(n, limit, start, tfMs, first, steps, vol), tfMs)
  {
    if n > 0 {
      BootstrapOnGrid(n - 1, limit, start, tfMs, first, steps, vol);
      BootstrapTimes(n, limit, start, tfMs, first, steps, vol);
      var s := Bootstrapped(n, limit, start, tfMs, first, steps, vol);
      var prev := Bootstrapped(n - 1, limit, start, tfMs, first, steps, vol);
      assert s == prev + [s[n - 1]];
      Arith.MultipleDiff(BarsBack(limit - n, tfMs), start, tfMs);
      assert s[n - 1].t % tfMs == 0;
    }
  }

  // ---------------------------------------------------------------- extension

  /**
   * The series after catching up with the bar that opens at `start`
   * (main.py:377-406): while the newest candle opens before `start`, one
   * more candle is appended a bar later, opening at the newest close.
   * `k` numbers the draws.
   */
  function Extended(s: seq<Candle>, start: int, tfMs: int, k: nat, steps: nat -> Step, vol: real): (r: seq<Candle>)
    requires s != [] && tfMs > 0 && vol > 0.0
    ensures |s| <= |r| && r[..|s|] == s
    decreases start - s[|s| - 1].t
  {
    var last := s[|s| - 1];
    if last.t >= start then s
    else Extended(s + [Forge(last.t + tfMs, last.c, steps(k), vol)], start, tfMs, k + 1, steps, vol)
  }

  /** The extension loop of main.py:377-406. */
  method Extend(cached: seq<Candle>, start: int, tfMs: int, steps: nat -> Step, vol: real)
    returns (series: seq<Candle>)
    requires cached != [] && tfMs > 0 && vol > 0.0
    ensures series == Extended(cached, start, tfMs, 0, steps, vol)
  {
    series := cached;
    var lastTime := cached[|cached| - 1].t;
    var k := 0;
    while lastTime < start
      invariant series != [] && lastTime == series[|series| - 1].t
      invariant Extended(cached, start, tfMs, 0, steps, vol) == Extended(series, start, tfMs, k, steps, vol)
      decreases start - lastTime
    {
      var newTime := lastTime + tfMs;
      var last := series[|series| - 1];
      series := series + [Forge(newTime, last.c, steps(k), vol)];
      lastTime := newTime;
      k := k + 1;
    }
  }

  /**
   * Extension only appends: the old candles stay as they were, and each new
   * candle opens one bar after its predecessor at its predecessor's close.
   * It stops at the first candle at or after `start`, less than a bar past
   * it, and adds nothing when the newest candle is already there.
   */
  lemma {:induction false} ExtendedShape(s: seq<Candle>, start: int, tfMs: int, k: nat, steps: nat -> Step, vol: real)
    requires s != [] && tfMs > 0 && vol > 0.0
    ensures var r := Extended(s, start, tfMs, k, steps, vol);
      && |s| <= |r| && r[..|s|] == s
      && (forall j :: |s| <= j < |r| ==> r[j] == Forge(r[j - 1].t + tfMs, r[j - 1].c, steps(k + j - |s|), vol))
      && r[|r| - 1].t >= start
      && (s[|s| - 1].t >= start ==> r == s)
      && (s[|s| - 1].t < start ==> r[|r| - 1].t < start + tfMs)
    decreases start - s[|s| - 1].t
  {
    var last := s[|s| - 1];
    if last.t < start {
      var s' := s + [Forge(last.t + tfMs, last.c, steps(k), vol)];
      ExtendedShape(s', start, tfMs, k + 1, steps, vol);
      var r := Extended(s, start, tfMs, k, steps, vol);
      assert r[..|s'|] == s';
      assert r[..|s|] == s'[..|s|] == s;
    }
  }

  /** Appending to a well-formed series with in-range draws keeps it well formed. */
  lemma {:induction false} ExtendedWellFormed(s: seq<Candle>, start: int, tfMs: int, k: nat, steps: nat -> Step, vol: real)
    requires s != [] && tfMs > 0 && vol > 0.0
    requires WellFormed(s) && forall j :: Drawn(steps(j))
    ensures WellFormed(Extended(s, start, tfMs, k, steps, vol))
    decreases start - s[|s| - 1].t
  {
    var last := s[|s| - 1];
    if last.t < start {
      var s' := s + [Forge(last.t + tfMs, last.c, steps(k), vol)];
      assert WellFormed(s') by {
        assert forall i :: 0 <= i < |s| ==> s'[i] == s[i];
      }
      ExtendedWellFormed(s', start, tfMs, k + 1, steps, vol);
    }
  }

  /**
   * When the newest candle is on the bar grid at or before the current bar
   * start, and the start is on the grid too, extension ends exactly at the
   * current bar: no bar is skipped and none is overshot.
   */
  lemma {:induction false} ExtendedLandsOnBar(s: seq<Candle>, start: int, tfMs: int, k: nat, steps: nat -> Step, vol: real)
    requires s != [] && tfMs > 0 && vol > 0.0
    requires s[|s| - 1].t <= start && (start - s[|s| - 1].t) % tfMs == 0
    ensures var r := Extended(s, start, tfMs, k, steps, vol); r[|r| - 1].t == start
    decreases start - s[|s| - 1].t
  {
    var last := s[|s| - 1];
    if last.t < start {
      Arith.MultiplesApart(0, start - last.t, tfMs);
      var s' := s + [Forge(last.t + tfMs, last.c, steps(k), vol)];
      Arith.MultipleDiff(tfMs, start - last.t, tfMs) by { Arith.MultipleMod(1, tfMs); }
      assert start - s'[|s'| - 1].t == (start - last.t) - tfMs;
      ExtendedLandsOnBar(s', start, tfMs, k + 1, steps, vol);
    }
  }

  /** Extension keeps a series exactly one bar apart. */
  lemma {:induction false} ExtendedSpaced(s: seq<Candle>, start: int, tfMs: int, k: nat, steps: nat -> Step, vol: real)
    requires s != [] && tfMs > 0 && vol > 0.0 && Spaced(s, tfMs)
    ensures Spaced(Extended(s, start, tfMs, k, steps, vol), tfMs)
    decreases start - s[|s| - 1].t
  {
    var last := s[|s| - 1];
    if last.t < start {
      var s' := s + [Forge(last.t + tfMs, last.c, steps(k), vol)];
      assert Spaced(s', tfMs) by {
        assert forall i :: 0 <= i < |s| ==> s'[i] == s[i];
      }
      ExtendedSpaced(s', start, tfMs, k + 1, steps, vol);
    }
  }

  /** Extension keeps a series on the grid: each new candle opens one bar after a candle on it. */
  lemma {:induction false} ExtendedOnGrid(s: seq<Candle>, start: int, tfMs: int, k: nat, steps: nat -> Step, vol: real)
    requires s != [] && tfMs > 0 && vol > 0.0 && OnGrid(s, tfMs)
    ensures OnGrid(Extended(s, start, tfMs, k, steps, vol), tfMs)
    decreases start - s[|s| - 1].t
  {
    var last := s[|s| - 1];
    if last.t < start {
      var c := Forge(last.t + tfMs, last.c, steps(k), vol);
      var s' := s + [c];
      assert c.t % tfMs == 0 by {
        Arith.MultipleMod(1, tfMs);
        Arith.MultipleDiff(tfMs, last.t, tfMs);
      }
      assert OnGrid(s', tfMs) by {
        assert forall i :: 0 <= i < |s| ==> s'[i] == s[i];
      }
      ExtendedOnGrid(s', start, tfMs, k + 1, steps, vol);
    }
  }

  // ---------------------------------------------------------------- trimming and the snapshot

  /** Python's `s[-k:]`: the last k elements for k >= 1, all of `s` for k == 0, `s[-k:]` from the front for k < 0. */
  function TakeLast<T>(s: seq<T>, k: int): (r: seq<T>)
    ensures |r| <= |s| && r == s[|s| - |r|..]
    ensures k >= 1 ==> |r| == (if k < |s| then k else |s|)
    ensures k == 0 ==> r == s
  {
    if k > 0 then s[(if k < |s| then |s| - k else 0)..]
    else s[(if -k < |s| then -k else |s|)..]
  }

  /** The cut of main.py:410-413: a list longer than `limit + 50` keeps only its last `limit + 50` candles. */
  function Trimmed(s: seq<Candle>, limit: int): (r: seq<Candle>)
    ensures |r| <= |s| && r == s[|s| - |r|..]
    ensures |s| <= limit + Margin ==> r == s
    ensures limit + Margin >= 1 ==> |r| <= limit + Margin
    ensures |s| > limit + Margin >= 1 ==> r == s[|s| - (limit + Margin)..]
  {
    if |s| > limit + Margin then TakeLast(s, limit + Margin) else s
  }

  /** A suffix of a well-formed (on-grid) series is well formed (on the grid). */
  lemma SuffixWellFormed(s: seq<Candle>, d: nat, tfMs: int)
    requires d <= |s| && tfMs > 0
    ensures WellFormed(s) ==> WellFormed(s[d..])
    ensures OnGrid(s, tfMs) ==> OnGrid(s[d..], tfMs)
    ensures Spaced(s, tfMs) ==> Spaced(s[d..], tfMs)
  {
    if Spaced(s, tfMs) {
      forall i | 0 < i < |s[d..]| ensures s[d..][i].t == s[d..][i - 1].t + tfMs {
        assert s[d..][i - 1] == s[d + i - 1] && s[d..][i] == s[d + i];
      }
    }
    if WellFormed(s) {
      forall i | 0 < i < |s[d..]| ensures s[d..][i - 1].t < s[d..][i].t {
        assert s[d..][i - 1] == s[d + i - 1] && s[d..][i] == s[d + i];
      }
    }
  }

  /**
   * The series after the live update (main.py:416-485): when the snapshot
   * is not empty, the newest candle is touched; nothing else changes.
   */
  function LiveUpdated(s: seq<Candle>, limit: int, intra: real): (r: seq<Candle>)
    ensures |r| == |s|
    ensures forall i :: 0 <= i < |s| - 1 ==> r[i] == s[i]
    ensures |s| > 0 && TakeLast(s, limit) != [] ==> r[|s| - 1] == Touch(s[|s| - 1], intra)
    ensures TakeLast(s, limit) == [] ==> r == s
  {
    if TakeLast(s, limit) == [] then s else s[..|s| - 1] + [Touch(s[|s| - 1], intra)]
  }

  /** The live update keeps a series well formed. */
  lemma LiveUpdatedWellFormed(s: seq<Candle>, limit: int, intra: real)
    requires WellFormed(s)
    ensures WellFormed(LiveUpdated(s, limit, intra))
  {
    var r := LiveUpdated(s, limit, intra);
    if |s| > 0 {
      forall i | 0 <= i < |s| - 1 ensures r[i] == s[i] {
        assert r[i] == r[..|s| - 1][i];
      }
    }
  }

  /** The live update moves no opening time, so spacing and the grid are kept. */
  lemma LiveUpdatedTimes(s: seq<Candle>, limit: int, intra: real, tfMs: int)
    requires tfMs > 0
    ensures var r := LiveUpdated(s, limit, intra);
      && (forall i :: 0 <= i < |s| ==> r[i].t == s[i].t)
      && (Spaced(s, tfMs) ==> Spaced(r, tfMs))
      && (OnGrid(s, tfMs) ==> OnGrid(r, tfMs))
  {
    var r := LiveUpdated(s, limit, intra);
    forall i | 0 <= i < |s| ensures r[i].t == s[i].t {
      if i < |s| - 1 {
        assert r[i] == s[i];
      }
    }
  }

  // ---------------------------------------------------------------- one request

  datatype SeriesError = EmptySeries  // `cached[-1]` on an empty cached list raises IndexError

  /** The series stored for a key after catching up with the current bar, before the live update. */
  function Refreshed(prior: Option<seq<Candle>>, limit: int, start: int, tfMs: int, first: real, steps: nat -> Step, vol: real)
    : (r: Result<seq<Candle>, SeriesError>)
    requires tfMs > 0 && vol > 0.0
    ensures r.Failure? <==> prior == Some([])
    ensures prior.None? ==> r.Success? && |r.value| == (if limit < 0 then 0 else limit)
  {
    match prior
    case None => Success(Bootstrapped(if limit < 0 then 0 else limit, limit, start, tfMs, first, steps, vol))
    case Some(s) =>
      if s == [] then Failure(EmptySeries)
      else Success(Trimmed(Extended(s, start, tfMs, 0, steps, vol), limit))
  }

  /**
   * Catching a stored series up with the current bar (main.py:330-413): a
   * key seen for the first time is bootstrapped, a stored list is extended
   * and then trimmed, and an empty stored list fails on its newest element.
   */
  method Refresh(prior: Option<seq<Candle>>, limit: int, start: int, tfMs: int, first: real, steps: nat -> Step, vol: real)
    returns (r: Result<seq<Candle>, SeriesError>)
    requires tfMs > 0 && vol > 0.0
    ensures r == Refreshed(prior, limit, start, tfMs, first, steps, vol)
  {
    if prior.None? {
      var candles := Bootstrap(limit, start, tfMs, first, steps, vol);
      return Success(candles);
    }
    var cached := prior.value;
    if cached == [] {
      return Failure(EmptySeries);
    }
    cached := Extend(cached, start, tfMs, steps, vol);
    if |cached| > limit + Margin {
      cached := TakeLast(cached, limit + Margin);
    }
    return Success(cached);
  }

  /** Catching up keeps the stored series well formed. */
  lemma RefreshedWellFormed(prior: Option<seq<Candle>>, limit: int, start: int, tfMs: int, first: real, steps: nat -> Step, vol: real)
    requires tfMs > 0 && vol > 0.0 && forall k :: Drawn(steps(k))
    requires prior.Some? ==> WellFormed(prior.value)
    ensures var r := Refreshed(prior, limit, start, tfMs, first, steps, vol);
      r.Success? ==> WellFormed(r.value)
  {
    match prior
    case None =>
      BootstrapWellFormed(if limit < 0 then 0 else limit, limit, start, tfMs, first, steps, vol);
    case Some(s) =>
      if s != [] {
        var e := Extended(s, start, tfMs, 0, steps, vol);
        ExtendedWellFormed(s, start, tfMs, 0, steps, vol);
        var t := Trimmed(e, limit);
        SuffixWellFormed(e, |e| - |t|, tfMs);
      }
  }

  /** The live update keeps a series regular. */
  lemma LiveUpdatedRegular(s: seq<Candle>, limit: int, intra: real, tfMs: int)
    requires tfMs > 0 && Regular(s, tfMs)
    ensures Regular(LiveUpdated(s, limit, intra), tfMs)
  {
    LiveUpdatedWellFormed(s, limit, intra);
    LiveUpdatedTimes(s, limit, intra, tfMs);
  }

  /** Catching up and trimming keeps a non-empty regular series regular. */
  lemma CaughtUpRegular(s: seq<Candle>, limit: int, start: int, tfMs: int, steps: nat -> Step, vol: real)
    requires s != [] && tfMs > 0 && vol > 0.0 && forall k :: Drawn(steps(k))
    requires Regular(s, tfMs)
    ensures Regular(Trimmed(Extended(s, start, tfMs, 0, steps, vol), limit), tfMs)
  {
    var e := Extended(s, start, tfMs, 0, steps, vol);
    ExtendedWellFormed(s, start, tfMs, 0, steps, vol);
    ExtendedSpaced(s, start, tfMs, 0, steps, vol);
    ExtendedOnGrid(s, start, tfMs, 0, steps, vol);
    SuffixWellFormed(e, |e| - |Trimmed(e, limit)|, tfMs);
  }

  /** A series bootstrapped on the bar grid is regular. */
  lemma BootstrappedRegular(n: nat, limit: int, start: int, tfMs: int, first: real, steps: nat -> Step, vol: real)
    requires tfMs > 0 && vol > 0.0 && start % tfMs == 0 && forall k :: Drawn(steps(k))
    ensures Regular(Bootstrapped(n, limit, start, tfMs, first, steps, vol), tfMs)
  {
    BootstrapWellFormed(n, limit, start, tfMs, first, steps, vol);
    BootstrapTimes(n, limit, start, tfMs, first, steps, vol);
    BootstrapOnGrid(n, limit, start, tfMs, first, steps, vol);
  }

  /**
   * A request keeps a regular series regular: bootstrapped on the bar grid,
   * or extended, trimmed and live-updated, every stored series stays well
   * formed, exactly one bar apart and on the grid.
   */
  lemma RequestRegular(prior: Option<seq<Candle>>, limit: int, start: int, tfMs: int, first: real, steps: nat -> Step, vol: real, intra: real)
    requires tfMs > 0 && vol > 0.0 && start % tfMs == 0 && forall k :: Drawn(steps(k))
    requires prior.Some? ==> Regular(prior.value, tfMs)
    ensures var r := Refreshed(prior, limit, start, tfMs, first, steps, vol);
      r.Success? ==> Regular(LiveUpdated(r.value, limit, intra), tfMs)
  {
    var r := Refreshed(prior, limit, start, tfMs, first, steps, vol);
    if r.Success? {
      if prior.None? {
        BootstrappedRegular(if limit < 0 then 0 else limit, limit, start, tfMs, first, steps, vol);
      } else {
        CaughtUpRegular(prior.value, limit, start, tfMs, steps, vol);
      }
      LiveUpdatedRegular(r.value, limit, intra, tfMs);
    }
  }

  /** Catching up a series on the grid, newest candle not after the bar start, ends exactly at the bar start. */
  lemma CaughtUpLandsOnBar(s: seq<Candle>, limit: int, start: int, tfMs: int, steps: nat -> Step, vol: real)
    requires s != [] && tfMs > 0 && vol > 0.0 && limit >= 1
    requires start % tfMs == 0 && s[|s| - 1].t % tfMs == 0 && s[|s| - 1].t <= start
    ensures var t := Trimmed(Extended(s, start, tfMs, 0, steps, vol), limit);
      t != [] && t[|t| - 1].t == start
  {
    var e := Extended(s, start, tfMs, 0, steps, vol);
    Arith.MultipleDiff(s[|s| - 1].t, start, tfMs);
    ExtendedLandsOnBar(s, start, tfMs, 0, steps, vol);
    var t := Trimmed(e, limit);
    assert t == e[|e| - |t|..];
  }

  /**
   * Every request lands on the current bar: a new series ends at the bar
   * start, and a stored series on the grid whose newest candle is not
   * after the bar start is caught up to exactly the bar start.
   */
  lemma RequestLandsOnBar(prior: Option<seq<Candle>>, limit: int, start: int, tfMs: int, first: real, steps: nat -> Step, vol: real, intra: real)
    requires tfMs > 0 && vol > 0.0 && start % tfMs == 0 && limit >= 1
    requires prior.Some? ==> prior.value != [] && OnGrid(prior.value, tfMs) && prior.value[|prior.value| - 1].t <= start
    ensures var r := Refreshed(prior, limit, start, tfMs, first, steps, vol);
      r.Success? && r.value != [] && LiveUpdated(r.value, limit, intra)[|r.value| - 1].t == start
  {
    var r := Refreshed(prior, limit, start, tfMs, first, steps, vol);
    if prior.None? {
      BootstrapTimes(limit, limit, start, tfMs, first, steps, vol);
    } else {
      CaughtUpLandsOnBar(prior.value, limit, start, tfMs, steps, vol);
    }
    LiveUpdatedTimes(r.value, limit, intra, tfMs);
  }

  /**
   * The snapshot a request returns is the last `limit` stored candles after
   * the live update: the untouched snapshot with its newest candle touched.
   */
  lemma LiveSnapshot(s: seq<Candle>, limit: int, intra: real)
    ensures var c := TakeLast(s, limit);
      TakeLast(LiveUpdated(s, limit, intra), limit)
        == if c == [] then [] else c[..|c| - 1] + [Touch(c[|c| - 1], intra)]
  {
    var c := TakeLast(s, limit);
    var n := LiveUpdated(s, limit, intra);
    if c != [] {
      var d := |s| - |c|;
      assert TakeLast(n, limit) == n[d..];
      assert n[d..] == c[..|c| - 1] + [Touch(c[|c| - 1], intra)] by {
        forall i | 0 <= i < |c| - 1 ensures n[d..][i] == c[i] {
          assert n[d + i] == n[..|s| - 1][d + i];
        }
      }
    }
  }

  /**
   * `n`, the series stored after a request, still holds every candle of
   * `s`, the series stored before it, except the newest one, unless it was
   * cut off the front of the extension `e`; they are shifted by the cut.
   */
  ghost predicate Kept(s: seq<Candle>, e: seq<Candle>, n: seq<Candle>)
    requires |s| <= |e| && |n| <= |e|
  {
    forall j :: |e| - |n| <= j < |s| - 1 ==> n[j - (|e| - |n|)] == s[j]
  }

  /** No repainting: a request changes no stored candle except the newest. */
  lemma NoRepaint(s: seq<Candle>, limit: int, start: int, tfMs: int, steps: nat -> Step, vol: real, intra: real)
    requires s != [] && tfMs > 0 && vol > 0.0
    ensures Kept(s, Extended(s, start, tfMs, 0, steps, vol),
                 LiveUpdated(Trimmed(Extended(s, start, tfMs, 0, steps, vol), limit), limit, intra))
  {
    var e := Extended(s, start, tfMs, 0, steps, vol);
    KeptAfterShift(s, e, Trimmed(e, limit), LiveUpdated(Trimmed(e, limit), limit, intra));
  }

  /**
   * If `e` extends `s`, `t` is a suffix of `e` and `n` agrees with `t` on
   * all but its last element, then `n` keeps `s` but its newest candle.
   */
  lemma KeptAfterShift(s: seq<Candle>, e: seq<Candle>, t: seq<Candle>, n: seq<Candle>)
    requires |s| <= |e| && e[..|s|] == s
    requires |t| <= |e| && t == e[|e| - |t|..]
    requires |n| == |t| && forall i :: 0 <= i < |t| - 1 ==> n[i] == t[i]
    ensures Kept(s, e, n)
  {
    forall j | |e| - |n| <= j < |s| - 1 ensures n[j - (|e| - |n|)] == s[j] {
      var i := j - (|e| - |t|);
      assert t[i] == e[j];
      assert e[j] == e[..|s|][j];
    }
  }

  /**
   * Within one bar, repeated requests only widen the newest candle: its
   * opening time, open and volume stay, its high never falls and its low
   * never rises.
   */
  lemma SameBarWidens(s: seq<Candle>, limit: int, start: int, tfMs: int, steps: nat -> Step, vol: real, intra: real)
    requires s != [] && tfMs > 0 && vol > 0.0 && limit >= 1
    requires s[|s| - 1].t >= start
    ensures var n := LiveUpdated(Trimmed(Extended(s, start, tfMs, 0, steps, vol), limit), limit, intra);
      var old_ := s[|s| - 1];
      && n != [] && n[|n| - 1].t == old_.t && n[|n| - 1].o == old_.o && n[|n| - 1].v == old_.v
      && n[|n| - 1].h >= old_.h && n[|n| - 1].l <= old_.l
      && n[|n| - 1].c == Moved(old_.o, intra)
  {
    var e := Extended(s, start, tfMs, 0, steps, vol);
    assert e == s;
    var t := Trimmed(s, limit);
    assert t[|t| - 1] == s[|s| - 1];
    assert TakeLast(t, limit) != [];
    var n := LiveUpdated(t, limit, intra);
    assert n[|n| - 1] == Touch(t[|t| - 1], intra);
  }

  /**
   * Once a series has been bootstrapped on the current bar, a later
   * request (clock not moved backwards, same timeframe) extends it to
   * exactly the new current bar.
   */
  lemma CatchUpIsExact(seriesNow: int, laterNow: int, limit: int, tfMin: int, first: real, steps: nat -> Step, more: nat -> Step, vol: real)
    requires tfMin >= 1 && 1440 % tfMin == 0 && seriesNow <= laterNow && limit >= 1 && vol > 0.0
    ensures var tfMs := tfMin * MinuteMs;
      var s := Bootstrapped(limit, limit, BarStart(seriesNow, tfMin), tfMs, first, steps, vol);
      var e := Extended(s, BarStart(laterNow, tfMin), tfMs, 0, more, vol);
      e[|e| - 1].t == BarStart(laterNow, tfMin)
  {
    var tfMs := tfMin * MinuteMs;
    var s0, s1 := BarStart(seriesNow, tfMin), BarStart(laterNow, tfMin);
    var s := Bootstrapped(limit, limit, s0, tfMs, first, steps, vol);
    BootstrapTimes(limit, limit, s0, tfMs, first, steps, vol);
    BarStartMonotone(seriesNow, laterNow, tfMin);
    Arith.MultipleDiff(s0, s1, tfMs);
    ExtendedLandsOnBar(s, s1, tfMs, 0, more, vol);
  }

  /**
   * The series a request for (symbol, tf) stores before its live update,
   * given the stored history, the clock and the draws.
   */
  function Requested(history: map<string, seq<Candle>>, symbol: string, tf: string, limit: int, basePrice: Option<real>,
                     nowMs: int, seedFactor: real, steps: nat -> Step): (r: Result<seq<Candle>, SeriesError>)
    ensures r.Failure? <==> SeriesKey(symbol, tf) in history && history[SeriesKey(symbol, tf)] == []
    ensures SeriesKey(symbol, tf) !in history ==> r.Success? && |r.value| == (if limit < 0 then 0 else limit)
  {
    var key := SeriesKey(symbol, tf);
    var tfMin := TfMinutes(tf);
    Refreshed(if key in history then Some(history[key]) else None, limit, BarStart(nowMs, tfMin),
              tfMin * MinuteMs, FirstOpen(symbol, basePrice, seedFactor), steps, Volatility(Symbols.BaseSymbol(symbol)))
  }

  /**
   * The process-wide candle history (main.py:251). The ghost map `width`
   * records, for each key whose series has only ever been built and caught
   * up with one bar width, that width; those series are regular. Keys of
   * different timeframes can collide (`SeriesKeysCollide`), and a key reused
   * with another width drops out of `width`.
   */
  class CandleStore {
    var history: map<string, seq<Candle>>
    ghost var width: map<string, int>

    ghost predicate Valid()
      reads this
    {
      AllWellFormed(history) && AllRegular(history, width)
    }

    constructor ()
      ensures Valid() && history == map[] && width == map[]
    {
      history := map[];
      width := map[];
    }

    /**
     * `generate_realistic_candles(symbol, tf, limit, base_price)` with the
     * clock and the draws as parameters. It returns the snapshot (the last
     * `limit` stored candles, after the live update) or the IndexError raised
     * for a key whose stored list is empty. A key kept at one width stays
     * regular, and with the clock not behind its newest candle it ends
     * exactly at the current bar start.
     */
    method Generate(symbol: string, tf: string, limit: int, basePrice: Option<real>, nowMs: int,
                    seedFactor: real, steps: nat -> Step, intra: real)
      returns (r: Result<seq<Candle>, SeriesError>)
      requires Valid()
      requires forall k :: Drawn(steps(k))
      modifies this
      ensures Valid()
      ensures Requested(old(history), symbol, tf, limit, basePrice, nowMs, seedFactor, steps).Failure? ==>
        r == Failure(EmptySeries) && history == old(history) && width == old(width)
      ensures Requested(old(history), symbol, tf, limit, basePrice, nowMs, seedFactor, steps).Success? ==>
        && history == old(history)[SeriesKey(symbol, tf) :=
             LiveUpdated(Requested(old(history), symbol, tf, limit, basePrice, nowMs, seedFactor, steps).value, limit, intra)]
        && r == Success(TakeLast(history[SeriesKey(symbol, tf)], limit))
        && width == NextWidth(old(history), old(width), SeriesKey(symbol, tf), TfMinutes(tf) * MinuteMs)
      ensures limit >= 1 && Tracks(old(history), old(width), SeriesKey(symbol, tf), TfMinutes(tf) * MinuteMs)
                && Behind(old(history), SeriesKey(symbol, tf), BarStart(nowMs, TfMinutes(tf))) ==>
        && r.Success? && history[SeriesKey(symbol, tf)] != []
        && Newest(history[SeriesKey(symbol, tf)]).t == BarStart(nowMs, TfMinutes(tf))
    {
      var vol := Volatility(Symbols.BaseSymbol(symbol));
      var tfMin := TfMinutes(tf);
      var key := SeriesKey(symbol, tf);
      var start := BarStart(nowMs, tfMin);
      var prior := if key in history then Some(history[key]) else None;
      var next := Refresh(prior, limit, start, tfMin * MinuteMs, FirstOpen(symbol, basePrice, seedFactor), steps, vol);
      assert next == Requested(history, symbol, tf, limit, basePrice, nowMs, seedFactor, steps);
      if next.Failure? {
        return Failure(next.error);
      }
      var stored, candles := LiveUpdate(next.value, limit, intra);
      StoreStep(history, width, key, limit, start, tfMin * MinuteMs, FirstOpen(symbol, basePrice, seedFactor), steps, vol, intra);
      width := NextWidth(history, width, key, tfMin * MinuteMs);
      history := history[key := stored];
      r := Success(candles);
    }
  }

  /** Every stored series is well formed. */
  ghost predicate AllWellFormed(history: map<string, seq<Candle>>)
  {
    forall key :: key in history ==> WellFormed(history[key])
  }

  lemma StoreWellFormed(history: map<string, seq<Candle>>, key: string, s: seq<Candle>)
    requires AllWellFormed(history) && WellFormed(s)
    ensures AllWellFormed(history[key := s])
  {
  }

  /** Every key with a recorded width holds a regular series of that width. */
  ghost predicate AllRegular(history: map<string, seq<Candle>>, width: map<string, int>)
  {
    forall key :: key in width ==> key in history && width[key] > 0 && Regular(history[key], width[key])
  }

  /** The key is new, or its series has been kept at the bar width `tfMs`. */
  ghost predicate Tracks(history: map<string, seq<Candle>>, width: map<string, int>, key: string, tfMs: int)
  {
    key !in history || (key in width && width[key] == tfMs)
  }

  /** The newest candle stored at the key, if any, opens at or before `start`. */
  ghost predicate Behind(history: map<string, seq<Candle>>, key: string, start: int)
  {
    key in history ==> history[key] != [] && Newest(history[key]).t <= start
  }

  function Newest(s: seq<Candle>): Candle
    requires s != []
  {
    s[|s| - 1]
  }

  /** The widths after a request at `key`: kept at `tfMs` when tracked, dropped otherwise. */
  ghost function NextWidth(history: map<string, seq<Candle>>, width: map<string, int>, key: string, tfMs: int): map<string, int>
  {
    if Tracks(history, width, key, tfMs) then width[key := tfMs] else width - {key}
  }

  lemma StoreRegular(history: map<string, seq<Candle>>, width: map<string, int>, key: string, s: seq<Candle>, tfMs: int)
    requires tfMs > 0 && AllRegular(history, width) && Regular(s, tfMs)
    ensures AllRegular(history[key := s], width[key := tfMs])
  {
  }

  lemma StoreUntracked(history: map<string, seq<Candle>>, width: map<string, int>, key: string, s: seq<Candle>)
    requires AllRegular(history, width)
    ensures AllRegular(history[key := s], width - {key})
  {
  }

  /** One successful request at `key` keeps every recorded width's series regular. */
  lemma TrackedStep(history: map<string, seq<Candle>>, width: map<string, int>, key: string, limit: int, start: int,
                    tfMs: int, first: real, steps: nat -> Step, vol: real, intra: real)
    requires tfMs > 0 && vol > 0.0 && start % tfMs == 0 && forall k :: Drawn(steps(k))
    requires AllRegular(history, width)
    requires Refreshed(if key in history then Some(history[key]) else None, limit, start, tfMs, first, steps, vol).Success?
    ensures var n := LiveUpdated(Refreshed(if key in history then Some(history[key]) else None, limit, start, tfMs, first, steps, vol).value, limit, intra);
      AllRegular(history[key := n], NextWidth(history, width, key, tfMs))
  {
    var prior := if key in history then Some(history[key]) else None;
    var n := LiveUpdated(Refreshed(prior, limit, start, tfMs, first, steps, vol).value, limit, intra);
    if Tracks(history, width, key, tfMs) {
      RequestRegular(prior, limit, start, tfMs, first, steps, vol, intra);
      StoreRegular(history, width, key, n, tfMs);
    } else {
      StoreUntracked(history, width, key, n);
    }
  }

  /**
   * One successful request at `key` keeps the store valid: every series
   * well formed, every tracked one regular; a tracked key not ahead of the
   * bar start ends on it.
   */
  lemma StoreStep(history: map<string, seq<Candle>>, width: map<string, int>, key: string, limit: int, start: int,
                  tfMs: int, first: real, steps: nat -> Step, vol: real, intra: real)
    requires tfMs > 0 && vol > 0.0 && start % tfMs == 0 && forall k :: Drawn(steps(k))
    requires AllWellFormed(history) && AllRegular(history, width)
    requires Refreshed(if key in history then Some(history[key]) else None, limit, start, tfMs, first, steps, vol).Success?
    ensures var n := LiveUpdated(Refreshed(if key in history then Some(history[key]) else None, limit, start, tfMs, first, steps, vol).value, limit, intra);
      && AllWellFormed(history[key := n])
      && AllRegular(history[key := n], NextWidth(history, width, key, tfMs))
      && (limit >= 1 && Tracks(history, width, key, tfMs) && Behind(history, key, start) ==> n != [] && Newest(n).t == start)
  {
    var prior := if key in history then Some(history[key]) else None;
    var r := Refreshed(prior, limit, start, tfMs, first, steps, vol);
    RefreshedWellFormed(prior, limit, start, tfMs, first, steps, vol);
    LiveUpdatedWellFormed(r.value, limit, intra);
    StoreWellFormed(history, key, LiveUpdated(r.value, limit, intra));
    TrackedStep(history, width, key, limit, start, tfMs, first, steps, vol, intra);
    if limit >= 1 && Tracks(history, width, key, tfMs) && Behind(history, key, start) {
      TrackedLands(history, width, key, limit, start, tfMs, first, steps, vol, intra);
    }
  }

  /** A request at a tracked key whose newest candle is not after the bar start ends on the bar start. */
  lemma TrackedLands(history: map<string, seq<Candle>>, width: map<string, int>, key: string, limit: int, start: int,
                     tfMs: int, first: real, steps: nat -> Step, vol: real, intra: real)
    requires tfMs > 0 && vol > 0.0 && start % tfMs == 0 && limit >= 1
    requires AllRegular(history, width) && Tracks(history, width, key, tfMs) && Behind(history, key, start)
    ensures var r := Refreshed(if key in history then Some(history[key]) else None, limit, start, tfMs, first, steps, vol);
      r.Success? && LiveUpdated(r.value, limit, intra) != [] && Newest(LiveUpdated(r.value, limit, intra)).t == start
  {
    var prior := if key in history then Some(history[key]) else None;
    RequestLandsOnBar(prior, limit, start, tfMs, first, steps, vol, intra);
  }

  /** Keys of different timeframes can collide: "X" at "1m_1h" (5-minute bars) and "X_1m" at "1h". */
  lemma SeriesKeysCollide()
    ensures SeriesKey("X", "1m_1h") == SeriesKey("X_1m", "1h")
    ensures TfMinutes("1m_1h") == 5 && TfMinutes("1h") == 60
  {
    assert "1m_1h" !in Timeframes;
  }

  /**
   * The live update of main.py:416-485 on the refreshed series: the newest
   * stored candle is touched, and the snapshot returned is the last `limit`
   * stored candles.
   */
  method LiveUpdate(series: seq<Candle>, limit: int, intra: real) returns (stored: seq<Candle>, candles: seq<Candle>)
    ensures stored == LiveUpdated(series, limit, intra)
    ensures candles == TakeLast(stored, limit)
  {
    LiveSnapshot(series, limit, intra);
    stored := series;
    candles := TakeLast(series, limit);
    if candles != [] {
      assert candles[|candles| - 1] == series[|series| - 1];
      var last := Touch(candles[|candles| - 1], intra);
      stored := series[..|series| - 1] + [last];
      candles := candles[..|candles| - 1] + [last];
    }
  }
}
