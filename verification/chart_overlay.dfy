/** The chart side of the dashboard (frontend/static/js/chart.js): the live
    list of chart traces, the price data it was built from, and the overlay of
    horizontal support bands. The charting library is reduced to the trace
    list it is handed: building a chart, replacing all traces, appending a
    point to a trace and moving the x-axis window. */
module ChartOverlay {
  import opened Domain

  /** The price window never shows more than this many points. */
  const MaxPoints: nat := 500

  const ActiveBandColor: string := "rgba(72, 187, 120, 0.7)"
  const InactiveBandColor: string := "rgba(66, 153, 225, 0.5)"
  const InitialBandColor: string := "rgba(30, 144, 255, 0.5)"

  /** A trace is identified by its name: "Price", "Volume", or a band's
      label `Support $<price>`, which is derived from the level's price and
      can never read "Price" or "Volume". */
  datatype TraceName = Label(text: string) | SupportLabel(level: real)

  /** The three kinds of trace the dashboard draws. A band spans the
      first and last x of the price trace; an endpoint is None where the
      price trace has no points (JavaScript's undefined). */
  datatype Trace =
    | Candlestick(name: TraceName, x: seq<int>, open: seq<real>, high: seq<real>, low: seq<real>, close: seq<real>)
    | Bars(name: TraceName, x: seq<int>, y: seq<real>)
    | Band(name: TraceName, ends: seq<Option<int>>, y: seq<real>, width: nat, color: string)

  /** An incoming data field: falsy, truthy but not an array, or an array. */
  datatype Slot<T> = Missing | Malformed | Given(items: T)

  /** A chart payload `{price, supports}`. */
  datatype Payload = Payload(price: Slot<seq<Candle>>, supports: Slot<seq<Level>>)

  predicate IsBase(t: Trace)
  {
    t.name == Label("Price") || t.name == Label("Volume")
  }

  /** The traces kept when the bands are stripped: those named "Price" or
      "Volume", in their order. */
  function BaseTraces(ts: seq<Trace>): (r: seq<Trace>)
    ensures |r| <= |ts|
    ensures forall i :: 0 <= i < |r| ==> IsBase(r[i])
    ensures forall i :: 0 <= i < |ts| && IsBase(ts[i]) ==> ts[i] in r
  {
    if ts == [] then []
    else if IsBase(ts[0]) then [ts[0]] + BaseTraces(ts[1..])
    else BaseTraces(ts[1..])
  }

  /** Extending the levels by one extends their bands by that level's band. */
  lemma BandsSnoc(ls: seq<Level>, i: nat, start: Option<int>, end: Option<int>)
    requires i < |ls|
    ensures Bands(ls[..i + 1], start, end) == Bands(ls[..i], start, end) + [BandFor(ls[i], start, end)]
  {
  }

  function First(x: seq<int>): Option<int>
  {
    if x == [] then None else Some(x[0])
  }

  function Last(x: seq<int>): Option<int>
  {
    if x == [] then None else Some(x[|x| - 1])
  }

  /** The band drawn for one level by a redraw. */
  function BandFor(l: Level, start: Option<int>, end: Option<int>): Trace
  {
    Band(SupportLabel(l.price), [start, end], [l.price, l.price],
         if l.isActive then 3 else 2,
         if l.isActive then ActiveBandColor else InactiveBandColor)
  }

  function Bands(ls: seq<Level>, start: Option<int>, end: Option<int>): (r: seq<Trace>)
    ensures |r| == |ls|
    ensures forall i :: 0 <= i < |ls| ==> r[i] == BandFor(ls[i], start, end)
  {
    seq(|ls|, i requires 0 <= i < |ls| => BandFor(ls[i], start, end))
  }

  /** The loop of updateChartSupports: one band per level, in order,
      appended to the traces kept. */
  method AppendBands(kept: seq<Trace>, ls: seq<Level>, start: Option<int>, end: Option<int>)
      returns (r: seq<Trace>)
    ensures |r| == |kept| + |ls| && r[..|kept|] == kept
    ensures r == kept + Bands(ls, start, end)
  {
    r := kept;
    var i := 0;
    while i < |ls|
      invariant 0 <= i <= |ls|
      invariant r == kept + Bands(ls[..i], start, end)
    {
      BandsSnoc(ls, i, start, end);
      r := r + [BandFor(ls[i], start, end)];
      i := i + 1;
    }
    assert ls[..i] == ls;
  }

  /** The trace list after the bands are replaced by one band per level,
      spanning the x extent of the first trace. */
  function Redraw(ts: seq<Trace>, ls: seq<Level>): seq<Trace>
    requires ts != [] && ts[0].Candlestick?
  {
    BaseTraces(ts) + Bands(ls, First(ts[0].x), Last(ts[0].x))
  }

  /** The band the initial plot draws: same place, fixed width and colour,
      and "now" as both ends when there is no price data. */
  function InitialBand(l: Level, price: seq<Candle>, now: int): Trace
  {
    Band(SupportLabel(l.price),
         [Some(if price == [] then now else price[0].timestamp),
          Some(if price == [] then now else price[|price| - 1].timestamp)],
         [l.price, l.price], 2, InitialBandColor)
  }

  function PriceTrace(price: seq<Candle>): Trace
  {
    Candlestick(Label("Price"),
                seq(|price|, i requires 0 <= i < |price| => price[i].timestamp),
                seq(|price|, i requires 0 <= i < |price| => price[i].open),
                seq(|price|, i requires 0 <= i < |price| => price[i].high),
                seq(|price|, i requires 0 <= i < |price| => price[i].low),
                seq(|price|, i requires 0 <= i < |price| => price[i].close))
  }

  function VolumeTrace(price: seq<Candle>): Trace
  {
    Bars(Label("Volume"),
         seq(|price|, i requires 0 <= i < |price| => price[i].timestamp),
         seq(|price|, i requires 0 <= i < |price| => price[i].volume))
  }

  /** The trace list a chart has: price candles first, volume bars second,
      and only bands after them. */
  predicate WellFormed(ts: seq<Trace>)
  {
    && |ts| >= 2
    && ts[0].Candlestick? && ts[0].name == Label("Price")
    && ts[1].Bars? && ts[1].name == Label("Volume")
    && forall i :: 2 <= i < |ts| ==> ts[i].Band? && ts[i].name.SupportLabel?
  }

  /** Maximum number of fraction digits `formatPrice` shows (it always shows
      at least two); a missing price prints as "0.00". */
  function MaxFractionDigits(price: Option<real>): (d: nat)
    ensures 2 <= d <= 8
    ensures price.None? ==> d == 2
    ensures price.Some? ==> (d == 2 <==> price.value >= 1000.0)
    ensures price.Some? ==> (d == 4 <==> 1.0 <= price.value < 1000.0)
    ensures price.Some? ==> (d == 8 <==> price.value < 1.0)
  {
    match price
    case None => 2
    case Some(p) => if p >= 1000.0 then 2 else if p >= 1.0 then 4 else 8
  }

  /** A higher price never gets more fraction digits than a lower one. */
  lemma MaxFractionDigitsAntitone(p: real, q: real)
    requires p <= q
    ensures MaxFractionDigits(Some(q)) <= MaxFractionDigits(Some(p))
  {
  }

  lemma {:induction false} BaseTracesAppend(a: seq<Trace>, b: seq<Trace>)
    ensures BaseTraces(a + b) == BaseTraces(a) + BaseTraces(b)
  {
    if a == [] {
      assert a + b == b;
    } else {
      var ab := a + b;
      assert ab[0] == a[0];
      assert ab[1..] == a[1..] + b;
      BaseTracesAppend(a[1..], b);
      if IsBase(a[0]) {
        calc {
          BaseTraces(ab);
          [a[0]] + BaseTraces(a[1..] + b);
          [a[0]] + (BaseTraces(a[1..]) + BaseTraces(b));
          ([a[0]] + BaseTraces(a[1..])) + BaseTraces(b);
        }
      } else {
        assert BaseTraces(ab) == BaseTraces(a[1..] + b);
      }
    }
  }

  lemma {:induction false} BaseTracesOfBands(ls: seq<Level>, start: Option<int>, end: Option<int>)
    ensures BaseTraces(Bands(ls, start, end)) == []
  {
    var bs := Bands(ls, start, end);
    if ls != [] {
      BaseTracesOfBands(ls[1..], start, end);
      assert bs[1..] == Bands(ls[1..], start, end);
    }
  }

  /** Stripping bands twice is stripping them once. */
  lemma {:induction false} BaseTracesIdempotent(ts: seq<Trace>)
    ensures BaseTraces(BaseTraces(ts)) == BaseTraces(ts)
  {
    if ts != [] {
      BaseTracesIdempotent(ts[1..]);
      if IsBase(ts[0]) {
        assert ([ts[0]] + BaseTraces(ts[1..]))[1..] == BaseTraces(ts[1..]);
      }
    }
  }

  /** On a well-formed trace list the base traces are exactly the first two. */
  lemma {:induction false} BaseTracesOfWellFormed(ts: seq<Trace>)
    requires WellFormed(ts)
    ensures BaseTraces(ts) == ts[..2]
  {
    var rest := ts[2..];
    assert BaseTraces(rest) == [] by {
      NoBaseAmongBands(rest);
    }
    assert ts == [ts[0]] + ([ts[1]] + rest);
    BaseTracesAppend([ts[0]], [ts[1]] + rest);
    BaseTracesAppend([ts[1]], rest);
  }

  lemma {:induction false} NoBaseAmongBands(ts: seq<Trace>)
    requires forall i :: 0 <= i < |ts| ==> ts[i].name.SupportLabel?
    ensures BaseTraces(ts) == []
  {
    if ts != [] {
      NoBaseAmongBands(ts[1..]);
    }
  }

  /** A redraw keeps the price and volume traces exactly as they were, adds
      one band per level in the levels' order, and gives band i the level's
      price at both ends and width 3 when the level is active, 2 otherwise. */
  lemma RedrawShape(ts: seq<Trace>, ls: seq<Level>)
    requires WellFormed(ts)
    ensures WellFormed(Redraw(ts, ls))
    ensures Redraw(ts, ls)[..2] == ts[..2]
    ensures |Redraw(ts, ls)| == 2 + |ls|
    ensures forall i :: 0 <= i < |ls| ==>
      && Redraw(ts, ls)[2 + i].y == [ls[i].price, ls[i].price]
      && Redraw(ts, ls)[2 + i].ends == [First(ts[0].x), Last(ts[0].x)]
      && Redraw(ts, ls)[2 + i].width == (if ls[i].isActive then 3 else 2)
  {
    BaseTracesOfWellFormed(ts);
  }

  /** Redrawing the same levels twice gives the same traces as once. */
  lemma RedrawIdempotent(ts: seq<Trace>, ls: seq<Level>)
    requires WellFormed(ts)
    ensures Redraw(Redraw(ts, ls), ls) == Redraw(ts, ls)
  {
    RedrawShape(ts, ls);
    BaseTracesOfWellFormed(ts);
    BaseTracesOfWellFormed(Redraw(ts, ls));
  }

  /** Stripping the bands after a redraw gives back the stripped original:
      the price and volume traces' data survive any sequence of redraws and
      strips. */
  lemma {:induction false} StripAfterRedraw(ts: seq<Trace>, ls: seq<Level>)
    requires ts != [] && ts[0].Candlestick?
    ensures BaseTraces(Redraw(ts, ls)) == BaseTraces(ts)
  {
    var bs := Bands(ls, First(ts[0].x), Last(ts[0].x));
    BaseTracesAppend(BaseTraces(ts), bs);
    BaseTracesIdempotent(ts);
    BaseTracesOfBands(ls, First(ts[0].x), Last(ts[0].x));
  }

  /** The x-axis window after the price trace has `x` points: the last
      MaxPoints points when there are more than MaxPoints. */
  function Window(x: seq<int>, current: Option<(int, int)>): (r: Option<(int, int)>)
    ensures |x| > MaxPoints ==> r == Some((x[|x| - MaxPoints], x[|x| - 1]))
    ensures |x| <= MaxPoints ==> r == current
  {
    if |x| > MaxPoints then Some((x[|x| - MaxPoints], x[|x| - 1])) else current
  }

  /** Once the price trace holds MaxPoints points, each further point slides
      the window by one: it starts at the point after the previous start and
      ends at the new point, whatever range was set before. */
  lemma WindowSlides(x: seq<int>, t: int, current: Option<(int, int)>)
    requires |x| >= MaxPoints
    ensures Window(x + [t], current) == Some((x[|x| + 1 - MaxPoints], t))
  {
    var y := x + [t];
    assert y[|y| - MaxPoints] == x[|x| + 1 - MaxPoints];
    assert y[|y| - 1] == t;
  }

  class Chart {
    /** chartState.chart is set (the chart has been plotted). */
    var present: bool
    /** The plotted traces (chartState.chart.data). */
    var traces: seq<Trace>
    /** The x-axis range set by relayout, if any. */
    var xRange: Option<(int, int)>
    /** chartState.data.price and chartState.data.supports. */
    var price: seq<Candle>
    var supports: seq<Level>
    /** chartState.config.showVolume and chartState.config.showSupports. */
    var showVolume: bool
    var showSupports: bool

    ghost predicate Valid()
      reads this
    {
      present ==> WellFormed(traces)
    }

    constructor ()
      ensures Valid()
      ensures !present && traces == [] && xRange == None
      ensures price == [] && supports == []
      ensures showVolume && showSupports
    {
      present := false;
      traces := [];
      xRange := None;
      price := [];
      supports := [];
      showVolume := true;
      showSupports := true;
    }

    /** updateChartData: each field is replaced only by an array. */
    method UpdateChartData(data: Option<Payload>)
      modifies this`price, this`supports
      ensures data.Some? && data.value.price.Given? ==> price == data.value.price.items
      ensures !(data.Some? && data.value.price.Given?) ==> price == old(price)
      ensures data.Some? && data.value.supports.Given? ==> supports == data.value.supports.items
      ensures !(data.Some? && data.value.supports.Given?) ==> supports == old(supports)
    {
      if data.None? {
        return;
      }
      if data.value.price.Given? {
        price := data.value.price.items;
      }
      if data.value.supports.Given? {
        supports := data.value.supports.items;
      }
    }

    /** initializeChart: stores the initial data (an empty price list when
        none is given), then plots price, volume and one band per stored
        level. */
    method InitializeChart(initial: Option<Payload>, now: int)
      modifies this
      ensures Valid() && present
      ensures xRange == None
      ensures showVolume == old(showVolume) && showSupports == old(showSupports)
      ensures initial.None? || initial.value.price.Missing? ==>
        price == [] && supports == old(supports)
      ensures initial.Some? && !initial.value.price.Missing? ==>
        && price == (if initial.value.price.Given? then initial.value.price.items else old(price))
        && supports == (if initial.value.supports.Given? then initial.value.supports.items else old(supports))
      ensures traces[..2] == [PriceTrace(price), VolumeTrace(price)]
      ensures |traces| == 2 + |supports|
      ensures forall i :: 0 <= i < |supports| ==> traces[2 + i] == InitialBand(supports[i], price, now)
    {
      if initial.None? || initial.value.price.Missing? {
        UpdateChartData(Some(Payload(Given([]), Missing)));
      } else {
        UpdateChartData(initial);
      }
      var ls, ps := supports, price;
      var bands := seq(|ls|, i requires 0 <= i < |ls| => InitialBand(ls[i], ps, now));
      traces := [PriceTrace(ps), VolumeTrace(ps)] + bands;
      present := true;
      xRange := None;
    }

    /** updateChart: appends one candle to the price trace and, when volume
        is shown, one bar to the volume trace; every other trace is left
        alone. Past MaxPoints points the x-axis window moves so that the last
        MaxPoints points are in view; no point is deleted. */
    method UpdateChart(data: Option<Candle>)
      requires Valid()
      modifies this`traces, this`xRange
      ensures Valid()
      ensures !old(present) || data.None? ==> traces == old(traces) && xRange == old(xRange)
      ensures old(present) && data.Some? ==>
        var p := data.value;
        var t0 := old(traces)[0];
        var t1 := old(traces)[1];
        && |traces| == |old(traces)|
        && traces[0] == t0.(x := t0.x + [p.timestamp], open := t0.open + [p.open],
                            high := t0.high + [p.high], low := t0.low + [p.low],
                            close := t0.close + [p.close])
        && traces[1] == (if showVolume then t1.(x := t1.x + [p.timestamp], y := t1.y + [p.volume]) else t1)
        && traces[2..] == old(traces)[2..]
        && xRange == Window(traces[0].x, old(xRange))
    {
      if !present || data.None? {
        return;
      }
      var p := data.value;
      var t0 := traces[0];
      traces := traces[0 := t0.(x := t0.x + [p.timestamp], open := t0.open + [p.open],
                               high := t0.high + [p.high], low := t0.low + [p.low],
                               close := t0.close + [p.close])];
      if showVolume {
        var t1 := traces[1];
        traces := traces[1 := t1.(x := t1.x + [p.timestamp], y := t1.y + [p.volume])];
      }
      var n := |traces[0].x|;
      if n > MaxPoints {
        xRange := Some((traces[0].x[n - MaxPoints], traces[0].x[n - 1]));
      }
    }

    /** updateChartSupports: a no-op without a chart, without levels, or with
        bands switched off; otherwise stores the levels and replaces every
        band by one band per level. */
    method UpdateChartSupports(levels: Option<seq<Level>>)
      requires Valid()
      modifies this`traces, this`supports
      ensures Valid()
      ensures old(present) && levels.Some? && showSupports ==>
        traces == Redraw(old(traces), levels.value) && supports == levels.value
      ensures !(old(present) && levels.Some? && showSupports) ==>
        traces == old(traces) && supports == old(supports)
    {
      if !present || levels.None? || !showSupports {
        return;
      }
      var ls := levels.value;
      RedrawShape(traces, ls);
      var newData := AppendBands(BaseTraces(traces), ls, First(traces[0].x), Last(traces[0].x));
      supports := ls;
      traces := newData;
    }

    /** toggleChartSupports: records the setting; switching on redraws the
        stored levels, switching off strips every band. */
    method ToggleChartSupports(show: bool)
      requires Valid()
      modifies this`traces, this`supports, this`showSupports
      ensures Valid()
      ensures showSupports == show && supports == old(supports)
      ensures show && old(present) ==> traces == Redraw(old(traces), old(supports))
      ensures !show && old(present) ==> traces == BaseTraces(old(traces)) == old(traces)[..2]
      ensures !old(present) ==> traces == old(traces)
    {
      showSupports := show;
      if show {
        UpdateChartSupports(Some(supports));
      } else if present {
        BaseTracesOfWellFormed(traces);
        traces := BaseTraces(traces);
      }
    }

    /** hideChartSupports. */
    method HideChartSupports()
      requires Valid()
      modifies this`traces, this`supports, this`showSupports
      ensures Valid()
      ensures !showSupports && supports == old(supports)
      ensures old(present) ==> traces == old(traces)[..2]
      ensures !old(present) ==> traces == old(traces)
    {
      ToggleChartSupports(false);
    }

    /** toggleChartVolume, without the restyle of the volume trace's
        visibility: records whether new points extend the volume trace. */
    method ToggleChartVolume(show: bool)
      modifies this`showVolume
      ensures showVolume == (if present then show else old(showVolume))
    {
      if !present {
        return;
      }
      showVolume := show;
    }

    /** updateFullChart: stores the payload, replaces the price trace's data
        (and the volume trace's when volume is shown) with the stored price
        list, then redraws the bands when the payload carries supports and
        bands are on. The x-axis window is not touched. */
    method UpdateFullChart(data: Option<Payload>)
      requires Valid()
      modifies this`traces, this`supports, this`price
      ensures Valid()
      ensures !old(present) || data.None? ==>
        traces == old(traces) && supports == old(supports) && price == old(price)
      ensures old(present) && data.Some? ==>
        && price == (if data.value.price.Given? then data.value.price.items else old(price))
        && var mid := old(traces)[0 := PriceTrace(price)][1 := if showVolume then VolumeTrace(price) else old(traces)[1]];
           if data.value.supports.Given? && showSupports
           then traces == Redraw(mid, data.value.supports.items) && supports == data.value.supports.items
           else traces == mid && supports == (if data.value.supports.Given? then data.value.supports.items else old(supports))
    {
      if !present || data.None? {
        return;
      }
      UpdateChartData(data);
      traces := traces[0 := PriceTrace(price)];
      if showVolume {
        traces := traces[1 := VolumeTrace(price)];
      }
      ghost var mid := traces;
      assert mid == old(traces)[0 := PriceTrace(price)][1 := if showVolume then VolumeTrace(price) else old(traces)[1]];
      if data.value.supports.Given? && showSupports {
        UpdateChartSupports(Some(data.value.supports.items));
        assert traces == Redraw(mid, data.value.supports.items);
      }
    }
  }
}
