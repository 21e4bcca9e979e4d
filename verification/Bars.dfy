/** Building bars from ticks, one tick at a time. */
module Bars {
  import opened Basics
  import opened Reals

  datatype Tick = Tick(time: real, price: real, volume: int)

  datatype Bar = Bar(start: real, open: real, high: real, low: real, close: real, volume: int)

  function HighOf(seg: seq<Tick>): real
    requires seg != []
  {
    var t := seg[|seg| - 1];
    if |seg| == 1 then t.price else Larger(HighOf(seg[..|seg| - 1]), t.price)
  }

  /** The running low treats a low of zero as not yet set. */
  function LowOf(seg: seq<Tick>): real
    requires seg != []
  {
    var t := seg[|seg| - 1];
    if |seg| == 1 then t.price
    else
      var low := LowOf(seg[..|seg| - 1]);
      if low != 0.0 then Smaller(low, t.price) else t.price
  }

  function VolumeOf(seg: seq<Tick>): int {
    if seg == [] then 0 else VolumeOf(seg[..|seg| - 1]) + seg[|seg| - 1].volume
  }

  function Summary(seg: seq<Tick>): Bar
    requires seg != []
  {
    Bar(seg[0].time, seg[0].price, HighOf(seg), LowOf(seg), seg[|seg| - 1].price, VolumeOf(seg))
  }

  function Summaries(segs: seq<seq<Tick>>): seq<Bar> {
    if segs == [] then []
    else
      var last := segs[|segs| - 1];
      Summaries(segs[..|segs| - 1]) + if last == [] then [] else [Summary(last)]
  }

  /** How a stream of ticks is cut: the closed segments and the open one. */
  datatype Cut = Cut(closed: seq<seq<Tick>>, current: seq<Tick>)

  function CutOf(size: real, ticks: seq<Tick>): Cut {
    if ticks == [] then Cut([], [])
    else
      var cut, t := CutOf(size, ticks[..|ticks| - 1]), ticks[|ticks| - 1];
      if cut.current == [] then Cut(cut.closed, [t])
      else if t.time - cut.current[0].time >= size then Cut(cut.closed + [cut.current], [t])
      else Cut(cut.closed, cut.current + [t])
  }

  lemma CutNext(size: real, ticks: seq<Tick>, t: Tick)
    ensures var cut := CutOf(size, ticks);
      CutOf(size, ticks + [t]) ==
      if cut.current == [] then Cut(cut.closed, [t])
      else if t.time - cut.current[0].time >= size then Cut(cut.closed + [cut.current], [t])
      else Cut(cut.closed, cut.current + [t])
    ensures CutOf(size, []) == Cut([], [])
  {
    assert (ticks + [t])[..|ticks|] == ticks;
  }

  lemma SummaryNext(seg: seq<Tick>, t: Tick)
    requires seg != []
    ensures var b := Summary(seg);
      Summary(seg + [t]) == Bar(b.start, b.open, Larger(b.high, t.price),
                                if b.low != 0.0 then Smaller(b.low, t.price) else t.price, t.price, b.volume + t.volume)
  {
    assert (seg + [t])[..|seg|] == seg;
  }

  class BarAggregator {
    const size: real
    var barStart: Option<real>
    var open: real
    var high: real
    var low: real
    var close: real
    var volume: int
    ghost var ticks: seq<Tick>  // every tick since the last reset
    ghost var bars: seq<Bar>    // every bar returned since then

    /** The fields summarize the open segment of the stream. */
    ghost predicate Valid()
      reads this
    {
      var current := CutOf(size, ticks).current;
      && bars == Summaries(CutOf(size, ticks).closed)
      && if barStart.None? then ticks == []
      else current != [] && Summary(current) == Bar(barStart.value, open, high, low, close, volume)
    }

    constructor (size: real)
      ensures Valid() && this.size == size && ticks == [] && bars == []
    {
      this.size, bars := size, [];
      barStart, open, high, low, close, volume, ticks := None, 0.0, 0.0, 0.0, 0.0, 0, [];
    }

    /** A bar comes out exactly when the tick closes the open segment, and it is that segment's summary. */
    method AddTick(tick: Tick) returns (bar: Option<Bar>)
      requires Valid()
      modifies this
      ensures Valid() && ticks == old(ticks) + [tick]
      ensures bars == old(bars) + if bar.Some? then [bar.value] else []
      ensures bar.Some? <==> old(barStart.Some? && tick.time - barStart.value >= size)
    {
      hide HighOf, LowOf, VolumeOf, Larger, Smaller, CutOf;
      ghost var current := CutOf(size, ticks).current;
      CutNext(size, ticks, tick);
      ticks := ticks + [tick];
      if barStart.None? {
        Restart(tick);
        return None;
      }
      var elapsed := tick.time - barStart.value;
      if elapsed >= size {
        bar := Some(Bar(barStart.value, open, high, low, close, volume));
        bars := bars + [bar.value];
        Restart(tick);
        return;
      }
      SummaryNext(current, tick);
      high := Larger(high, tick.price);
      low := if low != 0.0 then Smaller(low, tick.price) else tick.price;
      close := tick.price;
      volume := volume + tick.volume;
      return None;
    }

    method Restart(tick: Tick)
      modifies this`barStart, this`open, this`high, this`low, this`close, this`volume
      ensures barStart.Some? && Bar(barStart.value, open, high, low, close, volume) == Summary([tick])
    {
      assert [tick][..0] == [] && VolumeOf([tick][..0]) == 0;
      barStart := Some(tick.time);
      open, high, low, close := tick.price, tick.price, tick.price, tick.price;
      volume := tick.volume;
    }

    method Reset()
      modifies this
      ensures Valid() && ticks == [] && bars == []
    {
      barStart, open, high, low, close, volume, ticks, bars := None, 0.0, 0.0, 0.0, 0.0, 0, [], [];
    }
  }

  // ---------------------------------------------------------------------------------------------
  // The cut partitions the stream
  // ---------------------------------------------------------------------------------------------

  function Join(segs: seq<seq<Tick>>): seq<Tick> {
    if segs == [] then [] else Join(segs[..|segs| - 1]) + segs[|segs| - 1]
  }

  lemma JoinNext(segs: seq<seq<Tick>>, seg: seq<Tick>)
    ensures Join(segs + [seg]) == Join(segs) + seg
  {
    assert (segs + [seg])[..|segs|] == segs;
  }

  /** Closed segments and the open one, in order, are the stream; none is empty. */
  lemma {:induction false} CutPartitions(size: real, ticks: seq<Tick>)
    ensures var cut := CutOf(size, ticks);
      && Join(cut.closed) + cut.current == ticks
      && (forall i :: 0 <= i < |cut.closed| ==> cut.closed[i] != [])
      && (cut.current == [] <==> ticks == [])
  {
    if ticks != [] {
      hide Join;
      var past, t := ticks[..|ticks| - 1], ticks[|ticks| - 1];
      CutPartitions(size, past);
      var before := CutOf(size, past);
      var joined := Join(before.closed);
      JoinNext(before.closed, before.current);
      assert past + [t] == ticks;
      assert (joined + before.current) + [t] == joined + (before.current + [t]);
    }
  }

  predicate InOrder(ticks: seq<Tick>) {
    forall i, j :: 0 <= i < j < |ticks| ==> ticks[i].time <= ticks[j].time
  }

  predicate Short(size: real, seg: seq<Tick>) {
    seg != [] && forall i :: 0 <= i < |seg| ==> 0.0 <= seg[i].time - seg[0].time < size
  }

  /** The segments of a cut, the open one last. */
  function Segments(cut: Cut): seq<seq<Tick>> {
    if cut.current == [] then cut.closed else cut.closed + [cut.current]
  }

  /** With times in order, every segment spans less than the bar size, and each segment starts at least one
      bar size after the one before. */
  lemma {:induction false} SegmentsAreSpaced(size: real, ticks: seq<Tick>)
    requires size > 0.0 && InOrder(ticks)
    ensures var cut := CutOf(size, ticks);
      && Spaced(size, Segments(cut))
      && (ticks != [] ==> cut.current != [] && cut.current[|cut.current| - 1] == ticks[|ticks| - 1])
  {
    if ticks != [] {
      var past, t := ticks[..|ticks| - 1], ticks[|ticks| - 1];
      SegmentsAreSpaced(size, past);
      CutPartitions(size, past);
      if past != [] {
        assert past[|past| - 1] == ticks[|ticks| - 2];
        SpacedNext(size, CutOf(size, past), t, CutOf(size, ticks));
      }
    }
  }

  ghost predicate Spaced(size: real, segs: seq<seq<Tick>>) {
    && (forall i :: 0 <= i < |segs| ==> Short(size, segs[i]))
    && (forall i :: 0 <= i < |segs| - 1 ==> segs[i + 1][0].time - segs[i][0].time >= size)
  }

  lemma SpacedNext(size: real, before: Cut, t: Tick, after: Cut)
    requires size > 0.0 && before.current != [] && Spaced(size, Segments(before))
    requires before.current[|before.current| - 1].time <= t.time
    requires after == if t.time - before.current[0].time >= size then Cut(before.closed + [before.current], [t])
                      else Cut(before.closed, before.current + [t])
    ensures Spaced(size, Segments(after))
  {
    var segs, next := Segments(before), Segments(after);
    var n := |before.closed|;
    assert segs[n] == before.current && Short(size, segs[n]);
    assert before.current[|before.current| - 1].time - before.current[0].time >= 0.0;
    forall i | 0 <= i < |next| ensures Short(size, next[i]) {
      if i < n { assert next[i] == segs[i]; }
    }
    forall i | 0 <= i < |next| - 1 ensures next[i + 1][0].time - next[i][0].time >= size {
      assert next[i][0] == segs[i][0];
      if i + 1 <= n { assert next[i + 1][0] == segs[i + 1][0]; }
    }
  }

  // ---------------------------------------------------------------------------------------------
  // High and low
  // ---------------------------------------------------------------------------------------------

  lemma {:induction false} HighIsHighest(seg: seq<Tick>)
    requires seg != []
    ensures forall i :: 0 <= i < |seg| ==> seg[i].price <= HighOf(seg)
    ensures exists i :: 0 <= i < |seg| && seg[i].price == HighOf(seg)
  {
    if |seg| > 1 {
      var rest := seg[..|seg| - 1];
      HighIsHighest(rest);
      var i :| 0 <= i < |rest| && rest[i].price == HighOf(rest);
      assert seg[i].price == HighOf(rest);
    }
    assert seg[|seg| - 1].price <= HighOf(seg);
  }

  ghost predicate IsLowest(low: real, seg: seq<Tick>) {
    (forall i :: 0 <= i < |seg| ==> low <= seg[i].price) && exists i :: 0 <= i < |seg| && seg[i].price == low
  }

  predicate NonNegative(seg: seq<Tick>) {
    forall i :: 0 <= i < |seg| ==> seg[i].price >= 0.0
  }

  predicate HasZero(seg: seq<Tick>) {
    exists i :: 0 <= i < |seg| && seg[i].price == 0.0
  }

  /** The running low is some price of the segment. */
  lemma {:induction false} LowIsAPrice(seg: seq<Tick>)
    requires seg != []
    ensures exists i :: 0 <= i < |seg| && seg[i].price == LowOf(seg)
  {
    if |seg| > 1 {
      var rest := seg[..|seg| - 1];
      LowIsAPrice(rest);
      var i :| 0 <= i < |rest| && rest[i].price == LowOf(rest);
      assert seg[i].price == LowOf(rest);
    }
    assert LowOf(seg) == seg[|seg| - 1].price || |seg| > 1;
  }

  lemma {:induction false} LowIsZeroOnlyLast(seg: seq<Tick>)
    requires seg != [] && NonNegative(seg)
    ensures LowOf(seg) == 0.0 <==> seg[|seg| - 1].price == 0.0
  {
    if |seg| > 1 {
      var rest := seg[..|seg| - 1];
      assert NonNegative(rest);
      LowIsZeroOnlyLast(rest);
      LowIsAPrice(rest);
      var i :| 0 <= i < |rest| && rest[i].price == LowOf(rest);
      assert seg[i].price >= 0.0 && seg[|seg| - 1].price >= 0.0;
    }
  }

  lemma {:induction false} LowBelowAll(seg: seq<Tick>)
    requires seg != [] && !HasZero(seg)
    ensures forall i :: 0 <= i < |seg| ==> LowOf(seg) <= seg[i].price
  {
    if |seg| > 1 {
      var rest := seg[..|seg| - 1];
      forall i | 0 <= i < |rest| ensures rest[i].price != 0.0 {
        assert rest[i] == seg[i];
      }
      LowBelowAll(rest);
      LowIsAPrice(rest);
      forall i | 0 <= i < |seg| ensures LowOf(seg) <= seg[i].price {
        if i < |rest| { assert rest[i] == seg[i]; }
      }
    }
  }

  /** Once a price is negative the running low stays negative, and what it forgot before was not. */
  lemma {:induction false} LowWithNegative(seg: seq<Tick>)
    requires seg != [] && !NonNegative(seg)
    ensures LowOf(seg) < 0.0 && forall i :: 0 <= i < |seg| ==> LowOf(seg) <= seg[i].price
  {
    if |seg| > 1 {
      var rest := seg[..|seg| - 1];
      if NonNegative(rest) {
        LowIsAPrice(rest);
        assert forall i :: 0 <= i < |rest| ==> seg[i].price == rest[i].price >= 0.0;
      } else {
        LowWithNegative(rest);
        assert forall i :: 0 <= i < |rest| ==> seg[i].price == rest[i].price;
      }
    }
  }

  /** The low of a bar is the lowest price of its ticks if and only if some price is negative, or none is zero, or
      the last one is. */
  lemma LowIsLowestIff(seg: seq<Tick>)
    requires seg != []
    ensures IsLowest(LowOf(seg), seg) <==> !NonNegative(seg) || !HasZero(seg) || seg[|seg| - 1].price == 0.0
  {
    LowIsAPrice(seg);
    if !NonNegative(seg) {
      LowWithNegative(seg);
    } else {
      LowIsZeroOnlyLast(seg);
      if !HasZero(seg) {
        LowBelowAll(seg);
      }
    }
  }

  /** A tick at zero followed by one at five: the bar's low is five. */
  lemma LowForgetsZero(start: real)
    ensures var seg := [Tick(start, 0.0, 1), Tick(start, 5.0, 1)];
      LowOf(seg) == 5.0 && !IsLowest(LowOf(seg), seg)
  {
    var seg := [Tick(start, 0.0, 1), Tick(start, 5.0, 1)];
    assert seg[..1] == [seg[0]] && LowOf(seg[..1]) == 0.0;
    assert seg[0].price < 5.0;
  }

  // ---------------------------------------------------------------------------------------------
  // What the bars tell of the stream
  // ---------------------------------------------------------------------------------------------

  /** Volumes add up tick by tick. */
  lemma {:induction false} VolumesAdd(xs: seq<Tick>, ys: seq<Tick>)
    ensures VolumeOf(xs + ys) == VolumeOf(xs) + VolumeOf(ys)
    ensures VolumeOf([]) == 0 && forall t: Tick :: VolumeOf([t]) == t.volume
  {
    assert forall t: Tick :: [t][..0] == [];
    if ys == [] {
      assert xs + ys == xs;
    } else {
      VolumesAdd(xs, ys[..|ys| - 1]);
      assert (xs + ys)[..|xs + ys| - 1] == xs + ys[..|ys| - 1];
    }
  }

  /** Where in the stream the i-th segment starts. */
  function StartOf(segs: seq<seq<Tick>>, i: nat): nat
    requires i <= |segs|
  {
    |Join(segs[..i])|
  }

  lemma {:induction false} JoinPrefix(segs: seq<seq<Tick>>, i: nat)
    requires i <= |segs|
    ensures Join(segs[..i]) <= Join(segs)
    decreases |segs|
  {
    if i < |segs| {
      JoinPrefix(segs[..|segs| - 1], i);
      assert segs[..|segs| - 1][..i] == segs[..i];
    } else {
      assert segs[..i] == segs;
    }
  }

  /** A segment is the stretch of the stream from its start to the start of the next. */
  lemma SegmentIsStretch(segs: seq<seq<Tick>>, stream: seq<Tick>, i: nat)
    requires i < |segs| && Join(segs) <= stream
    ensures StartOf(segs, i + 1) == StartOf(segs, i) + |segs[i]| <= |stream|
    ensures segs[i] == stream[StartOf(segs, i)..StartOf(segs, i + 1)]
  {
    JoinPrefix(segs, i + 1);
    assert segs[..i + 1] == segs[..i] + [segs[i]];
    JoinNext(segs[..i], segs[i]);
    assert Join(segs[..i + 1]) <= stream;
  }

  lemma {:induction false} SummariesAre(segs: seq<seq<Tick>>)
    requires forall i :: 0 <= i < |segs| ==> segs[i] != []
    ensures |Summaries(segs)| == |segs| && forall i :: 0 <= i < |segs| ==> Summaries(segs)[i] == Summary(segs[i])
  {
    if segs != [] {
      hide Summary;
      SummariesAre(segs[..|segs| - 1]);
    }
  }

  /** The bar tells of the ticks from one position up to another: time and price at the first, price at the last,
      the highest price, the lowest - as far as the running low finds it - and the volume. */
  ghost predicate Tells(bar: Bar, ticks: seq<Tick>, from: nat, end: nat) {
    && from < end <= |ticks|
    && bar.start == ticks[from].time && bar.open == ticks[from].price && bar.close == ticks[end - 1].price
    && (forall i :: from <= i < end ==> ticks[i].price <= bar.high)
    && (exists i :: from <= i < end && ticks[i].price == bar.high)
    && (exists i :: from <= i < end && ticks[i].price == bar.low)
    && ((forall i :: from <= i < end ==> ticks[i].price > 0.0) ==>
          forall i :: from <= i < end ==> bar.low <= ticks[i].price)
    && bar.volume == VolumeOf(ticks[from..end])
  }

  lemma SummaryTells(ticks: seq<Tick>, from: nat, end: nat)
    requires from < end <= |ticks|
    ensures Tells(Summary(ticks[from..end]), ticks, from, end)
  {
    hide HighOf, LowOf, VolumeOf;
    var seg := ticks[from..end];
    assert forall i :: 0 <= i < |seg| ==> seg[i] == ticks[from + i];
    assert forall i :: from <= i < end ==> ticks[i] == seg[i - from];
    HighIsHighest(seg);
    LowIsLowestIff(seg);
    LowIsAPrice(seg);
    var h :| 0 <= h < |seg| && seg[h].price == HighOf(seg);
    assert ticks[from + h].price == HighOf(seg);
    var l :| 0 <= l < |seg| && seg[l].price == LowOf(seg);
    assert ticks[from + l].price == LowOf(seg);
    if forall i :: from <= i < end ==> ticks[i].price > 0.0 {
      assert forall i :: 0 <= i < |seg| ==> seg[i].price == ticks[from + i].price > 0.0;
      assert !HasZero(seg);
    }
  }

  function VolumeIn(bars: seq<Bar>): int {
    if bars == [] then 0 else VolumeIn(bars[..|bars| - 1]) + bars[|bars| - 1].volume
  }

  lemma {:induction false} VolumeOfSegments(segs: seq<seq<Tick>>)
    requires forall i :: 0 <= i < |segs| ==> segs[i] != []
    ensures VolumeIn(Summaries(segs)) == VolumeOf(Join(segs))
  {
    if segs != [] {
      hide VolumeOf;
      var past, last := segs[..|segs| - 1], segs[|segs| - 1];
      VolumeOfSegments(past);
      VolumesAdd(Join(past), last);
      assert Summaries(segs)[..|Summaries(segs)| - 1] == Summaries(past);
    } else {
      VolumesAdd([], []);
    }
  }

  /** Over every stream: the bars tell of consecutive stretches of it, from its first tick up to where the open
      segment starts, and bars and open segment together hold its whole volume. With positive prices every bar's open
      and close lie between its low and high. */
  lemma BarsTellTheStream(size: real, ticks: seq<Tick>)
    ensures var cut := CutOf(size, ticks);
      var bars := Summaries(cut.closed);
      && |bars| == |cut.closed| && StartOf(cut.closed, 0) == 0
      && (forall i :: 0 <= i < |bars| ==>
            Tells(bars[i], ticks, StartOf(cut.closed, i), StartOf(cut.closed, i + 1)))
      && StartOf(cut.closed, |bars|) <= |ticks| && cut.current == ticks[StartOf(cut.closed, |bars|)..]
      && VolumeIn(bars) + VolumeOf(cut.current) == VolumeOf(ticks)
      && ((forall i :: 0 <= i < |ticks| ==> ticks[i].price > 0.0) ==>
            forall i :: 0 <= i < |bars| ==> Ordered(bars[i]))
  {
    hide Summary, VolumeOf, Join, Tells, Summaries;
    var cut := CutOf(size, ticks);
    CutPartitions(size, ticks);
    SummariesAre(cut.closed);
    VolumeOfSegments(cut.closed);
    VolumesAdd(Join(cut.closed), cut.current);
    JoinNothing();
    assert cut.closed[..0] == [] && cut.closed[..|cut.closed|] == cut.closed;
    EachTells(cut.closed, ticks);
  }

  lemma EachTells(segs: seq<seq<Tick>>, ticks: seq<Tick>)
    requires Join(segs) <= ticks && forall i :: 0 <= i < |segs| ==> segs[i] != []
    ensures var bars := Summaries(segs);
      && |bars| == |segs|
      && (forall i :: 0 <= i < |bars| ==> Tells(bars[i], ticks, StartOf(segs, i), StartOf(segs, i + 1)))
      && ((forall i :: 0 <= i < |ticks| ==> ticks[i].price > 0.0) ==>
            forall i :: 0 <= i < |bars| ==> Ordered(bars[i]))
  {
    hide Summary, VolumeOf, Join, Tells, Summaries, StartOf, Ordered;
    SummariesAre(segs);
    var bars := Summaries(segs);
    forall i | 0 <= i < |bars| ensures Tells(bars[i], ticks, StartOf(segs, i), StartOf(segs, i + 1)) {
      SegmentIsStretch(segs, ticks, i);
      SummaryTells(ticks, StartOf(segs, i), StartOf(segs, i + 1));
    }
    if forall i :: 0 <= i < |ticks| ==> ticks[i].price > 0.0 {
      forall i | 0 <= i < |bars| ensures Ordered(bars[i]) {
        assert Tells(bars[i], ticks, StartOf(segs, i), StartOf(segs, i + 1));
        TellsOrdered(bars[i], ticks, StartOf(segs, i), StartOf(segs, i + 1));
      }
    }
  }

  predicate Ordered(bar: Bar) {
    bar.low <= bar.open <= bar.high && bar.low <= bar.close <= bar.high
  }

  lemma TellsOrdered(bar: Bar, ticks: seq<Tick>, from: nat, end: nat)
    requires Tells(bar, ticks, from, end) && forall i :: 0 <= i < |ticks| ==> ticks[i].price > 0.0
    ensures Ordered(bar)
  {
  }

  lemma JoinNothing()
    ensures Join([]) == []
  {
  }
}
