/**
 Minute bucketing for the dashboard's line chart
 (webapp/src/features/dashboard/lineChart.ts:18-59). Times are whole milliseconds,
 and a category is kept as the start of its minute instead of its printed label.
 */
module LineChart {

  const MINUTE: int := 60_000

  datatype Point = Point(epochMillis: int, queryCount: int)
  datatype Line = Line(name: string, points: seq<Point>)
  datatype Series = Series(name: string, data: seq<int>)
  datatype Model = Model(categories: seq<int>, series: seq<Series>)

  function Slot(p: Point): int {
    p.epochMillis / MINUTE * MINUTE
  }

  function AllPoints(lines: seq<Line>): seq<Point> {
    if lines == [] then [] else lines[0].points + AllPoints(lines[1..])
  }

  function Total(points: seq<Point>): int {
    if points == [] then 0 else points[0].queryCount + Total(points[1..])
  }

  /** The queries of the points that fall into one minute. */
  function CountIn(points: seq<Point>, slot: int): int {
    if points == [] then 0
    else
      var p := points[|points| - 1];
      (if Slot(p) == slot then p.queryCount else 0) + CountIn(points[..|points| - 1], slot)
  }

  function Sum(data: seq<int>): int {
    if data == [] then 0 else data[0] + Sum(data[1..])
  }

  /** Consecutive minutes. */
  predicate Minutes(buckets: seq<int>, start: int) {
    forall i :: 0 <= i < |buckets| ==> buckets[i] == start + i * MINUTE
  }

  /** Every point has its minute among the categories. */
  predicate Covers(buckets: seq<int>, points: seq<Point>) {
    forall p :: p in points ==> Slot(p) in buckets
  }

  /** The queries of the points from one time up to, not including, another. */
  function CountBetween(points: seq<Point>, lo: int, hi: int): int {
    if points == [] then 0
    else (if lo <= points[0].epochMillis < hi then points[0].queryCount else 0) + CountBetween(points[1..], lo, hi)
  }

  lemma {:induction false} BetweenSnoc(points: seq<Point>, p: Point, lo: int, hi: int)
    ensures CountBetween(points + [p], lo, hi)
            == CountBetween(points, lo, hi) + if lo <= p.epochMillis < hi then p.queryCount else 0
  {
    if points == [] {
      assert points + [p] == [p] && [p][1..] == [];
    } else {
      assert (points + [p])[1..] == points[1..] + [p];
      BetweenSnoc(points[1..], p, lo, hi);
    }
  }

  lemma SlotIsMinute(p: Point, slot: int)
    requires slot % MINUTE == 0
    ensures Slot(p) == slot <==> slot <= p.epochMillis < slot + 60_000
  {
  }

  /** The points of a slot are those of its minute. */
  lemma {:induction false} CountInMinute(points: seq<Point>, slot: int)
    requires slot % MINUTE == 0
    ensures CountIn(points, slot) == CountBetween(points, slot, slot + 60_000)
    decreases |points|
  {
    if points != [] {
      var n := |points| - 1;
      assert points == points[..n] + [points[n]];
      CountInMinute(points[..n], slot);
      SlotIsMinute(points[n], slot);
      BetweenSnoc(points[..n], points[n], slot, slot + 60_000);
    }
  }

  predicate Tallies(s: Series, line: Line, buckets: seq<int>) {
    && s.name == line.name
    && |s.data| == |buckets|
    && (forall j :: 0 <= j < |buckets| ==> s.data[j] == CountIn(line.points, buckets[j]))
  }

  method Range(points: seq<Point>) returns (min: int, max: int)
    requires points != []
    ensures forall p :: p in points ==> min <= p.epochMillis <= max
    ensures (exists p :: p in points && p.epochMillis == min) && (exists p :: p in points && p.epochMillis == max)
  {
    min, max := points[0].epochMillis, points[0].epochMillis;
    assert points[0] in points;
    var i := 0;
    while i < |points|
      invariant 0 <= i <= |points|
      invariant forall j :: 0 <= j < i ==> min <= points[j].epochMillis <= max
      invariant (exists p :: p in points && p.epochMillis == min) && (exists p :: p in points && p.epochMillis == max)
    {
      assert points[i] in points;
      if points[i].epochMillis < min {
        min := points[i].epochMillis;
      }
      if points[i].epochMillis > max {
        max := points[i].epochMillis;
      }
      i := i + 1;
    }
  }

  method Buckets(startBucket: int, endBucket: int) returns (buckets: seq<int>)
    requires startBucket <= endBucket && (endBucket - startBucket) % MINUTE == 0
    ensures Minutes(buckets, startBucket) && |buckets| == (endBucket - startBucket) / MINUTE + 1
  {
    buckets := [];
    var ts := startBucket;
    while ts <= endBucket
      invariant ts == startBucket + |buckets| * MINUTE
      invariant ts <= endBucket + MINUTE
      invariant Minutes(buckets, startBucket)
      decreases endBucket - ts
    {
      buckets := buckets + [ts];
      ts := ts + MINUTE;
    }
  }

  lemma SlotBounds(p: Point, min: int, max: int)
    requires min <= p.epochMillis <= max
    ensures min / MINUTE * MINUTE <= Slot(p) <= max / MINUTE * MINUTE
  {
  }

  lemma MinutesCover(buckets: seq<int>, points: seq<Point>, min: int, max: int)
    requires forall p :: p in points ==> min <= p.epochMillis <= max
    requires min <= max && Minutes(buckets, min / MINUTE * MINUTE) && |buckets| == max / MINUTE - min / MINUTE + 1
    ensures Covers(buckets, points)
  {
    forall p | p in points ensures Slot(p) in buckets {
      var j := p.epochMillis / MINUTE - min / MINUTE;
      SlotBounds(p, min, max);
      assert 0 <= j < |buckets|;
      assert buckets[j] == Slot(p);
    }
  }

  method IndexOf(buckets: seq<int>) returns (index: map<int, nat>)
    ensures forall ts :: ts in index <==> ts in buckets
    ensures forall ts :: ts in index ==> index[ts] < |buckets| && buckets[index[ts]] == ts
  {
    index := map[];
    var i := 0;
    while i < |buckets|
      invariant 0 <= i <= |buckets|
      invariant forall ts :: ts in index <==> ts in buckets[..i]
      invariant forall ts :: ts in index ==> index[ts] < |buckets| && buckets[index[ts]] == ts
    {
      assert buckets[..i + 1] == buckets[..i] + [buckets[i]];
      index := index[buckets[i] := i];
      i := i + 1;
    }
    assert buckets[..i] == buckets;
  }

  /** One backend's series; the array is filled in place. */
  method Tally(line: Line, buckets: seq<int>, index: map<int, nat>, ghost start: int) returns (s: Series)
    requires Minutes(buckets, start)
    requires forall ts :: ts in index <==> ts in buckets
    requires forall ts :: ts in index ==> index[ts] < |buckets| && buckets[index[ts]] == ts
    ensures Tallies(s, line, buckets)
  {
    var data := new int[|buckets|](_ => 0);
    var i := 0;
    while i < |line.points|
      invariant 0 <= i <= |line.points| && data.Length == |buckets|
      invariant forall j :: 0 <= j < |buckets| ==> data[j] == CountIn(line.points[..i], buckets[j])
    {
      var p := line.points[i];
      assert line.points[..i + 1][..i] == line.points[..i];
      var slot := p.epochMillis / MINUTE * MINUTE;
      if slot in index {
        var idx := index[slot];
        data[idx] := data[idx] + p.queryCount;
      } else {
        assert slot !in buckets;
      }
      i := i + 1;
    }
    assert line.points[..i] == line.points;
    s := Series(line.name, data[..]);
  }

  method AllSeries(lines: seq<Line>, buckets: seq<int>, index: map<int, nat>, ghost start: int)
    returns (series: seq<Series>)
    requires Minutes(buckets, start) && Covers(buckets, AllPoints(lines))
    requires forall ts :: ts in index <==> ts in buckets
    requires forall ts :: ts in index ==> index[ts] < |buckets| && buckets[index[ts]] == ts
    ensures |series| == |lines|
    ensures forall i :: 0 <= i < |lines| ==> Tallies(series[i], lines[i], buckets)
    ensures forall i :: 0 <= i < |lines| ==> Sum(series[i].data) == Total(lines[i].points)
  {
    hide Sum; hide Total; hide Tallies; hide CountIn; hide Minutes; hide Covers; hide AllPoints;
    series := [];
    var i := 0;
    while i < |lines|
      invariant 0 <= i <= |lines| && |series| == i
      invariant forall k :: 0 <= k < i ==> Tallies(series[k], lines[k], buckets)
      invariant forall k :: 0 <= k < i ==> Sum(series[k].data) == Total(lines[k].points)
    {
      var s := Tally(lines[i], buckets, index, start);
      SeriesConservesQueries(lines, i, s, buckets, start);
      series := series + [s];
      i := i + 1;
    }
  }

  method BuildLineChartModel(lines: seq<Line>) returns (m: Model)
    ensures AllPoints(lines) == [] ==> m == Model([], [])
    ensures AllPoints(lines) != [] ==>
              && m.categories != [] && m.categories[0] % MINUTE == 0
              && Minutes(m.categories, m.categories[0])
              && Covers(m.categories, AllPoints(lines))
              && (exists p :: p in AllPoints(lines) && Slot(p) == m.categories[0])
              && (exists p :: p in AllPoints(lines) && Slot(p) == m.categories[|m.categories| - 1])
              && |m.series| == |lines|
              && (forall i :: 0 <= i < |lines| ==> Tallies(m.series[i], lines[i], m.categories))
              && (forall i :: 0 <= i < |lines| ==> Sum(m.series[i].data) == Total(lines[i].points))
              && (forall j :: 0 < j < |m.categories| ==> m.categories[j] == m.categories[j - 1] + 60_000)
              && (forall i :: 0 <= i < |lines| ==> ByMinute(m.series[i], lines[i], m.categories))
  {
    hide Sum; hide Total; hide Tallies; hide CountIn;
    var allPoints := AllPoints(lines);
    if |allPoints| == 0 {
      return Model([], []);
    }
    var min, max := Range(allPoints);
    var startBucket := min / MINUTE * MINUTE;
    var endBucket := max / MINUTE * MINUTE;
    StepsOfMinutes(min, max);
    var buckets := Buckets(startBucket, endBucket);
    MinutesCover(buckets, allPoints, min, max);
    var index := IndexOf(buckets);
    var series := AllSeries(lines, buckets, index, startBucket);
    assert buckets[|buckets| - 1] == endBucket;
    m := Model(buckets, series);
    forall i | 0 <= i < |lines| ensures ByMinute(series[i], lines[i], buckets) {
      TallyIsByMinute(series[i], lines[i], buckets, startBucket);
    }
  }

  /** The backend's name, and for each category the queries of the minute that starts there. */
  ghost predicate ByMinute(s: Series, line: Line, categories: seq<int>) {
    && s.name == line.name && |s.data| == |categories|
    && forall j :: 0 <= j < |categories| ==>
         s.data[j] == CountBetween(line.points, categories[j], categories[j] + 60_000)
  }

  lemma TallyIsByMinute(s: Series, line: Line, buckets: seq<int>, start: int)
    requires Tallies(s, line, buckets) && Minutes(buckets, start) && start % MINUTE == 0
    ensures ByMinute(s, line, buckets)
  {
    hide CountIn; hide CountBetween;
    forall j | 0 <= j < |buckets|
      ensures s.data[j] == CountBetween(line.points, buckets[j], buckets[j] + 60_000)
    {
      assert buckets[j] % MINUTE == 0;
      CountInMinute(line.points, buckets[j]);
    }
  }

  lemma StepsOfMinutes(min: int, max: int)
    requires min <= max
    ensures min / MINUTE * MINUTE <= max / MINUTE * MINUTE
    ensures (max / MINUTE * MINUTE - min / MINUTE * MINUTE) % MINUTE == 0
    ensures (max / MINUTE * MINUTE - min / MINUTE * MINUTE) / MINUTE == max / MINUTE - min / MINUTE
  {
    var k := max / MINUTE - min / MINUTE;
    assert max / MINUTE * MINUTE - min / MINUTE * MINUTE == k * MINUTE;
  }

  // ---------- Conservation ----------

  /** The values a backend's series would have, as a sum. */
  function SumIn(points: seq<Point>, buckets: seq<int>): int {
    if buckets == [] then 0 else CountIn(points, buckets[0]) + SumIn(points, buckets[1..])
  }

  predicate Distinct(buckets: seq<int>) {
    forall i, j :: 0 <= i < j < |buckets| ==> buckets[i] != buckets[j]
  }

  lemma {:induction false} SumOfCounts(data: seq<int>, points: seq<Point>, buckets: seq<int>)
    requires |data| == |buckets| && forall j :: 0 <= j < |buckets| ==> data[j] == CountIn(points, buckets[j])
    ensures Sum(data) == SumIn(points, buckets)
  {
    if data != [] {
      assert forall j :: 0 <= j < |buckets[1..]| ==> data[1..][j] == CountIn(points, buckets[1..][j]);
      SumOfCounts(data[1..], points, buckets[1..]);
    }
  }

  /** One more point adds its count to exactly one of the distinct buckets, if it has one. */
  lemma {:induction false} OnePointMore(points: seq<Point>, p: Point, buckets: seq<int>)
    requires Distinct(buckets)
    ensures SumIn(points + [p], buckets) == SumIn(points, buckets) + if Slot(p) in buckets then p.queryCount else 0
  {
    assert (points + [p])[..|points|] == points;
    if buckets != [] {
      assert buckets == [buckets[0]] + buckets[1..];
      assert buckets[0] !in buckets[1..];
      OnePointMore(points, p, buckets[1..]);
    }
  }

  lemma {:induction false} NoPoints(buckets: seq<int>)
    ensures SumIn([], buckets) == 0
  {
    if buckets != [] { NoPoints(buckets[1..]); }
  }

  lemma {:induction false} TotalSnoc(points: seq<Point>, p: Point)
    ensures Total(points + [p]) == Total(points) + p.queryCount
  {
    if points == [] {
      assert points + [p] == [p];
    } else {
      assert (points + [p])[1..] == points[1..] + [p];
      TotalSnoc(points[1..], p);
    }
  }

  lemma {:induction false} NothingDropped(points: seq<Point>, buckets: seq<int>)
    requires Distinct(buckets) && Covers(buckets, points)
    ensures SumIn(points, buckets) == Total(points)
    decreases |points|
  {
    if points == [] {
      NoPoints(buckets);
    } else {
      var n := |points| - 1;
      assert points == points[..n] + [points[n]];
      assert points[n] in points;
      NothingDropped(points[..n], buckets);
      OnePointMore(points[..n], points[n], buckets);
      TotalSnoc(points[..n], points[n]);
    }
  }

  lemma {:induction false} LineInAll(lines: seq<Line>, i: nat, p: Point)
    requires i < |lines| && p in lines[i].points
    ensures p in AllPoints(lines)
  {
    if i > 0 { LineInAll(lines[1..], i - 1, p); }
  }

  /** No point is dropped: each backend's series adds up to its input query counts. */
  lemma SeriesConservesQueries(lines: seq<Line>, i: nat, s: Series, buckets: seq<int>, start: int)
    requires i < |lines| && Minutes(buckets, start) && Covers(buckets, AllPoints(lines))
             && Tallies(s, lines[i], buckets)
    ensures Sum(s.data) == Total(lines[i].points)
  {
    SumOfCounts(s.data, lines[i].points, buckets);
    forall p | p in lines[i].points ensures Slot(p) in buckets { LineInAll(lines, i, p); }
    NothingDropped(lines[i].points, buckets);
  }
}
