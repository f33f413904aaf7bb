/** internal/stats/stats.go: the aggregates of one pass over the trips. */
module Stats {
  import opened Sums
  import opened Ledger
  import opened Trips
  import opened Parser

  datatype BinCount = BinCount(binStart: real, count: nat)

  datatype AvgAccum = AvgAccum(sum: real, count: nat) {
    function Avg(): real {
      if count == 0 then 0.0 else sum / count as real
    }
  }

  datatype CellCount = CellCount(latCell: int, lonCell: int, count: nat)

  datatype StatsResult = StatsResult(tripsByHour: seq<nat>, tripsByWeekday: seq<nat>,
                                     durationHist: seq<BinCount>, distanceHist: seq<BinCount>,
                                     speedByHour: seq<AvgAccum>, topCells: seq<CellCount>)

  const DUR_BINS: nat := 91
  const DIST_BINS: nat := 101
  const TOP_N: nat := 50

  /** Go's conversion of a float to an int: towards zero. */
  function Trunc(x: real): (i: int)
    ensures 0.0 <= x ==> i as real <= x < i as real + 1.0
    ensures x < 0.0 ==> i as real - 1.0 < x <= i as real
  {
    if x < 0.0 then -((-x).Floor) else x.Floor
  }

  // ---- what is counted ----

  function HourOf(t: Trip): int { t.hourOfDay }

  function WeekdayOf(t: Trip): int { t.dayOfWeek }

  function DurationBin(t: Trip): int { Trunc(t.durationMin / 2.0) }

  function DistanceBin(t: Trip): int { Trunc(t.tripDistance / 1.0) }

  function CellOf(t: Trip): (int, int) {
    (Trunc(t.pickupLat * 100.0), Trunc(t.pickupLon * 100.0))
  }

  /** How many trips have key k. */
  function CountOf<K(==)>(key: Trip -> K, trips: seq<Trip>, k: K): nat {
    if trips == [] then 0
    else CountOf(key, trips[..|trips| - 1], k) + if key(trips[|trips| - 1]) == k then 1 else 0
  }

  function SpeedAt(h: int): Trip -> real {
    (t: Trip) => if t.hourOfDay == h && t.durationMin > 0.0 then t.tripDistance / (t.durationMin / 60.0) else 0.0
  }

  /** The hour of a trip that counts for the speeds; -1 when it does not. */
  function MovingHour(t: Trip): int {
    if t.durationMin > 0.0 then t.hourOfDay else -1
  }

  ghost predicate IsHistogram(counts: seq<nat>, key: Trip -> int, trips: seq<Trip>) {
    forall k :: 0 <= k < |counts| ==> counts[k] == CountOf(key, trips, k)
  }

  ghost predicate IsSpeeds(accs: seq<AvgAccum>, trips: seq<Trip>) {
    forall h :: 0 <= h < |accs| ==>
      accs[h] == AvgAccum(Sum(SpeedAt(h), trips), CountOf(MovingHour, trips, h))
  }

  ghost predicate IsCellMap(cells: map<(int, int), nat>, trips: seq<Trip>) {
    && (forall c :: c in cells ==> cells[c] == CountOf(CellOf, trips, c) && 0 < cells[c])
    && (forall t :: t in trips ==> CellOf(t) in cells)
  }

  lemma CountStep<K>(key: Trip -> K, trips: seq<Trip>, i: nat, k: K)
    requires i < |trips|
    ensures CountOf(key, trips[..i + 1], k) == CountOf(key, trips[..i], k) + if key(trips[i]) == k then 1 else 0
  {
    assert trips[..i + 1][..i] == trips[..i];
  }

  // ---- one trip at a time, in place ----

  method Increment(counts: array<nat>, key: Trip -> int, trips: seq<Trip>, i: nat)
    requires i < |trips| && IsHistogram(counts[..], key, trips[..i])
    modifies counts
    ensures IsHistogram(counts[..], key, trips[..i + 1])
  {
    var k := key(trips[i]);
    forall j: int ensures CountOf(key, trips[..i + 1], j) == CountOf(key, trips[..i], j) + if k == j then 1 else 0 {
      CountStep(key, trips, i, j);
    }
    assert forall j :: 0 <= j < counts.Length ==> counts[j] == counts[..][j] == CountOf(key, trips[..i], j);
    if 0 <= k < counts.Length {
      counts[k] := counts[k] + 1;
    }
  }

  method AddSpeed(accs: array<AvgAccum>, trips: seq<Trip>, i: nat)
    requires i < |trips| && IsSpeeds(accs[..], trips[..i])
    requires 0 <= trips[i].hourOfDay < accs.Length
    modifies accs
    ensures IsSpeeds(accs[..], trips[..i + 1])
  {
    hide Sum, CountOf;
    var t := trips[i];
    forall h: int
      ensures CountOf(MovingHour, trips[..i + 1], h) == CountOf(MovingHour, trips[..i], h) + if MovingHour(t) == h then 1 else 0
      ensures Sum(SpeedAt(h), trips[..i + 1]) == Sum(SpeedAt(h), trips[..i]) + SpeedAt(h)(t)
    {
      CountStep(MovingHour, trips, i, h);
      SumStep(SpeedAt(h), trips, i);
    }
    assert forall h :: 0 <= h < accs.Length ==> accs[h] == accs[..][h];
    if t.durationMin > 0.0 {
      var h, speed := t.hourOfDay, t.tripDistance / (t.durationMin / 60.0);
      accs[h] := AvgAccum(accs[h].sum + speed, accs[h].count + 1);
    }
  }

  method AddCell(cells: map<(int, int), nat>, trips: seq<Trip>, i: nat) returns (out: map<(int, int), nat>)
    requires i < |trips| && IsCellMap(cells, trips[..i])
    ensures IsCellMap(out, trips[..i + 1])
  {
    var cell := CellOf(trips[i]);
    out := cells[cell := if cell in cells then cells[cell] + 1 else 1];
    if cell !in cells {
      AbsentCell(trips[..i], cell);
    }
    forall c | c in out ensures out[c] == CountOf(CellOf, trips[..i + 1], c) && 0 < out[c] {
      CountStep(CellOf, trips, i, c);
    }
    assert trips[..i + 1] == trips[..i] + [trips[i]];
  }

  lemma {:induction false} AbsentCell(trips: seq<Trip>, cell: (int, int))
    requires forall t :: t in trips ==> CellOf(t) != cell
    ensures CountOf(CellOf, trips, cell) == 0
  {
    if trips != [] {
      AbsentCell(trips[..|trips| - 1], cell);
    }
  }

  // ---- the most frequent cells ----

  function Key(c: CellCount): (int, int) {
    (c.latCell, c.lonCell)
  }

  ghost predicate Descending(cells: seq<CellCount>) {
    forall i, j :: 0 <= i < j < |cells| ==> cells[j].count <= cells[i].count
  }

  ghost predicate DistinctKeys<K>(keys: seq<K>) {
    forall i, j :: 0 <= i < j < |keys| ==> keys[i] != keys[j]
  }

  function Keys(cells: seq<CellCount>): (keys: seq<(int, int)>)
    ensures |keys| == |cells|
  {
    seq(|cells|, i requires 0 <= i < |cells| => Key(cells[i]))
  }

  /** How many of the cells, in falling order, count at least as much as c. */
  function Position(c: CellCount, cells: seq<CellCount>): (p: nat)
    requires Descending(cells)
    ensures p <= |cells|
    ensures forall i :: 0 <= i < p ==> cells[i].count >= c.count
    ensures forall i :: p <= i < |cells| ==> cells[i].count < c.count
  {
    if cells == [] then 0
    else if cells[|cells| - 1].count >= c.count then |cells|
    else Position(c, cells[..|cells| - 1])
  }

  /** sort.Slice by falling count; ties in no particular order. */
  method SortByCount(cells: seq<CellCount>) returns (sorted: seq<CellCount>)
    requires DistinctKeys(Keys(cells))
    ensures Descending(sorted) && DistinctKeys(Keys(sorted))
    ensures |sorted| == |cells| && forall c :: c in sorted <==> c in cells
  {
    hide Position, Descending;
    sorted := [];
    Sorted0();
    for i := 0 to |cells|
      invariant Descending(sorted) && DistinctKeys(Keys(sorted)) && |sorted| == i
      invariant forall c :: c in sorted <==> c in cells[..i]
    {
      var c := cells[i];
      var p := Position(c, sorted);
      var next := sorted[..p] + [c] + sorted[p..];
      forall k | 0 <= k < |sorted| ensures Key(sorted[k]) != Key(c) {
        assert sorted[k] in sorted;
        var j :| 0 <= j < i && cells[j] == sorted[k];
        assert Keys(cells)[j] != Keys(cells)[i];
      }
      Inserted(sorted, p, c, next);
      assert cells[..i + 1] == cells[..i] + [c];
      sorted := next;
    }
    assert cells[..|cells|] == cells;
  }

  lemma Sorted0()
    ensures Descending([])
  {
  }

  lemma InsertedDistinct(cells: seq<CellCount>, p: nat, c: CellCount, out: seq<CellCount>)
    requires p <= |cells| && out == cells[..p] + [c] + cells[p..]
    requires DistinctKeys(Keys(cells)) && forall k :: 0 <= k < |cells| ==> Key(cells[k]) != Key(c)
    ensures DistinctKeys(Keys(out))
  {
    hide Key;
    forall i, j | 0 <= i < j < |out| ensures Keys(out)[i] != Keys(out)[j] {
      var a, b := if i < p then i else i - 1, if j < p then j else j - 1;
      if i != p && j != p {
        assert Keys(cells)[a] != Keys(cells)[b];
      }
    }
  }

  lemma Inserted(cells: seq<CellCount>, p: nat, c: CellCount, out: seq<CellCount>)
    requires p <= |cells| && out == cells[..p] + [c] + cells[p..]
    requires DistinctKeys(Keys(cells)) && forall k :: 0 <= k < |cells| ==> Key(cells[k]) != Key(c)
    requires Descending(cells)
    requires forall i :: 0 <= i < |cells| ==> if i < p then cells[i].count >= c.count else cells[i].count < c.count
    ensures DistinctKeys(Keys(out)) && Descending(out)
    ensures forall x :: x in out <==> x in cells || x == c
  {
    assert cells == cells[..p] + cells[p..];
    InsertedDistinct(cells, p, c, out);
  }

  /** The map as a list, in the arbitrary order of a map's iteration. */
  method ListCells(cellMap: map<(int, int), nat>) returns (cells: seq<CellCount>)
    ensures DistinctKeys(Keys(cells))
    ensures forall c :: c in cells ==> Key(c) in cellMap && cellMap[Key(c)] == c.count
    ensures forall k :: k in cellMap ==> k in Keys(cells)
  {
    cells := [];
    var left := cellMap.Keys;
    while left != {}
      invariant left <= cellMap.Keys && DistinctKeys(Keys(cells))
      invariant forall c :: c in cells ==> Key(c) in cellMap && Key(c) !in left && cellMap[Key(c)] == c.count
      invariant forall k :: k in cellMap ==> k in left || k in Keys(cells)
      decreases left
    {
      var k :| k in left;
      var c := CellCount(k.0, k.1, cellMap[k]);
      assert forall i :: 0 <= i < |cells| ==> cells[i] in cells;
      assert Keys(cells + [c]) == Keys(cells) + [k];
      cells := cells + [c];
      left := left - {k};
    }
  }

  /** The true top: distinct cells with exact counts, in falling order, at most 50;
      a cell that was left out counts no more than any kept one. */
  ghost predicate IsTop(top: seq<CellCount>, trips: seq<Trip>) {
    && |top| <= TOP_N && Descending(top) && DistinctKeys(Keys(top))
    && (forall c :: c in top ==> c.count == CountOf(CellOf, trips, Key(c)) && 0 < c.count)
    && forall t :: t in trips ==>
         CellOf(t) in Keys(top) ||
         (|top| == TOP_N && forall c :: c in top ==> CountOf(CellOf, trips, CellOf(t)) <= c.count)
  }

  method TopCells(cellMap: map<(int, int), nat>, trips: seq<Trip>) returns (top: seq<CellCount>)
    requires IsCellMap(cellMap, trips)
    ensures IsTop(top, trips)
  {
    var cells := ListCells(cellMap);
    var sorted := SortByCount(cells);
    top := if |sorted| > TOP_N then sorted[..TOP_N] else sorted;
    CutIsTop(cellMap, cells, sorted, top, trips);
  }

  lemma CutIsTop(cellMap: map<(int, int), nat>, cells: seq<CellCount>, sorted: seq<CellCount>, top: seq<CellCount>,
                 trips: seq<Trip>)
    requires IsCellMap(cellMap, trips) && Descending(sorted) && DistinctKeys(Keys(sorted))
    requires forall c :: c in cells ==> Key(c) in cellMap && cellMap[Key(c)] == c.count
    requires forall k :: k in cellMap ==> k in Keys(cells)
    requires forall c :: c in sorted <==> c in cells
    requires top == if |sorted| > TOP_N then sorted[..TOP_N] else sorted
    ensures IsTop(top, trips)
  {
    hide CountOf;
    assert DistinctKeys(Keys(top)) by {
      assert forall i :: 0 <= i < |top| ==> Keys(top)[i] == Keys(sorted)[i];
    }
    assert forall c :: c in top ==> c in sorted;
    forall t | t in trips
      ensures CellOf(t) in Keys(top) ||
              (|top| == TOP_N && forall c :: c in top ==> CountOf(CellOf, trips, CellOf(t)) <= c.count)
    {
      var k :| 0 <= k < |cells| && Keys(cells)[k] == CellOf(t);
      assert cells[k] in cells && cells[k] in sorted;
      var i :| 0 <= i < |sorted| && sorted[i] == cells[k];
      if i < |top| {
        assert Keys(top)[i] == CellOf(t);
      }
    }
  }

  // ---- the whole pass ----

  function Bins(counts: seq<nat>, size: real): (bins: seq<BinCount>)
    ensures |bins| == |counts|
  {
    seq(|counts|, i requires 0 <= i < |counts| => BinCount(i as real * size, counts[i]))
  }

  function Counts(bins: seq<BinCount>): (counts: seq<nat>)
    ensures |counts| == |bins|
  {
    seq(|bins|, i requires 0 <= i < |bins| => bins[i].count)
  }

  ghost predicate IsStats(r: StatsResult, trips: seq<Trip>) {
    && |r.tripsByHour| == 24 && IsHistogram(r.tripsByHour, HourOf, trips)
    && |r.tripsByWeekday| == 7 && IsHistogram(r.tripsByWeekday, WeekdayOf, trips)
    && |r.durationHist| == DUR_BINS && IsHistogram(Counts(r.durationHist), DurationBin, trips)
    && (forall i :: 0 <= i < DUR_BINS ==> r.durationHist[i].binStart == i as real * 2.0)
    && |r.distanceHist| == DIST_BINS && IsHistogram(Counts(r.distanceHist), DistanceBin, trips)
    && (forall i :: 0 <= i < DIST_BINS ==> r.distanceHist[i].binStart == i as real * 1.0)
    && |r.speedByHour| == 24 && IsSpeeds(r.speedByHour, trips)
    && IsTop(r.topCells, trips)
  }

  /** Hours and weekdays index fixed arrays, so they have to be in range; durations
      and distances outside their histograms are passed over. */
  method Compute(trips: seq<Trip>) returns (r: StatsResult)
    requires forall t :: t in trips ==> 0 <= t.hourOfDay < 24 && 0 <= t.dayOfWeek < 7
    ensures IsStats(r, trips)
  {
    hide CountOf, Sum, IsTop, IsHistogram, IsSpeeds, IsCellMap, IsStats;
    var byHour := new nat[24](i => 0);
    var byWeekday := new nat[7](i => 0);
    var durations := new nat[DUR_BINS](i => 0);
    var distances := new nat[DIST_BINS](i => 0);
    var speeds := new AvgAccum[24](i => AvgAccum(0.0, 0));
    var cellMap: map<(int, int), nat> := map[];
    StartCounts(byHour[..], byWeekday[..], durations[..], distances[..], speeds[..], trips);
    for i := 0 to |trips|
      invariant IsHistogram(byHour[..], HourOf, trips[..i]) && IsHistogram(byWeekday[..], WeekdayOf, trips[..i])
      invariant IsHistogram(durations[..], DurationBin, trips[..i])
      invariant IsHistogram(distances[..], DistanceBin, trips[..i])
      invariant IsSpeeds(speeds[..], trips[..i]) && IsCellMap(cellMap, trips[..i])
    {
      Increment(byHour, HourOf, trips, i);
      Increment(byWeekday, WeekdayOf, trips, i);
      Increment(durations, DurationBin, trips, i);
      Increment(distances, DistanceBin, trips, i);
      AddSpeed(speeds, trips, i);
      cellMap := AddCell(cellMap, trips, i);
    }
    assert trips[..|trips|] == trips;
    var top := TopCells(cellMap, trips);
    r := StatsResult(byHour[..], byWeekday[..], Bins(durations[..], 2.0), Bins(distances[..], 1.0), speeds[..], top);
    BinnedStats(byHour[..], byWeekday[..], durations[..], distances[..], speeds[..], top, trips);
  }

  lemma BinnedStats(byHour: seq<nat>, byWeekday: seq<nat>, durations: seq<nat>, distances: seq<nat>,
                    speeds: seq<AvgAccum>, top: seq<CellCount>, trips: seq<Trip>)
    requires |byHour| == 24 && IsHistogram(byHour, HourOf, trips)
    requires |byWeekday| == 7 && IsHistogram(byWeekday, WeekdayOf, trips)
    requires |durations| == DUR_BINS && IsHistogram(durations, DurationBin, trips)
    requires |distances| == DIST_BINS && IsHistogram(distances, DistanceBin, trips)
    requires |speeds| == 24 && IsSpeeds(speeds, trips) && IsTop(top, trips)
    ensures IsStats(StatsResult(byHour, byWeekday, Bins(durations, 2.0), Bins(distances, 1.0), speeds, top), trips)
  {
    hide IsHistogram, IsSpeeds, IsTop;
    assert Counts(Bins(durations, 2.0)) == durations && Counts(Bins(distances, 1.0)) == distances;
  }

  lemma StartCounts(byHour: seq<nat>, byWeekday: seq<nat>, durations: seq<nat>, distances: seq<nat>,
                    speeds: seq<AvgAccum>, trips: seq<Trip>)
    requires forall k :: 0 <= k < |byHour| ==> byHour[k] == 0
    requires forall k :: 0 <= k < |byWeekday| ==> byWeekday[k] == 0
    requires forall k :: 0 <= k < |durations| ==> durations[k] == 0
    requires forall k :: 0 <= k < |distances| ==> distances[k] == 0
    requires forall k :: 0 <= k < |speeds| ==> speeds[k] == AvgAccum(0.0, 0)
    ensures IsHistogram(byHour, HourOf, trips[..0]) && IsHistogram(byWeekday, WeekdayOf, trips[..0])
    ensures IsHistogram(durations, DurationBin, trips[..0]) && IsHistogram(distances, DistanceBin, trips[..0])
    ensures IsSpeeds(speeds, trips[..0]) && IsCellMap(map[], trips[..0])
  {
    assert trips[..0] == [];
  }

  // ---- nothing is lost ----

  function CountsOf<K(==)>(key: Trip -> K, trips: seq<Trip>, keys: seq<K>): (counts: seq<nat>)
    ensures |counts| == |keys|
  {
    seq(|keys|, i requires 0 <= i < |keys| => CountOf(key, trips, keys[i]))
  }

  /** How many trips have none of the keys. */
  function Missed<K(==)>(key: Trip -> K, trips: seq<Trip>, keys: seq<K>): nat {
    if trips == [] then 0
    else Missed(key, trips[..|trips| - 1], keys) + if key(trips[|trips| - 1]) in keys then 0 else 1
  }

  /** Counts over distinct keys add up to the trips that have one of them. */
  lemma {:induction false} CountsAddUp<K>(key: Trip -> K, trips: seq<Trip>, keys: seq<K>)
    requires DistinctKeys(keys)
    ensures Total(CountsOf(key, trips, keys)) + Missed(key, trips, keys) == |trips|
  {
    hide Total;
    if trips == [] {
      AllZero(CountsOf(key, trips, keys));
    } else {
      var trips', k := trips[..|trips| - 1], key(trips[|trips| - 1]);
      CountsAddUp(key, trips', keys);
      var before := CountsOf(key, trips', keys);
      if i :| 0 <= i < |keys| && keys[i] == k {
        TotalUpdate(before, i, before[i] + 1);
        assert CountsOf(key, trips, keys) == before[i := before[i] + 1];
      } else {
        assert CountsOf(key, trips, keys) == before;
      }
    }
  }

  lemma {:induction false} NothingMissed<K>(key: Trip -> K, trips: seq<Trip>, keys: seq<K>)
    ensures Missed(key, trips, keys) == 0 <==> forall t :: t in trips ==> key(t) in keys
  {
    if trips != [] {
      var trips', last := trips[..|trips| - 1], trips[|trips| - 1];
      NothingMissed(key, trips', keys);
      assert trips == trips' + [last];
    }
  }

  lemma {:induction false} AllZero(counts: seq<nat>)
    requires forall i :: 0 <= i < |counts| ==> counts[i] == 0
    ensures Total(counts) == 0
  {
    if counts != [] {
      AllZero(counts[..|counts| - 1]);
    }
  }

  function Numbers(n: nat): (s: seq<int>)
    ensures |s| == n && forall i :: 0 <= i < n ==> s[i] == i
  {
    seq(n, i => i)
  }

  lemma HistogramIsLossless(counts: seq<nat>, key: Trip -> int, trips: seq<Trip>)
    requires IsHistogram(counts, key, trips)
    requires forall t :: t in trips ==> 0 <= key(t) < |counts|
    ensures Total(counts) == |trips|
  {
    var keys := Numbers(|counts|);
    forall t | t in trips ensures key(t) in keys {
      assert keys[key(t)] == key(t);
    }
    CountsAddUp(key, trips, keys);
    NothingMissed(key, trips, keys);
    assert counts == CountsOf(key, trips, keys);
  }

  /** A validated trip falls into the bins that its duration and distance lie in. */
  lemma BinsInRange(t: Trip)
    requires ValidTrip(t)
    ensures 0 <= DurationBin(t) < DUR_BINS && 0 <= DistanceBin(t) < DIST_BINS
    ensures DurationBin(t) as real * 2.0 <= t.durationMin < DurationBin(t) as real * 2.0 + 2.0
    ensures DistanceBin(t) as real * 1.0 <= t.tripDistance < DistanceBin(t) as real * 1.0 + 1.0
  {
    Halved(t.durationMin);
  }

  lemma Halved(x: real)
    ensures x / 2.0 * 2.0 == x
  {
  }

  lemma {:induction false} SameKeySameCount(f: Trip -> int, g: Trip -> int, trips: seq<Trip>, k: int)
    requires forall t :: t in trips ==> f(t) == g(t)
    ensures CountOf(f, trips, k) == CountOf(g, trips, k)
  {
    if trips != [] {
      assert trips[|trips| - 1] in trips;
      SameKeySameCount(f, g, trips[..|trips| - 1], k);
    }
  }

  /** Over validated trips no aggregate loses one: each histogram adds up to the number
      of trips, and every hour averages exactly its own trips. */
  lemma AggregatesAreLossless(r: StatsResult, trips: seq<Trip>)
    requires IsStats(r, trips) && forall t :: t in trips ==> ValidTrip(t)
    ensures Total(r.tripsByHour) == |trips| && Total(r.tripsByWeekday) == |trips|
    ensures Total(Counts(r.durationHist)) == |trips| && Total(Counts(r.distanceHist)) == |trips|
    ensures forall h :: 0 <= h < 24 ==> r.speedByHour[h].count == r.tripsByHour[h]
  {
    hide Total, IsTop;
    forall t | t in trips
      ensures 0 <= DurationBin(t) < DUR_BINS && 0 <= DistanceBin(t) < DIST_BINS && MovingHour(t) == HourOf(t)
    {
      BinsInRange(t);
    }
    HistogramIsLossless(r.tripsByHour, HourOf, trips);
    HistogramIsLossless(r.tripsByWeekday, WeekdayOf, trips);
    HistogramIsLossless(Counts(r.durationHist), DurationBin, trips);
    HistogramIsLossless(Counts(r.distanceHist), DistanceBin, trips);
    forall h | 0 <= h < 24 ensures r.speedByHour[h].count == r.tripsByHour[h] {
      SameKeySameCount(MovingHour, HourOf, trips, h);
    }
  }

  lemma {:induction false} SpeedSumBounds(trips: seq<Trip>, h: int)
    requires forall t :: t in trips ==> ValidTrip(t)
    ensures var n := CountOf(MovingHour, trips, h) as real;
            0.5 * n <= Sum(SpeedAt(h), trips) <= 80.0 * n
  {
    if trips != [] {
      var t := trips[|trips| - 1];
      assert t in trips;
      SpeedSumBounds(trips[..|trips| - 1], h);
      assert SpeedAt(h)(t) == if MovingHour(t) == h then Speed(t.tripDistance, t.durationMin) else 0.0;
    }
  }

  lemma QuotientBetween(s: real, n: real, lo: real, hi: real)
    requires 0.0 < n && lo * n <= s <= hi * n
    ensures lo <= s / n <= hi
  {
  }

  /** Every hour with trips has an average speed the validation rules allow. */
  lemma AverageSpeedsAreLegal(r: StatsResult, trips: seq<Trip>, h: nat)
    requires IsStats(r, trips) && (forall t :: t in trips ==> ValidTrip(t)) && h < 24
    requires 0 < r.tripsByHour[h]
    ensures 0.5 <= r.speedByHour[h].Avg() <= 80.0
  {
    hide Sum, CountOf, IsTop, Total;
    AggregatesAreLossless(r, trips);
    SpeedSumBounds(trips, h);
    QuotientBetween(r.speedByHour[h].sum, r.speedByHour[h].count as real, 0.5, 80.0);
  }

  function CellCounts(cells: seq<CellCount>): (counts: seq<nat>)
    ensures |counts| == |cells|
  {
    seq(|cells|, i requires 0 <= i < |cells| => cells[i].count)
  }

  /** The cells that have a trip in them. */
  function CellsOf(trips: seq<Trip>): set<(int, int)> {
    set t | t in trips :: CellOf(t)
  }

  lemma {:induction false} DistinctSize<K>(keys: seq<K>)
    requires DistinctKeys(keys)
    ensures |set k | k in keys| == |keys|
  {
    if keys != [] {
      var front, last := keys[..|keys| - 1], keys[|keys| - 1];
      DistinctSize(front);
      assert (set k | k in keys) == (set k | k in front) + {last};
    }
  }

  lemma SubsetOfSameSize<K>(a: set<K>, b: set<K>)
    requires a <= b && |b| <= |a|
    ensures a == b
  {
    assert b == a + (b - a) && |b| == |a| + |b - a|;
  }

  lemma SubsetIsSmaller<K>(a: set<K>, b: set<K>)
    requires a <= b
    ensures |a| <= |b|
  {
    assert b == a + (b - a);
  }

  lemma {:induction false} CountedCellHasTrip(trips: seq<Trip>, cell: (int, int))
    requires 0 < CountOf(CellOf, trips, cell)
    ensures cell in CellsOf(trips)
  {
    if cell !in CellsOf(trips) {
      forall t | t in trips ensures CellOf(t) != cell {
        assert CellOf(t) in CellsOf(trips);
      }
      AbsentCell(trips, cell);
    }
  }

  /** Nothing is cut exactly when there are at most 50 cells, 50 included. */
  lemma UncutMeansAllKept(top: seq<CellCount>, trips: seq<Trip>)
    requires IsTop(top, trips)
    ensures |CellsOf(trips)| <= TOP_N <==> forall t :: t in trips ==> CellOf(t) in Keys(top)
  {
    hide CountOf;
    var kept := set k | k in Keys(top);
    forall k | k in kept ensures k in CellsOf(trips) {
      var i :| 0 <= i < |top| && Keys(top)[i] == k;
      assert top[i] in top;
      CountedCellHasTrip(trips, k);
    }
    DistinctSize(Keys(top));
    if |top| == TOP_N && |CellsOf(trips)| <= TOP_N {
      SubsetOfSameSize(kept, CellsOf(trips));
    }
    if forall t :: t in trips ==> CellOf(t) in Keys(top) {
      assert CellsOf(trips) <= kept;
      SubsetIsSmaller(CellsOf(trips), kept);
    } else {
      var t :| t in trips && CellOf(t) !in Keys(top);
      assert CellOf(t) in CellsOf(trips);
    }
  }

  /** The kept cells together hold all trips exactly when there was nothing to cut. */
  lemma UncutCellsHoldAllTrips(top: seq<CellCount>, trips: seq<Trip>)
    requires IsTop(top, trips)
    ensures Total(CellCounts(top)) == |trips| <==> |CellsOf(trips)| <= TOP_N
  {
    hide CountOf, Total;
    UncutMeansAllKept(top, trips);
    CountsAddUp(CellOf, trips, Keys(top));
    NothingMissed(CellOf, trips, Keys(top));
    assert CellCounts(top) == CountsOf(CellOf, trips, Keys(top)) by {
      assert forall i :: 0 <= i < |top| ==> top[i] in top;
    }
  }

  // ---- what the aggregates count, without their keys ----

  /** Where the trips with key k stand. */
  function Positions<K(==)>(key: Trip -> K, trips: seq<Trip>, k: K): set<int> {
    set i | 0 <= i < |trips| && key(trips[i]) == k
  }

  lemma {:induction false} CountIsCardinality<K>(key: Trip -> K, trips: seq<Trip>, k: K)
    ensures CountOf(key, trips, k) == |Positions(key, trips, k)|
  {
    if trips != [] {
      var front, last := trips[..|trips| - 1], |trips| - 1;
      CountIsCardinality(key, front, k);
      assert Positions(key, trips, k) == Positions(key, front, k) + if key(trips[last]) == k then {last} else {};
    }
  }

  /** The hour and weekday counts are the numbers of trips with that hour or weekday. */
  lemma HoursAndWeekdays(r: StatsResult, trips: seq<Trip>)
    requires IsStats(r, trips)
    ensures |r.tripsByHour| == 24 && |r.tripsByWeekday| == 7
    ensures forall h :: 0 <= h < 24 ==>
              r.tripsByHour[h] == |set i | 0 <= i < |trips| && trips[i].hourOfDay == h|
    ensures forall d :: 0 <= d < 7 ==>
              r.tripsByWeekday[d] == |set i | 0 <= i < |trips| && trips[i].dayOfWeek == d|
  {
    hide CountOf, IsTop, IsSpeeds;
    forall h | 0 <= h < 24 ensures r.tripsByHour[h] == |set i | 0 <= i < |trips| && trips[i].hourOfDay == h| {
      CountIsCardinality(HourOf, trips, h);
      assert Positions(HourOf, trips, h)
          == (set i | 0 <= i < |trips| && trips[i].hourOfDay == h);
    }
    forall d | 0 <= d < 7 ensures r.tripsByWeekday[d] == |set i | 0 <= i < |trips| && trips[i].dayOfWeek == d| {
      CountIsCardinality(WeekdayOf, trips, d);
      assert Positions(WeekdayOf, trips, d)
          == (set i | 0 <= i < |trips| && trips[i].dayOfWeek == d);
    }
  }

  /** x lies in bin b of a histogram with bins of this size; the conversion to an integer
      goes towards zero, so bin 0 reaches below zero. */
  predicate InBin(x: real, b: int, size: real) {
    (if b == 0 then -size else b as real * size) < x < (b + 1) as real * size || (0 < b && x == b as real * size)
  }

  lemma BinOf(x: real, b: nat)
    ensures Trunc(x / 2.0) == b <==> InBin(x, b, 2.0)
    ensures Trunc(x / 1.0) == b <==> InBin(x, b, 1.0)
  {
    Halved(x);
  }

  /** Each histogram bin holds the number of trips whose duration or distance lies in it:
      91 bins of two minutes and 101 of a mile. */
  lemma HistogramBins(r: StatsResult, trips: seq<Trip>)
    requires IsStats(r, trips)
    ensures |r.durationHist| == 91 && |r.distanceHist| == 101
    ensures forall b :: 0 <= b < 91 ==>
              && r.durationHist[b].binStart == 2.0 * b as real
              && r.durationHist[b].count == |set i | 0 <= i < |trips| && InBin(trips[i].durationMin, b, 2.0)|
    ensures forall b :: 0 <= b < 101 ==>
              && r.distanceHist[b].binStart == b as real
              && r.distanceHist[b].count == |set i | 0 <= i < |trips| && InBin(trips[i].tripDistance, b, 1.0)|
  {
    hide CountOf, IsTop, IsSpeeds, Trunc, InBin;
    forall b | 0 <= b < 91
      ensures r.durationHist[b].count == |set i | 0 <= i < |trips| && InBin(trips[i].durationMin, b, 2.0)|
    {
      assert Counts(r.durationHist)[b] == r.durationHist[b].count;
      CountIsCardinality(DurationBin, trips, b);
      forall i | 0 <= i < |trips| ensures DurationBin(trips[i]) == b <==> InBin(trips[i].durationMin, b, 2.0) {
        BinOf(trips[i].durationMin, b);
      }
      assert Positions(DurationBin, trips, b)
          == (set i | 0 <= i < |trips| && InBin(trips[i].durationMin, b, 2.0));
    }
    forall b | 0 <= b < 101
      ensures r.distanceHist[b].count == |set i | 0 <= i < |trips| && InBin(trips[i].tripDistance, b, 1.0)|
    {
      assert Counts(r.distanceHist)[b] == r.distanceHist[b].count;
      CountIsCardinality(DistanceBin, trips, b);
      forall i | 0 <= i < |trips| ensures DistanceBin(trips[i]) == b <==> InBin(trips[i].tripDistance, b, 1.0) {
        BinOf(trips[i].tripDistance, b);
      }
      assert Positions(DistanceBin, trips, b)
          == (set i | 0 <= i < |trips| && InBin(trips[i].tripDistance, b, 1.0));
    }
  }

  /** Towards zero: the integer is between zero and x, less than one from x. */
  predicate TowardsZero(x: real, i: int) {
    if 0.0 <= x then i as real <= x < i as real + 1.0 else i as real - 1.0 < x <= i as real
  }

  /** A cell is a hundredth of a degree each way, with its corner nearest to zero. */
  predicate InCell(t: Trip, latCell: int, lonCell: int) {
    TowardsZero(100.0 * t.pickupLat, latCell) && TowardsZero(100.0 * t.pickupLon, lonCell)
  }

  lemma CellIs(t: Trip, latCell: int, lonCell: int)
    ensures CellOf(t) == (latCell, lonCell) <==> InCell(t, latCell, lonCell)
  {
  }

  /** The count of a kept cell is the number of trips that start in it, and as many cells
      are kept as there are, up to 50. */
  lemma TopCellsCountTrips(top: seq<CellCount>, trips: seq<Trip>)
    requires IsTop(top, trips)
    ensures forall c :: c in top ==>
              c.count == |set i | 0 <= i < |trips| && InCell(trips[i], c.latCell, c.lonCell)|
    ensures |top| == if |CellsOf(trips)| <= 50 then |CellsOf(trips)| else 50
  {
    hide CountOf, InCell;
    forall c | c in top ensures c.count == |set i | 0 <= i < |trips| && InCell(trips[i], c.latCell, c.lonCell)| {
      CountIsCardinality(CellOf, trips, Key(c));
      forall i | 0 <= i < |trips| ensures CellOf(trips[i]) == Key(c) <==> InCell(trips[i], c.latCell, c.lonCell) {
        CellIs(trips[i], c.latCell, c.lonCell);
      }
      assert Positions(CellOf, trips, Key(c))
          == (set i | 0 <= i < |trips| && InCell(trips[i], c.latCell, c.lonCell));
    }
    KeptCells(top, trips);
  }

  lemma KeptCells(top: seq<CellCount>, trips: seq<Trip>)
    requires IsTop(top, trips)
    ensures |top| == if |CellsOf(trips)| <= 50 then |CellsOf(trips)| else 50
  {
    hide CountOf;
    var kept := set k | k in Keys(top);
    forall k | k in kept ensures k in CellsOf(trips) {
      var i :| 0 <= i < |top| && Keys(top)[i] == k;
      assert top[i] in top;
      CountedCellHasTrip(trips, k);
    }
    DistinctSize(Keys(top));
    UncutMeansAllKept(top, trips);
    SubsetIsSmaller(kept, CellsOf(trips));
    if |CellsOf(trips)| <= 50 {
      SubsetIsSmaller(CellsOf(trips), kept);
    }
  }

  /** The speed of an hour is the mean over its trips: `speed` is any function that is
      miles per hour on the trips that take time, and 0 on those of other hours. */
  lemma SpeedsAreMeans(r: StatsResult, trips: seq<Trip>, h: nat, speed: Trip -> real)
    requires IsStats(r, trips) && h < 24
    requires forall t :: t in trips ==>
               if t.hourOfDay == h && t.durationMin > 0.0 then speed(t) * t.durationMin == 60.0 * t.tripDistance
               else speed(t) == 0.0
    ensures |r.speedByHour| == 24
    ensures r.speedByHour[h].count == |set i | 0 <= i < |trips| && trips[i].hourOfDay == h && trips[i].durationMin > 0.0|
    ensures r.speedByHour[h].Avg() * r.speedByHour[h].count as real == Sum(speed, trips)
  {
    hide CountOf, IsTop, Sum, IsHistogram;
    forall t | t in trips ensures SpeedAt(h)(t) == speed(t) {
      if t.hourOfDay == h && t.durationMin > 0.0 {
        SpeedOf(t.tripDistance, t.durationMin, speed(t));
      }
    }
    SumCong(SpeedAt(h), speed, trips);
    CountIsCardinality(MovingHour, trips, h);
    assert Positions(MovingHour, trips, h)
          == (set i | 0 <= i < |trips| && trips[i].hourOfDay == h && trips[i].durationMin > 0.0);
    if r.speedByHour[h].count == 0 {
      NoSpeeds(trips, h);
    } else {
      WholeShare(r.speedByHour[h].sum, r.speedByHour[h].count as real);
    }
  }

  lemma {:induction false} NoSpeeds(trips: seq<Trip>, h: int)
    requires 0 <= h && CountOf(MovingHour, trips, h) == 0
    ensures Sum(SpeedAt(h), trips) == 0.0
  {
    if trips != [] {
      NoSpeeds(trips[..|trips| - 1], h);
    }
  }
}
