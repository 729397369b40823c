/** src/App.tsx: the logged-in dashboard. It picks the readings near the user,
    smooths them into a trend line, labels TDS values, and raises alerts after
    the area analysis. Geolocation, the distance formula, date handling and
    the model call are parameters. */
module App {
  import opened Wrappers
  import Text
  import Sorting
  import IndiaData
  import GeminiService

  type WaterPoint = IndiaData.WaterPoint

  /** `getDistance(lat1, lon1, lat2, lon2)` in km (haversine, not modelled). */
  type Distance = (real, real, real, real) -> real

  datatype Position = Position(latitude: real, longitude: real)

  /** The number of readings the local view keeps. */
  const RegionSize: nat := 50

  function Min(a: int, b: int): int { if a <= b then a else b }

  // ---------------------------------------------------------------------
  // Locality selection (initializeLocation)
  // ---------------------------------------------------------------------

  /** The sort key of the located view: distance from the user to a reading. */
  function DistanceFrom(pos: Position, distance: Distance): WaterPoint -> real {
    (p: WaterPoint) => distance(pos.latitude, pos.longitude, p.lat, p.lng)
  }

  /** `sorted.slice(0, 50)` after sorting a copy of the corpus by distance from
      the user, then sorted by `timeOf` (`new Date(timestamp).getTime()`). */
  function NearestRegion(pos: Position, corpus: seq<WaterPoint>, distance: Distance,
                         timeOf: WaterPoint -> real): seq<WaterPoint>
  {
    var byDistance := Sorting.SortBy(corpus, DistanceFrom(pos, distance));
    Sorting.SortBy(byDistance[..Min(RegionSize, |corpus|)], timeOf)
  }

  /** `[...waterData].slice(0, 50)` sorted by time: used when the position is
      denied or geolocation is missing. */
  function FallbackRegion(corpus: seq<WaterPoint>, timeOf: WaterPoint -> real): seq<WaterPoint>
  {
    Sorting.SortBy(corpus[..Min(RegionSize, |corpus|)], timeOf)
  }

  function LocalRegion(position: Option<Position>, corpus: seq<WaterPoint>, distance: Distance,
                       timeOf: WaterPoint -> real): seq<WaterPoint>
  {
    match position
    case None => FallbackRegion(corpus, timeOf)
    case Some(pos) => NearestRegion(pos, corpus, distance, timeOf)
  }

  /** The located view holds min(50, |corpus|) readings of the corpus in time
      order, and none of the readings left out is closer to the user than a
      reading kept. */
  lemma NearestRegionProperties(pos: Position, corpus: seq<WaterPoint>, distance: Distance,
                                timeOf: WaterPoint -> real)
    ensures |NearestRegion(pos, corpus, distance, timeOf)| == Min(RegionSize, |corpus|)
    ensures Sorting.SortedBy(NearestRegion(pos, corpus, distance, timeOf), timeOf)
    ensures multiset(NearestRegion(pos, corpus, distance, timeOf)) <= multiset(corpus)
    ensures forall x, y :: x in NearestRegion(pos, corpus, distance, timeOf) &&
                           y in multiset(corpus) - multiset(NearestRegion(pos, corpus, distance, timeOf)) ==>
              DistanceFrom(pos, distance)(x) <= DistanceFrom(pos, distance)(y)
  {
    var key := DistanceFrom(pos, distance);
    var byDistance := Sorting.SortBy(corpus, key);
    var prefix := byDistance[..Min(RegionSize, |corpus|)];
    var region := Sorting.SortBy(prefix, timeOf);
    assert region == NearestRegion(pos, corpus, distance, timeOf);
    Sorting.PrefixIsSmallest(byDistance, key, |prefix|);
    forall x, y | x in region && y in multiset(corpus) - multiset(region)
      ensures key(x) <= key(y)
    {
      assert x in multiset(prefix);
    }
  }

  /** The fallback view is exactly the first min(50, |corpus|) corpus readings,
      in time order. */
  lemma FallbackRegionProperties(corpus: seq<WaterPoint>, timeOf: WaterPoint -> real)
    ensures var region := FallbackRegion(corpus, timeOf);
      && |region| == Min(RegionSize, |corpus|)
      && Sorting.SortedBy(region, timeOf)
      && multiset(region) == multiset(corpus[..Min(RegionSize, |corpus|)])
  {
  }

  // ---------------------------------------------------------------------
  // Trend smoothing (smoothData)
  // ---------------------------------------------------------------------

  /** The default `windowSize`. */
  const DefaultWindow: nat := 5

  /** A trend point: the reading with `smoothed_tds` and `timeLabel` added. */
  datatype TrendPoint = TrendPoint(point: WaterPoint, smoothedTds: int, timeLabel: string)

  /** Sum of `tds` over a sequence of readings. */
  function SumTds(s: seq<WaterPoint>): real {
    if |s| == 0 then 0.0 else SumTds(s[..|s| - 1]) + s[|s| - 1].tds
  }

  /** `Math.round(x)`: halves round up. */
  function Round(x: real): int {
    (x + 0.5).Floor
  }

  /** `Math.max(0, i - windowSize + 1)`: the first index of the window ending at `i`. */
  function WindowStart(i: nat, windowSize: nat): nat {
    if i + 1 >= windowSize then i + 1 - windowSize else 0
  }

  /** Mean tds of the readings `data[WindowStart(i, w) .. i]`. */
  function WindowMean(data: seq<WaterPoint>, i: nat, windowSize: nat): real
    requires i < |data| && windowSize >= 1
  {
    var lo := WindowStart(i, windowSize);
    SumTds(data[lo..i + 1]) / ((i + 1 - lo) as real)
  }

  /** The `smoothed_tds` of reading `i`. */
  function Smoothed(data: seq<WaterPoint>, i: nat, windowSize: nat): int
    requires i < |data| && windowSize >= 1
  {
    Round(WindowMean(data, i, windowSize))
  }

  /** `result` is `data` with each reading extended by its smoothed value and
      time label, one point per reading, in order. */
  ghost predicate IsTrend(result: seq<TrendPoint>, data: seq<WaterPoint>, windowSize: nat,
                          timeLabel: WaterPoint -> string)
    requires windowSize >= 1
  {
    && |result| == |data|
    && forall i :: 0 <= i < |data| ==>
         result[i] == TrendPoint(data[i], Smoothed(data, i, windowSize), timeLabel(data[i]))
  }

  /** `smoothData(data, windowSize)`: a trailing moving average computed with
      a running sum over each window. `timeLabel` stands for the locale time
      of the reading's timestamp. */
  method SmoothData(data: seq<WaterPoint>, windowSize: nat, timeLabel: WaterPoint -> string)
    returns (result: seq<TrendPoint>)
    requires windowSize >= 1
    ensures IsTrend(result, data, windowSize, timeLabel)
  {
    result := [];
    for i := 0 to |data|
      invariant |result| == i
      invariant forall k :: 0 <= k < i ==>
        result[k] == TrendPoint(data[k], Smoothed(data, k, windowSize), timeLabel(data[k]))
    {
      var sum := 0.0;
      var count := 0;
      var j := if i - windowSize + 1 > 0 then i - windowSize + 1 else 0;
      ghost var lo := j;
      assert lo == WindowStart(i, windowSize);
      while j <= i
        invariant lo <= j <= i + 1
        invariant sum == SumTds(data[lo..j])
        invariant count == j - lo
      {
        SumTdsExtend(data, lo, j);
        sum := sum + data[j].tds;
        count := count + 1;
        j := j + 1;
      }
      assert j == i + 1;
      assert sum / (count as real) == WindowMean(data, i, windowSize);
      var point := TrendPoint(data[i], Round(sum / (count as real)), timeLabel(data[i]));
      assert point == TrendPoint(data[i], Smoothed(data, i, windowSize), timeLabel(data[i]));
      result := result + [point];
    }
  }

  /** Extending a slice by one reading adds that reading's tds to the sum. */
  lemma SumTdsExtend(data: seq<WaterPoint>, lo: nat, j: nat)
    requires lo <= j < |data|
    ensures SumTds(data[lo..j + 1]) == SumTds(data[lo..j]) + data[j].tds
  {
    assert data[lo..j + 1][..j - lo] == data[lo..j];
  }

  /** The first point averages over itself alone. */
  lemma SmoothedFirst(data: seq<WaterPoint>, windowSize: nat)
    requires |data| > 0 && windowSize >= 1
    ensures Smoothed(data, 0, windowSize) == Round(data[0].tds)
  {
    assert WindowStart(0, windowSize) == 0;
    SumTdsExtend(data, 0, 0);
    assert data[0..0] == [];
    assert SumTds(data[0..1]) == data[0].tds;
    assert WindowMean(data, 0, windowSize) == data[0].tds / 1.0;
  }

  /** Causality: the value at `i` depends only on readings up to `i`. */
  lemma SmoothedCausal(a: seq<WaterPoint>, b: seq<WaterPoint>, i: nat, windowSize: nat)
    requires i < |a| && i < |b| && windowSize >= 1
    requires forall k :: 0 <= k <= i ==> a[k].tds == b[k].tds
    ensures Smoothed(a, i, windowSize) == Smoothed(b, i, windowSize)
  {
    var lo := WindowStart(i, windowSize);
    SumTdsSameTds(a[lo..i + 1], b[lo..i + 1]);
  }

  lemma {:induction false} SumTdsSameTds(s: seq<WaterPoint>, t: seq<WaterPoint>)
    requires |s| == |t|
    requires forall k :: 0 <= k < |s| ==> s[k].tds == t[k].tds
    ensures SumTds(s) == SumTds(t)
  {
    if |s| > 0 {
      SumTdsSameTds(s[..|s| - 1], t[..|t| - 1]);
    }
  }

  /** A sum of readings in [lo, hi] lies between n * lo and n * hi. */
  lemma {:induction false} SumTdsBounds(s: seq<WaterPoint>, lo: real, hi: real)
    requires forall k :: 0 <= k < |s| ==> lo <= s[k].tds <= hi
    ensures (|s| as real) * lo <= SumTds(s) <= (|s| as real) * hi
  {
    if |s| > 0 {
      SumTdsBounds(s[..|s| - 1], lo, hi);
    }
  }

  /** A total between n * lo and n * hi has its mean between lo and hi. */
  lemma MeanBounds(total: real, n: real, lo: real, hi: real)
    requires n > 0.0 && n * lo <= total <= n * hi
    ensures lo <= total / n <= hi
  {
    assert (total / n) * n == total;
  }

  lemma RoundMonotone(x: real, y: real)
    requires x <= y
    ensures Round(x) <= Round(y)
  {
  }

  /** Readings within [lo, hi] smooth to values between Round(lo) and
      Round(hi). */
  lemma SmoothedBounds(data: seq<WaterPoint>, i: nat, windowSize: nat, lo: real, hi: real)
    requires i < |data| && windowSize >= 1
    requires forall k :: 0 <= k < |data| ==> lo <= data[k].tds <= hi
    ensures Round(lo) <= Smoothed(data, i, windowSize) <= Round(hi)
  {
    var start := WindowStart(i, windowSize);
    var w := data[start..i + 1];
    var n := (i + 1 - start) as real;
    SumTdsBounds(w, lo, hi);
    var mean := SumTds(w) / n;
    MeanBounds(SumTds(w), n, lo, hi);
    RoundMonotone(lo, mean);
    RoundMonotone(mean, hi);
  }

  /** A sum of non-negative readings is non-negative. */
  lemma {:induction false} SumTdsNonNegative(s: seq<WaterPoint>)
    requires forall k :: 0 <= k < |s| ==> 0.0 <= s[k].tds
    ensures 0.0 <= SumTds(s)
  {
    if |s| > 0 {
      SumTdsNonNegative(s[..|s| - 1]);
    }
  }

  /** Non-negative readings never smooth below 0, whatever their size. */
  lemma SmoothedNonNegative(data: seq<WaterPoint>, i: nat, windowSize: nat)
    requires i < |data| && windowSize >= 1
    requires forall k :: 0 <= k < |data| ==> 0.0 <= data[k].tds
    ensures 0 <= Smoothed(data, i, windowSize)
  {
    var start := WindowStart(i, windowSize);
    var w := data[start..i + 1];
    SumTdsNonNegative(w);
    MeanBounds(SumTds(w), (i + 1 - start) as real, 0.0, SumTds(w));
  }

  /** The worked example: readings 100..500 give 100 at index 0 and 300 at
      index 4 with the default window. */
  lemma SmoothedExample(data: seq<WaterPoint>)
    requires |data| == 5
    requires data[0].tds == 100.0 && data[1].tds == 200.0 && data[2].tds == 300.0
    requires data[3].tds == 400.0 && data[4].tds == 500.0
    ensures Smoothed(data, 0, DefaultWindow) == 100
    ensures Smoothed(data, 4, DefaultWindow) == 300
  {
    SmoothedFirst(data, DefaultWindow);
    assert data[0..0] == [];
    SumTdsExtend(data, 0, 0);
    SumTdsExtend(data, 0, 1);
    SumTdsExtend(data, 0, 2);
    SumTdsExtend(data, 0, 3);
    SumTdsExtend(data, 0, 4);
    assert WindowStart(4, DefaultWindow) == 0;
    assert WindowMean(data, 4, DefaultWindow) == 1500.0 / 5.0;
  }

  // ---------------------------------------------------------------------
  // Status labels (getStatusInfo, the heatmap status rule)
  // ---------------------------------------------------------------------

  /** The `label` of `getStatusInfo`: 'Safe', 'Moderate', 'High Risk', 'Unsafe'. */
  datatype StatusLabel = Safe | Moderate | HighRisk | Unsafe {
    function Rank(): nat {
      match this
      case Safe => 0
      case Moderate => 1
      case HighRisk => 2
      case Unsafe => 3
    }
  }

  /** The CSS classes and label `getStatusInfo` returns. */
  datatype StatusInfo = StatusInfo(color: string, bg: string, border: string, glow: string, tier: StatusLabel)

  /** `getStatusInfo(tds)`: upper bounds 150, 300, 500 inclusive. */
  function GetStatusInfo(tds: real): (r: StatusInfo)
    ensures r.tier == Safe <==> tds <= 150.0
    ensures r.tier == Moderate <==> 150.0 < tds <= 300.0
    ensures r.tier == HighRisk <==> 300.0 < tds <= 500.0
    ensures r.tier == Unsafe <==> 500.0 < tds
  {
    if tds <= 150.0 then StatusInfo("text-safe", "bg-safe/10", "border-safe/20", "bg-safe", Safe)
    else if tds <= 300.0 then StatusInfo("text-risk", "bg-risk/10", "border-risk/20", "bg-risk", Moderate)
    else if tds <= 500.0 then StatusInfo("text-warning", "bg-warning/10", "border-warning/20", "bg-warning", HighRisk)
    else StatusInfo("text-unsafe", "bg-unsafe/10", "border-unsafe/20", "bg-unsafe", Unsafe)
  }

  lemma GetStatusInfoMonotone(a: real, b: real)
    requires a <= b
    ensures GetStatusInfo(a).tier.Rank() <= GetStatusInfo(b).tier.Rank()
  {
  }

  /** The status of a dummy heatmap sector. */
  datatype SectorStatus = SafeSector | RiskSector | WarningSector | UnsafeSector

  /** `if (tds > 500) 'unsafe' else if (tds > 300) 'warning' else if (tds > 150) 'risk' else 'safe'`. */
  function HeatmapStatus(tds: int): SectorStatus {
    if tds > 500 then UnsafeSector
    else if tds > 300 then WarningSector
    else if tds > 150 then RiskSector
    else SafeSector
  }

  /** The sector rule and `getStatusInfo` draw the same three lines: each
      sector status goes with exactly one label. */
  lemma HeatmapStatusAgrees(tds: int)
    ensures HeatmapStatus(tds) == SafeSector <==> GetStatusInfo(tds as real).tier == Safe
    ensures HeatmapStatus(tds) == RiskSector <==> GetStatusInfo(tds as real).tier == Moderate
    ensures HeatmapStatus(tds) == WarningSector <==> GetStatusInfo(tds as real).tier == HighRisk
    ensures HeatmapStatus(tds) == UnsafeSector <==> GetStatusInfo(tds as real).tier == Unsafe
  {
  }

  datatype Sector = Sector(id: nat, name: string, status: SectorStatus, tds: int)

  /** Dummy sector `i` for the draw `u`: tds `Math.floor(u * 800) + 100`. */
  function DummySector(i: nat, u: real): (s: Sector)
    requires 0.0 <= u < 1.0
    ensures 100 <= s.tds < 900
    ensures s.status == HeatmapStatus(s.tds)
    ensures s.id == i && s.name == "Sector " + Text.DecimalString(i + 1)
  {
    assert u * 800.0 < 800.0;
    var tds := (u * 800.0).Floor + 100;
    Sector(i, "Sector " + Text.DecimalString(i + 1), HeatmapStatus(tds), tds)
  }

  // ---------------------------------------------------------------------
  // Sensor feed and the displayed values
  // ---------------------------------------------------------------------

  /** `{ tds_value, lat, lng }`. */
  datatype SensorReading = SensorReading(tdsValue: real, lat: real, lng: real)

  /** `(localPoints || waterData.slice(0, 10)).map(...)`: an empty array is
      truthy, so only a missing argument selects the first ten corpus points. */
  function SensorFeed(localPoints: Option<seq<WaterPoint>>, corpus: seq<WaterPoint>): (feed: seq<SensorReading>)
    ensures var source := if localPoints.Some? then localPoints.value else corpus[..Min(10, |corpus|)];
      && |feed| == |source|
      && forall i :: 0 <= i < |source| ==> feed[i] == SensorReading(source[i].tds, source[i].lat, source[i].lng)
  {
    var source := if localPoints.Some? then localPoints.value else corpus[..Min(10, |corpus|)];
    seq(|source|, i requires 0 <= i < |source| => SensorReading(source[i].tds, source[i].lat, source[i].lng))
  }

  /** `sensorData[0]?.tds_value || 0`. */
  function CurrentTds(sensorData: seq<SensorReading>): (t: real)
    ensures |sensorData| == 0 ==> t == 0.0
    ensures |sensorData| > 0 ==> t == sensorData[0].tdsValue
  {
    if |sensorData| == 0 then 0.0 else sensorData[0].tdsValue
  }

  /** `Math.max(50, currentTDS - 100)`: the in-house estimate. */
  function HouseTds(current: real): (h: real)
    ensures h >= 50.0
    ensures current >= 150.0 ==> h == current - 100.0
    ensures current <= 150.0 ==> h == 50.0
  {
    if 50.0 >= current - 100.0 then 50.0 else current - 100.0
  }

  /** The house estimate is never labelled more severe than the area reading. */
  lemma HouseNeverWorse(current: real)
    ensures GetStatusInfo(HouseTds(current)).tier.Rank() <= GetStatusInfo(current).tier.Rank()
  {
    if current > 150.0 {
      GetStatusInfoMonotone(HouseTds(current), current);
    }
  }

  // ---------------------------------------------------------------------
  // Session state: data refresh and alerts
  // ---------------------------------------------------------------------

  datatype NoticeKind = Warning | Info

  datatype Notification = Notification(message: string, kind: NoticeKind)

  /** The score strings that raise a notification. */
  predicate RaisesAlarm(score: string) {
    score == "Unsafe" || score == "Risk"
  }

  /** `Area Scan: ${score} water detected locally.` */
  function AreaScanNotice(score: string): Notification {
    Notification("Area Scan: " + score + " water detected locally.", Warning)
  }

  const ContaminationNotice: Notification :=
    Notification("Alert: A high contamination area has been identified near your active sector.", Warning)

  /** The analysis `fetchData` obtains: none without sensor data or when the
      model call fails (the error is only logged). */
  function AreaAnalysis(sensorData: seq<SensorReading>, reports: seq<GeminiService.CommunityReport>,
                        model: (real, string) -> GeminiService.ModelResponse,
                        parse: string -> Option<GeminiService.WaterAnalysis>): (a: Option<GeminiService.WaterAnalysis>)
    ensures a.None? <==>
      |sensorData| == 0 || model(sensorData[0].tdsValue, GeminiService.ReportsClause(reports)).CallFailed?
    ensures a.Some? ==>
      Success(a.value) == GeminiService.AnalyzeWaterQuality(sensorData[0].tdsValue, reports, model, parse)
  {
    if |sensorData| == 0 then None
    else match GeminiService.AnalyzeWaterQuality(sensorData[0].tdsValue, reports, model, parse)
      case Success(analysis) => Some(analysis)
      case Failure(_) => None
  }

  /** The 30-second refresh calls `fetchData(graphData)` with the graph data
      captured when the user logged in. On the first login after the page
      loads that is the empty array; an empty array is truthy, so the feed it
      installs is empty, the displayed value drops to 0 and no analysis is
      run. (After a logout and a new login it is the previous session's
      trend, whose region is fetched again.) */
  lemma StaleRefreshEmptiesFeed(corpus: seq<WaterPoint>, reports: seq<GeminiService.CommunityReport>,
                                model: (real, string) -> GeminiService.ModelResponse,
                                parse: string -> Option<GeminiService.WaterAnalysis>)
    ensures SensorFeed(Some([]), corpus) == []
    ensures CurrentTds(SensorFeed(Some([]), corpus)) == 0.0
    ensures AreaAnalysis(SensorFeed(Some([]), corpus), reports, model, parse).None?
  {
  }

  /** The dashboard's state after login. */
  class Session {
    var sensorData: seq<SensorReading>
    var reports: seq<GeminiService.CommunityReport>
    var analysis: Option<GeminiService.WaterAnalysis>
    var loading: bool
    var notification: Option<Notification>
    var showAlerts: bool
    var showCriticalModal: bool
    var graphData: seq<TrendPoint>

    constructor ()
      ensures sensorData == [] && reports == [] && analysis == None && loading
      ensures notification == None && !showAlerts && !showCriticalModal && graphData == []
    {
      sensorData, reports, analysis, loading := [], [], None, true;
      notification, showAlerts, showCriticalModal, graphData := None, false, false, [];
    }

    /** What an area analysis changes: the analysis is stored; a Risk or
        Unsafe score sets a warning unless one is already showing; an Unsafe
        score opens the critical modal. */
    method ApplyAreaAnalysis(a: GeminiService.WaterAnalysis)
      modifies this
      ensures analysis == Some(a)
      ensures notification ==
        if old(notification).None? && RaisesAlarm(a.score) then Some(AreaScanNotice(a.score)) else old(notification)
      ensures showCriticalModal == (old(showCriticalModal) || a.score == "Unsafe")
      ensures old(notification).Some? ==> notification == old(notification)
      ensures notification != old(notification) ==> RaisesAlarm(a.score)
      ensures showCriticalModal != old(showCriticalModal) ==> a.score == "Unsafe"
      ensures sensorData == old(sensorData) && reports == old(reports) && loading == old(loading)
      ensures showAlerts == old(showAlerts) && graphData == old(graphData)
    {
      analysis := Some(a);
      if RaisesAlarm(a.score) {
        if notification.None? {
          notification := Some(AreaScanNotice(a.score));
        }
        if a.score == "Unsafe" {
          showCriticalModal := true;
        }
      }
    }

    /** `fetchData(localPoints)`: refreshes the sensor feed and the reports
        (`fetchedReports` is `None` when the request fails, leaving []), then
        runs the area analysis on the first reading. */
    method FetchData(localPoints: Option<seq<WaterPoint>>, corpus: seq<WaterPoint>,
                     fetchedReports: Option<seq<GeminiService.CommunityReport>>,
                     model: (real, string) -> GeminiService.ModelResponse,
                     parse: string -> Option<GeminiService.WaterAnalysis>)
      modifies this
      ensures sensorData == SensorFeed(localPoints, corpus)
      ensures reports == if fetchedReports.Some? then fetchedReports.value else []
      ensures !loading
      ensures showAlerts == old(showAlerts) && graphData == old(graphData)
      ensures AreaAnalysis(sensorData, reports, model, parse).None? ==>
        analysis == old(analysis) && notification == old(notification) &&
        showCriticalModal == old(showCriticalModal)
      ensures AreaAnalysis(sensorData, reports, model, parse).Some? ==>
        var a := AreaAnalysis(sensorData, reports, model, parse).value;
        && analysis == Some(a)
        && notification == (if old(notification).None? && RaisesAlarm(a.score) then Some(AreaScanNotice(a.score)) else old(notification))
        && showCriticalModal == (old(showCriticalModal) || a.score == "Unsafe")
    {
      loading := true;
      var sData := SensorFeed(localPoints, corpus);
      var rData := if fetchedReports.Some? then fetchedReports.value else [];
      sensorData := sData;
      reports := rData;
      if |sData| > 0 {
        var result := GeminiService.AnalyzeWaterQuality(sData[0].tdsValue, rData, model, parse);
        if result.Success? {
          ApplyAreaAnalysis(result.value);
        }
      }
      loading := false;
    }

    /** `initializeLocation()`: choose the local region (by position, or the
        fallback when there is none), draw its trend, and fetch for it. */
    method InitializeLocation(position: Option<Position>, corpus: seq<WaterPoint>, distance: Distance,
                              timeOf: WaterPoint -> real, timeLabel: WaterPoint -> string,
                              fetchedReports: Option<seq<GeminiService.CommunityReport>>,
                              model: (real, string) -> GeminiService.ModelResponse,
                              parse: string -> Option<GeminiService.WaterAnalysis>)
      modifies this
      ensures IsTrend(graphData, LocalRegion(position, corpus, distance, timeOf), DefaultWindow, timeLabel)
      ensures sensorData == SensorFeed(Some(LocalRegion(position, corpus, distance, timeOf)), corpus)
      ensures reports == if fetchedReports.Some? then fetchedReports.value else []
      ensures !loading
      ensures showAlerts == old(showAlerts)
      ensures AreaAnalysis(sensorData, reports, model, parse).None? ==>
        analysis == old(analysis) && notification == old(notification) &&
        showCriticalModal == old(showCriticalModal)
      ensures AreaAnalysis(sensorData, reports, model, parse).Some? ==>
        var a := AreaAnalysis(sensorData, reports, model, parse).value;
        && analysis == Some(a)
        && notification == (if old(notification).None? && RaisesAlarm(a.score) then Some(AreaScanNotice(a.score)) else old(notification))
        && showCriticalModal == (old(showCriticalModal) || a.score == "Unsafe")
    {
      var region := LocalRegion(position, corpus, distance, timeOf);
      graphData := SmoothData(region, DefaultWindow, timeLabel);
      FetchData(Some(region), corpus, fetchedReports, model, parse);
    }

    /** The one-minute timer's callback: a fixed warning replaces whatever
        notification is showing, and the alert panel opens. */
    method RaiseContaminationAlert()
      modifies this
      ensures notification == Some(ContaminationNotice) && showAlerts
      ensures analysis == old(analysis) && showCriticalModal == old(showCriticalModal)
      ensures sensorData == old(sensorData) && reports == old(reports)
      ensures loading == old(loading) && graphData == old(graphData)
    {
      notification := Some(ContaminationNotice);
      showAlerts := true;
    }

    /** The critical modal's close button. */
    method DismissCriticalModal()
      modifies this
      ensures !showCriticalModal
      ensures notification == old(notification) && analysis == old(analysis)
      ensures showAlerts == old(showAlerts) && sensorData == old(sensorData) && reports == old(reports)
      ensures loading == old(loading) && graphData == old(graphData)
    {
      showCriticalModal := false;
    }

    /** The bell button: opens or closes the alert panel. */
    method ToggleAlerts()
      modifies this
      ensures showAlerts == !old(showAlerts)
      ensures notification == old(notification) && analysis == old(analysis)
      ensures showCriticalModal == old(showCriticalModal) && sensorData == old(sensorData)
      ensures reports == old(reports) && loading == old(loading) && graphData == old(graphData)
    {
      showAlerts := !showAlerts;
    }

    /** The notification panel's "Dismiss Alert" button: the only way a
        notification is cleared, and so the only way a later area analysis
        can set a new one. */
    method DismissNotification()
      modifies this
      ensures notification == None
      ensures analysis == old(analysis) && showCriticalModal == old(showCriticalModal)
      ensures showAlerts == old(showAlerts) && sensorData == old(sensorData) && reports == old(reports)
      ensures loading == old(loading) && graphData == old(graphData)
    {
      notification := None;
    }
  }
}
