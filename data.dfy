/** The synthetic corpus `waterData` of src/data.js: fourteen regional clusters
    and a countrywide background, built by pushing records onto one array. */
module IndiaData {
  import Text
  import opened Random

  /** One generated record: `{ id, location, lat, lng, tds }`. */
  datatype WaterPoint = WaterPoint(id: int, location: string, lat: real, lng: real, tds: real)

  /** The random draws behind one cluster point. The positional offsets come
      from `r * cos(theta)` and `1.2 * r * sin(theta)`, which are not modelled,
      so they are given directly; `tdsDraw` is the third `Math.random()`. */
  datatype ClusterDraw = ClusterDraw(latOffset: real, lngOffset: real, tdsDraw: real)

  /** The three `Math.random()` draws behind one background point. */
  datatype BackgroundDraw = BackgroundDraw(latDraw: real, lngDraw: real, tdsDraw: real)

  const MaxClusterTds: real := 600.0
  const BackgroundPoints: nat := 800


  predicate ValidBackgroundDraws(draws: seq<BackgroundDraw>) {
    forall k :: 0 <= k < |draws| ==>
      IsDraw(draws[k].latDraw) && IsDraw(draws[k].lngDraw) && IsDraw(draws[k].tdsDraw)
  }

  /** `id = data.length + 1` at every push makes the ids 1, 2, 3, ... */
  predicate IdsSequential(data: seq<WaterPoint>) {
    forall k :: 0 <= k < |data| ==> data[k].id == k + 1
  }

  predicate TdsWithin(data: seq<WaterPoint>, lo: real, hi: real) {
    forall k :: 0 <= k < |data| ==> lo <= data[k].tds <= hi
  }

  function Max(a: real, b: real): real { if a >= b then a else b }
  function Min(a: real, b: real): real { if a <= b then a else b }

  /** `baseTds + (Math.random() * tdsVariance - tdsVariance / 2)`, before clamping. */
  function RawClusterTds(baseTds: real, tdsVariance: real, u: real): real {
    baseTds + (u * tdsVariance - tdsVariance / 2.0)
  }

  /** The unclamped value lies in `[base - variance/2, base + variance/2)`. */
  lemma RawClusterTdsRange(baseTds: real, tdsVariance: real, u: real)
    requires IsDraw(u) && tdsVariance > 0.0
    ensures baseTds - tdsVariance / 2.0 <= RawClusterTds(baseTds, tdsVariance, u) < baseTds + tdsVariance / 2.0
  {
    assert u * tdsVariance < 1.0 * tdsVariance;
  }

  /** `Math.max(0, Math.min(600, tds))`. */
  function ClampTds(tds: real): (r: real)
    ensures 0.0 <= r <= MaxClusterTds
    ensures 0.0 <= tds <= MaxClusterTds ==> r == tds
    ensures tds < 0.0 ==> r == 0.0
    ensures tds > MaxClusterTds ==> r == MaxClusterTds
  {
    Max(0.0, Min(MaxClusterTds, tds))
  }

  /** The record the `i`-th iteration of `generateCluster` pushes when the
      array already holds `count` records. */
  function ClusterPoint(count: nat, centerLat: real, centerLng: real, baseTds: real,
                        tdsVariance: real, name: string, i: nat, d: ClusterDraw): WaterPoint
  {
    WaterPoint(count + 1, name + " " + Text.DecimalString(i),
               centerLat + d.latOffset, centerLng + d.lngOffset,
               ClampTds(RawClusterTds(baseTds, tdsVariance, d.tdsDraw)))
  }

  /** The record the `i`-th background iteration pushes when the array already
      holds `count` records. */
  function BackgroundPoint(count: nat, i: nat, d: BackgroundDraw): WaterPoint
  {
    WaterPoint(count + 1, "India Background " + Text.DecimalString(i),
               8.0 + d.latDraw * (35.0 - 8.0), 68.0 + d.lngDraw * (97.0 - 68.0),
               d.tdsDraw * 250.0)
  }

  /** Background points stay inside India's bounding box and below 250 ppm. */
  lemma BackgroundPointRange(count: nat, i: nat, d: BackgroundDraw)
    requires IsDraw(d.latDraw) && IsDraw(d.lngDraw) && IsDraw(d.tdsDraw)
    ensures 8.0 <= BackgroundPoint(count, i, d).lat < 35.0
    ensures 68.0 <= BackgroundPoint(count, i, d).lng < 97.0
    ensures 0.0 <= BackgroundPoint(count, i, d).tds < 250.0
  {
    assert d.latDraw * 27.0 < 27.0;
    assert d.lngDraw * 29.0 < 29.0;
    assert d.tdsDraw * 250.0 < 250.0;
  }

  /** `after` is `before` followed by the records of one `generateCluster` call. */
  ghost predicate ClusterAppended(before: seq<WaterPoint>, after: seq<WaterPoint>, centerLat: real,
                                  centerLng: real, baseTds: real, tdsVariance: real, name: string,
                                  draws: seq<ClusterDraw>)
  {
    && |after| == |before| + |draws|
    && after[..|before|] == before
    && forall i :: 0 <= i < |draws| ==>
         after[|before| + i] == ClusterPoint(|before| + i, centerLat, centerLng, baseTds, tdsVariance, name, i, draws[i])
  }

  /** `after` is `before` followed by the records of the background loop. */
  ghost predicate BackgroundAppended(before: seq<WaterPoint>, after: seq<WaterPoint>, draws: seq<BackgroundDraw>)
  {
    && |after| == |before| + |draws|
    && after[..|before|] == before
    && forall i :: 0 <= i < |draws| ==> after[|before| + i] == BackgroundPoint(|before| + i, i, draws[i])
  }

  /** The array `data` that `generateIndiaData` pushes onto. */
  class PointCorpus {
    var data: seq<WaterPoint>

    /** Every record pushed so far has the next id and a tds in [0, 600]. */
    predicate Valid()
      reads this
    {
      IdsSequential(data) && TdsWithin(data, 0.0, MaxClusterTds)
    }

    constructor ()
      ensures data == []
      ensures Valid()
    {
      data := [];
    }

    /** `generateCluster(centerLat, centerLng, radius, numPoints, baseTds,
        tdsVariance, name)`: pushes `numPoints` records, the `i`-th labelled
        `"name i"`, each with the next id and its tds clamped into [0, 600]. */
    method GenerateCluster(centerLat: real, centerLng: real, numPoints: nat, baseTds: real,
                           tdsVariance: real, name: string, draws: seq<ClusterDraw>)
      requires |draws| == numPoints
      requires Valid()
      modifies this
      ensures |data| == |old(data)| + numPoints
      ensures ClusterAppended(old(data), data, centerLat, centerLng, baseTds, tdsVariance, name, draws)
      ensures Valid()
    {
      ghost var start := data;
      for i := 0 to numPoints
        invariant |data| == |start| + i
        invariant data[..|start|] == start
        invariant forall k :: 0 <= k < i ==>
          data[|start| + k] == ClusterPoint(|start| + k, centerLat, centerLng, baseTds, tdsVariance, name, k, draws[k])
        invariant Valid()
      {
        var tds := RawClusterTds(baseTds, tdsVariance, draws[i].tdsDraw);
        data := data + [WaterPoint(|data| + 1, name + " " + Text.DecimalString(i),
                                   centerLat + draws[i].latOffset, centerLng + draws[i].lngOffset,
                                   ClampTds(tds))];
      }
    }

    /** The countrywide noise loop: pushes 800 records labelled
        `"India Background i"` with lat in [8, 35), lng in [68, 97) and tds in
        [0, 250). */
    method AddBackground(draws: seq<BackgroundDraw>)
      requires |draws| == BackgroundPoints
      requires ValidBackgroundDraws(draws)
      requires Valid()
      modifies this
      ensures |data| == |old(data)| + BackgroundPoints
      ensures BackgroundAppended(old(data), data, draws)
      ensures Valid()
    {
      ghost var start := data;
      for i := 0 to BackgroundPoints
        invariant |data| == |start| + i
        invariant data[..|start|] == start
        invariant forall k :: 0 <= k < i ==> data[|start| + k] == BackgroundPoint(|start| + k, k, draws[k])
        invariant Valid()
      {
        var lat := 8.0 + draws[i].latDraw * (35.0 - 8.0);
        var lng := 68.0 + draws[i].lngDraw * (97.0 - 68.0);
        var point := WaterPoint(|data| + 1, "India Background " + Text.DecimalString(i),
                                lat, lng, draws[i].tdsDraw * 250.0);
        assert point == BackgroundPoint(|data|, i, draws[i]);
        BackgroundPointRange(|data|, i, draws[i]);
        data := data + [point];
      }
    }
  }

  /** Number of points of each `generateCluster` call, in call order. */
  const ClusterSizes: seq<nat> := [300, 400, 500, 600, 400, 400, 400, 300, 400, 500, 300, 300, 300, 200]

  /** `generateIndiaData()`: 5300 cluster points then 800 background points,
      6100 records with ids 1..6100 and every tds in [0, 600]. */
  method GenerateIndiaData(clusterDraws: seq<seq<ClusterDraw>>, background: seq<BackgroundDraw>)
    returns (data: seq<WaterPoint>)
    requires |clusterDraws| == |ClusterSizes|
    requires forall k :: 0 <= k < |ClusterSizes| ==> |clusterDraws[k]| == ClusterSizes[k]
    requires |background| == BackgroundPoints
    requires ValidBackgroundDraws(background)
    ensures |data| == 6100
    ensures IdsSequential(data)
    ensures TdsWithin(data, 0.0, MaxClusterTds)
  {
    assert |clusterDraws[0]| == 300;
    assert |clusterDraws[1]| == 400;
    assert |clusterDraws[2]| == 500;
    assert |clusterDraws[3]| == 600;
    assert |clusterDraws[4]| == 400;
    assert |clusterDraws[5]| == 400;
    assert |clusterDraws[6]| == 400;
    assert |clusterDraws[7]| == 300;
    assert |clusterDraws[8]| == 400;
    assert |clusterDraws[9]| == 500;
    assert |clusterDraws[10]| == 300;
    assert |clusterDraws[11]| == 300;
    assert |clusterDraws[12]| == 300;
    assert |clusterDraws[13]| == 200;
    var corpus := new PointCorpus();
    corpus.GenerateCluster(28.67, 77.27, 300, 500.0, 150.0, "Seelampur Zone", clusterDraws[0]);
    corpus.GenerateCluster(28.6, 77.2, 400, 300.0, 150.0, "NCR Region", clusterDraws[1]);
    corpus.GenerateCluster(30.4, 75.8, 500, 250.0, 150.0, "Punjab Agrarian", clusterDraws[2]);
    corpus.GenerateCluster(26.5, 80.5, 600, 350.0, 200.0, "Gangetic Plains", clusterDraws[3]);
    corpus.GenerateCluster(25.6, 85.1, 400, 350.0, 200.0, "Bihar Belt", clusterDraws[4]);
    corpus.GenerateCluster(23.5, 88.5, 400, 400.0, 150.0, "Bengal Delta", clusterDraws[5]);
    corpus.GenerateCluster(24.5, 72.5, 400, 300.0, 150.0, "Rajasthan Arid", clusterDraws[6]);
    corpus.GenerateCluster(22.5, 71.5, 300, 250.0, 150.0, "Gujarat Salt", clusterDraws[7]);
    corpus.GenerateCluster(23.0, 78.5, 400, 200.0, 150.0, "Central India", clusterDraws[8]);
    corpus.GenerateCluster(19.0, 76.0, 500, 250.0, 150.0, "Deccan Plateau", clusterDraws[9]);
    corpus.GenerateCluster(10.5, 76.5, 300, 100.0, 100.0, "Kerala/Ghats", clusterDraws[10]);
    corpus.GenerateCluster(13.5, 75.5, 300, 120.0, 100.0, "Karnataka Coastal", clusterDraws[11]);
    corpus.GenerateCluster(13.0, 80.0, 300, 300.0, 150.0, "Chennai Coast", clusterDraws[12]);
    corpus.GenerateCluster(32.0, 77.0, 200, 80.0, 50.0, "Himachal/Uttarakhand", clusterDraws[13]);
    corpus.AddBackground(background);
    data := corpus.data;
  }
}
