/** scripts/genData.mjs: a loop that produces 1000 sensor readings around
    twenty Indian cities, ten minutes apart. Writing the JSON file is not
    modelled; the generated array is the result. */
module GenData {
  import opened Random

  datatype City = City(name: string, lat: real, lng: real)

  const Cities: seq<City> := [
    City("Delhi", 28.6139, 77.2090),
    City("Mumbai", 19.0760, 72.8777),
    City("Kolkata", 22.5726, 88.3639),
    City("Chennai", 13.0827, 80.2707),
    City("Bengaluru", 12.9716, 77.5946),
    City("Hyderabad", 17.3850, 78.4867),
    City("Jaipur", 26.9124, 75.7873),
    City("Lucknow", 26.8467, 80.9462),
    City("Ahmedabad", 23.0225, 72.5714),
    City("Pune", 18.5204, 73.8567),
    City("Bhopal", 23.2599, 77.4126),
    City("Patna", 25.5941, 85.1376),
    City("Chandigarh", 30.7333, 76.7794),
    City("Guwahati", 26.1445, 91.7362),
    City("Thiruvananthapuram", 8.5241, 76.9366),
    City("Ranchi", 23.3441, 85.3096),
    City("Bhubaneswar", 20.2961, 85.8245),
    City("Shimla", 31.1048, 77.1734),
    City("Srinagar", 34.0837, 74.7973),
    City("Indore", 22.7196, 75.8577)
  ]

  const RecordCount: nat := 1000
  /** Ten minutes in milliseconds: the spacing of consecutive timestamps. */
  const StepMillis: int := 10 * 60000

  /** A generated record; `timestamp` is the instant in milliseconds that
      `toISOString()` renders. */
  datatype Reading = Reading(id: int, location: string, tds: int, turbidity: real,
                             temperature: int, lat: real, lng: real, timestamp: int)

  /** The six `Math.random()` draws of one iteration, in program order. */
  datatype Draw = Draw(city: real, tds: real, turbidity: real, temperature: real, lat: real, lng: real)

  predicate ValidDraw(d: Draw) {
    IsDraw(d.city) && IsDraw(d.tds) && IsDraw(d.turbidity) &&
    IsDraw(d.temperature) && IsDraw(d.lat) && IsDraw(d.lng)
  }

  /** `Math.floor(u * n)` for a draw `u`: an index in `[0, n)`. */
  function ScaledFloor(u: real, n: nat): (k: int)
    requires IsDraw(u) && n > 0
    ensures 0 <= k < n
  {
    assert u * (n as real) < 1.0 * (n as real);
    (u * (n as real)).Floor
  }

  /** `Number(x.toFixed(digits))` with `scale == 10^digits`: round half up to
      the nearest multiple of `1/scale`. */
  function RoundTo(x: real, scale: nat): real
    requires scale > 0
  {
    ((x * (scale as real) + 0.5).Floor as real) / (scale as real)
  }

  /** The record pushed by iteration `i`. */
  function Generated(i: nat, d: Draw, startMillis: int): Reading
    requires ValidDraw(d)
  {
    var city := Cities[ScaledFloor(d.city, |Cities|)];
    Reading(i + 1, city.name,
            ScaledFloor(d.tds, 900 - 150 + 1) + 150,
            RoundTo(d.turbidity * (10.0 - 0.5) + 0.5, 100),
            ScaledFloor(d.temperature, 38 - 15 + 1) + 15,
            RoundTo(city.lat + (d.lat * 0.5 - 0.25), 1000000),
            RoundTo(city.lng + (d.lng * 0.5 - 0.25), 1000000),
            startMillis + i * StepMillis)
  }

  predicate IsCityName(name: string) {
    exists c :: 0 <= c < |Cities| && Cities[c].name == name
  }

  /** The bounds every generated record respects. */
  lemma GeneratedRanges(i: nat, d: Draw, startMillis: int)
    requires ValidDraw(d)
    ensures Generated(i, d, startMillis).id == i + 1
    ensures 150 <= Generated(i, d, startMillis).tds <= 900
    ensures 15 <= Generated(i, d, startMillis).temperature <= 38
    ensures 0.5 <= Generated(i, d, startMillis).turbidity <= 10.0
    ensures IsCityName(Generated(i, d, startMillis).location)
  {
    var x := d.turbidity * (10.0 - 0.5) + 0.5;
    assert 0.5 <= x < 10.0 by {
      assert d.turbidity * 9.5 < 9.5;
    }
    var n := (x * 100.0 + 0.5).Floor;
    assert 50 <= n <= 1000;
    assert RoundTo(x, 100) == (n as real) / 100.0;
    var c := ScaledFloor(d.city, |Cities|);
    assert Cities[c].name == Generated(i, d, startMillis).location;
  }

  /** The generation loop: exactly 1000 records, record `i` built from the
      `i`-th draw, with id `i + 1` and timestamp `start + i * 10 min`. */
  method GenerateReadings(draws: seq<Draw>, startMillis: int) returns (data: seq<Reading>)
    requires |draws| == RecordCount
    requires forall i :: 0 <= i < |draws| ==> ValidDraw(draws[i])
    ensures |data| == RecordCount
    ensures forall i :: 0 <= i < |data| ==> data[i] == Generated(i, draws[i], startMillis)
  {
    data := [];
    for i := 0 to RecordCount
      invariant |data| == i
      invariant forall k :: 0 <= k < i ==> data[k] == Generated(k, draws[k], startMillis)
    {
      var d := draws[i];
      var city := Cities[ScaledFloor(d.city, |Cities|)];
      var tds := ScaledFloor(d.tds, 900 - 150 + 1) + 150;
      var turbidity := RoundTo(d.turbidity * (10.0 - 0.5) + 0.5, 100);
      var temperature := ScaledFloor(d.temperature, 38 - 15 + 1) + 15;
      var lat := RoundTo(city.lat + (d.lat * 0.5 - 0.25), 1000000);
      var lng := RoundTo(city.lng + (d.lng * 0.5 - 0.25), 1000000);
      var timestamp := startMillis + i * 10 * 60000;
      assert timestamp == startMillis + i * StepMillis;
      var r := Reading(i + 1, city.name, tds, turbidity, temperature, lat, lng, timestamp);
      assert r == Generated(i, d, startMillis);
      data := data + [r];
    }
  }

  /** What the generated file promises as a whole: ids 1..1000, tds and
      temperature in range, known city names, timestamps strictly increasing. */
  lemma GeneratedFileProperties(draws: seq<Draw>, startMillis: int, data: seq<Reading>)
    requires |draws| == RecordCount
    requires forall i :: 0 <= i < |draws| ==> ValidDraw(draws[i])
    requires |data| == RecordCount
    requires forall i :: 0 <= i < |data| ==> data[i] == Generated(i, draws[i], startMillis)
    ensures forall i :: 0 <= i < |data| ==> data[i].id == i + 1
    ensures forall i :: 0 <= i < |data| ==> 150 <= data[i].tds <= 900 && 15 <= data[i].temperature <= 38
    ensures forall i :: 0 <= i < |data| ==> IsCityName(data[i].location)
    ensures forall i, j :: 0 <= i < j < |data| ==> data[i].timestamp < data[j].timestamp
  {
    forall i | 0 <= i < |data|
      ensures data[i].id == i + 1
      ensures 150 <= data[i].tds <= 900 && 15 <= data[i].temperature <= 38
      ensures IsCityName(data[i].location)
    {
      GeneratedRanges(i, draws[i], startMillis);
    }
  }
}
