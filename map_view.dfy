/** src/MapView.jsx: the map page. Every five seconds each point's tds drifts
    by a random step and is clamped at zero; the analysis marker sits on the
    first point. The timer itself is not modelled: one tick is a function and
    repeated ticks are its iteration. */
module MapView {
  import opened Wrappers
  import IndiaData
  import opened Random

  /** `Math.floor(Math.random() * 50) - 25`, a step in [-25, 24]. */
  function Drift(u: real): (delta: int)
    requires IsDraw(u)
    ensures -25 <= delta <= 24
  {
    assert u * 50.0 < 50.0;
    (u * 50.0).Floor - 25
  }

  /** `Math.max(0, tds + delta)`. */
  function DriftTds(tds: real, u: real): (r: real)
    requires IsDraw(u)
    ensures r >= 0.0
    ensures tds + (Drift(u) as real) >= 0.0 ==> r == tds + (Drift(u) as real)
    ensures tds + (Drift(u) as real) < 0.0 ==> r == 0.0
    ensures r <= (if tds >= 0.0 then tds else 0.0) + 24.0
  {
    var moved := tds + (Drift(u) as real);
    if 0.0 >= moved then 0.0 else moved
  }

  predicate ValidDraws(draws: seq<real>) {
    forall i :: 0 <= i < |draws| ==> IsDraw(draws[i])
  }

  /** One tick: `prevData.map(point => ({ ...point, tds: max(0, ...) }))`,
      one draw per point. */
  function Tick(data: seq<IndiaData.WaterPoint>, draws: seq<real>): (next: seq<IndiaData.WaterPoint>)
    requires |draws| == |data| && ValidDraws(draws)
    ensures |next| == |data|
    ensures forall i :: 0 <= i < |data| ==> next[i] == data[i].(tds := DriftTds(data[i].tds, draws[i]))
  {
    seq(|data|, i requires 0 <= i < |data| => data[i].(tds := DriftTds(data[i].tds, draws[i])))
  }

  /** The draws for `|rounds|` successive ticks over `n` points. */
  predicate ValidRounds(rounds: seq<seq<real>>, n: nat) {
    forall k :: 0 <= k < |rounds| ==> |rounds[k]| == n && ValidDraws(rounds[k])
  }

  /** The `data` state after the ticks drawn in `rounds`, oldest first. */
  function Ticks(data: seq<IndiaData.WaterPoint>, rounds: seq<seq<real>>): (after: seq<IndiaData.WaterPoint>)
    requires ValidRounds(rounds, |data|)
    ensures |after| == |data|
    decreases |rounds|
  {
    if |rounds| == 0 then data
    else Tick(Ticks(data, rounds[..|rounds| - 1]), rounds[|rounds| - 1])
  }

  /** Any number of ticks keeps every point except its tds, never makes a tds
      negative, and raises a non-negative tds by at most 24 per tick. */
  lemma {:induction false} TicksInvariant(data: seq<IndiaData.WaterPoint>, rounds: seq<seq<real>>, i: nat)
    requires ValidRounds(rounds, |data|) && i < |data|
    requires data[i].tds >= 0.0
    ensures Ticks(data, rounds)[i] == data[i].(tds := Ticks(data, rounds)[i].tds)
    ensures 0.0 <= Ticks(data, rounds)[i].tds <= data[i].tds + 24.0 * (|rounds| as real)
  {
    if |rounds| > 0 {
      var prev := rounds[..|rounds| - 1];
      assert ValidRounds(prev, |data|);
      TicksInvariant(data, prev, i);
    }
  }

  /** `analysis && data.length > 0`: where the analysis marker is placed, if
      it is shown at all. */
  function MarkerPosition<A>(analysis: Option<A>, data: seq<IndiaData.WaterPoint>): (pos: Option<(real, real)>)
    ensures pos.Some? <==> analysis.Some? && |data| > 0
    ensures pos.Some? ==> pos.value == (data[0].lat, data[0].lng)
  {
    if analysis.Some? && |data| > 0 then Some((data[0].lat, data[0].lng)) else None
  }
}
