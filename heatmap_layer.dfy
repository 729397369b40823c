/** src/HeatmapLayer.jsx: the leaflet.heat layer drawn over the map. Its
    radius and blur follow the zoom level, its other options are fixed, and
    the component keeps at most one heat layer on the map. */
module HeatmapLayer {
  import IndiaData

  /** `Math.max(12, zoom * 2)`. */
  function Radius(zoom: int): (r: int)
    ensures r >= 12
    ensures r >= 2 * zoom
    ensures r == 12 || r == 2 * zoom
  {
    if 12 >= zoom * 2 then 12 else zoom * 2
  }

  /** `Math.max(15, zoom * 2.5)`; exact for an integer zoom. */
  function Blur(zoom: int): (b: real)
    ensures b >= 15.0
    ensures b >= 2.5 * (zoom as real)
    ensures b == 15.0 || b == 2.5 * (zoom as real)
  {
    if 15.0 >= (zoom as real) * 2.5 then 15.0 else (zoom as real) * 2.5
  }

  /** Both floors are in force exactly up to zoom 6. */
  lemma FloorsActive(zoom: int)
    ensures Radius(zoom) == 12 <==> zoom <= 6
    ensures Blur(zoom) == 15.0 <==> zoom <= 6
  {
  }

  /** Zooming in never shrinks the radius or the blur. */
  lemma RadiusBlurMonotone(z1: int, z2: int)
    requires z1 <= z2
    ensures Radius(z1) <= Radius(z2)
    ensures Blur(z1) <= Blur(z2)
  {
  }

  lemma RadiusBlurExamples()
    ensures Radius(5) == 12 && Blur(5) == 15.0
    ensures Radius(10) == 20 && Blur(10) == 25.0
  {
  }

  /** `[p.lat, p.lng, p.tds]`. */
  datatype HeatPoint = HeatPoint(lat: real, lng: real, intensity: real)

  /** `data.map((p) => [p.lat, p.lng, p.tds])`. */
  function HeatPoints(data: seq<IndiaData.WaterPoint>): (pts: seq<HeatPoint>)
    ensures |pts| == |data|
    ensures forall i :: 0 <= i < |data| ==>
      pts[i] == HeatPoint(data[i].lat, data[i].lng, data[i].tds)
  {
    if |data| == 0 then []
    else [HeatPoint(data[0].lat, data[0].lng, data[0].tds)] + HeatPoints(data[1..])
  }

  datatype GradientStop = GradientStop(threshold: real, color: string)

  /** The fixed `gradient` option. */
  const Gradient: seq<GradientStop> := [
    GradientStop(0.3, "green"),
    GradientStop(0.5, "yellow"),
    GradientStop(0.7, "orange"),
    GradientStop(0.9, "red")
  ]

  const MaxZoom: int := 10
  const MaxIntensity: real := 800.0
  const MinOpacity: real := 0.15

  /** The stops are strictly ascending inside (0, 1), ending at red. */
  lemma GradientWellFormed()
    ensures forall i, j :: 0 <= i < j < |Gradient| ==> Gradient[i].threshold < Gradient[j].threshold
    ensures forall i :: 0 <= i < |Gradient| ==> 0.0 < Gradient[i].threshold < 1.0
    ensures Gradient[|Gradient| - 1].color == "red"
  {
  }

  /** One `L.heatLayer(points, options)`; `setOptions` may change radius and
      blur later. */
  class HeatLayer {
    const points: seq<HeatPoint>
    const maxZoom: int
    const maxIntensity: real
    const minOpacity: real
    const gradient: seq<GradientStop>
    var radius: int
    var blur: real

    constructor (points: seq<HeatPoint>, radius: int, blur: real)
      ensures this.points == points && this.radius == radius && this.blur == blur
      ensures maxZoom == MaxZoom && maxIntensity == MaxIntensity
      ensures minOpacity == MinOpacity && gradient == Gradient
    {
      this.points := points;
      this.radius := radius;
      this.blur := blur;
      maxZoom := MaxZoom;
      maxIntensity := MaxIntensity;
      minOpacity := MinOpacity;
      gradient := Gradient;
    }

    method SetOptions(radius: int, blur: real)
      modifies this
      ensures this.radius == radius && this.blur == blur
    {
      this.radius := radius;
      this.blur := blur;
    }
  }

  /** The component: `heatLayerRef.current` and the heat layers it has put on
      the map (`map.hasLayer` answers membership in `attached`). */
  class HeatmapLayerView {
    var current: HeatLayer?
    var attached: set<HeatLayer>

    /** At most one heat layer is on the map, and it is the referenced one. */
    ghost predicate Valid()
      reads this
    {
      attached <= (if current == null then {} else {current})
    }

    constructor ()
      ensures Valid() && current == null && attached == {}
    {
      current := null;
      attached := {};
    }

    /** The data effect: build a layer for `data` at `zoom`, remove the old one
        if it is on the map, then reference and add the new one. Nothing
        happens when the plugin did not load (`!L.heatLayer`). */
    method Rebuild(data: seq<IndiaData.WaterPoint>, zoom: int, pluginLoaded: bool)
      requires Valid()
      modifies this
      ensures Valid()
      ensures !pluginLoaded ==> current == old(current) && attached == old(attached)
      ensures pluginLoaded ==> current != null && fresh(current) && attached == {current}
      ensures pluginLoaded ==> current.points == HeatPoints(data)
      ensures pluginLoaded ==> current.radius == Radius(zoom) && current.blur == Blur(zoom)
      ensures pluginLoaded ==> current.maxIntensity == MaxIntensity && current.minOpacity == MinOpacity
      ensures pluginLoaded ==> current.maxZoom == MaxZoom && current.gradient == Gradient
    {
      if !pluginLoaded {
        return;
      }
      var points := HeatPoints(data);
      var radius := if 12 >= zoom * 2 then 12 else zoom * 2;
      var blur := if 15.0 >= (zoom as real) * 2.5 then 15.0 else (zoom as real) * 2.5;
      var newLayer := new HeatLayer(points, radius, blur);
      if current != null && current in attached {
        attached := attached - {current};
      }
      current := newLayer;
      attached := attached + {current};
    }

    /** The effect cleanup: take the referenced layer off the map if it is on
        it; the reference itself is kept. */
    method Cleanup()
      requires Valid()
      modifies this
      ensures Valid()
      ensures attached == {} && current == old(current)
    {
      if current != null && current in attached {
        attached := attached - {current};
      }
    }

    /** The `zoomend` handler: recompute radius and blur for the referenced
        layer, if there is one. */
    method OnZoom(zoom: int)
      requires Valid()
      modifies current
      ensures Valid()
      ensures current != null ==> current.radius == Radius(zoom) && current.blur == Blur(zoom)
    {
      if current == null {
        return;
      }
      var newRadius := if 12 >= zoom * 2 then 12 else zoom * 2;
      var newBlur := if 15.0 >= (zoom as real) * 2.5 then 15.0 else (zoom as real) * 2.5;
      current.SetOptions(newRadius, newBlur);
    }
  }
}
