// Map layers built from planning cases: the marker layer, the heat-map
// layer, the ward-boundary layer, the bounding box that fits the cases and
// the GeoJSON export of a layer.

module MapService {
  import opened Common
  import opened PyStr

  datatype MapLayerType =
    | PlanningApplications | Approved | Refused | Pending | ConservationAreas
    | ListedBuildings | FloodZones | WardBoundaries | Heatmap
  {
    function Value(): string
    {
      match this
      case PlanningApplications => "planning_applications"
      case Approved => "approved"
      case Refused => "refused"
      case Pending => "pending"
      case ConservationAreas => "conservation_areas"
      case ListedBuildings => "listed_buildings"
      case FloodZones => "flood_zones"
      case WardBoundaries => "ward_boundaries"
      case Heatmap => "heatmap"
    }

    /** `value.replace("_", " ").title()`, tabulated. */
    function Title(): string
    {
      match this
      case PlanningApplications => "Planning Applications"
      case Approved => "Approved"
      case Refused => "Refused"
      case Pending => "Pending"
      case ConservationAreas => "Conservation Areas"
      case ListedBuildings => "Listed Buildings"
      case FloodZones => "Flood Zones"
      case WardBoundaries => "Ward Boundaries"
      case Heatmap => "Heatmap"
    }
  }

  datatype MarkerStyle = Pin | Circle | Cluster | HeatmapStyle

  /** The JSON values that marker and polygon metadata hold. */
  datatype Json = JStr(s: string) | JNum(x: real) | JNull

  function OptionalJson(o: Option<string>): Json
  {
    if o.Some? then JStr(o.value) else JNull
  }

  /**
   * A case dictionary: a missing key is None. `numbers` holds the numeric
   * fields a custom heat-map weight can name.
   */
  datatype Case = Case(
    latitude: Option<real>,
    longitude: Option<real>,
    outcome: Option<string>,
    developmentType: Option<string>,
    reference: Option<string>,
    address: Option<string>,
    description: Option<string>,
    decisionDate: Option<string>,
    numbers: map<string, real>)

  datatype MapMarker = MapMarker(
    id: string,
    latitude: real,
    longitude: real,
    title: string,
    description: string,
    style: MarkerStyle,
    color: string,
    icon: string,
    metadata: map<string, Json>)

  /** Polygon coordinates are stored as [lat, lon] pairs. */
  datatype MapPolygon = MapPolygon(
    id: string,
    name: string,
    coordinates: seq<seq<real>>,
    fillColor: string,
    fillOpacity: real,
    strokeColor: string,
    strokeWidth: int,
    metadata: map<string, Json>)

  datatype HeatPoint = HeatPoint(lat: real, lon: real, weight: real)

  datatype MapLayer = MapLayer(
    id: string,
    name: string,
    layerType: MapLayerType,
    visible: bool,
    markers: seq<MapMarker>,
    polygons: seq<MapPolygon>,
    heatmapData: seq<HeatPoint>,
    minZoom: int,
    maxZoom: int)

  function EmptyLayer(id: string, name: string, t: MapLayerType): MapLayer
  {
    MapLayer(id, name, t, true, [], [], [], 0, 22)
  }

  // ---------------------------------------------------------------------
  // Planning layer
  // ---------------------------------------------------------------------

  const GreyColour: string := "#6B7280"
  const PendingColour: string := "#3B82F6"
  const DefaultIcon: string := "📍"

  const OutcomeColours: map<string, string> := map[
    "granted" := "#22C55E", "approved" := "#22C55E", "refused" := "#EF4444",
    "withdrawn" := "#F59E0B", "pending" := PendingColour,
    "appeal allowed" := "#10B981", "appeal dismissed" := "#DC2626"
  ]

  const DevelopmentIcons: map<string, string> := map[
    "householder" := "🏠", "extension" := "📐", "basement" := "⬇️", "loft" := "⬆️",
    "change_of_use" := "🔄", "new_build" := "🏗️", "demolition" := "🔨",
    "listed_building" := "🏛️", "conservation" := "🌳"
  ]

  /** Python's `not lat or not lon` fails: both coordinates are present and non-zero. */
  predicate HasPosition(c: Case)
  {
    c.latitude.Some? && c.latitude.value != 0.0 && c.longitude.Some? && c.longitude.value != 0.0
  }

  /** The lower-cased outcome, "pending" when missing or empty. */
  function OutcomeKey(c: Case): string
  {
    Lower(if Truthy(c.outcome) then c.outcome.value else "pending")
  }

  function DevelopmentKey(c: Case): string
  {
    Lower(if Truthy(c.developmentType) then c.developmentType.value else "")
  }

  function MarkerColour(c: Case): (colour: string)
    ensures OutcomeKey(c) in OutcomeColours ==> colour == OutcomeColours[OutcomeKey(c)]
    ensures OutcomeKey(c) !in OutcomeColours ==> colour == GreyColour
  {
    if OutcomeKey(c) in OutcomeColours then OutcomeColours[OutcomeKey(c)] else GreyColour
  }

  function MarkerIcon(c: Case): (icon: string)
    ensures DevelopmentKey(c) in DevelopmentIcons ==> icon == DevelopmentIcons[DevelopmentKey(c)]
    ensures DevelopmentKey(c) !in DevelopmentIcons ==> icon == DefaultIcon
  {
    if DevelopmentKey(c) in DevelopmentIcons then DevelopmentIcons[DevelopmentKey(c)] else DefaultIcon
  }

  function MarkerOf(c: Case): MapMarker
    requires HasPosition(c)
  {
    MapMarker(
      OrElse(c.reference, ""), c.latitude.value, c.longitude.value,
      OrElse(c.address, "Unknown"), OrElse(c.description, ""), Pin,
      MarkerColour(c), MarkerIcon(c),
      map["reference" := OptionalJson(c.reference), "outcome" := JStr(OutcomeKey(c)),
          "development_type" := JStr(DevelopmentKey(c)), "decision_date" := OptionalJson(c.decisionDate)])
  }

  /** One marker per positioned case, in order. */
  function Markers(cases: seq<Case>): seq<MapMarker>
  {
    if cases == [] then []
    else
      var last := cases[|cases| - 1];
      Markers(cases[..|cases| - 1]) + (if HasPosition(last) then [MarkerOf(last)] else [])
  }

  method CreatePlanningLayer(cases: seq<Case>, layerType: MapLayerType) returns (layer: MapLayer)
    ensures layer == EmptyLayer("layer_" + layerType.Value(), layerType.Title(), layerType)
                       .(markers := Markers(cases))
  {
    var markers: seq<MapMarker> := [];
    var i := 0;
    while i < |cases|
      invariant 0 <= i <= |cases|
      invariant markers == Markers(cases[..i])
    {
      assert cases[..i + 1][..i] == cases[..i];
      var c := cases[i];
      if c.latitude.Some? && c.latitude.value != 0.0 && c.longitude.Some? && c.longitude.value != 0.0 {
        markers := markers + [MarkerOf(c)];
      }
      i := i + 1;
    }
    assert cases[..i] == cases;
    layer := EmptyLayer("layer_" + layerType.Value(), layerType.Title(), layerType).(markers := markers);
  }

  /**
   * Marker k is built from the k-th positioned case: cases without both
   * coordinates are skipped, so there are never more markers than cases,
   * and every marker sits at a non-zero position.
   */
  lemma {:induction false} MarkersSpec(cases: seq<Case>)
    ensures |Markers(cases)| == |Filter(cases, HasPosition)| <= |cases|
    ensures forall k :: 0 <= k < |Markers(cases)| ==>
              HasPosition(Filter(cases, HasPosition)[k]) && Markers(cases)[k] == MarkerOf(Filter(cases, HasPosition)[k])
    ensures forall k :: 0 <= k < |Markers(cases)| ==>
              Markers(cases)[k].latitude != 0.0 && Markers(cases)[k].longitude != 0.0
    decreases |cases|
  {
    if cases != [] {
      MarkersSpec(cases[..|cases| - 1]);
    }
  }

  /** A case without an outcome is drawn in the pending colour; an unrecognised outcome in grey. */
  lemma MarkerColourDefaults(c: Case)
    ensures !Truthy(c.outcome) ==> MarkerColour(c) == PendingColour
    ensures Truthy(c.outcome) && Lower(c.outcome.value) !in OutcomeColours ==> MarkerColour(c) == GreyColour
  {
    if !Truthy(c.outcome) {
      assert OutcomeKey(c) == "pending";
    }
  }

  // ---------------------------------------------------------------------
  // Heat-map layer
  // ---------------------------------------------------------------------

  const GrantedWeight: real := 1.5

  /** A named numeric field when the case has it, else 1.5 for a granted case, else 1.0. */
  function HeatWeight(c: Case, weightField: Option<string>): (w: real)
    ensures Truthy(weightField) && weightField.value in c.numbers ==> w == c.numbers[weightField.value]
    ensures !(Truthy(weightField) && weightField.value in c.numbers) ==>
              w == (if Lower(OrElse(c.outcome, "")) == "granted" then GrantedWeight else 1.0)
  {
    if Truthy(weightField) && weightField.value in c.numbers then c.numbers[weightField.value]
    else if Lower(OrElse(c.outcome, "")) == "granted" then GrantedWeight
    else 1.0
  }

  function HeatPoints(cases: seq<Case>, weightField: Option<string>): seq<HeatPoint>
  {
    if cases == [] then []
    else
      var last := cases[|cases| - 1];
      HeatPoints(cases[..|cases| - 1], weightField)
        + (if HasPosition(last)
           then [HeatPoint(last.latitude.value, last.longitude.value, HeatWeight(last, weightField))]
           else [])
  }

  method CreateHeatmapLayer(cases: seq<Case>, weightField: Option<string>) returns (layer: MapLayer)
    ensures layer == EmptyLayer("heatmap", "Application Density", Heatmap)
                       .(heatmapData := HeatPoints(cases, weightField))
  {
    var points: seq<HeatPoint> := [];
    var i := 0;
    while i < |cases|
      invariant 0 <= i <= |cases|
      invariant points == HeatPoints(cases[..i], weightField)
    {
      assert cases[..i + 1][..i] == cases[..i];
      var c := cases[i];
      if c.latitude.Some? && c.latitude.value != 0.0 && c.longitude.Some? && c.longitude.value != 0.0 {
        var weight := 1.0;
        if Truthy(weightField) && weightField.value in c.numbers {
          weight := c.numbers[weightField.value];
        } else if Lower(OrElse(c.outcome, "")) == "granted" {
          weight := GrantedWeight;
        }
        points := points + [HeatPoint(c.latitude.value, c.longitude.value, weight)];
      }
      i := i + 1;
    }
    assert cases[..i] == cases;
    layer := EmptyLayer("heatmap", "Application Density", Heatmap).(heatmapData := points);
  }

  /** Point k is the k-th positioned case, at its position, with its weight. */
  lemma {:induction false} HeatPointsSpec(cases: seq<Case>, weightField: Option<string>)
    ensures |HeatPoints(cases, weightField)| == |Filter(cases, HasPosition)|
    ensures forall k :: 0 <= k < |HeatPoints(cases, weightField)| ==>
              var c := Filter(cases, HasPosition)[k];
              HasPosition(c)
              && HeatPoints(cases, weightField)[k] == HeatPoint(c.latitude.value, c.longitude.value, HeatWeight(c, weightField))
    decreases |cases|
  {
    if cases != [] {
      HeatPointsSpec(cases[..|cases| - 1], weightField);
    }
  }

  // ---------------------------------------------------------------------
  // Ward boundaries
  // ---------------------------------------------------------------------

  const WardNames: seq<string> := [
    "Belsize", "Bloomsbury", "Camden Town with Primrose Hill", "Cantelowes", "Fortune Green",
    "Frognal", "Gospel Oak", "Hampstead Town", "Haverstock", "Highgate",
    "Holborn and Covent Garden", "Kentish Town", "Kilburn", "King's Cross", "Regent's Park",
    "St Pancras and Somers Town", "Swiss Cottage", "West Hampstead"
  ]

  /** No boundary data is loaded for any ward. */
  function WardBounds(wardName: string): seq<seq<real>>
  {
    []
  }

  function WardId(wardName: string): string
  {
    "ward_" + Replace(Lower(wardName), " ", "_")
  }

  method CreateWardBoundariesLayer() returns (layer: MapLayer)
    ensures layer == EmptyLayer("ward_boundaries", "Ward Boundaries", WardBoundaries)
    ensures layer.polygons == []
  {
    var polygons: seq<MapPolygon> := [];
    var i := 0;
    while i < |WardNames|
      invariant 0 <= i <= |WardNames|
      invariant polygons == []
    {
      var name := WardNames[i];
      var bounds := WardBounds(name);
      if bounds != [] {
        polygons := polygons + [MapPolygon(WardId(name), name, bounds, "#3B82F6", 0.1, "#1D4ED8", 2,
                                           map["ward" := JStr(name)])];
      }
      i := i + 1;
    }
    layer := EmptyLayer("ward_boundaries", "Ward Boundaries", WardBoundaries).(polygons := polygons);
  }

  // ---------------------------------------------------------------------
  // Bounds
  // ---------------------------------------------------------------------

  datatype Bounds = Bounds(minLat: real, maxLat: real, minLon: real, maxLon: real)

  const DefaultBounds: Bounds := Bounds(51.5, 51.6, -0.2, -0.1)
  const Padding: real := 0.01

  predicate HasLatitude(c: Case) { c.latitude.Some? && c.latitude.value != 0.0 }
  predicate HasLongitude(c: Case) { c.longitude.Some? && c.longitude.value != 0.0 }

  predicate RecordedLatitude(cases: seq<Case>, x: real)
  {
    exists k :: 0 <= k < |cases| && HasLatitude(cases[k]) && cases[k].latitude.value == x
  }

  predicate RecordedLongitude(cases: seq<Case>, x: real)
  {
    exists k :: 0 <= k < |cases| && HasLongitude(cases[k]) && cases[k].longitude.value == x
  }

  /** `[c["latitude"] for c in cases if c.get("latitude")]` */
  function Latitudes(cases: seq<Case>): (r: seq<real>)
    ensures |r| == CountWhere(cases, HasLatitude)
    ensures forall k :: 0 <= k < |cases| && HasLatitude(cases[k]) ==> cases[k].latitude.value in r
    ensures forall x :: x in r ==> RecordedLatitude(cases, x)
  {
    if cases == [] then []
    else
      var init := Latitudes(cases[..|cases| - 1]);
      var last := cases[|cases| - 1];
      assert forall k :: 0 <= k < |cases| - 1 ==> cases[..|cases| - 1][k] == cases[k];
      init + (if HasLatitude(last) then [last.latitude.value] else [])
  }

  function Longitudes(cases: seq<Case>): (r: seq<real>)
    ensures |r| == CountWhere(cases, HasLongitude)
    ensures forall k :: 0 <= k < |cases| && HasLongitude(cases[k]) ==> cases[k].longitude.value in r
    ensures forall x :: x in r ==> RecordedLongitude(cases, x)
  {
    if cases == [] then []
    else
      var init := Longitudes(cases[..|cases| - 1]);
      var last := cases[|cases| - 1];
      assert forall k :: 0 <= k < |cases| - 1 ==> cases[..|cases| - 1][k] == cases[k];
      init + (if HasLongitude(last) then [last.longitude.value] else [])
  }

  /** Python's `min` of a non-empty list: an element no larger than any other. */
  function SeqMin(xs: seq<real>): (m: real)
    requires xs != []
    ensures m in xs && forall k :: 0 <= k < |xs| ==> m <= xs[k]
  {
    if |xs| == 1 then xs[0]
    else
      var rest := SeqMin(xs[1..]);
      assert forall k :: 1 <= k < |xs| ==> xs[k] == xs[1..][k - 1];
      if xs[0] <= rest then xs[0] else rest
  }

  function SeqMax(xs: seq<real>): (m: real)
    requires xs != []
    ensures m in xs && forall k :: 0 <= k < |xs| ==> xs[k] <= m
  {
    if |xs| == 1 then xs[0]
    else
      var rest := SeqMax(xs[1..]);
      assert forall k :: 1 <= k < |xs| ==> xs[k] == xs[1..][k - 1];
      if rest <= xs[0] then xs[0] else rest
  }

  /** The fixed Camden box without coordinates, else the extremes padded by 0.01. */
  function GetMapBounds(cases: seq<Case>): Bounds
  {
    var lats := Latitudes(cases);
    var lons := Longitudes(cases);
    if lats == [] || lons == [] then DefaultBounds
    else Bounds(SeqMin(lats) - Padding, SeqMax(lats) + Padding, SeqMin(lons) - Padding, SeqMax(lons) + Padding)
  }

  /** Without a recorded latitude or without a recorded longitude, the default box. */
  lemma GetMapBoundsDefault(cases: seq<Case>)
    ensures CountWhere(cases, HasLatitude) == 0 || CountWhere(cases, HasLongitude) == 0 ==>
              GetMapBounds(cases) == DefaultBounds
  {
  }

  /**
   * Otherwise every recorded latitude and longitude lies strictly inside the
   * box, and each edge is exactly 0.01 beyond a recorded coordinate.
   */
  lemma GetMapBoundsContain(cases: seq<Case>)
    requires CountWhere(cases, HasLatitude) > 0 && CountWhere(cases, HasLongitude) > 0
    ensures forall k :: 0 <= k < |cases| && HasLatitude(cases[k]) ==>
              GetMapBounds(cases).minLat < cases[k].latitude.value < GetMapBounds(cases).maxLat
    ensures forall k :: 0 <= k < |cases| && HasLongitude(cases[k]) ==>
              GetMapBounds(cases).minLon < cases[k].longitude.value < GetMapBounds(cases).maxLon
    ensures RecordedLatitude(cases, GetMapBounds(cases).minLat + Padding)
         && RecordedLatitude(cases, GetMapBounds(cases).maxLat - Padding)
    ensures RecordedLongitude(cases, GetMapBounds(cases).minLon + Padding)
         && RecordedLongitude(cases, GetMapBounds(cases).maxLon - Padding)
  {
    var lats, lons := Latitudes(cases), Longitudes(cases);
    var b := GetMapBounds(cases);
    assert b.minLat + Padding == SeqMin(lats) && b.maxLat - Padding == SeqMax(lats);
    assert b.minLon + Padding == SeqMin(lons) && b.maxLon - Padding == SeqMax(lons);
    LatitudesWithin(cases);
    LongitudesWithin(cases);
  }

  lemma LatitudesWithin(cases: seq<Case>)
    requires Latitudes(cases) != []
    ensures forall k :: 0 <= k < |cases| && HasLatitude(cases[k]) ==>
              SeqMin(Latitudes(cases)) <= cases[k].latitude.value <= SeqMax(Latitudes(cases))
    ensures RecordedLatitude(cases, SeqMin(Latitudes(cases))) && RecordedLatitude(cases, SeqMax(Latitudes(cases)))
  {
    var lats := Latitudes(cases);
    forall k | 0 <= k < |cases| && HasLatitude(cases[k])
      ensures SeqMin(lats) <= cases[k].latitude.value <= SeqMax(lats)
    {
      var j :| 0 <= j < |lats| && lats[j] == cases[k].latitude.value;
    }
  }

  lemma LongitudesWithin(cases: seq<Case>)
    requires Longitudes(cases) != []
    ensures forall k :: 0 <= k < |cases| && HasLongitude(cases[k]) ==>
              SeqMin(Longitudes(cases)) <= cases[k].longitude.value <= SeqMax(Longitudes(cases))
    ensures RecordedLongitude(cases, SeqMin(Longitudes(cases))) && RecordedLongitude(cases, SeqMax(Longitudes(cases)))
  {
    var lons := Longitudes(cases);
    forall k | 0 <= k < |cases| && HasLongitude(cases[k])
      ensures SeqMin(lons) <= cases[k].longitude.value <= SeqMax(lons)
    {
      var j :| 0 <= j < |lons| && lons[j] == cases[k].longitude.value;
    }
  }

  // ---------------------------------------------------------------------
  // GeoJSON export
  // ---------------------------------------------------------------------

  /** A GeoJSON position list: one position for a point, one ring of positions for a polygon. */
  datatype Geometry = Point(coordinates: seq<real>) | Polygon(rings: seq<seq<seq<real>>>)

  datatype Feature = Feature(geometry: Geometry, properties: map<string, Json>)

  datatype FeatureCollection = FeatureCollection(features: seq<Feature>)

  /** The marker's metadata is merged over its own fields, as `**marker.metadata` does. */
  function MarkerFeature(m: MapMarker): Feature
  {
    Feature(Point([m.longitude, m.latitude]),
      map["id" := JStr(m.id), "title" := JStr(m.title), "description" := JStr(m.description),
          "color" := JStr(m.color)] + m.metadata)
  }

  /** The stored coordinates become the polygon's only ring, unchanged. */
  function PolygonFeature(p: MapPolygon): Feature
  {
    Feature(Polygon([p.coordinates]),
      map["id" := JStr(p.id), "name" := JStr(p.name), "fill" := JStr(p.fillColor),
          "fill-opacity" := JNum(p.fillOpacity), "stroke" := JStr(p.strokeColor),
          "stroke-width" := JNum(p.strokeWidth as real)] + p.metadata)
  }

  /** One point per marker, in order, each decoding back to its marker's latitude and longitude. */
  function MarkerFeatures(ms: seq<MapMarker>): (r: seq<Feature>)
    ensures |r| == |ms| && forall k :: 0 <= k < |ms| ==> r[k] == MarkerFeature(ms[k])
    ensures forall k :: 0 <= k < |ms| ==>
              r[k].geometry.Point? && |r[k].geometry.coordinates| == 2
              && PointLatLon(r[k]) == (ms[k].latitude, ms[k].longitude)
  {
    seq(|ms|, k requires 0 <= k < |ms| => MarkerFeature(ms[k]))
  }

  function PolygonFeatures(ps: seq<MapPolygon>): (r: seq<Feature>)
    ensures |r| == |ps| && forall k :: 0 <= k < |ps| ==> r[k] == PolygonFeature(ps[k])
  {
    seq(|ps|, k requires 0 <= k < |ps| => PolygonFeature(ps[k]))
  }

  method ExportToGeoJson(layer: MapLayer) returns (fc: FeatureCollection)
    ensures fc.features == MarkerFeatures(layer.markers) + PolygonFeatures(layer.polygons)
  {
    var features: seq<Feature> := [];
    var i := 0;
    while i < |layer.markers|
      invariant 0 <= i <= |layer.markers|
      invariant features == MarkerFeatures(layer.markers[..i])
    {
      features := features + [MarkerFeature(layer.markers[i])];
      i := i + 1;
    }
    assert layer.markers[..i] == layer.markers;
    var j := 0;
    while j < |layer.polygons|
      invariant 0 <= j <= |layer.polygons|
      invariant features == MarkerFeatures(layer.markers) + PolygonFeatures(layer.polygons[..j])
    {
      features := features + [PolygonFeature(layer.polygons[j])];
      j := j + 1;
    }
    assert layer.polygons[..j] == layer.polygons;
    fc := FeatureCollection(features);
  }

  /** The latitude and longitude a GeoJSON point encodes: longitude first (RFC 7946 section 3.1.1). */
  function PointLatLon(f: Feature): (real, real)
    requires f.geometry.Point? && |f.geometry.coordinates| == 2
  {
    (f.geometry.coordinates[1], f.geometry.coordinates[0])
  }

  /**
   * One feature per marker then one per polygon; each marker's point decodes
   * back to the marker's own latitude and longitude and carries its id.
   */
  lemma ExportSpec(layer: MapLayer)
    ensures var fs := MarkerFeatures(layer.markers) + PolygonFeatures(layer.polygons);
            |fs| == |layer.markers| + |layer.polygons|
            && (forall k :: 0 <= k < |layer.markers| ==>
                  fs[k].geometry.Point? && |fs[k].geometry.coordinates| == 2
                  && PointLatLon(fs[k]) == (layer.markers[k].latitude, layer.markers[k].longitude))
            && (forall k :: 0 <= k < |layer.polygons| ==>
                  fs[|layer.markers| + k].geometry == Polygon([layer.polygons[k].coordinates]))
  {
    var fs := MarkerFeatures(layer.markers) + PolygonFeatures(layer.polygons);
    forall k | 0 <= k < |layer.polygons|
      ensures fs[|layer.markers| + k].geometry == Polygon([layer.polygons[k].coordinates])
    {
      assert fs[|layer.markers| + k] == PolygonFeatures(layer.polygons)[k];
    }
  }

  /**
   * As written, a polygon stored as [lat, lon] pairs is exported with the
   * latitude in the position's longitude slot.
   */
  lemma PolygonLatitudeInLongitudeSlot()
    ensures var p := MapPolygon("ca_x", "x", [[51.55, -0.17]], "#22C55E", 0.15, "#15803D", 2, map[]);
            PolygonFeature(p).geometry.rings[0][0][0] == 51.55
  {
  }

  /** Each stored [lat, lon] pair rewritten as a GeoJSON [lon, lat] position. */
  function LonLatRing(coordinates: seq<seq<real>>): (r: seq<seq<real>>)
    requires forall k :: 0 <= k < |coordinates| ==> |coordinates[k]| == 2
    ensures |r| == |coordinates|
    ensures forall k :: 0 <= k < |coordinates| ==> r[k] == [coordinates[k][1], coordinates[k][0]]
  {
    seq(|coordinates|, k requires 0 <= k < |coordinates| => [coordinates[k][1], coordinates[k][0]])
  }

  /** The corrected polygon export, in the same order as the marker export. */
  function PolygonFeatureLonLat(p: MapPolygon): Feature
    requires forall k :: 0 <= k < |p.coordinates| ==> |p.coordinates[k]| == 2
  {
    PolygonFeature(p).(geometry := Polygon([LonLatRing(p.coordinates)]))
  }

  /** Corrected: every exported position decodes back to the stored latitude and longitude. */
  lemma PolygonFeatureLonLatSpec(p: MapPolygon)
    requires forall k :: 0 <= k < |p.coordinates| ==> |p.coordinates[k]| == 2
    ensures var ring := PolygonFeatureLonLat(p).geometry.rings[0];
            |ring| == |p.coordinates|
            && forall k :: 0 <= k < |ring| ==>
                 |ring[k]| == 2 && (ring[k][1], ring[k][0]) == (p.coordinates[k][0], p.coordinates[k][1])
  {
  }
}
