/**
 * The map of Mali's civil-status administration: regions contain cercles,
 * cercles contain communes, communes contain civil-status centres. The
 * component shows one level of that tree as markers, chosen by the zoom bucket,
 * by clicks on markers and by the filter panel, and draws at most one route from
 * the user's position to a centre.
 *
 * Leaflet objects are abstract here: a marker is the record of what it shows
 * and how it is sized, a route is its two end points, and `routesOnMap` lists
 * the routing controls currently added to the Leaflet map.
 */
module MapComponent {
  import opened Wrappers
  import opened JsStrings

  // ---------------------------------------------------------------------------
  // The place hierarchy
  // ---------------------------------------------------------------------------

  /** A region, cercle, commune or centre; a centre has no children. */
  datatype Place = Place(name: string, lat: real, lon: real, weight: int, color: string, children: seq<Place>)

  /** The places shown on the map. */
  const MaliRegionData: seq<Place> := [
    Place("Kayes", 14.4520, -11.4437, 6, "#4CAF50", [
      Place("Bafoulabé", 13.8059, -10.8326, 6, "#FFC107", [
        Place("Bamafélé", 13.3614, -10.8435, 6, "#F44336", [
          Place("Centre d'état civil de Bamafélé", 13.3724, -10.8339, 4, "#2196F3", [])
        ])
      ]),
      Place("Kayes Cercle", 14.4520, -11.4437, 6, "#FFC107", [
        Place("Bangassi", 14.3954, -11.3845, 6, "#F44336", [
          Place("Centre d'état civil de Bangassi", 14.3927, -11.3762, 4, "#2196F3", [])
        ])
      ])
    ]),
    Place("Ménaka", 15.9129, 2.3992, 6, "#4CAF50", [
      Place("Ménaka Cercle", 15.9129, 2.3992, 6, "#FFC107", [
        Place("Inékar", 15.9578, 2.5984, 6, "#F44336", [
          Place("Centre d'état civil d'Inékar", 15.9613, 2.6014, 4, "#2196F3", [])
        ])
      ]),
      Place("Andéramboukane", 15.7193, 3.2856, 6, "#FFC107", [
        Place("Andéramboukane Commune", 15.7193, 3.2856, 6, "#F44336", [
          Place("Centre d'état civil d'Andéramboukane", 15.7225, 3.2893, 4, "#2196F3", [])
        ])
      ])
    ])
  ]

  /** The children of each place, one place after the other. */
  function Children(ps: seq<Place>): (r: seq<Place>)
    ensures forall i, j :: 0 <= i < |ps| && 0 <= j < |ps[i].children| ==> ps[i].children[j] in r
    ensures forall x :: x in r ==> exists i :: 0 <= i < |ps| && x in ps[i].children
  {
    if ps == [] then []
    else
      assert forall i :: 0 <= i < |ps| - 1 ==> ps[1..][i] == ps[i + 1];
      ps[0].children + Children(ps[1..])
  }

  /** The children of two lists of places are those of the first followed by those of the second. */
  lemma {:induction false} ChildrenAppend(a: seq<Place>, b: seq<Place>)
    ensures Children(a + b) == Children(a) + Children(b)
  {
    if a == [] {
      assert a + b == b;
    } else {
      assert (a + b)[0] == a[0];
      assert (a + b)[1..] == a[1..] + b;
      ChildrenAppend(a[1..], b);
    }
  }

  function AllCercles(data: seq<Place>): seq<Place> { Children(data) }
  function AllCommunes(data: seq<Place>): seq<Place> { Children(AllCercles(data)) }
  function AllCenters(data: seq<Place>): seq<Place> { Children(AllCommunes(data)) }

  /** The shipped tree: two regions of two cercles, each cercle one commune, each commune one centre. */
  lemma MaliDataShape()
    ensures |MaliRegionData| == 2
    ensures forall r :: 0 <= r < 2 ==> |MaliRegionData[r].children| == 2
    ensures forall r, c :: 0 <= r < 2 && 0 <= c < 2 ==> |MaliRegionData[r].children[c].children| == 1
    ensures forall r, c :: 0 <= r < 2 && 0 <= c < 2 ==> |MaliRegionData[r].children[c].children[0].children| == 1
  {
  }

  // ---------------------------------------------------------------------------
  // Selection
  // ---------------------------------------------------------------------------

  /** The selected region, the cercle in it and the commune in that; -1 for none. */
  datatype Selection = Selection(region: int, cercle: int, commune: int)

  const NoSelection: Selection := Selection(-1, -1, -1)

  /** Indices in range, and a level selected only below a selected level. */
  predicate ValidSelection(data: seq<Place>, s: Selection) {
    && -1 <= s.region < |data|
    && -1 <= s.cercle && -1 <= s.commune
    && (s.cercle != -1 ==> s.region != -1 && s.cercle < |data[s.region].children|)
    && (s.commune != -1 ==> s.cercle != -1 && s.commune < |data[s.region].children[s.cercle].children|)
  }

  /** The cercles of the selected region; none when no region is selected. */
  function CerclesUnder(data: seq<Place>, s: Selection): seq<Place>
    requires ValidSelection(data, s)
  {
    if s.region != -1 then data[s.region].children else []
  }

  /** The communes of the selected cercle; none when no cercle is selected. */
  function CommunesUnder(data: seq<Place>, s: Selection): seq<Place>
    requires ValidSelection(data, s)
  {
    if s.cercle != -1 then data[s.region].children[s.cercle].children else []
  }

  /** The centres of the selected commune; none when no commune is selected. */
  function CentersUnder(data: seq<Place>, s: Selection): seq<Place>
    requires ValidSelection(data, s)
  {
    if s.commune != -1 then data[s.region].children[s.cercle].children[s.commune].children else []
  }

  // ---------------------------------------------------------------------------
  // Markers
  // ---------------------------------------------------------------------------

  /** A marker: the place it shows, and its icon's size and anchor, normally and on hover. */
  datatype Marker = Marker(title: string, lat: real, lon: real, color: string,
                           size: int, anchor: real, hoverSize: int, hoverAnchor: real)

  /** `createMarker`'s sizing: five pixels per unit of weight, grown by four pixels on hover. */
  function MakeMarker(p: Place): (m: Marker)
    ensures m.title == p.name && m.lat == p.lat && m.lon == p.lon && m.color == p.color
    ensures m.size == 5 * p.weight && m.hoverSize == m.size + 4
    ensures 2.0 * m.anchor == m.size as real && 2.0 * m.hoverAnchor == m.hoverSize as real
  {
    Marker(p.name, p.lat, p.lon, p.color, p.weight * 5, p.weight as real * 2.5, p.weight * 5 + 4, p.weight as real * 2.5 + 2.0)
  }

  /** One marker per place, in order. */
  function Markers(ps: seq<Place>): (ms: seq<Marker>)
    ensures |ms| == |ps| && forall i :: 0 <= i < |ps| ==> ms[i] == MakeMarker(ps[i])
  {
    seq(|ps|, i requires 0 <= i < |ps| => MakeMarker(ps[i]))
  }

  /** A `forEach` over places creating one marker each. */
  method MarkersFor(places: seq<Place>) returns (ms: seq<Marker>)
    ensures ms == Markers(places)
  {
    ms := [];
    var i := 0;
    while i < |places|
      invariant 0 <= i <= |places|
      invariant ms == Markers(places[..i])
    {
      ms := ms + [MakeMarker(places[i])];
      i := i + 1;
    }
    assert places[..i] == places;
  }

  /** The four marker arrays: regions, cercles, communes, civil-status centres. */
  datatype Layers = Layers(regions: seq<Marker>, cercles: seq<Marker>, communes: seq<Marker>, centers: seq<Marker>)

  const NoMarkers: Layers := Layers([], [], [], [])

  // ---------------------------------------------------------------------------
  // Zoom
  // ---------------------------------------------------------------------------

  /** The zoom bucket: centres from 7.5, communes from 6.5, cercles from 6, regions below. */
  function ZoomBucket(zoom: real): (b: int)
    ensures 0 <= b <= 3
    ensures b == 3 <==> zoom >= 7.5
    ensures b >= 2 <==> zoom >= 6.5
    ensures b >= 1 <==> zoom >= 6.0
  {
    if zoom >= 7.5 then 3 else if zoom >= 6.5 then 2 else if zoom >= 6.0 then 1 else 0
  }

  /** Zooming in never lowers the bucket. */
  lemma ZoomBucketMonotone(z1: real, z2: real)
    requires z1 <= z2
    ensures ZoomBucket(z1) <= ZoomBucket(z2)
  {
  }

  datatype ZoomDirection = In | Out

  /** What `handleGeneralZoom` shows for a bucket: every place of that level. */
  function GeneralZoomLayers(data: seq<Place>, level: int, l: Layers): Layers {
    if level == 0 then Layers(Markers(data), [], [], [])
    else if level == 1 then Layers([], Markers(AllCercles(data)), [], [])
    else if level == 2 then l.(cercles := [], communes := Markers(AllCommunes(data)), centers := [])
    else if level == 3 then l.(communes := [], centers := Markers(AllCenters(data)))
    else l
  }

  /** The communes shown for a selected region: the selected cercle's, or every cercle's. */
  function CommunesAround(data: seq<Place>, s: Selection): seq<Place>
    requires ValidSelection(data, s) && s.region != -1
  {
    if s.cercle != -1 then data[s.region].children[s.cercle].children else Children(data[s.region].children)
  }

  /** The centres shown for a selected region: the selected commune's, or every commune's of the region. */
  function CentersAround(data: seq<Place>, s: Selection): seq<Place>
    requires ValidSelection(data, s) && s.region != -1
  {
    if s.cercle != -1 && s.commune != -1 then data[s.region].children[s.cercle].children[s.commune].children
    else Children(Children(data[s.region].children))
  }

  /** `handleZoomChange` with a region selected, by direction: in goes one level below the old bucket, out shows the new bucket. */
  function ZoomWithinRegion(data: seq<Place>, l: Layers, oldLevel: int, newLevel: int, direction: Option<ZoomDirection>, s: Selection): Layers
    requires ValidSelection(data, s) && s.region != -1
  {
    var region := data[s.region];
    if direction == Some(In) then
      if oldLevel == 0 then Layers([], Markers(region.children), [], [])
      else if oldLevel == 1 then l.(cercles := [], communes := Markers(CommunesAround(data, s)), centers := [])
      else if oldLevel == 2 then l.(communes := [], centers := Markers(CentersAround(data, s)))
      else l
    else if direction == Some(Out) then
      if newLevel == 0 then Layers(Markers(data), [], [], [])
      else if newLevel == 1 then Layers([], Markers(region.children), [], [])
      else if newLevel == 2 then l.(cercles := [], communes := Markers(CommunesAround(data, s)), centers := [])
      else l
    else l
  }

  /**
   * The markers `handleZoomChange` leaves, from the markers before, the old and
   * the new bucket, the direction and the selection.
   */
  function ZoomLayers(data: seq<Place>, l: Layers, oldLevel: int, newLevel: int, direction: Option<ZoomDirection>, s: Selection): Layers
    requires ValidSelection(data, s)
  {
    if newLevel == oldLevel then l
    else if s.region == -1 && direction == Some(In) then
      if oldLevel == 0 && newLevel == 1 then Layers([], Markers(AllCercles(data)), [], [])
      else GeneralZoomLayers(data, newLevel, l)
    else if s.region != -1 then ZoomWithinRegion(data, l, oldLevel, newLevel, direction, s)
    else GeneralZoomLayers(data, newLevel, l)
  }

  /** The places of a level: regions, cercles, communes or centres. */
  function PlacesAt(data: seq<Place>, level: int): seq<Place> {
    if level == 0 then data
    else if level == 1 then AllCercles(data)
    else if level == 2 then AllCommunes(data)
    else AllCenters(data)
  }

  /** The marker array of a level. */
  function LayerAt(l: Layers, level: int): seq<Marker> {
    if level == 0 then l.regions
    else if level == 1 then l.cercles
    else if level == 2 then l.communes
    else l.centers
  }

  /**
   * With nothing selected, a change of bucket shows every place of the new
   * bucket's level and nothing below it, whatever the direction.
   */
  lemma NothingSelectedZoomShowsLevel(data: seq<Place>, l: Layers, oldLevel: int, newLevel: int, direction: Option<ZoomDirection>)
    requires 0 <= newLevel <= 3 && newLevel != oldLevel
    ensures var after := ZoomLayers(data, l, oldLevel, newLevel, direction, NoSelection);
      && LayerAt(after, newLevel) == Markers(PlacesAt(data, newLevel))
      && forall below :: newLevel < below <= 3 ==> LayerAt(after, below) == []
  {
  }

  /** Zooming from regions to cercles with nothing selected shows what the general rule shows for cercles. */
  lemma ExplosionMatchesGeneralZoom(data: seq<Place>, l: Layers)
    ensures ZoomLayers(data, l, 0, 1, Some(In), NoSelection) == GeneralZoomLayers(data, 1, l)
  {
  }

  /** Zooming out to the region bucket always shows every region and nothing else. */
  lemma ZoomOutToRegionsShowsRegions(data: seq<Place>, l: Layers, oldLevel: int, s: Selection)
    requires ValidSelection(data, s) && oldLevel != 0
    ensures ZoomLayers(data, l, oldLevel, 0, Some(Out), s) == Layers(Markers(data), [], [], [])
  {
  }

  // ---------------------------------------------------------------------------
  // The filter panel
  // ---------------------------------------------------------------------------

  /** The four boxes of the filter panel, region, cercle, commune and centre: the selects or the search inputs. */
  datatype PanelText = PanelText(region: string, cercle: string, commune: string, center: string)

  const EmptyPanel: PanelText := PanelText("", "", "", "")

  /** The four option lists of the filter panel. */
  datatype PlaceLists = PlaceLists(regions: seq<Place>, cercles: seq<Place>, communes: seq<Place>, centers: seq<Place>)

  /** `index.toString()` for a selected index, `''` for none; the text reads back as the index. */
  function IndexText(i: int): (t: string)
    requires -1 <= i
    ensures t == "" <==> i == -1
    ensures i != -1 ==> ParseDecimal(t) == Some(i)
  {
    if i == -1 then "" else ParseDecimalNatToString(i); NatToString(i)
  }

  /** A select's value: `''` for none, or the decimal index of one of `count` options. */
  predicate FilterNames(filter: string, count: int) {
    filter == "" || (ParseDecimal(filter).Some? && ParseDecimal(filter).value < count)
  }

  /** The values the panel's selects can hold: each names an option of the list under the selection above it. */
  predicate PanelNames(data: seq<Place>, s: Selection, f: PanelText) {
    && ValidSelection(data, s)
    && FilterNames(f.region, |data|)
    && (s.region != -1 ==> FilterNames(f.cercle, |CerclesUnder(data, s)|))
    && (s.cercle != -1 ==> FilterNames(f.commune, |CommunesUnder(data, s)|))
    && (s.commune != -1 ==> FilterNames(f.center, |CentersUnder(data, s)|))
  }

  /** `filter(p => p.name.toLowerCase().includes(searchText))`. */
  function NameFilter(ps: seq<Place>, searchText: string): (r: seq<Place>)
    ensures |r| <= |ps|
  {
    if ps == [] then []
    else (if Includes(ToLower(ps[0].name), searchText) then [ps[0]] else []) + NameFilter(ps[1..], searchText)
  }

  /** A place is kept exactly when it is one of the places and its lower-cased name contains the search text. */
  lemma {:induction false} NameFilterKeeps(ps: seq<Place>, searchText: string, p: Place)
    ensures p in NameFilter(ps, searchText) <==> p in ps && Includes(ToLower(p.name), searchText)
  {
    if ps != [] {
      NameFilterKeeps(ps[1..], searchText, p);
      assert ps == [ps[0]] + ps[1..];
    }
  }

  /** The filter keeps the places in their original order: it distributes over concatenation. */
  lemma {:induction false} NameFilterAppend(a: seq<Place>, b: seq<Place>, searchText: string)
    ensures NameFilter(a + b, searchText) == NameFilter(a, searchText) + NameFilter(b, searchText)
  {
    if a == [] {
      assert a + b == b;
    } else {
      var head := if Includes(ToLower(a[0].name), searchText) then [a[0]] else [];
      assert (a + b)[0] == a[0];
      assert (a + b)[1..] == a[1..] + b;
      assert NameFilter(a + b, searchText) == head + NameFilter(a[1..] + b, searchText);
      NameFilterAppend(a[1..], b, searchText);
      assert NameFilter(a, searchText) == head + NameFilter(a[1..], searchText);
    }
  }

  /**
   * `filter*ByInput`: every place for blank input, otherwise the places whose
   * lower-cased name contains the lower-cased (untrimmed) input.
   */
  function SearchPlaces(ps: seq<Place>, input: string): seq<Place> {
    if AllWhitespace(input) then ps else NameFilter(ps, ToLower(input))
  }

  /** The blank test is the source's `input.trim() === ''`. */
  lemma SearchPlacesByTrim(ps: seq<Place>, input: string)
    ensures SearchPlaces(ps, input) == if Trim(input) == "" then ps else NameFilter(ps, ToLower(input))
  {
    TrimEmptyIffBlank(input);
  }

  /** The search ignores the case of what is typed: lower-cased input finds the same places. */
  lemma SearchIgnoresInputCase(ps: seq<Place>, input: string)
    ensures SearchPlaces(ps, ToLower(input)) == SearchPlaces(ps, input)
  {
    ToLowerKeepsBlank(input);
    ToLowerIdempotent(input);
  }

  // ---------------------------------------------------------------------------
  // Routes
  // ---------------------------------------------------------------------------

  datatype LatLng = LatLng(lat: real, lng: real)

  /** A routing control: from the user's position to a place. */
  datatype Route = Route(from: LatLng, to: LatLng)

  /** `map.removeControl`: the control no longer on the map, the others kept. */
  function RemoveRoute(routes: seq<Route>, r: Route): (rest: seq<Route>)
    ensures |rest| <= |routes|
    ensures forall x :: x in rest <==> x in routes && x != r
  {
    if routes == [] then []
    else (if routes[0] == r then [] else [routes[0]]) + RemoveRoute(routes[1..], r)
  }

  /** The routing controls on the map are exactly the component's own, if it has one. */
  predicate OneRouteShown(control: Option<Route>, onMap: seq<Route>) {
    onMap == if control.Some? then [control.value] else []
  }

  // ---------------------------------------------------------------------------
  // The component
  // ---------------------------------------------------------------------------

  class MapComponentState {
    /** The place tree the component was built with. */
    const regionData: seq<Place>

    var markers: Layers
    var selected: Selection

    var currentZoomLevel: int
    var lastZoomLevel: real
    var zoomDirection: Option<ZoomDirection>

    var selectedFilters: PanelText
    var searchInputs: PanelText
    var available: PlaceLists

    var userLatLng: Option<LatLng>
    var accuracyRadius: Option<real>
    var routingControl: Option<Route>
    var routesOnMap: seq<Route>

    /** The component's invariant: a nested, in-range selection, a bucket in 0..3 and at most one route. */
    predicate Valid()
      reads this
    {
      && ValidSelection(regionData, selected)
      && 0 <= currentZoomLevel <= 3
      && OneRouteShown(routingControl, routesOnMap)
    }

    /** The state `resetFilters` leaves. */
    predicate IsReset()
      reads this
    {
      && selectedFilters == EmptyPanel && searchInputs == EmptyPanel
      && selected == NoSelection
      && available == PlaceLists(regionData, [], [], [])
      && markers == Layers(Markers(regionData), [], [], [])
      && currentZoomLevel == 0
      && routingControl == None && routesOnMap == []
    }

    /** The field initialisers: nothing shown, nothing selected, bucket 0, no position, no route. */
    constructor()
      ensures regionData == MaliRegionData
      ensures Valid() && PanelNames(regionData, selected, selectedFilters)
      ensures markers == NoMarkers && selected == NoSelection
      ensures currentZoomLevel == 0 && lastZoomLevel == 0.0 && zoomDirection == None
      ensures selectedFilters == EmptyPanel && searchInputs == EmptyPanel && available == PlaceLists([], [], [], [])
      ensures userLatLng == None && accuracyRadius == None && routingControl == None && routesOnMap == []
    {
      regionData := MaliRegionData;
      markers := NoMarkers;
      selected := NoSelection;
      currentZoomLevel, lastZoomLevel, zoomDirection := 0, 0.0, None;
      selectedFilters, searchInputs := EmptyPanel, EmptyPanel;
      available := PlaceLists([], [], [], []);
      userLatLng, accuracyRadius, routingControl, routesOnMap := None, None, None, [];
    }

    // -------------------------------------------------------------------------
    // The clearing cascade
    // -------------------------------------------------------------------------

    /** `clearCommuneAndLowerMarkers`: empties the commune and centre markers only. */
    method ClearCommuneAndLowerMarkers()
      modifies this`markers
      ensures markers == old(markers).(communes := [], centers := [])
    {
      markers := markers.(communes := []);
      markers := markers.(centers := []);
    }

    /** `clearCercleAndLowerMarkers`: empties the cercle, commune and centre markers, keeps the regions. */
    method ClearCercleAndLowerMarkers()
      modifies this`markers
      ensures markers == old(markers).(cercles := [], communes := [], centers := [])
    {
      markers := markers.(cercles := []);
      ClearCommuneAndLowerMarkers();
    }

    /** `clearAllMarkers`: empties all four marker arrays. */
    method ClearAllMarkers()
      modifies this`markers
      ensures markers == NoMarkers
    {
      markers := markers.(regions := []);
      ClearCercleAndLowerMarkers();
    }

    // -------------------------------------------------------------------------
    // Initialisation
    // -------------------------------------------------------------------------

    /** `initializeRegionMarkers`: one marker per region, bucket 0, nothing selected. */
    method InitializeRegionMarkers()
      modifies this`markers, this`currentZoomLevel, this`selected
      ensures markers == Layers(Markers(regionData), [], [], [])
      ensures currentZoomLevel == 0 && selected == NoSelection
    {
      ClearAllMarkers();
      var ms := MarkersFor(regionData);
      markers := markers.(regions := markers.regions + ms);
      currentZoomLevel := 0;
      selected := NoSelection;
    }

    /** `ngOnInit` without the map set-up and the position request: the region markers and the full region list. */
    method NgOnInit()
      requires Valid()
      modifies this`markers, this`currentZoomLevel, this`selected, this`available
      ensures Valid()
      ensures markers == Layers(Markers(regionData), [], [], [])
      ensures currentZoomLevel == 0 && selected == NoSelection
      ensures available == old(available).(regions := regionData)
    {
      InitializeRegionMarkers();
      available := available.(regions := regionData);
    }

    // -------------------------------------------------------------------------
    // Zoom
    // -------------------------------------------------------------------------

    /** The `zoomstart` handler: remembers the zoom the gesture starts from. */
    method ZoomStart(zoom: real)
      modifies this`lastZoomLevel
      ensures lastZoomLevel == zoom
    {
      lastZoomLevel := zoom;
    }

    /** The `zoomend` handler: `in` exactly when the new zoom is above the last one, then `handleZoomChange`. */
    method ZoomEnd(zoom: real)
      requires Valid()
      modifies this`zoomDirection, this`markers, this`currentZoomLevel
      ensures Valid()
      ensures zoomDirection == Some(if zoom > lastZoomLevel then In else Out)
      ensures currentZoomLevel == ZoomBucket(zoom)
      ensures markers == ZoomLayers(regionData, old(markers), old(currentZoomLevel), ZoomBucket(zoom), zoomDirection, selected)
    {
      zoomDirection := Some(if zoom > lastZoomLevel then In else Out);
      HandleZoomChange(zoom);
    }

    /** `handleGeneralZoom`: every place of the current bucket's level. */
    method HandleGeneralZoom()
      modifies this`markers
      ensures markers == GeneralZoomLayers(regionData, currentZoomLevel, old(markers))
    {
      if currentZoomLevel == 0 {
        ClearAllMarkers();
        var ms := MarkersFor(regionData);
        markers := markers.(regions := markers.regions + ms);
      } else if currentZoomLevel == 1 {
        ClearAllMarkers();
        var ms := MarkersFor(AllCercles(regionData));
        markers := markers.(cercles := markers.cercles + ms);
      } else if currentZoomLevel == 2 {
        ClearCercleAndLowerMarkers();
        var ms := MarkersFor(AllCommunes(regionData));
        markers := markers.(communes := markers.communes + ms);
      } else if currentZoomLevel == 3 {
        ClearCommuneAndLowerMarkers();
        var ms := MarkersFor(AllCenters(regionData));
        markers := markers.(centers := markers.centers + ms);
      }
    }

    /** The branch of `handleZoomChange` taken while a region is selected. */
    method ZoomWithinSelectedRegion(oldZoomLevel: int, newZoomLevel: int)
      requires ValidSelection(regionData, selected) && selected.region != -1
      modifies this`markers
      ensures markers == ZoomWithinRegion(regionData, old(markers), oldZoomLevel, newZoomLevel, zoomDirection, selected)
    {
      var region := regionData[selected.region];
      if zoomDirection == Some(In) {
        if oldZoomLevel == 0 {
          ClearAllMarkers();
          var ms := MarkersFor(region.children);
          markers := markers.(cercles := markers.cercles + ms);
        } else if oldZoomLevel == 1 {
          ClearCercleAndLowerMarkers();
          var ms := MarkersFor(CommunesAround(regionData, selected));
          markers := markers.(communes := markers.communes + ms);
        } else if oldZoomLevel == 2 {
          ClearCommuneAndLowerMarkers();
          var ms := MarkersFor(CentersAround(regionData, selected));
          markers := markers.(centers := markers.centers + ms);
        }
      } else if zoomDirection == Some(Out) {
        if newZoomLevel == 0 {
          ClearAllMarkers();
          var ms := MarkersFor(regionData);
          markers := markers.(regions := markers.regions + ms);
        } else if newZoomLevel == 1 {
          ClearAllMarkers();
          var ms := MarkersFor(region.children);
          markers := markers.(cercles := markers.cercles + ms);
        } else if newZoomLevel == 2 {
          ClearCercleAndLowerMarkers();
          var ms := MarkersFor(CommunesAround(regionData, selected));
          markers := markers.(communes := markers.communes + ms);
        }
      }
    }

    /** `handleZoomChange`: when the bucket changes, the markers the direction and the selection call for. */
    method HandleZoomChange(zoom: real)
      requires Valid()
      modifies this`markers, this`currentZoomLevel
      ensures Valid()
      ensures currentZoomLevel == ZoomBucket(zoom)
      ensures markers == ZoomLayers(regionData, old(markers), old(currentZoomLevel), ZoomBucket(zoom), zoomDirection, selected)
      ensures ZoomBucket(zoom) == old(currentZoomLevel) ==> markers == old(markers)
    {
      var newZoomLevel := ZoomBucket(zoom);
      if newZoomLevel != currentZoomLevel {
        var oldZoomLevel := currentZoomLevel;
        currentZoomLevel := newZoomLevel;
        if selected.region == -1 && zoomDirection == Some(In) {
          if oldZoomLevel == 0 && newZoomLevel == 1 {
            ClearAllMarkers();
            var ms := MarkersFor(AllCercles(regionData));
            markers := markers.(cercles := markers.cercles + ms);
            return;
          }
          HandleGeneralZoom();
          return;
        }
        if selected.region != -1 {
          ZoomWithinSelectedRegion(oldZoomLevel, newZoomLevel);
        } else {
          HandleGeneralZoom();
        }
      }
    }

    // -------------------------------------------------------------------------
    // Routes and the user's position
    // -------------------------------------------------------------------------

    /** `clearRoute`: removes the routing control, if any. */
    method ClearRoute()
      requires OneRouteShown(routingControl, routesOnMap)
      modifies this`routingControl, this`routesOnMap
      ensures routingControl == None && routesOnMap == []
    {
      if routingControl.Some? {
        assert routesOnMap[1..] == [];
        routesOnMap := RemoveRoute(routesOnMap, routingControl.value);
        routingControl := None;
      }
    }

    /** `createRoute`: the existing control is removed before the new one is added, so one route remains. */
    method CreateRoute(lat: real, lon: real)
      requires OneRouteShown(routingControl, routesOnMap) && userLatLng.Some?
      modifies this`routingControl, this`routesOnMap
      ensures routingControl == Some(Route(userLatLng.value, LatLng(lat, lon)))
      ensures OneRouteShown(routingControl, routesOnMap)
    {
      ClearRoute();
      var control := Route(userLatLng.value, LatLng(lat, lon));
      routesOnMap := routesOnMap + [control];
      routingControl := Some(control);
    }

    /** `handleCivilStatusCenterClick`: a route to the centre, or nothing when the user's position is unknown. */
    method HandleCivilStatusCenterClick(center: Place)
      requires OneRouteShown(routingControl, routesOnMap)
      modifies this`routingControl, this`routesOnMap
      ensures OneRouteShown(routingControl, routesOnMap)
      ensures userLatLng.None? ==> routingControl == old(routingControl) && routesOnMap == old(routesOnMap)
      ensures userLatLng.Some? ==> routingControl == Some(Route(userLatLng.value, LatLng(center.lat, center.lon)))
    {
      if userLatLng.None? {
        return;
      }
      CreateRoute(center.lat, center.lon);
    }

    /** `updateUserLocationOnMap`: the position routes start from, and the radius of the accuracy circle. */
    method UpdateUserLocationOnMap(latitude: real, longitude: real, accuracy: real)
      modifies this`userLatLng, this`accuracyRadius
      ensures userLatLng == Some(LatLng(latitude, longitude)) && accuracyRadius == Some(accuracy)
    {
      userLatLng := Some(LatLng(latitude, longitude));
      accuracyRadius := Some(accuracy);
    }

    // -------------------------------------------------------------------------
    // Keeping the panel in line with the selection
    // -------------------------------------------------------------------------

    /**
     * `updateFilterOptions`: each select shows its selected index (`''` for
     * none), and each option list holds the children of the selected parent
     * (`[]` while that parent is not selected). The centre select is left alone.
     */
    method UpdateFilterOptions()
      requires ValidSelection(regionData, selected)
      modifies this`selectedFilters, this`available
      ensures selectedFilters == old(selectedFilters).(region := IndexText(selected.region),
        cercle := IndexText(selected.cercle), commune := IndexText(selected.commune))
      ensures available == old(available).(cercles := CerclesUnder(regionData, selected),
        communes := CommunesUnder(regionData, selected), centers := CentersUnder(regionData, selected))
      ensures selected.commune == -1 ==> PanelNames(regionData, selected, selectedFilters)
    {
      selectedFilters := selectedFilters.(
        region := if selected.region != -1 then NatToString(selected.region) else "",
        cercle := if selected.cercle != -1 then NatToString(selected.cercle) else "",
        commune := if selected.commune != -1 then NatToString(selected.commune) else "");
      if selected.region != -1 {
        available := available.(cercles := regionData[selected.region].children);
        if selected.cercle != -1 {
          available := available.(communes := regionData[selected.region].children[selected.cercle].children);
          if selected.commune != -1 {
            available := available.(centers := regionData[selected.region].children[selected.cercle].children[selected.commune].children);
          } else {
            available := available.(centers := []);
          }
        } else {
          available := available.(communes := [], centers := []);
        }
      } else {
        available := available.(cercles := [], communes := [], centers := []);
      }
      var _ := IndexText(selected.region);
      var _ := IndexText(selected.cercle);
      var _ := IndexText(selected.commune);
    }

    // -------------------------------------------------------------------------
    // Clicks on markers
    // -------------------------------------------------------------------------

    /**
     * `handleRegionMarkerClick`: select the region, dropping the route when
     * another region was selected; once the explosion is over, show its
     * cercles and bring the panel in line.
     */
    method HandleRegionMarkerClick(regionIndex: int)
      requires Valid() && 0 <= regionIndex < |regionData|
      modifies this`selected, this`markers, this`selectedFilters, this`available, this`routingControl, this`routesOnMap
      ensures Valid() && PanelNames(regionData, selected, selectedFilters)
      ensures selected == Selection(regionIndex, -1, -1)
      ensures markers == Layers([], Markers(regionData[regionIndex].children), [], [])
      ensures selectedFilters == old(selectedFilters).(region := NatToString(regionIndex), cercle := "", commune := "")
      ensures available == old(available).(cercles := regionData[regionIndex].children, communes := [], centers := [])
      ensures old(selected.region) != -1 && old(selected.region) != regionIndex ==> routingControl == None
      ensures old(selected.region) == -1 || old(selected.region) == regionIndex ==>
        routingControl == old(routingControl) && routesOnMap == old(routesOnMap)
    {
      var changingRegion := selected.region != -1 && selected.region != regionIndex;
      if changingRegion {
        ClearRoute();
      }
      selected := Selection(regionIndex, -1, -1);
      var region := regionData[regionIndex];
      ClearAllMarkers();
      var ms := MarkersFor(region.children);
      markers := markers.(cercles := markers.cercles + ms);
      UpdateFilterOptions();
    }

    /** `handleCercleMarkerClick`: select the cercle; once the explosion is over, show its communes and bring the panel in line. */
    method HandleCercleMarkerClick(regionIndex: int, cercleIndex: int)
      requires Valid() && ValidSelection(regionData, Selection(regionIndex, cercleIndex, -1)) && cercleIndex != -1
      modifies this`selected, this`markers, this`selectedFilters, this`available
      ensures Valid() && PanelNames(regionData, selected, selectedFilters)
      ensures selected == Selection(regionIndex, cercleIndex, -1)
      ensures markers == old(markers).(cercles := [], communes := Markers(regionData[regionIndex].children[cercleIndex].children), centers := [])
      ensures selectedFilters == old(selectedFilters).(region := NatToString(regionIndex),
        cercle := NatToString(cercleIndex), commune := "")
      ensures available == old(available).(cercles := regionData[regionIndex].children,
        communes := regionData[regionIndex].children[cercleIndex].children, centers := [])
    {
      selected := Selection(regionIndex, cercleIndex, -1);
      var cercle := regionData[regionIndex].children[cercleIndex];
      ClearCercleAndLowerMarkers();
      var ms := MarkersFor(cercle.children);
      assert markers.communes + ms == ms;
      markers := markers.(communes := markers.communes + ms);
      assert markers == old(markers).(cercles := [], communes := Markers(cercle.children), centers := []);
      UpdateFilterOptions();
    }

    /**
     * `handleCommuneMarkerClick`: select the commune; once the explosion is over,
     * show its centres and bring the panel in line. `updateFilterOptions` never
     * writes the centre select, so the centre select keeps the value it had before
     * the click, which need not name a centre of the new commune. Unlike the other
     * two click handlers, this one therefore does not ensure `PanelNames`; a caller
     * must re-establish it before `OnCenterFilterChange`.
     */
    method HandleCommuneMarkerClick(regionIndex: int, cercleIndex: int, communeIndex: int)
      requires Valid() && ValidSelection(regionData, Selection(regionIndex, cercleIndex, communeIndex)) && communeIndex != -1
      modifies this`selected, this`markers, this`selectedFilters, this`available
      ensures Valid()
      ensures selected == Selection(regionIndex, cercleIndex, communeIndex)
      ensures markers == old(markers).(communes := [], centers := Markers(CentersUnder(regionData, selected)))
      ensures selectedFilters == old(selectedFilters).(region := IndexText(regionIndex),
        cercle := IndexText(cercleIndex), commune := IndexText(communeIndex))
      ensures available == old(available).(cercles := CerclesUnder(regionData, selected),
        communes := CommunesUnder(regionData, selected), centers := CentersUnder(regionData, selected))
    {
      selected := Selection(regionIndex, cercleIndex, communeIndex);
      var commune := regionData[regionIndex].children[cercleIndex].children[communeIndex];
      assert commune.children == CentersUnder(regionData, selected);
      ClearCommuneAndLowerMarkers();
      var ms := MarkersFor(commune.children);
      assert markers.centers + ms == ms;
      markers := markers.(centers := markers.centers + ms);
      assert markers == old(markers).(communes := [], centers := Markers(CentersUnder(regionData, selected)));
      UpdateFilterOptions();
    }

    // -------------------------------------------------------------------------
    // The panel's selects
    // -------------------------------------------------------------------------

    /** `resetFilters`: everything back to the start, every region shown, no route. */
    method ResetFilters()
      requires Valid()
      modifies this`selectedFilters, this`searchInputs, this`selected, this`available, this`markers,
               this`currentZoomLevel, this`routingControl, this`routesOnMap
      ensures Valid() && PanelNames(regionData, selected, selectedFilters) && IsReset()
    {
      selectedFilters := EmptyPanel;
      searchInputs := EmptyPanel;
      selected := NoSelection;
      available := PlaceLists(regionData, [], [], []);
      ClearAllMarkers();
      InitializeRegionMarkers();
      ClearRoute();
      currentZoomLevel := 0;
    }

    /** What `onRegionFilterChange` leaves when its select names region `r`. */
    twostate predicate RegionChosen(r: int)
      reads this
      requires 0 <= r < |regionData|
    {
      && selected == Selection(r, -1, -1)
      && available == old(available).(cercles := regionData[r].children, communes := [], centers := [])
      && selectedFilters == old(selectedFilters).(cercle := "", commune := "", center := "")
      && markers == Layers([MakeMarker(regionData[r])], [], [], [])
      && currentZoomLevel == old(currentZoomLevel) && searchInputs == old(searchInputs)
      && routingControl == old(routingControl) && routesOnMap == old(routesOnMap)
    }

    /** Everything `onRegionFilterChange` can leave: a reset for `''`, otherwise the named region chosen. */
    twostate predicate RegionFilterOutcome()
      reads this
      requires old(FilterNames(selectedFilters.region, |regionData|))
    {
      if old(selectedFilters.region) == "" then IsReset()
      else RegionChosen(ParseDecimal(old(selectedFilters.region)).value)
    }

    /** `onRegionFilterChange`: `''` resets everything; an index selects that region and shows its marker alone. */
    method OnRegionFilterChange()
      requires Valid() && FilterNames(selectedFilters.region, |regionData|)
      modifies this`selectedFilters, this`searchInputs, this`selected, this`available, this`markers,
               this`currentZoomLevel, this`routingControl, this`routesOnMap
      ensures Valid() && PanelNames(regionData, selected, selectedFilters)
      ensures old(selectedFilters.region) == "" ==> IsReset()
      ensures old(selectedFilters.region) != "" ==> RegionChosen(ParseDecimal(old(selectedFilters.region)).value)
      ensures RegionFilterOutcome()
    {
      if selectedFilters.region == "" {
        ResetFilters();
        return;
      }
      var regionIndex := ParseDecimal(selectedFilters.region).value;
      selected := Selection(regionIndex, -1, -1);
      available := available.(cercles := regionData[regionIndex].children, communes := [], centers := []);
      selectedFilters := selectedFilters.(cercle := "", commune := "", center := "");
      ClearAllMarkers();
      var region := regionData[regionIndex];
      markers := markers.(regions := markers.regions + [MakeMarker(region)]);
    }

    /** What `onCercleFilterChange` leaves when its select names cercle `c` of the selected region. */
    twostate predicate CercleChosen(c: int)
      reads this
      requires old(ValidSelection(regionData, selected)) && old(selected.region) != -1
      requires 0 <= c < |regionData[old(selected.region)].children|
    {
      var r := old(selected.region);
      && selected == Selection(r, c, -1)
      && available == old(available).(communes := regionData[r].children[c].children, centers := [])
      && selectedFilters == old(selectedFilters).(commune := "", center := "")
      && markers == Layers([], [MakeMarker(regionData[r].children[c])], [], [])
      && currentZoomLevel == old(currentZoomLevel) && searchInputs == old(searchInputs)
      && routingControl == old(routingControl) && routesOnMap == old(routesOnMap)
    }

    /**
     * Everything `onCercleFilterChange` can leave: a reset without a region,
     * `onRegionFilterChange`'s outcome when no cercle is named, otherwise the
     * named cercle chosen.
     */
    twostate predicate CercleFilterOutcome()
      reads this
      requires old(PanelNames(regionData, selected, selectedFilters))
    {
      if old(selected.region) == -1 then IsReset()
      else if old(selectedFilters.cercle) == "" then RegionFilterOutcome()
      else CercleChosen(ParseDecimal(old(selectedFilters.cercle)).value)
    }

    /**
     * `onCercleFilterChange`: with no cercle named or no region selected, fall
     * back to the region select (or reset); otherwise select the cercle and
     * show its marker alone.
     */
    method OnCercleFilterChange()
      requires Valid() && PanelNames(regionData, selected, selectedFilters)
      modifies this`selectedFilters, this`searchInputs, this`selected, this`available, this`markers,
               this`currentZoomLevel, this`routingControl, this`routesOnMap
      ensures Valid() && PanelNames(regionData, selected, selectedFilters)
      ensures old(selected.region) == -1 ==> IsReset()
      ensures old(selected.region) != -1 && old(selectedFilters.cercle) == "" ==>
        (old(selectedFilters.region) == "" ==> IsReset())
        && (old(selectedFilters.region) != "" ==> RegionChosen(ParseDecimal(old(selectedFilters.region)).value))
      ensures old(selected.region) != -1 && old(selectedFilters.cercle) != "" ==>
        CercleChosen(ParseDecimal(old(selectedFilters.cercle)).value)
      ensures CercleFilterOutcome()
    {
      if selectedFilters.cercle == "" || selected.region == -1 {
        if selected.region != -1 {
          OnRegionFilterChange();
        } else {
          ResetFilters();
        }
        return;
      }
      var cercleIndex := ParseDecimal(selectedFilters.cercle).value;
      selected := selected.(cercle := cercleIndex, commune := -1);
      available := available.(communes := regionData[selected.region].children[cercleIndex].children, centers := []);
      selectedFilters := selectedFilters.(commune := "", center := "");
      ClearAllMarkers();
      var cercle := regionData[selected.region].children[cercleIndex];
      markers := markers.(cercles := markers.cercles + [MakeMarker(cercle)]);
    }

    /** What `onCommuneFilterChange` leaves when its select names commune `m` of the selected cercle. */
    twostate predicate CommuneChosen(m: int)
      reads this
      requires old(ValidSelection(regionData, selected)) && old(selected.cercle) != -1
      requires 0 <= m < |regionData[old(selected.region)].children[old(selected.cercle)].children|
    {
      var r := old(selected.region);
      var c := old(selected.cercle);
      && selected == Selection(r, c, m)
      && available == old(available).(centers := regionData[r].children[c].children[m].children)
      && selectedFilters == old(selectedFilters).(center := "")
      && markers == Layers([], [], [MakeMarker(regionData[r].children[c].children[m])], [])
      && currentZoomLevel == old(currentZoomLevel) && searchInputs == old(searchInputs)
      && routingControl == old(routingControl) && routesOnMap == old(routesOnMap)
    }

    /**
     * Everything `onCommuneFilterChange` can leave: the named commune chosen,
     * or the outcome of the nearest selected level above, or a reset.
     */
    twostate predicate CommuneFilterOutcome()
      reads this
      requires old(PanelNames(regionData, selected, selectedFilters))
    {
      if old(selected.cercle) != -1 && old(selectedFilters.commune) != "" then
        CommuneChosen(ParseDecimal(old(selectedFilters.commune)).value)
      else if old(selected.cercle) != -1 then CercleFilterOutcome()
      else if old(selected.region) != -1 then RegionFilterOutcome()
      else IsReset()
    }

    /** What `onCenterFilterChange` leaves when its select names centre `k` of the selected commune. */
    twostate predicate CenterChosen(k: int)
      reads this
      requires old(ValidSelection(regionData, selected)) && old(selected.commune) != -1
      requires 0 <= k < |CentersUnder(regionData, old(selected))|
    {
      var center := CentersUnder(regionData, old(selected))[k];
      && markers == Layers([], [], [], [MakeMarker(center)])
      && selected == old(selected) && selectedFilters == old(selectedFilters) && available == old(available)
      && currentZoomLevel == old(currentZoomLevel) && searchInputs == old(searchInputs)
      && (userLatLng.Some? ==> routingControl == Some(Route(userLatLng.value, LatLng(center.lat, center.lon))))
      && (userLatLng.None? ==> routingControl == old(routingControl) && routesOnMap == old(routesOnMap))
    }

    /**
     * Everything `onCenterFilterChange` can leave: the named centre shown and
     * routed to, or the outcome of the nearest selected level above, or a reset.
     */
    twostate predicate CenterFilterOutcome()
      reads this
      requires old(PanelNames(regionData, selected, selectedFilters))
    {
      if old(selected.commune) != -1 && old(selectedFilters.center) != "" then
        CenterChosen(ParseDecimal(old(selectedFilters.center)).value)
      else if old(selected.commune) != -1 then CommuneFilterOutcome()
      else if old(selected.cercle) != -1 then CercleFilterOutcome()
      else if old(selected.region) != -1 then RegionFilterOutcome()
      else IsReset()
    }

    /**
     * `onCommuneFilterChange`: with no commune named or no cercle selected,
     * fall back to the nearest selected level above; otherwise select the
     * commune and show its marker alone.
     */
    method OnCommuneFilterChange()
      requires Valid() && PanelNames(regionData, selected, selectedFilters)
      modifies this`selectedFilters, this`searchInputs, this`selected, this`available, this`markers,
               this`currentZoomLevel, this`routingControl, this`routesOnMap
      ensures Valid() && PanelNames(regionData, selected, selectedFilters)
      ensures old(selected.cercle) != -1 && old(selectedFilters.commune) != "" ==>
        CommuneChosen(ParseDecimal(old(selectedFilters.commune)).value)
      ensures old(selected.cercle) != -1 && old(selectedFilters.commune) == "" && old(selectedFilters.cercle) != "" ==>
        CercleChosen(ParseDecimal(old(selectedFilters.cercle)).value)
      ensures old(selected.cercle) == -1 && old(selected.region) != -1 && old(selectedFilters.region) != "" ==>
        RegionChosen(ParseDecimal(old(selectedFilters.region)).value)
      ensures old(selected.region) == -1 ==> IsReset()
      ensures CommuneFilterOutcome()
    {
      if selectedFilters.commune == "" || selected.cercle == -1 {
        if selected.cercle != -1 {
          OnCercleFilterChange();
        } else if selected.region != -1 {
          OnRegionFilterChange();
        } else {
          ResetFilters();
        }
        return;
      }
      var communeIndex := ParseDecimal(selectedFilters.commune).value;
      selected := selected.(commune := communeIndex);
      available := available.(centers := regionData[selected.region].children[selected.cercle].children[communeIndex].children);
      selectedFilters := selectedFilters.(center := "");
      ClearAllMarkers();
      var commune := regionData[selected.region].children[selected.cercle].children[communeIndex];
      markers := markers.(communes := markers.communes + [MakeMarker(commune)]);
    }

    /**
     * `onCenterFilterChange`: with no centre named or no commune selected,
     * fall back to the nearest selected level above; otherwise show the
     * centre's marker alone and route to it.
     */
    method OnCenterFilterChange()
      requires Valid() && PanelNames(regionData, selected, selectedFilters)
      modifies this`selectedFilters, this`searchInputs, this`selected, this`available, this`markers,
               this`currentZoomLevel, this`routingControl, this`routesOnMap
      ensures Valid() && PanelNames(regionData, selected, selectedFilters)
      ensures old(selected.commune) != -1 && old(selectedFilters.center) != "" ==>
        var center := CentersUnder(regionData, old(selected))[ParseDecimal(old(selectedFilters.center)).value];
        && markers == Layers([], [], [], [MakeMarker(center)])
        && selected == old(selected) && selectedFilters == old(selectedFilters) && available == old(available)
        && (userLatLng.Some? ==> routingControl == Some(Route(userLatLng.value, LatLng(center.lat, center.lon))))
        && (userLatLng.None? ==> routingControl == old(routingControl) && routesOnMap == old(routesOnMap))
      ensures old(selected.commune) != -1 && old(selectedFilters.center) == "" && old(selectedFilters.commune) != "" ==>
        CommuneChosen(ParseDecimal(old(selectedFilters.commune)).value)
      ensures old(selected.region) == -1 ==> IsReset()
      ensures CenterFilterOutcome()
    {
      if selectedFilters.center == "" || selected.commune == -1 {
        if selected.commune != -1 {
          OnCommuneFilterChange();
        } else if selected.cercle != -1 {
          OnCercleFilterChange();
        } else if selected.region != -1 {
          OnRegionFilterChange();
        } else {
          ResetFilters();
        }
        return;
      }
      var centerIndex := ParseDecimal(selectedFilters.center).value;
      var center := regionData[selected.region].children[selected.cercle].children[selected.commune].children[centerIndex];
      ClearAllMarkers();
      markers := markers.(centers := markers.centers + [MakeMarker(center)]);
      HandleCivilStatusCenterClick(center);
    }

    // -------------------------------------------------------------------------
    // Searching by name
    // -------------------------------------------------------------------------

    /** `filterRegionsByInput`. */
    method FilterRegionsByInput()
      modifies this`available
      ensures available == old(available).(regions := SearchPlaces(regionData, searchInputs.region))
    {
      var blank := IsBlank(searchInputs.region);
      if blank {
        available := available.(regions := regionData);
        return;
      }
      var searchText := ToLower(searchInputs.region);
      available := available.(regions := NameFilter(regionData, searchText));
    }

    /** `filterCerclesByInput`: nothing happens while no region is selected. */
    method FilterCerclesByInput()
      requires ValidSelection(regionData, selected)
      modifies this`available
      ensures selected.region == -1 ==> available == old(available)
      ensures selected.region != -1 ==>
        available == old(available).(cercles := SearchPlaces(CerclesUnder(regionData, selected), searchInputs.cercle))
    {
      if selected.region == -1 {
        return;
      }
      var cercles := CerclesUnder(regionData, selected);
      var blank := IsBlank(searchInputs.cercle);
      if blank {
        available := available.(cercles := cercles);
        return;
      }
      var searchText := ToLower(searchInputs.cercle);
      available := available.(cercles := NameFilter(cercles, searchText));
    }

    /** `filterCommunesByInput`: nothing happens while no region or no cercle is selected. */
    method FilterCommunesByInput()
      requires ValidSelection(regionData, selected)
      modifies this`available
      ensures selected.region == -1 || selected.cercle == -1 ==> available == old(available)
      ensures selected.region != -1 && selected.cercle != -1 ==>
        available == old(available).(communes := SearchPlaces(CommunesUnder(regionData, selected), searchInputs.commune))
    {
      if selected.region == -1 || selected.cercle == -1 {
        return;
      }
      var communes := CommunesUnder(regionData, selected);
      var blank := IsBlank(searchInputs.commune);
      if blank {
        available := available.(communes := communes);
        return;
      }
      var searchText := ToLower(searchInputs.commune);
      available := available.(communes := NameFilter(communes, searchText));
    }

    /** `filterCentersByInput`: nothing happens while any of the three levels is not selected. */
    method FilterCentersByInput()
      requires ValidSelection(regionData, selected)
      modifies this`available
      ensures selected.region == -1 || selected.cercle == -1 || selected.commune == -1 ==> available == old(available)
      ensures selected.region != -1 && selected.cercle != -1 && selected.commune != -1 ==>
        available == old(available).(centers := SearchPlaces(CentersUnder(regionData, selected), searchInputs.center))
    {
      if selected.region == -1 || selected.cercle == -1 || selected.commune == -1 {
        return;
      }
      var centers := CentersUnder(regionData, selected);
      var blank := IsBlank(searchInputs.center);
      if blank {
        available := available.(centers := centers);
        return;
      }
      var searchText := ToLower(searchInputs.center);
      available := available.(centers := NameFilter(centers, searchText));
    }
  }
}
