/**
 * The interactive path of `utils/useHtmlBuilder.ts`: enrich the obstructions,
 * fetch a route between the two chosen points, and place one marker per
 * enriched construction that lies within the distance limit of the route,
 * with an icon chosen from its impact fields.
 */
module MapAnnotation {
  import opened Values
  import opened JsString
  import opened Records
  import opened Enrichment

  // ---------------------------------------------------------------------
  // Enrichment
  // ---------------------------------------------------------------------

  /** The shape of an enriched construction (`EnrichedConstruction`). */
  datatype Enriched<N> = Enriched(
    lat: N,
    lon: N,
    reason: Field,
    footpath: Field,
    bus: Field,
    street: Field,
    startDate: Field,
    endDate: Field,
    permitId: Field,
    status: Field,
    org: Field
  )

  /**
   * One enriched record from an obstruction and its impact; `toNumber` is
   * JavaScript's unary `+` on the coordinate strings.
   */
  function ToEnriched<N>(e: Obstruction, imp: Impact, toNumber: Field -> N): Enriched<N>
  {
    Enriched(toNumber(e.latitude), toNumber(e.longitude), e.reasonCategory,
             imp.sidewalkBlockedType, imp.transitBlockedType, imp.name,
             e.startDate, e.endDate, e.permitId, e.status, e.organization)
  }

  /** `enriched`: the join of the obstructions with the impact lookup. */
  function Enrich<N>(entraves: seq<Obstruction>, impactMap: map<Field, Impact>,
                     toNumber: Field -> N): seq<Enriched<N>>
  {
    Join(entraves, impactMap, (e, imp) => ToEnriched(e, imp, toNumber))
  }

  /**
   * Each enriched record comes from the k-th surviving obstruction, in
   * obstruction order: the coordinates are the coercions of its strings,
   * `footpath`, `bus` and `street` come from its matched impact, and the
   * other fields are copied from the obstruction. No obstruction that fails
   * the join is represented.
   */
  lemma EnrichFields<N>(entraves: seq<Obstruction>, impactMap: map<Field, Impact>,
                        toNumber: Field -> N)
    ensures |Enrich(entraves, impactMap, toNumber)| == |Survivors(entraves, impactMap)| <= |entraves|
    ensures forall i :: 0 <= i < |entraves| ==>
              (i in Survivors(entraves, impactMap) <==> Survives(entraves[i], impactMap))
    ensures forall k :: 0 <= k < |Survivors(entraves, impactMap)| ==>
              var e := entraves[Survivors(entraves, impactMap)[k]];
              var c := Enrich(entraves, impactMap, toNumber)[k];
              && e.id in impactMap && Truthy(e.latitude) && Truthy(e.longitude)
              && c.lat == toNumber(e.latitude) && c.lon == toNumber(e.longitude)
              && c.footpath == impactMap[e.id].sidewalkBlockedType
              && c.bus == impactMap[e.id].transitBlockedType
              && c.street == impactMap[e.id].name
              && c.reason == e.reasonCategory && c.startDate == e.startDate
              && c.endDate == e.endDate && c.permitId == e.permitId
              && c.status == e.status && c.org == e.organization
  {
    JoinBySurvivors(entraves, impactMap, (e, imp) => ToEnriched(e, imp, toNumber));
  }

  // ---------------------------------------------------------------------
  // The route
  // ---------------------------------------------------------------------

  /** Every position with its two coordinates swapped, in the same order. */
  function SwapAll<N>(coords: seq<Position<N>>): (r: seq<Position<N>>)
    ensures |r| == |coords|
    ensures forall k :: 0 <= k < |r| ==> r[k].0 == coords[k].1 && r[k].1 == coords[k].0
  {
    seq(|coords|, k requires 0 <= k < |coords| => Swap(coords[k]))
  }

  /** Swapping back restores the provider's (lon, lat) positions. */
  lemma SwapAllTwice<N>(coords: seq<Position<N>>)
    ensures SwapAll(SwapAll(coords)) == coords
  {
    assert forall k :: 0 <= k < |coords| ==> SwapAll(SwapAll(coords))[k] == coords[k];
  }

  /**
   * `routeCoords`: empty unless both endpoints are chosen and the directions
   * request succeeds; then the provider's (lon, lat) geometry turned into
   * (lat, lon). `fetchRoute` stands for the request and the parse of
   * `features[0].geometry.coordinates`; `None` is any exception there.
   */
  method LoadRoute<N>(fromCoord: Option<Position<N>>, toCoord: Option<Position<N>>,
                      fetchRoute: (Position<N>, Position<N>) -> Option<seq<Position<N>>>)
    returns (routeCoords: seq<Position<N>>)
    ensures fromCoord.None? || toCoord.None? ==> routeCoords == []
    ensures fromCoord.Some? && toCoord.Some? ==>
              match fetchRoute(fromCoord.value, toCoord.value)
              case None => routeCoords == []
              case Some(geometry) => routeCoords == SwapAll(geometry)
  {
    routeCoords := [];
    if fromCoord.Some? && toCoord.Some? {
      match fetchRoute(fromCoord.value, toCoord.value)
      case None =>
      case Some(geometry) =>
        routeCoords := SwapAll(geometry);
    }
  }

  // ---------------------------------------------------------------------
  // Icons, dates and popups
  // ---------------------------------------------------------------------

  datatype Icon = DefaultIcon | SidewalkIcon | BusIcon

  const SidewalkBlocked: string := "Barré"
  const BusMoved: string := "Déplacer"

  /** `f?.trim() === word`: a missing or null field never matches. */
  predicate TrimmedIs(f: Field, word: string)
  {
    f.Str? && Trim(f.s) == word
  }

  /**
   * The icon of a shown construction: the sidewalk icon when the sidewalk is
   * blocked, else the bus icon when the bus stop is moved, else the default.
   */
  function IconFor(footpath: Field, bus: Field): (icon: Icon)
    ensures icon == SidewalkIcon <==> TrimmedIs(footpath, SidewalkBlocked)
    ensures icon == BusIcon <==> !TrimmedIs(footpath, SidewalkBlocked) && TrimmedIs(bus, BusMoved)
    ensures icon == DefaultIcon <==> !TrimmedIs(footpath, SidewalkBlocked) && !TrimmedIs(bus, BusMoved)
  {
    if TrimmedIs(footpath, SidewalkBlocked) then SidewalkIcon
    else if TrimmedIs(bus, BusMoved) then BusIcon
    else DefaultIcon
  }

  /**
   * Surrounding white space in either impact field, each padded on its own,
   * never changes the icon.
   */
  lemma IconIgnoresPadding(footpath: string, bus: string,
                           footpathPre: string, footpathPost: string, busPre: string, busPost: string)
    requires AllSpace(footpathPre) && AllSpace(footpathPost)
    requires AllSpace(busPre) && AllSpace(busPost)
    ensures IconFor(Str(footpathPre + footpath + footpathPost), Str(busPre + bus + busPost))
            == IconFor(Str(footpath), Str(bus))
  {
    TrimPadded(footpathPre, footpath, footpathPost);
    TrimPadded(busPre, bus, busPost);
  }

  /**
   * `fmtDate(iso)`: a dash for a falsy value, otherwise the part of the
   * string before its first `'T'` (the whole string when it has none).
   */
  function FmtDate(iso: Field): (r: string)
    ensures !Truthy(iso) ==> r == "—"
    ensures Truthy(iso) ==> |r| <= |iso.s| && r == iso.s[..|r|] && 'T' !in r
    ensures Truthy(iso) && |r| < |iso.s| ==> iso.s[|r|] == 'T'
    ensures Truthy(iso) && 'T' !in iso.s ==> r == iso.s
  {
    if Truthy(iso) then BeforeFirst(iso.s, 'T') else "—"
  }

  const NoSidewalkImpact: string := "Non impacté"

  /** What the popup of a marker shows, line by line. */
  datatype Popup = Popup(
    reason: string,
    sidewalk: string,
    bus: string,
    permit: string,
    status: string,
    dates: (string, string),
    org: string,
    street: string
  )

  /**
   * How a date is shown in a popup: the dash for a falsy value, otherwise
   * the part of the stored date before its first `T` (all of it when it has
   * none).
   */
  predicate DateShown(stored: Field, shown: string)
  {
    'T' !in shown &&
    if Truthy(stored)
    then |shown| <= |stored.s| && shown == stored.s[..|shown|]
         && (|shown| < |stored.s| ==> stored.s[|shown|] == 'T')
    else shown == "—"
  }

  /**
   * The values a popup shows. Its sidewalk line is never blank, whatever
   * the impact holds, and each of its two dates is shown as its date part
   * alone, or as the dash when it is missing.
   */
  function PopupFor<N>(c: Enriched<N>): (p: Popup)
    ensures p.sidewalk != ""
    ensures DateShown(c.startDate, p.dates.0) && DateShown(c.endDate, p.dates.1)
  {
    Popup(Text(c.reason),
          if Truthy(c.footpath) then c.footpath.s else NoSidewalkImpact,
          Text(c.bus), Text(c.permitId), Text(c.status),
          (FmtDate(c.startDate), FmtDate(c.endDate)),
          Text(c.org), Text(c.street))
  }

  // ---------------------------------------------------------------------
  // Marker placement
  // ---------------------------------------------------------------------

  /** `L.marker([c.lat, c.lon], { icon })` with its popup. */
  datatype MapMarker<N> = MapMarker(position: Position<N>, icon: Icon, popup: Popup)

  /**
   * The marker of a shown construction: Leaflet's `[lat, lon]` is the turf
   * point it was measured at, swapped; its icon comes from the impact
   * fields and its popup from the record.
   */
  function MarkerFor<N>(c: Enriched<N>): (m: MapMarker<N>)
    ensures m.position == Swap(PointOf(c)) && m.position.0 == c.lat && m.position.1 == c.lon
    ensures m.icon == IconFor(c.footpath, c.bus) && m.popup == PopupFor(c)
  {
    MapMarker((c.lat, c.lon), IconFor(c.footpath, c.bus), PopupFor(c))
  }

  function Markers<N>(cs: seq<Enriched<N>>): (r: seq<MapMarker<N>>)
    ensures |r| == |cs|
  {
    seq(|cs|, k requires 0 <= k < |cs| => MarkerFor(cs[k]))
  }

  /** The turf point of a construction, in (lon, lat) order. */
  function PointOf<N>(c: Enriched<N>): Position<N>
  {
    (c.lon, c.lat)
  }

  /** A construction is near the route when its distance is at most the limit. */
  predicate NearRoute<N>(c: Enriched<N>, line: seq<Position<N>>, limit: real,
                         pointToLine: (Position<N>, seq<Position<N>>) -> Measure)
  {
    match pointToLine(PointOf(c), line)
    case Meters(m) => m <= limit
    case Raised => false
  }

  /**
   * The markers placed so far, and whether the page script stopped on an
   * exception of the geometry library.
   */
  datatype Placement<N> = Placement(markers: seq<MapMarker<N>>, aborted: bool)

  /**
   * The effect of the `constructions.forEach` loop over the line `routeLine`:
   * with no line every iteration returns at once; otherwise a construction
   * farther than the limit is skipped, a nearer one gets a marker, and an
   * exception ends the loop. Every marker is that of a construction near the
   * line.
   */
  function Visited<N>(cs: seq<Enriched<N>>, routeLine: Option<seq<Position<N>>>, limit: real,
                      pointToLine: (Position<N>, seq<Position<N>>) -> Measure): (r: Placement<N>)
    ensures |r.markers| <= |cs|
    ensures routeLine.None? ==> r == Placement([], false)
    ensures routeLine.Some? ==> forall m :: m in r.markers ==>
              exists c :: c in cs && m == MarkerFor(c) && NearRoute(c, routeLine.value, limit, pointToLine)
  {
    if cs == [] then Placement([], false)
    else
      var n := |cs| - 1;
      var before := Visited(cs[..n], routeLine, limit, pointToLine);
      var c := cs[n];
      assert forall x :: x in cs[..n] ==> x in cs;
      if before.aborted || routeLine.None? then before
      else match pointToLine(PointOf(c), routeLine.value)
        case Raised => Placement(before.markers, true)
        case Meters(dist) =>
          if dist > limit then before else Placement(before.markers + [MarkerFor(c)], false)
  }

  /** `turf.lineString` accepts a line of at least two positions and throws otherwise. */
  predicate LineAccepted<N>(routeCoords: seq<Position<N>>)
  {
    |routeCoords| >= 2
  }

  /**
   * The page script from the route on: an empty route draws no line and
   * shows nothing; a route that `turf.lineString` rejects stops the script
   * before any marker; otherwise the marker loop runs over the line swapped
   * back to (lon, lat).
   */
  function Placed<N>(cs: seq<Enriched<N>>, routeCoords: seq<Position<N>>, limit: real,
                     pointToLine: (Position<N>, seq<Position<N>>) -> Measure): (r: Placement<N>)
    ensures routeCoords == [] ==> r == Placement([], false)
    ensures routeCoords != [] && !LineAccepted(routeCoords) ==> r == Placement([], true)
    ensures |r.markers| <= |cs|
    ensures forall m :: m in r.markers ==>
              exists c :: c in cs && m == MarkerFor(c) && NearRoute(c, SwapAll(routeCoords), limit, pointToLine)
  {
    if routeCoords == [] then Visited(cs, None, limit, pointToLine)
    else if !LineAccepted(routeCoords) then Placement([], true)
    else Visited(cs, Some(SwapAll(routeCoords)), limit, pointToLine)
  }

  /** The route line and the marker loop of the page script. */
  method PlaceMarkers<N>(constructions: seq<Enriched<N>>, routeCoords: seq<Position<N>>,
                         limit: real, pointToLine: (Position<N>, seq<Position<N>>) -> Measure)
    returns (markers: seq<MapMarker<N>>, aborted: bool)
    ensures Placement(markers, aborted) == Placed(constructions, routeCoords, limit, pointToLine)
  {
    var routeLine: Option<seq<Position<N>>> := None;
    if routeCoords != [] {
      if !LineAccepted(routeCoords) {
        return [], true;
      }
      routeLine := Some(SwapAll(routeCoords));
    }
    markers, aborted := MarkAlong(constructions, routeLine, limit, pointToLine);
  }

  /** The `constructions.forEach` loop over the route line, or none. */
  method MarkAlong<N>(constructions: seq<Enriched<N>>, routeLine: Option<seq<Position<N>>>,
                      limit: real, pointToLine: (Position<N>, seq<Position<N>>) -> Measure)
    returns (markers: seq<MapMarker<N>>, aborted: bool)
    ensures Placement(markers, aborted) == Visited(constructions, routeLine, limit, pointToLine)
  {
    markers, aborted := [], false;
    var n := 0;
    while n < |constructions|
      invariant n <= |constructions|
      invariant Placement(markers, false) == Visited(constructions[..n], routeLine, limit, pointToLine)
    {
      var c := constructions[n];
      assert constructions[..n + 1][..n] == constructions[..n];
      if routeLine.Some? {
        match pointToLine(PointOf(c), routeLine.value)
        case Raised =>
          aborted := true;
          VisitStaysAborted(constructions, n + 1, routeLine, limit, pointToLine);
          return;
        case Meters(dist) =>
          if dist <= limit {
            markers := markers + [MarkerFor(c)];
          }
      }
      n := n + 1;
    }
    assert constructions[..n] == constructions;
  }

  /** Once the loop has stopped, later constructions change nothing. */
  lemma {:induction false} VisitStaysAborted<N>(cs: seq<Enriched<N>>, j: nat, routeLine: Option<seq<Position<N>>>,
                                                limit: real,
                                                pointToLine: (Position<N>, seq<Position<N>>) -> Measure)
    requires j <= |cs| && Visited(cs[..j], routeLine, limit, pointToLine).aborted
    ensures Visited(cs, routeLine, limit, pointToLine) == Visited(cs[..j], routeLine, limit, pointToLine)
  {
    if j < |cs| {
      var n := |cs| - 1;
      assert cs[..n][..j] == cs[..j];
      VisitStaysAborted(cs[..n], j, routeLine, limit, pointToLine);
    } else {
      assert cs[..j] == cs;
    }
  }

  /**
   * With a route `turf.lineString` accepts, when the geometry library
   * answers for the first `j` constructions and throws on the next one (or
   * `j` is all of them), the markers are exactly those of the first `j`
   * constructions that are near the route, in order, and the loop stopped
   * iff it met the exception.
   */
  lemma PlacedNear<N>(cs: seq<Enriched<N>>, routeCoords: seq<Position<N>>,
                      limit: real,
                      pointToLine: (Position<N>, seq<Position<N>>) -> Measure,
                      j: nat)
    requires LineAccepted(routeCoords) && j <= |cs|
    requires forall i :: 0 <= i < j ==> pointToLine(PointOf(cs[i]), SwapAll(routeCoords)).Meters?
    requires j < |cs| ==> pointToLine(PointOf(cs[j]), SwapAll(routeCoords)).Raised?
    ensures Placed(cs, routeCoords, limit, pointToLine) ==
            Placement(Markers(Filter(cs[..j], c => NearRoute(c, SwapAll(routeCoords), limit, pointToLine))),
                      j < |cs|)
  {
    VisitedNear(cs, SwapAll(routeCoords), limit, pointToLine, j);
  }

  /** `PlacedNear` for the loop over a given line. */
  lemma {:induction false} VisitedNear<N>(cs: seq<Enriched<N>>, line: seq<Position<N>>,
                                          limit: real,
                                          pointToLine: (Position<N>, seq<Position<N>>) -> Measure,
                                          j: nat)
    requires j <= |cs|
    requires forall i :: 0 <= i < j ==> pointToLine(PointOf(cs[i]), line).Meters?
    requires j < |cs| ==> pointToLine(PointOf(cs[j]), line).Raised?
    ensures Visited(cs, Some(line), limit, pointToLine) ==
            Placement(Markers(Filter(cs[..j], c => NearRoute(c, line, limit, pointToLine))), j < |cs|)
  {
    var near := c => NearRoute(c, line, limit, pointToLine);
    if cs != [] {
      var n := |cs| - 1;
      var prefix := cs[..n];
      if j == |cs| {
        VisitedNear(prefix, line, limit, pointToLine, n);
        assert cs[..j][..n] == prefix[..n] == prefix;
        assert Filter(cs[..j], near) == Filter(prefix, near) + (if near(cs[n]) then [cs[n]] else []);
        MarkersAppend(Filter(prefix, near), if near(cs[n]) then [cs[n]] else []);
      } else {
        VisitedNear(prefix, line, limit, pointToLine, if j == n then n else j);
        if j < n {
          assert prefix[..j] == cs[..j];
        } else {
          assert prefix[..n] == prefix == cs[..j];
        }
      }
    }
  }

  /** The markers of a concatenation are the markers of its parts, concatenated. */
  lemma MarkersAppend<N>(a: seq<Enriched<N>>, b: seq<Enriched<N>>)
    ensures Markers(a + b) == Markers(a) + Markers(b)
  {
    assert |Markers(a + b)| == |Markers(a) + Markers(b)|;
    forall k | 0 <= k < |a + b|
      ensures Markers(a + b)[k] == (Markers(a) + Markers(b))[k]
    {
      if k < |a| {
        assert (a + b)[k] == a[k];
      } else {
        assert (a + b)[k] == b[k - |a|];
      }
    }
  }

  /**
   * The whole interactive pipeline: build the impact lookup, enrich the
   * obstructions, load the route and place the markers. Nothing is shown
   * until both endpoints are chosen and the route request succeeds.
   */
  method BuildMap<N>(entraves: seq<Obstruction>, impacts: seq<Impact>,
                     fromCoord: Option<Position<N>>, toCoord: Option<Position<N>>,
                     distanceThreshold: real, toNumber: Field -> N,
                     fetchRoute: (Position<N>, Position<N>) -> Option<seq<Position<N>>>,
                     pointToLine: (Position<N>, seq<Position<N>>) -> Measure)
    returns (markers: seq<MapMarker<N>>, aborted: bool)
    ensures fromCoord.None? || toCoord.None? ==> markers == [] && !aborted
    ensures fromCoord.Some? && toCoord.Some? ==>
              match fetchRoute(fromCoord.value, toCoord.value)
              case None => markers == [] && !aborted
              case Some(geometry) =>
                Placement(markers, aborted) ==
                Placed(Enrich(entraves, Index(impacts, true), toNumber), SwapAll(geometry),
                       distanceThreshold, pointToLine)
  {
    var impactMap := BuildImpactMap(impacts);
    var enriched := Enrich(entraves, impactMap, toNumber);
    var routeCoords := LoadRoute(fromCoord, toCoord, fetchRoute);
    markers, aborted := PlaceMarkers(enriched, routeCoords, distanceThreshold, pointToLine);
  }
}
