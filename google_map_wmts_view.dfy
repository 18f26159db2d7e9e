/** The screen that shows a GoogleMapsCompatible WMTS tile matrix set (section E.4 of
    the OGC Web Map Tile Service 1.0.0 standard, OGC 07-057r7): the fixed pyramid
    geometry, the per-source choices, the reduction of the tile-accessibility probe to
    a boolean, the warning views, and the guards on location updates and area
    validation. The tile stream provider, the probes and the projection are given as
    parameters; the Android lifecycle is not modelled. */
module GoogleMapWmts {
  import opened Wrappers

  datatype MapSource = Ign | IgnSpain | Usgs | OpenStreetMap | SwissTopo

  // ---- pyramid geometry ----

  /** Index of the most detailed level; it is the 19th level, as levels start at 0. */
  const HighestLevel: nat := 18
  const LevelCount: nat := 19
  const TileSize: nat := 256
  /** Width and height in pixels of the most detailed level. */
  const MapSize: nat := 67108864

  /** Web-Mercator coordinates of the top-left corner; the bottom-right corner is the
      opposite point. */
  const X0: real := -20037508.3427892476320267
  const Y0: real := -X0
  const X1: real := -X0
  const Y1: real := X0

  datatype Bounds = Bounds(x0: real, y0: real, x1: real, y1: real)

  const PyramidBounds := Bounds(X0, Y0, X1, Y1)

  function Pow2(n: nat): (r: nat)
    ensures r >= 1
  {
    if n == 0 then 1 else 2 * Pow2(n - 1)
  }

  lemma {:induction false} Pow2Add(a: nat, b: nat)
    ensures Pow2(a + b) == Pow2(a) * Pow2(b)
    decreases a
  {
    if a > 0 {
      Pow2Add(a - 1, b);
    }
  }

  /** The level-18 matrix is 262144 tiles wide, so the map is 256 * 262144 px wide, and
      the view is given one level more than the highest index. */
  lemma PyramidExtent()
    ensures Pow2(HighestLevel) == 262144
    ensures MapSize == TileSize * Pow2(HighestLevel)
    ensures LevelCount == HighestLevel + 1
  {
    assert Pow2(3) == 8;
    Pow2Add(3, 3);
    Pow2Add(6, 6);
    Pow2Add(12, 6);
  }

  /** The bounds form a square centred on the origin, with y growing upwards. */
  lemma BoundsAreCentredSquare()
    ensures PyramidBounds.y0 == -PyramidBounds.x0 && PyramidBounds.x1 == -PyramidBounds.x0
    ensures PyramidBounds.y1 == PyramidBounds.x0
    ensures PyramidBounds.x1 - PyramidBounds.x0 == PyramidBounds.y0 - PyramidBounds.y1 > 0.0
    ensures PyramidBounds.x0 + PyramidBounds.x1 == 0.0 && PyramidBounds.y0 + PyramidBounds.y1 == 0.0
  {
  }

  // ---- per-source choices ----

  /** What the view model gives for a source, or nothing when the source cannot be
      configured (missing credentials, for one). */
  datatype TileStreamProvider = TileStreamProvider(source: MapSource)

  datatype MapViewConfiguration = MapViewConfiguration(
    levelCount: nat, fullWidth: nat, fullHeight: nat, tileSize: nat,
    provider: TileStreamProvider, workerCount: nat)

  /** The source passed in the screen's arguments, OpenStreetMap when there is none. */
  function SourceOrDefault(argument: Option<MapSource>): (s: MapSource)
    ensures argument.Some? ==> s == argument.value
    ensures argument.None? ==> s == OpenStreetMap
  {
    argument.GetOr(OpenStreetMap)
  }

  /** The configuration of the map view: the whole pyramid, and 16 tile workers except
      for OpenStreetMap, which gets 2 to avoid being banned. */
  function MapViewConfig(source: MapSource, provider: TileStreamProvider): (c: MapViewConfiguration)
    ensures c.levelCount == HighestLevel + 1
    ensures c.fullWidth == c.fullHeight == TileSize * Pow2(HighestLevel)
    ensures c.tileSize == TileSize && c.provider == provider
    ensures c.workerCount == 2 <==> source == OpenStreetMap
    ensures c.workerCount == 16 <==> source != OpenStreetMap
  {
    PyramidExtent();
    var config := MapViewConfiguration(LevelCount, MapSize, MapSize, TileSize, provider, 16);
    if source == OpenStreetMap then config.(workerCount := 2) else config
  }

  /** The layer menu item is shown for IGN only. */
  function LayerMenuVisible(source: MapSource): (visible: bool)
    ensures visible <==> source == Ign
  {
    match source
    case Ign => true
    case _ => false
  }

  // ---- tile accessibility ----

  /** What a per-source probe did: answered whether a tile could be fetched, or threw. */
  datatype ProbeOutcome = Answered(ok: bool) | Threw

  /** `checkTileAccessibility` up to the `await`: `Some(b)` is the result, `None` an
      exception escaping the probe. Without a provider the probe is not run; an IGN
      probe exception counts as "not accessible"; for the other sources the exception
      is not caught. */
  function TileAccessibility(source: MapSource, provider: Option<TileStreamProvider>, probe: ProbeOutcome): (r: Option<bool>)
    ensures provider.None? ==> r == Some(false)
    ensures source == Ign ==> r.Some?
    ensures r == Some(true) <==> provider.Some? && probe == Answered(true)
    ensures r.None? <==> provider.Some? && source != Ign && probe.Threw?
  {
    if provider.None? then Some(false)
    else match probe
      case Answered(ok) => Some(ok)
      case Threw => if source == Ign then Some(false) else None
  }

  // ---- warning views ----

  datatype Visibility = Visible | Gone

  /** The text of the warning: the IGN one, the generic one, or the layout's own. */
  datatype WarningText = IgnWarningText | OthersWarningText | LayoutText

  /** The warning text view, the link under it, and the button to the IGN credentials. */
  datatype WarningViews = WarningViews(warning: Visibility, link: Visibility, credentialsButton: Visibility, text: WarningText)

  predicate WarningShown(w: WarningViews) {
    w.warning == Visible && w.link == Visible
  }

  predicate AllHidden(w: WarningViews) {
    w.warning == Gone && w.link == Gone && w.credentialsButton == Gone
  }

  /** `showWarningMessage`. Reading the text needs the screen to be attached; when it
      is not, the `IllegalStateException` stops the method after the visibilities are
      set. */
  function ShowWarning(w: WarningViews, source: MapSource, attached: bool): WarningViews {
    var shown := w.(warning := Visible, link := Visible);
    if source == Ign then
      var withButton := shown.(credentialsButton := Visible);
      if attached then withButton.(text := IgnWarningText) else withButton
    else if attached then shown.(text := OthersWarningText)
    else shown
  }

  /** `hideWarningMessage`. */
  function HideWarning(w: WarningViews): WarningViews {
    w.(warning := Gone, credentialsButton := Gone, link := Gone)
  }

  /** Showing makes the warning and its link visible; for IGN the credentials button
      too and the IGN text, otherwise the generic text and the button as it was. */
  lemma ShowWarningEffect(w: WarningViews, source: MapSource)
    ensures var r := ShowWarning(w, source, true);
            && WarningShown(r)
            && (source == Ign ==> r.credentialsButton == Visible && r.text == IgnWarningText)
            && (source != Ign ==> r.credentialsButton == w.credentialsButton && r.text == OthersWarningText)
  {
  }

  /** Hiding makes all three views gone, whatever was shown before, and keeps the text. */
  lemma HideAfterShow(w: WarningViews, source: MapSource, attached: bool)
    ensures AllHidden(HideWarning(ShowWarning(w, source, attached)))
    ensures HideWarning(ShowWarning(w, source, attached)).text == ShowWarning(w, source, attached).text
    ensures HideWarning(w).text == w.text
    ensures HideWarning(HideWarning(w)) == HideWarning(w)
  {
  }

  // ---- initial scale and scroll ----

  datatype ScaleAndScroll = ScaleAndScroll(scale: real, scrollX: int, scrollY: int)

  datatype MapView = MapView(config: MapViewConfiguration, bounds: Bounds, position: Option<ScaleAndScroll>)

  datatype ConfigureError = UninitializedMapView

  /** Step 3 of `configure` as written: the pre-configured scale and scroll are applied
      to the map view field whether or not a map view was ever set, and reading an
      uninitialised `lateinit` field throws. */
  function ScrollToInitAsWritten(mapView: Option<MapView>, init: Option<ScaleAndScroll>): (r: Result<Option<MapView>, ConfigureError>)
    ensures r.Failure? <==> init.Some? && mapView.None?
    ensures init.None? ==> r == Success(mapView)
    ensures mapView.Some? && init.Some? ==> r == Success(Some(mapView.value.(position := init)))
  {
    match init
    case None => Success(mapView)
    case Some(i) =>
      match mapView
      case None => Failure(UninitializedMapView)
      case Some(v) => Success(Some(v.(position := Some(i))))
  }

  /** A source with an initial position but no tile stream provider makes the first
      `configure` throw. */
  lemma ScrollToInitWithoutMapViewThrows(init: ScaleAndScroll)
    ensures ScrollToInitAsWritten(None, Some(init)) == Failure(UninitializedMapView)
  {
  }

  /** Step 3 of `configure` guarded on the map view: the initial position is applied
      exactly when there is a map view, and nothing else changes. */
  function ScrollToInit(mapView: Option<MapView>, init: Option<ScaleAndScroll>): (r: Option<MapView>)
    ensures r.Some? <==> mapView.Some?
    ensures mapView.Some? && init.Some? ==> r.value == mapView.value.(position := init)
    ensures init.None? ==> r == mapView
  {
    match (mapView, init)
    case (Some(v), Some(_)) => Some(v.(position := init))
    case _ => mapView
  }

  /** Wherever the code as written does not throw, the guarded step agrees with it. */
  lemma ScrollToInitAgrees(mapView: Option<MapView>, init: Option<ScaleAndScroll>)
    ensures ScrollToInitAsWritten(mapView, init).Success? ==>
            ScrollToInitAsWritten(mapView, init).value == ScrollToInit(mapView, init)
    ensures ScrollToInitAsWritten(mapView, init).Failure? <==> mapView.None? && init.Some?
  {
  }

  // ---- the screen ----

  /** An area selected by the user, in relative coordinates. */
  datatype Area = Area(relativeX1: real, relativeY1: real, relativeX2: real, relativeY2: real)

  /** The dialog that asks for the levels to download. */
  datatype LevelsDialog = IgnLevelsDialog(area: Area, source: MapSource) | LevelsDialog(area: Area, source: MapSource)

  class GoogleMapWmtsView {
    const mapSource: MapSource
    var warningViews: WarningViews
    var mapView: Option<MapView>
    /** Where the position marker is; nothing until a map view is added. */
    var positionMarker: Option<(real, real)>
    var area: Option<Area>

    /** A map view always comes with its position marker. */
    ghost predicate Valid()
      reads this
    {
      mapView.Some? ==> positionMarker.Some?
    }

    constructor (argument: Option<MapSource>, layout: WarningViews)
      ensures Valid() && mapSource == SourceOrDefault(argument) && warningViews == layout
      ensures mapView == None && positionMarker == None && area == None
    {
      mapSource := SourceOrDefault(argument);
      warningViews := layout;
      mapView, positionMarker, area := None, None, None;
    }

    method ShowWarningMessage(attached: bool)
      modifies this`warningViews
      ensures warningViews == ShowWarning(old(warningViews), mapSource, attached)
    {
      warningViews := warningViews.(warning := Visible, link := Visible);
      if mapSource == Ign {
        warningViews := warningViews.(credentialsButton := Visible);
        if attached {
          warningViews := warningViews.(text := IgnWarningText);
        }
      } else if attached {
        warningViews := warningViews.(text := OthersWarningText);
      }
    }

    method HideWarningMessage()
      modifies this`warningViews
      ensures warningViews == HideWarning(old(warningViews))
    {
      warningViews := warningViews.(warning := Gone);
      warningViews := warningViews.(credentialsButton := Gone);
      warningViews := warningViews.(link := Gone);
    }

    /** The end of `checkTileAccessibility`: warn when tiles cannot be fetched, clear
        the warning when they can. `None` stands for a probe exception that escapes;
        the warning views are then not touched before the failure, and what the
        failure does to the screen afterwards is not part of this model. */
    method OnTileAccessibility(accessible: Option<bool>, attached: bool)
      modifies this`warningViews
      ensures accessible == Some(false) ==> warningViews == ShowWarning(old(warningViews), mapSource, attached)
      ensures accessible == Some(true) ==> warningViews == HideWarning(old(warningViews))
      ensures accessible.None? ==> warningViews == old(warningViews)
    {
      if accessible.Some? {
        if !accessible.value {
          ShowWarningMessage(attached);
        } else {
          HideWarningMessage();
        }
      }
    }

    method AddMapView(provider: TileStreamProvider)
      requires Valid()
      modifies this`mapView, this`positionMarker
      ensures Valid()
      ensures mapView == Some(MapView(MapViewConfig(mapSource, provider), PyramidBounds, None))
      ensures positionMarker == Some((0.0, 0.0))
    {
      var view := MapView(MapViewConfig(mapSource, provider), PyramidBounds, None);
      positionMarker := Some((0.0, 0.0));
      mapView := Some(view);
    }

    /** `configure`, with the map view guard on step 3: a map view is added exactly
        when the source has a provider, and the warning is shown otherwise. */
    method Configure(provider: Option<TileStreamProvider>, init: Option<ScaleAndScroll>)
      requires Valid()
      modifies this`mapView, this`positionMarker, this`warningViews
      ensures Valid()
      ensures provider.Some? ==>
                && mapView == ScrollToInit(Some(MapView(MapViewConfig(mapSource, provider.value), PyramidBounds, None)), init)
                && positionMarker == Some((0.0, 0.0))
                && warningViews == old(warningViews)
      ensures provider.None? ==>
                && mapView == ScrollToInit(old(mapView), init)
                && positionMarker == old(positionMarker)
                && warningViews == ShowWarning(old(warningViews), mapSource, true)
    {
      if provider.Some? {
        AddMapView(provider.value);
      } else {
        ShowWarningMessage(true);
      }
      mapView := ScrollToInit(mapView, init);
    }

    method UpdatePosition(x: real, y: real)
      modifies this`positionMarker
      ensures positionMarker == if old(positionMarker).Some? then Some((x, y)) else old(positionMarker)
    {
      if positionMarker.Some? {
        positionMarker := Some((x, y));
      }
    }

    /** A location fix, already projected (`None` when the projection has no answer):
        nothing happens without a map view; otherwise the marker moves to the
        projected point when there is one. */
    method OnLocationReceived(projected: Option<(real, real)>)
      requires Valid()
      modifies this`positionMarker
      ensures Valid()
      ensures mapView.Some? && projected.Some? ==> positionMarker == projected
      ensures mapView.None? || projected.None? ==> positionMarker == old(positionMarker)
    {
      if mapView.None? {
        return;
      }
      if projected.Some? {
        UpdatePosition(projected.value.0, projected.value.1);
      }
    }

    method OnAreaChanged(a: Area)
      modifies this`area
      ensures area == Some(a)
    {
      area := Some(a);
    }

    /** `validateArea`: the levels dialog to show, the IGN one for IGN, or nothing when
        no area was selected or there is no fragment manager. */
    method ValidateArea(hasFragmentManager: bool) returns (dialog: Option<LevelsDialog>)
      ensures dialog.Some? <==> area.Some? && hasFragmentManager
      ensures dialog.Some? ==> dialog.value.area == area.value && dialog.value.source == mapSource
      ensures dialog.Some? ==> (dialog.value.IgnLevelsDialog? <==> mapSource == Ign)
    {
      if area.Some? && hasFragmentManager {
        if mapSource == Ign {
          dialog := Some(IgnLevelsDialog(area.value, mapSource));
        } else {
          dialog := Some(LevelsDialog(area.value, mapSource));
        }
      } else {
        dialog := None;
      }
    }
  }
}
