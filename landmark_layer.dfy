/** The landmark layer of the map screen: it places a new landmark at the centre of
    the screen, lets the user drag its marker, and writes the new coordinates back
    into the landmark when the marker is released. The map's projection and the tile
    view's coordinate translation are given as functions; drawing, animations and
    file I/O are not modelled. */
module LandmarkLayer {
  import opened Wrappers

  /** The coordinates a landmark carries. */
  datatype Position = Position(lat: real, lon: real, projX: real, projY: real)

  /** A landmark of a map, as stored in the map's markers file. */
  class Landmark {
    var name: string
    var lat: real
    var lon: real
    var projX: real
    var projY: real
    var comment: string

    constructor (name: string, lat: real, lon: real, projX: real, projY: real, comment: string)
      ensures this.name == name && this.comment == comment
      ensures Location() == Position(lat, lon, projX, projY)
    {
      this.name, this.comment := name, comment;
      this.lat, this.lon, this.projX, this.projY := lat, lon, projX, projY;
    }

    function Location(): Position
      reads this
    {
      Position(lat, lon, projX, projY)
    }
  }

  /** A map projection, through its inverse: from projected (x, y) to the WGS84 pair
      (longitude, latitude) -- index 0 and index 1 of the source's array -- or nothing. */
  datatype Projection = Projection(undoProjection: (real, real) -> Option<(real, real)>)

  /** The part of a map this layer uses. */
  class Map {
    var projection: Option<Projection>
    var landmarks: seq<Landmark>
    var landmarksDefined: bool

    constructor (projection: Option<Projection>, landmarks: seq<Landmark>, landmarksDefined: bool)
      ensures this.projection == projection && this.landmarks == landmarks
      ensures this.landmarksDefined == landmarksDefined
    {
      this.projection, this.landmarks, this.landmarksDefined := projection, landmarks, landmarksDefined;
    }

    method AddLandmark(landmark: Landmark)
      modifies this`landmarks
      ensures landmarks == old(landmarks) + [landmark]
    {
      landmarks := landmarks + [landmark];
    }
  }

  /** The scroll position, size and offset of the tile view, in pixels. */
  datatype Viewport = Viewport(scrollX: int, scrollY: int, width: nat, height: nat, offsetX: int, offsetY: int)

  /** The tile view's translation from absolute pixels at a scale to relative
      coordinates. */
  datatype CoordinateTranslater = CoordinateTranslater(
    absoluteToRelativeX: (int, real) -> real,
    absoluteToRelativeY: (int, real) -> real)

  class TileView {
    var viewport: Viewport
    var scale: real
    var translater: CoordinateTranslater

    constructor (viewport: Viewport, scale: real, translater: CoordinateTranslater)
      ensures this.viewport == viewport && this.scale == scale && this.translater == translater
    {
      this.viewport, this.scale, this.translater := viewport, scale, translater;
    }
  }

  /** The relative coordinates a marker view holds; null until set. */
  datatype MarkerCoords = MarkerCoords(relativeX: Option<real>, relativeY: Option<real>)

  /** The draggable view of a landmark. */
  class MovableLandmark {
    const landmark: Landmark
    var relativeX: Option<real>
    var relativeY: Option<real>

    constructor (landmark: Landmark)
      ensures this.landmark == landmark && relativeX == None && relativeY == None
    {
      this.landmark := landmark;
      relativeX, relativeY := None, None;
    }

    function Coords(): MarkerCoords
      reads this
    {
      MarkerCoords(relativeX, relativeY)
    }
  }

  /** The drag handle attached to a marker. Its move and click listeners capture the
      marker and the map that was current when the handle was attached; the click
      listener saves that map, whatever map the layer holds by then. */
  class MarkerGrab {
    const movable: MovableLandmark
    const capturedMap: Map

    constructor (movable: MovableLandmark, capturedMap: Map)
      ensures this.movable == movable && this.capturedMap == capturedMap
    {
      this.movable, this.capturedMap := movable, capturedMap;
    }
  }

  datatype InitAction = DrawLandmarks | AcquireThenDrawLandmarks

  /** The pixel at the centre of the screen, in the view's absolute coordinates. */
  function ScreenCentre(v: Viewport): (c: (int, int))
    ensures v.width - 1 <= 2 * (c.0 - (v.scrollX - v.offsetX)) <= v.width
    ensures v.height - 1 <= 2 * (c.1 - (v.scrollY - v.offsetY)) <= v.height
  {
    (v.scrollX + v.width / 2 - v.offsetX, v.scrollY + v.height / 2 - v.offsetY)
  }

  /** `newCoords`: without a projection the relative coordinates are the latitude and
      longitude; with one, the latitude and longitude come from the inverse projection
      (0.0 when it has no answer) and the relative coordinates are kept as the
      projected ones. */
  function UpdatedPosition(p: Position, projection: Option<Projection>, relativeX: real, relativeY: real): Position {
    match projection
    case None => p.(lat := relativeY, lon := relativeX)
    case Some(proj) =>
      var wgs84 := proj.undoProjection(relativeX, relativeY);
      p.(lat := if wgs84.Some? then wgs84.value.1 else 0.0,
         lon := if wgs84.Some? then wgs84.value.0 else 0.0,
         projX := relativeX, projY := relativeY)
  }

  /** The move callback: the marker takes the moved-to coordinates. */
  function Moved(m: MarkerCoords, x: real, y: real): MarkerCoords {
    m.(relativeX := Some(x), relativeY := Some(y))
  }

  /** The marker after a sequence of moves. */
  function MovedAlong(m: MarkerCoords, moves: seq<(real, real)>): MarkerCoords
    decreases |moves|
  {
    if moves == [] then m else MovedAlong(Moved(m, moves[0].0, moves[0].1), moves[1..])
  }

  /** The click callback's effect on the landmark: the coordinates change only when
      the marker has both relative coordinates. */
  function Clicked(p: Position, projection: Option<Projection>, m: MarkerCoords): Position {
    if m.relativeX.Some? && m.relativeY.Some? then
      UpdatedPosition(p, projection, m.relativeX.value, m.relativeY.value)
    else p
  }

  lemma NoProjectionUsesRelativeCoordinates(p: Position, relativeX: real, relativeY: real)
    ensures var q := UpdatedPosition(p, None, relativeX, relativeY);
            q.lat == relativeY && q.lon == relativeX && q.projX == p.projX && q.projY == p.projY
  {
  }

  lemma ProjectionUsesInverse(p: Position, proj: Projection, relativeX: real, relativeY: real, lon: real, lat: real)
    requires proj.undoProjection(relativeX, relativeY) == Some((lon, lat))
    ensures UpdatedPosition(p, Some(proj), relativeX, relativeY) == Position(lat, lon, relativeX, relativeY)
  {
  }

  lemma ProjectionWithoutAnswerGivesZero(p: Position, proj: Projection, relativeX: real, relativeY: real)
    requires proj.undoProjection(relativeX, relativeY).None?
    ensures UpdatedPosition(p, Some(proj), relativeX, relativeY) == Position(0.0, 0.0, relativeX, relativeY)
  {
  }

  /** Updating twice with the same relative coordinates is the same as once. */
  lemma UpdatedPositionIdempotent(p: Position, projection: Option<Projection>, relativeX: real, relativeY: real)
    ensures var q := UpdatedPosition(p, projection, relativeX, relativeY);
            UpdatedPosition(q, projection, relativeX, relativeY) == q
  {
  }

  /** After at least one move, the marker sits at the last moved-to point. */
  lemma {:induction false} MovedAlongEndsAtLast(m: MarkerCoords, moves: seq<(real, real)>)
    requires moves != []
    ensures MovedAlong(m, moves) == MarkerCoords(Some(moves[|moves| - 1].0), Some(moves[|moves| - 1].1))
    decreases |moves|
  {
    if |moves| > 1 {
      MovedAlongEndsAtLast(Moved(m, moves[0].0, moves[0].1), moves[1..]);
    }
  }

  /** Dragging the marker through any non-empty path and releasing it gives the
      landmark the coordinates of the last point of the path. */
  lemma DragThenClickUsesLastPoint(p: Position, projection: Option<Projection>, m: MarkerCoords, moves: seq<(real, real)>)
    requires moves != []
    ensures Clicked(p, projection, MovedAlong(m, moves))
            == UpdatedPosition(p, projection, moves[|moves| - 1].0, moves[|moves| - 1].1)
  {
    MovedAlongEndsAtLast(m, moves);
  }

  /** A click on a marker without coordinates leaves the landmark as it was. */
  lemma ClickWithoutCoordinatesKeepsPosition(p: Position, projection: Option<Projection>, m: MarkerCoords)
    requires m.relativeX.None? || m.relativeY.None?
    ensures Clicked(p, projection, m) == p
  {
  }

  class LandmarkLayer {
    var layerMap: Map?
    var tileView: TileView?
    var visible: bool
    /** The maps whose landmarks were handed to the markers file, in order. */
    ghost var saved: seq<Map>

    /** The visibility flag starts false and nothing sets it. */
    ghost predicate Valid()
      reads this
    {
      !visible
    }

    constructor ()
      ensures Valid() && layerMap == null && tileView == null && saved == []
    {
      layerMap, tileView, visible := null, null, false;
      saved := [];
    }

    method Init(m: Map, tileView: TileView) returns (action: InitAction)
      requires Valid()
      modifies this`layerMap, this`tileView
      ensures Valid() && this.layerMap == m && this.tileView == tileView
      ensures action == if m.landmarksDefined then DrawLandmarks else AcquireThenDrawLandmarks
    {
      this.layerMap := m;
      this.tileView := tileView;
      if m.landmarksDefined {
        action := DrawLandmarks;
      } else {
        action := AcquireThenDrawLandmarks;
      }
    }

    method IsVisible() returns (v: bool)
      requires Valid()
      ensures !v
    {
      v := visible;
    }

    /** Gives `landmark` the coordinates for the relative point and returns it. */
    method NewCoords(landmark: Landmark, relativeX: real, relativeY: real) returns (r: Landmark)
      requires layerMap != null
      modifies landmark`lat, landmark`lon, landmark`projX, landmark`projY
      ensures r == landmark
      ensures landmark.Location() == UpdatedPosition(old(landmark.Location()), layerMap.projection, relativeX, relativeY)
    {
      if layerMap.projection.None? {
        landmark.lat := relativeY;
        landmark.lon := relativeX;
      } else {
        var wgs84 := layerMap.projection.value.undoProjection(relativeX, relativeY);
        landmark.lat := if wgs84.Some? then wgs84.value.1 else 0.0;
        landmark.lon := if wgs84.Some? then wgs84.value.0 else 0.0;
        landmark.projX := relativeX;
        landmark.projY := relativeY;
      }
      r := landmark;
    }

    /** Creates a landmark at the centre of the screen, appends it to the map and
        returns its draggable view and drag handle, together with whether the handle
        was shown. */
    method AddNewLandmark() returns (movable: MovableLandmark, grab: MarkerGrab, grabShown: bool)
      requires Valid() && layerMap != null && tileView != null
      modifies layerMap`landmarks
      ensures Valid()
      ensures fresh(movable) && fresh(movable.landmark) && fresh(grab)
      ensures grab.movable == movable && grab.capturedMap == layerMap
      ensures layerMap.landmarks == old(layerMap.landmarks) + [movable.landmark]
      ensures var c := ScreenCentre(tileView.viewport);
              var x := tileView.translater.absoluteToRelativeX(c.0, tileView.scale);
              var y := tileView.translater.absoluteToRelativeY(c.1, tileView.scale);
              && movable.Coords() == MarkerCoords(Some(x), Some(y))
              && movable.landmark.Location() == UpdatedPosition(Position(0.0, 0.0, 0.0, 0.0), layerMap.projection, x, y)
              && movable.landmark.name == "" && movable.landmark.comment == ""
      ensures grabShown
    {
      var c := ScreenCentre(tileView.viewport);
      var relativeX := tileView.translater.absoluteToRelativeX(c.0, tileView.scale);
      var relativeY := tileView.translater.absoluteToRelativeY(c.1, tileView.scale);
      var landmark := new Landmark("", 0.0, 0.0, 0.0, 0.0, "");
      var newLandmark := NewCoords(landmark, relativeX, relativeY);
      movable := new MovableLandmark(newLandmark);
      movable.relativeX := Some(relativeX);
      movable.relativeY := Some(relativeY);
      layerMap.AddLandmark(newLandmark);
      grab, grabShown := AttachMarkerGrab(movable, layerMap);
    }

    /** Creates the drag handle of `movable`, its listeners bound to `m`; the handle is
        shown only when the marker has both relative coordinates. */
    method AttachMarkerGrab(movable: MovableLandmark, m: Map) returns (grab: MarkerGrab, grabShown: bool)
      ensures fresh(grab) && grab.movable == movable && grab.capturedMap == m
      ensures grabShown <==> movable.relativeX.Some? && movable.relativeY.Some?
    {
      grab := new MarkerGrab(movable, m);
      grabShown := movable.relativeX.Some? && movable.relativeY.Some?;
    }

    /** The move listener of `grab`. */
    method OnMarkerMoved(grab: MarkerGrab, x: real, y: real)
      modifies grab.movable`relativeX, grab.movable`relativeY
      ensures grab.movable.Coords() == Moved(old(grab.movable.Coords()), x, y)
    {
      grab.movable.relativeX := Some(x);
      grab.movable.relativeY := Some(y);
    }

    /** The click listener of `grab`: updates the landmark when the marker has
        coordinates, through the layer's current projection, then saves the landmarks
        of the map captured when the handle was attached. */
    method OnMarkerClicked(grab: MarkerGrab)
      requires layerMap != null
      modifies grab.movable.landmark`lat, grab.movable.landmark`lon
      modifies grab.movable.landmark`projX, grab.movable.landmark`projY
      modifies this`saved
      ensures grab.movable.landmark.Location()
              == Clicked(old(grab.movable.landmark.Location()), layerMap.projection, grab.movable.Coords())
      ensures saved == old(saved) + [grab.capturedMap]
    {
      var movable := grab.movable;
      if movable.relativeX.Some? && movable.relativeY.Some? {
        var _ := NewCoords(movable.landmark, movable.relativeX.value, movable.relativeY.value);
      }
      saved := saved + [grab.capturedMap];
    }
  }
}
