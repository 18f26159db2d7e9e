# TrekMe map-screen rules, modelled in Dafny

This project models the small decision rules of four parts of the TrekMe Android
client:

- **IGN license view-model** (`ign_license.dfy`, module `IgnLicense`): the license
  status (`PURCHASED`, `NOT_PURCHASED`, `PENDING`, or nothing yet) and the cached
  license details. They change according to the billing collaborator's answers: the
  status check with its acknowledge-first shortcut, the details fetch with one branch
  per exception, the purchase launch guarded on cached details, and the pending and
  acknowledged callbacks. The last of these persists a `LicenseInfo` record. Each
  `postValue` is an immediate assignment. A ghost log keeps every posted status and
  every persisted record. Pure transition functions specify the class's methods.
  Lemmas over whole event sequences state what a run posts, persists and caches.
- **Landmark layer** (`landmark_layer.dfy`, module `LandmarkLayer`): `newCoords` on a
  mutable `Landmark`, with and without a projection. Also adding a landmark at the
  screen centre, and the move and click callbacks of the drag handle. The map's
  inverse projection and the tile view's pixel-to-relative translation are
  function-valued fields.
- **LibVips bitmap provider** (`bitmap_provider_libvips.dfy`, module
  `BitmapProviderLibVips`): the `zoom/row/column+extension` tile path under the map
  directory, and `getBitmap`'s null results. The decoder is a function parameter.
  `Decimal` (`decimal.dfy`) renders an `int` as Java does. A parser, proved to invert
  the rendering, shows that the path determines the tile.
- **WMTS view** (`google_map_wmts_view.dfy`, module `GoogleMapWmts`): the constants of
  the GoogleMapsCompatible tile matrix set (section E.4 of OGC 07-057r7, the Web Map
  Tile Service 1.0.0 standard), the per-source worker count and layer menu, the
  reduction of the accessibility probe, the warning views, `configure`, and the
  guards on location updates and area validation.

Two details of the code that the model keeps as they are:

- The pyramid extent is `256 * 262144 = 256 * 2^18 = 67108864`, the width of level 18,
  and the map view gets 19 levels.
- Only the IGN probe's exception is caught. For the other sources the exception
  escapes the probe, and `TileAccessibility` returns `None` for that case.

## Model

| member | source | states |
|---|---|---|
| `IgnLicense.IgnLicenseViewModel.constructor` | app/src/main/java/com/peterlaurence/trekme/viewmodel/mapcreate/IgnLicenseViewModel.kt:15-17 | status and details start null; nothing posted or persisted |
| `IgnLicense.IgnLicenseViewModel.GetIgnLicensePurchaseStatus` | app/src/main/java/com/peterlaurence/trekme/viewmodel/mapcreate/IgnLicenseViewModel.kt:19-31 | the new state is `CheckStatus` of the old one; the status stays the last value posted |
| `IgnLicense.IgnLicenseViewModel.GetIgnLicenseInfo` | app/src/main/java/com/peterlaurence/trekme/viewmodel/mapcreate/IgnLicenseViewModel.kt:33-47 | the new state is `FetchDetails` of the old one for the collaborator's answer |
| `IgnLicense.IgnLicenseViewModel.BuyLicense` | app/src/main/java/com/peterlaurence/trekme/viewmodel/mapcreate/IgnLicenseViewModel.kt:49-54 | launches nothing without cached details, else exactly the cached SKU details; the state is untouched |
| `IgnLicense.IgnLicenseViewModel.OnPurchasePending` | app/src/main/java/com/peterlaurence/trekme/viewmodel/mapcreate/IgnLicenseViewModel.kt:56-58 | the new state is `PurchasePending` of the old one |
| `IgnLicense.IgnLicenseViewModel.OnPurchaseAcknowledged` | app/src/main/java/com/peterlaurence/trekme/viewmodel/mapcreate/IgnLicenseViewModel.kt:63-69 | the new state is `PurchaseAcknowledged` of the old one at the given time |
| `IgnLicense.IgnLicenseViewModel.PersistLicense` | app/src/main/java/com/peterlaurence/trekme/viewmodel/mapcreate/IgnLicenseViewModel.kt:85-90 | appends exactly the given record to the persisted log |
| `IgnLicense.AcknowledgedCheckPostsNothing` | app/src/main/java/com/peterlaurence/trekme/viewmodel/mapcreate/IgnLicenseViewModel.kt:22-29 | after a done acknowledgement the check changes and posts nothing, whatever the purchase query would answer |
| `IgnLicense.QueriedCheckPostsPurchaseState` | app/src/main/java/com/peterlaurence/trekme/viewmodel/mapcreate/IgnLicenseViewModel.kt:25-28 | without acknowledgement, exactly one post: PURCHASED iff a purchase exists, NOT_PURCHASED iff none; nothing persisted, details kept |
| `IgnLicense.AcknowledgementPersistsOnce` | app/src/main/java/com/peterlaurence/trekme/viewmodel/mapcreate/IgnLicenseViewModel.kt:63-69 | acknowledgement posts PURCHASED and persists exactly one record, carrying the call time, after the earlier ones |
| `IgnLicense.PendingPersistsNothing` | app/src/main/java/com/peterlaurence/trekme/viewmodel/mapcreate/IgnLicenseViewModel.kt:56-58 | pending sets PENDING, persists nothing, keeps the details |
| `IgnLicense.DetailsFetchOutcomes` | app/src/main/java/com/peterlaurence/trekme/viewmodel/mapcreate/IgnLicenseViewModel.kt:35-45 | details: stored, status and posts untouched; product not found: PURCHASED, details kept; illegal state or not supported: nothing changes |
| `IgnLicense.PurchaseLaunchNeedsDetails` | app/src/main/java/com/peterlaurence/trekme/viewmodel/mapcreate/IgnLicenseViewModel.kt:49-54 | a purchase is launched iff details are cached, with their SKU details |
| `IgnLicense.StepPosts` | app/src/main/java/com/peterlaurence/trekme/viewmodel/mapcreate/IgnLicenseViewModel.kt:19-69 | each event posts the statuses of a state-independent table (`EventPosts`) and the status becomes the one it posts |
| `IgnLicense.RunPostsEvents` | app/src/main/java/com/peterlaurence/trekme/viewmodel/mapcreate/IgnLicenseViewModel.kt:19-69 | any sequence of calls and callbacks posts exactly its events' statuses, in order |
| `IgnLicense.RunKeepsConsistent` | app/src/main/java/com/peterlaurence/trekme/viewmodel/mapcreate/IgnLicenseViewModel.kt:16-69 | the observed status is always the last one posted, null before any post |
| `IgnLicense.RunPersistsAcknowledgements` | app/src/main/java/com/peterlaurence/trekme/viewmodel/mapcreate/IgnLicenseViewModel.kt:63-90 | records are persisted only by acknowledgements, one each, in order, never removed |
| `IgnLicense.RunKeepsLastDetails` | app/src/main/java/com/peterlaurence/trekme/viewmodel/mapcreate/IgnLicenseViewModel.kt:33-47 | cached details are those of the last successful fetch, or the initial ones if none succeeded |
| `IgnLicense.AcknowledgedCheckThenCallback` | app/src/main/java/com/peterlaurence/trekme/viewmodel/mapcreate/IgnLicenseViewModel.kt:22-29 | a check that acknowledged, followed by the acknowledgement callback, posts PURCHASED once and persists one record |
| `LandmarkLayer.Landmark.constructor` | app/src/main/java/com/peterlaurence/trekme/ui/mapview/LandmarkLayer.kt:57 | a landmark holds exactly the name, coordinates and comment it was built with |
| `LandmarkLayer.Map.AddLandmark` | app/src/main/java/com/peterlaurence/trekme/ui/mapview/LandmarkLayer.kt:65 | appends exactly the given landmark to the map's list |
| `LandmarkLayer.MovableLandmark.constructor` | app/src/main/java/com/peterlaurence/trekme/ui/mapview/LandmarkLayer.kt:60 | the view wraps the landmark and starts without relative coordinates |
| `LandmarkLayer.MarkerGrab.constructor` | app/src/main/java/com/peterlaurence/trekme/ui/mapview/LandmarkLayer.kt:73-84 | the drag handle's listeners capture the marker and the map passed at attach time |
| `LandmarkLayer.LandmarkLayer.constructor` | app/src/main/java/com/peterlaurence/trekme/ui/mapview/LandmarkLayer.kt:18-22 | no map or tile view yet, and the visibility flag false |
| `LandmarkLayer.LandmarkLayer.Init` | app/src/main/java/com/peterlaurence/trekme/ui/mapview/LandmarkLayer.kt:24-33 | keeps map and tile view; draws directly iff landmarks are already defined, else acquires them first |
| `LandmarkLayer.LandmarkLayer.IsVisible` | app/src/main/java/com/peterlaurence/trekme/ui/mapview/LandmarkLayer.kt:115 | always false: the flag starts false and nothing sets it |
| `LandmarkLayer.LandmarkLayer.NewCoords` | app/src/main/java/com/peterlaurence/trekme/ui/mapview/LandmarkLayer.kt:125-136 | returns the same landmark, whose coordinates become `UpdatedPosition` of the old ones; name and comment untouched |
| `LandmarkLayer.LandmarkLayer.AddNewLandmark` | app/src/main/java/com/peterlaurence/trekme/ui/mapview/LandmarkLayer.kt:46-71 | appends exactly one fresh landmark, positioned from the relative coordinates of the screen centre, whose view holds the same coordinates and shows the drag handle; the handle captures the layer's map of that moment |
| `LandmarkLayer.LandmarkLayer.AttachMarkerGrab` | app/src/main/java/com/peterlaurence/trekme/ui/mapview/LandmarkLayer.kt:73-109 | a fresh handle bound to the given marker and map; it is placed iff the marker has both relative coordinates |
| `LandmarkLayer.LandmarkLayer.OnMarkerMoved` | app/src/main/java/com/peterlaurence/trekme/ui/mapview/LandmarkLayer.kt:75-80 | the marker's relative coordinates become exactly the moved-to point |
| `LandmarkLayer.LandmarkLayer.OnMarkerClicked` | app/src/main/java/com/peterlaurence/trekme/ui/mapview/LandmarkLayer.kt:84-103 | the landmark is updated through the layer's current projection only when both relative coordinates are present; then the map captured at attach time is saved once, even if `init` has since installed another map |
| `LandmarkLayer.ScreenCentre` | app/src/main/java/com/peterlaurence/trekme/ui/mapview/LandmarkLayer.kt:48-49 | the centre lies at the middle of the visible window on each axis, rounded down by at most half a pixel |
| `LandmarkLayer.NoProjectionUsesRelativeCoordinates` | app/src/main/java/com/peterlaurence/trekme/ui/mapview/LandmarkLayer.kt:126-128 | without projection: lat is relativeY, lon is relativeX, projected coordinates untouched |
| `LandmarkLayer.ProjectionUsesInverse` | app/src/main/java/com/peterlaurence/trekme/ui/mapview/LandmarkLayer.kt:129-135 | with projection: lat from index 1, lon from index 0 of the inverse, projected coordinates are the relative ones |
| `LandmarkLayer.ProjectionWithoutAnswerGivesZero` | app/src/main/java/com/peterlaurence/trekme/ui/mapview/LandmarkLayer.kt:130-135 | a null inverse gives lat = lon = 0.0 while the projected coordinates are still set |
| `LandmarkLayer.UpdatedPositionIdempotent` | app/src/main/java/com/peterlaurence/trekme/ui/mapview/LandmarkLayer.kt:125-136 | updating twice with the same point equals updating once |
| `LandmarkLayer.MovedAlongEndsAtLast` | app/src/main/java/com/peterlaurence/trekme/ui/mapview/LandmarkLayer.kt:75-80 | after any non-empty sequence of moves the marker is at the last point |
| `LandmarkLayer.DragThenClickUsesLastPoint` | app/src/main/java/com/peterlaurence/trekme/ui/mapview/LandmarkLayer.kt:75-102 | a drag along any path followed by a click gives the landmark the coordinates of the path's last point |
| `LandmarkLayer.ClickWithoutCoordinatesKeepsPosition` | app/src/main/java/com/peterlaurence/trekme/ui/mapview/LandmarkLayer.kt:96-101 | a click on a marker missing a relative coordinate leaves the landmark unchanged |
| `Decimal.IntToDecimal` | app/src/main/java/com/peterlaurence/trekme/core/providers/BitmapProviderLibVips.java:39-40 | the rendering of an int is non-empty, starts with '-' iff negative, and holds only digits and '-' |
| `Decimal.IntToDecimalRoundTrip` | app/src/main/java/com/peterlaurence/trekme/core/providers/BitmapProviderLibVips.java:39-40 | parsing the rendering of any int gives that int back |
| `BitmapProviderLibVips.NewProvider` | app/src/main/java/com/peterlaurence/trekme/core/providers/BitmapProviderLibVips.java:29-32 | the provider's directory and extension are exactly the map's |
| `BitmapProviderLibVips.RelativePath` | app/src/main/java/com/peterlaurence/trekme/core/providers/BitmapProviderLibVips.java:39-40 | the path starts with the decimal zoom and a separator, and ends with the extension |
| `BitmapProviderLibVips.Resolve` | app/src/main/java/com/peterlaurence/trekme/core/providers/BitmapProviderLibVips.java:42-44 | the child follows one separator; after a non-root directory, the path is that directory, a separator, the child; an empty or root directory gives "/" and the child |
| `BitmapProviderLibVips.TileFilePath` | app/src/main/java/com/peterlaurence/trekme/core/providers/BitmapProviderLibVips.java:42-44 | the file path ends with a separator followed by the tile's relative path |
| `BitmapProviderLibVips.GetBitmap` | app/src/main/java/com/peterlaurence/trekme/core/providers/BitmapProviderLibVips.java:35-51 | null for non-Integer data; a bitmap only when the decoder decodes the tile's file in RGB_565 to it; whenever the decoder succeeds on that file, its bitmap |
| `BitmapProviderLibVips.RelativePathRoundTrip` | app/src/main/java/com/peterlaurence/trekme/core/providers/BitmapProviderLibVips.java:39-40 | the relative path parses back to (zoom, row, column) in that order, for any extension |
| `BitmapProviderLibVips.TileFilesAreDistinct` | app/src/main/java/com/peterlaurence/trekme/core/providers/BitmapProviderLibVips.java:39-42 | two tiles of one provider share a file only if zoom, row and column are equal |
| `BitmapProviderLibVips.ExtensionFollowsColumn` | app/src/main/java/com/peterlaurence/trekme/core/providers/BitmapProviderLibVips.java:40 | the path ends with the extension, directly after a digit of the column |
| `BitmapProviderLibVips.TileFileUnderMapDirectory` | app/src/main/java/com/peterlaurence/trekme/core/providers/BitmapProviderLibVips.java:29-42 | the file is the directory captured from the map, one separator, then the relative path with the map's extension |
| `BitmapProviderLibVips.NonIntegerDataGivesNull` | app/src/main/java/com/peterlaurence/trekme/core/providers/BitmapProviderLibVips.java:36-50 | tile data that is not an Integer gives null for every decoder, so no file is read |
| `BitmapProviderLibVips.GetBitmapDecodesTileFile` | app/src/main/java/com/peterlaurence/trekme/core/providers/BitmapProviderLibVips.java:42-50 | a bitmap is returned iff the data is an Integer and decoding that tile's file in RGB_565 succeeds; null result, exception or OutOfMemoryError all give null |
| `GoogleMapWmts.PyramidExtent` | app/src/main/java/com/peterlaurence/trekme/ui/mapcreate/views/GoogleMapWmtsViewFragment.kt:97-100 | 2^18 = 262144; extent 67108864 = tileSize * 2^highestLevel; level count = highestLevel + 1 = 19 |
| `GoogleMapWmts.BoundsAreCentredSquare` | app/src/main/java/com/peterlaurence/trekme/ui/mapcreate/views/GoogleMapWmtsViewFragment.kt:101-104 | y0 = -x0, x1 = -x0, y1 = x0: a square of positive side centred on the origin |
| `GoogleMapWmts.SourceOrDefault` | app/src/main/java/com/peterlaurence/trekme/ui/mapcreate/views/GoogleMapWmtsViewFragment.kt:135-136 | the argument's source, OpenStreetMap when absent |
| `GoogleMapWmts.MapViewConfig` | app/src/main/java/com/peterlaurence/trekme/ui/mapcreate/views/GoogleMapWmtsViewFragment.kt:360-368 | 19 levels, square 256 * 2^18 px map, 256 px tiles; worker count 2 iff OpenStreetMap, 16 iff any other source |
| `GoogleMapWmts.LayerMenuVisible` | app/src/main/java/com/peterlaurence/trekme/ui/mapcreate/views/GoogleMapWmtsViewFragment.kt:195-198 | the layer menu is visible iff the source is IGN |
| `GoogleMapWmts.TileAccessibility` | app/src/main/java/com/peterlaurence/trekme/ui/mapcreate/views/GoogleMapWmtsViewFragment.kt:307-323 | no provider gives false; IGN never lets an exception out; accessible iff provider and probe says yes; an exception escapes iff provider, non-IGN source and the probe threw |
| `GoogleMapWmts.ShowWarningEffect` | app/src/main/java/com/peterlaurence/trekme/ui/mapcreate/views/GoogleMapWmtsViewFragment.kt:338-348 | warning and link visible; IGN: credentials button visible, IGN text; others: button as before, generic text |
| `GoogleMapWmts.HideAfterShow` | app/src/main/java/com/peterlaurence/trekme/ui/mapcreate/views/GoogleMapWmtsViewFragment.kt:350-354 | hiding makes all three views gone after any show, keeps the text, and is idempotent |
| `GoogleMapWmts.ScrollToInitAsWritten` | app/src/main/java/com/peterlaurence/trekme/ui/mapcreate/views/GoogleMapWmtsViewFragment.kt:296-300 | as written, fails iff there is an initial position and no map view; without an initial position the map view is unchanged; with both, the map view takes the position |
| `GoogleMapWmts.ScrollToInitWithoutMapViewThrows` | app/src/main/java/com/peterlaurence/trekme/ui/mapcreate/views/GoogleMapWmtsViewFragment.kt:296-300 | as written, an initial position with no map view ever set throws |
| `GoogleMapWmts.ScrollToInit` | app/src/main/java/com/peterlaurence/trekme/ui/mapcreate/views/GoogleMapWmtsViewFragment.kt:296-300 | guarded: a map view exists afterwards iff before; the initial position is applied iff both exist |
| `GoogleMapWmts.ScrollToInitAgrees` | app/src/main/java/com/peterlaurence/trekme/ui/mapcreate/views/GoogleMapWmtsViewFragment.kt:296-300 | the code as written fails exactly when there is an initial position and no map view, and agrees with the guarded step otherwise |
| `GoogleMapWmts.GoogleMapWmtsView.constructor` | app/src/main/java/com/peterlaurence/trekme/ui/mapcreate/views/GoogleMapWmtsViewFragment.kt:132-146 | the source is the argument's or OpenStreetMap; no map view, marker or area yet |
| `GoogleMapWmts.GoogleMapWmtsView.ShowWarningMessage` | app/src/main/java/com/peterlaurence/trekme/ui/mapcreate/views/GoogleMapWmtsViewFragment.kt:338-348 | the warning views become `ShowWarning` of the old ones; detached, the text is left as it was |
| `GoogleMapWmts.GoogleMapWmtsView.HideWarningMessage` | app/src/main/java/com/peterlaurence/trekme/ui/mapcreate/views/GoogleMapWmtsViewFragment.kt:350-354 | the warning views become `HideWarning` of the old ones |
| `GoogleMapWmts.GoogleMapWmtsView.OnTileAccessibility` | app/src/main/java/com/peterlaurence/trekme/ui/mapcreate/views/GoogleMapWmtsViewFragment.kt:324-335 | not accessible shows the warning, accessible hides it; for an escaped probe exception only that the warning views are not touched before the failure (the failure itself is left out) |
| `GoogleMapWmts.GoogleMapWmtsView.AddMapView` | app/src/main/java/com/peterlaurence/trekme/ui/mapcreate/views/GoogleMapWmtsViewFragment.kt:356-381 | a map view with the source's configuration and the pyramid bounds, and the position marker at (0, 0) |
| `GoogleMapWmts.GoogleMapWmtsView.Configure` | app/src/main/java/com/peterlaurence/trekme/ui/mapcreate/views/GoogleMapWmtsViewFragment.kt:284-301 | a map view is added iff a provider exists, else the warning is shown; then the guarded initial position |
| `GoogleMapWmts.GoogleMapWmtsView.UpdatePosition` | app/src/main/java/com/peterlaurence/trekme/ui/mapcreate/views/GoogleMapWmtsViewFragment.kt:454-458 | the marker moves to (x, y) only if it exists |
| `GoogleMapWmts.GoogleMapWmtsView.OnLocationReceived` | app/src/main/java/com/peterlaurence/trekme/ui/mapcreate/views/GoogleMapWmtsViewFragment.kt:431-446 | nothing without a map view or a projected point; otherwise the marker is at the projected point |
| `GoogleMapWmts.GoogleMapWmtsView.OnAreaChanged` | app/src/main/java/com/peterlaurence/trekme/ui/mapcreate/views/GoogleMapWmtsViewFragment.kt:400-402 | the selected area becomes the new one |
| `GoogleMapWmts.GoogleMapWmtsView.ValidateArea` | app/src/main/java/com/peterlaurence/trekme/ui/mapcreate/views/GoogleMapWmtsViewFragment.kt:415-429 | a dialog iff an area is selected and a fragment manager exists; it carries that area and the source; IGN's dialog iff the source is IGN |

## Left out

- Android lifecycle, views and widgets are not modelled: fragment callbacks, menus, the snackbar, dialogs beyond which one is chosen, the area layer, marker animations, and adding, moving or removing marker views in the tile view. Event-bus registration and its events, including `onLayerDefined`, are left out too.
- Coroutines, jobs and dispatchers are not modelled. Every call is one sequential step and every `postValue` an immediate assignment. Cancelling the screen's job is not modelled.
- The billing SDK is replaced by parameters carrying its answers. When it calls back (`onPurchasePending`, `onPurchaseAcknowledged`) is its own business: the callbacks are separate methods.
- `PersistenceStrategy` writes a file; here persisting appends to a ghost log. `MapLoader.saveLandmarks` and `getLandmarksForMap` are file I/O: the first is a ghost log of saved maps, the second only decides which branch `init` takes.
- `Date().time` becomes the `now` parameter.
- `MercatorProjection` and the tile view's coordinate translation are floating-point code that is not part of this model. They are function-valued fields or parameters. `BitmapFactory.decodeFile` is a decoder parameter, and the per-source probes are a `ProbeOutcome` parameter.
- `drawLandmarks` and `onMarkerTap` are unimplemented in the source; `morphToStaticForm` is animation.
- `LandmarkLayer.ScreenCentre`: does not model 32-bit `Int` wrap-around of `scroll + size / 2 - offset`; view sizes are taken as non-negative, so truncating and Euclidean division agree.
- `GoogleMapWmts.GoogleMapWmtsView.AddMapView`: does not model the early return when the fragment has no context; while the view exists the context is always present.
- `GoogleMapWmts.GoogleMapWmtsView.Configure`: uses the guarded step 3 (`ScrollToInit`); the code as written is `ScrollToInitAsWritten` (see Findings). The `IllegalStateException` thrown by `getText` when detached is modelled only for the asynchronous accessibility result, where the code catches it.
- `GoogleMapWmts.GoogleMapWmtsView.OnTileAccessibility`: an exception escaping a non-IGN probe is rethrown where the result is awaited (GoogleMapWmtsViewFragment.kt:324). It leaves the launch at line 307 and fails the screen's job (lines 78 and 120), so later launches on it, such as the location one at line 438, do nothing until `onStart` makes a new job. The exception also reaches the uncaught-exception handler. The model only says that the warning views are not updated.
- `IgnLicense.IgnLicenseViewModel.GetIgnLicensePurchaseStatus`: an exception thrown by `acknowledgeIgnLicense` or `getIgnLicensePurchase` (IgnLicenseViewModel.kt:19-31) escapes the coroutine uncaught; the model takes both answers as given.
- `IgnLicense.IgnLicenseViewModel.GetIgnLicenseInfo`: only the three caught exceptions are modelled (`DetailsResult`); any other exception from `getIgnLicenseDetails` (IgnLicenseViewModel.kt:33-47) escapes the coroutine uncaught.
- `LandmarkLayer.LandmarkLayer.AddNewLandmark`, `LandmarkLayer.LandmarkLayer.NewCoords` and `LandmarkLayer.LandmarkLayer.OnMarkerClicked`: require a map (and for the first, a tile view) to have been set by `init`. Before that, the `lateinit` fields throw `UninitializedPropertyAccessException` (LandmarkLayer.kt:48, 126); that failure is not modelled.
- `java.io.File` normalisation of a child path with repeated or trailing separators is not modelled; tile extensions such as ".jpg" contain none.
- The `Map` class, `GoogleMapWmtsViewModel` (tile stream providers, initial scale and scroll) and the per-source probe functions are not part of this model; only their results enter.

## Findings

| source | as written | input that shows it | evidently intended | confidence | as-written member | corrected member |
|---|---|---|---|---|---|---|
| app/src/main/java/com/peterlaurence/trekme/ui/mapcreate/views/GoogleMapWmtsViewFragment.kt:289-300 | step 3 of `configure` sets scale and scroll on the `lateinit` map view even when step 2 added none | first `configure` for a source with no tile stream provider (IGN without credentials, say) for which the view model has an initial scale and scroll: `ScrollToInitAsWritten(None, Some(init))` throws | apply the initial scale and scroll only when a map view exists | medium, not executed; it needs the view model to give an initial position for such a source, and that code is not part of this model | `GoogleMapWmts.ScrollToInitWithoutMapViewThrows` | `GoogleMapWmts.ScrollToInit` |
