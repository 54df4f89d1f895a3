# ZoomableDetailView, modelled in Dafny

ZoomableDetailView is a SwiftUI component. Tapping a thumbnail enlarges its image into a full-screen detail view. The user can pinch to zoom the detail view, drag it to dismiss it, or tap it to dismiss it. Once rendering and animation are set aside, three small state machines remain. This project models them:

- **Gesture handling of the detail overlay** (`WithZoomableDetailViewOverlay`). Its state is `offset`, `zoomScale`, `currentZoomScale`, `dragIsTracking` and `scaleAnchor`, plus the view model's `presentingImage`. It derives a background opacity, a shrink scale and a combined scale from that state. Drag, pinch and tap handlers update it, and `dismissDetailView` ends the presentation (module `Overlay`, class `DetailOverlay`; the derived values are in module `Transform`).
- **Single selection** (`ZoomableImageViewModel`, module `Selection`). A thumbnail's tap selects its id only while nothing else is selected. The thumbnail whose id becomes selected hands its image to the view model and starts the presentation. The selected thumbnail is hidden (module `Thumbnails`).
- **Per-thumbnail fetch** (`ZoomableSquareImageViaAsyncFn.FnState`, module `Fetch`). The states are `not_called_yet`, `calling`, `finishedWith(image)` and `failed`. The class `Thumbnails.AsyncFnThumbnail` holds the state. The pure machine `Fetch.Loader` specifies it, and lemmas about runs of events are proved for it.

`Scenarios` runs the thumbnails and the overlay together through whole interactions. It uses only the methods' contracts.

Doubles are `real`. The model does not compute the square root in `distance`. Wherever the distance is needed, the caller passes it as an argument, together with `Transform.IsDistance(offset, distance)`. That predicate says the distance is non-negative, is zero exactly at the origin, and squares to `width² + height²`. The middle fact follows from the other two, but it is assumed rather than proved, because Dafny's solver does not reliably derive that a non-zero real has a positive square. In particular, the fact that `isDragging` (distance > 0) holds exactly when the offset is not zero comes from this assumption, not from a proof.

Behaviour the code does not have, and what it does instead:
- Pinch zoom is additive (`currentZoomScale = magnification − 1`, then `zoomScale += currentZoomScale` at pinch end), not multiplicative.
- Panning while zoomed does nothing: no anchor panning, no anchor clamping. A drag is ignored whenever `zoomScale != 1`.
- Pinch end neither clamps nor re-centres the offset, and does not reset the anchor. Only a `zoomScale` below 1 is raised back to 1.
- The combined scale takes the drag shrink whenever `distance > 0`, without checking `zoomScale == 1`. A drag and a pinch can overlap. If a pinch commits a zoom other than 1 while a drag is still held, the release of the drag is ignored and the offset stays. The image is then drawn at the drag shrink instead of the zoom, and later drags are ignored until a pinch brings `zoomScale` back to 1 or a tap dismisses (`Scenarios.DragThenPinchStrandsOffset`).
- Starting a fetch is not idempotent. Each appearance of the loading view starts another task, and nothing discards a late result. `Fetch.LateReturnOverwrites` shows a finished thumbnail ending up `failed`. The model assumes that a task sets `calling` as soon as it is created. Under that assumption, the terminal states are never left for a loading state (`Fetch.TerminalStaysTerminal`), and they are final once no task is in flight (`Fetch.SettledIsFinal`). In the code, `calling` is set inside the task. A task that was created but has not yet started can write `calling` over a state that another task has already made terminal.
- A URL thumbnail's tap handler is live before its image has loaded, and also after the load has failed. The `onChange` handler that presents the image exists only once the image has loaded, and it does not fire for a selection that was made earlier. So a tap before loading selects the URL and hides the thumbnail, but nothing ever presents the image or clears the selection (`Scenarios.TapBeforeLoadSticks`).

## Model

| member | source | states |
|---|---|---|
| `Selection.ViewModel.constructor` | Sources/ZoomableDetailView/ZoomableDetailView.swift:6-16 | A new view model has no image, no selected id, and is not presenting. |
| `Selection.AfterTap` | Sources/ZoomableDetailView/ZoomableDetailView.swift:90-94 | After a tap something is selected. An existing selection is kept. Only an empty selection becomes the tapped id. |
| `Selection.FirstTapWins` | Sources/ZoomableDetailView/ZoomableDetailView.swift:136-140 | For any sequence of taps, the selection ends as the earlier selection if there was one, otherwise as the first tapped id. A tap never replaces a selection. |
| `Transform.BackgroundOpacity` | Sources/ZoomableDetailView/ZoomableDetailView.swift:158-165 | The opacity lies in [0,1]. It is 0 when not presenting. When presenting it is 1 at distance 0, equals (200 − d)/200 up to 200, and is exactly 0 from 200 on. |
| `Transform.ShrinkScale` | Sources/ZoomableDetailView/ZoomableDetailView.swift:167-174 | The shrink scale lies in [0.8, 1]. It is 1 when not presenting. When presenting it equals (1000 − d)/1000 up to distance 200 and is the floor 0.8 from 200 on. |
| `Transform.CombinedScale` | Sources/ZoomableDetailView/ZoomableDetailView.swift:191-197 | While the distance is positive, the drawn scale is the shrink scale and lies in [0.8, 1]. At distance 0 it is `zoomScale + currentZoomScale`. |
| `Transform.DismissThreshold` | Sources/ZoomableDetailView/ZoomableDetailView.swift:156-165 | The opacity is below 0.8 exactly when the distance exceeds 40, which is exactly when width² + height² exceeds 1600. |
| `Transform.FadesWithDistance` | Sources/ZoomableDetailView/ZoomableDetailView.swift:156-174 | A longer drag never raises the background opacity and never raises the shrink scale. |
| `Fetch.Returned` | Sources/ZoomableDetailView/ZoomableDetailView.swift:62-66 | A returned task's state is terminal. It is `finishedWith(image)` exactly when the function returned an image, holding that image, and `failed` exactly when it returned nil. |
| `Fetch.OnAppear` | Sources/ZoomableDetailView/ZoomableDetailView.swift:53-69 | Only the `not_called_yet`/`calling` branch starts a task. It sets `calling` and adds one task in flight. A terminal state is left unchanged. |
| `Fetch.OnReturn` | Sources/ZoomableDetailView/ZoomableDetailView.swift:62-66 | A task's return stores its terminal outcome, whatever the state was, and one task fewer is in flight. |
| `Fetch.RunKeepsValid` | Sources/ZoomableDetailView/ZoomableDetailView.swift:39-67 | In every reachable state, `not_called_yet` has no task in flight and `calling` has at least one. |
| `Fetch.TerminalStaysTerminal` | Sources/ZoomableDetailView/ZoomableDetailView.swift:70-100 | Given that a task sets `calling` as soon as it is created, no sequence of events leads from `finishedWith` or `failed` to `not_called_yet` or `calling`. |
| `Fetch.SettledIsFinal` | Sources/ZoomableDetailView/ZoomableDetailView.swift:70-100 | A terminal state with no task in flight never changes again. |
| `Fetch.NeverUncalled` | Sources/ZoomableDetailView/ZoomableDetailView.swift:59-67 | Once the first call has started, the state never returns to `not_called_yet`. |
| `Fetch.SingleFetch` | Sources/ZoomableDetailView/ZoomableDetailView.swift:59-67 | One appearance followed by its return ends in `Returned(result)` with no task in flight. |
| `Fetch.LateReturnOverwrites` | Sources/ZoomableDetailView/ZoomableDetailView.swift:59-67 | Two appearances and then two returns, first an image and then nil: the thumbnail is finished after the first return and failed after the second. |
| `Thumbnails.AsyncFnThumbnail.constructor` | Sources/ZoomableDetailView/ZoomableDetailView.swift:39-50 | A new thumbnail is `not_called_yet` with no task in flight. |
| `Thumbnails.AsyncFnThumbnail.Appear` | Sources/ZoomableDetailView/ZoomableDetailView.swift:59-61 | Reports whether a task was started, which happens exactly when the state was not terminal. The new fetch state is `OnAppear` of the old one, and the fetch invariant is kept. |
| `Thumbnails.AsyncFnThumbnail.FetchReturned` | Sources/ZoomableDetailView/ZoomableDetailView.swift:62-66 | The new fetch state is `OnReturn` of the old one and the result, and the fetch invariant is kept. |
| `Thumbnails.AsyncFnThumbnail.Tap` | Sources/ZoomableDetailView/ZoomableDetailView.swift:90-94 | Once loaded, a tap selects the id only if nothing is selected (`AfterTap`). Before that a tap changes nothing. The image and `presentingImage` are untouched. |
| `Thumbnails.AsyncFnThumbnail.SelectionChanged` | Sources/ZoomableDetailView/ZoomableDetailView.swift:78-85 | When this loaded thumbnail's id is the selected one, its image becomes `imageSelected` and `presentingImage` becomes true. Otherwise nothing changes. The selection itself is never changed. |
| `Thumbnails.AsyncFnThumbnail.Opacity` | Sources/ZoomableDetailView/ZoomableDetailView.swift:88 | The opacity is 0 or 1. It is 0 exactly when the thumbnail is loaded and selected. |
| `Thumbnails.UrlThumbnail.constructor` | Sources/ZoomableDetailView/ZoomableDetailView.swift:105-110 | The thumbnail keeps the shared view model and its URL string as its id, and no image has loaded yet. |
| `Thumbnails.UrlThumbnail.Loaded` | Sources/ZoomableDetailView/ZoomableDetailView.swift:117-131 | Once `AsyncImage` delivers an image, the thumbnail holds it. This is when the content closure, with its `onChange` handler, replaces the progress view. |
| `Thumbnails.UrlThumbnail.Tap` | Sources/ZoomableDetailView/ZoomableDetailView.swift:136-140 | A tap selects the URL only if nothing is selected (`AfterTap`). The image and `presentingImage` are untouched. |
| `Thumbnails.UrlThumbnail.SelectionChanged` | Sources/ZoomableDetailView/ZoomableDetailView.swift:117-128 | When the image has loaded and the URL is the selected id, the loaded image becomes `imageSelected` and `presentingImage` becomes true. Before the image has loaded, or for another id, nothing changes. The selection is never changed. |
| `Thumbnails.UrlThumbnail.Opacity` | Sources/ZoomableDetailView/ZoomableDetailView.swift:134 | The opacity is 0 or 1. It is 0 exactly when this URL is the selected id. |
| `Overlay.DetailOverlay.constructor` | Sources/ZoomableDetailView/ZoomableDetailView.swift:146-152 | A new overlay owns a fresh, empty view model. Its transform is the identity and `dragIsTracking` is false. |
| `Overlay.DetailOverlay.DismissDetailView` | Sources/ZoomableDetailView/ZoomableDetailView.swift:176-183 | When presenting, it stops presenting, resets to the identity transform and schedules the completion step. Otherwise it changes nothing. The selection is untouched. `zoomScale ≥ 1` is kept. |
| `Overlay.DetailOverlay.CompleteDismiss` | Sources/ZoomableDetailView/ZoomableDetailView.swift:184-187 | The completion step clears `imageSelected` and `imageIdSelected`. |
| `Overlay.DetailOverlay.DragChanged` | Sources/ZoomableDetailView/ZoomableDetailView.swift:244-252 | While zoomed, nothing changes. Otherwise `dragIsTracking` becomes true and, when presenting, the offset is replaced by the cumulative translation. The zoom and the anchor are untouched. |
| `Overlay.DetailOverlay.DragEnded` | Sources/ZoomableDetailView/ZoomableDetailView.swift:253-270 | While zoomed, nothing changes. Otherwise `dragIsTracking` becomes false. When presenting, it dismisses exactly when the opacity is below 0.8, which is exactly when width² + height² > 1600; otherwise it snaps back to the identity and keeps presenting. The selection is untouched. |
| `Overlay.DetailOverlay.MagnifyChanged` | Sources/ZoomableDetailView/ZoomableDetailView.swift:274-277 | `currentZoomScale` becomes magnification − 1 and the anchor becomes the start anchor. Nothing else changes. |
| `Overlay.DetailOverlay.MagnifyEnded` | Sources/ZoomableDetailView/ZoomableDetailView.swift:278-286 | `zoomScale` becomes max(1, zoomScale + currentZoomScale) and `currentZoomScale` becomes 0. When the sum is at least 1 the drawn zoom does not jump. The offset and the anchor are untouched. |
| `Overlay.DetailOverlay.TapDetail` | Sources/ZoomableDetailView/ZoomableDetailView.swift:288-290 | A tap on the detail view has the same effect as `DismissDetailView`. |
| `Scenarios.DragFarDismisses` | Sources/ZoomableDetailView/ZoomableDetailView.swift:244-268 | A thumbnail is tapped and presented. It is then dragged to (0, 250) and released, and the dismiss completes. Afterwards nothing is selected, nothing is presented, and the transform is the identity. |
| `Scenarios.DragNearSpringsBack` | Sources/ZoomableDetailView/ZoomableDetailView.swift:257-268 | A presented image is dragged to (0, 30) and released. It springs back to the identity transform, still presented and still selected. |
| `Scenarios.PinchThenDrag` | Sources/ZoomableDetailView/ZoomableDetailView.swift:274-286 | A pinch through 1.0, 1.5 and 1.2 about (0.8, 0.5) ends with zoom 1.2, the offset still zero and the anchor still (0.8, 0.5). A drag after it changes nothing. |
| `Scenarios.SecondTapIgnored` | Sources/ZoomableDetailView/ZoomableDetailView.swift:121-140 | While thumbnail A is presented, URL thumbnail B loads, is tapped, and has its onChange handler run. A stays selected and A's image stays shown. |
| `Scenarios.TapBeforeLoadSticks` | Sources/ZoomableDetailView/ZoomableDetailView.swift:117-140 | A URL thumbnail tapped before its image loads ends up selected and hidden. Nothing is presented, no image is shown, and a dismiss does nothing. This stays so after the image loads. |
| `Scenarios.DragThenPinchStrandsOffset` | Sources/ZoomableDetailView/ZoomableDetailView.swift:191-197 | A drag of 100 points, then a pinch that commits zoom 1.5, then the release of the drag: the offset stays at (0, 100) and the zoom is 1.5. The image is drawn at 0.9, still presented, and a further drag is ignored. |

## Left out

- Rendering: `matchedGeometryEffect` ids and `UUID()` placeholders, ZStack/overlay layout, `clipped`, `aspectRatio`, `allowsHitTesting`, the visual difference between the two `dragIsTracking` branches, and `ImageFailedToLoadView`. None of them holds state logic. `Namespace.ID` is not modelled either.
- Animation: `withAnimation` and the 0.2-second ease-in-out. Each handler sets the values its animation ends at. The completion block of `dismissDetailView` is the separate method `CompleteDismiss`. The model does not force the caller to run it after the animation. `DismissDetailView` only reports that it is due.
- Async I/O: `Task`, `async_fn`, `AsyncImage` and `URLSession`. The fetch outcome is the argument of `FetchReturned`, and the image an `AsyncImage` delivered is the argument of `UrlThumbnail.Loaded`. A failed `AsyncImage` is a thumbnail for which `Loaded` is never called. Task scheduling is not modelled. `Appear` performs the task's first step (setting `calling`) at once, and each `FetchReturned` stands for one started task's return.
- SwiftUI calls an `onChange(of:)` handler only when `imageIdSelected` changes. In the model, `SelectionChanged` may be called at any time, and its contract holds for every call.
- The detail view's gesture and tap handlers exist only while `imageSelected` is non-nil. The model does not enforce this. `DragChanged`, `DragEnded`, `MagnifyChanged`, `MagnifyEnded` and `TapDetail` may be called in any state. Their contracts hold in every state, but a caller must not rely on one being called while nothing is selected.
- Floating point and `sqrt`: `real` replaces `Double`. The distance is supplied by the caller under `IsDistance`.
- Sources/ZoomableDetailView/Example.swift: demo wiring with random URLs and network fetches. It holds no logic.
- Behaviour the code does not implement: multiplicative pinch, anchor panning or clamping while zoomed, offset clamping at pinch end, stale-result or cancellation guards, and an idempotent fetch request. Nothing is modelled for these.
