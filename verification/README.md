# ImageViewer: the viewer state machine and the loader's normalisation

This project models the core of a small React image viewer. The viewer shows a list of images, each annotated with bounding boxes. Users can step through the list and zoom and pan the current image with the mouse. The model is written and proved in Dafny.

- `imgview.dfy` (module `ImgView`) models the viewer component from `src/ImgView.jsx`.
  - Its state becomes the class `ImageViewer`. The fields `currentIndex`, `scale`, `offset` and `isDragging` come from the component's state. The fields `dragStart` and `offsetStart` come from its refs.
  - Each handler becomes a method: reset, next/previous, zoom in/out, and mouse down/move/up/leave. Next/previous, zoom and mouse-move state the new state through a specification function: `NextIndex`, `PreviousIndex`, `ZoomedIn`, `ZoomedOut` or `DragOffset`. Reset and mouse down/up/leave state it directly. Every handler requires and keeps the class invariant `Valid()`: the index is in range and the scale is in [0.2, 5].
  - The recentering effect becomes the method `Recenter`. It takes the container's client size and the image's natural size as parameters. `AfterRender` runs it only when the displayed image or the zoom factor changed since the previous render, which is when the effect's dependencies change. The effect depends on the `currentImage` object, not on the index. The two agree because the loader builds a fresh record object for every image module (`src/App.jsx:32`), so different indices never share an object. The effect also runs once after the first render. That run is `AfterRender` with a `prevIndex` that is no index (for example -1), so from the effect's first run on, the offset is the centred one.
  - The overlay geometry is the pure function `OverlayRect`, and `Overlays` applies it to every box. Both are tied to the image's own transform (`ToScreen`, `ImageRect`).
- `app.dfy` (module `App`) models the loader and page from `src/App.jsx`.
  - Paths: the file name is taken from the module path (`ImageName`), and the paired annotation path is built from it (`JsonPath`, using JavaScript's first-occurrence `replace`, modelled as `ReplaceFirst` over `IndexOfFrom`, which plays `indexOf`). These functions carry only the bounds that slicing needs (`LastSlash`, `IndexOfFrom`). What they compute is stated in the lemmas beside them.
  - Records: `NormalizeEntry` chains the loop body's steps for one module. It takes the name, builds the annotation path, looks the document up (`LookupJson`) and builds the record (`BuildRecord`). Missing sizes default to 0, and predictions are copied in order.
  - Loading: `LoadData` is the `for`/`push` loop over the image table.
  - Page: `FetchData` and `Render` model the page's state and what it shows. `MountViewer` creates the viewer only for a non-empty list.
- `records.dfy` holds the records the two modules share. `wrappers.dfy` holds `Option` and `Result`.

Zoom factors, offsets and coordinates are `real`s, so the arithmetic is exact.

`src/ImgView.jsx` has no fit-to-container scaling, pinch or touch gestures, percentage overlay coordinates or per-box colours. The model follows the code:
- zoom multiplies or divides by 1.2 and is clamped to [0.2, 5];
- panning is measured from the mouse-down point, not from the previous sample;
- overlays are placed in pixels under the image's own `translate(offset) scale(scale)` transform.

`label` is a Dafny keyword, so the box field the loader writes as `label` is called `labelText` here.

## Model

| member | source | states |
|---|---|---|
| `ImgView.ImageViewer.constructor` | src/ImgView.jsx:4-10 | The viewer starts at image 0 with scale 1, offset (0,0), not dragging, and both drag refs at (0,0). It requires a non-empty list. |
| `ImgView.ImageViewer.CurrentImage` | src/ImgView.jsx:13 | The displayed image is an element of the list. |
| `ImgView.ImageViewer.ResetView` | src/ImgView.jsx:15-18 | Sets scale to 1 and offset to (0,0) and changes nothing else (its frame). Calling it twice gives the same state, so it is idempotent. |
| `ImgView.ImageViewer.HandleNext` | src/ImgView.jsx:20-25 | If the index is below the last, it increases by exactly 1 and the view is reset. Otherwise index, scale and offset are unchanged. The invariant (index in range, scale in [0.2, 5]) is kept. |
| `ImgView.ImageViewer.HandlePrevious` | src/ImgView.jsx:27-32 | Symmetric to next, with the guard `currentIndex > 0`. |
| `ImgView.NextIndex` | src/ImgView.jsx:20-25 | The index advances by exactly one iff it is below `count - 1`, and stays put iff it is not. |
| `ImgView.PreviousIndex` | src/ImgView.jsx:27-32 | The index goes back by exactly one iff it is positive, and stays put iff it is not. |
| `ImgView.NavigationStaysInRange` | src/ImgView.jsx:20-32 | Starting in range, any sequence of next/previous presses keeps `0 <= index < count`. |
| `ImgView.DisabledIffNoMove` | src/ImgView.jsx:122-149 | For an in-range index, Previous is disabled (`index == 0`) exactly when pressing it would not move. Next is disabled (`index == count - 1`) exactly when pressing it would not move. |
| `ImgView.ZoomedIn` | src/ImgView.jsx:34-36 | `min(scale * 1.2, 5)`: at most 5, at most `scale * 1.2`, and equal to one of the two. |
| `ImgView.ZoomedOut` | src/ImgView.jsx:38-40 | `max(scale / 1.2, 0.2)`: at least 0.2, at least `scale / 1.2`, and equal to one of the two. |
| `ImgView.ImageViewer.HandleZoomIn` | src/ImgView.jsx:34-36 | The new scale is `ZoomedIn` of the old one. Only `scale` changes. The invariant is kept. |
| `ImgView.ImageViewer.HandleZoomOut` | src/ImgView.jsx:38-40 | The new scale is `ZoomedOut` of the old one. Only `scale` changes. The invariant is kept. |
| `ImgView.ZoomsStayInRange` | src/ImgView.jsx:34-40 | From a scale in [0.2, 5], any sequence of zoom presses stays in [0.2, 5]. |
| `ImgView.ZoomsFromInitialStayInRange` | src/ImgView.jsx:6 | From the initial scale 1, any sequence of zoom presses stays in [0.2, 5]. |
| `ImgView.ImageViewer.OnMouseDown` | src/ImgView.jsx:42-47 | Sets dragging, records the pointer as `dragStart` and the current offset as `offsetStart`, and changes nothing else. The invariant `Valid()` is kept. |
| `ImgView.ImageViewer.OnMouseMove` | src/ImgView.jsx:49-55 | While dragging, `offset = offsetStart + (pointer - dragStart)`. When not dragging, the offset is unchanged. Only `offset` can change. The invariant `Valid()` is kept. |
| `ImgView.ImageViewer.OnMouseUp` | src/ImgView.jsx:57-59 | Clears `isDragging` and leaves scale, offset, index and the drag refs untouched. The invariant `Valid()` is kept. |
| `ImgView.ImageViewer.OnMouseLeave` | src/ImgView.jsx:61-63 | Clears `isDragging` and leaves scale, offset, index and the drag refs untouched. The invariant `Valid()` is kept. |
| `ImgView.DragOffset` | src/ImgView.jsx:52-54 | The offset moves by exactly the pointer's displacement since mouse-down, on each axis. |
| `ImgView.DragReturnRestores` | src/ImgView.jsx:52-54 | Bringing the pointer back to the mouse-down point restores the mouse-down offset. |
| `ImgView.DragsCompose` | src/ImgView.jsx:42-54 | A drag from a to b followed by a drag from b to c moves the image as one drag from a to c. |
| `ImgView.DragAndReturn` | src/ImgView.jsx:42-55 | After mouse-down, any number of intermediate moves and a move back to the start, the offset is the mouse-down offset. Index and scale are unchanged. The invariant `Valid()` is kept. |
| `ImgView.Centered` | src/ImgView.jsx:74-75 | The recentred offset leaves equal margins: `2*x + iw*scale = cw` and `2*y + ih*scale = ch`. |
| `ImgView.CenteredIffEqualMargins` | src/ImgView.jsx:74-77 | The drawn image has equal left/right and top/bottom margins iff the offset is the centred one. |
| `ImgView.ImageViewer.Recenter` | src/ImgView.jsx:65-79 | The offset becomes the centred offset for the container size, the natural size and the current scale. Nothing else changes. The invariant `Valid()` is kept. |
| `ImgView.ImageViewer.AfterRender` | src/ImgView.jsx:65-79 | The effect overwrites the offset with the centred one iff the index or the scale differs from the previous render. Otherwise the offset (reset or panned) stays. The invariant `Valid()` is kept. |
| `ImgView.ImageRect` | src/ImgView.jsx:96-98 | The image's screen rectangle has its corners at the transform of (0,0) and (iw,ih) under top-left-origin translate-then-scale. |
| `ImgView.OverlayRect` | src/ImgView.jsx:108-113 | An overlay's top-left and bottom-right corners are the box's corners under the image's own transform. |
| `ImgView.Overlays` | src/ImgView.jsx:103-113 | Exactly one overlay per box, in the boxes' order, each being `OverlayRect` of its box. |
| `ImgView.ImageViewer.CurrentOverlays` | src/ImgView.jsx:103-113 | The overlays drawn for the displayed image: one per box of that image, in order, under the current scale and offset. |
| `ImgView.FullImageBoxCoversImage` | src/ImgView.jsx:96-113 | The box (0,0,iw,ih) lands exactly on the scaled image's rectangle at every zoom and pan. |
| `ImgView.BoxInsideImageStaysInside` | src/ImgView.jsx:96-113 | At a positive scale, a box inside the image's bounds is drawn inside the image's screen rectangle. |
| `App.LastSlash` | src/App.jsx:12 | The index found lies before the end position. |
| `App.LastSlashSpec` | src/App.jsx:12 | `LastSlash` returns the last '/' before the end, with no '/' after it, or None exactly when there is no '/' before the end. |
| `App.ImageNameIsLastSegment` | src/App.jsx:12 | The name is the longest suffix of the path with no '/'. It is a suffix, contains no '/', and is either the whole path or preceded by '/'. |
| `App.ImageNameAfterSlash` | src/App.jsx:12 | The name taken from `dir + "/" + file` is `file` when `file` has no '/'. |
| `App.IndexOfFrom` | src/App.jsx:13 | A found occurrence fits inside the string. |
| `App.IndexOfFromSpec` | src/App.jsx:13 | `IndexOfFrom` returns the first occurrence of the pattern at or after `from`, or None exactly when there is none. |
| `App.ReplaceFirstWithout` | src/App.jsx:13 | With no occurrence of the pattern, `replace` leaves the string unchanged. |
| `App.ReplaceFirstAt` | src/App.jsx:13 | When the first occurrence is at i, only that occurrence is replaced, and the rest of the string is kept around it. |
| `App.JsonPathShape` | src/App.jsx:13 | The path starts with `../data/jsons/`. A name without `.jpg` is kept verbatim after that prefix. |
| `App.JsonPathOfJpg` | src/App.jsx:13 | `stem.jpg` (with `.jpg` nowhere in the stem) is paired with `../data/jsons/stem.json`. |
| `App.PairedJsonPath` | src/App.jsx:12-13 | The module `../data/images/stem.jpg` has the name `stem.jpg` and is paired with `../data/jsons/stem.json`. |
| `App.LookupJson` | src/App.jsx:14-18 | An annotation document is found iff its path is a key of the annotation table, and it is then that key's document. Otherwise there is none. |
| `App.OrZero` | src/App.jsx:20-21 | JavaScript's falsy-to-0 default: a present non-zero size is kept, and a missing or zero one gives 0. |
| `App.ToBBoxes` | src/App.jsx:23-30 | Gives one record per prediction, in order, each copying confidence, label, x, y, width and height. It fails iff some prediction has no `bbox`. |
| `App.BuildRecord` | src/App.jsx:14-38 | `alt` is `"Image " + name` and `src` is the module's URL. Without an annotation document, the boxes are empty and width and height are 0. With one, the record fails iff `input.data`, `output.predictions` or some prediction's `bbox` is missing, and the error names the annotation path. Otherwise width and height default to 0 and the boxes are copied in order. |
| `App.LoadData` | src/App.jsx:4-45 | Succeeds iff every module's entry (`NormalizeEntry`: name, annotation path, lookup, `BuildRecord`) succeeds. It then has exactly one record per image module, each that module's record, in iteration order. Otherwise it returns the error of the first failing module. |
| `App.FetchData` | src/App.jsx:51-62 | A successful load sets the list and keeps the error. A failed one sets the fixed message and keeps the list. |
| `App.Render` | src/App.jsx:64-87 | The error screen is shown iff there is a non-empty message. The viewer is shown iff there is no message and the list is non-empty, and it then receives that list. |
| `App.ScreenAfterLoad` | src/App.jsx:47-87 | The first render says "No images found". After loading, the viewer is shown iff the load succeeded with at least one image, and the error screen iff it failed. |
| `App.MountViewer` | src/App.jsx:79-80 | A viewer is created iff the page renders it. It then holds the page's list, starts at index 0 and is valid, so `images[currentIndex]` is defined. |

## Left out

- Rendering is not modelled: the JSX markup, the CSS classes, the icons, and the `transition` and `userSelect` styles. Only the overlay geometry is kept.
- The tooltip and label text, `bbox.className (confidence*100).toFixed(1)%`, are not modelled because they are float-to-string formatting. The viewer reads `className`, but the loader writes `label`; the model does not reconcile the two.
- DOM reads become parameters. The container's `clientWidth`/`clientHeight` and the image's `naturalWidth`/`naturalHeight` are parameters of `Recenter` and `AfterRender`. The pointer's `clientX`/`clientY` is a `Point` parameter. `preventDefault` is not modelled.
- The first painted frame is not modelled. React runs the effect after the first paint, so that frame shows the initial offset (0,0), and the `transform 0.2s` transition then animates to the centred offset.
- React scheduling is not modelled: state batching, the closure over a render's state and the `useEffect` timing. Handlers run one after another on the object's state. The effect runs when `AfterRender` is called. Its `if (imgElement)` guard is assumed true, because the image element is mounted whenever the viewer renders.
- Loader I/O is not modelled: `import.meta.glob`, the awaited dynamic imports, `console.error`, and a failing image import. The module tables are inputs whose modules are already resolved. A thrown error and its rethrow become `Failure`.
- The model assumes the image is laid out at its natural size, that is, the image fits its container. The `<img>` carries `max-w-full max-h-full` (`src/ImgView.jsx:95`), so an image larger than its container gets a smaller layout box, and the CSS transform scales that smaller box. The overlays (`src/ImgView.jsx:109-112`) and the centring (`src/ImgView.jsx:70-75`) still use natural pixels. For such images, `ImageRect`, `FullImageBoxCoversImage`, `BoxInsideImageStaysInside` and `CenteredIffEqualMargins` describe the natural-size geometry, not what the browser draws. Read from the code and not executed: this suggests the overlays of large images are misaligned with the image.
- Floating point is not modelled: scale, offset and coordinates are exact reals, so rounding of `* 1.2`, `/ 1.2` and `/ 2` is out of scope.
- Annotation values are typed. Every prediction carries a confidence, a label and numeric coordinates, so a missing field copied as `undefined` is not modelled. Width and height are absent or real numbers, so non-numeric values and `NaN` (both falsy cases of `|| 0`) are not modelled.
- `App.OrZero`: does not model `-0` or `NaN`, because sizes are exact reals.
