# Glasses overlay placement — a Dafny model

This project models the overlay placement engine of the Tag-Glasses web app.
A user uploads a photo, and the app places a "glasses" graphic over it. The
user can drag, nudge, resize and rotate the graphic, then export one
flattened image. The model covers four parts:

- **The placement heuristic** (`lib/face-detection.ts`, module `FaceDetection`).
  "Face detection" never looks at pixels. It proposes a pose from the photo's
  natural width and height only:
  - x is always 50 %;
  - y is 28 %, 32 % or 35 %, depending on the aspect ratio;
  - the scale comes from the shorter side, clamped to [0.7, 2.2] and then
    adjusted for small and large photos;
  - the rotation is always 0.

  The detection service is a class. `LoadModels` sets its loaded flags, and
  `DetectFaces` rejects until those flags are set.
- **The coordinate transform** (module `Geometry`). The pose keeps x and y as
  percentages of the photo container. Dragging turns pointer pixels back into
  percentages, clamped to [0, 100]. The arrow buttons move x or y by 2,
  stopping at 0 and 100. The zoom buttons add to the scale but never take it
  below 0.1. The rotate buttons add to the rotation. The export maps the
  percentages and the on-screen size rule, "min(40 % of displayed width,
  200 px) × scale", into the photo's natural pixels.
- **The canvas** (module `Canvas2D`). It records its size, the current
  transform (a list of translate and rotate operations), the `save()` stack
  and the `drawImage` calls. Setting the canvas size resets all of these.
- **The upload component** (`components/upload-section.tsx`, module `Upload`).
  It is a class with one field per React state hook and one method per event
  handler. `GenerateComposite` sizes the canvas and draws the photo. It then
  draws the glasses inside a save/restore pair, publishes the image and sets
  `isSaved`.

The main results:
- every handler keeps the pose inside the container with a scale of at least
  0.1;
- every handler changes only its own fields;
- drag move, nudge, zoom, rotate and the auto-detect button clear `isSaved`
  when they change the pose, and only `GenerateComposite` sets it;
- the auto-position after an upload changes the pose but leaves `isSaved` as
  it was. This cannot be seen in the app: `onComplete` switches the page to
  the share section, which unmounts the component, so a saved component never
  receives another upload (app/page.tsx:40-43);
- the heuristic's outputs are exact, with worked examples;
- the exported anchor and overlay width are the same fractions of the
  photo's natural size as the on-screen ones are of the container
  (`Compositor.CompositeMatchesScreen`);
- for an anchor strictly inside the container, a drag that comes back to
  its starting pointer leaves the overlay in place exactly when the
  container sits at the viewport origin.

All numbers are Dafny `real`s, not IEEE-754 doubles, so exact equalities such
as scale 1.98 and width 320 hold in the model. In the TypeScript code they
hold only up to rounding.

The handlers do not check that a photo is loaded, so drag, nudge, zoom and
rotate work in any state. The export does not check the photo's natural
size; see "Left out".

Two defects of the code; the model exhibits the first, the second is
described only:
- **Drags jump by the container's position.** At drag start the offset is
  the pointer (viewport coordinates) minus the anchor relative to the
  container (components/upload-section.tsx:120-122). Each move then also
  subtracts the container's `left` and `top` (line 135-136). So on the first
  move of every drag, the overlay jumps by the container's offset in the
  viewport. `Geometry.DragReturnsToStartOnlyAtOrigin` proves that a drag
  which returns to its starting pointer leaves an interior anchor in place
  only when the container sits at the viewport origin. The intended offset,
  `Geometry.DragOffsetIntended`, also takes the container's corner into
  account; with it, `Geometry.DragIntendedReturnsToStart` proves the drag
  returns to its start wherever the container sits. The handlers in
  `Upload.UploadSection` keep the code as written (see "## Findings").
- **The export does not match the preview for cropped photos.** On screen, x
  and y are percentages of the container (lines 399-400). The photo fills
  the container's width and is capped at 384 px high with `object-cover`
  (line 380), so a tall photo is shown as a vertically centred crop. The
  export puts y at y % of the whole photo (line 250). For example, a 300x600
  photo in a 446 px wide card is shown as a 446x384 crop. An anchor at 28 %
  of the container is then at about 40 % of the photo, but it is exported
  at 28 %. The model takes the container to be the whole photo (see
  "Left out").

## Model

| member | source | states |
|---|---|---|
| `FaceDetection.CalculateOptimalPosition` | lib/face-detection.ts:76-125 | For any positive size: x is exactly 50; y is the anchor the aspect ratio picks (28 below 0.8, 35 above 1.5, else 32); the scale lies in [0.8, 2.2]; rotation is 0 |
| `FaceDetection.AdjustedScale` | lib/face-detection.ts:101-110 | The clamped and size-adjusted scale always lies in [0.8, 2.2] |
| `FaceDetection.CalculateGlassesPosition` | lib/face-detection.ts:66-74 | Ignores its landmarks and returns the 800x600 proposal (50, 32, 600/350, 0) |
| `FaceDetection.AnchorBranchesExclusive` | lib/face-detection.ts:91-99 | The portrait and landscape adjustments never both fire |
| `FaceDetection.LargePhotoScale` | lib/face-detection.ts:102-110 | When both sides exceed 800 px the scale is exactly 2.2 × 0.9 = 1.98, so the 0.6 floor never takes effect |
| `FaceDetection.MediumPhotoScale` | lib/face-detection.ts:102-110 | With the shorter side in [400, 770] the scale is the shorter side over 350, with no clamping or adjustment |
| `FaceDetection.ScaleDropsAtSmallThreshold` | lib/face-detection.ts:102-110 | The scale is not monotone: a 399 px square gets a larger scale than a 400 px square |
| `FaceDetection.SquarePhotoExample` | lib/face-detection.ts:85-124 | (1000, 1000) gives (50, 32, 1.98, 0) |
| `FaceDetection.PortraitPhotoExample` | lib/face-detection.ts:85-124 | (300, 600) gives (50, 28, (300/350)·1.1, 0) |
| `FaceDetection.FaceDetectionService.constructor` | lib/face-detection.ts:23-25 | A new service has both loaded flags false |
| `FaceDetection.FaceDetectionService.LoadModels` | lib/face-detection.ts:27-41 | Afterwards both flags are true; if the models were already loaded, nothing changes |
| `FaceDetection.FaceDetectionService.DetectFaces` | lib/face-detection.ts:43-64 | Fails with the not-loaded message exactly when the models are not loaded; otherwise returns one result with empty landmarks and the heuristic's pose for the photo's natural size |
| `Geometry.DragOffset` | components/upload-section.tsx:118-122 | The recorded offset plus the anchor's container-relative pixel position is the pointer position |
| `Geometry.DragTarget` | components/upload-section.tsx:134-142 | The anchor set by a drag move always lies in [0, 100] × [0, 100] |
| `Geometry.DragFollowsPointer` | components/upload-section.tsx:118-142 | Moving the pointer by (dx, dy) after a drag start puts the anchor at the old one plus the move, shifted by the container's left/top, in percent of the container, then clamped |
| `Geometry.DragReturnsToStart` | components/upload-section.tsx:118-142 | With the container at the viewport origin, returning to the starting pointer leaves an in-bounds anchor unchanged |
| `Geometry.DragReturnsToStartOnlyAtOrigin` | components/upload-section.tsx:118-142 | For an anchor strictly inside the container, returning to the starting pointer leaves it unchanged if and only if rect.left = rect.top = 0 |
| `Geometry.DragExample` | components/upload-section.tsx:118-142 | Anchor (50, 50) px, pointer (100, 100) then (120, 100), container 200×200: offset (50, 50), then x = 35 |
| `Geometry.DragJumpExample` | components/upload-section.tsx:118-142 | A 400×300 container at (300, 100), anchor (50, 50) %: a press on the anchor at (500, 250) records the offset (300, 100), and on the first move event, to (501, 250), the anchor jumps to (0, 50/3) % |
| `Geometry.DragOffsetIntended` | components/upload-section.tsx:118-142 | The offset the move handler expects: offset + container corner + container-relative anchor is the pointer |
| `Geometry.DragIntendedFollowsPointer` | components/upload-section.tsx:118-142 | With the intended offset, moving the pointer by (dx, dy) moves the anchor by dx and dy in percent of the container, clamped, wherever the container sits |
| `Geometry.DragIntendedReturnsToStart` | components/upload-section.tsx:118-142 | With the intended offset, a drag that returns to its starting pointer leaves every anchor inside the container in place, for every measured container |
| `Geometry.Nudge` | components/upload-section.tsx:169-186 | Moves exactly the named coordinate by 2 in the named direction, stopping at 0 or 100; the other coordinate, the scale and the rotation are unchanged; in-bounds poses stay in bounds |
| `Geometry.NudgeRoundTrip` | components/upload-section.tsx:169-186 | Away from the edges, a nudge followed by the opposite nudge restores the pose |
| `Geometry.NudgeAtEdge` | components/upload-section.tsx:169-186 | Nudging outward at an edge changes nothing |
| `Geometry.NudgeTimes` | components/upload-section.tsx:169-186 | Any number of clicks of one arrow button keeps an in-bounds pose in bounds and leaves the other coordinate, the scale and the rotation unchanged |
| `Geometry.NudgeTimesSaturates` | components/upload-section.tsx:169-186 | From an anchor inside the container, n clicks give the start coordinate plus or minus 2n, clamped to [0, 100] |
| `Geometry.NudgeTimesRoundTrip` | components/upload-section.tsx:169-186 | When both coordinates are at least 2n from the edges, n clicks followed by n clicks of the opposite button restore the pose |
| `Geometry.ScaleBy` | components/upload-section.tsx:153-159 | The new scale is scale + delta, but never below 0.1; x, y and rotation are unchanged |
| `Geometry.RotateBy` | components/upload-section.tsx:161-167 | The rotation grows by exactly delta; x, y and scale are unchanged |
| `Geometry.ScaleRoundTrip` | components/upload-section.tsx:153-159 | Zooming in by a step and then out by the same step restores the pose |
| `Geometry.RotateRoundTrip` | components/upload-section.tsx:161-167 | Rotating by delta and then by −delta restores the pose |
| `Geometry.ScaleExample` | components/upload-section.tsx:153-159 | Scale 1.0 with delta −5 gives 0.1, not a negative value |
| `Geometry.AnchorOnScreen` | components/upload-section.tsx:120-121 | The anchor in container pixels (also the CSS `left`/`top` percentages of lines 399-400); read back as percentages of a measured container it gives the pose's x and y |
| `Geometry.OnScreenGlassesWidth` | components/upload-section.tsx:398-403 | The rendered overlay width (CSS `width: 40%`, `maxWidth: 200px`, then `scale()`) is at most 200 × scale and at most 40 % of the container width × scale, and equals one of the two: it is min(0.4 × container width, 200) × scale |
| `Geometry.ExportAnchor` | components/upload-section.tsx:249-250 | The anchor in natural pixels; read back as percentages of the natural size it gives the pose's x and y |
| `Geometry.ExportGlassesWidth` | components/upload-section.tsx:255-258 | The export width is non-negative, and for an unlaid-out photo (`clientWidth` 0) it is the sizing rule at natural width times scale. `ExportWidthMatchesScreen` and `ExportWidthExample` prove its relation to the screen and the 320 px case |
| `Geometry.ExportGlassesHeight` | components/upload-section.tsx:259 | The height over the width is the graphic's natural height over width, and a positive width gives a positive height |
| `Geometry.BaseDisplayedWidth` | components/upload-section.tsx:252-257 | The base overlay width is 40 % of the displayed width capped at 200 px, and it is one of those two values |
| `Geometry.DisplayedWidth` | components/upload-section.tsx:255 | Uses `clientWidth` when it is non-zero, otherwise the natural width; the result is always positive |
| `Geometry.ExportAnchorMatchesScreen` | components/upload-section.tsx:249-250 | The exported anchor over the natural size equals the on-screen anchor over the container size, and both equal the percentage over 100 (the container, not the photo, on screen) |
| `Geometry.ExportWidthMatchesScreen` | components/upload-section.tsx:252-258 | The exported overlay width over the natural width equals the on-screen overlay width over the displayed width |
| `Geometry.ExportWidthExample` | components/upload-section.tsx:252-258 | Natural 800x600, displayed 400 px wide, scale 1: overlay width 320 |
| `Canvas2D.Canvas.constructor` | components/upload-section.tsx:598 | A new canvas is 300x150 with an identity transform, an empty save stack and nothing drawn |
| `Canvas2D.Canvas.SetWidth` | components/upload-section.tsx:244 | Setting the width clears the drawing, the transform and the save stack |
| `Canvas2D.Canvas.SetHeight` | components/upload-section.tsx:245 | Setting the height clears the drawing, the transform and the save stack |
| `Canvas2D.Canvas.Save` | components/upload-section.tsx:261 | Pushes the current transform |
| `Canvas2D.Canvas.Translate` | components/upload-section.tsx:262 | Appends a translation to the current transform |
| `Canvas2D.Canvas.Rotate` | components/upload-section.tsx:263 | Appends a rotation to the current transform |
| `Canvas2D.Canvas.DrawImage` | components/upload-section.tsx:247-264 | Records the draw call with the transform in force |
| `Canvas2D.Canvas.Restore` | components/upload-section.tsx:265 | Pops the last saved transform, or does nothing when nothing is saved |
| `Canvas2D.Canvas.ToDataUrl` | components/upload-section.tsx:267 | The encoded image is the canvas size plus everything drawn on it |
| `Compositor.GlassesDraw` | components/upload-section.tsx:249-264 | The overlay is drawn under translate-to-anchor then rotate, centred on the anchor (offset by minus half its width and height) |
| `Compositor.Composite` | components/upload-section.tsx:244-267 | The output has the photo's natural size; it draws the photo untransformed at the origin, then the overlay |
| `Compositor.CompositeMatchesScreen` | components/upload-section.tsx:244-264 | For a container as wide as the displayed photo: in the output, the overlay's anchor and width are the same fractions of the image as the on-screen ones are of the container, and the graphic's aspect ratio is kept |
| `Compositor.CompositeExample` | components/upload-section.tsx:244-264 | 800x600 photo shown 400 wide, pose (50, 30, 1, 0), 400x100 graphic: anchor (400, 180), overlay 320x80 drawn from (−160, −40) |
| `Upload.ApplyDetection` | components/upload-section.tsx:74-95 | A first result with a pose replaces the whole pose and reports success. An empty list reports the no-faces error; a failure reports its message; both keep the pose. A first result without a pose changes nothing |
| `Upload.DetectionOutcome` | components/upload-section.tsx:68-100 | With the real service: loaded models give the heuristic's pose and success; otherwise the not-loaded error and the old pose; the pose invariant holds either way |
| `Upload.UploadSection.constructor` | components/upload-section.tsx:28-39 | Initial state: no photo, pose (50, 35, 1.2, 0), idle, not saved, auto-position on |
| `Upload.UploadSection.SetAutoPositionEnabled` | components/upload-section.tsx:542 | Only the auto-position flag changes |
| `Upload.UploadSection.OnGlassesLoaded` | components/upload-section.tsx:412-415 | Only the glasses-loaded flag changes |
| `Upload.UploadSection.OnFileRead` | components/upload-section.tsx:55-61 | The photo is set, the overlay hidden, processing on, status idle, error cleared; nothing else changes |
| `Upload.UploadSection.OnImageDecoded` | components/upload-section.tsx:66-104 | With auto-position on and models loaded, the pose becomes the heuristic's (success) or the status becomes the error; otherwise pose and status stay. Always ends with processing off and the overlay shown; `isSaved` untouched; pose invariant kept |
| `Upload.UploadSection.DetectFaceManually` | components/upload-section.tsx:188-220 | Without a photo or loaded models, nothing changes. Otherwise a new pose sets success, clears the error and clears `isSaved`; a failure sets the error and keeps the pose and `isSaved` |
| `Upload.UploadSection.HandleDragStart` | components/upload-section.tsx:111-124 | Starts dragging and, with a measured container, records the pointer's offset from the anchor; nothing else changes |
| `Upload.UploadSection.HandleDragMove` | components/upload-section.tsx:126-144 | A no-op unless dragging over a mounted container. Otherwise sets x and y to the clamped drag target and clears `isSaved`; scale and rotation unchanged; pose invariant kept |
| `Upload.UploadSection.HandleDragEnd` | components/upload-section.tsx:146-151 | Only clears the dragging flag (so a repeat call changes nothing) |
| `Upload.UploadSection.AdjustScale` | components/upload-section.tsx:153-159 | The pose takes the clamped scale step and `isSaved` is cleared; nothing else changes |
| `Upload.UploadSection.AdjustRotation` | components/upload-section.tsx:161-167 | The pose takes the rotation step and `isSaved` is cleared; nothing else changes |
| `Upload.UploadSection.MoveGlasses` | components/upload-section.tsx:169-186 | The pose takes the nudge and `isSaved` is cleared; nothing else changes |
| `Upload.UploadSection.GenerateComposite` | components/upload-section.tsx:222-271 | Returns early without changes when an element is unmounted, the glasses have not loaded, or there is no 2D context. Otherwise: canvas sized to the photo, drawn as `Composite` specifies, no leftover transform or saved state, image published, `isSaved` set |

## Findings

| source | as written | input that shows it | evidently intended | confidence | as-written member | corrected member |
|---|---|---|---|---|---|---|
| components/upload-section.tsx:120-122 | The drag offset is the viewport pointer minus the container-relative anchor, and the move handler subtracts the container's `left`/`top` again (lines 135-136) | A 400×300 container at (300, 100), anchor (50, 50) %, press on the anchor at (500, 250): on the first move event, to (501, 250), the anchor goes to (0, 50/3) % | The offset subtracts the anchor in viewport pixels (container corner plus anchor), so a drag that returns to its start leaves the anchor in place | not executed | `Geometry.DragReturnsToStartOnlyAtOrigin` (and `Geometry.DragJumpExample`) | `Geometry.DragIntendedReturnsToStart` |

## Left out

- JSX markup, styling and animation: in `upload-section.tsx` and in every other component, the layout and the page routing.
- File reading and image decoding (`FileReader`, `Image.onload`), the data-URL strings, and the Promise/`await` plumbing. Each upload is split into two steps, `OnFileRead` and `OnImageDecoded`, and detection is a synchronous call.
- Stale closures. `handleFileSelect` captures `autoPositionEnabled` and the hook's loaded flag when the file is chosen. The model reads them when decoding finishes.
- `hooks/use-face-detection.ts`. The component reads the service's public `isLoaded` flag, which the hook mirrors. The hook's own loading and error state, and its repeat of the loaded check, are not modelled.
- The `catch` in `detectFaces` that rethrows "Failed to detect faces". The heuristic cannot throw, so that path is unreachable.
- The `default` branch of `moveGlasses`. `Direction` has exactly four values, so it cannot occur.
- The `containerSize` state and the resize listener. They measure the DOM, and nothing in the component reads the result.
- Pixel work. The model does not produce pixels: `drawImage` is recorded, rotation is an opaque angle (no trigonometry), and PNG encoding is left out.
- The photo's `max-h-96 object-cover` crop (components/upload-section.tsx:380). The model treats the container as showing the whole photo. For a photo cropped to fit, the export does not match the preview vertically; this is a defect of the code, described above.
- Canvas sizes are `real`s. The source's sizes are integers, so truncation does not arise.
- IEEE-754 rounding, NaN and infinities. All arithmetic is exact real arithmetic.
- FaceDetection.CalculateOptimalPosition: requires a positive width and height. A zero size would give NaN in the source.
- FaceDetection.FaceDetectionService.DetectFaces: requires a positive natural width and height once the models are loaded, because it passes them to `CalculateOptimalPosition`. A zero size would give NaN in the source.
- Upload.UploadSection.OnImageDecoded: requires the decoded photo to have a positive natural size. An image whose `onload` fired has one; a zero size would give NaN in the heuristic.
- Upload.UploadSection.DetectFaceManually: requires a positive natural size for the displayed photo when one is mounted.
- Upload.UploadSection.HandleDragMove: requires a container of positive size while dragging. A zero-size container would divide by zero in the source.
- Upload.UploadSection.GenerateComposite: requires a decoded photo and glasses graphic on the path that draws. The source does not check, and with zero sizes it would draw NaN or empty geometry.
- Logging (`console.log` / `console.error`).
- Sound (`lib/sound-manager.ts`, `hooks/use-sound.ts`, `components/sound-controls.tsx`), the loading screen and the share section. These are wrappers over browser and audio APIs and are not part of the placement engine.
