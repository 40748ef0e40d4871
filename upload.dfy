/** The upload component's state and event handlers
    (`components/upload-section.tsx`). Each `useState` hook is a field; each
    handler is a method. React's batching of setter calls and the
    asynchronous steps (file reading, image decoding, awaiting detection) are
    collapsed: a handler's setters all take effect when it returns. */
module Upload {
  import opened Wrappers
  import opened FaceDetection
  import opened Geometry
  import opened Canvas2D
  import opened Compositor

  datatype DetectionStatus = Idle | Detecting | Succeeded | Errored

  const NoFacesMessage: string := "No faces detected in the image"

  /** The initial pose before any photo is positioned. */
  const DefaultPose: Pose := Pose(50.0, 35.0, 1.2, 0.0)

  /** The part of the state a detection outcome decides. */
  datatype DetectionView = DetectionView(pose: Pose, status: DetectionStatus, error: Option<string>)

  /** Whether a detection outcome carries a pose to apply: a result list
      whose first entry has a position. */
  predicate Positioned(r: Result<seq<DetectionResult>>)
  {
    r.Success? && |r.value| > 0 && r.value[0].glassesPosition.Some?
  }

  /** How the upload and the auto-detect button settle a detection outcome:
      the first result's pose replaces the whole pose and reports success; an
      empty list or a failure reports an error and keeps the pose; a first
      result without a pose changes nothing. */
  function ApplyDetection(r: Result<seq<DetectionResult>>, prior: DetectionView): (v: DetectionView)
    ensures Positioned(r) ==> v == DetectionView(r.value[0].glassesPosition.value, Succeeded, prior.error)
    ensures !Positioned(r) ==> v.pose == prior.pose
    ensures r.Success? && |r.value| > 0 && r.value[0].glassesPosition.None? ==> v == prior
    ensures r.Success? && |r.value| == 0 ==> v.status == Errored && v.error == Some(NoFacesMessage)
    ensures r.Failure? ==> v.status == Errored && v.error == Some(r.message)
  {
    match r
    case Success(faceResults) =>
      if |faceResults| > 0 then
        match faceResults[0].glassesPosition
        case Some(position) => DetectionView(position, Succeeded, prior.error)
        case None => prior
      else
        prior.(status := Errored, error := Some(NoFacesMessage))
    case Failure(message) =>
      prior.(status := Errored, error := Some(message))
  }

  /** With the real service, detection either positions the overlay at the
      heuristic's pose (models loaded) or reports the not-loaded error. In
      both cases the pose invariant is kept. */
  lemma DetectionOutcome(loaded: bool, r: Result<seq<DetectionResult>>, w: real, h: real, prior: DetectionView)
    requires w > 0.0 && h > 0.0 && InBounds(prior.pose)
    requires r.Failure? <==> !loaded
    requires r.Failure? ==> r.message == NotLoadedMessage
    requires r.Success? ==> |r.value| == 1 && r.value[0].glassesPosition == Some(CalculateOptimalPosition(w, h))
    ensures loaded ==> ApplyDetection(r, prior) == DetectionView(CalculateOptimalPosition(w, h), Succeeded, prior.error)
    ensures !loaded ==> ApplyDetection(r, prior) == prior.(status := Errored, error := Some(NotLoadedMessage))
    ensures InBounds(ApplyDetection(r, prior).pose)
  {
    if loaded {
      var p := CalculateOptimalPosition(w, h);
      assert InBounds(p);
    }
  }

  /** A snapshot of every state hook, to say what a handler leaves alone. */
  datatype ViewState = ViewState(
    hasImage: bool, isProcessing: bool, pose: Pose, showGlasses: bool,
    isDragging: bool, dragStart: Point, isSaved: bool, glassesLoaded: bool,
    status: DetectionStatus, statusError: Option<string>, autoPositionEnabled: bool,
    published: Option<Raster>)

  class UploadSection {
    /** The detection service behind `useFaceDetection`. */
    const detector: FaceDetectionService
    /** The hidden export canvas (always rendered, so its ref is always set). */
    const canvas: Canvas

    /** `image != null`: a photo has been read. */
    var hasImage: bool
    var isProcessing: bool
    /** `glassesPosition`. */
    var pose: Pose
    var showGlasses: bool
    var isDragging: bool
    var dragStart: Point
    var isSaved: bool
    var glassesLoaded: bool
    /** `faceDetectionStatus` and `faceDetectionError`. */
    var status: DetectionStatus
    var statusError: Option<string>
    var autoPositionEnabled: bool
    /** The last image handed to `onComplete`, held by the page. */
    var published: Option<Raster>

    ghost function State(): ViewState
      reads this
    {
      ViewState(hasImage, isProcessing, pose, showGlasses, isDragging, dragStart, isSaved,
                glassesLoaded, status, statusError, autoPositionEnabled, published)
    }

    /** The component invariant: the pose stays inside the container with a
        positive scale. */
    ghost predicate Valid()
      reads this
    {
      InBounds(pose)
    }

    /** Whether `generateComposite` gets past its early returns: the photo
        and glasses elements are mounted (so their refs are set), the glasses
        graphic has loaded, and the canvas has a 2D context. */
    predicate CanComposite()
      reads this
    {
      hasImage && showGlasses && glassesLoaded && canvas.supports2d
    }

    constructor (detector: FaceDetectionService, canvas: Canvas)
      ensures Valid()
      ensures this.detector == detector && this.canvas == canvas
      ensures State() == ViewState(false, false, DefaultPose, false, false, Point(0.0, 0.0), false,
                                   false, Idle, None, true, None)
    {
      this.detector := detector;
      this.canvas := canvas;
      hasImage, isProcessing, pose, showGlasses := false, false, DefaultPose, false;
      isDragging, dragStart, isSaved, glassesLoaded := false, Point(0.0, 0.0), false, false;
      status, statusError, autoPositionEnabled, published := Idle, None, true, None;
    }

    /** The auto-position checkbox. */
    method SetAutoPositionEnabled(enabled: bool)
      modifies this
      ensures State() == old(State()).(autoPositionEnabled := enabled)
    {
      autoPositionEnabled := enabled;
    }

    /** The glasses graphic's `onLoad`. */
    method OnGlassesLoaded()
      modifies this
      ensures State() == old(State()).(glassesLoaded := true)
    {
      glassesLoaded := true;
    }

    /** `handleFileSelect`, once the file has been read: shows the photo
        without the overlay while it is processed. */
    method OnFileRead()
      modifies this
      ensures State() == old(State()).(hasImage := true, showGlasses := false, isProcessing := true,
                                       status := Idle, statusError := None)
    {
      hasImage := true;
      showGlasses := false;
      isProcessing := true;
      status := Idle;
      statusError := None;
    }

    /** `handleFileSelect`, once the photo has decoded: with auto-position on
        and the models loaded, detection repositions the overlay; in every
        case processing ends and the overlay is shown. */
    method OnImageDecoded(naturalWidth: real, naturalHeight: real)
      requires Valid()
      requires naturalWidth > 0.0 && naturalHeight > 0.0
      modifies this
      ensures Valid()
      ensures !isProcessing && showGlasses
      ensures var detects := old(autoPositionEnabled && detector.isLoaded);
              var view := DetectionView(pose, status, statusError);
              && (detects && detector.modelsLoaded ==>
                    view == DetectionView(CalculateOptimalPosition(naturalWidth, naturalHeight), Succeeded, old(statusError)))
              && (detects && !detector.modelsLoaded ==>
                    view == DetectionView(old(pose), Errored, Some(NotLoadedMessage)))
              && (!detects ==> view == old(DetectionView(pose, status, statusError)))
      ensures State() == old(State()).(pose := pose, status := status, statusError := statusError,
                                       isProcessing := false, showGlasses := true)
    {
      if autoPositionEnabled && detector.isLoaded {
        status := Detecting;
        var faceResults := detector.DetectFaces(naturalWidth, naturalHeight);
        var prior := DetectionView(pose, status, statusError);
        DetectionOutcome(detector.modelsLoaded, faceResults, naturalWidth, naturalHeight, prior);
        var settled := ApplyDetection(faceResults, prior);
        pose, status, statusError := settled.pose, settled.status, settled.error;
      }
      isProcessing := false;
      showGlasses := true;
    }

    /** `detectFaceManually`: does nothing without a photo or loaded models;
        otherwise runs detection on the displayed photo, and a new pose marks
        the saved composite stale. */
    method DetectFaceManually(naturalWidth: real, naturalHeight: real)
      requires Valid()
      requires hasImage ==> naturalWidth > 0.0 && naturalHeight > 0.0
      modifies this
      ensures Valid()
      ensures !old(hasImage && detector.isLoaded) ==> State() == old(State())
      ensures old(hasImage && detector.isLoaded) && detector.modelsLoaded ==>
                State() == old(State()).(pose := CalculateOptimalPosition(naturalWidth, naturalHeight),
                                         status := Succeeded, statusError := None, isSaved := false)
      ensures old(hasImage && detector.isLoaded) && !detector.modelsLoaded ==>
                State() == old(State()).(status := Errored, statusError := Some(NotLoadedMessage))
    {
      if !hasImage || !detector.isLoaded {
        return;
      }
      status := Detecting;
      statusError := None;
      var faceResults := detector.DetectFaces(naturalWidth, naturalHeight);
      var prior := DetectionView(pose, status, statusError);
      DetectionOutcome(detector.modelsLoaded, faceResults, naturalWidth, naturalHeight, prior);
      var settled := ApplyDetection(faceResults, prior);
      pose, status, statusError := settled.pose, settled.status, settled.error;
      if Positioned(faceResults) {
        isSaved := false;
      }
    }

    /** `handleDragStart`: starts dragging and, when the container is
        measured, records the pointer's offset from the anchor. */
    method HandleDragStart(pointer: Point, container: Option<Rect>)
      modifies this
      ensures container.Some? ==>
                State() == old(State()).(isDragging := true, dragStart := DragOffset(pose, pointer, container.value))
      ensures container.None? ==> State() == old(State()).(isDragging := true)
    {
      isDragging := true;
      if container.Some? {
        dragStart := DragOffset(pose, pointer, container.value);
      }
    }

    /** `handleDragMove`: a no-op unless dragging over a mounted container;
        otherwise moves the anchor under the pointer, clamped into the
        container, and marks the saved composite stale. */
    method HandleDragMove(pointer: Point, container: Option<Rect>)
      requires Valid()
      requires isDragging && container.Some? ==> Measurable(container.value)
      modifies this
      ensures Valid()
      ensures !old(isDragging) || container.None? ==> State() == old(State())
      ensures old(isDragging) && container.Some? ==>
                var target := DragTarget(dragStart, pointer, container.value);
                State() == old(State()).(pose := old(pose).(x := target.x, y := target.y), isSaved := false)
    {
      if !isDragging || container.None? {
        return;
      }
      var target := DragTarget(dragStart, pointer, container.value);
      pose := pose.(x := target.x, y := target.y);
      isSaved := false;
    }

    /** `handleDragEnd`: only stops dragging. */
    method HandleDragEnd()
      modifies this
      ensures State() == old(State()).(isDragging := false)
    {
      isDragging := false;
    }

    /** `adjustScale`. */
    method AdjustScale(delta: real)
      requires Valid()
      modifies this
      ensures Valid()
      ensures State() == old(State()).(pose := ScaleBy(old(pose), delta), isSaved := false)
    {
      pose := ScaleBy(pose, delta);
      isSaved := false;
    }

    /** `adjustRotation`. */
    method AdjustRotation(delta: real)
      requires Valid()
      modifies this
      ensures Valid()
      ensures State() == old(State()).(pose := RotateBy(old(pose), delta), isSaved := false)
    {
      pose := RotateBy(pose, delta);
      isSaved := false;
    }

    /** `moveGlasses`. */
    method MoveGlasses(direction: Direction)
      requires Valid()
      modifies this
      ensures Valid()
      ensures State() == old(State()).(pose := Nudge(old(pose), direction), isSaved := false)
    {
      pose := Nudge(pose, direction);
      isSaved := false;
    }

    /** `generateComposite`: returns early, changing nothing, unless the
        elements are mounted, the glasses have loaded and the canvas has a 2D
        context. Otherwise it sizes the canvas to the photo, draws the photo,
        draws the glasses inside a save/restore pair, publishes the image and
        marks it saved; the canvas is left with no transform and nothing
        saved. */
    method GenerateComposite(photo: PhotoElement, glasses: GlassesElement)
      requires CanComposite() ==> DecodedPhoto(photo) && DecodedGlasses(glasses)
      modifies this, canvas
      ensures !old(CanComposite()) ==> State() == old(State()) && unchanged(canvas)
      ensures old(CanComposite()) ==>
                && State() == old(State()).(published := Some(Composite(pose, photo, glasses)), isSaved := true)
                && canvas.width == photo.naturalWidth && canvas.height == photo.naturalHeight
                && canvas.draws == Composite(pose, photo, glasses).draws
                && canvas.transform == [] && canvas.stack == []
    {
      if !hasImage || !showGlasses {
        return;
      }
      if !glassesLoaded {
        return;
      }
      if !canvas.supports2d {
        return;
      }
      canvas.SetWidth(photo.naturalWidth);
      canvas.SetHeight(photo.naturalHeight);
      canvas.DrawImage(PhotoSource, 0.0, 0.0, photo.naturalWidth, photo.naturalHeight);
      var anchor := ExportAnchor(pose, photo);
      var glassesWidth := ExportGlassesWidth(pose, photo);
      var glassesHeight := ExportGlassesHeight(glasses, glassesWidth);
      canvas.Save();
      canvas.Translate(anchor.x, anchor.y);
      canvas.Rotate(pose.rotation);
      assert canvas.transform == GlassesDraw(pose, photo, glasses).transform;
      canvas.DrawImage(GlassesSource, -glassesWidth / 2.0, -glassesHeight / 2.0, glassesWidth, glassesHeight);
      canvas.Restore();
      assert canvas.draws[1] == GlassesDraw(pose, photo, glasses);
      assert canvas.draws == Composite(pose, photo, glasses).draws;
      var compositeData := canvas.ToDataUrl();
      assert compositeData == Composite(pose, photo, glasses);
      published := Some(compositeData);
      isSaved := true;
    }
  }
}
