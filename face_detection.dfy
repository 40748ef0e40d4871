/** The placement heuristic and the detection service of `lib/face-detection.ts`.
    "Detection" never looks at pixels: the proposed pose is a function of the
    photo's natural width and height only. */
module FaceDetection {
  import opened Wrappers
  import opened MathOps

  /** The overlay pose: anchor `x`, `y` as percentages of the container,
      a scale multiplier and a rotation in radians. */
  datatype Pose = Pose(x: real, y: real, scale: real, rotation: real)

  /** One detection result: landmarks (always empty here) and an optional pose. */
  datatype DetectionResult = DetectionResult(faceLandmarks: seq<seq<real>>, glassesPosition: Option<Pose>)

  const NotLoadedMessage: string := "Model not loaded. Call loadModels() first."

  /** Aspect-ratio thresholds below / above which the vertical anchor moves. */
  const PortraitAspect: real := 0.8
  const LandscapeAspect: real := 1.5

  /** Shorter-side thresholds for the small / large scale adjustment. */
  const SmallSide: real := 400.0
  const LargeSide: real := 800.0

  /** The vertical anchor, in percent, that the heuristic picks for an aspect ratio. */
  function VerticalAnchor(aspect: real): real
  {
    if aspect > LandscapeAspect then 35.0
    else if aspect < PortraitAspect then 28.0
    else 32.0
  }

  /** The scale before the size adjustment: the shorter side over 350, clamped to [0.7, 2.2]. */
  function BaseScale(side: real): real
  {
    Clamp(0.7, 2.2, side / 350.0)
  }

  /** The proposed scale for a photo whose shorter side is `side`: the base
      scale, raised for small photos and lowered for large ones. */
  function AdjustedScale(side: real): (scale: real)
    requires side > 0.0
    ensures 0.8 <= scale <= 2.2
  {
    var scale0 := BaseScale(side);
    if side < SmallSide then
      assert scale0 <= 400.0 / 350.0;
      Max(0.8, scale0 * 1.1)
    else if side > LargeSide then
      assert scale0 == 2.2;
      Max(0.6, scale0 * 0.9)
    else
      assert scale0 >= 400.0 / 350.0;
      scale0
  }

  /** `calculateOptimalPosition`: the proposed pose for a photo of the given
      natural size. The anchor is computed in pixels and converted back to
      percentages, as the source does. */
  function CalculateOptimalPosition(imageWidth: real, imageHeight: real): (p: Pose)
    requires imageWidth > 0.0 && imageHeight > 0.0
    ensures p.x == 50.0
    ensures p.y == VerticalAnchor(imageWidth / imageHeight)
    ensures p.y == 28.0 || p.y == 32.0 || p.y == 35.0
    ensures 0.8 <= p.scale <= 2.2
    ensures p.rotation == 0.0
  {
    var aspectRatio := imageWidth / imageHeight;
    var centerX := imageWidth / 2.0;
    var portraitY := if aspectRatio < PortraitAspect then 0.28 else 0.32;
    var fractionY := if aspectRatio > LandscapeAspect then 0.35 else portraitY;
    var centerY := imageHeight * fractionY;
    var scale := AdjustedScale(Min(imageWidth, imageHeight));
    PercentOfPercent(imageWidth, 50.0);
    assert 50.0 / 100.0 * imageWidth == centerX;
    PercentOfPercent(imageHeight, fractionY * 100.0);
    assert fractionY * 100.0 / 100.0 * imageHeight == centerY;
    Pose(Percent(centerX, imageWidth), Percent(centerY, imageHeight), scale, 0.0)
  }

  /** `calculateGlassesPosition`: kept for compatibility, it ignores the
      landmarks and proposes the pose for an 800x600 photo. */
  function CalculateGlassesPosition(landmarks: seq<seq<real>>): (p: Pose)
    ensures p == Pose(50.0, 32.0, 600.0 / 350.0, 0.0)
  {
    CalculateOptimalPosition(800.0, 600.0)
  }

  /** The portrait and landscape adjustments never both apply. */
  lemma AnchorBranchesExclusive(imageWidth: real, imageHeight: real)
    requires imageWidth > 0.0 && imageHeight > 0.0
    ensures !(imageWidth / imageHeight < PortraitAspect && imageWidth / imageHeight > LandscapeAspect)
  {
  }

  /** Photos whose shorter side exceeds 800 px always get scale 2.2 * 0.9: the
      0.6 floor of the large-photo branch never takes effect. */
  lemma LargePhotoScale(imageWidth: real, imageHeight: real)
    requires imageWidth > 800.0 && imageHeight > 800.0
    ensures CalculateOptimalPosition(imageWidth, imageHeight).scale == 1.98
  {
    var side := Min(imageWidth, imageHeight);
    assert side / 350.0 > 2.2;
  }

  /** Photos whose shorter side is between 400 and 800 px keep the base scale,
      which is then the shorter side over 350. */
  lemma MediumPhotoScale(imageWidth: real, imageHeight: real)
    requires imageWidth > 0.0 && imageHeight > 0.0
    requires 400.0 <= Min(imageWidth, imageHeight) <= 770.0
    ensures CalculateOptimalPosition(imageWidth, imageHeight).scale == Min(imageWidth, imageHeight) / 350.0
  {
  }

  /** The scale is not monotone in the photo size: it drops at the 400 px
      threshold, so a 399 px square gets a larger overlay than a 400 px one. */
  lemma ScaleDropsAtSmallThreshold()
    ensures CalculateOptimalPosition(399.0, 399.0).scale > CalculateOptimalPosition(400.0, 400.0).scale
  {
    assert CalculateOptimalPosition(399.0, 399.0).scale == 399.0 / 350.0 * 1.1;
    assert CalculateOptimalPosition(400.0, 400.0).scale == 400.0 / 350.0;
  }

  /** A 1000x1000 photo: centred, anchor at 32 %, scale 1.98, no rotation. */
  lemma SquarePhotoExample()
    ensures CalculateOptimalPosition(1000.0, 1000.0) == Pose(50.0, 32.0, 1.98, 0.0)
  {
    LargePhotoScale(1000.0, 1000.0);
  }

  /** A 300x600 portrait photo: anchor at 28 %, scale (300 / 350) * 1.1. */
  lemma PortraitPhotoExample()
    ensures CalculateOptimalPosition(300.0, 600.0) == Pose(50.0, 28.0, 300.0 / 350.0 * 1.1, 0.0)
  {
    assert BaseScale(300.0) == 300.0 / 350.0;
  }

  /** The detection service. `isLoaded` is public (and writable by anyone);
      `modelsLoaded` is private and is the flag `detectFaces` checks. */
  class FaceDetectionService {
    var isLoaded: bool
    var modelsLoaded: bool

    /** What the service's own methods maintain: the private flag is only
        ever set together with the public one. */
    ghost predicate Valid()
      reads this
    {
      modelsLoaded ==> isLoaded
    }

    constructor ()
      ensures Valid()
      ensures !isLoaded && !modelsLoaded
    {
      isLoaded := false;
      modelsLoaded := false;
    }

    /** `loadModels`: a second call returns at once and changes nothing. */
    method LoadModels()
      requires Valid()
      modifies this
      ensures Valid()
      ensures modelsLoaded && isLoaded
      ensures old(modelsLoaded) ==> isLoaded == old(isLoaded) && modelsLoaded == old(modelsLoaded)
    {
      if modelsLoaded {
        return;
      }
      modelsLoaded := true;
      isLoaded := true;
    }

    /** `detectFaces` for a photo of the given natural size: rejects until the
        models are loaded, then returns exactly one result with no landmarks and
        the heuristic's pose. */
    method DetectFaces(naturalWidth: real, naturalHeight: real) returns (r: Result<seq<DetectionResult>>)
      requires modelsLoaded ==> naturalWidth > 0.0 && naturalHeight > 0.0
      ensures r.Failure? <==> !modelsLoaded
      ensures r.Failure? ==> r.message == NotLoadedMessage
      ensures r.Success? ==> |r.value| == 1 && r.value[0].faceLandmarks == []
      ensures r.Success? ==> r.value[0].glassesPosition == Some(CalculateOptimalPosition(naturalWidth, naturalHeight))
    {
      if !modelsLoaded {
        return Failure(NotLoadedMessage);
      }
      var glassesPosition := CalculateOptimalPosition(naturalWidth, naturalHeight);
      return Success([DetectionResult([], Some(glassesPosition))]);
    }
  }
}
