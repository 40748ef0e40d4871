/** The coordinate transform of `components/upload-section.tsx`: the pose is
    kept in percentages of the photo container; dragging maps pointer pixels
    back to percentages, the buttons step the pose, and the export maps the
    percentages and the on-screen sizing rule into natural pixels. */
module Geometry {
  import opened MathOps
  import opened FaceDetection

  datatype Point = Point(x: real, y: real)

  /** A measured bounding box (`getBoundingClientRect`), in viewport pixels. */
  datatype Rect = Rect(left: real, top: real, width: real, height: real)

  predicate Measurable(rect: Rect)
  {
    rect.width > 0.0 && rect.height > 0.0
  }

  /** Lower clamp of the scale and the step of the arrow buttons. */
  const MinScale: real := 0.1
  const NudgeStep: real := 2.0

  /** The pose invariant every handler keeps. */
  predicate InBounds(p: Pose)
  {
    0.0 <= p.x <= 100.0 && 0.0 <= p.y <= 100.0 && p.scale >= MinScale
  }

  /** The anchor in container pixels, relative to the container's corner
      (CSS `left: x%`, `top: y%`). Read back as percentages of a measured
      container, it gives the pose's percentages. */
  function AnchorOnScreen(p: Pose, rect: Rect): (a: Point)
    ensures Measurable(rect) ==> Percent(a.x, rect.width) == p.x && Percent(a.y, rect.height) == p.y
  {
    var a := Point(p.x / 100.0 * rect.width, p.y / 100.0 * rect.height);
    if Measurable(rect) then
      PercentOfPercent(rect.width, p.x);
      PercentOfPercent(rect.height, p.y);
      a
    else
      a
  }

  /** `handleDragStart`: the offset of the pointer from the anchor. The anchor
      is taken relative to the container while the pointer is not, so the
      offset also holds the container's position. */
  function DragOffset(p: Pose, pointer: Point, rect: Rect): (offset: Point)
    ensures offset.x + AnchorOnScreen(p, rect).x == pointer.x
    ensures offset.y + AnchorOnScreen(p, rect).y == pointer.y
  {
    var anchor := AnchorOnScreen(p, rect);
    Point(pointer.x - anchor.x, pointer.y - anchor.y)
  }

  /** `handleDragMove`: the new anchor percentages for a pointer position,
      clamped into the container. */
  function DragTarget(offset: Point, pointer: Point, rect: Rect): (q: Point)
    requires Measurable(rect)
    ensures 0.0 <= q.x <= 100.0 && 0.0 <= q.y <= 100.0
  {
    Point(Clamp(0.0, 100.0, Percent(pointer.x - offset.x - rect.left, rect.width)),
          Clamp(0.0, 100.0, Percent(pointer.y - offset.y - rect.top, rect.height)))
  }

  /** Moving a length expressed in pixels of a dimension that also holds a
      percentage of that dimension. */
  lemma PercentShift(size: real, percent: real, delta: real)
    requires size > 0.0
    ensures Percent(delta + percent / 100.0 * size, size) == percent + Percent(delta, size)
  {
    calc {
      Percent(delta + percent / 100.0 * size, size);
      (delta + percent / 100.0 * size) / size * 100.0;
      { assert (delta + percent / 100.0 * size) / size == delta / size + percent / 100.0; }
      (delta / size + percent / 100.0) * 100.0;
      Percent(delta, size) + percent;
    }
  }

  /** After a drag starts, the anchor follows the pointer: moving it by
      (dx, dy) pixels moves the anchor by the same amount in percent of the
      container, shifted by the container's own position, then clamped. */
  lemma DragFollowsPointer(p: Pose, start: Point, rect: Rect, dx: real, dy: real)
    requires Measurable(rect)
    ensures DragTarget(DragOffset(p, start, rect), Point(start.x + dx, start.y + dy), rect)
         == Point(Clamp(0.0, 100.0, p.x + Percent(dx - rect.left, rect.width)),
                  Clamp(0.0, 100.0, p.y + Percent(dy - rect.top, rect.height)))
  {
    var offset := DragOffset(p, start, rect);
    var pointer := Point(start.x + dx, start.y + dy);
    var rawX := pointer.x - offset.x - rect.left;
    var rawY := pointer.y - offset.y - rect.top;
    assert rawX == (dx - rect.left) + p.x / 100.0 * rect.width;
    assert rawY == (dy - rect.top) + p.y / 100.0 * rect.height;
    PercentShift(rect.width, p.x, dx - rect.left);
    PercentShift(rect.height, p.y, dy - rect.top);
    assert Percent(rawX, rect.width) == p.x + Percent(dx - rect.left, rect.width);
    assert Percent(rawY, rect.height) == p.y + Percent(dy - rect.top, rect.height);
  }

  /** A drag that ends where it started leaves an in-bounds anchor where it
      was when the container sits at the viewport origin. */
  lemma DragReturnsToStart(p: Pose, start: Point, rect: Rect)
    requires Measurable(rect) && InBounds(p)
    requires rect.left == 0.0 && rect.top == 0.0
    ensures DragTarget(DragOffset(p, start, rect), start, rect) == Point(p.x, p.y)
  {
    DragFollowsPointer(p, start, rect, 0.0, 0.0);
    assert Point(start.x + 0.0, start.y + 0.0) == start;
  }

  /** Conversely, for an anchor strictly inside the container, a drag that
      ends where it started leaves it in place only when the container sits
      at the viewport origin: otherwise the anchor jumps by the container's
      offset. */
  lemma DragReturnsToStartOnlyAtOrigin(p: Pose, start: Point, rect: Rect)
    requires Measurable(rect)
    requires 0.0 < p.x < 100.0 && 0.0 < p.y < 100.0
    ensures DragTarget(DragOffset(p, start, rect), start, rect) == Point(p.x, p.y)
        <==> rect.left == 0.0 && rect.top == 0.0
  {
    DragFollowsPointer(p, start, rect, 0.0, 0.0);
    assert Point(start.x + 0.0, start.y + 0.0) == start;
    assert Percent(0.0 - rect.left, rect.width) == 0.0 <==> rect.left == 0.0;
    assert Percent(0.0 - rect.top, rect.height) == 0.0 <==> rect.top == 0.0;
  }

  /** Anchor at (50, 50) px in a 200x200 container at the origin, pointer
      pressed at (100, 100) and moved to (120, 100): the anchor lands at
      x = (120 - 50) / 200 * 100 = 35 %. */
  lemma DragExample()
    ensures DragOffset(Pose(25.0, 25.0, 1.0, 0.0), Point(100.0, 100.0), Rect(0.0, 0.0, 200.0, 200.0)) == Point(50.0, 50.0)
    ensures DragTarget(Point(50.0, 50.0), Point(120.0, 100.0), Rect(0.0, 0.0, 200.0, 200.0)) == Point(35.0, 25.0)
  {
  }

  /** A 400x300 container at (300, 100) in the viewport, anchor at (50, 50) %,
      that is (500, 250) in the viewport. A press on the anchor records the
      offset (300, 100) instead of (0, 0); on the first move event, one
      pixel to the right, x becomes (501 - 300 - 300) / 400 * 100 < 0,
      clamped to the left edge, and y becomes (250 - 100 - 100) / 300 * 100
      = 50 / 3. */
  lemma DragJumpExample()
    ensures DragOffset(Pose(50.0, 50.0, 1.0, 0.0), Point(500.0, 250.0), Rect(300.0, 100.0, 400.0, 300.0))
         == Point(300.0, 100.0)
    ensures DragTarget(Point(300.0, 100.0), Point(501.0, 250.0), Rect(300.0, 100.0, 400.0, 300.0))
         == Point(0.0, 50.0 / 3.0)
  {
  }

  /** The drag offset the move handler expects: the pointer minus the
      anchor in viewport pixels, that is, the container's corner plus the
      container-relative anchor. */
  function DragOffsetIntended(p: Pose, pointer: Point, rect: Rect): (offset: Point)
    ensures offset.x + rect.left + AnchorOnScreen(p, rect).x == pointer.x
    ensures offset.y + rect.top + AnchorOnScreen(p, rect).y == pointer.y
  {
    var anchor := AnchorOnScreen(p, rect);
    Point(pointer.x - (rect.left + anchor.x), pointer.y - (rect.top + anchor.y))
  }

  /** With the intended offset, the anchor follows the pointer exactly:
      moving it by (dx, dy) pixels moves the anchor by the same distance in
      percent of the container, wherever the container sits, then clamped. */
  lemma DragIntendedFollowsPointer(p: Pose, start: Point, rect: Rect, dx: real, dy: real)
    requires Measurable(rect)
    ensures DragTarget(DragOffsetIntended(p, start, rect), Point(start.x + dx, start.y + dy), rect)
         == Point(Clamp(0.0, 100.0, p.x + Percent(dx, rect.width)),
                  Clamp(0.0, 100.0, p.y + Percent(dy, rect.height)))
  {
    var offset := DragOffsetIntended(p, start, rect);
    var pointer := Point(start.x + dx, start.y + dy);
    var rawX := pointer.x - offset.x - rect.left;
    var rawY := pointer.y - offset.y - rect.top;
    assert rawX == dx + p.x / 100.0 * rect.width;
    assert rawY == dy + p.y / 100.0 * rect.height;
    PercentShift(rect.width, p.x, dx);
    PercentShift(rect.height, p.y, dy);
    assert Percent(rawX, rect.width) == p.x + Percent(dx, rect.width);
    assert Percent(rawY, rect.height) == p.y + Percent(dy, rect.height);
  }

  /** With the intended offset, a drag that ends where it started leaves an
      anchor inside the container in place, for every measured container. */
  lemma DragIntendedReturnsToStart(p: Pose, start: Point, rect: Rect)
    requires Measurable(rect)
    requires 0.0 <= p.x <= 100.0 && 0.0 <= p.y <= 100.0
    ensures DragTarget(DragOffsetIntended(p, start, rect), start, rect) == Point(p.x, p.y)
  {
    DragIntendedFollowsPointer(p, start, rect, 0.0, 0.0);
    assert Point(start.x + 0.0, start.y + 0.0) == start;
  }

  /** The arrow buttons of `moveGlasses`. */
  datatype Direction = Up | Down | Left | Right

  function Opposite(d: Direction): Direction
  {
    match d
    case Up => Down
    case Down => Up
    case Left => Right
    case Right => Left
  }

  /** `moveGlasses`: one coordinate moves by the step in the named direction,
      saturating at the container's edge; nothing else changes. */
  function Nudge(p: Pose, d: Direction): (q: Pose)
    ensures q.scale == p.scale && q.rotation == p.rotation
    ensures d.Up? || d.Down? ==> q.x == p.x
    ensures d.Left? || d.Right? ==> q.y == p.y
    ensures d.Up? ==> q.y == if p.y >= NudgeStep then p.y - NudgeStep else 0.0
    ensures d.Down? ==> q.y == if p.y <= 100.0 - NudgeStep then p.y + NudgeStep else 100.0
    ensures d.Left? ==> q.x == if p.x >= NudgeStep then p.x - NudgeStep else 0.0
    ensures d.Right? ==> q.x == if p.x <= 100.0 - NudgeStep then p.x + NudgeStep else 100.0
    ensures InBounds(p) ==> InBounds(q)
  {
    match d
    case Up => p.(y := Max(0.0, p.y - NudgeStep))
    case Down => p.(y := Min(100.0, p.y + NudgeStep))
    case Left => p.(x := Max(0.0, p.x - NudgeStep))
    case Right => p.(x := Min(100.0, p.x + NudgeStep))
  }

  /** Away from the edges, a nudge is undone by the opposite nudge. */
  lemma NudgeRoundTrip(p: Pose, d: Direction)
    requires NudgeStep <= p.x <= 100.0 - NudgeStep
    requires NudgeStep <= p.y <= 100.0 - NudgeStep
    ensures Nudge(Nudge(p, d), Opposite(d)) == p
  {
  }

  /** At an edge, nudging outwards is a no-op. */
  lemma NudgeAtEdge(p: Pose)
    requires InBounds(p)
    ensures p.y == 0.0 ==> Nudge(p, Up) == p
    ensures p.y == 100.0 ==> Nudge(p, Down) == p
    ensures p.x == 0.0 ==> Nudge(p, Left) == p
    ensures p.x == 100.0 ==> Nudge(p, Right) == p
  {
  }

  /** `n` clicks of the same arrow button, one `moveGlasses` call each. */
  function NudgeTimes(p: Pose, d: Direction, n: nat): (q: Pose)
    ensures q.scale == p.scale && q.rotation == p.rotation
    ensures d.Up? || d.Down? ==> q.x == p.x
    ensures d.Left? || d.Right? ==> q.y == p.y
    ensures InBounds(p) ==> InBounds(q)
  {
    if n == 0 then p else Nudge(NudgeTimes(p, d, n - 1), d)
  }

  /** From an anchor inside the container, `n` clicks move the coordinate by `n` steps
      and stop at the edge: the result is the sum clamped to [0, 100]. */
  lemma {:induction false} NudgeTimesSaturates(p: Pose, d: Direction, n: nat)
    requires 0.0 <= p.x <= 100.0 && 0.0 <= p.y <= 100.0
    ensures d.Up? ==> NudgeTimes(p, d, n).y == Max(0.0, p.y - n as real * NudgeStep)
    ensures d.Down? ==> NudgeTimes(p, d, n).y == Min(100.0, p.y + n as real * NudgeStep)
    ensures d.Left? ==> NudgeTimes(p, d, n).x == Max(0.0, p.x - n as real * NudgeStep)
    ensures d.Right? ==> NudgeTimes(p, d, n).x == Min(100.0, p.x + n as real * NudgeStep)
  {
    if n > 0 {
      NudgeTimesSaturates(p, d, n - 1);
    }
  }

  /** Away from the edges, `n` clicks are undone by `n` clicks of the
      opposite button. */
  lemma NudgeTimesRoundTrip(p: Pose, d: Direction, n: nat)
    requires n as real * NudgeStep <= p.x <= 100.0 - n as real * NudgeStep
    requires n as real * NudgeStep <= p.y <= 100.0 - n as real * NudgeStep
    ensures NudgeTimes(NudgeTimes(p, d, n), Opposite(d), n) == p
  {
    var q := NudgeTimes(p, d, n);
    NudgeTimesSaturates(p, d, n);
    NudgeTimesSaturates(q, Opposite(d), n);
  }

  /** `adjustScale`: adds the delta but never goes below the minimum scale;
      the anchor and rotation are untouched. */
  function ScaleBy(p: Pose, delta: real): (q: Pose)
    ensures q.x == p.x && q.y == p.y && q.rotation == p.rotation
    ensures q.scale >= MinScale
    ensures p.scale + delta >= MinScale ==> q.scale == p.scale + delta
    ensures p.scale + delta < MinScale ==> q.scale == MinScale
    ensures InBounds(p) ==> InBounds(q)
  {
    p.(scale := Max(MinScale, p.scale + delta))
  }

  /** `adjustRotation`: adds the delta (radians, unbounded); nothing else changes. */
  function RotateBy(p: Pose, delta: real): (q: Pose)
    ensures q.x == p.x && q.y == p.y && q.scale == p.scale
    ensures q.rotation - p.rotation == delta
    ensures InBounds(p) ==> InBounds(q)
  {
    p.(rotation := p.rotation + delta)
  }

  /** A zoom-in step is undone by the matching zoom-out step. */
  lemma ScaleRoundTrip(p: Pose, delta: real)
    requires p.scale >= MinScale && delta >= 0.0
    ensures ScaleBy(ScaleBy(p, delta), -delta) == p
  {
  }

  /** A rotation step is undone by the opposite step. */
  lemma RotateRoundTrip(p: Pose, delta: real)
    ensures RotateBy(RotateBy(p, delta), -delta) == p
  {
  }

  /** Zooming out by 5 from scale 1 stops at the minimum instead of going negative. */
  lemma ScaleExample()
    ensures ScaleBy(Pose(50.0, 50.0, 1.0, 0.0), -5.0).scale == 0.1
  {
  }

  /** The one sizing rule: 40 % of the displayed photo width, at most 200 px.
      The on-screen overlay (`width: 40%`, `maxWidth: 200px`) and the export
      both start from it. */
  function BaseDisplayedWidth(displayedWidth: real): (w: real)
    requires displayedWidth >= 0.0
    ensures 0.0 <= w <= 200.0 && w <= displayedWidth * 0.4
    ensures w == 200.0 || w == displayedWidth * 0.4
  {
    Min(displayedWidth * 0.4, 200.0)
  }

  /** The overlay's rendered width on screen: the base width times the CSS
      `scale()` transform. */
  function OnScreenGlassesWidth(containerWidth: real, p: Pose): (w: real)
    requires containerWidth >= 0.0
    ensures p.scale >= 0.0 ==> 0.0 <= w <= 200.0 * p.scale && w <= containerWidth * 0.4 * p.scale
    ensures p.scale >= 0.0 ==> w == 200.0 * p.scale || w == containerWidth * 0.4 * p.scale
  {
    BaseDisplayedWidth(containerWidth) * p.scale
  }

  /** The photo element: natural size and laid-out width (`clientWidth`). */
  datatype PhotoElement = PhotoElement(naturalWidth: real, naturalHeight: real, clientWidth: real)

  /** The glasses graphic's natural size. */
  datatype GlassesElement = GlassesElement(naturalWidth: real, naturalHeight: real)

  /** A photo the export can map: decoded, and laid out or not at all. */
  predicate DecodedPhoto(photo: PhotoElement)
  {
    photo.naturalWidth > 0.0 && photo.naturalHeight > 0.0 && photo.clientWidth >= 0.0
  }

  predicate DecodedGlasses(glasses: GlassesElement)
  {
    glasses.naturalWidth > 0.0 && glasses.naturalHeight > 0.0
  }

  /** `clientWidth || naturalWidth`: an unlaid-out photo counts as shown at natural size. */
  function DisplayedWidth(photo: PhotoElement): (d: real)
    requires DecodedPhoto(photo)
    ensures d > 0.0
    ensures photo.clientWidth > 0.0 ==> d == photo.clientWidth
    ensures photo.clientWidth == 0.0 ==> d == photo.naturalWidth
  {
    if photo.clientWidth != 0.0 then photo.clientWidth else photo.naturalWidth
  }

  /** The anchor in natural pixels. Read back as percentages of the photo's
      natural size, it gives the pose's percentages. */
  function ExportAnchor(p: Pose, photo: PhotoElement): (a: Point)
    ensures DecodedPhoto(photo) ==>
              Percent(a.x, photo.naturalWidth) == p.x && Percent(a.y, photo.naturalHeight) == p.y
  {
    var a := Point(p.x / 100.0 * photo.naturalWidth, p.y / 100.0 * photo.naturalHeight);
    if DecodedPhoto(photo) then
      PercentOfPercent(photo.naturalWidth, p.x);
      PercentOfPercent(photo.naturalHeight, p.y);
      a
    else
      a
  }

  /** The overlay width in natural pixels: the on-screen rule rescaled by
      natural over displayed width. */
  function ExportGlassesWidth(p: Pose, photo: PhotoElement): (w: real)
    requires DecodedPhoto(photo)
    ensures p.scale >= 0.0 ==> w >= 0.0
    ensures photo.clientWidth == 0.0 ==> w == BaseDisplayedWidth(photo.naturalWidth) * p.scale
  {
    var displayedImageWidth := DisplayedWidth(photo);
    var naturalToDisplayScale := photo.naturalWidth / displayedImageWidth;
    BaseDisplayedWidth(displayedImageWidth) * p.scale * naturalToDisplayScale
  }

  /** The overlay height: the glasses' natural aspect ratio times the width. */
  function ExportGlassesHeight(glasses: GlassesElement, width: real): (h: real)
    requires DecodedGlasses(glasses)
    ensures width != 0.0 ==> h / width == glasses.naturalHeight / glasses.naturalWidth
    ensures width > 0.0 ==> h > 0.0
  {
    (glasses.naturalHeight / glasses.naturalWidth) * width
  }

  /** The exported anchor sits at the same fraction of the photo's natural
      size as the on-screen anchor does of the container. (The container is
      the photo only when the photo is shown uncropped.) */
  lemma ExportAnchorMatchesScreen(p: Pose, photo: PhotoElement, rect: Rect)
    requires DecodedPhoto(photo) && Measurable(rect)
    ensures ExportAnchor(p, photo).x / photo.naturalWidth == AnchorOnScreen(p, rect).x / rect.width == p.x / 100.0
    ensures ExportAnchor(p, photo).y / photo.naturalHeight == AnchorOnScreen(p, rect).y / rect.height == p.y / 100.0
  {
    assert (p.x / 100.0 * photo.naturalWidth) / photo.naturalWidth == p.x / 100.0;
    assert (p.y / 100.0 * photo.naturalHeight) / photo.naturalHeight == p.y / 100.0;
    assert (p.x / 100.0 * rect.width) / rect.width == p.x / 100.0;
    assert (p.y / 100.0 * rect.height) / rect.height == p.y / 100.0;
  }

  /** The exported overlay covers the same fraction of the photo's natural
      width as the on-screen overlay covers of the displayed width. */
  lemma ExportWidthMatchesScreen(p: Pose, photo: PhotoElement)
    requires DecodedPhoto(photo)
    ensures ExportGlassesWidth(p, photo) / photo.naturalWidth
         == OnScreenGlassesWidth(DisplayedWidth(photo), p) / DisplayedWidth(photo)
  {
    var d := DisplayedWidth(photo);
    var n := photo.naturalWidth;
    var b := BaseDisplayedWidth(d) * p.scale;
    assert ExportGlassesWidth(p, photo) == b * (n / d);
    Rescale(b, n, d);
  }

  /** Rescaling a length by n / d and then dividing by n is dividing by d. */
  lemma Rescale(b: real, n: real, d: real)
    requires n > 0.0 && d > 0.0
    ensures (b * (n / d)) / n == b / d
  {
    var q := b / d;
    assert b == q * d;
    assert d * (n / d) == n;
    assert b * (n / d) == q * n;
    assert (q * n) / n == q;
  }

  /** An 800x600 photo shown 400 px wide, scale 1: base width
      min(400 * 0.4, 200) = 160, times natural-to-display 2, is 320 px. */
  lemma ExportWidthExample()
    ensures ExportGlassesWidth(Pose(50.0, 30.0, 1.0, 0.0), PhotoElement(800.0, 600.0, 400.0)) == 320.0
  {
  }
}
