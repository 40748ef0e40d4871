/** What `generateComposite` draws: the photo at its natural size, then the
    glasses centred on the anchor in natural pixels, rotated about it. */
module Compositor {
  import opened FaceDetection
  import opened Geometry
  import opened Canvas2D

  /** The glasses' `drawImage` call: translated to the anchor, rotated, and
      offset by half its size so that it is centred on the anchor. */
  function GlassesDraw(p: Pose, photo: PhotoElement, glasses: GlassesElement): (c: DrawCall)
    requires DecodedPhoto(photo) && DecodedGlasses(glasses)
    ensures c.source == GlassesSource
    ensures c.transform == [TransformOp.Translate(ExportAnchor(p, photo).x, ExportAnchor(p, photo).y), TransformOp.Rotate(p.rotation)]
    ensures c.dx + c.dw / 2.0 == 0.0 && c.dy + c.dh / 2.0 == 0.0
  {
    var anchor := ExportAnchor(p, photo);
    var glassesWidth := ExportGlassesWidth(p, photo);
    var glassesHeight := ExportGlassesHeight(glasses, glassesWidth);
    DrawCall(GlassesSource, [TransformOp.Translate(anchor.x, anchor.y), TransformOp.Rotate(p.rotation)],
             -glassesWidth / 2.0, -glassesHeight / 2.0, glassesWidth, glassesHeight)
  }

  /** The exported image: a canvas of the photo's natural size holding the
      photo drawn unscaled at the origin and the glasses over it. */
  function Composite(p: Pose, photo: PhotoElement, glasses: GlassesElement): (r: Raster)
    requires DecodedPhoto(photo) && DecodedGlasses(glasses)
    ensures r.width == photo.naturalWidth && r.height == photo.naturalHeight
    ensures |r.draws| == 2
    ensures r.draws[0] == DrawCall(PhotoSource, [], 0.0, 0.0, photo.naturalWidth, photo.naturalHeight)
    ensures r.draws[1] == GlassesDraw(p, photo, glasses)
  {
    Raster(photo.naturalWidth, photo.naturalHeight,
           [DrawCall(PhotoSource, [], 0.0, 0.0, photo.naturalWidth, photo.naturalHeight),
            GlassesDraw(p, photo, glasses)])
  }

  /** In the composite, for a container as wide as the displayed photo, the
      glasses' anchor sits at the same fraction of the image as the on-screen
      anchor does of the container, the glasses span the same fraction of the
      image width as they span of the container width on screen, and they
      keep the graphic's aspect ratio. The container is taken to show the
      whole photo; a photo cropped to fit it is not modelled. */
  lemma CompositeMatchesScreen(p: Pose, photo: PhotoElement, glasses: GlassesElement, rect: Rect)
    requires DecodedPhoto(photo) && DecodedGlasses(glasses) && Measurable(rect)
    requires rect.width == DisplayedWidth(photo)
    requires p.scale > 0.0
    ensures var r := Composite(p, photo, glasses);
            var g := r.draws[1];
            && g.transform[0].dx / r.width == AnchorOnScreen(p, rect).x / rect.width
            && g.transform[0].dy / r.height == AnchorOnScreen(p, rect).y / rect.height
            && g.dw / r.width == OnScreenGlassesWidth(rect.width, p) / rect.width
            && g.dh / g.dw == glasses.naturalHeight / glasses.naturalWidth
  {
    ExportAnchorMatchesScreen(p, photo, rect);
    ExportWidthMatchesScreen(p, photo);
    var w := ExportGlassesWidth(p, photo);
    assert BaseDisplayedWidth(DisplayedWidth(photo)) > 0.0;
    assert w > 0.0;
  }

  /** An 800x600 photo shown 400 px wide, pose (50, 30, 1, 0), glasses
      graphic 400x100: a 800x600 canvas, anchor (400, 180), glasses 320x80
      drawn from (-160, -40). */
  lemma CompositeExample()
    ensures Composite(Pose(50.0, 30.0, 1.0, 0.0), PhotoElement(800.0, 600.0, 400.0), GlassesElement(400.0, 100.0))
         == Raster(800.0, 600.0,
                   [DrawCall(PhotoSource, [], 0.0, 0.0, 800.0, 600.0),
                    DrawCall(GlassesSource, [TransformOp.Translate(400.0, 180.0), TransformOp.Rotate(0.0)],
                             -160.0, -40.0, 320.0, 80.0)])
  {
    ExportWidthExample();
  }
}
