/** The single-candidate poster ("template1"): a 500 by 833 design drawn at
    six times that size. Every function here returns coordinates in canvas
    pixels; the pixels themselves are not modelled. */
module Classic {
  import opened Common
  import opened Defaults
  import opened TextLayout
  import opened Inputs

  const Scale: real := 6.0
  const Width: real := 500.0 * Scale
  const Height: real := 833.0 * Scale
  const TopBarHeight: real := 96.0 * Scale

  /** The header logo is bounded by three bar heights and 95% of the width. */
  const LogoMaxHeight: real := TopBarHeight * 3.0
  const LogoMaxWidth: real := Width * 0.95

  /** The photo band below the top bar; the photo's height at zoom 100 is
      92% of the band. */
  const PhotoTop: real := TopBarHeight
  const PhotoBandHeight: real := Height - PhotoTop
  const BasePhotoHeight: real := PhotoBandHeight * 0.92

  /** The fade runs from 50% to 85% of the drawn photo's height. */
  const FadeFrom: real := 0.50
  const FadeTo: real := 0.85

  const Intikhabi: string := "انتخابی"
  const Nishan: string := "نشان"
  const Tarazu: string := "ترازو"

  datatype Fade = Fade(start: real, end: real, mask: Rect)
  datatype PhotoDraw = PhotoDraw(draw: Rect, fade: Option<Fade>)

  /** The election-symbol block: its logo and the three caption runs. */
  datatype Emblem = Emblem(logo: Rect, runs: seq<TextLine>)

  datatype Poster = Poster(
    canvas: Rect,
    topBar: Rect,
    logo: Option<Rect>,
    photo: Option<PhotoDraw>,
    emblem: Option<Emblem>,
    ucBlock: seq<TextLine>,
    bottom: seq<TextLine>,
    footer: Option<Rect>)

  // ---------------------------------------------------------------------
  // Header logo
  // ---------------------------------------------------------------------

  /** The header logo: first sized to the height cap, then, if that makes it
      too wide, to the width cap; centred in the top bar. */
  function FitLogo(img: Image): (r: Rect)
    ensures 0.0 < r.w <= LogoMaxWidth && 0.0 < r.h <= LogoMaxHeight
    ensures SameAspect(r.w, r.h, img)
    ensures r.w == LogoMaxWidth || r.h == LogoMaxHeight
    ensures r.Center() == Point(Width / 2.0, TopBarHeight / 2.0)
  {
    var tallWidth := (img.width / img.height) * LogoMaxHeight;
    if tallWidth > LogoMaxWidth then
      var h := (img.height / img.width) * LogoMaxWidth;
      WideLogoFits(img);
      Rect((Width - LogoMaxWidth) / 2.0, (TopBarHeight - h) / 2.0, LogoMaxWidth, h)
    else
      Rect((Width - tallWidth) / 2.0, (TopBarHeight - LogoMaxHeight) / 2.0, tallWidth, LogoMaxHeight)
  }

  /** When the height cap makes the logo too wide, the width cap yields a
      height within the height cap. */
  lemma WideLogoFits(img: Image)
    requires (img.width / img.height) * LogoMaxHeight > LogoMaxWidth
    ensures 0.0 < (img.height / img.width) * LogoMaxWidth <= LogoMaxHeight
    ensures SameAspect(LogoMaxWidth, (img.height / img.width) * LogoMaxWidth, img)
  {
    var w, h := img.width, img.height;
    assert (w / h) * LogoMaxHeight * h == w * LogoMaxHeight;
    assert w * LogoMaxHeight > LogoMaxWidth * h;
    assert (h / w) * LogoMaxWidth * w == h * LogoMaxWidth;
  }

  /** The fitted logo is the largest box of the logo's aspect ratio within
      both caps. */
  lemma {:induction false} FitLogoIsLargest(img: Image, w: real, h: real)
    requires 0.0 < w <= LogoMaxWidth && 0.0 < h <= LogoMaxHeight
    requires SameAspect(w, h, img)
    ensures w <= FitLogo(img).w && h <= FitLogo(img).h
  {
    var r := FitLogo(img);
    var iw, ih := img.width, img.height;
    if r.h == LogoMaxHeight {
      // w * ih == h * iw <= LogoMaxHeight * iw == r.h * iw == r.w * ih
      assert h * iw <= r.h * iw;
      assert w * ih <= r.w * ih;
    } else {
      assert r.w == LogoMaxWidth;
      assert w * ih <= r.w * ih;
      assert h * iw <= r.h * iw;
    }
  }

  // ---------------------------------------------------------------------
  // Candidate photo
  // ---------------------------------------------------------------------

  /** The candidate photo's draw rectangle and fade mask. The photo is sized
      by height (92% of the band, times zoom/100) and keeps its aspect ratio;
      (posX, posY) percent of the photo sits at (posX, posY) percent of the
      canvas width and of the photo band. Nothing is clamped. */
  function PlacePhoto(img: Image, posX: real, posY: real, zoom: real): (p: PhotoDraw)
    ensures p.draw.h == BasePhotoHeight * zoom / 100.0
    ensures SameAspect(p.draw.w, p.draw.h, img)
    ensures p.draw.Center() == Point(Width * posX / 100.0, PhotoTop + PhotoBandHeight * posY / 100.0)
    ensures p.fade.Some? <==> zoom > 0.0
    ensures p.fade.Some? ==>
      && p.fade.value.start == p.draw.y + FadeFrom * p.draw.h
      && p.fade.value.end == p.draw.y + FadeTo * p.draw.h
      && p.fade.value.mask.x == p.draw.x && p.fade.value.mask.w == p.draw.w
      && p.fade.value.mask.y == p.fade.value.start && p.fade.value.mask.Bottom() == Height
  {
    var scaledHeight := BasePhotoHeight * (zoom / 100.0);
    var photoWidth := (img.width / img.height) * scaledHeight;
    var photoX := (Width * (posX / 100.0)) - (photoWidth / 2.0);
    var startY := PhotoTop + (PhotoBandHeight * 0.5);
    var offsetY := (PhotoBandHeight * (posY - 50.0)) / 100.0;
    var photoY := startY + offsetY - (scaledHeight * 0.5);
    var fadeStart := photoY + (scaledHeight * FadeFrom);
    var fadeEnd := photoY + (scaledHeight * FadeTo);
    assert photoWidth * img.height == scaledHeight * img.width;
    var draw := Rect(photoX, photoY, photoWidth, scaledHeight);
    if fadeEnd > fadeStart then
      PhotoDraw(draw, Some(Fade(fadeStart, fadeEnd, Rect(photoX, fadeStart, photoWidth, Height - fadeStart))))
    else
      PhotoDraw(draw, None)
  }

  /** A larger zoom draws a strictly larger photo around the same centre. */
  lemma ClassicZoomGrowsAroundFixedCentre(img: Image, posX: real, posY: real, z1: real, z2: real)
    requires z1 < z2
    ensures PlacePhoto(img, posX, posY, z1).draw.h < PlacePhoto(img, posX, posY, z2).draw.h
    ensures PlacePhoto(img, posX, posY, z1).draw.w < PlacePhoto(img, posX, posY, z2).draw.w
    ensures PlacePhoto(img, posX, posY, z1).draw.Center() == PlacePhoto(img, posX, posY, z2).draw.Center()
  {
    var a, b := PlacePhoto(img, posX, posY, z1).draw, PlacePhoto(img, posX, posY, z2).draw;
    assert a.h < b.h;
    assert a.w * img.height < b.w * img.height by {
      assert a.w * img.height == a.h * img.width;
      assert b.w * img.height == b.h * img.width;
      assert a.h * img.width < b.h * img.width;
    }
  }

  // ---------------------------------------------------------------------
  // Emblem block (tarazu logo and its right-to-left caption)
  // ---------------------------------------------------------------------

  const EmblemSize: real := 150.0 * Scale
  const EmblemX: real := 15.0 * Scale
  const EmblemY: real := 180.0 * Scale
  const CaptionTop: real := EmblemY + EmblemSize - 30.0 * Scale
  const CaptionRight: real := EmblemX + 130.0 * Scale
  const RunGap: real := 6.0 * Scale

  /** The emblem logo and its caption: the two small runs on one baseline,
      the large yellow run ten units higher, placed right to left from
      `CaptionRight`. `measure` is `measureText(..).width` in the small
      runs' font. Without the logo neither the logo nor the caption is
      drawn: both sit in one `try`. */
  function PlaceEmblem(logo: Option<Image>, measure: string -> real): (r: Option<Emblem>)
    ensures r.Some? <==> logo.Some?
    ensures r.Some? ==>
      && r.value.logo == Rect(EmblemX, EmblemY, EmblemSize, EmblemSize)
      && |r.value.runs| == 3
      && r.value.runs[0].text == Intikhabi && r.value.runs[1].text == Nishan && r.value.runs[2].text == Tarazu
      && r.value.runs[0].at.x == CaptionRight
      && r.value.runs[1].at.x == CaptionRight - measure(Intikhabi) - RunGap
      && r.value.runs[2].at.x == CaptionRight - measure(Intikhabi) - RunGap - measure(Nishan) - RunGap
      && r.value.runs[0].at.y == r.value.runs[1].at.y == r.value.runs[2].at.y + 10.0 * Scale
    ensures r.Some? ==> forall k :: 0 <= k < |r.value.runs| ==> r.value.runs[k].align == Right && r.value.runs[k].baseline == Top
  {
    match logo
    case None => None
    case Some(_) =>
      var edges := RunEdges(CaptionRight, [measure(Intikhabi), measure(Nishan)], RunGap);
      RunEdgeClosedForm(CaptionRight, [measure(Intikhabi), measure(Nishan)], RunGap, 1);
      RunEdgeClosedForm(CaptionRight, [measure(Intikhabi), measure(Nishan)], RunGap, 2);
      var small := CaptionTop + 10.0 * Scale;
      Some(Emblem(
        Rect(EmblemX, EmblemY, EmblemSize, EmblemSize),
        [ TextLine(Intikhabi, Point(edges[0], small), 22.0 * Scale, Right, Top),
          TextLine(Nishan, Point(edges[1], small), 22.0 * Scale, Right, Top),
          TextLine(Tarazu, Point(edges[2], CaptionTop), 45.0 * Scale, Right, Top) ]))
  }

  /** With non-negative measured widths the three runs read right to left. */
  lemma EmblemRunsRightToLeft(logo: Image, measure: string -> real)
    requires measure(Intikhabi) >= 0.0 && measure(Nishan) >= 0.0
    ensures PlaceEmblem(Some(logo), measure).value.runs[2].at.x
          < PlaceEmblem(Some(logo), measure).value.runs[1].at.x
          < PlaceEmblem(Some(logo), measure).value.runs[0].at.x
  {
  }

  // ---------------------------------------------------------------------
  // Text stacks
  // ---------------------------------------------------------------------

  const UcRight: real := Width - 80.0 * Scale
  const UcTop: real := 170.0 * Scale
  const UcGap: real := -15.0 * Scale
  const UcSize: real := 68.0 * Scale
  const UcNumberSize: real := 60.0 * Scale
  const AreaSize: real := 30.0 * Scale

  /** The right-aligned UC block: "UC", the UC number and the area name,
      each line moved down by the previous line's font size plus a negative
      gap, the area name a further twelve units down. Neither field has a
      fallback. */
  function UcBlock(ucNumber: Option<string>, areaName: Option<string>): (lines: seq<TextLine>)
    ensures |lines| == 3
    ensures lines[0].text == "UC" && lines[1].text == Coerce(ucNumber) && lines[2].text == Coerce(areaName)
    ensures forall k :: 0 <= k < 3 ==> lines[k].at.x == UcRight
    ensures lines[0].at.y == 170.0 * Scale && lines[1].at.y == 223.0 * Scale && lines[2].at.y == 280.0 * Scale
    ensures forall k :: 0 <= k < 3 ==> lines[k].align == Right && lines[k].baseline == Top
  {
    var ys := Cursor(UcTop, [UcSize + UcGap, UcNumberSize + UcGap]);
    [ TextLine("UC", Point(UcRight, ys[0]), UcSize, Right, Top),
      TextLine(Coerce(ucNumber), Point(UcRight, ys[1]), UcNumberSize, Right, Top),
      TextLine(Coerce(areaName), Point(UcRight, ys[2] + 12.0 * Scale), AreaSize, Right, Top) ]
  }

  const BottomMargin: real := 112.0 * Scale

  /** The centred bottom stack, drawn bottom-up: the ward label on the
      lowest baseline, the designation 40 units above it, the name 50 units
      above that. Only the name falls back to a default. */
  function BottomBlock(name: Option<string>, designation: Option<string>, wardNumber: Option<string>): (lines: seq<TextLine>)
    ensures |lines| == 3
    ensures lines[0].text == "WARD " + Coerce(wardNumber)
    ensures lines[1].text == Coerce(designation)
    ensures lines[2].text == (if name.None? || name.value == "" then DefaultName else name.value)
    ensures forall k :: 0 <= k < 3 ==> lines[k].at.x == Width / 2.0
    ensures lines[0].at.y == Height - BottomMargin
    ensures lines[1].at.y == lines[0].at.y - 40.0 * Scale
    ensures lines[2].at.y == lines[1].at.y - 50.0 * Scale
    ensures forall k :: 0 <= k < 3 ==> lines[k].align == Centre && lines[k].baseline == Alphabetic
  {
    var ys := Cursor(Height - BottomMargin, [-(40.0 * Scale), -(50.0 * Scale)]);
    [ TextLine("WARD " + Coerce(wardNumber), Point(Width / 2.0, ys[0]), 30.0 * Scale, Centre, Alphabetic),
      TextLine(Coerce(designation), Point(Width / 2.0, ys[1]), 30.0 * Scale, Centre, Alphabetic),
      TextLine(TextOr(name, DefaultName), Point(Width / 2.0, ys[2]), 96.0 * Scale, Centre, Alphabetic) ]
  }

  // ---------------------------------------------------------------------
  // Footer logo
  // ---------------------------------------------------------------------

  const FooterHeight: real := 48.0 * Scale

  /** The footer logo, sized by height, centred, its bottom 32 units above
      the canvas bottom. */
  function FitFooter(img: Image): (r: Rect)
    ensures r.h == FooterHeight && SameAspect(r.w, r.h, img)
    ensures r.Center().x == Width / 2.0
    ensures r.Bottom() == Height - 32.0 * Scale
  {
    var w := (img.width / img.height) * FooterHeight;
    assert w * img.height == FooterHeight * img.width;
    Rect((Width - w) / 2.0, Height - (32.0 * Scale) - FooterHeight, w, FooterHeight)
  }

  // ---------------------------------------------------------------------
  // The whole poster
  // ---------------------------------------------------------------------

  /** The classic poster for one request. Every asset or photo that fails to
      load is left out and the rest is still drawn. */
  function Render(req: Request, assets: Assets, measure: string -> real): (p: Poster)
    ensures p.canvas == Rect(0.0, 0.0, 3000.0, 4998.0)
    ensures p.topBar == Rect(0.0, 0.0, Width, TopBarHeight)
    ensures p.logo.Some? <==> assets.badloLogo.Some?
    ensures p.photo.Some? <==> Decoded(req.image).Some?
    ensures p.emblem.Some? <==> assets.tarazuLogo.Some?
    ensures p.footer.Some? <==> assets.footerLogo.Some?
    ensures p.photo.Some? ==>
      p.photo.value.draw.Center() == Point(Width * NumberOr(req.positionX, 50.0) / 100.0,
                                           PhotoTop + PhotoBandHeight * NumberOr(req.positionY, 50.0) / 100.0)
    ensures p.photo.Some? ==> p.photo.value.draw.h == BasePhotoHeight * NumberOr(req.zoom, 100.0) / 100.0
    ensures |p.ucBlock| == 3 && |p.bottom| == 3
    ensures p.ucBlock[1].text == Coerce(req.ucNumber) && p.ucBlock[2].text == Coerce(req.areaName)
    ensures p.bottom[0].text == "WARD " + Coerce(req.wardNumber) && p.bottom[1].text == Coerce(req.designation)
    ensures p.bottom[2].text == TextOr(req.name, DefaultName)
  {
    var posX := NumberOr(req.positionX, 50.0);
    var posY := NumberOr(req.positionY, 50.0);
    var zoom := NumberOr(req.zoom, 100.0);
    Poster(
      Rect(0.0, 0.0, Width, Height),
      Rect(0.0, 0.0, Width, TopBarHeight),
      match assets.badloLogo { case None => None case Some(l) => Some(FitLogo(l)) },
      match Decoded(req.image) { case None => None case Some(img) => Some(PlacePhoto(img, posX, posY, zoom)) },
      PlaceEmblem(assets.tarazuLogo, measure),
      UcBlock(req.ucNumber, req.areaName),
      BottomBlock(req.name, req.designation, req.wardNumber),
      match assets.footerLogo { case None => None case Some(l) => Some(FitFooter(l)) })
  }
}
