/** The nine-candidate poster ("template2"): a 1200 by 400 design drawn at
    three times that size, in three vertical bands: a left panel with the UC
    label and the emblem, a centre band with nine photo slots (four on top,
    five below) and a right panel holding one static image. */
module Grid {
  import opened Common
  import opened Defaults
  import opened Inputs

  const Scale: real := 3.0
  const Width: real := 1200.0 * Scale
  const Height: real := 400.0 * Scale

  const SlotWidth: real := 140.0 * Scale
  const SlotHeight: real := 170.0 * Scale
  const CentreX: real := 250.0 * Scale
  const CentreWidth: real := 700.0 * Scale
  const Spacing: real := 0.0
  const TopRowCount: nat := 4

  /** The three bands. The right band is where the centre band ends up to
      the canvas edge. */
  const LeftBand: Rect := Rect(0.0, 0.0, CentreX, Height)
  const CentreBand: Rect := Rect(CentreX, 0.0, CentreWidth, Height)
  const RightBand: Rect := Rect(CentreX + CentreWidth, 0.0, Width - (CentreX + CentreWidth), Height)

  const FailureMessage: string := "Failed to generate Template 2"

  datatype Caption = Caption(strip: Rect, lines: seq<TextLine>)
  datatype Cell = Cell(frame: Rect, photo: Rect, caption: Option<Caption>)
  datatype LeftPanel = LeftPanel(ucLine: TextLine, areaLine: TextLine, logo: Option<Rect>)
  datatype Poster = Poster(canvas: Rect, cells: seq<Option<Cell>>, left: LeftPanel, right: Option<Rect>)

  /** Slot `i` is in the top row. */
  predicate IsTopRow(i: nat) { i < TopRowCount }

  // ---------------------------------------------------------------------
  // Slot frames
  // ---------------------------------------------------------------------

  /** The frame of slot `i`: each row is a block of adjacent slots centred in
      the centre band; the top row ends two units above the canvas middle,
      the bottom row starts two units below it. */
  function SlotFrame(i: nat): (r: Rect)
    requires i < GridSlotCount
    ensures r.w == SlotWidth && r.h == SlotHeight
    ensures Within(r, CentreBand)
    ensures IsTopRow(i) <==> r.Bottom() <= Height / 2.0
    ensures !IsTopRow(i) <==> Height / 2.0 <= r.y
  {
    var isTop := IsTopRow(i);
    var indexInRow := if isTop then i else i - TopRowCount;
    var photosInRow := if isTop then 4 else 5;
    var totalWidth := (photosInRow as real) * SlotWidth + ((photosInRow - 1) as real) * Spacing;
    var offsetX := (CentreWidth - totalWidth) / 2.0;
    var x := CentreX + offsetX + (indexInRow as real) * (SlotWidth + Spacing);
    var y := if isTop then Height / 2.0 - SlotHeight - 2.0 * Scale else Height / 2.0 + 2.0 * Scale;
    Rect(x, y, SlotWidth, SlotHeight)
  }

  /** Neighbours in a row touch: each slot starts where the previous ends. */
  lemma SlotsAdjacent(i: nat)
    requires i + 1 < GridSlotCount && i + 1 != TopRowCount
    ensures SlotFrame(i).Right() == SlotFrame(i + 1).x
    ensures SlotFrame(i).y == SlotFrame(i + 1).y
  {
  }

  /** Each row is centred on the canvas' vertical mid-line. */
  lemma RowsCentred()
    ensures SlotFrame(0).x + SlotFrame(TopRowCount - 1).Right() == Width
    ensures SlotFrame(TopRowCount).x + SlotFrame(GridSlotCount - 1).Right() == Width
    ensures CentreBand.Center().x == Width / 2.0
  {
  }

  /** No two slots overlap. */
  lemma SlotsDisjoint(i: nat, j: nat)
    requires i < GridSlotCount && j < GridSlotCount && i != j
    ensures Disjoint(SlotFrame(i), SlotFrame(j))
  {
    var a, b := SlotFrame(i), SlotFrame(j);
    if IsTopRow(i) != IsTopRow(j) {
      assert a.Bottom() <= b.y || b.Bottom() <= a.y;
    } else if i < j {
      assert (i as real) + 1.0 <= j as real;
      assert a.Right() <= b.x;
    } else {
      assert (j as real) + 1.0 <= i as real;
      assert b.Right() <= a.x;
    }
  }

  /** The left band, the centre band and the right band lie side by side and
      cover the canvas width. */
  lemma BandsTileCanvas()
    ensures LeftBand.x == 0.0 && LeftBand.Right() == CentreBand.x
    ensures CentreBand.Right() == RightBand.x && RightBand.Right() == Width
    ensures LeftBand.w > 0.0 && CentreBand.w > 0.0 && RightBand.w > 0.0
    ensures LeftBand.h == CentreBand.h == RightBand.h == Height
  {
  }

  // ---------------------------------------------------------------------
  // Photo placement and caption
  // ---------------------------------------------------------------------

  /** The photo inside a slot, clipped to the frame when drawn: sized to the
      frame's width times zoom/100, keeping its aspect ratio; (posX, posY)
      percent of the photo sits at (posX, posY) percent of the frame. */
  function PlaceGridPhoto(frame: Rect, img: Image, posX: real, posY: real, zoom: real): (r: Rect)
    ensures r.w == frame.w * zoom / 100.0
    ensures SameAspect(r.w, r.h, img)
    ensures r.Center() == Point(frame.x + frame.w * posX / 100.0, frame.y + frame.h * posY / 100.0)
  {
    var zoomFactor := zoom / 100.0;
    var imgWidth := frame.w * zoomFactor;
    var imgHeight := (img.height / img.width) * imgWidth;
    assert imgHeight * img.width == imgWidth * img.height;
    var imgX := frame.x + (frame.w * (posX / 100.0)) - (imgWidth / 2.0);
    var imgY := frame.y + (frame.h * (posY / 100.0)) - (imgHeight / 2.0);
    Rect(imgX, imgY, imgWidth, imgHeight)
  }

  /** At position 50/50 the photo is centred on its slot, whatever the zoom. */
  lemma GridPhotoCentredByDefault(frame: Rect, img: Image, zoom: real)
    ensures PlaceGridPhoto(frame, img, 50.0, 50.0, zoom).Center() == frame.Center()
  {
  }

  /** For a slot of positive width a larger zoom draws a strictly larger photo
      around the same centre. */
  lemma GridZoomGrowsAroundFixedCentre(frame: Rect, img: Image, posX: real, posY: real, z1: real, z2: real)
    requires frame.w > 0.0 && z1 < z2
    ensures PlaceGridPhoto(frame, img, posX, posY, z1).w < PlaceGridPhoto(frame, img, posX, posY, z2).w
    ensures PlaceGridPhoto(frame, img, posX, posY, z1).h < PlaceGridPhoto(frame, img, posX, posY, z2).h
    ensures PlaceGridPhoto(frame, img, posX, posY, z1).Center() == PlaceGridPhoto(frame, img, posX, posY, z2).Center()
  {
    var a, b := PlaceGridPhoto(frame, img, posX, posY, z1), PlaceGridPhoto(frame, img, posX, posY, z2);
    assert frame.w * z1 < frame.w * z2;
    assert a.w < b.w;
    assert a.h * img.width < b.h * img.width by {
      assert a.h * img.width == a.w * img.height;
      assert b.h * img.width == b.w * img.height;
      assert a.w * img.height < b.w * img.height;
    }
  }

  const StripHeight: real := 60.0 * Scale

  /** The caption of a slot, drawn only when one of its three texts is
      non-empty: a dark strip along the frame's bottom edge and three
      centred lines inside it. */
  function SlotCaption(frame: Rect, name: string, designation: string, wardNumber: string): (r: Option<Caption>)
    ensures r.Some? <==> (name != "" || designation != "" || wardNumber != "")
    ensures r.Some? ==>
      && r.value.strip.Bottom() == frame.Bottom() && r.value.strip.x == frame.x && r.value.strip.w == frame.w
      && |r.value.lines| == 3
      && r.value.lines[0].text == name && r.value.lines[1].text == designation
      && r.value.lines[2].text == "WARD " + wardNumber
      && (forall k :: 0 <= k < 3 ==> r.value.lines[k].at.x == frame.Center().x)
      && (forall k :: 0 <= k < 3 ==> r.value.strip.y < r.value.lines[k].at.y < r.value.strip.Bottom())
      && (forall k :: 0 <= k < 3 ==> r.value.lines[k].align == Centre && r.value.lines[k].baseline == Alphabetic)
  {
    if name != "" || designation != "" || wardNumber != "" then
      var cx := frame.x + frame.w / 2.0;
      var bottom := frame.y + frame.h;
      Some(Caption(
        Rect(frame.x, bottom - StripHeight, frame.w, StripHeight),
        [ TextLine(name, Point(cx, bottom - 35.0 * Scale), 14.0 * Scale, Centre, Alphabetic),
          TextLine(designation, Point(cx, bottom - 22.0 * Scale), 9.0 * Scale, Centre, Alphabetic),
          TextLine("WARD " + wardNumber, Point(cx, bottom - 10.0 * Scale), 10.0 * Scale, Centre, Alphabetic) ]))
    else None
  }

  // ---------------------------------------------------------------------
  // Slots
  // ---------------------------------------------------------------------

  /** A present photo whose bytes do not decode: the error that aborts the
      whole grid render. */
  predicate Fails(s: SlotFields) {
    s.photo.Some? && s.photo.value.decoded.None?
  }

  /** The ward label of slot `i`: the sent value, or its one-based number. */
  function SlotWard(i: nat, s: SlotFields): (w: string)
    ensures w != ""
  {
    TextOr(s.wardNumber, NatText(i + 1))
  }

  /** Slot `i`: nothing when no photo was sent, an error when the photo does
      not decode, otherwise the placed photo and its caption. */
  function SlotCell(i: nat, s: SlotFields): (r: Result<Option<Cell>>)
    requires i < GridSlotCount
    ensures r.Err? <==> Fails(s)
    ensures r.Ok? ==> (r.value.Some? <==> s.photo.Some?)
    ensures r.Ok? && r.value.Some? ==>
      && r.value.value.frame == SlotFrame(i)
      && r.value.value.photo.Center() == Point(SlotFrame(i).x + SlotWidth * NumberOr(s.positionX, 50.0) / 100.0,
                                               SlotFrame(i).y + SlotHeight * NumberOr(s.positionY, 50.0) / 100.0)
      && r.value.value.photo.w == SlotWidth * NumberOr(s.zoom, 100.0) / 100.0
      && r.value.value.caption.Some? && |r.value.value.caption.value.lines| == 3
      && r.value.value.caption.value.lines[0].text == TextOr(s.name, "")
      && r.value.value.caption.value.lines[1].text == TextOr(s.designation, "")
      && r.value.value.caption.value.lines[2].text == "WARD " + SlotWard(i, s)
  {
    match s.photo
    case None => Ok(None)
    case Some(upload) =>
      match upload.decoded
      case None => Err(FailureMessage)
      case Some(img) =>
        var frame := SlotFrame(i);
        var name := TextOr(s.name, "");
        var designation := TextOr(s.designation, "");
        var ward := SlotWard(i, s);
        var photo := PlaceGridPhoto(frame, img, NumberOr(s.positionX, 50.0), NumberOr(s.positionY, 50.0), NumberOr(s.zoom, 100.0));
        Ok(Some(Cell(frame, photo, SlotCaption(frame, name, designation, ward))))
  }

  /** The slots `from` onwards, in drawing order; the first photo that does
      not decode aborts. */
  function DrawSlots(slots: SlotReads, from: nat): (r: Result<seq<Option<Cell>>>)
    requires from <= GridSlotCount
    ensures r.Err? <==> exists k :: from <= k < GridSlotCount && Fails(slots[k])
    ensures r.Err? ==> r.message == FailureMessage
    ensures r.Ok? ==> |r.value| == GridSlotCount - from
    ensures r.Ok? ==> forall k :: from <= k < GridSlotCount ==> SlotCell(k, slots[k]) == Ok(r.value[k - from])
    decreases GridSlotCount - from
  {
    if from == GridSlotCount then Ok([])
    else
      match SlotCell(from, slots[from])
      case Err(m) => Err(m)
      case Ok(cell) =>
        match DrawSlots(slots, from + 1)
        case Err(m) => Err(m)
        case Ok(rest) => Ok([cell] + rest)
  }

  // ---------------------------------------------------------------------
  // Side panels and the whole poster
  // ---------------------------------------------------------------------

  /** The left panel: "UC-" and the UC number (default "91") and the area
      name (default "I-10/2") centred on the band, then the emblem logo. The
      texts are drawn before the logo is loaded, so a missing logo leaves
      them in place. */
  function PlaceLeftPanel(ucNumber: Option<string>, areaName: Option<string>, logo: Option<Image>): (p: LeftPanel)
    ensures p.ucLine.text == "UC-" + TextOr(ucNumber, "91")
    ensures p.areaLine.text == TextOr(areaName, "I-10/2")
    ensures p.ucLine.at.x == p.areaLine.at.x == LeftBand.Center().x
    ensures p.ucLine.at.y < p.areaLine.at.y
    ensures p.ucLine.align == p.areaLine.align == Centre
    ensures p.ucLine.baseline == p.areaLine.baseline == Alphabetic
    ensures p.logo.Some? <==> logo.Some?
    ensures p.logo.Some? ==> Within(p.logo.value, LeftBand)
  {
    LeftPanel(
      TextLine("UC-" + TextOr(ucNumber, "91"), Point(125.0 * Scale, 80.0 * Scale), 56.0 * Scale, Centre, Alphabetic),
      TextLine(TextOr(areaName, "I-10/2"), Point(125.0 * Scale, 115.0 * Scale), 28.0 * Scale, Centre, Alphabetic),
      if logo.Some? then Some(Rect(5.0 * Scale, 140.0 * Scale, 240.0 * Scale, 240.0 * Scale)) else None)
  }

  /** The right panel image, stretched over the right band. */
  function PlaceRightPanel(img: Option<Image>): (r: Option<Rect>)
    ensures r.Some? <==> img.Some?
    ensures r.Some? ==> r.value == RightBand
  {
    if img.Some? then Some(Rect(950.0 * Scale, 0.0, 250.0 * Scale, Height)) else None
  }

  /** The grid poster for one request: an error exactly when some sent photo
      does not decode; otherwise one cell per slot that has a photo, and
      panels whose missing images are simply left out. */
  function Render(req: Request, assets: Assets): (r: Result<Poster>)
    ensures r.Err? <==> exists k :: 0 <= k < GridSlotCount && Fails(req.slots[k])
    ensures r.Err? ==> r.message == FailureMessage
    ensures r.Ok? ==> r.value.canvas == Rect(0.0, 0.0, 3600.0, 1200.0)
    ensures r.Ok? ==> |r.value.cells| == GridSlotCount
    ensures r.Ok? ==> forall k :: 0 <= k < GridSlotCount ==> (r.value.cells[k].Some? <==> req.slots[k].photo.Some?)
    ensures r.Ok? ==> (r.value.right.Some? <==> assets.rightPanel.Some?)
  {
    match DrawSlots(req.slots, 0)
    case Err(m) => Err(m)
    case Ok(cells) =>
      Ok(Poster(Rect(0.0, 0.0, Width, Height), cells,
                PlaceLeftPanel(req.ucNumber, req.areaName, assets.tarazuLogo),
                PlaceRightPanel(assets.rightPanel)))
  }
}
