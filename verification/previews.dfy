/** The live previews: dragging a photo by pointer, the grid preview's two
    rows of cards with their captions, and the single-candidate preview's
    photo and text, set against what the route draws from the same data. */
module Previews {
  import opened Common
  import opened Defaults
  import opened Inputs
  import PhotoSlots
  import Page
  import Classic
  import Grid
  import Route
  import opened Transport

  // ---------------------------------------------------------------------
  // Dragging
  // ---------------------------------------------------------------------

  /** Pointer pixels per percent of position: the single-candidate preview
      divides by 5, the grid cards by 3. */
  const ClassicDragDivisor: real := 5.0
  const GridDragDivisor: real := 3.0

  /** `Math.max(0, Math.min(100, v))`. */
  function Clamp(v: real): (r: real)
    ensures 0.0 <= r <= 100.0
    ensures 0.0 <= v <= 100.0 ==> r == v
    ensures v < 0.0 ==> r == 0.0
    ensures v > 100.0 ==> r == 100.0
  {
    if v < 0.0 then 0.0 else if v > 100.0 then 100.0 else v
  }

  /** Clamping keeps order and clamping twice is clamping once. */
  lemma ClampLaws(a: real, b: real)
    ensures a <= b ==> Clamp(a) <= Clamp(b)
    ensures Clamp(Clamp(a)) == Clamp(a)
  {
  }

  /** The position one axis takes during a drag: the position at press
      time plus the pointer's travel since then, scaled down and clamped to
      the percent range. */
  function DragTo(startPos: real, startPointer: real, pointer: real, divisor: real): (r: real)
    requires divisor > 0.0
    ensures 0.0 <= r <= 100.0
    ensures 0.0 <= startPos + (pointer - startPointer) / divisor <= 100.0 ==>
      r == startPos + (pointer - startPointer) / divisor
  {
    Clamp(startPos + (pointer - startPointer) / divisor)
  }

  /** Moving the pointer further right (or down) never moves the photo back,
      and returning the pointer to where it was pressed returns the photo
      to where it was. */
  lemma DragMonotone(startPos: real, startPointer: real, p1: real, p2: real, divisor: real)
    requires divisor > 0.0 && p1 <= p2
    ensures DragTo(startPos, startPointer, p1, divisor) <= DragTo(startPos, startPointer, p2, divisor)
    ensures 0.0 <= startPos <= 100.0 ==> DragTo(startPos, startPointer, startPointer, divisor) == startPos
  {
    assert (p1 - startPointer) / divisor <= (p2 - startPointer) / divisor;
    ClampLaws(startPos + (p1 - startPointer) / divisor, startPos + (p2 - startPointer) / divisor);
  }

  /** A drag in progress: where the pointer was pressed and where the photo
      was then; every move is measured from these. */
  datatype DragSession = DragSession(startX: real, startY: real, startPosX: real, startPosY: real)

  /** One pointer move (mouse or touch) over the single-candidate preview:
      the new position of the photo. */
  function ClassicMove(d: DragSession, x: real, y: real): (r: (real, real))
    ensures 0.0 <= r.0 <= 100.0 && 0.0 <= r.1 <= 100.0
    ensures r.0 == DragTo(d.startPosX, d.startX, x, ClassicDragDivisor)
    ensures r.1 == DragTo(d.startPosY, d.startY, y, ClassicDragDivisor)
  {
    (DragTo(d.startPosX, d.startX, x, ClassicDragDivisor), DragTo(d.startPosY, d.startY, y, ClassicDragDivisor))
  }

  /** Only the pointer's travel since the press counts: two sessions that
      started from the same photo position put the photo in the same place
      for the same displacement, wherever each was pressed, and a pointer
      back at its press point puts an in-range photo back where it was. */
  lemma ClassicMoveByTravel(d: DragSession, e: DragSession, dx: real, dy: real)
    requires d.startPosX == e.startPosX && d.startPosY == e.startPosY
    ensures ClassicMove(d, d.startX + dx, d.startY + dy) == ClassicMove(e, e.startX + dx, e.startY + dy)
    ensures 0.0 <= d.startPosX <= 100.0 && 0.0 <= d.startPosY <= 100.0 ==>
      ClassicMove(d, d.startX, d.startY) == (d.startPosX, d.startPosY)
  {
    assert (d.startX + dx) - d.startX == dx == (e.startX + dx) - e.startX;
    assert (d.startY + dy) - d.startY == dy == (e.startY + dy) - e.startY;
    DragMonotone(d.startPosX, d.startX, d.startX, d.startX, ClassicDragDivisor);
    DragMonotone(d.startPosY, d.startY, d.startY, d.startY, ClassicDragDivisor);
  }

  /** Pressing a grid card: the session starts from that slot's position. */
  function BeginGridDrag(photos: seq<PhotoSlots.Photo>, index: nat, x: real, y: real): (d: DragSession)
    requires index < |photos|
    ensures d.startPosX == photos[index].positionX && d.startPosY == photos[index].positionY
    ensures d.startX == x && d.startY == y
  {
    DragSession(x, y, photos[index].positionX, photos[index].positionY)
  }

  /** One mouse move over grid card `index`: a position-only update of that
      slot. */
  function GridMove(photos: seq<PhotoSlots.Photo>, index: nat, d: DragSession, x: real, y: real): (r: seq<PhotoSlots.Photo>)
    requires index < |photos|
    ensures |r| == |photos|
    ensures forall j :: 0 <= j < |r| && j != index ==> r[j] == photos[j]
    ensures r[index] == photos[index].(positionX := r[index].positionX, positionY := r[index].positionY)
    ensures r[index].positionX == DragTo(d.startPosX, d.startX, x, GridDragDivisor)
    ensures r[index].positionY == DragTo(d.startPosY, d.startY, y, GridDragDivisor)
  {
    PhotoSlots.Merge(photos, index, PhotoSlots.NoChange.(
      positionX := Some(DragTo(d.startPosX, d.startX, x, GridDragDivisor)),
      positionY := Some(DragTo(d.startPosY, d.startY, y, GridDragDivisor))))
  }

  /** Moves do not accumulate: after any number of moves the slot sits where
      the last pointer position alone puts it. A press followed by no travel
      leaves the slot as it was. */
  lemma GridMovesLastWins(photos: seq<PhotoSlots.Photo>, index: nat, d: DragSession,
                          x1: real, y1: real, x2: real, y2: real)
    requires index < |photos|
    ensures GridMove(GridMove(photos, index, d, x1, y1), index, d, x2, y2) == GridMove(photos, index, d, x2, y2)
  {
  }

  /** Pressing and releasing without travel leaves an in-range slot as it
      was. */
  lemma GridPressWithoutTravel(photos: seq<PhotoSlots.Photo>, index: nat, x: real, y: real)
    requires index < |photos|
    requires 0.0 <= photos[index].positionX <= 100.0 && 0.0 <= photos[index].positionY <= 100.0
    ensures GridMove(photos, index, BeginGridDrag(photos, index, x, y), x, y) == photos
  {
    var r := GridMove(photos, index, BeginGridDrag(photos, index, x, y), x, y);
    DragMonotone(photos[index].positionX, x, x, x, GridDragDivisor);
    DragMonotone(photos[index].positionY, y, y, y, GridDragDivisor);
    assert r[index] == photos[index];
  }

  /** Grid drags keep every slot's preview in step with its file. */
  lemma GridMoveKeepsConsistent(photos: seq<PhotoSlots.Photo>, index: nat, d: DragSession, x: real, y: real)
    requires PhotoSlots.Consistent(photos) && index < |photos|
    ensures PhotoSlots.Consistent(GridMove(photos, index, d, x, y))
  {
  }

  // ---------------------------------------------------------------------
  // Grid preview cards
  // ---------------------------------------------------------------------

  const TopCardCount: nat := 4

  /** The two rows of cards: slots 0-3 on top, 4-8 below. */
  function Rows(photos: seq<PhotoSlots.Photo>): (rows: (seq<PhotoSlots.Photo>, seq<PhotoSlots.Photo>))
    requires |photos| == PhotoSlots.SlotCount
    ensures |rows.0| == TopCardCount && |rows.1| == PhotoSlots.SlotCount - TopCardCount
    ensures rows.0 + rows.1 == photos
  {
    (photos[..TopCardCount], photos[TopCardCount..PhotoSlots.SlotCount])
  }

  /** The slot a card shows: its column, counted on from the top row's four
      in the bottom row. */
  function CardSlot(bottomRow: bool, column: nat): nat {
    if bottomRow then column + TopCardCount else column
  }

  /** Every slot is shown by exactly one card, in the row the route draws
      it in. */
  lemma CardsCoverSlots(photos: seq<PhotoSlots.Photo>, i: nat)
    requires |photos| == PhotoSlots.SlotCount && i < PhotoSlots.SlotCount
    ensures var rows := Rows(photos);
      && (i < TopCardCount ==> rows.0[i] == photos[i] && CardSlot(false, i) == i)
      && (i >= TopCardCount ==> rows.1[i - TopCardCount] == photos[i] && CardSlot(true, i - TopCardCount) == i)
    ensures (i < TopCardCount) <==> Grid.SlotFrame(i).Bottom() <= Grid.Height / 2.0
  {
    var rows := Rows(photos);
    assert rows.0 + rows.1 == photos;
    if i < TopCardCount {
      assert photos[i] == (rows.0 + rows.1)[i];
    } else {
      assert photos[i] == (rows.0 + rows.1)[i];
    }
  }

  /** A card's caption, shown only over an uploaded photo: the name (or the
      default name), the page's designation, and the ward. */
  function CardCaption(photo: PhotoSlots.Photo, designation: string): (lines: Option<seq<string>>)
    ensures lines.Some? <==> photo.previewUrl.Some?
    ensures lines.Some? ==> |lines.value| == 3
    ensures lines.Some? ==> lines.value[0] != "" && lines.value[2] == "WARD " + photo.wardNumber
    ensures lines.Some? && photo.name != "" ==> lines.value[0] == photo.name
  {
    if photo.previewUrl.Some? then Some([TextOr(Some(photo.name), DefaultName), designation, "WARD " + photo.wardNumber])
    else None
  }

  /** The card and the poster cell show the same three texts exactly when
      the slot has a name and a ward: an empty name shows the default name
      on the card but an empty line on the poster, and an empty ward shows
      "WARD " on the card but the slot's number on the poster. */
  lemma CardCaptionMatchesPoster(photo: PhotoSlots.Photo, i: nat, designation: string, s: SlotFields)
    requires i < GridSlotCount && PhotoSlots.Consistent([photo]) && photo.file.Some?
    requires s.photo.Some? && s.photo.value.decoded.Some?
    requires s.name == Some(photo.name) && s.designation == Some(designation) && s.wardNumber == Some(photo.wardNumber)
    ensures var card := CardCaption(photo, designation);
      var cell := Grid.SlotCell(i, s);
      && card.Some? && cell.Ok? && cell.value.Some?
      && (card.value == [cell.value.value.caption.value.lines[0].text,
                        cell.value.value.caption.value.lines[1].text,
                        cell.value.value.caption.value.lines[2].text]
          <==> photo.name != "" && photo.wardNumber != "")
  {
    assert [photo][0] == photo;
    var cell := Grid.SlotCell(i, s);
    var lines := cell.value.value.caption.value.lines;
    if photo.wardNumber == "" {
      assert lines[2].text == "WARD " + NatText(i + 1);
      assert |lines[2].text| > |"WARD " + photo.wardNumber|;
    }
  }

  // ---------------------------------------------------------------------
  // Single-candidate preview
  // ---------------------------------------------------------------------

  /** How the preview places the photo, in percent of the photo area and as
      a scale factor: left edge of the centring translate at `positionX`,
      top at `positionY - 50`, scaled by `zoom / 100`. */
  datatype PreviewPhoto = PreviewPhoto(leftPercent: real, topPercent: real, scale: real)

  datatype ClassicPreview = ClassicPreview(photo: Option<PreviewPhoto>, ucLines: seq<string>, bottomLines: seq<string>)

  /** The single-candidate preview: the photo only once one is uploaded,
      the UC block as typed, and the name (or the default name), the
      designation and the ward under the photo. */
  function PreviewClassic(form: Page.Form, c: Page.ClassicPhoto): (v: ClassicPreview)
    ensures v.photo.Some? <==> c.previewUrl.Some?
    ensures v.photo.Some? ==> v.photo.value.leftPercent == c.positionX && v.photo.value.scale * 100.0 == c.zoom
    ensures v.ucLines == ["UC", form.ucNumber, form.areaName]
    ensures |v.bottomLines| == 3 && v.bottomLines[0] != ""
    ensures form.name != "" ==> v.bottomLines[0] == form.name
    ensures v.bottomLines[1] == form.designation && v.bottomLines[2] == "WARD " + form.wardNumber
  {
    ClassicPreview(
      if c.previewUrl.Some? then Some(PreviewPhoto(c.positionX, c.positionY - 50.0, c.zoom / 100.0)) else None,
      ["UC", form.ucNumber, form.areaName],
      [TextOr(Some(form.name), DefaultName), form.designation, "WARD " + form.wardNumber])
  }

  /** What the preview shows is what the downloaded poster draws: the same
      texts, the photo's centre at the same fraction of the width, and the
      same zoom factor on the photo's base height, as long as neither the
      horizontal position nor the zoom is 0 (the route reads a 0 as
      missing). */
  lemma ClassicPreviewMatchesPoster(env: Env, form: Page.Form, c: Page.ClassicPhoto,
                                    assets: Assets, measure: string -> real)
    requires form.name != "" && c.processed.Some? && c.previewUrl == PhotoSlots.PreviewOf(c.processed)
    requires env.decode(c.processed.value).Some?
    requires c.positionX != 0.0 && c.zoom != 0.0
    ensures var step := Page.Download(form, Some("template1"), c.processed, c.positionX, c.positionY, c.zoom);
      PreviewMatches(PreviewClassic(form, c), Route.Post(Receive(env, step.payload), assets, measure))
  {
    var step := Page.Download(form, Some("template1"), c.processed, c.positionX, c.positionY, c.zoom);
    Page.DownloadIsReceived(env, form, Some("template1"), c.processed, c.positionX, c.positionY, c.zoom);
    RequestMatchesPreview(Receive(env, step.payload), form, c, assets, measure);
  }

  /** The poster shows the preview's texts, and its photo sits at the
      preview's horizontal fraction with the preview's zoom factor. */
  predicate PreviewMatches(v: ClassicPreview, r: Route.Response) {
    && r.Png? && r.poster.ClassicPoster? && r.poster.classic.photo.Some? && v.photo.Some?
    && |r.poster.classic.ucBlock| == 3 && |r.poster.classic.bottom| == 3
    && |v.ucLines| == 3 && |v.bottomLines| == 3
    && r.poster.classic.photo.value.draw.Center().x * 100.0 == Classic.Width * v.photo.value.leftPercent
    && r.poster.classic.photo.value.draw.h * 100.0 == Classic.BasePhotoHeight * (v.photo.value.scale * 100.0)
    && r.poster.classic.ucBlock[1].text == v.ucLines[1] && r.poster.classic.ucBlock[2].text == v.ucLines[2]
    && r.poster.classic.bottom[2].text == v.bottomLines[0]
    && r.poster.classic.bottom[1].text == v.bottomLines[1]
    && r.poster.classic.bottom[0].text == v.bottomLines[2]
  }

  lemma RequestMatchesPreview(req: Request, form: Page.Form, c: Page.ClassicPhoto,
                              assets: Assets, measure: string -> real)
    requires form.name != "" && c.processed.Some? && c.previewUrl == PhotoSlots.PreviewOf(c.processed)
    requires c.positionX != 0.0 && c.zoom != 0.0
    requires req.templateId == Some("template1") && Decoded(req.image).Some?
    requires req.name == Some(form.name) && req.designation == Some(form.designation)
    requires req.ucNumber == Some(form.ucNumber) && req.areaName == Some(form.areaName)
    requires req.wardNumber == Some(form.wardNumber)
    requires req.positionX == Some(c.positionX) && req.zoom == Some(c.zoom)
    ensures PreviewMatches(PreviewClassic(form, c), Route.Post(req, assets, measure))
  {
    Route.UnknownTemplateRendersClassic(req, assets, measure);
    assert NumberOr(req.positionX, 50.0) == c.positionX;
    assert NumberOr(req.zoom, 100.0) == c.zoom;
  }
}
