/** The poster route's entry point: template dispatch and the response. */
module Route {
  import opened Common
  import opened Defaults
  import opened Inputs
  import Classic
  import Grid

  datatype Template = ClassicTemplate | GridTemplate

  datatype Poster = ClassicPoster(classic: Classic.Poster) | GridPoster(grid: Grid.Poster)

  /** A PNG attachment with its suggested file name, or a JSON error. */
  datatype Response =
    | Png(filename: string, poster: Poster)
    | ServerError(status: int, message: string)

  /** `templateId` falls back to "template1"; only the exact text
      "template2" selects the grid, every other id renders the classic
      poster. */
  function SelectTemplate(templateId: Option<string>): (t: Template)
    ensures t == GridTemplate <==> templateId == Some("template2")
  {
    if TextOr(templateId, "template1") == "template2" then GridTemplate else ClassicTemplate
  }

  /** One POST: the grid poster when selected, failing with status 500 when
      one of its photos does not decode; otherwise the classic poster, which
      never fails on a missing or broken asset. */
  function Post(req: Request, assets: Assets, measure: string -> real): (r: Response)
    ensures r.ServerError? <==>
      req.templateId == Some("template2") && exists k :: 0 <= k < GridSlotCount && Grid.Fails(req.slots[k])
    ensures r.ServerError? ==> r.status == 500 && r.message == "Failed to generate Template 2"
    ensures r.Png? ==> (r.poster.GridPoster? <==> req.templateId == Some("template2"))
    ensures r.Png? && r.poster.ClassicPoster? ==>
      r.filename == "banner.png" && r.poster.classic.canvas == Rect(0.0, 0.0, 3000.0, 4998.0)
    ensures r.Png? && r.poster.GridPoster? ==>
      r.filename == "banner-template2.png" && r.poster.grid.canvas == Rect(0.0, 0.0, 3600.0, 1200.0)
    ensures r.Png? && r.poster.GridPoster? ==> |r.poster.grid.cells| == GridSlotCount
    ensures r.Png? && r.poster.GridPoster? ==>
      forall k :: 0 <= k < |r.poster.grid.cells| ==> (r.poster.grid.cells[k].Some? <==> req.slots[k].photo.Some?)
  {
    match SelectTemplate(req.templateId)
    case GridTemplate =>
      (match Grid.Render(req, assets)
       case Err(m) => ServerError(500, m)
       case Ok(p) => Png("banner-template2.png", GridPoster(p)))
    case ClassicTemplate =>
      Png("banner.png", ClassicPoster(Classic.Render(req, assets, measure)))
  }

  /** A missing, empty or unknown template id is not an error: it renders the
      classic poster. */
  lemma UnknownTemplateRendersClassic(req: Request, assets: Assets, measure: string -> real)
    requires req.templateId != Some("template2")
    ensures Post(req, assets, measure).Png?
    ensures Post(req, assets, measure).poster == ClassicPoster(Classic.Render(req, assets, measure))
  {
  }

  /** A grid request whose photos all decode, or that sends none, renders. */
  lemma GridWithoutBrokenPhotosRenders(req: Request, assets: Assets, measure: string -> real)
    requires req.templateId == Some("template2")
    requires forall k :: 0 <= k < GridSlotCount ==> Decoded(req.slots[k].photo).Some? || req.slots[k].photo.None?
    ensures Post(req, assets, measure).Png?
  {
  }
}
