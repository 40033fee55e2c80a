/** What one call of the poster route reads: the form fields as the route
    sees them after `formData.get` and `parseFloat`, and the bundled assets
    as `loadImage` returned them. */
module Inputs {
  import opened Common

  /** A photo field that was present and truthy; `decoded` is what
      `loadImage` made of its bytes (None when it threw). */
  datatype Upload = Upload(decoded: Option<Image>)

  /** The per-slot fields `photo{i}`, `name{i}`, `designation{i}`,
      `wardNumber{i}`, `positionX{i}`, `positionY{i}` and `zoom{i}` of the
      grid template. Numbers are `parseFloat` results (None for NaN). */
  datatype SlotFields = SlotFields(
    photo: Option<Upload>,
    name: Option<string>,
    designation: Option<string>,
    wardNumber: Option<string>,
    positionX: Option<real>,
    positionY: Option<real>,
    zoom: Option<real>)

  const NoSlotFields := SlotFields(None, None, None, None, None, None, None)

  /** The grid template reads the fields of exactly nine slots. */
  const GridSlotCount: nat := 9

  type SlotReads = s: seq<SlotFields> | |s| == GridSlotCount
    witness seq(GridSlotCount, _ => NoSlotFields)

  /** The fields of one request. Text fields are None when absent (a
      JavaScript null); numbers are `parseFloat` results. */
  datatype Request = Request(
    templateId: Option<string>,
    name: Option<string>,
    designation: Option<string>,
    ucNumber: Option<string>,
    areaName: Option<string>,
    wardNumber: Option<string>,
    image: Option<Upload>,
    positionX: Option<real>,
    positionY: Option<real>,
    zoom: Option<real>,
    slots: SlotReads)

  /** The bundled images, each None when loading it throws. */
  datatype Assets = Assets(
    badloLogo: Option<Image>,
    tarazuLogo: Option<Image>,
    footerLogo: Option<Image>,
    rightPanel: Option<Image>)

  /** The decoded photo of a field, None when the field is absent or its
      bytes did not decode. */
  function Decoded(u: Option<Upload>): (r: Option<Image>)
    ensures r.Some? <==> u.Some? && u.value.decoded.Some?
  {
    match u
    case None => None
    case Some(up) => up.decoded
  }
}
