/** The page's own state and the download action: the text form, its
    per-field change handler, the download guard, the payload it posts and
    the file name it saves under. */
module Page {
  import opened Common
  import opened Defaults
  import opened Inputs
  import opened Transport
  import PhotoSlots
  import Classic
  import Grid
  import Route

  datatype Form = Form(name: string, designation: string, ucNumber: string, areaName: string, wardNumber: string)

  /** The five keys `handleInputChange` is called with. */
  datatype Field = NameField | DesignationField | UcNumberField | AreaNameField | WardNumberField

  const DefaultDesignation: string := "امیدوار برائے جنرل کونسلر"

  /** The form the page starts with. */
  function InitialForm(): (f: Form)
    ensures f.name == "" && f.designation == DefaultDesignation
    ensures f.ucNumber == "91" && f.areaName == "I-10/2" && f.wardNumber == "1"
  {
    Form("", DefaultDesignation, "91", "I-10/2", "1")
  }

  function Get(f: Form, field: Field): string {
    match field
    case NameField => f.name
    case DesignationField => f.designation
    case UcNumberField => f.ucNumber
    case AreaNameField => f.areaName
    case WardNumberField => f.wardNumber
  }

  /** `handleInputChange(field, value)`: the named field takes the value and
      every other field keeps its own. */
  function SetField(f: Form, field: Field, value: string): (r: Form)
    ensures Get(r, field) == value
    ensures forall g :: g != field ==> Get(r, g) == Get(f, g)
  {
    match field
    case NameField => f.(name := value)
    case DesignationField => f.(designation := value)
    case UcNumberField => f.(ucNumber := value)
    case AreaNameField => f.(areaName := value)
    case WardNumberField => f.(wardNumber := value)
  }

  /** Writing back a field's own value changes nothing, and of two writes to
      one field the second wins. */
  lemma SetFieldLaws(f: Form, field: Field, a: string, b: string)
    ensures SetField(f, field, Get(f, field)) == f
    ensures SetField(SetField(f, field, a), field, b) == SetField(f, field, b)
  {
  }

  // ---------------------------------------------------------------------
  // Page state
  // ---------------------------------------------------------------------

  /** The single-candidate photo state: the processed file, its preview,
      its zoom and its position in percent. */
  datatype ClassicPhoto = ClassicPhoto(processed: Option<File>, previewUrl: Option<PhotoSlots.Url>,
                                       zoom: real, positionX: real, positionY: real)

  datatype PageState = PageState(form: Form, selected: Option<string>, classic: ClassicPhoto,
                                 globalZoom: real, photos: seq<PhotoSlots.Photo>)

  /** The page as first shown: no template chosen, no photo, zoom 100,
      centred, and nine empty grid slots. */
  function InitialPage(): (s: PageState)
    ensures s.form == InitialForm() && s.selected.None?
    ensures s.classic.processed.None? && s.classic.previewUrl.None?
    ensures s.classic.zoom == 100.0 && s.classic.positionX == 50.0 && s.classic.positionY == 50.0
    ensures s.globalZoom == 100.0 && s.photos == PhotoSlots.InitialPhotos()
  {
    PageState(InitialForm(), None, ClassicPhoto(None, None, 100.0, 50.0, 50.0), 100.0, PhotoSlots.InitialPhotos())
  }

  /** `handleImageProcessed`: the processed file, its preview and the
      uploader's zoom replace the old ones; the position is kept. */
  function ImageProcessed(c: ClassicPhoto, file: File, zoom: real): (r: ClassicPhoto)
    ensures r.processed == Some(file) && r.previewUrl == PhotoSlots.PreviewOf(Some(file)) && r.zoom == zoom
    ensures r.positionX == c.positionX && r.positionY == c.positionY
  {
    c.(processed := Some(file), previewUrl := Some(PhotoSlots.ObjectUrl(file)), zoom := zoom)
  }

  /** The global zoom slider: the page's zoom and every slot's zoom take
      the new value together. */
  function ChangeGlobalZoom(s: PageState, z: real): (r: PageState)
    ensures r.globalZoom == z && |r.photos| == |s.photos|
    ensures forall j :: 0 <= j < |r.photos| ==> r.photos[j] == s.photos[j].(zoom := r.globalZoom)
    ensures r.form == s.form && r.selected == s.selected && r.classic == s.classic
  {
    s.(globalZoom := z, photos := PhotoSlots.SetGlobalZoom(s.photos, z))
  }

  /** The page's slider is the uploader's global zoom on the slots, and the
      last of two slider moves is all that remains. */
  lemma ChangeGlobalZoomLaws(s: PageState, a: real, b: real)
    ensures ChangeGlobalZoom(s, a).photos == PhotoSlots.SetGlobalZoom(s.photos, a)
    ensures ChangeGlobalZoom(ChangeGlobalZoom(s, a), b) == ChangeGlobalZoom(s, b)
  {
    var twice := ChangeGlobalZoom(ChangeGlobalZoom(s, a), b).photos;
    assert forall j :: 0 <= j < |twice| ==> twice[j] == ChangeGlobalZoom(s, b).photos[j];
  }

  /** Choosing a template and going back with "Change Template" touch only
      the selection: what was typed and uploaded survives both. */
  function Choose(s: PageState, templateId: string): (r: PageState)
    ensures r.selected == Some(templateId) && r == s.(selected := r.selected)
  {
    s.(selected := Some(templateId))
  }

  function ChangeTemplate(s: PageState): (r: PageState)
    ensures r.selected.None? && r == s.(selected := r.selected)
  {
    s.(selected := None)
  }

  /** Going back and choosing the template again restores the page. */
  lemma ChangeTemplateRoundTrip(s: PageState)
    requires s.selected.Some?
    ensures Choose(ChangeTemplate(s), s.selected.value) == s
  {
  }

  // ---------------------------------------------------------------------
  // Download as written
  // ---------------------------------------------------------------------

  datatype DownloadStep = Alert(message: string) | Send(payload: seq<Entry>, filename: string)

  /** The ten keys of the posted form, in order. */
  const PayloadKeys: seq<string> :=
    ["templateId", "name", "designation", "ucNumber", "areaName", "wardNumber",
     "image", "positionX", "positionY", "zoom"]

  /** The saved file's name, `banner-<name>-UC<ucNumber>.png`. */
  function DownloadName(form: Form): string {
    "banner-" + form.name + "-UC" + form.ucNumber + ".png"
  }

  /** `handleDownload`: nothing is sent without a name or without the
      processed single-candidate photo; otherwise the ten fields are posted,
      the template id falling back to "template1". */
  function Download(form: Form, selected: Option<string>, processed: Option<File>,
                    positionX: real, positionY: real, zoom: real): (r: DownloadStep)
    ensures r.Alert? <==> form.name == "" || processed.None?
    ensures form.name == "" ==> r == Alert("Please enter a name")
    ensures form.name != "" && processed.None? ==> r == Alert("Please upload a candidate photo")
    ensures r.Send? ==> Keys(r.payload) == PayloadKeys && r.filename == DownloadName(form)
    ensures r.Send? ==> r.payload[0].value == Str(TextOr(selected, "template1"))
  {
    if form.name == "" then Alert("Please enter a name")
    else if processed.None? then Alert("Please upload a candidate photo")
    else
      Send([ Entry("templateId", Str(TextOr(selected, "template1"))),
             Entry("name", Str(form.name)),
             Entry("designation", Str(form.designation)),
             Entry("ucNumber", Str(form.ucNumber)),
             Entry("areaName", Str(form.areaName)),
             Entry("wardNumber", Str(form.wardNumber)),
             Entry("image", Blob(processed.value)),
             Entry("positionX", Num(positionX)),
             Entry("positionY", Num(positionY)),
             Entry("zoom", Num(zoom)) ],
           DownloadName(form))
  }

  /** None of the ten keys is a per-slot key. */
  lemma PayloadHasNoSlotKeys(payload: seq<Entry>, field: string, i: nat)
    requires Keys(payload) == PayloadKeys && i < 10
    ensures Lookup(payload, SlotKey(field, i)) == None
  {
    forall k | 0 <= k < |payload| ensures payload[k].key != SlotKey(field, i) {
      assert payload[k].key == PayloadKeys[k];
      NotSlotKey(PayloadKeys[k], field, i);
    }
  }

  /** The ten keys are pairwise distinct. */
  lemma PayloadKeysDistinct()
    ensures forall i, j :: 0 <= i < j < |PayloadKeys| ==> PayloadKeys[i] != PayloadKeys[j]
  {
    assert "name"[0] != "zoom"[0];
    assert "ucNumber"[0] != "areaName"[0];
    assert "templateId"[0] != "wardNumber"[0];
    assert "positionX"[8] != "positionY"[8];
  }

  /** The route reads back what the single-candidate download sent. */
  lemma DownloadIsReceived(env: Env, form: Form, selected: Option<string>, processed: Option<File>,
                           positionX: real, positionY: real, zoom: real)
    requires Download(form, selected, processed, positionX, positionY, zoom).Send?
    ensures var req := Receive(env, Download(form, selected, processed, positionX, positionY, zoom).payload);
      && req.templateId == Some(TextOr(selected, "template1"))
      && req.name == Some(form.name) && req.designation == Some(form.designation)
      && req.ucNumber == Some(form.ucNumber) && req.areaName == Some(form.areaName)
      && req.wardNumber == Some(form.wardNumber)
      && req.image == Some(Upload(env.decode(processed.value)))
      && req.positionX == Some(positionX) && req.positionY == Some(positionY) && req.zoom == Some(zoom)
  {
    ReceiveFixedFields(env, Download(form, selected, processed, positionX, positionY, zoom).payload);
  }

  /** A payload under the ten keys is read back entry by entry. */
  lemma ReceiveFixedFields(env: Env, payload: seq<Entry>)
    requires Keys(payload) == PayloadKeys
    ensures var req := Receive(env, payload);
      && req.templateId == ReadText(env, Some(payload[0].value))
      && req.name == ReadText(env, Some(payload[1].value))
      && req.designation == ReadText(env, Some(payload[2].value))
      && req.ucNumber == ReadText(env, Some(payload[3].value))
      && req.areaName == ReadText(env, Some(payload[4].value))
      && req.wardNumber == ReadText(env, Some(payload[5].value))
      && req.image == ReadUpload(env, Some(payload[6].value))
      && req.positionX == ReadNumber(env, Some(payload[7].value))
      && req.positionY == ReadNumber(env, Some(payload[8].value))
      && req.zoom == ReadNumber(env, Some(payload[9].value))
  {
    PayloadLookup(payload, 0);
    PayloadLookup(payload, 1);
    PayloadLookup(payload, 2);
    PayloadLookup(payload, 3);
    PayloadLookup(payload, 4);
    PayloadLookup(payload, 5);
    PayloadLookup(payload, 6);
    PayloadLookup(payload, 7);
    PayloadLookup(payload, 8);
    PayloadLookup(payload, 9);
  }

  /** Entry `k` of a payload under the ten keys is the one found. */
  lemma PayloadLookup(payload: seq<Entry>, k: nat)
    requires Keys(payload) == PayloadKeys && k < 10
    ensures Lookup(payload, PayloadKeys[k]) == Some(payload[k].value)
  {
    PayloadKeysDistinct();
    LookupFirst(payload, k);
  }

  /** A position of 0 sent by the page is drawn as the default 50: the
      photo's centre lands on the canvas' middle column. */
  lemma ZeroPositionDrawnCentred(env: Env, form: Form, processed: File, positionY: real, zoom: real,
                                 assets: Assets, measure: string -> real)
    requires form.name != "" && env.decode(processed).Some?
    ensures var step := Download(form, Some("template1"), Some(processed), 0.0, positionY, zoom);
      var r := Route.Post(Receive(env, step.payload), assets, measure);
      && r.Png? && r.poster.ClassicPoster? && r.poster.classic.photo.Some?
      && r.poster.classic.photo.value.draw.Center().x == Classic.Width / 2.0
  {
    var step := Download(form, Some("template1"), Some(processed), 0.0, positionY, zoom);
    DownloadIsReceived(env, form, Some("template1"), Some(processed), 0.0, positionY, zoom);
    var req := Receive(env, step.payload);
    assert NumberOr(req.positionX, 50.0) == 50.0;
  }

  /** What the grid template's download delivers: its payload carries no
      per-slot field, so the route draws no photo at all, whatever the nine
      slots hold. */
  lemma GridDownloadDrawsNoPhotos(env: Env, form: Form, processed: Option<File>,
                                  positionX: real, positionY: real, zoom: real,
                                  assets: Assets, measure: string -> real)
    requires Download(form, Some("template2"), processed, positionX, positionY, zoom).Send?
    ensures var step := Download(form, Some("template2"), processed, positionX, positionY, zoom);
      var r := Route.Post(Receive(env, step.payload), assets, measure);
      && r.Png? && r.poster.GridPoster?
      && forall k :: 0 <= k < GridSlotCount ==> r.poster.grid.cells[k].None?
  {
    var step := Download(form, Some("template2"), processed, positionX, positionY, zoom);
    TenKeyGridRequestDrawsNoPhotos(env, step.payload, assets, measure);
  }

  /** Any grid request carried by the ten fixed keys draws an empty grid. */
  lemma TenKeyGridRequestDrawsNoPhotos(env: Env, payload: seq<Entry>, assets: Assets, measure: string -> real)
    requires Keys(payload) == PayloadKeys && payload[0].value == Str("template2")
    ensures var r := Route.Post(Receive(env, payload), assets, measure);
      && r.Png? && r.poster.GridPoster?
      && forall k :: 0 <= k < GridSlotCount ==> r.poster.grid.cells[k].None?
  {
    var req := Receive(env, payload);
    PayloadLookup(payload, 0);
    assert req.templateId == Some("template2");
    forall k | 0 <= k < GridSlotCount ensures req.slots[k].photo.None? {
      ReceiveSlot(env, payload, k);
      PayloadHasNoSlotKeys(payload, "photo", k);
    }
  }


  /** What the page makes of the route's answer once the form is sent: a
      PNG is saved under the name built from the form before sending; any
      other status is thrown and reported by one alert. */
  datatype Outcome = Saved(filename: string) | Failed(message: string)

  const GenerateFailed := "Failed to generate banner. Please try again."

  function Finish(filename: string, resp: Route.Response): (o: Outcome)
    ensures o.Saved? <==> resp.Png?
    ensures o.Saved? ==> o.filename == filename
    ensures o.Failed? ==> o.message == GenerateFailed
  {
    if resp.Png? then Saved(filename) else Failed(GenerateFailed)
  }

  /** The download as written never reaches the failure alert: the classic
      poster always renders, and the grid request it sends has no photo that
      could fail to decode. */
  lemma DownloadAlwaysSaved(env: Env, form: Form, selected: Option<string>, processed: Option<File>,
                            positionX: real, positionY: real, zoom: real,
                            assets: Assets, measure: string -> real)
    requires Download(form, selected, processed, positionX, positionY, zoom).Send?
    ensures var step := Download(form, selected, processed, positionX, positionY, zoom);
      Finish(step.filename, Route.Post(Receive(env, step.payload), assets, measure)) == Saved(DownloadName(form))
  {
    var step := Download(form, selected, processed, positionX, positionY, zoom);
    var req := Receive(env, step.payload);
    DownloadIsReceived(env, form, selected, processed, positionX, positionY, zoom);
    if selected == Some("template2") {
      GridDownloadDrawsNoPhotos(env, form, processed, positionX, positionY, zoom, assets, measure);
    } else {
      assert req.templateId != Some("template2");
      Route.UnknownTemplateRendersClassic(req, assets, measure);
    }
  }

  // ---------------------------------------------------------------------
  // Grid download as evidently intended
  // ---------------------------------------------------------------------

  /** The fields of one slot under its own keys; the photo entry only when
      the slot holds a file, and every slot with the form's designation (the
      one the preview shows under every card). */
  function SlotEntries(p: PhotoSlots.Photo, i: nat, designation: string): seq<Entry> {
    PhotoEntry(p, i) + FieldEntries(p, i, designation)
  }

  function PhotoEntry(p: PhotoSlots.Photo, i: nat): seq<Entry> {
    if p.file.Some? then [Entry(SlotKey("photo", i), Blob(p.file.value))] else []
  }

  function FieldEntries(p: PhotoSlots.Photo, i: nat, designation: string): seq<Entry> {
    [ Entry(SlotKey("name", i), Str(p.name)),
      Entry(SlotKey("designation", i), Str(designation)),
      Entry(SlotKey("wardNumber", i), Str(p.wardNumber)),
      Entry(SlotKey("positionX", i), Num(p.positionX)),
      Entry(SlotKey("positionY", i), Num(p.positionY)),
      Entry(SlotKey("zoom", i), Num(p.zoom)) ]
  }

  function AllSlotEntries(photos: seq<PhotoSlots.Photo>, from: nat, designation: string): seq<Entry>
    decreases |photos| - from
  {
    if from >= |photos| then [] else SlotEntries(photos[from], from, designation) + AllSlotEntries(photos, from + 1, designation)
  }

  /** The grid payload: the template id, the UC number and area, then the
      nine slot blocks. */
  function GridPayload(form: Form, photos: seq<PhotoSlots.Photo>): (p: seq<Entry>)
    ensures |p| >= 3 && p[0] == Entry("templateId", Str("template2"))
    ensures p[1] == Entry("ucNumber", Str(form.ucNumber)) && p[2] == Entry("areaName", Str(form.areaName))
  {
    [ Entry("templateId", Str("template2")),
      Entry("ucNumber", Str(form.ucNumber)),
      Entry("areaName", Str(form.areaName)) ]
    + AllSlotEntries(photos, 0, form.designation)
  }

  /** The grid download: sent as soon as one slot holds a photo, with the
      nine slots' files, names, wards, positions and zooms. */
  function GridDownload(form: Form, photos: seq<PhotoSlots.Photo>): (r: DownloadStep)
    ensures r.Alert? <==> forall i :: 0 <= i < |photos| ==> photos[i].file.None?
    ensures r.Alert? ==> r.message == "Please upload a candidate photo"
    ensures r.Send? ==> |r.payload| > 0 && r.payload[0] == Entry("templateId", Str("template2"))
    ensures r.Send? ==> r.filename == DownloadName(form)
  {
    if forall i :: 0 <= i < |photos| ==> photos[i].file.None? then Alert("Please upload a candidate photo")
    else Send(GridPayload(form, photos), DownloadName(form))
  }

  /** Every key of slot `i`'s block ends in the digit `i`. */
  lemma SlotBlockKeys(p: PhotoSlots.Photo, i: nat, designation: string)
    requires i < 10
    ensures var block := SlotEntries(p, i, designation);
      forall k :: 0 <= k < |block| ==> EndsIn(block[k].key, DigitChar(i))
  {
    SlotKeyLastChar("photo", i);
    SlotKeyLastChar("name", i);
    SlotKeyLastChar("designation", i);
    SlotKeyLastChar("wardNumber", i);
    SlotKeyLastChar("positionX", i);
    SlotKeyLastChar("positionY", i);
    SlotKeyLastChar("zoom", i);
  }

  /** A slot's block holds no key of another slot. */
  lemma OtherSlotBlockSilent(p: PhotoSlots.Photo, j: nat, designation: string, field: string, i: nat)
    requires i < 10 && j < 10 && i != j
    ensures Lookup(SlotEntries(p, j, designation), SlotKey(field, i)) == None
  {
    SlotBlockKeys(p, j, designation);
    SlotKeyLastChar(field, i);
    assert DigitChar(i) != DigitChar(j);
  }

  /** The blocks of the slots after `i` hold no key of slot `i`. */
  lemma {:induction false} LaterBlocksSilent(photos: seq<PhotoSlots.Photo>, from: nat, designation: string, field: string, i: nat)
    requires i < from && |photos| <= 10
    ensures Lookup(AllSlotEntries(photos, from, designation), SlotKey(field, i)) == None
    decreases |photos| - from
  {
    if from < |photos| {
      LookupAppend(SlotEntries(photos[from], from, designation), AllSlotEntries(photos, from + 1, designation), SlotKey(field, i));
      OtherSlotBlockSilent(photos[from], from, designation, field, i);
      LaterBlocksSilent(photos, from + 1, designation, field, i);
    }
  }

  /** Looking up slot `i`'s key in all the slot blocks finds it in slot
      `i`'s own block. */
  lemma {:induction false} LookupFindsOwnBlock(photos: seq<PhotoSlots.Photo>, from: nat, designation: string, field: string, i: nat)
    requires from <= i < |photos| <= 10
    ensures Lookup(AllSlotEntries(photos, from, designation), SlotKey(field, i))
         == Lookup(SlotEntries(photos[i], i, designation), SlotKey(field, i))
    decreases i - from
  {
    var key := SlotKey(field, i);
    LookupAppend(SlotEntries(photos[from], from, designation), AllSlotEntries(photos, from + 1, designation), key);
    if from < i {
      OtherSlotBlockSilent(photos[from], from, designation, field, i);
      LookupFindsOwnBlock(photos, from + 1, designation, field, i);
    } else {
      LaterBlocksSilent(photos, from + 1, designation, field, i);
    }
  }

  /** The grid payload answers slot `i`'s keys from slot `i`'s block. */
  lemma GridPayloadLookup(form: Form, photos: seq<PhotoSlots.Photo>, field: string, i: nat)
    requires i < |photos| <= 10
    ensures Lookup(GridPayload(form, photos), SlotKey(field, i))
         == Lookup(SlotEntries(photos[i], i, form.designation), SlotKey(field, i))
  {
    var head := [ Entry("templateId", Str("template2")), Entry("ucNumber", Str(form.ucNumber)),
                  Entry("areaName", Str(form.areaName)) ];
    LookupAppend(head, AllSlotEntries(photos, 0, form.designation), SlotKey(field, i));
    NotSlotKey("templateId", field, i);
    NotSlotKey("ucNumber", field, i);
    NotSlotKey("areaName", field, i);
    LookupFindsOwnBlock(photos, 0, form.designation, field, i);
  }

  /** Reading a slot's own block gives back its fields. */
  lemma SlotBlockRead(env: Env, p: PhotoSlots.Photo, i: nat, designation: string)
    requires i < 10
    ensures var b := SlotEntries(p, i, designation);
      && ReadUpload(env, Lookup(b, SlotKey("photo", i))) == (if p.file.Some? then Some(Upload(env.decode(p.file.value))) else None)
      && ReadText(env, Lookup(b, SlotKey("name", i))) == Some(p.name)
      && ReadText(env, Lookup(b, SlotKey("designation", i))) == Some(designation)
      && ReadText(env, Lookup(b, SlotKey("wardNumber", i))) == Some(p.wardNumber)
      && ReadNumber(env, Lookup(b, SlotKey("positionX", i))) == Some(p.positionX)
      && ReadNumber(env, Lookup(b, SlotKey("positionY", i))) == Some(p.positionY)
      && ReadNumber(env, Lookup(b, SlotKey("zoom", i))) == Some(p.zoom)
  {
    var head := PhotoEntry(p, i);
    var fields := FieldEntries(p, i, designation);
    SlotKeyLastChar("photo", i);
    LookupAppend(head, fields, SlotKey("photo", i));
    forall k | 0 <= k < |fields| ensures fields[k].key != SlotKey("photo", i) {
      SlotKeyLastChar(FieldNames[k], i);
    }
    FieldLookup(p, i, designation, 0);
    FieldLookup(p, i, designation, 1);
    FieldLookup(p, i, designation, 2);
    FieldLookup(p, i, designation, 3);
    FieldLookup(p, i, designation, 4);
    FieldLookup(p, i, designation, 5);
  }

  /** The names of the per-slot fields after the photo. */
  const FieldNames: seq<string> := ["name", "designation", "wardNumber", "positionX", "positionY", "zoom"]

  lemma FieldNamesDistinct()
    ensures forall a, c :: 0 <= a < c < |FieldNames| ==> FieldNames[a] != FieldNames[c]
  {
    assert "name"[0] != "zoom"[0];
    assert "positionX"[8] != "positionY"[8];
  }

  /** Slot `i`'s field entry `k` is found in its block. */
  lemma FieldLookup(p: PhotoSlots.Photo, i: nat, designation: string, k: nat)
    requires i < 10 && k < 6
    ensures var fields := FieldEntries(p, i, designation);
      Lookup(SlotEntries(p, i, designation), fields[k].key) == Some(fields[k].value)
  {
    var head := PhotoEntry(p, i);
    var fields := FieldEntries(p, i, designation);
    assert fields[k].key == SlotKey(FieldNames[k], i);
    FieldNamesDistinct();
    forall j | 0 <= j < k ensures fields[j].key != fields[k].key {
      assert fields[j].key == SlotKey(FieldNames[j], i);
      SlotKeyInjective(FieldNames[j], FieldNames[k], i);
    }
    LookupFirst(fields, k);
    SlotKeyLastChar("photo", i);
    SlotKeyLastChar(FieldNames[k], i);
    LookupAppend(head, fields, fields[k].key);
  }

  /** The route reads slot `i` of the grid payload back as the slot was on
      the page. */
  lemma GridPayloadSlotReceived(env: Env, form: Form, photos: seq<PhotoSlots.Photo>, i: nat)
    requires |photos| == PhotoSlots.SlotCount && i < PhotoSlots.SlotCount
    ensures var s := Receive(env, GridPayload(form, photos)).slots[i];
      && (s.photo.Some? <==> photos[i].file.Some?)
      && (photos[i].file.Some? ==> s.photo == Some(Upload(env.decode(photos[i].file.value))))
      && s.name == Some(photos[i].name) && s.wardNumber == Some(photos[i].wardNumber)
      && s.designation == Some(form.designation)
      && s.positionX == Some(photos[i].positionX) && s.positionY == Some(photos[i].positionY)
      && s.zoom == Some(photos[i].zoom)
  {
    var payload := GridPayload(form, photos);
    ReceiveSlot(env, payload, i);
    GridPayloadLookup(form, photos, "photo", i);
    GridPayloadLookup(form, photos, "name", i);
    GridPayloadLookup(form, photos, "designation", i);
    GridPayloadLookup(form, photos, "wardNumber", i);
    GridPayloadLookup(form, photos, "positionX", i);
    GridPayloadLookup(form, photos, "positionY", i);
    GridPayloadLookup(form, photos, "zoom", i);
    SlotBlockRead(env, photos[i], i, form.designation);
  }

  /** With the intended payload, every slot that holds a decodable photo is
      drawn and no other. */
  lemma GridDownloadDrawsEveryPhoto(env: Env, form: Form, photos: seq<PhotoSlots.Photo>,
                                    assets: Assets, measure: string -> real)
    requires |photos| == PhotoSlots.SlotCount
    requires GridDownload(form, photos).Send?
    requires forall i :: 0 <= i < |photos| && photos[i].file.Some? ==> env.decode(photos[i].file.value).Some?
    ensures var r := Route.Post(Receive(env, GridDownload(form, photos).payload), assets, measure);
      && r.Png? && r.poster.GridPoster?
      && forall k :: 0 <= k < GridSlotCount ==> (r.poster.grid.cells[k].Some? <==> photos[k].file.Some?)
  {
    var req := Receive(env, GridPayload(form, photos));
    forall k | 0 <= k < GridSlotCount
      ensures (req.slots[k].photo.Some? <==> photos[k].file.Some?) && !Grid.Fails(req.slots[k])
    {
      GridPayloadSlotReceived(env, form, photos, k);
    }
    assert req.templateId == Some("template2");
  }

  /** With the corrected payload the page's failure alert appears exactly
      when some slot holds a file that does not decode: the route's 500 for
      that slot is the only non-PNG answer. */
  lemma GridDownloadFailsOnBrokenPhoto(env: Env, form: Form, photos: seq<PhotoSlots.Photo>,
                                       assets: Assets, measure: string -> real)
    requires |photos| == PhotoSlots.SlotCount
    requires GridDownload(form, photos).Send?
    ensures var step := GridDownload(form, photos);
      Finish(step.filename, Route.Post(Receive(env, step.payload), assets, measure)).Failed? <==>
        exists k :: 0 <= k < |photos| && Broken(env, photos[k])
  {
    var step := GridDownload(form, photos);
    var req := Receive(env, GridPayload(form, photos));
    assert step.payload == GridPayload(form, photos);
    forall k | 0 <= k < GridSlotCount ensures Grid.Fails(req.slots[k]) <==> Broken(env, photos[k]) {
      GridPayloadSlotReceived(env, form, photos, k);
    }
    assert req.templateId == Some("template2");
    var resp := Route.Post(req, assets, measure);
    if exists k :: 0 <= k < |photos| && Broken(env, photos[k]) {
      var k :| 0 <= k < |photos| && Broken(env, photos[k]);
      assert Grid.Fails(req.slots[k]);
      assert resp.ServerError?;
    } else {
      assert forall k :: 0 <= k < GridSlotCount ==> !Grid.Fails(req.slots[k]);
      assert resp.Png?;
    }
  }

  /** A slot holding a file whose bytes do not decode. */
  predicate Broken(env: Env, p: PhotoSlots.Photo) {
    p.file.Some? && env.decode(p.file.value).None?
  }

}
