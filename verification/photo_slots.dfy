/** The grid template's client state: a fixed-length array of nine photo
    slots and the operations the uploader and the page apply to it. Every
    operation returns a new array of the same length. */
module PhotoSlots {
  import opened Common

  /** The URL `URL.createObjectURL(file)` minted for a file. */
  datatype Url = ObjectUrl(of: File)

  datatype Photo = Photo(
    file: Option<File>,
    previewUrl: Option<Url>,
    zoom: real,
    positionX: real,
    positionY: real,
    name: string,
    wardNumber: string)

  const SlotCount: nat := 9

  /** At most this many files of one drop are used. */
  const MaxDrop: nat := 9

  /** The preview URL that belongs with a file choice. */
  function PreviewOf(file: Option<File>): Option<Url> {
    match file
    case None => None
    case Some(f) => Some(ObjectUrl(f))
  }

  /** Every slot shows the preview of exactly the file it holds. */
  predicate Consistent(ps: seq<Photo>) {
    forall i :: 0 <= i < |ps| ==> ps[i].previewUrl == PreviewOf(ps[i].file)
  }

  /** The empty slot `i`: no file, centred, no name, its one-based ward. */
  function EmptySlot(i: nat, zoom: real): Photo {
    Photo(None, None, zoom, 50.0, 50.0, "", NatText(i + 1))
  }

  /** `after` is `before` with `file` chosen at zoom `zoom`: its name, ward
      and position are kept. */
  predicate Loaded(before: Photo, after: Photo, file: File, zoom: real) {
    && after.file == Some(file) && after.previewUrl == Some(ObjectUrl(file)) && after.zoom == zoom
    && after.positionX == before.positionX && after.positionY == before.positionY
    && after.name == before.name && after.wardNumber == before.wardNumber
  }

  function LoadPhoto(p: Photo, file: File, zoom: real): (q: Photo)
    ensures Loaded(p, q, file, zoom)
  {
    p.(file := Some(file), previewUrl := Some(ObjectUrl(file)), zoom := zoom)
  }

  // ---------------------------------------------------------------------
  // Initial state
  // ---------------------------------------------------------------------

  /** The page's initial array: nine empty slots at zoom 100, slot `i`
      labelled ward `i + 1`. */
  function InitialPhotos(): (ps: seq<Photo>)
    ensures |ps| == SlotCount && Consistent(ps)
    ensures forall i :: 0 <= i < SlotCount ==>
      && ps[i].file.None? && ps[i].zoom == 100.0
      && ps[i].positionX == 50.0 && ps[i].positionY == 50.0
      && ps[i].name == "" && ps[i].wardNumber == NatText(i + 1)
  {
    seq(SlotCount, i requires 0 <= i < SlotCount => EmptySlot(i, 100.0))
  }

  /** The initial ward labels are pairwise distinct. */
  lemma InitialWardsDistinct(i: nat, j: nat)
    requires i < SlotCount && j < SlotCount && i != j
    ensures InitialPhotos()[i].wardNumber != InitialPhotos()[j].wardNumber
  {
    NatTextInjective(i + 1, j + 1);
  }

  // ---------------------------------------------------------------------
  // Uploader operations
  // ---------------------------------------------------------------------

  /** A batch drop: the first `min(|files|, 9)` files go to slots
      `0, 1, …` in order, each at the global zoom; every other slot is left
      as it was. */
  method Drop(photos: seq<Photo>, files: seq<File>, globalZoom: real) returns (r: seq<Photo>)
    requires (if |files| < MaxDrop then |files| else MaxDrop) <= |photos|
    ensures |r| == |photos|
    ensures forall i :: 0 <= i < |r| && i < |files| && i < MaxDrop ==> Loaded(photos[i], r[i], files[i], globalZoom)
    ensures forall i :: 0 <= i < |r| && (i >= |files| || i >= MaxDrop) ==> r[i] == photos[i]
  {
    var accepted := if |files| < MaxDrop then files else files[..MaxDrop];
    r := photos;
    var index := 0;
    while index < |accepted|
      invariant index <= |accepted| <= |photos| && |r| == |photos|
      invariant forall i :: 0 <= i < index ==> Loaded(photos[i], r[i], files[i], globalZoom)
      invariant forall i :: index <= i < |r| ==> r[i] == photos[i]
    {
      r := r[index := LoadPhoto(r[index], accepted[index], globalZoom)];
      index := index + 1;
    }
  }

  /** A file chosen for one slot: only that slot changes. */
  function Upload(photos: seq<Photo>, index: nat, file: File, globalZoom: real): (r: seq<Photo>)
    requires index < |photos|
    ensures |r| == |photos|
    ensures Loaded(photos[index], r[index], file, globalZoom)
    ensures forall j :: 0 <= j < |r| && j != index ==> r[j] == photos[j]
  {
    photos[index := LoadPhoto(photos[index], file, globalZoom)]
  }

  /** A new name for one slot: only that slot's name changes. */
  function Rename(photos: seq<Photo>, index: nat, name: string): (r: seq<Photo>)
    requires index < |photos|
    ensures |r| == |photos|
    ensures r[index].name == name
    ensures r[index] == photos[index].(name := r[index].name)
    ensures forall j :: 0 <= j < |r| && j != index ==> r[j] == photos[j]
  {
    photos[index := photos[index].(name := name)]
  }

  /** Clearing a slot resets it to an empty slot at the global zoom; other
      slots are untouched. */
  function Clear(photos: seq<Photo>, index: nat, globalZoom: real): (r: seq<Photo>)
    requires index < |photos|
    ensures |r| == |photos|
    ensures r[index].file.None? && r[index].previewUrl.None? && r[index].zoom == globalZoom
    ensures r[index].positionX == 50.0 && r[index].positionY == 50.0 && r[index].name == ""
    ensures r[index].wardNumber == NatText(index + 1)
    ensures forall j :: 0 <= j < |r| && j != index ==> r[j] == photos[j]
  {
    photos[index := EmptySlot(index, globalZoom)]
  }

  /** The global zoom slider: every slot takes the new zoom, nothing else
      changes. */
  function SetGlobalZoom(photos: seq<Photo>, newZoom: real): (r: seq<Photo>)
    ensures |r| == |photos|
    ensures forall j :: 0 <= j < |r| ==> r[j].zoom == newZoom && r[j] == photos[j].(zoom := r[j].zoom)
  {
    seq(|photos|, j requires 0 <= j < |photos| => photos[j].(zoom := newZoom))
  }

  // ---------------------------------------------------------------------
  // The page's partial-update merge
  // ---------------------------------------------------------------------

  /** A `Partial<PhotoData>`: None leaves a field as it is. */
  datatype PhotoUpdate = PhotoUpdate(
    file: Option<Option<File>>,
    previewUrl: Option<Option<Url>>,
    zoom: Option<real>,
    positionX: Option<real>,
    positionY: Option<real>,
    name: Option<string>,
    wardNumber: Option<string>)

  const NoChange := PhotoUpdate(None, None, None, None, None, None, None)

  /** `{ ...photo, ...updates }`: the fields the update carries win. */
  function Apply(p: Photo, u: PhotoUpdate): Photo {
    Photo(u.file.GetOr(p.file), u.previewUrl.GetOr(p.previewUrl), u.zoom.GetOr(p.zoom),
          u.positionX.GetOr(p.positionX), u.positionY.GetOr(p.positionY),
          u.name.GetOr(p.name), u.wardNumber.GetOr(p.wardNumber))
  }

  /** `onPhotoUpdate(index, updates)`: only slot `index` changes, and in it
      only the fields the update carries. */
  function Merge(photos: seq<Photo>, index: nat, u: PhotoUpdate): (r: seq<Photo>)
    requires index < |photos|
    ensures |r| == |photos|
    ensures forall j :: 0 <= j < |r| && j != index ==> r[j] == photos[j]
    ensures u.name.None? ==> r[index].name == photos[index].name
    ensures u.wardNumber.None? ==> r[index].wardNumber == photos[index].wardNumber
    ensures u.file.None? ==> r[index].file == photos[index].file
    ensures u.previewUrl.None? ==> r[index].previewUrl == photos[index].previewUrl
    ensures u.zoom.None? ==> r[index].zoom == photos[index].zoom
    ensures u.positionX.None? ==> r[index].positionX == photos[index].positionX
    ensures u.positionY.None? ==> r[index].positionY == photos[index].positionY
    ensures u.name.Some? ==> r[index].name == u.name.value
    ensures u.positionX.Some? ==> r[index].positionX == u.positionX.value
    ensures u.positionY.Some? ==> r[index].positionY == u.positionY.value
    ensures u.wardNumber.Some? ==> r[index].wardNumber == u.wardNumber.value
    ensures u.file.Some? ==> r[index].file == u.file.value
    ensures u.previewUrl.Some? ==> r[index].previewUrl == u.previewUrl.value
    ensures u.zoom.Some? ==> r[index].zoom == u.zoom.value
  {
    photos[index := Apply(photos[index], u)]
  }

  // ---------------------------------------------------------------------
  // Relations between the operations
  // ---------------------------------------------------------------------

  /** An empty update changes nothing. */
  lemma MergeNoChange(photos: seq<Photo>, index: nat)
    requires index < |photos|
    ensures Merge(photos, index, NoChange) == photos
  {
    assert Apply(photos[index], NoChange) == photos[index];
  }

  /** Renaming is the merge of a name-only update. */
  lemma RenameIsNameMerge(photos: seq<Photo>, index: nat, name: string)
    requires index < |photos|
    ensures Rename(photos, index, name) == Merge(photos, index, NoChange.(name := Some(name)))
  {
  }

  /** Renaming twice keeps only the second name; renaming to the current
      name changes nothing. */
  lemma RenameLastWins(photos: seq<Photo>, index: nat, a: string, b: string)
    requires index < |photos|
    ensures Rename(Rename(photos, index, a), index, b) == Rename(photos, index, b)
    ensures Rename(photos, index, photos[index].name) == photos
  {
  }

  /** Clearing forgets an upload into the same slot, and clearing twice is
      clearing once. */
  lemma ClearForgetsUpload(photos: seq<Photo>, index: nat, file: File, z1: real, z2: real)
    requires index < |photos|
    ensures Clear(Upload(photos, index, file, z1), index, z2) == Clear(photos, index, z2)
    ensures Clear(Clear(photos, index, z2), index, z2) == Clear(photos, index, z2)
  {
  }

  /** Clearing a slot of the initial array at the initial zoom changes
      nothing: cleared slots look like fresh ones. */
  lemma ClearInitialIsIdentity(index: nat)
    requires index < SlotCount
    ensures Clear(InitialPhotos(), index, 100.0) == InitialPhotos()
  {
    var ps := InitialPhotos();
    assert ps[index] == EmptySlot(index, 100.0);
    assert ps[index := EmptySlot(index, 100.0)] == ps;
  }

  /** Setting the global zoom is idempotent, the last setting wins, and it
      commutes with renaming. */
  lemma {:induction false} GlobalZoomLaws(photos: seq<Photo>, z1: real, z2: real, index: nat, name: string)
    requires index < |photos|
    ensures SetGlobalZoom(SetGlobalZoom(photos, z1), z1) == SetGlobalZoom(photos, z1)
    ensures SetGlobalZoom(SetGlobalZoom(photos, z1), z2) == SetGlobalZoom(photos, z2)
    ensures SetGlobalZoom(Rename(photos, index, name), z1) == Rename(SetGlobalZoom(photos, z1), index, name)
  {
    var a := SetGlobalZoom(SetGlobalZoom(photos, z1), z2);
    var b := SetGlobalZoom(photos, z2);
    assert forall j :: 0 <= j < |a| ==> a[j] == b[j];
    var c := SetGlobalZoom(Rename(photos, index, name), z1);
    var d := Rename(SetGlobalZoom(photos, z1), index, name);
    assert forall j :: 0 <= j < |c| ==> c[j] == d[j];
  }

  /** Every uploader operation keeps each slot's preview in step with its
      file. */
  lemma OperationsKeepConsistent(photos: seq<Photo>, index: nat, file: File, z: real, name: string)
    requires Consistent(photos) && index < |photos|
    ensures Consistent(Upload(photos, index, file, z))
    ensures Consistent(Rename(photos, index, name))
    ensures Consistent(Clear(photos, index, z))
    ensures Consistent(SetGlobalZoom(photos, z))
  {
  }
}
