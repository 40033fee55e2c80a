# Banner portal: poster layout and page state, in Dafny

This project models the election-poster generator of the banner portal.
The server route turns a posted form into one of two posters:

- the single-candidate poster ("template1"), 500×833 at scale 6;
- the nine-candidate grid ("template2"), 1200×400 at scale 3.

The browser page holds the form, the single photo and the nine grid slots.
It offers drag-to-position previews and posts the download request.

The model is pure functions over immutable datatypes. Drawing becomes a
description of what lands where: rectangles, text lines with their anchor,
alignment and baseline, and optional fade masks. The foreign parts come in
as parameters:

- image decoding (`loadImage`) is an `Option<Image>`;
- `parseFloat` is an `Option<real>`, with `None` standing for NaN;
- `measureText` is a function `string -> real`;
- `URL.createObjectURL` is an abstract handle `ObjectUrl(file)`.

JavaScript numbers are exact reals.

Modules:

- `Common` holds the shared data: options, results, points, rectangles, image
  sizes, files and decimal numerals.
- `Defaults` holds the `x || d` and `parseFloat(x) || d` fallbacks and the
  JavaScript `null`-to-string conversion.
- `TextLayout` holds the moving text cursors of the route: vertical stacks and
  right-to-left runs.
- `Inputs` is the request the route reads, with the bundled assets.
- `Classic` is the single-candidate poster.
- `Grid` is the nine-slot poster.
- `Route` holds the template dispatch and the response.
- `Transport` models `FormData`: `append`, then `get` returning the first
  entry, read as text, as a number or as a file.
- `PhotoSlots` holds the nine-slot array and the uploader operations.
- `Page` holds the page's form and state, the download action as written, and
  a corrected grid download.
- `Previews` holds pointer dragging, the preview cards and the
  single-candidate preview, each compared with the poster.

## Model

| member | source | states |
|---|---|---|
| Common.NatText | app/api/generate-banner/route.ts:42 | The decimal text of a slot number is non-empty, all digits and has no leading zero. |
| Common.NatTextRoundTrip | app/api/generate-banner/route.ts:42 | Reading the decimal text of `n` back gives `n`. |
| Common.NatTextInjective | app/page.tsx:48 | Different numbers have different decimal texts. |
| Common.DigitChar | app/api/generate-banner/route.ts:39-45 | The character for a digit is a decimal digit whose value is that digit. |
| Defaults.NumberOr | app/api/generate-banner/route.ts:154-156 | `parseFloat(v) \|\| d` keeps a parsed non-zero number and gives `d` for NaN or 0. |
| Defaults.NumberOrNonZero | app/api/generate-banner/route.ts:43-45 | With a non-zero default the result is never 0. It equals the default exactly when the input was NaN, 0 or the default itself. |
| Defaults.TextOr | app/api/generate-banner/route.ts:147 | `s \|\| d` keeps a non-empty string and gives `d` for null or "". |
| Defaults.TextOrNonEmpty | app/api/generate-banner/route.ts:40-42 | With a non-empty default the result is non-empty, and applying the fallback again changes nothing. |
| Defaults.Coerce | app/api/generate-banner/route.ts:148-152 | A string is drawn as itself. A missing field (null) is drawn as "null". |
| TextLayout.Cursor | app/api/generate-banner/route.ts:306-311 | Each cursor position is the previous one moved by that step, starting from the start. |
| TextLayout.CursorClosedForm | app/api/generate-banner/route.ts:320-341 | The position after `k` steps is the start plus the sum of the first `k` steps. |
| TextLayout.CursorDecreasing | app/api/generate-banner/route.ts:337-341 | If every step is negative, later lines sit strictly higher. |
| TextLayout.CursorIncreasing | app/api/generate-banner/route.ts:305-315 | If every step is positive, later lines sit strictly lower. |
| TextLayout.RunStepsSum | app/api/generate-banner/route.ts:270-278 | The first `k` moves total minus the first `k` widths and `k` gaps. |
| TextLayout.RunEdgeClosedForm | app/api/generate-banner/route.ts:270-282 | Run `k`'s right edge is the anchor less the earlier runs' widths and one gap per earlier run. |
| TextLayout.RunEdgesDecreasing | app/api/generate-banner/route.ts:270-282 | With non-negative widths and a positive gap, runs are placed strictly right to left. |
| Inputs.Decoded | app/api/generate-banner/route.ts:210-213 | A photo is drawable exactly when it was sent and its bytes decode. |
| Classic.FitLogo | app/api/generate-banner/route.ts:192-206 | The logo keeps its aspect ratio and stays within both caps. It reaches one of the caps and is centred on the top bar. |
| Classic.WideLogoFits | app/api/generate-banner/route.ts:198-201 | When the logo is too wide at the height cap, the width cap gives a height within the height cap, at the same aspect ratio. |
| Classic.FitLogoIsLargest | app/api/generate-banner/route.ts:192-201 | Every same-aspect size within the caps is at most the fitted size in both dimensions. |
| Classic.PlacePhoto | app/api/generate-banner/route.ts:215-240 | Height is 92% of the band times zoom/100, and the aspect ratio is kept. The centre is at (posX% of the width, posY% down the band). The fade exists exactly when zoom > 0, runs from 50% to 85% of the photo, and masks to the canvas bottom. |
| Classic.ClassicZoomGrowsAroundFixedCentre | app/api/generate-banner/route.ts:218-224 | A larger zoom gives a strictly larger photo around the same centre. |
| Classic.PlaceEmblem | app/api/generate-banner/route.ts:246-285 | The emblem is drawn exactly when the logo loads, with its three caption runs in order. Every run is right-aligned with a top baseline, so its anchor is its right edge. Each run's anchor is the previous one less its measured width and 6×scale. |
| Classic.EmblemRunsRightToLeft | app/api/generate-banner/route.ts:270-282 | With non-negative text widths the three runs sit strictly right to left. |
| Classic.UcBlock | app/api/generate-banner/route.ts:288-318 | The lines are "UC", the UC number and the area. All three are right-aligned with a top baseline at x = width − 80×scale, at y = 170, 223 and 280 (×scale). |
| Classic.BottomBlock | app/api/generate-banner/route.ts:319-341 | Ward, designation and name (or the default name) are centre-aligned on the alphabetic baseline at x = width/2. They are stacked upward from height − 112×scale by 40 and then 50 (×scale). |
| Classic.FitFooter | app/api/generate-banner/route.ts:343-351 | The footer logo is 48×scale high, keeps its aspect ratio, is centred, and ends 32×scale above the bottom. |
| Classic.Render | app/api/generate-banner/route.ts:168-357 | The canvas is 3000×4998. Each asset is drawn exactly when it loads, and the photo exactly when it decodes. Position and zoom take their defaults. The texts are those received. |
| Grid.SlotFrame | app/api/generate-banner/route.ts:51-65 | Every slot is 420×510 inside the centre band. Slots 0-3 lie in the top half and the others in the bottom half. |
| Grid.SlotsAdjacent | app/api/generate-banner/route.ts:56-64 | Neighbouring slots in a row touch, with spacing 0. |
| Grid.RowsCentred | app/api/generate-banner/route.ts:58-62 | Both rows are centred on the canvas. |
| Grid.SlotsDisjoint | app/api/generate-banner/route.ts:52-65 | No two slot frames overlap. |
| Grid.BandsTileCanvas | app/api/generate-banner/route.ts:58-59 | The left panel, the centre band and the right panel tile the canvas width. |
| Grid.PlaceGridPhoto | app/api/generate-banner/route.ts:73-79 | Width is the frame width times zoom/100, and the aspect ratio is kept. The centre is at (posX%, posY%) of the frame. |
| Grid.GridPhotoCentredByDefault | app/api/generate-banner/route.ts:43-44 | At the default position 50/50 the photo is centred on its frame. |
| Grid.GridZoomGrowsAroundFixedCentre | app/api/generate-banner/route.ts:73-77 | A larger zoom gives a strictly larger photo around the same centre. |
| Grid.SlotCaption | app/api/generate-banner/route.ts:83-97 | The caption is drawn exactly when a text is non-empty. Its strip sits on the frame's bottom edge. Its three lines are centre-aligned, on the alphabetic baseline, at the frame's centre x and inside the strip. |
| Grid.SlotWard | app/api/generate-banner/route.ts:42 | A slot's ward label is never empty. |
| Grid.SlotCell | app/api/generate-banner/route.ts:39-98 | A slot fails exactly when its photo does not decode, and is drawn exactly when a photo was sent. The drawn slot has its frame, the defaulted position and zoom, and the caption texts. |
| Grid.DrawSlots | app/api/generate-banner/route.ts:38-99 | The loop fails exactly when some slot's photo fails. Otherwise each cell is that slot's drawing. |
| Grid.PlaceLeftPanel | app/api/generate-banner/route.ts:102-122 | The left panel shows "UC-" + the UC number (default 91) above the area (default I-10/2). Both are centre-aligned on the alphabetic baseline at the panel's centre x. The logo is drawn exactly when it loads, and inside the panel. |
| Grid.PlaceRightPanel | app/api/generate-banner/route.ts:125-131 | The right panel fills its band exactly when it loads. |
| Grid.Render | app/api/generate-banner/route.ts:21-141 | The render fails with "Failed to generate Template 2" exactly when some sent photo does not decode. Otherwise it gives a 3600×1200 poster with a cell for each sent photo. |
| Route.SelectTemplate | app/api/generate-banner/route.ts:147-163 | The grid is chosen exactly for the id "template2". |
| Route.Post | app/api/generate-banner/route.ts:144-163 | The response is a 500 exactly for a grid request with a broken photo. Otherwise it is a PNG named banner.png or banner-template2.png, of the template's size. |
| Route.UnknownTemplateRendersClassic | app/api/generate-banner/route.ts:147-165 | Any other id, or none, renders the single-candidate poster. |
| Route.GridWithoutBrokenPhotosRenders | app/api/generate-banner/route.ts:37-49 | A grid request whose photos all decode, or are absent, renders. |
| Transport.Lookup | app/api/generate-banner/route.ts:39-45 | `get` finds nothing exactly when no entry has the key. |
| Transport.LookupFirst | app/api/generate-banner/route.ts:147-156 | The first entry under a key is the one returned. |
| Transport.LookupAppend | app/page.tsx:71-81 | Looking up in two appended entry lists finds the key in the first list if it is there. |
| Transport.SlotKeyLastChar | app/api/generate-banner/route.ts:39-45 | A single-digit slot's key ends in that digit. |
| Transport.SlotKeyInjective | app/api/generate-banner/route.ts:39-45 | One slot's keys for different fields differ. |
| Transport.NotSlotKey | app/api/generate-banner/route.ts:147-156 | A key not ending in a digit is never a slot key. |
| Transport.SlotKeysOfOtherSlot | app/api/generate-banner/route.ts:38-45 | Keys of different slots differ. |
| Transport.ReadText | app/api/generate-banner/route.ts:148-152 | `get(key) as string` is null exactly when the key is absent, and a sent string reads back as itself. |
| Transport.ReadNumber | app/api/generate-banner/route.ts:154-156 | `parseFloat` of a missing entry or a file is NaN, and a sent number reads back as itself. |
| Transport.ReadUpload | app/api/generate-banner/route.ts:153 | The photo is absent exactly when the key is missing or holds "". It is drawable exactly when a file was sent and decodes. |
| Transport.ReadSlot | app/api/generate-banner/route.ts:38-45 | A slot's name or ward is null exactly when its key was never sent. Only a file sent under `photo{i}` can be drawn. |
| Transport.Receive | app/api/generate-banner/route.ts:147-156 | The template id is missing exactly when no entry carries it. Only a file sent under `image` can be drawn. |
| PhotoSlots.LoadPhoto | components/MultiPhotoUploader.tsx:51-58 | Loading a file sets the file, its preview and the zoom, and keeps the name, ward and position. |
| PhotoSlots.InitialPhotos | app/page.tsx:32-50 | There are nine empty slots at zoom 100, centred, and slot `i` is ward `i+1`. |
| PhotoSlots.InitialWardsDistinct | app/page.tsx:41-49 | The initial ward labels are pairwise distinct. |
| PhotoSlots.Drop | components/MultiPhotoUploader.tsx:26-39 | The first min(n, 9) files load into slots 0… in order at the global zoom. Every other slot is unchanged. |
| PhotoSlots.Upload | components/MultiPhotoUploader.tsx:51-60 | Only the chosen slot changes, and it is loaded. |
| PhotoSlots.Rename | components/MultiPhotoUploader.tsx:63-67 | Only the chosen slot's name changes. |
| PhotoSlots.Clear | components/MultiPhotoUploader.tsx:70-82 | The slot becomes empty at the global zoom, centred, with its own ward number. The others are unchanged. |
| PhotoSlots.SetGlobalZoom | components/MultiPhotoUploader.tsx:85-92 | Every slot takes the new zoom, and nothing else changes. |
| PhotoSlots.Merge | app/page.tsx:458-462 | Only slot `index` changes. Each field the update carries takes the update's value, and every other field keeps its own. |
| PhotoSlots.MergeNoChange | app/page.tsx:458-462 | An empty update changes nothing. |
| PhotoSlots.RenameIsNameMerge | components/MultiPhotoUploader.tsx:63-67 | Renaming is a name-only merge. |
| PhotoSlots.RenameLastWins | components/MultiPhotoUploader.tsx:63-67 | Of two renames the second wins, and renaming to the current name changes nothing. |
| PhotoSlots.ClearForgetsUpload | components/MultiPhotoUploader.tsx:51-82 | Clearing after an upload equals clearing alone, and clearing is idempotent. |
| PhotoSlots.ClearInitialIsIdentity | components/MultiPhotoUploader.tsx:70-82 | A cleared slot looks exactly like a fresh one. |
| PhotoSlots.GlobalZoomLaws | components/MultiPhotoUploader.tsx:85-92 | The global zoom is idempotent and the last value wins. It commutes with renaming. |
| PhotoSlots.OperationsKeepConsistent | components/MultiPhotoUploader.tsx:26-92 | Every uploader operation keeps each slot's preview tied to its file. |
| Page.InitialForm | app/page.tsx:12-18 | The form starts with an empty name, the default designation, UC 91, area I-10/2 and ward 1. |
| Page.SetField | app/page.tsx:54-56 | Only the named field takes the value. |
| Page.SetFieldLaws | app/page.tsx:54-56 | Writing a field's own value changes nothing, and the later of two writes wins. |
| Page.InitialPage | app/page.tsx:12-50 | No template is selected, there is no photo, zoom is 100, the position is 50/50 and there are nine fresh slots. |
| Page.ImageProcessed | app/page.tsx:58-62 | The processed file, its preview and its zoom replace the old ones, and the position is kept. |
| Page.ChangeGlobalZoom | components/MultiPhotoUploader.tsx:85-92 | The page's zoom and every slot's zoom become equal to the new value, and nothing else changes. |
| Page.ChangeGlobalZoomLaws | components/MultiPhotoUploader.tsx:85-92 | On the slots the slider is the uploader's global zoom, and of two slider moves the last wins. |
| Page.Choose | app/page.tsx:231-234 | Selecting a template changes only the selection. |
| Page.ChangeTemplate | app/page.tsx:241-244 | "Change Template" clears only the selection. |
| Page.ChangeTemplateRoundTrip | app/page.tsx:231-244 | Going back and choosing the same template again restores the page. |
| Page.Download | app/page.tsx:64-94 | Before sending, the download alerts exactly when the name or the processed photo is missing, with the source's messages. Otherwise it posts the ten keys in order, with templateId defaulting to template1, and will save under the name banner-<name>-UC<uc>.png. |
| Page.Finish | app/page.tsx:88-101 | After sending, a PNG answer is saved under the chosen name. Any other answer gives the alert "Failed to generate banner. Please try again.". |
| Page.DownloadAlwaysSaved | app/page.tsx:64-101 | The download as written always reaches the save, for either template. |
| Page.PayloadKeysDistinct | app/page.tsx:72-81 | The ten keys are pairwise distinct. |
| Page.PayloadLookup | app/api/generate-banner/route.ts:147-156 | Each of the ten keys reads back its own entry. |
| Page.ReceiveFixedFields | app/api/generate-banner/route.ts:147-156 | The route reads a ten-key payload back entry by entry. |
| Page.DownloadIsReceived | app/page.tsx:71-81 | The route reads back exactly what the download sent: the texts, the file and the numbers. |
| Page.ZeroPositionDrawnCentred | app/api/generate-banner/route.ts:154 | A position of 0 dragged on the page is drawn at the centre, as 50. |
| Page.PayloadHasNoSlotKeys | app/page.tsx:71-81 | The download payload has no per-slot key. |
| Page.GridDownloadDrawsNoPhotos | app/page.tsx:64-81 | A grid download renders a poster with no photo in any slot (see Findings). |
| Page.TenKeyGridRequestDrawsNoPhotos | app/page.tsx:71-81 | Any grid request carried by the ten fixed keys renders with every slot empty. |
| Page.GridPayload | app/api/generate-banner/route.ts:39-45 | The corrected grid payload starts with the template id, the UC number and the area. |
| Page.GridDownload | app/page.tsx:64-94 | The corrected grid download alerts exactly when no slot holds a photo. |
| Page.SlotBlockKeys | app/api/generate-banner/route.ts:39-45 | Every key in a slot's block ends in the slot's digit. |
| Page.OtherSlotBlockSilent | app/api/generate-banner/route.ts:39-45 | A slot's block answers no key of another slot. |
| Page.LaterBlocksSilent | app/api/generate-banner/route.ts:38-45 | Later slots' blocks answer no key of an earlier slot. |
| Page.LookupFindsOwnBlock | app/api/generate-banner/route.ts:38-45 | Slot `i`'s keys are answered from slot `i`'s own block. |
| Page.GridPayloadLookup | app/api/generate-banner/route.ts:38-45 | The whole grid payload answers slot `i`'s keys from its own block. |
| Page.FieldLookup | app/api/generate-banner/route.ts:40-45 | Each field entry of a slot is found under its key. |
| Page.FieldNamesDistinct | app/api/generate-banner/route.ts:40-45 | The six per-slot field names are distinct. |
| Page.SlotBlockRead | app/api/generate-banner/route.ts:39-45 | Reading a slot's block gives back its file, texts and numbers. |
| Page.GridPayloadSlotReceived | app/api/generate-banner/route.ts:39-45 | The route reads every slot of the corrected payload back as it was on the page. |
| Page.GridDownloadDrawsEveryPhoto | app/api/generate-banner/route.ts:37-99 | With the corrected payload and decodable files, exactly the slots holding a photo are drawn. |
| Page.GridDownloadFailsOnBrokenPhoto | app/page.tsx:88-101 | With the corrected payload, the failure alert appears exactly when some slot holds a file that does not decode. |
| Previews.Clamp | components/templates/Template1.tsx:43-44 | `max(0, min(100, v))` lies in [0, 100], is `v` in range, and pins the values outside the range. |
| Previews.ClampLaws | components/templates/Template2.tsx:39-40 | Clamping is monotone and idempotent. |
| Previews.DragTo | components/templates/Template1.tsx:39-45 | The drag position is the start plus the travel divided by the divisor, clamped. |
| Previews.DragMonotone | components/templates/Template1.tsx:39-45 | More pointer travel never moves the photo back, and pointer travel that returns to the start restores the start position. |
| Previews.ClassicMoveByTravel | app/page.tsx:314-319 | Only the travel since the press counts: equal displacements from the same start position give equal positions, for mouse and touch alike. A pointer back at its press point restores an in-range position. |
| Previews.GridMove | components/templates/Template2.tsx:35-42 | A move updates only the pressed slot's two positions, with divisor 3. |
| Previews.GridMovesLastWins | components/templates/Template2.tsx:35-42 | Moves do not accumulate: the last pointer position alone decides. |
| Previews.GridPressWithoutTravel | components/templates/Template2.tsx:28-42 | A drag starts from the pressed slot's position, so a press without travel leaves an in-range slot unchanged. |
| Previews.GridMoveKeepsConsistent | components/templates/Template2.tsx:38-41 | Drags keep every preview tied to its file. |
| Previews.Rows | components/templates/Template2.tsx:54-56 | The two rows are slots 0-3 and slots 4-8, and together they are the slots in order. |
| Previews.CardsCoverSlots | components/templates/Template2.tsx:141-149 | Each slot has exactly one card, in the row the route draws it in. |
| Previews.CardCaption | components/templates/Template2.tsx:58-90 | A caption is shown exactly over an uploaded photo. It shows the name or the default, and "WARD " + the ward. |
| Previews.CardCaptionMatchesPoster | components/templates/Template2.tsx:78-89 | The card and the poster cell show the same three texts exactly when the slot has a name and a ward. |
| Previews.PreviewClassic | app/page.tsx:294-406 | The photo is shown only once uploaded, at positionX% with scale zoom/100. The UC lines, the name (or the default), the designation and the ward are as typed. |
| Previews.RequestMatchesPreview | app/api/generate-banner/route.ts:215-341 | The poster drawn from a request built from the page shows the preview's texts, horizontal fraction and zoom factor. |
| Previews.ClassicPreviewMatchesPoster | app/page.tsx:64-81 | The downloaded poster matches the preview whenever the horizontal position and the zoom are non-zero. |

## Left out

- Rasterisation is not modelled: pixels, gradients, shadows, fonts, colours, compositing and PNG encoding. Each poster is a list of the rectangles and text lines drawn.
- `loadImage`, `measureText`, `parseFloat`, `Number.prototype.toString` and `URL.createObjectURL` are parameters. Only their result shapes are modelled.
- The route's outer `catch` (a 500 "Failed" when reading the form, the canvas or encoding throws) is I/O failure and is not modelled.
- Font registration at module load is I/O and is not modelled.
- React state, effects, event-listener registration and the `isGenerating` flag are not modelled. Each handler is a function from the old state to the new one.
- Template1.tsx is a component the page does not render: the page draws its own copy of the preview. Both drag handlers use the same rule, `Previews.ClassicMove`. The alignment guides and the placeholder are decoration and are left out.
- The preview's vertical placement (`top: positionY - 50 %` with no vertical centring translate) has no poster counterpart that is a simple fraction. Only the horizontal fraction and the zoom factor are compared.
- The dropzone's own filtering (`maxFiles`, accepted types) is library code. `PhotoSlots.Drop` models the handler on the list it receives.
- PhotoSlots.Drop: requires the slot array to be long enough for the accepted files. The page always holds nine slots, whereas a JavaScript array would grow.
- The global zoom slider's range 50-200 and `parseInt` are enforced by the input element. The model accepts any zoom.
- `handleInputChange` takes any string key. The model allows only the five form fields, which are the only keys the page passes.
- ImageUploader, TemplateSelector and the background-removal route are not part of this model.
- Comparing numbers to the source's `/`, `*` and `-` as exact reals ignores floating-point rounding.
- Transport.ReadNumber: a number appended with `toString()` reads back as that same number without going through the `parseFloat` parameter. This assumes `parseFloat(n.toString()) == n`, which JavaScript guarantees for finite numbers.
- A `fetch` that rejects (a network failure) also ends in the failure alert. The network is not modelled, so `Page.Finish` sees only the route's answers.
- Classic.Render: the poster record lists what is drawn, not the drawing order. The photo is drawn after the logo and over it where they meet, and the logo can reach below the 96×scale top bar.
- Grid.Render: the drawing order is not kept either. On the left panel the emblem logo is drawn after, and over, the two texts.

Behaviour of the code worth noting:

- An unknown `templateId` renders the single-candidate poster instead of failing (`Route.UnknownTemplateRendersClassic`).
- On the grid poster, a photo whose bytes do not decode aborts the whole render with a 500 (`Grid.Render`), instead of being skipped.
- Positions are not clamped and zoom has no lower bound on the server. A zoom of 0 or NaN falls back to 100. A negative zoom passes through, and the classic poster then draws no fade (`Classic.PlacePhoto`).
- Missing text fields on the single-candidate poster are drawn as "null" (`Defaults.Coerce`). Only the name has a fallback.

## Findings

| source | as written | input that shows it | evidently intended | confidence | as-written member | corrected member |
|---|---|---|---|---|---|---|
| app/page.tsx:64-81 | `handleDownload` always posts the ten single-candidate fields, with no `photo{i}`, `name{i}` or `zoom{i}` field. It also requires a name and the single-candidate photo even when "template2" is selected. | Choose "template1", fill the name and upload the single photo (its uploader is shown only under "template1"). Press "Change Template", choose "template2", drop nine photos into the grid, then download. The poster has an empty grid, because every `photo{i}` read is null. | The grid download posts each slot's file, name, ward, position and zoom under the `{i}` keys, and is sent once a slot holds a photo. | not executed | Page.GridDownloadDrawsNoPhotos | Page.GridDownloadDrawsEveryPhoto |
