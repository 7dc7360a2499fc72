# Image layer editor — a Dafny model

This project models the core of an image-layer editor. A user uploads a
picture. The back end stores it and can segment it into coloured regions.
Those regions become mask layers in the editor's layer list, alongside the
base image's layer. The user selects, hides, locks, duplicates, deletes and
edits layers in two side panels. A canvas keeps one drawn object per layer
in step with the list. The back end exports the layers as an SVG document
over the original picture.

The modules follow the source files:

- `ImageEditor` (image_editor.dfy): the layer record, the editor's state as
  a class (`Editor`), and its commands. The commands are upload, select,
  update, delete, undo/redo and new upload. The module also holds the
  export request the editor posts.
- `Scene` (scene.dfy): the canvas adapter. `SceneAdapter` is a class
  holding the layer-id-to-object map, and `SceneObject` is a class whose
  display properties are updated in place. The module covers:
  - mounting;
  - fitting the base image;
  - reconciling objects with the layer list;
  - projecting the selection onto the canvas;
  - reporting canvas selection events;
  - importing segments as mask layers.
- `LayersSidebar`, `PropertiesSidebar`: each control of the two panels, as
  the command it sends to the editor.
- `Export`, `Upload`, `Sam2`, `Schemas`, `Http`: the back end's export
  endpoint, upload endpoint, segmentation processor, request and response
  records, and its mapping of exceptions to HTTP errors.
- `Wire`: the editor record as the export endpoint receives it.
- `Text`, `Wrappers`: helpers for decimal rendering, ASCII lower-casing and
  character counting, plus Option and Result.

The editor's `updateLayer` is called in three places but is defined
nowhere in the editor component. The model fixes one reading of it and
states it in `ImageEditor.Upsert`:

- the patch is merged into every record carrying the id;
- when no record carries it, a complete record is appended;
- otherwise nothing changes.

Every property below is proved about that reading.

## Model

| member | source | states |
|---|---|---|
| ImageEditor.Merge | src/components/ImageEditor.tsx:116 | a partial update keeps the id, sets each field the patch carries and keeps every other field; the empty patch changes nothing |
| ImageEditor.FromPatch | src/components/ImageEditor.tsx:116 | a record built from a complete patch has the given id and is a fixed point of merging that patch |
| ImageEditor.FullPatch | src/components/editor/LayersSidebar.tsx:49 | passing a whole record as the update gives a complete patch from which that exact record is rebuilt |
| ImageEditor.FindIndex | src/components/ImageEditor.tsx:83 | the first position holding the id, and none exactly when no record has it |
| ImageEditor.Find | src/components/ImageEditor.tsx:83 | `find` by id: absent exactly when no record has the id, otherwise the first record carrying it |
| ImageEditor.SelectedLayer | src/components/ImageEditor.tsx:83 | the selected record is absent exactly when nothing is selected or no record has the selected id; otherwise it is in the list, carries the selected id, and no earlier record does |
| ImageEditor.Ids | src/components/ImageEditor.tsx:9-19 | the ids position by position; they are pairwise distinct exactly when no two records share an id |
| ImageEditor.Without | src/components/ImageEditor.tsx:118 | `filter(l => l.id !== id)` keeps exactly the records with another id, and never grows the list |
| ImageEditor.WithoutDistributes | src/components/ImageEditor.tsx:118 | filtering distributes over concatenation |
| ImageEditor.WithoutAbsent | src/components/ImageEditor.tsx:118 | deleting an id no record carries leaves the list as it was |
| ImageEditor.WithoutKeepsUnique | src/components/ImageEditor.tsx:117-120 | deleting keeps the ids distinct |
| ImageEditor.UpsertIds | src/components/ImageEditor.tsx:116 | an update keeps the list of ids, except that a complete record with a new id is appended at the end |
| ImageEditor.UpsertKeepsUnique | src/components/ImageEditor.tsx:116 | an update keeps the ids distinct |
| ImageEditor.UpsertFind | src/components/ImageEditor.tsx:116 | after an update, finding the id gives the merged record; or the new record when it was appended; or nothing when an incomplete patch named a missing id |
| ImageEditor.UpsertAppends | src/components/editor/LayersSidebar.tsx:43-50 | a whole record with a new id is appended unchanged at the end |
| ImageEditor.SelectionAfterDelete | src/components/ImageEditor.tsx:119 | deleting the selected id clears the selection; deleting any other id leaves it |
| ImageEditor.StepKeepsUnique | src/components/ImageEditor.tsx:115-144 | every command the panels and the canvas send keeps the ids distinct |
| ImageEditor.BaseLayer | src/components/ImageEditor.tsx:29-37 | the base record: id "image-base", an image, visible, unlocked, fully opaque, no colour, its source the uploaded URL |
| ImageEditor.PropertiesUpdate | src/components/ImageEditor.tsx:144 | the properties panel's update is sent only while a record is selected, and is aimed at that record's id |
| ImageEditor.Editor.constructor | src/components/ImageEditor.tsx:22-24 | the editor starts with no records, no selection and no uploaded image |
| ImageEditor.Editor.HandleImageUpload | src/components/ImageEditor.tsx:26-40 | an upload stores the URL, replaces the list by the single base record and selects it |
| ImageEditor.Editor.SelectLayer | src/components/ImageEditor.tsx:115 | selecting stores the selection as given |
| ImageEditor.Editor.UpdateLayer | src/components/ImageEditor.tsx:116 | the list becomes the update's result, and the ids stay distinct |
| ImageEditor.Editor.DeleteLayer | src/components/ImageEditor.tsx:117-120 | the list loses exactly the records with the id; the selection is cleared only if it was that id; the ids stay distinct |
| ImageEditor.Editor.Undo | src/components/ImageEditor.tsx:97 | undo changes nothing |
| ImageEditor.Editor.Redo | src/components/ImageEditor.tsx:98 | redo changes nothing |
| ImageEditor.Editor.NewUpload | src/components/ImageEditor.tsx:100 | a new upload clears only the uploaded image; the records and selection stay |
| ImageEditor.Editor.Dispatch | src/components/ImageEditor.tsx:112-145 | any command moves the state to its step's result and keeps the ids distinct |
| ImageEditor.HandleExport | src/components/ImageEditor.tsx:42-81 | with no current image id (or an empty one) only the alert is shown; otherwise the id, the records and the format are posted, and the download happens exactly when the response is ok, named `export.<format>` |
| Scene.SceneObject.BaseImage | src/components/editor/Canvas.tsx:89-95 | the base image object is tagged with the base id and type image, visible, opaque, not selectable and not evented |
| Scene.SceneObject.SegmentPath | src/components/editor/Canvas.tsx:165-178 | a segment's object draws its path with its colour at opacity 0.7, selectable and tagged with the segment id and type mask |
| Scene.SceneObject.Apply | src/components/editor/Canvas.tsx:106-118 | syncing one object with one record sets its properties to the record's, keeping its placement |
| Scene.Min | src/components/editor/Canvas.tsx:75-78 | the smaller of two numbers |
| Scene.FitImage | src/components/editor/Canvas.tsx:69-86 | the scale is the smaller of the two fits of 80% of the canvas, falling back to 800×600; the image is centred on the scaled size |
| Scene.ScaledWithin | src/components/editor/Canvas.tsx:75-83 | the scaled image never exceeds 80% of the canvas on an axis, and reaches it on the limiting axis |
| Scene.LastWith | src/components/editor/Canvas.tsx:104-120 | the last record carrying an id, present exactly when some record carries it |
| Scene.LastFill | src/components/editor/Canvas.tsx:115-117 | no fill is set for an id no record carries |
| Scene.ReconciledForm | src/components/editor/Canvas.tsx:100-122 | after reconciling, an object shows the last record with its id: visibility, opacity, selectable and evented both the record's unlocked flag, and the last truthy mask colour as fill; with no such record it is untouched |
| Scene.ReconcileIdempotent | src/components/editor/Canvas.tsx:100-122 | reconciling twice with the same list is the same as once |
| Scene.LastWithUnique | src/components/editor/Canvas.tsx:104-120 | with distinct ids, the record found for an id is the record carrying it |
| Scene.ReconcileMirrorsLayer | src/components/editor/Canvas.tsx:104-120 | with distinct ids, every object shows exactly its own record's visibility, opacity and lock state |
| Scene.LastFillUnique | src/components/editor/Canvas.tsx:115-117 | with distinct ids, a mask with a colour is filled with that colour |
| Scene.DeletedLayerObjectKept | src/components/editor/Canvas.tsx:100-122 | an object whose record was deleted is left as it was: reconciling never removes or hides it |
| Scene.BaseImageBecomesSelectable | src/components/editor/Canvas.tsx:84-113 | the first reconcile once the base object is mapped makes the base image selectable and evented, undoing its construction |
| Scene.Reported | src/components/editor/Canvas.tsx:39-55 | a cleared selection reports none; a created or updated one reports the first object's layer id when it has a truthy one, and otherwise reports nothing |
| Scene.ImportedCount | src/components/editor/Canvas.tsx:163-199 | segments are imported up to the first one whose object cannot be built, and all of them otherwise |
| Scene.SegmentLayer | src/components/editor/Canvas.tsx:181-192 | a segment's record: its id and name, a visible unlocked mask in its colour at opacity 0.7, carrying the segment |
| Scene.SegmentLayers | src/components/editor/Canvas.tsx:181-192 | the records of a run of segments, position by position |
| Scene.SegmentIds | src/components/editor/Canvas.tsx:181-192 | the set of a run's segment ids |
| Scene.OverlayFacts | src/components/editor/Canvas.tsx:178 | after an import the map holds the old keys plus the segment ids; entries for other ids are kept, and each segment id maps to one of the new objects |
| Scene.ImportAppends | src/components/editor/Canvas.tsx:181-192 | importing segments with distinct ids new to the list appends exactly their records, in order |
| Scene.ImportedSegments | src/components/editor/Canvas.tsx:140-199 | nothing is imported before mounting, without a truthy image id, or when the request fails; otherwise the prefix up to the first failing segment is imported |
| Scene.SceneAdapter.constructor | src/components/editor/Canvas.tsx:21-23 | the adapter starts unmounted with an empty map and nothing drawn or active |
| Scene.SceneAdapter.Mount | src/components/editor/Canvas.tsx:26-36 | mounting makes an 800×600 canvas |
| Scene.SceneAdapter.LoadBaseImage | src/components/editor/Canvas.tsx:63-97 | with a canvas, a URL and a decoded image, the fitted base object is drawn and mapped under the base id; otherwise nothing changes |
| Scene.SceneAdapter.Reconcile | src/components/editor/Canvas.tsx:100-122 | every mapped object is left in the reconciled state for the list, and no placement moves; without a canvas nothing changes |
| Scene.SceneAdapter.ProjectSelection | src/components/editor/Canvas.tsx:125-137 | an empty selection discards the active object; a selection whose object is selectable activates it; any other selection leaves the active object |
| Scene.SceneAdapter.HandleSelectionEvent | src/components/editor/Canvas.tsx:39-55 | the editor's selection becomes what the event reports, and stays when it reports nothing |
| Scene.SceneAdapter.AddSegment | src/components/editor/Canvas.tsx:163-192 | one segment adds one new drawn object, maps the segment id to it, and updates the editor with the segment's record |
| Scene.SceneAdapter.AddSegments | src/components/editor/Canvas.tsx:163-193 | every segment is drawn in order; the map is overlaid with their objects; the editor's list is the records' updates in order; the ids stay distinct |
| Scene.SceneAdapter.ImportSegments | src/components/editor/Canvas.tsx:140-200 | the import draws and records exactly the segments the guards and the first failure let through, and reports that outcome |
| Scene.ActiveObjectReportsItsLayer | src/components/editor/Canvas.tsx:39-44 | selecting a mapped object on the canvas reports its own layer id back |
| LayersSidebar.LayerIcon | src/components/editor/LayersSidebar.tsx:34-41 | images get the image icon, masks and shapes the square, and no record gets the fallback |
| LayersSidebar.CopySuffix | src/components/editor/LayersSidebar.tsx:46 | the copy suffix is "-copy-" followed by decimal digits whose value is the clock reading |
| LayersSidebar.CopySuffixInjective | src/components/editor/LayersSidebar.tsx:46 | different clock readings give different suffixes |
| LayersSidebar.DuplicateIdsDiffer | src/components/editor/LayersSidebar.tsx:43-48 | copies of one record made at different clock readings get different ids |
| LayersSidebar.DuplicateOf | src/components/editor/LayersSidebar.tsx:43-48 | the copy keeps every field but the id, which gains the suffix and so differs, and the name, which gains " Copy" |
| LayersSidebar.DuplicateAction | src/components/editor/LayersSidebar.tsx:178-181 | Duplicate sends something exactly when the selection is truthy and a record has it; what it sends is the whole copy under the copy's id |
| LayersSidebar.DeleteAction | src/components/editor/LayersSidebar.tsx:167-190 | Delete sends something exactly when the selection is truthy, and aims at the selected id |
| LayersSidebar.VisibilityToggle | src/components/editor/LayersSidebar.tsx:107-110 | the eye button sends only the flipped visibility, for the row's id |
| LayersSidebar.LockToggle | src/components/editor/LayersSidebar.tsx:123-126 | the lock button sends only the flipped lock, for the row's id |
| LayersSidebar.RowClickHighlights | src/components/editor/LayersSidebar.tsx:68-81 | after a row click exactly the rows with that id are highlighted, and the list is untouched |
| LayersSidebar.VisibilityToggleFlips | src/components/editor/LayersSidebar.tsx:107-110 | with distinct ids, the eye button flips that row's visibility and changes nothing else |
| LayersSidebar.VisibilityToggleTwice | src/components/editor/LayersSidebar.tsx:107-110 | pressing the eye button twice restores the list |
| LayersSidebar.LockToggleFlips | src/components/editor/LayersSidebar.tsx:123-126 | with distinct ids, the lock button flips that row's lock and changes nothing else |
| LayersSidebar.DuplicateAppends | src/components/editor/LayersSidebar.tsx:43-50 | when the copy's id is new, Duplicate appends exactly the copy and keeps the selection |
| LayersSidebar.DuplicateSameMillisecond | src/components/editor/LayersSidebar.tsx:46 | two duplicates in the same millisecond collide: the second adds no record |
| LayersSidebar.DeleteActionClears | src/components/editor/LayersSidebar.tsx:190 | Delete removes exactly the selected id's records and clears the selection |
| PropertiesSidebar.DisplayedColor | src/components/editor/PropertiesSidebar.tsx:130-137 | the colour controls show the record's colour when it is truthy, and white otherwise |
| PropertiesSidebar.SliderPosition | src/components/editor/PropertiesSidebar.tsx:96 | an opacity in [0, 1] is shown as a slider position in [0, 100] |
| PropertiesSidebar.SliderOpacity | src/components/editor/PropertiesSidebar.tsx:97 | the opacity a slider position stands for lies in [0, 1] and is shown back at that position |
| PropertiesSidebar.EditPatch | src/components/editor/PropertiesSidebar.tsx:29-226 | with no selection, or for the transform inputs, nothing is emitted; a colour edit is emitted exactly when the colour controls are shown; every other edit emits just its one field |
| PropertiesSidebar.EditCommand | src/components/ImageEditor.tsx:144 | an edit becomes an update of the selected record's id exactly when the panel emits one |
| PropertiesSidebar.Edited | src/components/editor/PropertiesSidebar.tsx:86-226 | an edit never changes the shown record's id |
| PropertiesSidebar.EditShows | src/components/editor/PropertiesSidebar.tsx:86-137 | after an edit, the name field shows the typed name, the slider the dragged position, and the colour controls the chosen colour |
| PropertiesSidebar.ClicksFlip | src/components/editor/PropertiesSidebar.tsx:214-226 | Visible and Locked flip exactly their flag, and two clicks give back the record |
| PropertiesSidebar.TransformInputInert | src/components/editor/PropertiesSidebar.tsx:160-191 | the transform inputs emit nothing and change no record |
| PropertiesSidebar.EditApplies | src/components/ImageEditor.tsx:142-145 | with distinct ids, an edit changes exactly the selected record, as the panel shows it, and keeps the selection |
| Export.Extension | backend/api/export.py:30-33 | the extension is a dot followed by the format's value |
| Export.ExportFilename | backend/api/export.py:29-33 | a truthy requested name plus the extension; otherwise `export_<id>_<format>` plus the extension; the name always ends in the extension |
| Export.DeriveFilename | backend/api/export.py:29-33 | the derived file name is the export name |
| Export.Fill | backend/api/export.py:88 | a mask is filled with its colour when truthy, and white otherwise |
| Export.LayerElement | backend/api/export.py:82-91 | a hidden layer, or one that is not a mask with a path, contributes nothing |
| Export.DocumentFrame | backend/api/export.py:67-93 | the document starts with the header, has the background image right after it, and ends with the closing tag |
| Export.DrawnLayers | backend/api/export.py:81-86 | the drawn layers are exactly the visible masks carrying a path |
| Export.BodyIsDrawnPaths | backend/api/export.py:81-91 | the document body is the drawn layers' path elements, in request order |
| Export.JoinedAppend | backend/api/export.py:81-91 | the body of concatenated layer lists is the concatenation of their bodies |
| Export.UndrawnLayerIgnored | backend/api/export.py:82-86 | removing a layer that is not drawn leaves the body unchanged |
| Export.AppendLayers | backend/api/export.py:81-91 | the loop appends exactly the body to what was written before |
| Export.ExportSvg | backend/api/export.py:54-100 | when the libraries load, the original opens and the file is written, the document for its size and the request's layers; otherwise the first failure prefixed "SVG export failed: " |
| Export.WriteExport | backend/api/export.py:28-40 | the writer succeeds exactly when the original opens and the writing or saving does not fail; each failure carries the format's prefix; the result carries the export name, plus the SVG document for SVG |
| Export.ExportImage | backend/api/export.py:13-52 | no match gives 404 "Original image not found"; a failure opening the original or writing the export gives 500 with "Export failed: " before the writer's message; it succeeds exactly when neither fails, with the export name and, for SVG, the document |
| Upload.LastIndexOf | backend/api/upload.py:21 | the last position of a character, absent exactly when it does not occur |
| Upload.StripTrailingSlashes | backend/api/upload.py:21 | a prefix with only slashes removed after it and no slash at its end |
| Upload.PathName | backend/api/upload.py:21 | the final path component: a slash-free tail of the path without its trailing slashes, that is the whole of it or follows a slash |
| Upload.NameSuffix | backend/api/upload.py:21 | the suffix is empty, or a dot plus at least one dot-free character, ending the name and shorter than it |
| Upload.FileExtension | backend/api/upload.py:21 | the lower-cased extension is empty or starts with a dot, and is exactly as long as the final component's suffix |
| Upload.ExtensionEndsName | backend/api/upload.py:21-22 | a non-empty extension is, up to letter case, how the file name ends once trailing slashes are dropped |
| Upload.SuffixIffProperLastDot | backend/api/upload.py:21 | a name has a suffix exactly when its last dot is neither its first nor its last character |
| Upload.ExtensionIffProperLastDot | backend/api/upload.py:21 | a file name has an extension exactly when its final component's last dot is neither first nor last |
| Upload.DirectoryIgnored | backend/api/upload.py:21 | "a/photo.PNG" has the extension ".png" |
| Upload.HiddenFileHasNone | backend/api/upload.py:21 | ".bashrc" has no extension |
| Upload.LastSuffixOnly | backend/api/upload.py:21 | "x.tar.gz" has the extension ".gz" |
| Upload.TrailingDotHasNone | backend/api/upload.py:21 | "name." has no extension |
| Upload.UploadImage | backend/api/upload.py:15-66 | in this order: a refused extension gives 400 with the allowed list; too many bytes give 400 "File too large"; a write failure gives 500 "Upload failed: …"; an unreadable image gives 400 "Invalid image file: …"; otherwise the response names `<uuid><ext>` under /uploads/ with the byte count and dimensions |
| Upload.SizeBoundary | backend/core/config.py:21 | exactly 20 MiB is accepted, one byte more is refused |
| Upload.ExtensionCheckedFirst | backend/api/upload.py:21-26 | a refused extension gives the same 400 whatever the size, the write or the image |
| Http.ToHttpError | backend/api/upload.py:63-66 | an HTTP error passes through unchanged; any other failure becomes 500 with the prefix before its message |
| Sam2.PointText | backend/core/sam2_processor.py:128-134 | a point's text holds no path command letter |
| Sam2.MaskToSvgPath | backend/core/sam2_processor.py:108-135 | no contour gives the empty path; otherwise "M", then the points joined by " L ", then " Z" |
| Sam2.AppendCommands | backend/core/sam2_processor.py:126-134 | the loop appends exactly the point commands to what was written before |
| Sam2.CommandsCountLines | backend/core/sam2_processor.py:126-134 | n points give n - 1 line commands, and no move or close command |
| Sam2.SvgPathShape | backend/core/sam2_processor.py:108-135 | a path of n points has one move, n - 1 lines and one close |
| Sam2.SvgPathOfFour | backend/core/sam2_processor.py:126-135 | the path of four points, written out |
| Sam2.BackgroundIsCornerPath | backend/core/sam2_processor.py:88-95 | the mock Background's path is the path through the image's four corners |
| Sam2.MockSegmentation | backend/core/sam2_processor.py:70-106 | the three mock segments, with distinct ids and their names and colours; the Background covers the whole image; every segment has a box and a confidence |
| Sam2.MockBoxesInside | backend/core/sam2_processor.py:70-106 | every mock box lies inside the image |
| Sam2.Sam2Processor.constructor | backend/core/sam2_processor.py:21-24 | a new processor has no predictor |
| Sam2.Sam2Processor.LoadModel | backend/core/sam2_processor.py:26-45 | without SAM2 the unavailability error; with it, success and still no predictor |
| Sam2.Sam2Processor.SegmentImage | backend/core/sam2_processor.py:47-68 | an unreadable image's error, otherwise the mock segmentation for the image's size |
| Sam2.Mock | backend/core/sam2_processor.py:74-76 | opening the image for its size: its failure propagates, otherwise the mock for that size |
| Sam2.CreateAndSegment | backend/core/sam2_processor.py:21-68 | a processor that loads never has a predictor, so every segmentation is the mock |
| Schemas.ExportFormat.Value | backend/core/schemas.py:5-7 | each format's wire string parses back to it |
| Schemas.ParseExportFormat | backend/core/schemas.py:5-7 | exactly "svg" and "psd" are accepted |
| Schemas.ExportFormatIsClosed | backend/core/schemas.py:5-7 | an accepted string is its format's value |
| Schemas.NewSegment | backend/core/schemas.py:9-15 | a segment with no box and no confidence by default |
| Schemas.NewLayer | backend/core/schemas.py:17-25 | a layer defaults to visible, unlocked, no colour, opacity 1 and no data |
| Schemas.NewExportRequest | backend/core/schemas.py:27-31 | an export request has no file name by default |
| Wire.DataToWire | src/components/ImageEditor.tsx:17 | the base image's payload carries its source and no path; a segment's carries its path |
| Wire.ToWire | src/components/ImageEditor.tsx:53-57 | the posted record keeps every field, with its type spelled out and its payload as a dictionary |
| Wire.ToRequest | backend/core/schemas.py:27-31 | the posted body becomes the request with the same id, records and format, and no file name |
| Wire.DrawnIffVisibleSegment | backend/api/export.py:82-86 | a posted record is drawn exactly when it is a visible mask carrying a segment; the base image never is |
| Wire.ImportedSegmentIsExported | backend/api/export.py:86-90 | an imported segment's record, exported unchanged, is drawn with the segment's path and colour |
| Text.NatToDecimal | backend/api/export.py:68 | a non-empty string of digits, with a leading zero only for zero |
| Text.DecimalRoundTrip | backend/api/export.py:68 | reading the digits back gives the number |
| Text.IntToDecimal | backend/api/upload.py:60 | digits with a leading minus exactly for negatives |
| Text.AsciiLower | backend/api/upload.py:21 | lower-casing keeps the length and maps each character |
| Text.CountAppend | backend/core/sam2_processor.py:126-134 | counting a character distributes over concatenation |

## Left out

- The editor's `updateLayer` is not defined in the editor component. `ImageEditor.Upsert` is a modelling choice: merge into every record with the id; append a complete record whose id is new; otherwise do nothing.
- Undo and redo are no-ops in the source and in the model.
- The browser, `fetch`, the download link, `alert`, `console`, Fabric's rendering, image decoding, the uuid generator and `Date.now` are not modelled. Their outcomes are parameters: the response's `ok`, the decoded image size, `failAt`, the file id and the clock reading.
- Asynchronous interleavings are not modelled. This covers a segment fetch finishing after a new upload, and React's batched state updates. Each handler runs to completion on the state it is given.
- Canvas import builds each object with Fabric's `Path`, which the component does not import. The import's failure is the parameter `failAt`. As the code does, the model stops at the first failure and keeps what it already added.
- Scene.SceneAdapter.AddSegments: does not state that the drawn objects are newly allocated; Scene.SceneAdapter.AddSegment states it for each object it draws.
- Scene.SceneAdapter.ImportSegments: does not state that the drawn objects are newly allocated, for the same reason.
- On upload the canvas syncs the seeded list before Fabric finishes loading the base image, so the base object is not yet mapped. It becomes selectable only at the next change of the list after the image loads. `Scene.BaseImageBecomesSelectable` states that reconcile.
- Deleting a record never removes its canvas object or map entry. `Scene.DeletedLayerObjectKept` states this as the code has it.
- Duplicate ids are unique only up to the clock. `LayersSidebar.DuplicateSameMillisecond` shows the collision.
- Python's rendering of floats (f-strings of opacities and of the mock's coordinates) is the parameter `floatRepr`. The mock's boxes are computed over exact reals.
- The export writers' failures are parameters. `size` stands for importing the libraries and opening the original; `writeError` stands for drawing, writing or saving.
- The export's PSD branch is not modelled beyond its name and its failures. It draws a fixed rectangle per mask and saves the composite as `.png`, while the response names the `.psd` path. The model records only that the PSD branch succeeds without an SVG document.
- The export's `defs`/`style` block, the background opacity and the path attributes are modelled as fixed text. The SVG is not parsed back.
- "Exactly one background image" is stated structurally by `Export.DocumentFrame` and `Export.BodyIsDrawnPaths`, not by counting substrings.
- The editor record's `data` is `any`. The model admits the two shapes the editor creates: an image source or a segment. The back end's `data` values are kept as strings.
- Letter case is folded for ASCII only. pathlib's normalisation of repeated or dotted path components is reduced to dropping trailing slashes.
- The real SAM2 predictor is never loaded by the source. Its segmentation path is not modelled, and `mask_to_svg_path`'s contour simplification is a parameter.
- Upload info, export download, the segments endpoint, the application setup, the upload area, the toolbar and the landing page are not part of this model.
