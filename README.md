# frame-editor, modelled in Dafny

frame-editor is an Angular web app for making an avatar from a photo and a decorative frame. The user goes through four screens in order:

1. upload a photo;
2. pick a frame from a catalogue that can be searched;
3. compose the two on an 800×800 canvas, where the photo can be rotated, flipped, moved, centred and zoomed;
4. download the result as an image.

This project models the logic behind those screens and proves properties of it:

- **Editor engine** (`editor_service.dfy`, `editor_model.dfy`). The canvas is an ordered list of image layers plus an active layer. The engine places the photo with a contain-fit at 80% of the canvas and stretches frames over the whole canvas. It also covers:
  - rotate and flip of the active layer;
  - zoom and reset;
  - the published editor snapshot and its copy-with-update merge;
  - the selection and modify event handlers;
  - the "canvas not initialised" guards;
  - export and download.
- **Editor screen** (`image_editor.dfy`). Clamped zoom steps and the move and centre operations. The initial load puts the photo first and the frame above it. Also covered: reset, and the download with its export options and timestamped file name.
- **Frame catalogue** (`frame_service.dfy`, `frame_model.dfy`). Lookup by id, by category and by popularity, and case-insensitive substring search. The sample frames are grouped into their categories.
- **Gallery** (`frame_gallery.dfy`). Filters by category, then by a trimmed text query, and drops categories left empty. Also builds the category drop-down.
- **Upload** (`image_upload.dfy`). A MIME-type whitelist and a 10 MiB size limit, the file-size label, the preview, and handing the photo on.
- **Wizard** (`app.dfy`). The welcome → upload → frames → editor step machine.

Shared helpers are in `basics.dfy`: an option type, `Array.prototype.filter`, `String.prototype.includes`, ASCII `toLowerCase`, and `trim` over the JavaScript white-space set.

State the source changes in place is modelled with classes:

- the service's canvas, layers and snapshot;
- the gallery, editor and upload components;
- the app.

Each method states the fields it changes, proved against the functions that specify them. The catalogue queries and the placement geometry are pure functions, and their lemmas state what the source promises. Image decoding is asynchronous in the source. Here it becomes a parameter: the decoded size, or `None` when loading fails. The renderer behind `toDataURL` becomes a function parameter.

Behaviour of the code worth noting:

- Adding a frame appends it on top of the existing layers, so a second frame stacks on the first.
- The photo is always fitted into 80% of the canvas, whether or not a frame is present.
- Adding a photo makes it the active layer. When nothing was selected before, as after a reset, the library fires `selection:created`, and the service's handler sets the snapshot to editing.
- `zoomCanvas` stores the level it is given without clamping. Only the editor screen's zoom buttons clamp it to [0.1, 3].
- The file-name timestamp keeps the `T` of the ISO time (`yyyyMMddTHHmmss`).
- The export options carry the picker's value as it is. Choosing "jpg" gives a file named `….jpg` and a render request for format "jpg", which the declared format type does not admit (see Findings).

## Model

| member | source | states |
|---|---|---|
| Basics.Filter | src/app/services/frame.service.ts:89 | `Array.filter`: an element is kept iff the predicate holds. Each kept value occurs as often as in the input, and the result is an order-preserving sub-sequence. |
| Basics.Lower | src/app/services/frame.service.ts:97 | `toLowerCase` on ASCII letters. The length is unchanged, and each character is lowered independently. |
| Basics.Contains | src/app/services/frame.service.ts:99-101 | Defines `includes`: `sub` occurs at some position of `s`. `ContainsEmpty` proves that "" occurs in every string. |
| Basics.Trim | src/app/components/frame-gallery/frame-gallery.ts:81-82 | Defines `trim`: leading and trailing ECMAScript white space removed. `TrimStart` and `TrimEnd` state that only white space is cut and the result neither starts nor ends with it. `TrimEmptyIffBlank` and `TrimLowerCommute` state its properties. |
| Basics.TrimEmptyIffBlank | src/app/components/frame-gallery/frame-gallery.ts:81 | `trim()` is empty exactly when every character is white space. |
| Basics.TrimLowerCommute | src/app/components/frame-gallery/frame-gallery.ts:82 | Lower-casing then trimming equals trimming then lower-casing. |
| FrameModel.MatchesLowered | src/app/services/frame.service.ts:98-101 | Defines the match test shared by `searchFrames` and the gallery filter (frame-gallery.ts:85-88): the lower-cased query occurs in the lower-cased name, the description if present, or some tag if tags are present. `MatchesEmpty`, `SearchFrames`, `NarrowKeepsMatching` and `GalleryAgreesWithSearch` state its properties. |
| FrameModel.MatchesEmpty | src/app/services/frame.service.ts:99 | Every frame matches the empty query, because every name contains "". |
| FrameCatalog.IndexOfId | src/app/services/frame.service.ts:84-86 | The position `find` stops at. It is -1 iff no frame has the id; otherwise that frame has the id and every earlier frame has another. |
| FrameCatalog.GetFrameById | src/app/services/frame.service.ts:84-86 | Gives none iff no frame has the id. Otherwise gives the first frame with that id: every earlier frame has a different id. |
| FrameCatalog.GetFramesByCategory | src/app/services/frame.service.ts:88-90 | Exactly the frames of that category, with their multiplicities, in order. |
| FrameCatalog.GetPopularFrames | src/app/services/frame.service.ts:92-94 | Exactly the frames whose `isPopular` is true. An absent flag is not popular. Order is preserved. |
| FrameCatalog.SearchFrames | src/app/services/frame.service.ts:96-103 | A frame is kept iff the lower-cased query occurs in its lower-cased name, description or some tag. Order and the multiplicity of each kept frame are preserved, as `Array.prototype.filter` keeps them. |
| FrameCatalog.SearchEmptyReturnsAll | src/app/services/frame.service.ts:96-103 | Searching for "" returns the whole list unchanged, since the query is not trimmed. |
| FrameCatalog.SearchIgnoresQueryCase | src/app/services/frame.service.ts:97 | Queries equal up to letter case give equal results. |
| FrameCatalog.GroupByCategory | src/app/services/frame.service.ts:59-78 | One category per definition, carrying its id, name and description. Each holds exactly the frames whose `category` is that id, in their order and with their multiplicity, which is `GetFramesByCategory` of the list for that id. |
| FrameCatalog.GroupingPartitions | src/app/services/frame.service.ts:59-78 | With distinct ids that cover every frame, each frame lies in exactly one category. |
| FrameCatalog.SampleFrames | src/app/services/frame.service.ts:21-57 | The three sample frames, field by field; the third has no `isPopular`. `SampleCatalogWellFormed` states their ids are distinct and their categories known. |
| FrameCatalog.SampleCategoryDefs | src/app/services/frame.service.ts:59-78 | The ids, names and descriptions of the three sample categories. |
| FrameCatalog.InitialCategories | src/app/services/frame.service.ts:59-78 | The published categories: `GroupByCategory` of the sample frames. `InitialCategoriesPartition` proves each sample frame lies in exactly one of the three. |
| FrameCatalog.SampleCatalogWellFormed | src/app/services/frame.service.ts:21-78 | The three sample categories have distinct ids, and every sample frame names one of them. |
| FrameCatalog.InitialCategoriesPartition | src/app/services/frame.service.ts:59-78 | The published initial grouping has three categories, and each sample frame lies in exactly one of them. |
| FrameGalleryView.CategoryOptions | src/app/components/frame-gallery/frame-gallery.ts:54-62 | The catch-all entry with value "" comes first, then one entry (name, id) per category, in order. Length is categories + 1. |
| FrameGalleryView.InCategory | src/app/components/frame-gallery/frame-gallery.ts:76-78 | Defines the category step: the categories whose id is the selected one. `SelectedCategoryOnly` states its effect on the gallery. |
| FrameGalleryView.NarrowFrames | src/app/components/frame-gallery/frame-gallery.ts:83-89 | Defines the per-category step of the text filter: the category with only its matching frames. `NarrowKeepsMatching` and `GalleryAgreesWithSearch` state its properties. |
| FrameGalleryView.NarrowCategories | src/app/components/frame-gallery/frame-gallery.ts:83-90 | Every kept category is non-empty and holds only matching frames. The result keeps the categories' order and their frames' order. |
| FrameGalleryView.NarrowKeepsMatching | src/app/components/frame-gallery/frame-gallery.ts:83-90 | A category with a matching frame survives, holding exactly its matching frames. |
| FrameGalleryView.RefinedSubseqRefinesSome | src/app/components/frame-gallery/frame-gallery.ts:83-89 | Each category the filter keeps refines an input category: same id, name and description, and a subsequence of its frames. |
| FrameGalleryView.RefinedSubseqKeepsIds | src/app/components/frame-gallery/frame-gallery.ts:76-89 | When every input category has the same id (as after choosing a category), every kept category has that id too. |
| FrameGalleryView.NoCriteriaKeepsAll | src/app/components/frame-gallery/frame-gallery.ts:73-81 | No category and a blank query give the full category list. |
| FrameGalleryView.SelectedCategoryOnly | src/app/components/frame-gallery/frame-gallery.ts:76-78 | A selected category keeps only categories with that id, including after the text search. |
| FrameGalleryView.QueryNarrows | src/app/components/frame-gallery/frame-gallery.ts:81-90 | With a non-blank query, every kept frame matches the lower-cased, trimmed query, and no kept category is empty. Every eligible category with a match is kept. |
| FrameGalleryView.FilterPreservesOrder | src/app/components/frame-gallery/frame-gallery.ts:73-90 | The result is an order-preserving selection of categories, each holding an order-preserving sub-sequence of its frames. |
| FrameGalleryView.FilteredCategories | src/app/components/frame-gallery/frame-gallery.ts:73-90 | Defines `filterFrames`: the category filter, then the lower-cased, trimmed query, dropping categories left empty. Its properties are stated by `NoCriteriaKeepsAll`, `SelectedCategoryOnly`, `QueryNarrows`, `FilterPreservesOrder` and `GalleryAgreesWithSearch`. |
| FrameGalleryView.GalleryAgreesWithSearch | src/app/components/frame-gallery/frame-gallery.ts:82-89 | For a query without surrounding white space, the gallery keeps in each category exactly what the catalogue search returns. |
| FrameGalleryView.FrameGallery.constructor | src/app/components/frame-gallery/frame-gallery.ts:24-31 | Empty query and category, and empty lists. |
| FrameGalleryView.FrameGallery.OnCategoriesLoaded | src/app/components/frame-gallery/frame-gallery.ts:42-47 | Stores the categories, shows all of them, and rebuilds the options. The filters are untouched. |
| FrameGalleryView.FrameGallery.OnFramesLoaded | src/app/components/frame-gallery/frame-gallery.ts:49-51 | The popular frames are the catalogue's popular frames. |
| FrameGalleryView.FrameGallery.UpdateCategoryOptions | src/app/components/frame-gallery/frame-gallery.ts:54-62 | The options are `CategoryOptions` of the current categories. |
| FrameGalleryView.FrameGallery.FilterFrames | src/app/components/frame-gallery/frame-gallery.ts:72-94 | The filtered list equals `FilteredCategories`, whose properties are the lemmas above. |
| FrameGalleryView.FrameGallery.ClearFilters | src/app/components/frame-gallery/frame-gallery.ts:100-104 | Empty query and category. The filtered list is all categories, which is what filtering with no criteria gives. |
| EditorModel.Merge | src/app/services/editor.service.ts:210-213 | `{...current, ...updates}`: every supplied field takes the supplied value and every other field is unchanged. |
| EditorModel.MergeUnique | src/app/services/editor.service.ts:210-213 | Those two properties determine the merged snapshot completely. |
| EditorModel.MergeNothing | src/app/services/editor.service.ts:210-213 | Merging an empty update changes nothing. |
| EditorModel.MergeIdempotent | src/app/services/editor.service.ts:210-213 | Merging the same update twice is the same as merging it once. |
| EditorModel.MergeCompose | src/app/services/editor.service.ts:210-213 | Two merges equal one merge of the combined update, in which the later value wins. |
| EditorModel.InitialState | src/app/services/editor.service.ts:11-18 | Defines the first snapshot: no photo or frame, 800×800, zoom 1, rotation 0, no crop, not editing, not dirty. |
| EditorModel.MarkDirty | src/app/services/editor.service.ts:34 | Defines the update `{ isDirty: true }`, also issued at lines 141 and 156. |
| EditorModel.SetEditing | src/app/services/editor.service.ts:37-43 | Defines the updates `{ isEditing: true }` and `{ isEditing: false }` of the selection handlers. |
| EditorModel.SetZoom | src/app/services/editor.service.ts:165 | Defines the update `{ zoom: zoomLevel }`. |
| EditorModel.SelectionCreated | src/app/services/editor.service.ts:37-39 | Defines what making a layer active contributes: the `selection:created` update when nothing was selected, nothing otherwise. |
| EditorModel.ImageAdded | src/app/services/editor.service.ts:86-89 | Defines the update `{ uploadedImage: url, isDirty: true }`. `AddedContentDownloadable` proves the result downloadable. |
| EditorModel.FrameAdded | src/app/services/editor.service.ts:123-126 | Defines the update `{ selectedFrame: url, isDirty: true }`. `AddedContentDownloadable` proves the result downloadable. |
| EditorModel.ResetUpdate | src/app/services/editor.service.ts:175-182 | Defines the reset update, with both sources set to `undefined`. `ResetEffect` states the resulting snapshot. |
| EditorModel.ResetEffect | src/app/services/editor.service.ts:175-182 | Reset clears both sources, sets zoom 1, rotation 0, not editing and not dirty, and keeps the canvas size and crop area. Afterwards nothing can be downloaded. |
| EditorModel.CanDownload | src/app/components/image-editor/image-editor.ts:192-194 | Defines `canDownload`: the snapshot holds a photo or a frame. `ResetEffect` proves it false after a reset, `AddedContentDownloadable` proves it true after either add, and `ReloadedState` proves it equivalent to a non-empty canvas after reset and reload. |
| EditorModel.AddedContentDownloadable | src/app/services/editor.service.ts:86-89 | After a photo or a frame is added the snapshot is dirty and downloadable. |
| EditorModel.ParseFormat | src/app/models/editor.model.ts:31 | A parsed format name is the name of the format it parses to. |
| EditorModel.ParseFormatName | src/app/models/editor.model.ts:31 | Every export format's name parses back to it. |
| EditorEngine.FitScale | src/app/services/editor.service.ts:66-69 | The scale is at most 0.8·cw/w and at most 0.8·ch/h, and equals one of them. |
| EditorEngine.FittedPhotoWithinEightyPercent | src/app/services/editor.service.ts:61-69 | w·scale ≤ 0.8·cw and h·scale ≤ 0.8·ch, with equality on at least one axis. |
| EditorEngine.FittedPhoto | src/app/services/editor.service.ts:61-80 | Defines the photo placement: uniform `FitScale`, centre origin at the canvas centre, selectable. `FittedPhotoWithinEightyPercent`, `FittedPhotoCentred` and `ZeroSizeCountsAsOne` state its properties. |
| EditorEngine.StretchedFrame | src/app/services/editor.service.ts:106-116 | Defines the frame placement: top-left at the origin, scaled to the canvas on each axis, neither selectable nor evented. `FrameCoversCanvas` and `ZeroSizeCountsAsOne` state its properties. |
| EditorEngine.FittedPhotoCentred | src/app/services/editor.service.ts:71-80 | Equal scales, centred at (cw/2, ch/2) with centre origin, selectable and evented. The box keeps 10% of the canvas free on every side. |
| EditorEngine.ZeroSizeCountsAsOne | src/app/services/editor.service.ts:63-64 | A zero natural size scales photo and frame exactly as size 1. |
| EditorEngine.WidePhotoExample | src/app/services/editor.service.ts:61-75 | A 1600×800 photo on the 800×800 canvas gets scale 0.4 and is centred at 400. |
| EditorEngine.FrameCoversCanvas | src/app/services/editor.service.ts:109-116 | The frame starts at (0,0), w·scaleX = cw and h·scaleY = ch, and it is neither selectable nor evented. |
| EditorEngine.FlipProperties | src/app/services/editor.service.ts:150-154 | A flip toggles exactly one flag, and flipping twice the same way restores the layer. |
| EditorEngine.RotationsAdd | src/app/services/editor.service.ts:138-139 | Rotations add up, and rotating by 0 changes nothing. |
| EditorEngine.MovesAdd | src/app/components/image-editor/image-editor.ts:153-156 | Moves add up, and the opposite move undoes a move. |
| EditorEngine.CenteringIdempotent | src/app/components/image-editor/image-editor.ts:167-170 | Centring is idempotent and discards any earlier move. |
| EditorEngine.Rotated | src/app/services/editor.service.ts:138-139 | Defines the rotation step: the angle increases by the delta. `RotationsAdd` states its properties. |
| EditorEngine.Flipped | src/app/services/editor.service.ts:150-154 | Defines the flip: the chosen axis flag is negated. `FlipProperties` states its properties. |
| EditorEngine.Moved | src/app/components/image-editor/image-editor.ts:153-156 | Defines the move: left and top shift by (dx, dy). `MovesAdd` states its properties. |
| EditorEngine.Centered | src/app/components/image-editor/image-editor.ts:167-170 | Defines centring: left and top become half the canvas width and height. `CenteringIdempotent` states its properties. |
| EditorEngine.Layer.FromDecoded | src/app/services/editor.service.ts:57 | A decoded image has the library's defaults: origin at the top-left, scale 1, angle 0, no flips, selectable and evented. |
| EditorEngine.Layer.Set | src/app/services/editor.service.ts:71-80 | The library's `set`: the layer takes the given properties. |
| EditorEngine.Canvas.constructor | src/app/services/editor.service.ts:25-30 | A canvas of the given size and background, with no objects and no selection. |
| EditorEngine.Canvas.Add | src/app/services/editor.service.ts:82 | The object is appended on top. |
| EditorEngine.Canvas.BringObjectToFront | src/app/services/editor.service.ts:120 | The first occurrence of the object is removed and the object is appended on top. |
| EditorEngine.Canvas.SetActiveObject | src/app/services/editor.service.ts:83 | The object becomes the active one. |
| EditorEngine.Canvas.Clear | src/app/services/editor.service.ts:171 | No objects, no selection, no background. |
| EditorEngine.EditorService.constructor | src/app/services/editor.service.ts:10-18 | No canvas, and the initial snapshot: 800×800, zoom 1, rotation 0, not editing, not dirty. |
| EditorEngine.EditorService.InitializeCanvas | src/app/services/editor.service.ts:24-31 | A fresh, empty, white 800×800 canvas. The invariant holds. |
| EditorEngine.EditorService.UpdateEditorState | src/app/services/editor.service.ts:210-213 | The snapshot becomes its merge with the update. |
| EditorEngine.EditorService.OnObjectModified | src/app/services/editor.service.ts:33-35 | Marks the snapshot dirty. |
| EditorEngine.EditorService.OnSelectionCreated | src/app/services/editor.service.ts:37-39 | Sets `isEditing`. |
| EditorEngine.EditorService.OnSelectionCleared | src/app/services/editor.service.ts:41-43 | Clears `isEditing`. |
| EditorEngine.EditorService.AddImageToCanvas | src/app/services/editor.service.ts:50-94 | Without a canvas it fails with "not initialised", and a failed load fails too; both leave everything unchanged. Otherwise a fresh layer with the fitted placement is appended on top and becomes active, the snapshot records the photo and is dirty, and the invariant holds. When nothing was active before, making the photo active fires `selection:created`, so the snapshot also turns to editing. |
| EditorEngine.EditorService.AddFrameToCanvas | src/app/services/editor.service.ts:96-131 | The same guards. Otherwise a fresh layer with the stretched placement is appended as the topmost layer and earlier layers, frames included, stay below it. The selection is unchanged, and the snapshot records the frame and is dirty. |
| EditorEngine.EditorService.RotateSelectedObject | src/app/services/editor.service.ts:133-143 | With a canvas and an active layer: the angle increases by the delta and the snapshot is marked dirty. Otherwise nothing changes. |
| EditorEngine.EditorService.FlipSelectedObject | src/app/services/editor.service.ts:145-158 | With a canvas and an active layer: the chosen flag is toggled and the snapshot is marked dirty. Otherwise nothing changes. |
| EditorEngine.EditorService.ZoomCanvas | src/app/services/editor.service.ts:160-166 | With a canvas the snapshot's zoom is the given level, not clamped. Otherwise nothing changes. |
| EditorEngine.EditorService.ResetCanvas | src/app/services/editor.service.ts:168-183 | With a canvas: no layers, no selection, a white background, the same size, and the reset snapshot. A selection, if there was one, fires `selection:cleared` on clearing; the reset update overrides its effect. Otherwise nothing changes. |
| EditorEngine.EditorService.ExportCanvas | src/app/services/editor.service.ts:185-197 | Gives "" without a canvas. Otherwise it renders the scene with the options' format, quality and size at multiplier 1. |
| EditorEngine.EditorService.DownloadCanvas | src/app/services/editor.service.ts:199-208 | The link is named `filename.format` with the format value as given, and points at the export, which is "" without a canvas. |
| ImageEditorView.ZoomStaysInRange | src/app/components/image-editor/image-editor.ts:176-184 | From any level, zoom-in gives at most 3 and zoom-out at least 0.1. Zoom-in never lowers a level up to 3, and zoom-out never raises a level from 0.1. Both keep [0.1, 3]. |
| ImageEditorView.ZoomRoundTrip | src/app/components/image-editor/image-editor.ts:176-184 | Away from the bounds, one step out undoes one step in and vice versa. At the bounds the steps saturate. |
| ImageEditorView.ZoomInLevel | src/app/components/image-editor/image-editor.ts:176-179 | Defines `zoomIn`'s level: min(zoom + 0.1, 3). `ZoomStaysInRange`, `ZoomRoundTrip`, `ZoomInRepeated` and `ZoomFromInitial` state its properties. |
| ImageEditorView.ZoomOutLevel | src/app/components/image-editor/image-editor.ts:181-184 | Defines `zoomOut`'s level: max(zoom − 0.1, 0.1). `ZoomStaysInRange`, `ZoomRoundTrip`, `ZoomOutRepeated` and `ZoomFromInitial` state its properties. |
| ImageEditorView.ZoomInRepeated | src/app/components/image-editor/image-editor.ts:176-179 | n steps in add n tenths, up to 3. |
| ImageEditorView.ZoomOutRepeated | src/app/components/image-editor/image-editor.ts:181-184 | n steps out remove n tenths, down to 0.1. |
| ImageEditorView.ZoomFromInitial | src/app/components/image-editor/image-editor.ts:176-184 | In exact arithmetic: from 1, twenty steps in reach 3 and nine steps out reach 0.1. 0.95 steps to 1.05, unclamped. |
| ImageEditorView.StripSeparators | src/app/components/image-editor/image-editor.ts:209 | No ':' or '-' remains. The length is kept exactly when there was none to remove. `StripSeparatorsContent` states the contents and `StripKeeps` the case without separators. |
| ImageEditorView.StripSeparatorsContent | src/app/components/image-editor/image-editor.ts:209 | Every other character is kept, in order and as often as it occurs, so the result is exactly the input without its separators. |
| ImageEditorView.StripKeeps | src/app/components/image-editor/image-editor.ts:209 | A string without separators is left unchanged. |
| ImageEditorView.StripConcat | src/app/components/image-editor/image-editor.ts:209 | Removing separators distributes over concatenation. |
| ImageEditorView.Timestamp | src/app/components/image-editor/image-editor.ts:209 | At most 19 characters, and none is ':' or '-'. |
| ImageEditorView.Filename | src/app/components/image-editor/image-editor.ts:209-210 | Defines the download name without its extension: `frame-avatar-` and the stamp. `IsoTimestamp` and `IsoTimestampPieces` state the stamp's form. |
| ImageEditorView.IsoTimestampPieces | src/app/components/image-editor/image-editor.ts:209-210 | On a well-formed ISO time, the stamp is its first 19 characters without the two '-' and the two ':'. |
| ImageEditorView.IsoTimestamp | src/app/components/image-editor/image-editor.ts:209-210 | On a well-formed ISO time, the stamp has 15 characters: 8 date digits, 'T', then 6 time digits. |
| ImageEditorView.BuildExportOptions | src/app/components/image-editor/image-editor.ts:199-207 | Format and quality are copied, there is no background, and width and height are set exactly when the size option is "custom", to the custom values. |
| ImageEditorView.FormatOptionValues | src/app/components/image-editor/image-editor.ts:66-70 | The picker's values in order: "png", "jpg", "webp". `JpgOptionIsNoExportFormat` and `CorrectedFormatOptionValues` state what is wrong with them and the corrected list. |
| ImageEditorView.JpgOptionIsNoExportFormat | src/app/components/image-editor/image-editor.ts:66-70 | The picker offers "jpg", which is not an export format. Once chosen, "jpg" is the format of the options `downloadImage` builds, so the render request carries a format the declared type does not admit. |
| ImageEditorView.CorrectedFormatOptionValues | src/app/components/image-editor/image-editor.ts:66-70 | Every value of the corrected picker is an export format, and every export format is offered. |
| ImageEditorView.InitialLayers | src/app/components/image-editor/image-editor.ts:96-114 | Defines the layers the load adds: the photo when it is wanted and decodes, then the frame when the load reaches it and it decodes. `InitialLayersOrder` states its properties. |
| ImageEditorView.InitialLayersOrder | src/app/components/image-editor/image-editor.ts:100-108 | At most two layers. The photo comes first, selectable and centred, and the frame last, on top, not selectable. A photo that fails to load means no frame either. |
| ImageEditorView.LoadedState | src/app/components/image-editor/image-editor.ts:96-114 | Defines the snapshot after the load: the photo's update (with the `selection:created` effect when nothing was selected), then the frame's when the load reaches it. `LoadedStateFields`, `LoadSteps` and `ReloadedState` state what it holds. |
| ImageEditorView.LoadedStateFields | src/app/components/image-editor/image-editor.ts:96-114 | After the load, the snapshot records the photo URL and the frame URL exactly when their layers were added. It is dirty when it was dirty before or a layer was added. It is editing when it was before, or when the photo was added while nothing was selected (the `selection:created` handler). Zoom, rotation, canvas size and crop area are unchanged. |
| ImageEditorView.LoadSteps | src/app/components/image-editor/image-editor.ts:96-114 | The photo step, then the frame step when the load reaches it, give exactly `LoadedState`. |
| ImageEditorView.ReloadedState | src/app/components/image-editor/image-editor.ts:187-190 | After reset and reload, with nothing selected before the reload: zoom 1, rotation 0, and editing exactly when the photo was added. The snapshot is dirty, and a download is offered, exactly when a layer was added. |
| ImageEditorView.ImageEditor.constructor | src/app/components/image-editor/image-editor.ts:40-64 | The inputs are bound; the settings are PNG at quality 0.9, original size, and a custom size of 800×800. |
| ImageEditorView.ImageEditor.SelectFormat | src/app/components/image-editor/image-editor.ts:57-70 | Any picker value, "jpg" included, is stored as the export format as it is, and nothing else in the options changes. |
| ImageEditorView.ImageEditor.ZoomIn | src/app/components/image-editor/image-editor.ts:176-179 | The snapshot's zoom becomes the clamped step up of the current zoom when there is a canvas. |
| ImageEditorView.ImageEditor.ZoomOut | src/app/components/image-editor/image-editor.ts:181-184 | The snapshot's zoom becomes the clamped step down of the current zoom when there is a canvas. |
| ImageEditorView.ImageEditor.MoveObject | src/app/components/image-editor/image-editor.ts:147-159 | The active layer is moved by (dx, dy) and nothing else changes. The snapshot is not marked dirty. |
| ImageEditorView.ImageEditor.CenterObject | src/app/components/image-editor/image-editor.ts:161-173 | The active layer's position becomes the canvas centre (400, 400), and nothing else changes. |
| ImageEditorView.ImageEditor.LoadPhoto | src/app/components/image-editor/image-editor.ts:100-103 | A non-empty photo URL is added as the new top layer and becomes active, and the snapshot takes `PhotoUpdate`, which includes the `selection:created` effect when nothing was selected before. The result reports whether the sequence may go on. |
| ImageEditorView.AppendedTwice | src/app/components/image-editor/image-editor.ts:96-114 | Two appends in a row, the photo and then the frame, add the two layer lists concatenated on top of the old canvas. |
| ImageEditorView.ImageEditor.LoadFrame | src/app/components/image-editor/image-editor.ts:105-108 | A given frame is added on top, the snapshot records its URL, and the active layer is kept. Whatever sat below the frame in the canvas before it stays as it was. |
| ImageEditorView.ImageEditor.LoadInitialContent | src/app/components/image-editor/image-editor.ts:96-114 | Appends exactly `InitialLayers` above the existing layers: the photo first, the frame on top. The snapshot becomes `LoadedState` of the old one, given whether a layer was selected before. The active layer is the added photo, or stays as it was when no photo was added. Errors are swallowed. |
| ImageEditorView.ImageEditor.ResetEditor | src/app/components/image-editor/image-editor.ts:187-190 | The canvas ends up holding exactly the initial layers, on a white background. The photo layer, if any, is active, and otherwise nothing is. The snapshot is `LoadedState` of the reset snapshot: zoom 1, rotation 0, editing exactly when a layer is active, and downloadable exactly when the canvas is not empty. |
| ImageEditorView.ImageEditor.DownloadImage | src/app/components/image-editor/image-editor.ts:192-213 | Nothing without a photo or frame in the snapshot. Otherwise the link is named `frame-avatar-<stamp>.<format value>`, so "jpg" gives `.jpg`. It points at the render of the scene for the built options, whose format is the stored value unchanged. |
| ImageUploadView.Rejection | src/app/components/image-upload/image-upload.ts:58-71 | A file is accepted iff its type is jpeg, png or webp and its size is at most 10 MiB. A file of another type gets the type message, whatever its size. A file of an allowed type over 10 MiB gets the size message. |
| ImageUploadView.RejectionBoundaries | src/app/components/image-upload/image-upload.ts:62-71 | A wrong type gets the type message whatever the size. Exactly 10 MiB passes and one byte more gets the size message. |
| ImageUploadView.UnitIndex | src/app/components/image-upload/image-upload.ts:98 | For a positive size the index i satisfies 1024^i ≤ size < 1024^(i+1). |
| ImageUploadView.FormatFileSize | src/app/components/image-upload/image-upload.ts:94-100 | Zero is "0 Bytes". Otherwise the amount times 1024^i is the size, and the unit is the i-th of Bytes, KB, MB, GB, or "undefined" past them. |
| ImageUploadView.FileSizeAmountInRange | src/app/components/image-upload/image-upload.ts:94-100 | For a non-zero size, the unrounded quotient of the size by its unit's power of 1024 lies from 1 up to, but not including, 1024. Rounding to two decimals can still print 1024 (1048575 bytes gives "1024 KB"). |
| ImageUploadView.AcceptedSizeUnit | src/app/components/image-upload/image-upload.ts:97-99 | Any size the size check accepts is labelled Bytes, KB or MB. |
| ImageUploadView.Emitted | src/app/components/image-upload/image-upload.ts:102-106 | Something is emitted iff the preview URL is set and non-empty, and then it is that URL. |
| ImageUploadView.ImageUpload.constructor | src/app/components/image-upload/image-upload.ts:17-23 | No drag, no upload, no preview, no file, empty name and message. |
| ImageUploadView.ImageUpload.OnDragOver | src/app/components/image-upload/image-upload.ts:28-32 | The drag flag is set. |
| ImageUploadView.ImageUpload.OnDragLeave | src/app/components/image-upload/image-upload.ts:34-38 | The drag flag is cleared. |
| ImageUploadView.ImageUpload.HandleFile | src/app/components/image-upload/image-upload.ts:58-77 | A rejected file sets its message and leaves selection, name, size label and upload flag unchanged. An accepted file clears the message, becomes the selection with its name and size label, and starts the upload. |
| ImageUploadView.ImageUpload.OnDrop | src/app/components/image-upload/image-upload.ts:40-49 | The drag ends. With no file nothing else changes. Otherwise the first file gets `HandleFile`'s outcome in full. A rejection sets the message and keeps the selection, name, size label and upload flag. An acceptance clears the message, selects the file, sets its name and size label, and starts the read. |
| ImageUploadView.ImageUpload.OnFileSelected | src/app/components/image-upload/image-upload.ts:51-56 | With no file nothing changes. Otherwise the first file gets `HandleFile`'s outcome in full. A rejection sets the message and keeps the selection, name, size label and upload flag. An acceptance clears the message, selects the file, sets its name and size label, and starts the read. |
| ImageUploadView.ImageUpload.OnPreviewLoaded | src/app/components/image-upload/image-upload.ts:83-86 | The data URL becomes the preview and the upload ends. |
| ImageUploadView.ImageUpload.OnPreviewFailed | src/app/components/image-upload/image-upload.ts:87-90 | The read-error message is shown and the upload ends. |
| ImageUploadView.ImageUpload.UseImage | src/app/components/image-upload/image-upload.ts:102-106 | Emits the preview URL exactly when it is set and non-empty. |
| ImageUploadView.ImageUpload.ClearPreview | src/app/components/image-upload/image-upload.ts:112-121 | Preview, file, name, size label and message are reset, so nothing can be emitted. |
| AppFlow.Depth | src/app/app.ts:11 | Welcome is at depth 0 and every screen is at most three steps from it. |
| AppFlow.Back | src/app/app.ts:58-72 | Defines `goBack`'s mapping: upload→welcome, frames→upload, editor→frames, welcome stays. `BackLowersDepth` and `BackTimesDepth` state its effect on the depth. |
| AppFlow.BackLowersDepth | src/app/app.ts:58-72 | Back lowers the depth by one, except on the welcome screen, which it keeps. |
| AppFlow.BackTimesDepth | src/app/app.ts:58-72 | n presses of back lower the depth by n, stopping at 0. |
| AppFlow.ThreeBacksReachWelcome | src/app/app.ts:58-72 | Three or more presses of back reach the welcome screen from any screen. |
| AppFlow.App.constructor | src/app/app.ts:28-30 | Welcome screen, nothing chosen. |
| AppFlow.App.StartCreating | src/app/app.ts:36-38 | Moves to upload. |
| AppFlow.App.OnCreateNew | src/app/app.ts:32-34 | Moves to upload. |
| AppFlow.App.ViewFrames | src/app/app.ts:40-42 | Moves to frames. |
| AppFlow.App.OnImageSelected | src/app/app.ts:44-47 | Stores the photo and moves to frames. |
| AppFlow.App.OnFrameSelected | src/app/app.ts:49-52 | Stores the frame and moves to the editor. |
| AppFlow.App.SkipFrameSelection | src/app/app.ts:54-56 | Moves to the editor. Any earlier frame stays chosen. |
| AppFlow.App.GoBack | src/app/app.ts:58-72 | The screen becomes `Back` of the current one, and the choices are kept. |
| AppFlow.App.Restart | src/app/app.ts:74-78 | Welcome screen, and both choices cleared. |

## Left out

- Image decoding (`Image.fromURL`) and the promises around it are not modelled. The decoded size, or a load failure, is a parameter. The callback's second `if (!this.canvas) return` leaves the promise pending, which is not modelled; the canvas never becomes null once created.
- Rendering is not modelled: `renderAll`, the view transform of `setZoom`, and the encoding done by `toDataURL`. The renderer is a function parameter and the zoom is recorded only in the snapshot.
- Browser I/O is left out: creating and clicking the download anchor (the model returns the link), the `FileReader` (its two outcomes are methods), drag events beyond the drag flag, and `selectNewImage`.
- RxJS subjects and subscriptions are modelled as plain fields. The editor screen reads the service's snapshot directly instead of its subscribed copy.
- Angular inputs, outputs and templates are left out. `selectFrame` only forwards the frame to the parent, whose receiving end is `AppFlow.App.OnFrameSelected`. `onSearch` and `onCategoryChange` only call `FilterFrames`. `addImage`, `addFrame`, `rotateImage` and `flipImage` only forward to the service.
- UI-only state is left out: `isLoading`, `isProcessing`, `onImageError`, the header component and the styling configuration.
- `getCanvas` and `getCurrentState` are plain reads and have no model of their own. `preserveObjectStacking` and the `moveable` property have no effect in the model.
- The `createdAt` field of a frame is not modelled.
- Basics.Lower: folds only the ASCII letters A–Z. Full Unicode `toLowerCase` is not modelled, so queries with accented capitals such as "Đ" are compared without folding them.
- ImageUploadView.FormatFileSize: states the exact quotient and the unit. It does not model rounding to two decimals with `toFixed`, `parseFloat`, the printed number, or floating-point error of `Math.log` at exact powers of 1024.
- The size label is a value, not the printed string.
- ImageUploadView.FileSizeAmountInRange: bounds the amount before rounding. After `toFixed(2)` the printed amount can reach 1024 (1048575 bytes is labelled "1024 KB"), which the model does not state.
- The default arguments of `exportCanvas` and `downloadCanvas` (PNG at quality 1, the name `frame-avatar`) are not modelled: the only caller passes both.
- ImageEditorView.ZoomFromInitial: holds in exact arithmetic. In doubles, nine steps out from 1 give 0.10000000000000014, and it takes ten to reach 0.1. Twenty steps in still reach 3, because the twentieth exceeds 3 and is clamped.
- Geometry and zoom use exact rational arithmetic. JavaScript floating-point rounding (for example 0.1 + 0.2) is not modelled.
- EditorEngine.EditorService.RotateSelectedObject: the library rotates around the layer's centre. The model only adds to the angle, which is the same for the layers that can be active here, because they all have their origin at the centre (the service invariant).
- The rotate and move code read an absent angle or position as 0 (`|| 0`). This is not modelled, because a layer always has both.
- The selection events are modelled only where the service causes them: `setActiveObject` in `addImageToCanvas` fires `selection:created` when nothing was selected, and `clear` in `resetCanvas` fires `selection:cleared` when something was. Selections made by the user's pointer are the handler methods on their own.
- Concurrent loads, and a reset while a load is in flight, are not modelled. Each operation runs to completion.

## Findings

| source | as written | input that shows it | evidently intended | confidence | as-written member | corrected member |
|---|---|---|---|---|---|---|
| src/app/components/image-editor/image-editor.ts:66-70 | The format picker offers the value "jpg", and it is passed on as `ExportOptions.format`. That type admits only "png", "jpeg" and "webp" (src/app/models/editor.model.ts:31). | Choosing "JPG (Nền trắng)" and downloading. The file is named `….jpg` and the renderer is asked for format "jpg". | The value "jpeg", which is a valid export format. | not executed | ImageEditorView.JpgOptionIsNoExportFormat | ImageEditorView.CorrectedFormatOptionValues |
