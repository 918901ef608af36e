/** The editor records of `models/editor.model.ts` and the copy-with-update
    merge `{ ...current, ...updates }` of `EditorService.updateEditorState`. */
module EditorModel {
  import opened Basics

  datatype CropArea = CropArea(x: real, y: real, width: real, height: real)

  /** The published editor snapshot. */
  datatype EditorState = EditorState(
    selectedFrame: Option<string>,
    uploadedImage: Option<string>,
    canvasWidth: real,
    canvasHeight: real,
    zoom: real,
    rotation: real,
    cropArea: Option<CropArea>,
    isEditing: bool,
    isDirty: bool)

  /** The snapshot the editor service starts with. */
  function InitialState(): EditorState {
    EditorState(None, None, 800.0, 800.0, 1.0, 0.0, None, false, false)
  }

  /** `Partial<EditorState>`: `None` is a key that is absent. For the three
      optional fields `Some(None)` is a key present with the value
      `undefined`, which the spread copies over the current value. */
  datatype StateUpdate = StateUpdate(
    selectedFrame: Option<Option<string>>,
    uploadedImage: Option<Option<string>>,
    canvasWidth: Option<real>,
    canvasHeight: Option<real>,
    zoom: Option<real>,
    rotation: Option<real>,
    cropArea: Option<Option<CropArea>>,
    isEditing: Option<bool>,
    isDirty: Option<bool>)

  const NoUpdate := StateUpdate(None, None, None, None, None, None, None, None, None)

  function Pick<T>(supplied: Option<T>, current: T): T {
    if supplied.Some? then supplied.value else current
  }

  /** Every field the update supplies holds the supplied value in `r`. */
  predicate Overwrites(r: EditorState, u: StateUpdate) {
    && (u.selectedFrame.Some? ==> r.selectedFrame == u.selectedFrame.value)
    && (u.uploadedImage.Some? ==> r.uploadedImage == u.uploadedImage.value)
    && (u.canvasWidth.Some? ==> r.canvasWidth == u.canvasWidth.value)
    && (u.canvasHeight.Some? ==> r.canvasHeight == u.canvasHeight.value)
    && (u.zoom.Some? ==> r.zoom == u.zoom.value)
    && (u.rotation.Some? ==> r.rotation == u.rotation.value)
    && (u.cropArea.Some? ==> r.cropArea == u.cropArea.value)
    && (u.isEditing.Some? ==> r.isEditing == u.isEditing.value)
    && (u.isDirty.Some? ==> r.isDirty == u.isDirty.value)
  }

  /** Every field the update leaves out is the same in `r` as in `s`. */
  predicate KeepsUnsupplied(r: EditorState, s: EditorState, u: StateUpdate) {
    && (u.selectedFrame.None? ==> r.selectedFrame == s.selectedFrame)
    && (u.uploadedImage.None? ==> r.uploadedImage == s.uploadedImage)
    && (u.canvasWidth.None? ==> r.canvasWidth == s.canvasWidth)
    && (u.canvasHeight.None? ==> r.canvasHeight == s.canvasHeight)
    && (u.zoom.None? ==> r.zoom == s.zoom)
    && (u.rotation.None? ==> r.rotation == s.rotation)
    && (u.cropArea.None? ==> r.cropArea == s.cropArea)
    && (u.isEditing.None? ==> r.isEditing == s.isEditing)
    && (u.isDirty.None? ==> r.isDirty == s.isDirty)
  }

  /** `{ ...current, ...updates }`. */
  function Merge(s: EditorState, u: StateUpdate): (r: EditorState)
    ensures Overwrites(r, u) && KeepsUnsupplied(r, s, u)
  {
    EditorState(
      Pick(u.selectedFrame, s.selectedFrame), Pick(u.uploadedImage, s.uploadedImage),
      Pick(u.canvasWidth, s.canvasWidth), Pick(u.canvasHeight, s.canvasHeight),
      Pick(u.zoom, s.zoom), Pick(u.rotation, s.rotation), Pick(u.cropArea, s.cropArea),
      Pick(u.isEditing, s.isEditing), Pick(u.isDirty, s.isDirty))
  }

  /** The two properties of `Merge` pin its result down completely. */
  lemma MergeUnique(s: EditorState, u: StateUpdate, r: EditorState)
    requires Overwrites(r, u) && KeepsUnsupplied(r, s, u)
    ensures r == Merge(s, u)
  {
  }

  lemma MergeNothing(s: EditorState)
    ensures Merge(s, NoUpdate) == s
  {
  }

  /** Applying the same update twice is the same as applying it once. */
  lemma MergeIdempotent(s: EditorState, u: StateUpdate)
    ensures Merge(Merge(s, u), u) == Merge(s, u)
  {
  }

  /** `{ ...u1, ...u2 }`: the later update wins on the keys both supply. */
  function Combine(u1: StateUpdate, u2: StateUpdate): StateUpdate {
    StateUpdate(
      if u2.selectedFrame.Some? then u2.selectedFrame else u1.selectedFrame,
      if u2.uploadedImage.Some? then u2.uploadedImage else u1.uploadedImage,
      if u2.canvasWidth.Some? then u2.canvasWidth else u1.canvasWidth,
      if u2.canvasHeight.Some? then u2.canvasHeight else u1.canvasHeight,
      if u2.zoom.Some? then u2.zoom else u1.zoom,
      if u2.rotation.Some? then u2.rotation else u1.rotation,
      if u2.cropArea.Some? then u2.cropArea else u1.cropArea,
      if u2.isEditing.Some? then u2.isEditing else u1.isEditing,
      if u2.isDirty.Some? then u2.isDirty else u1.isDirty)
  }

  /** Two successive merges are one merge of the combined update. */
  lemma MergeCompose(s: EditorState, u1: StateUpdate, u2: StateUpdate)
    ensures Merge(Merge(s, u1), u2) == Merge(s, Combine(u1, u2))
  {
  }

  /** The updates the editor service issues. */
  function MarkDirty(): StateUpdate { NoUpdate.(isDirty := Some(true)) }
  function SetEditing(editing: bool): StateUpdate { NoUpdate.(isEditing := Some(editing)) }
  function SetZoom(level: real): StateUpdate { NoUpdate.(zoom := Some(level)) }
  /** What making a layer active contributes through the `selection:created`
      handler. The drawing library fires that event only when nothing was
      selected before; a change from one selection to another fires
      `selection:updated`, which the service does not listen to. */
  function SelectionCreated(hadSelection: bool): StateUpdate {
    if hadSelection then NoUpdate else SetEditing(true)
  }
  function ImageAdded(url: string): StateUpdate {
    NoUpdate.(uploadedImage := Some(Some(url)), isDirty := Some(true))
  }
  function FrameAdded(url: string): StateUpdate {
    NoUpdate.(selectedFrame := Some(Some(url)), isDirty := Some(true))
  }
  function ResetUpdate(): StateUpdate {
    NoUpdate.(selectedFrame := Some(None), uploadedImage := Some(None), zoom := Some(1.0),
              rotation := Some(0.0), isEditing := Some(false), isDirty := Some(false))
  }

  /** `ImageEditor.canDownload`: there is a photo or a frame to export. */
  predicate CanDownload(s: EditorState) {
    s.uploadedImage.Some? || s.selectedFrame.Some?
  }

  /** Reset clears both sources, restores zoom 1, rotation 0 and both flags,
      and keeps the canvas size and crop area; afterwards nothing can be
      downloaded. */
  lemma ResetEffect(s: EditorState)
    ensures var r := Merge(s, ResetUpdate());
      && r.selectedFrame.None? && r.uploadedImage.None?
      && r.zoom == 1.0 && r.rotation == 0.0 && !r.isEditing && !r.isDirty
      && r.canvasWidth == s.canvasWidth && r.canvasHeight == s.canvasHeight && r.cropArea == s.cropArea
      && !CanDownload(r)
  {
  }

  /** Adding a photo or a frame makes the state downloadable and dirty. */
  lemma AddedContentDownloadable(s: EditorState, url: string)
    ensures CanDownload(Merge(s, ImageAdded(url))) && Merge(s, ImageAdded(url)).isDirty
    ensures CanDownload(Merge(s, FrameAdded(url))) && Merge(s, FrameAdded(url)).isDirty
  {
  }

  datatype ExportFormat = Png | Jpeg | Webp

  /** The format names `ExportOptions.format` admits. */
  function FormatName(f: ExportFormat): string {
    match f
    case Png => "png"
    case Jpeg => "jpeg"
    case Webp => "webp"
  }

  function ParseFormat(s: string): (r: Option<ExportFormat>)
    ensures r.Some? ==> FormatName(r.value) == s
  {
    if s == "png" then Some(Png)
    else if s == "jpeg" then Some(Jpeg)
    else if s == "webp" then Some(Webp)
    else None
  }

  lemma ParseFormatName(f: ExportFormat)
    ensures ParseFormat(FormatName(f)) == Some(f)
  {
  }

  /** `ExportOptions`. Its declared type admits only the names of
      `ExportFormat` for `format`, but at run time the field holds whatever
      string the component stored there, and that string is passed on
      unchecked. */
  datatype ExportOptions = ExportOptions(
    format: string,
    quality: real,
    width: Option<real>,
    height: Option<real>,
    backgroundColor: Option<string>)

  /** A format value the declared type admits. */
  predicate IsExportFormat(format: string) {
    ParseFormat(format).Some?
  }
}
