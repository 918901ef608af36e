/** The editor screen of `components/image-editor/image-editor.ts`: zoom steps,
    moving and centring the active layer, the initial load of photo and
    frame, reset, and the download with its timestamped file name. The
    component's `editorState` copy is read directly from the service's
    snapshot, which is what the subscription keeps it equal to. */
module ImageEditorView {
  import opened Basics
  import opened FrameModel
  import opened EditorModel
  import opened EditorEngine

  const MaxZoom: real := 3.0
  const MinZoom: real := 0.1
  const ZoomStep: real := 0.1

  function Min(a: real, b: real): real { if a <= b then a else b }
  function Max(a: real, b: real): real { if a >= b then a else b }

  /** `zoomIn`: one step up, capped at 3. */
  function ZoomInLevel(z: real): real { Min(z + ZoomStep, MaxZoom) }

  /** `zoomOut`: one step down, floored at 0.1. */
  function ZoomOutLevel(z: real): real { Max(z - ZoomStep, MinZoom) }

  /** A step in never goes above 3 and a step out never below 0.1; zooming in
      never lowers the level, zooming out never raises it, and from inside
      [0.1, 3] both stay inside it. */
  lemma ZoomStaysInRange(z: real)
    ensures ZoomInLevel(z) <= MaxZoom && ZoomOutLevel(z) >= MinZoom
    ensures z <= MaxZoom ==> z <= ZoomInLevel(z) <= MaxZoom
    ensures z >= MinZoom ==> MinZoom <= ZoomOutLevel(z) <= z
    ensures MinZoom <= z <= MaxZoom ==>
              MinZoom <= ZoomInLevel(z) <= MaxZoom && MinZoom <= ZoomOutLevel(z) <= MaxZoom
  {
  }

  /** Away from the bounds one step out undoes one step in, and conversely;
      at the bounds the steps saturate. */
  lemma ZoomRoundTrip(z: real)
    ensures MinZoom <= z <= MaxZoom - ZoomStep ==> ZoomOutLevel(ZoomInLevel(z)) == z
    ensures MinZoom + ZoomStep <= z <= MaxZoom ==> ZoomInLevel(ZoomOutLevel(z)) == z
    ensures ZoomInLevel(MaxZoom) == MaxZoom && ZoomOutLevel(MinZoom) == MinZoom
  {
  }

  function ZoomInTimes(z: real, n: nat): real
    decreases n
  {
    if n == 0 then z else ZoomInTimes(ZoomInLevel(z), n - 1)
  }

  function ZoomOutTimes(z: real, n: nat): real
    decreases n
  {
    if n == 0 then z else ZoomOutTimes(ZoomOutLevel(z), n - 1)
  }

  /** `n` steps in from a level at most 3 add `n` tenths, up to the cap. */
  lemma {:induction false} ZoomInRepeated(z: real, n: nat)
    requires z <= MaxZoom
    decreases n
    ensures ZoomInTimes(z, n) == Min(z + ZoomStep * n as real, MaxZoom)
  {
    if n > 0 {
      ZoomInRepeated(ZoomInLevel(z), n - 1);
    }
  }

  /** `n` steps out from a level at least 0.1 take `n` tenths, down to the floor. */
  lemma {:induction false} ZoomOutRepeated(z: real, n: nat)
    requires z >= MinZoom
    decreases n
    ensures ZoomOutTimes(z, n) == Max(z - ZoomStep * n as real, MinZoom)
  {
    if n > 0 {
      ZoomOutRepeated(ZoomOutLevel(z), n - 1);
    }
  }

  /** From the initial zoom of 1, twenty steps reach the cap and nine steps
      the floor; below the cap a step is not clamped (0.95 becomes 1.05). */
  lemma ZoomFromInitial()
    ensures ZoomInTimes(1.0, 20) == MaxZoom
    ensures ZoomOutTimes(1.0, 9) == MinZoom
    ensures ZoomInLevel(0.95) == 1.05
  {
    ZoomInRepeated(1.0, 20);
    ZoomOutRepeated(1.0, 9);
  }

  predicate IsDigit(c: char) { '0' <= c <= '9' }

  predicate AllDigits(s: string) {
    forall i :: 0 <= i < |s| ==> IsDigit(s[i])
  }

  /** The leading `YYYY-MM-DDTHH:mm:ss` of what `toISOString` produces. */
  predicate IsoShape(iso: string) {
    && |iso| >= 19
    && AllDigits(iso[..4]) && iso[4] == '-' && AllDigits(iso[5..7]) && iso[7] == '-'
    && AllDigits(iso[8..10]) && iso[10] == 'T' && AllDigits(iso[11..13]) && iso[13] == ':'
    && AllDigits(iso[14..16]) && iso[16] == ':' && AllDigits(iso[17..19])
  }

  predicate NotSeparator(c: char) { c != ':' && c != '-' }

  /** `replace(/[:-]/g, '')`: every ':' and '-' removed, the rest kept in
      order. */
  function StripSeparators(s: string): (r: string)
    ensures forall i :: 0 <= i < |r| ==> NotSeparator(r[i])
    ensures |r| <= |s|
    ensures |r| == |s| <==> forall i :: 0 <= i < |s| ==> NotSeparator(s[i])
  {
    if s == [] then []
    else if NotSeparator(s[0]) then [s[0]] + StripSeparators(s[1..])
    else StripSeparators(s[1..])
  }

  /** Stripping keeps the other characters in order, each as often as it
      occurs; with the absence of separators this pins the result down. */
  lemma {:induction false} StripSeparatorsContent(s: string)
    ensures forall c :: NotSeparator(c) ==> multiset(StripSeparators(s))[c] == multiset(s)[c]
    ensures SubseqOf(StripSeparators(s), s)
  {
    if s != [] {
      StripSeparatorsContent(s[1..]);
      assert s == [s[0]] + s[1..];
    }
  }

  lemma {:induction false} StripConcat(a: string, b: string)
    ensures StripSeparators(a + b) == StripSeparators(a) + StripSeparators(b)
  {
    if a != [] {
      assert (a + b)[0] == a[0] && (a + b)[1..] == a[1..] + b;
      StripConcat(a[1..], b);
    } else {
      assert a + b == b;
    }
  }

  predicate NoSeparator(s: string) {
    forall i :: 0 <= i < |s| ==> NotSeparator(s[i])
  }

  lemma StripKeeps(s: string)
    requires NoSeparator(s)
    ensures StripSeparators(s) == s
  {
  }

  /** Extending a prefix across one separator and a run without separators
      adds that run to the stripped text. */
  lemma StripExtend(s: string, i: nat, k: nat)
    requires i < k <= |s| && !NotSeparator(s[i]) && NoSeparator(s[i + 1..k])
    ensures StripSeparators(s[..k]) == StripSeparators(s[..i]) + s[i + 1..k]
  {
    assert s[..k] == s[..i] + ([s[i]] + s[i + 1..k]);
    StripConcat(s[..i], [s[i]] + s[i + 1..k]);
    StripConcat([s[i]], s[i + 1..k]);
    StripKeeps(s[i + 1..k]);
  }

  /** The first 19 characters of the ISO time, separators removed. */
  function Timestamp(iso: string): (r: string)
    ensures forall c :: c in r ==> NotSeparator(c)
    ensures |r| <= 19
  {
    StripSeparators(if |iso| <= 19 then iso else iso[..19])
  }

  /** The download's file name, without its extension. */
  function Filename(iso: string): string {
    "frame-avatar-" + Timestamp(iso)
  }

  /** The day, the 'T' and the hour hold no separator. */
  lemma IsoDayHourNoSeparator(iso: string)
    requires IsoShape(iso)
    ensures NoSeparator(iso[8..13])
  {
    assert iso[8..13] == iso[8..10] + "T" + iso[11..13];
    forall i | 0 <= i < 5 ensures NotSeparator(iso[8..13][i]) {
      if i < 2 { assert iso[8..13][i] == iso[8..10][i]; }
      else if i > 2 { assert iso[8..13][i] == iso[11..13][i - 3]; }
    }
  }

  /** Stripping the first 19 characters of a well-formed ISO time removes
      exactly its two '-' and two ':'. */
  lemma IsoPrefixStripped(iso: string)
    requires IsoShape(iso)
    ensures StripSeparators(iso[..19]) == iso[..4] + iso[5..7] + iso[8..13] + iso[14..16] + iso[17..19]
  {
    StripKeeps(iso[..4]);
    StripExtend(iso, 4, 7);
    IsoDayHourNoSeparator(iso);
    StripExtend(iso, 7, 13);
    StripExtend(iso, 13, 16);
    StripExtend(iso, 16, 19);
  }

  /** On a well-formed ISO time the stamp is the ISO text with its two '-'
      and two ':' taken out. */
  lemma IsoTimestampPieces(iso: string)
    requires IsoShape(iso)
    ensures Timestamp(iso) == iso[..4] + iso[5..7] + iso[8..13] + iso[14..16] + iso[17..19]
  {
    IsoPrefixStripped(iso);
    assert (if |iso| <= 19 then iso else iso[..19]) == iso[..19];
  }

  /** On a well-formed ISO time the stamp is `yyyyMMddTHHmmss`: the digits
      of the date, the 'T', then the digits of the time. */
  lemma IsoTimestamp(iso: string)
    requires IsoShape(iso)
    ensures |Timestamp(iso)| == 15
    ensures AllDigits(Timestamp(iso)[..8]) && Timestamp(iso)[8] == 'T' && AllDigits(Timestamp(iso)[9..])
  {
    IsoTimestampPieces(iso);
    var dd, hh := iso[8..10], iso[11..13];
    assert iso[8..13] == dd + "T" + hh;
    var date := iso[..4] + iso[5..7] + dd;
    var time := hh + iso[14..16] + iso[17..19];
    assert Timestamp(iso) == date + "T" + time;
    assert AllDigits(date) by {
      forall i | 0 <= i < 8 ensures IsDigit(date[i]) {
        if i < 4 { assert date[i] == iso[..4][i]; }
        else if i < 6 { assert date[i] == iso[5..7][i - 4]; }
        else { assert date[i] == dd[i - 6]; }
      }
    }
    assert AllDigits(time) by {
      forall i | 0 <= i < 6 ensures IsDigit(time[i]) {
        if i < 2 { assert time[i] == hh[i]; }
        else if i < 4 { assert time[i] == iso[14..16][i - 2]; }
        else { assert time[i] == iso[17..19][i - 4]; }
      }
    }
    assert (date + "T" + time)[..8] == date && (date + "T" + time)[9..] == time;
  }

  /** The export options `downloadImage` passes on: the chosen format and
      quality, and an explicit size only when the custom size is chosen. */
  function BuildExportOptions(chosen: ExportOptions, sizeOption: string, customWidth: real, customHeight: real)
    : (r: ExportOptions)
    ensures r.format == chosen.format && r.quality == chosen.quality && r.backgroundColor.None?
    ensures r.width.Some? <==> sizeOption == "custom"
    ensures r.height.Some? <==> sizeOption == "custom"
    ensures sizeOption == "custom" ==> r.width.value == customWidth && r.height.value == customHeight
  {
    var options := ExportOptions(chosen.format, chosen.quality, None, None, None);
    if sizeOption == "custom" then options.(width := Some(customWidth), height := Some(customHeight))
    else options
  }

  /** The values the format picker offers, as the component lists them. */
  function FormatOptionValues(): seq<string> {
    ["png", "jpg", "webp"]
  }

  /** The picker offers "jpg", which is not one of the export formats
      ("png", "jpeg", "webp"). Once chosen it reaches the export options of
      the download unchanged, so the renderer is asked for a format the
      declared type does not admit. */
  lemma JpgOptionIsNoExportFormat(chosen: ExportOptions, sizeOption: string, customWidth: real, customHeight: real)
    requires chosen.format == "jpg"
    ensures "jpg" in FormatOptionValues()
    ensures exists v :: v in FormatOptionValues() && !IsExportFormat(v)
    ensures !IsExportFormat(BuildExportOptions(chosen, sizeOption, customWidth, customHeight).format)
  {
    assert FormatOptionValues()[1] == "jpg";
  }

  /** The picker values with "jpeg" in place of "jpg": each is an export
      format and every export format is offered. */
  function CorrectedFormatOptionValues(): (r: seq<string>)
    ensures forall v :: v in r ==> IsExportFormat(v)
    ensures forall f: ExportFormat :: FormatName(f) in r
  {
    var r := ["png", "jpeg", "webp"];
    assert r[0] == FormatName(Png) && r[1] == FormatName(Jpeg) && r[2] == FormatName(Webp);
    r
  }

  /** The photo is loaded when the input holds a non-empty URL. */
  predicate PhotoWanted(image: Option<string>) {
    image.Some? && image.value != ""
  }

  /** The photo layer `loadInitialContent` adds, given what decoding it yields. */
  function PhotoLayers(image: Option<string>, imageSize: Option<ImageSize>): seq<LayerProps> {
    if PhotoWanted(image) && imageSize.Some? then [FittedPhoto(CanvasSize, CanvasSize, imageSize.value)] else []
  }

  /** The frame layer `loadInitialContent` adds once it reaches the frame. */
  function FrameLayers(frame: Option<Frame>, frameSize: Option<ImageSize>): seq<LayerProps> {
    if frame.Some? && frameSize.Some? then [StretchedFrame(CanvasSize, CanvasSize, frameSize.value)] else []
  }

  /** The load goes on to the frame unless the photo was wanted and failed:
      the failure throws past the frame into the `catch`. */
  predicate FrameReached(image: Option<string>, imageSize: Option<ImageSize>) {
    !PhotoWanted(image) || imageSize.Some?
  }

  /** The layers `loadInitialContent` puts on an initialised canvas, given
      what decoding the photo and the frame yields. */
  function InitialLayers(image: Option<string>, frame: Option<Frame>,
                         imageSize: Option<ImageSize>, frameSize: Option<ImageSize>): seq<LayerProps>
  {
    PhotoLayers(image, imageSize)
    + (if FrameReached(image, imageSize) then FrameLayers(frame, frameSize) else [])
  }

  /** The snapshot update of adding the photo, if it is added: the
      `selection:created` handler's, when nothing was selected, then the
      service's own. */
  function PhotoUpdate(image: Option<string>, imageSize: Option<ImageSize>, hadSelection: bool): StateUpdate {
    if PhotoWanted(image) && imageSize.Some? then Combine(SelectionCreated(hadSelection), ImageAdded(image.value))
    else NoUpdate
  }

  /** The snapshot update of adding the frame, if the load reaches it and it
      is added. */
  function FrameUpdate(image: Option<string>, frame: Option<Frame>,
                       imageSize: Option<ImageSize>, frameSize: Option<ImageSize>): StateUpdate
  {
    if FrameReached(image, imageSize) && frame.Some? && frameSize.Some? then FrameAdded(frame.value.imageUrl)
    else NoUpdate
  }

  /** The snapshot `loadInitialContent` leaves on an initialised canvas;
      `hadSelection` says whether a layer was active before the load. */
  function LoadedState(s: EditorState, image: Option<string>, frame: Option<Frame>,
                       imageSize: Option<ImageSize>, frameSize: Option<ImageSize>, hadSelection: bool): EditorState
  {
    Merge(Merge(s, PhotoUpdate(image, imageSize, hadSelection)), FrameUpdate(image, frame, imageSize, frameSize))
  }

  /** The load records the URL of the photo and of the frame exactly when it
      adds their layers, marks the snapshot dirty when it adds any layer,
      turns to editing when the photo becomes the first selection, and keeps
      every other field. */
  lemma LoadedStateFields(s: EditorState, image: Option<string>, frame: Option<Frame>,
                          imageSize: Option<ImageSize>, frameSize: Option<ImageSize>, hadSelection: bool)
    ensures var r := LoadedState(s, image, frame, imageSize, frameSize, hadSelection);
      && r.uploadedImage == (if PhotoLayers(image, imageSize) != [] then image else s.uploadedImage)
      && r.selectedFrame
         == (if FrameReached(image, imageSize) && FrameLayers(frame, frameSize) != []
             then Some(frame.value.imageUrl) else s.selectedFrame)
      && r.isDirty == (s.isDirty || InitialLayers(image, frame, imageSize, frameSize) != [])
      && r.isEditing == (s.isEditing || (PhotoLayers(image, imageSize) != [] && !hadSelection))
      && r.zoom == s.zoom && r.rotation == s.rotation
      && r.canvasWidth == s.canvasWidth && r.canvasHeight == s.canvasHeight && r.cropArea == s.cropArea
  {
  }

  /** The snapshot after the photo step and then, when the load reaches it,
      the frame step is the loaded state. */
  lemma LoadSteps(s0: EditorState, s1: EditorState, s2: EditorState, image: Option<string>, frame: Option<Frame>,
                  imageSize: Option<ImageSize>, frameSize: Option<ImageSize>, hadSelection: bool, reached: bool)
    requires s1 == Merge(s0, PhotoUpdate(image, imageSize, hadSelection))
    requires reached <==> FrameReached(image, imageSize)
    requires reached && frame.Some? && frameSize.Some? ==> s2 == Merge(s1, FrameAdded(frame.value.imageUrl))
    requires !(reached && frame.Some? && frameSize.Some?) ==> s2 == s1
    ensures s2 == LoadedState(s0, image, frame, imageSize, frameSize, hadSelection)
    ensures PhotoWanted(image) && imageSize.Some? ==> s2.uploadedImage == image && s2.isDirty
    ensures InitialLayers(image, frame, imageSize, frameSize) != [] ==> s2.isDirty
  {
    MergeNothing(s1);
    LoadedStateFields(s0, image, frame, imageSize, frameSize, hadSelection);
  }

  /** After a reset, which leaves nothing selected, the reload leaves zoom 1
      and rotation 0; the snapshot is editing exactly when the photo was
      added, and it is dirty, and a download is offered, exactly when the
      reload added a layer. */
  lemma ReloadedState(s: EditorState, image: Option<string>, frame: Option<Frame>,
                      imageSize: Option<ImageSize>, frameSize: Option<ImageSize>)
    ensures var r := LoadedState(Merge(s, ResetUpdate()), image, frame, imageSize, frameSize, false);
      var layers := InitialLayers(image, frame, imageSize, frameSize);
      && r.zoom == 1.0 && r.rotation == 0.0
      && (r.isEditing <==> PhotoLayers(image, imageSize) != [])
      && (r.isDirty <==> layers != [])
      && (CanDownload(r) <==> layers != [])
      && r.canvasWidth == s.canvasWidth && r.canvasHeight == s.canvasHeight && r.cropArea == s.cropArea
  {
    ResetEffect(s);
    LoadedStateFields(Merge(s, ResetUpdate()), image, frame, imageSize, frameSize, false);
  }

  lemma ViewsConcat(a: seq<Layer>, b: seq<Layer>)
    ensures Views(a + b) == Views(a) + Views(b)
  {
  }

  /** `after` is `before` with layers of the properties `added` put on top. */
  ghost predicate Appended(before: seq<Layer>, after: seq<Layer>, added: seq<LayerProps>)
    reads set l | l in after
  {
    && |after| == |before| + |added|
    && after[..|before|] == before
    && Views(after[|before|..]) == added
  }

  /** Two successive appends are one append: what the second added sits on
      top of what the first added. */
  lemma AppendedTwice(before: seq<Layer>, middle: seq<Layer>, after: seq<Layer>,
                      first: seq<LayerProps>, second: seq<LayerProps>)
    requires Appended(before, middle, first) && Appended(middle, after, second)
    ensures Appended(before, after, first + second)
  {
    assert after[|before|..] == middle[|before|..] + after[|middle|..];
    ViewsConcat(middle[|before|..], after[|middle|..]);
  }

  /** At most a photo and a frame are loaded; the photo comes first and is
      selectable, the frame comes last, on top, and is not; a photo that
      fails to load leaves the canvas without a frame too. */
  lemma InitialLayersOrder(image: Option<string>, frame: Option<Frame>,
                           imageSize: Option<ImageSize>, frameSize: Option<ImageSize>)
    ensures var r := InitialLayers(image, frame, imageSize, frameSize);
      && |r| <= 2
      && (PhotoWanted(image) && imageSize.Some? ==> r[0].selectable && r[0].origin == Centre)
      && (frame.Some? && frameSize.Some? && (!PhotoWanted(image) || imageSize.Some?) ==>
            !r[|r| - 1].selectable && r[|r| - 1].origin == TopLeft)
      && (PhotoWanted(image) && imageSize.None? ==> r == [])
      && (!PhotoWanted(image) && frame.None? ==> r == [])
  {
  }

  class ImageEditor {
    const service: EditorService
    var uploadedImage: Option<string>
    var selectedFrame: Option<Frame>
    var exportOptions: ExportOptions
    var sizeOption: string
    var customWidth: real
    var customHeight: real

    /** The component with its inputs bound and its default export settings. */
    constructor (service: EditorService, uploadedImage: Option<string>, selectedFrame: Option<Frame>)
      ensures this.service == service
      ensures this.uploadedImage == uploadedImage && this.selectedFrame == selectedFrame
      ensures exportOptions == ExportOptions("png", 0.9, None, None, None)
      ensures sizeOption == "original" && customWidth == 800.0 && customHeight == 800.0
    {
      this.service := service;
      this.uploadedImage := uploadedImage;
      this.selectedFrame := selectedFrame;
      exportOptions := ExportOptions("png", 0.9, None, None, None);
      sizeOption := "original";
      customWidth, customHeight := 800.0, 800.0;
    }

    /** The picker's binding to `exportOptions.format`: the chosen value,
        one of `FormatOptionValues()`, is stored as it is, "jpg" included. */
    method SelectFormat(value: string)
      modifies this`exportOptions
      ensures exportOptions.format == value
      ensures exportOptions == old(exportOptions).(format := value)
    {
      exportOptions := exportOptions.(format := value);
    }

    method ZoomIn()
      modifies service`state
      ensures service.canvas == null ==> service.state == old(service.state)
      ensures service.canvas != null ==>
                service.state == Merge(old(service.state), SetZoom(ZoomInLevel(old(service.state.zoom))))
    {
      var newZoom := ZoomInLevel(service.state.zoom);
      service.ZoomCanvas(newZoom);
    }

    method ZoomOut()
      modifies service`state
      ensures service.canvas == null ==> service.state == old(service.state)
      ensures service.canvas != null ==>
                service.state == Merge(old(service.state), SetZoom(ZoomOutLevel(old(service.state.zoom))))
    {
      var newZoom := ZoomOutLevel(service.state.zoom);
      service.ZoomCanvas(newZoom);
    }

    /** `moveObject`: shift the active layer; nothing else changes, and the
        snapshot is not marked dirty. */
    method MoveObject(dx: real, dy: real)
      requires service.Valid()
      modifies service.ActiveSet()
      ensures service.Valid()
      ensures service.canvas != null && service.canvas.active != null ==>
                service.canvas.active.View() == Moved(old(service.canvas.active.View()), dx, dy)
    {
      var canvas := service.canvas;
      if canvas == null {
        return;
      }
      var activeObject := canvas.active;
      if activeObject != null {
        activeObject.Set(Moved(activeObject.View(), dx, dy));
      }
    }

    /** `centerObject`: put the active layer's centre at the canvas centre. */
    method CenterObject()
      requires service.Valid()
      modifies service.ActiveSet()
      ensures service.Valid()
      ensures service.canvas != null && service.canvas.active != null ==>
                && service.canvas.active.View() == Centered(old(service.canvas.active.View()), CanvasSize, CanvasSize)
                && service.canvas.active.left == 400.0 && service.canvas.active.top == 400.0
    {
      var canvas := service.canvas;
      if canvas == null {
        return;
      }
      var activeObject := canvas.active;
      if activeObject != null {
        var canvasWidth, canvasHeight := canvas.width, canvas.height;
        activeObject.Set(Centered(activeObject.View(), canvasWidth, canvasHeight));
      }
    }

    /** The first half of `loadInitialContent`: add the photo when one is
        given. `loaded` is false exactly when that attempt failed. */
    method LoadPhoto(imageSize: Option<ImageSize>) returns (loaded: bool)
      requires service.Valid()
      modifies service`state, service.canvas
      ensures service.Valid() && service.canvas == old(service.canvas)
      ensures loaded <==> !PhotoWanted(uploadedImage) || (service.canvas != null && imageSize.Some?)
      ensures service.canvas == null ==> service.state == old(service.state)
      ensures service.canvas != null ==>
                service.state == Merge(old(service.state), PhotoUpdate(uploadedImage, imageSize, old(service.canvas.active) != null))
      ensures service.canvas != null ==>
                && Appended(old(service.canvas.objects), service.canvas.objects, PhotoLayers(uploadedImage, imageSize))
                && service.canvas.backgroundColor == old(service.canvas.backgroundColor)
                && service.canvas.active
                   == if PhotoLayers(uploadedImage, imageSize) != []
                      then service.canvas.objects[|old(service.canvas.objects)|] else old(service.canvas.active)
    {
      loaded := true;
      ghost var hadSelection := service.canvas != null && service.canvas.active != null;
      if uploadedImage.Some? && uploadedImage.value != "" {
        var outcome := service.AddImageToCanvas(uploadedImage.value, imageSize);
        loaded := outcome == Done;
        MergeCompose(old(service.state), SelectionCreated(hadSelection), ImageAdded(uploadedImage.value));
      }
      MergeNothing(old(service.state));
    }

    /** The second half of `loadInitialContent`: add the frame when one is
        given. `base` and `below` say what the canvas held before the load and
        what the load added so far; the frame goes on top of both. */
    method LoadFrame(frameSize: Option<ImageSize>, ghost base: seq<Layer>, ghost below: seq<LayerProps>)
      requires service.Valid()
      requires service.canvas != null ==> Appended(base, service.canvas.objects, below)
      modifies service`state, service.canvas
      ensures service.Valid() && service.canvas == old(service.canvas)
      ensures !(service.canvas != null && selectedFrame.Some? && frameSize.Some?) ==>
                service.state == old(service.state)
      ensures service.canvas != null && selectedFrame.Some? && frameSize.Some? ==>
                service.state == Merge(old(service.state), FrameAdded(selectedFrame.value.imageUrl))
      ensures service.canvas != null ==>
                && Appended(old(service.canvas.objects), service.canvas.objects, FrameLayers(selectedFrame, frameSize))
                && Appended(base, service.canvas.objects, below + FrameLayers(selectedFrame, frameSize))
                && service.canvas.backgroundColor == old(service.canvas.backgroundColor)
                && service.canvas.active == old(service.canvas.active)
    {
      ghost var middle := if service.canvas == null then [] else service.canvas.objects;
      if selectedFrame.Some? {
        var _ := service.AddFrameToCanvas(selectedFrame.value.imageUrl, frameSize);
      }
      if service.canvas != null {
        assert Appended(middle, service.canvas.objects, FrameLayers(selectedFrame, frameSize));
        AppendedTwice(base, middle, service.canvas.objects, below, FrameLayers(selectedFrame, frameSize));
      }
    }

    /** `loadInitialContent`, given what decoding the photo and the frame
        yields: the photo, then the frame on top of it, are appended to the
        canvas; a failure stops the sequence and is swallowed. */
    method LoadInitialContent(imageSize: Option<ImageSize>, frameSize: Option<ImageSize>)
      requires service.Valid()
      modifies service`state, service.canvas
      ensures service.Valid() && service.canvas == old(service.canvas)
      ensures service.canvas == null ==> service.state == old(service.state)
      ensures service.canvas != null ==>
                && Appended(old(service.canvas.objects), service.canvas.objects,
                            InitialLayers(uploadedImage, selectedFrame, imageSize, frameSize))
                && service.canvas.backgroundColor == old(service.canvas.backgroundColor)
      ensures service.canvas != null ==>
                service.state
                == LoadedState(old(service.state), uploadedImage, selectedFrame, imageSize, frameSize,
                               old(service.canvas.active) != null)
      ensures service.canvas != null ==>
                service.canvas.active
                == if PhotoLayers(uploadedImage, imageSize) != []
                   then service.canvas.objects[|old(service.canvas.objects)|] else old(service.canvas.active)
      ensures service.canvas != null && PhotoWanted(uploadedImage) && imageSize.Some? ==>
                service.state.uploadedImage == uploadedImage && service.state.isDirty
      ensures service.canvas != null && InitialLayers(uploadedImage, selectedFrame, imageSize, frameSize) != [] ==>
                service.state.isDirty
    {
      ghost var before := if service.canvas == null then [] else service.canvas.objects;
      ghost var s0 := service.state;
      ghost var hadSelection := service.canvas != null && service.canvas.active != null;
      var loaded := LoadPhoto(imageSize);
      ghost var middle := if service.canvas == null then [] else service.canvas.objects;
      ghost var s1 := service.state;
      if loaded {
        LoadFrame(frameSize, before, PhotoLayers(uploadedImage, imageSize));
      }
      if service.canvas != null {
        var objects := service.canvas.objects;
        if !loaded {
          assert PhotoLayers(uploadedImage, imageSize) + [] == PhotoLayers(uploadedImage, imageSize);
        }
        LoadSteps(s0, s1, service.state, uploadedImage, selectedFrame, imageSize, frameSize, hadSelection, loaded);
        if PhotoLayers(uploadedImage, imageSize) != [] {
          assert objects[|before|] == middle[|before|];
        }
      }
    }

    /** `resetEditor`: clear the canvas, then load the inputs again, so the
        canvas ends up holding exactly the initial layers. */
    method ResetEditor(imageSize: Option<ImageSize>, frameSize: Option<ImageSize>)
      requires service.Valid()
      modifies service`state, service.canvas
      ensures service.Valid() && service.canvas == old(service.canvas)
      ensures service.canvas == null ==> service.state == old(service.state)
      ensures service.canvas != null ==>
                && Views(service.canvas.objects) == InitialLayers(uploadedImage, selectedFrame, imageSize, frameSize)
                && service.canvas.backgroundColor == CanvasBackground
                && service.canvas.active
                   == if PhotoLayers(uploadedImage, imageSize) != [] then service.canvas.objects[0] else null
      ensures service.canvas != null ==>
                service.state
                == LoadedState(Merge(old(service.state), ResetUpdate()), uploadedImage, selectedFrame, imageSize, frameSize, false)
      ensures service.canvas != null ==>
                && service.state.zoom == 1.0 && service.state.rotation == 0.0
                && (service.state.isEditing <==> service.canvas.active != null)
                && (CanDownload(service.state) <==> service.canvas.objects != [])
    {
      service.ResetCanvas();
      LoadInitialContent(imageSize, frameSize);
      if service.canvas != null {
        assert service.canvas.objects[0..] == service.canvas.objects;
        ReloadedState(old(service.state), uploadedImage, selectedFrame, imageSize, frameSize);
      }
    }

    /** `downloadImage`, given the current ISO time and the renderer: nothing
        when there is neither photo nor frame in the snapshot, otherwise the
        download link of the service for the time-stamped name. */
    method DownloadImage(isoNow: string, render: (Scene, DataUrlRequest) -> string)
      returns (link: Option<DownloadLink>)
      ensures link.None? <==> !CanDownload(service.state)
      ensures link.Some? ==>
                link.value.download == Filename(isoNow) + "." + exportOptions.format
      ensures link.Some? && service.canvas == null ==> link.value.href == ""
      ensures link.Some? && service.canvas != null ==>
                var options := BuildExportOptions(exportOptions, sizeOption, customWidth, customHeight);
                link.value.href
                == render(SceneOf(service.canvas),
                          DataUrlRequest(options.format, options.quality, 1.0, options.width, options.height))
    {
      if !CanDownload(service.state) {
        return None;
      }
      var options := BuildExportOptions(exportOptions, sizeOption, customWidth, customHeight);
      var filename := Filename(isoNow);
      var l := service.DownloadCanvas(filename, options, render);
      link := Some(l);
    }
  }
}
