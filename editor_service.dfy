/** The composition engine of `services/editor.service.ts`: a canvas holding an
    ordered list of image layers and an active layer, the placement geometry
    for photos and frames, the transforms of the active layer, and the
    published editor snapshot. The drawing library's canvas and image objects
    are modelled by the classes `Canvas` and `Layer`, reduced to the
    properties the service reads and writes. */
module EditorEngine {
  import opened Basics
  import opened EditorModel

  /** Width and height of the canvas `initializeCanvas` creates. */
  const CanvasSize: real := 800.0
  const CanvasBackground := "#ffffff"

  /** The pixel size of a decoded image. */
  datatype ImageSize = ImageSize(width: nat, height: nat)

  /** Where a layer's (left, top) point sits on the layer: its top-left corner
      (the library's default) or its centre. */
  datatype Origin = TopLeft | Centre

  /** The properties of an image layer, as one value. `width` and `height` are
      the natural (decoded) size. */
  datatype LayerProps = LayerProps(
    width: nat, height: nat,
    left: real, top: real,
    scaleX: real, scaleY: real,
    angle: real,
    flipX: bool, flipY: bool,
    origin: Origin,
    selectable: bool, evented: bool)

  datatype Direction = Horizontal | Vertical

  /** `x || 1` on a decoded dimension: a zero size counts as one pixel. */
  function OrOne(n: nat): (m: nat)
    ensures m > 0 && (n > 0 ==> m == n)
  {
    if n == 0 then 1 else n
  }

  /** The contain-fit scale of `addImageToCanvas`: the photo is scaled so that
      it fits 80% of the canvas on both axes. */
  function FitScale(cw: real, ch: real, size: ImageSize): (s: real)
    ensures s <= 0.8 * cw / OrOne(size.width) as real
    ensures s <= 0.8 * ch / OrOne(size.height) as real
    ensures s == 0.8 * cw / OrOne(size.width) as real || s == 0.8 * ch / OrOne(size.height) as real
  {
    var byWidth := (cw * 0.8) / OrOne(size.width) as real;
    var byHeight := (ch * 0.8) / OrOne(size.height) as real;
    if byWidth <= byHeight then byWidth else byHeight
  }

  /** A freshly decoded image: the library's defaults. */
  function Decoded(size: ImageSize): LayerProps {
    LayerProps(size.width, size.height, 0.0, 0.0, 1.0, 1.0, 0.0, false, false, TopLeft, true, true)
  }

  /** The photo as `addImageToCanvas` places it. */
  function FittedPhoto(cw: real, ch: real, size: ImageSize): LayerProps {
    var s := FitScale(cw, ch, size);
    Decoded(size).(scaleX := s, scaleY := s, left := cw / 2.0, top := ch / 2.0,
                   origin := Centre, selectable := true)
  }

  /** The frame as `addFrameToCanvas` places it. */
  function StretchedFrame(cw: real, ch: real, size: ImageSize): LayerProps {
    Decoded(size).(left := 0.0, top := 0.0,
                   scaleX := cw / OrOne(size.width) as real, scaleY := ch / OrOne(size.height) as real,
                   selectable := false, evented := false)
  }

  /** The fitted photo takes at most 80% of the canvas on both axes and
      exactly 80% on at least one. */
  lemma FittedPhotoWithinEightyPercent(cw: real, ch: real, size: ImageSize)
    ensures var p := FittedPhoto(cw, ch, size);
      && OrOne(size.width) as real * p.scaleX <= 0.8 * cw
      && OrOne(size.height) as real * p.scaleY <= 0.8 * ch
      && (OrOne(size.width) as real * p.scaleX == 0.8 * cw || OrOne(size.height) as real * p.scaleY == 0.8 * ch)
  {
    var w, h := OrOne(size.width) as real, OrOne(size.height) as real;
    var s := FitScale(cw, ch, size);
    assert w * (0.8 * cw / w) == 0.8 * cw;
    assert h * (0.8 * ch / h) == 0.8 * ch;
    MulMono(w, s, 0.8 * cw / w);
    MulMono(h, s, 0.8 * ch / h);
  }

  lemma MulMono(k: real, a: real, b: real)
    requires k > 0.0 && a <= b
    ensures k * a <= k * b
  {
  }

  /** The fitted photo keeps its aspect ratio, is centred on the canvas, is
      selectable, and its box stays at least 10% of the canvas away from each
      edge. */
  lemma FittedPhotoCentred(cw: real, ch: real, size: ImageSize)
    ensures var p := FittedPhoto(cw, ch, size);
      && p.scaleX == p.scaleY
      && p.origin == Centre && p.left == cw / 2.0 && p.top == ch / 2.0
      && p.selectable && p.evented
      && p.left - OrOne(size.width) as real * p.scaleX / 2.0 >= 0.1 * cw
      && p.left + OrOne(size.width) as real * p.scaleX / 2.0 <= 0.9 * cw
      && p.top - OrOne(size.height) as real * p.scaleY / 2.0 >= 0.1 * ch
      && p.top + OrOne(size.height) as real * p.scaleY / 2.0 <= 0.9 * ch
  {
    FittedPhotoWithinEightyPercent(cw, ch, size);
  }

  /** A zero width or height places the photo exactly as a one-pixel one. */
  lemma ZeroSizeCountsAsOne(cw: real, ch: real, size: ImageSize)
    ensures FittedPhoto(cw, ch, size).scaleX
         == FittedPhoto(cw, ch, ImageSize(OrOne(size.width), OrOne(size.height))).scaleX
    ensures StretchedFrame(cw, ch, size).scaleX
         == StretchedFrame(cw, ch, ImageSize(OrOne(size.width), OrOne(size.height))).scaleX
    ensures StretchedFrame(cw, ch, size).scaleY
         == StretchedFrame(cw, ch, ImageSize(OrOne(size.width), OrOne(size.height))).scaleY
  {
  }

  /** A 1600x800 photo on the 800x800 canvas: min(640/1600, 640/800) = 0.4. */
  lemma WidePhotoExample()
    ensures FittedPhoto(CanvasSize, CanvasSize, ImageSize(1600, 800)).scaleX == 0.4
    ensures FittedPhoto(CanvasSize, CanvasSize, ImageSize(1600, 800)).left == 400.0
  {
  }

  /** The frame covers the canvas exactly, from the top-left corner, and takes
      no part in selection or events. */
  lemma FrameCoversCanvas(cw: real, ch: real, size: ImageSize)
    ensures var f := StretchedFrame(cw, ch, size);
      && f.origin == TopLeft && f.left == 0.0 && f.top == 0.0
      && OrOne(size.width) as real * f.scaleX == cw
      && OrOne(size.height) as real * f.scaleY == ch
      && !f.selectable && !f.evented
  {
    var w, h := OrOne(size.width) as real, OrOne(size.height) as real;
    assert w * (cw / w) == cw;
    assert h * (ch / h) == ch;
  }

  function Rotated(p: LayerProps, delta: real): LayerProps {
    p.(angle := p.angle + delta)
  }

  function Flipped(p: LayerProps, d: Direction): LayerProps {
    if d == Horizontal then p.(flipX := !p.flipX) else p.(flipY := !p.flipY)
  }

  function Moved(p: LayerProps, dx: real, dy: real): LayerProps {
    p.(left := p.left + dx, top := p.top + dy)
  }

  function Centered(p: LayerProps, cw: real, ch: real): LayerProps {
    p.(left := cw / 2.0, top := ch / 2.0)
  }

  /** A flip toggles exactly one flag; flipping twice the same way restores
      the layer. */
  lemma FlipProperties(p: LayerProps, d: Direction)
    ensures Flipped(Flipped(p, d), d) == p
    ensures d == Horizontal ==> Flipped(p, d).flipX != p.flipX && Flipped(p, d) == p.(flipX := !p.flipX)
    ensures d == Vertical ==> Flipped(p, d).flipY != p.flipY && Flipped(p, d) == p.(flipY := !p.flipY)
  {
  }

  /** Rotations add up, and a rotation by 0 changes nothing. */
  lemma RotationsAdd(p: LayerProps, a: real, b: real)
    ensures Rotated(Rotated(p, a), b) == Rotated(p, a + b)
    ensures Rotated(p, 0.0) == p
  {
  }

  /** Moves add up, and undoing a move restores the layer. */
  lemma MovesAdd(p: LayerProps, dx1: real, dy1: real, dx2: real, dy2: real)
    ensures Moved(Moved(p, dx1, dy1), dx2, dy2) == Moved(p, dx1 + dx2, dy1 + dy2)
    ensures Moved(Moved(p, dx1, dy1), -dx1, -dy1) == p
  {
  }

  /** Centring discards any earlier move and is idempotent. */
  lemma CenteringIdempotent(p: LayerProps, cw: real, ch: real, dx: real, dy: real)
    ensures Centered(Centered(p, cw, ch), cw, ch) == Centered(p, cw, ch)
    ensures Centered(Moved(p, dx, dy), cw, ch) == Centered(p, cw, ch)
  {
  }

  /** The first occurrence of `x` removed from `s`. */
  function RemoveFirst<T(==)>(s: seq<T>, x: T): seq<T> {
    if s == [] then []
    else if s[0] == x then s[1..]
    else [s[0]] + RemoveFirst(s[1..], x)
  }

  lemma {:induction false} RemoveFirstAt<T>(s: seq<T>, x: T, i: nat)
    requires i < |s| && s[i] == x && x !in s[..i]
    ensures RemoveFirst(s, x) == s[..i] + s[i + 1..]
  {
    if i > 0 {
      assert s[1..][..i - 1] == s[1..i];
      assert x !in s[1..][..i - 1];
      RemoveFirstAt(s[1..], x, i - 1);
    }
  }

  /** One image object of the drawing library. */
  class Layer {
    const width: nat
    const height: nat
    var left: real
    var top: real
    var scaleX: real
    var scaleY: real
    var angle: real
    var flipX: bool
    var flipY: bool
    var origin: Origin
    var selectable: bool
    var evented: bool

    function View(): LayerProps
      reads this
    {
      LayerProps(width, height, left, top, scaleX, scaleY, angle, flipX, flipY, origin, selectable, evented)
    }

    /** What the library's image decoder yields. */
    constructor FromDecoded(size: ImageSize)
      ensures View() == Decoded(size)
    {
      width, height := size.width, size.height;
      left, top, scaleX, scaleY, angle := 0.0, 0.0, 1.0, 1.0, 0.0;
      flipX, flipY, origin, selectable, evented := false, false, TopLeft, true, true;
    }

    /** The library's `set`: assign the properties, keeping the natural size. */
    method Set(p: LayerProps)
      requires p.width == width && p.height == height
      modifies this
      ensures View() == p
    {
      left, top, scaleX, scaleY, angle := p.left, p.top, p.scaleX, p.scaleY, p.angle;
      flipX, flipY, origin, selectable, evented := p.flipX, p.flipY, p.origin, p.selectable, p.evented;
    }
  }

  /** The properties of every layer of a list, bottom first. */
  function Views(layers: seq<Layer>): (r: seq<LayerProps>)
    reads set l | l in layers
    ensures |r| == |layers|
    ensures forall i :: 0 <= i < |layers| ==> r[i] == layers[i].View()
  {
    if layers == [] then [] else [layers[0].View()] + Views(layers[1..])
  }

  /** The drawing library's canvas, reduced to its size, background, object
      list (bottom first) and active object. */
  class Canvas {
    var width: real
    var height: real
    var backgroundColor: string
    var objects: seq<Layer>
    var active: Layer?

    constructor (w: real, h: real, background: string)
      ensures width == w && height == h && backgroundColor == background
      ensures objects == [] && active == null
    {
      width, height, backgroundColor := w, h, background;
      objects, active := [], null;
    }

    method Add(obj: Layer)
      modifies this`objects
      ensures objects == old(objects) + [obj]
    {
      objects := objects + [obj];
    }

    /** Move the first occurrence of `obj` to the top of the stack. */
    method BringObjectToFront(obj: Layer)
      requires obj in objects
      modifies this`objects
      ensures objects == RemoveFirst(old(objects), obj) + [obj]
    {
      var i := 0;
      while objects[i] != obj
        invariant 0 <= i < |objects|
        invariant obj !in objects[..i]
        invariant obj in objects[i..]
        decreases |objects| - i
      {
        assert objects[i..] == [objects[i]] + objects[i + 1..];
        i := i + 1;
      }
      RemoveFirstAt(objects, obj, i);
      objects := objects[..i] + objects[i + 1..] + [obj];
    }

    method SetActiveObject(obj: Layer)
      modifies this`active
      ensures active == obj
    {
      active := obj;
    }

    /** The library's `clear`: no objects, no selection, no background. */
    method Clear()
      modifies this`objects, this`active, this`backgroundColor
      ensures objects == [] && active == null && backgroundColor == ""
    {
      objects, active, backgroundColor := [], null, "";
    }
  }

  /** What the renderer of `toDataURL` is asked for. */
  datatype DataUrlRequest = DataUrlRequest(
    format: string, quality: real, multiplier: real, width: Option<real>, height: Option<real>)

  /** The canvas state passed to the renderer: its size, background and
      layers. The view zoom of `setZoom` is not included. */
  datatype Scene = Scene(width: real, height: real, background: string, layers: seq<LayerProps>)

  function SceneOf(c: Canvas): Scene
    reads c, set l | l in c.objects
  {
    Scene(c.width, c.height, c.backgroundColor, Views(c.objects))
  }

  datatype EditorError = CanvasNotInitialised | LoadFailed
  datatype Outcome = Done | Failed(error: EditorError)

  /** The anchor element `downloadCanvas` clicks. */
  datatype DownloadLink = DownloadLink(download: string, href: string)

  class EditorService {
    var canvas: Canvas?
    var state: EditorState

    /** The active layer, as a frame set. */
    function ActiveSet(): set<object>
      reads this, canvas
    {
      if canvas != null && canvas.active != null then {canvas.active} else {}
    }

    /** The canvas keeps its 800x800 size, the snapshot reports that size,
        and the active layer is a centred, selectable layer of the canvas,
        so a frame is never the target of a transform. */
    ghost predicate Valid()
      reads this, canvas, ActiveSet()
    {
      && state.canvasWidth == CanvasSize && state.canvasHeight == CanvasSize
      && (canvas != null ==>
            && canvas.width == CanvasSize && canvas.height == CanvasSize
            && (canvas.active != null ==>
                  canvas.active in canvas.objects && canvas.active.selectable && canvas.active.origin == Centre))
    }

    constructor ()
      ensures Valid() && canvas == null && state == InitialState()
    {
      canvas := null;
      state := InitialState();
    }

    /** `initializeCanvas`: an empty white 800x800 canvas. */
    method InitializeCanvas()
      requires Valid()
      modifies this`canvas
      ensures Valid() && canvas != null && fresh(canvas)
      ensures canvas.width == CanvasSize && canvas.height == CanvasSize
      ensures canvas.backgroundColor == CanvasBackground && canvas.objects == [] && canvas.active == null
    {
      canvas := new Canvas(CanvasSize, CanvasSize, CanvasBackground);
    }

    /** `updateEditorState`: publish the merged snapshot. */
    method UpdateEditorState(updates: StateUpdate)
      modifies this`state
      ensures state == Merge(old(state), updates)
    {
      state := Merge(state, updates);
    }

    /** The `object:modified` handler. */
    method OnObjectModified()
      requires canvas != null
      modifies this`state
      ensures state == Merge(old(state), MarkDirty())
    {
      UpdateEditorState(MarkDirty());
    }

    /** The `selection:created` handler. */
    method OnSelectionCreated()
      requires canvas != null
      modifies this`state
      ensures state == Merge(old(state), SetEditing(true))
    {
      UpdateEditorState(SetEditing(true));
    }

    /** The `selection:cleared` handler. */
    method OnSelectionCleared()
      requires canvas != null
      modifies this`state
      ensures state == Merge(old(state), SetEditing(false))
    {
      UpdateEditorState(SetEditing(false));
    }

    /** `addImageToCanvas`, given the outcome of decoding the image (`None`
        when it failed to load). The fitted photo goes on top of the stack and
        becomes the active layer; when nothing was selected before, that fires
        `selection:created`, so the snapshot also turns to editing. */
    method AddImageToCanvas(url: string, decoded: Option<ImageSize>) returns (outcome: Outcome)
      requires Valid()
      modifies this`state, canvas
      ensures Valid() && canvas == old(canvas)
      ensures old(canvas) == null ==> outcome == Failed(CanvasNotInitialised) && state == old(state)
      ensures old(canvas) != null && decoded.None? ==>
                outcome == Failed(LoadFailed) && state == old(state) && unchanged(canvas)
      ensures old(canvas) != null && decoded.Some? ==>
                && outcome == Done
                && canvas.active != null && fresh(canvas.active)
                && canvas.objects == old(canvas.objects) + [canvas.active]
                && canvas.active.View() == FittedPhoto(CanvasSize, CanvasSize, decoded.value)
                && canvas.width == old(canvas.width) && canvas.height == old(canvas.height)
                && canvas.backgroundColor == old(canvas.backgroundColor)
                && state == Merge(Merge(old(state), SelectionCreated(old(canvas.active) != null)), ImageAdded(url))
    {
      if canvas == null {
        return Failed(CanvasNotInitialised);
      }
      if decoded.None? {
        return Failed(LoadFailed);
      }
      var img := new Layer.FromDecoded(decoded.value);
      var canvasWidth, canvasHeight := canvas.width, canvas.height;
      img.Set(FittedPhoto(canvasWidth, canvasHeight, decoded.value));
      canvas.Add(img);
      var hadSelection := canvas.active != null;
      canvas.SetActiveObject(img);
      if !hadSelection {
        OnSelectionCreated();
      }
      UpdateEditorState(ImageAdded(url));
      outcome := Done;
    }

    /** `addFrameToCanvas`, given the outcome of decoding the frame image. The
        stretched frame is appended on top of the stack; earlier frames stay,
        and the active layer does not change. */
    method AddFrameToCanvas(url: string, decoded: Option<ImageSize>) returns (outcome: Outcome)
      requires Valid()
      modifies this`state, canvas
      ensures Valid() && canvas == old(canvas)
      ensures old(canvas) == null ==> outcome == Failed(CanvasNotInitialised) && state == old(state)
      ensures old(canvas) != null && decoded.None? ==>
                outcome == Failed(LoadFailed) && state == old(state) && unchanged(canvas)
      ensures old(canvas) != null && decoded.Some? ==>
                && outcome == Done
                && |canvas.objects| == |old(canvas.objects)| + 1
                && canvas.objects[..|old(canvas.objects)|] == old(canvas.objects)
                && fresh(canvas.objects[|old(canvas.objects)|])
                && canvas.objects[|old(canvas.objects)|].View() == StretchedFrame(CanvasSize, CanvasSize, decoded.value)
                && canvas.active == old(canvas.active)
                && canvas.width == old(canvas.width) && canvas.height == old(canvas.height)
                && canvas.backgroundColor == old(canvas.backgroundColor)
                && state == Merge(old(state), FrameAdded(url))
    {
      if canvas == null {
        return Failed(CanvasNotInitialised);
      }
      if decoded.None? {
        return Failed(LoadFailed);
      }
      var frame := new Layer.FromDecoded(decoded.value);
      var canvasWidth, canvasHeight := canvas.width, canvas.height;
      frame.Set(StretchedFrame(canvasWidth, canvasHeight, decoded.value));
      ghost var before := canvas.objects;
      canvas.Add(frame);
      RemoveFirstAt(before + [frame], frame, |before|);
      canvas.BringObjectToFront(frame);
      assert canvas.objects == before + [frame];
      UpdateEditorState(FrameAdded(url));
      outcome := Done;
    }

    /** `rotateSelectedObject`: turn the active layer by `delta` degrees. */
    method RotateSelectedObject(delta: real)
      requires Valid()
      modifies this`state, ActiveSet()
      ensures Valid()
      ensures old(canvas) == null || old(canvas.active) == null ==> state == old(state)
      ensures old(canvas) != null && old(canvas.active) != null ==>
                && canvas.active.View() == Rotated(old(canvas.active.View()), delta)
                && state == Merge(old(state), MarkDirty())
    {
      if canvas == null {
        return;
      }
      var activeObject := canvas.active;
      if activeObject != null {
        var currentAngle := activeObject.angle;
        activeObject.Set(activeObject.View().(angle := currentAngle + delta));
        UpdateEditorState(MarkDirty());
      }
    }

    /** `flipSelectedObject`: mirror the active layer along one axis. */
    method FlipSelectedObject(direction: Direction)
      requires Valid()
      modifies this`state, ActiveSet()
      ensures Valid()
      ensures old(canvas) == null || old(canvas.active) == null ==> state == old(state)
      ensures old(canvas) != null && old(canvas.active) != null ==>
                && canvas.active.View() == Flipped(old(canvas.active.View()), direction)
                && state == Merge(old(state), MarkDirty())
    {
      if canvas == null {
        return;
      }
      var activeObject := canvas.active;
      if activeObject != null {
        if direction == Horizontal {
          activeObject.Set(activeObject.View().(flipX := !activeObject.flipX));
        } else {
          activeObject.Set(activeObject.View().(flipY := !activeObject.flipY));
        }
        UpdateEditorState(MarkDirty());
      }
    }

    /** `zoomCanvas`: record the zoom level as given, without clamping. */
    method ZoomCanvas(zoomLevel: real)
      modifies this`state
      ensures canvas == null ==> state == old(state)
      ensures canvas != null ==> state == Merge(old(state), SetZoom(zoomLevel))
    {
      if canvas == null {
        return;
      }
      UpdateEditorState(SetZoom(zoomLevel));
    }

    /** `resetCanvas`: remove every layer, restore the white background and
        reset the snapshot's sources, zoom, rotation and flags. Clearing a
        canvas with a selection fires `selection:cleared` first, whose
        effect the reset update then overrides. */
    method ResetCanvas()
      requires Valid()
      modifies this`state, canvas
      ensures Valid() && canvas == old(canvas)
      ensures old(canvas) == null ==> state == old(state)
      ensures old(canvas) != null ==>
                && canvas.objects == [] && canvas.active == null
                && canvas.backgroundColor == CanvasBackground
                && canvas.width == old(canvas.width) && canvas.height == old(canvas.height)
                && state == Merge(old(state), ResetUpdate())
    {
      if canvas == null {
        return;
      }
      if canvas.active != null {
        OnSelectionCleared();
      }
      canvas.Clear();
      canvas.backgroundColor := CanvasBackground;
      UpdateEditorState(ResetUpdate());
    }

    /** `exportCanvas`: the empty string without a canvas, otherwise what the
        renderer makes of the scene for these options at multiplier 1. */
    method ExportCanvas(options: ExportOptions, render: (Scene, DataUrlRequest) -> string) returns (dataUrl: string)
      ensures canvas == null ==> dataUrl == ""
      ensures canvas != null ==>
                dataUrl == render(SceneOf(canvas),
                                  DataUrlRequest(options.format, options.quality, 1.0, options.width, options.height))
    {
      if canvas == null {
        return "";
      }
      dataUrl := render(SceneOf(canvas),
                        DataUrlRequest(options.format, options.quality, 1.0, options.width, options.height));
    }

    /** `downloadCanvas`: the link is named after the format value, whatever
        it is, and points at the export, which is the empty string when there
        is no canvas. */
    method DownloadCanvas(filename: string, options: ExportOptions, render: (Scene, DataUrlRequest) -> string)
      returns (link: DownloadLink)
      ensures link.download == filename + "." + options.format
      ensures canvas == null ==> link.href == ""
      ensures canvas != null ==>
                link.href == render(SceneOf(canvas),
                                    DataUrlRequest(options.format, options.quality, 1.0, options.width, options.height))
    {
      var dataUrl := ExportCanvas(options, render);
      link := DownloadLink(filename + "." + options.format, dataUrl);
    }
  }
}
