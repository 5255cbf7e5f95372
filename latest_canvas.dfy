// The Canvas component of the latest revision (src/components/Canvas.tsx).
// Here the editor state lives outside the component and arrives as props
// with setters; src/App.tsx passes only five of those props, so the state
// the handlers read and write is modelled as the fields of CanvasView, and
// every setter call as an assignment to one of them.  Stored coordinates are
// drawn multiplied by zoom/100 and a drag-end divides the dropped display
// position by the same factor.

module LatestCanvas {
  import opened MemeTypes
  import opened Layers

  /** The zoom slider's range (`<input type="range" min="25" max="200">`). */
  const MinZoom: int := 25
  const MaxZoom: int := 200

  predicate ZoomInRange(zoom: int)
  {
    MinZoom <= zoom <= MaxZoom
  }

  /** `zoom / 100` */
  function ScaleOf(zoom: int): real
  {
    zoom as real / 100.0
  }

  /** Stored coordinate to display coordinate, as the render does it. */
  function Render(v: real, zoom: int): real
  {
    v * ScaleOf(zoom)
  }

  /** Display coordinate back to stored, as every drag-end handler does it. */
  function Descale(d: real, zoom: int): real
    requires zoom != 0
  {
    d / ScaleOf(zoom)
  }

  /** Descaling a rendered coordinate gives back the stored value. */
  lemma DescaleRendered(v: real, zoom: int)
    requires ZoomInRange(zoom)
    ensures Descale(Render(v, zoom), zoom) == v
  {
    var s := ScaleOf(zoom);
    assert s > 0.0;
    assert (v * s) / s == v;
  }

  /** Rendering a descaled drop position gives back the drop position. */
  lemma RenderDescaled(d: real, zoom: int)
    requires ZoomInRange(zoom)
    ensures Render(Descale(d, zoom), zoom) == d
  {
    var s := ScaleOf(zoom);
    assert s > 0.0;
    assert (d / s) * s == d;
  }

  /** The text drag-end rebuild:
      `textElements.map(t => t.id === id ? { ...t, x, y } : t)`. */
  function MoveText(layers: seq<TextLayer>, id: string, x: real, y: real): (r: seq<TextLayer>)
    ensures |r| == |layers|
    ensures forall i | 0 <= i < |r| :: r[i] == layers[i].(x := r[i].x, y := r[i].y)
    ensures forall i | 0 <= i < |r| ::
      if layers[i].id == id then r[i].x == x && r[i].y == y else r[i] == layers[i]
  {
    if layers == [] then []
    else
      var head := if layers[0].id == id then layers[0].(x := x, y := y) else layers[0];
      [head] + MoveText(layers[1..], id, x, y)
  }

  /** The uploaded-image drag-end rebuild:
      `uploadedImages.map(img => img.id === id ? { ...img, x, y } : img)`. */
  function MoveImage(images: seq<UploadedImage>, id: string, x: real, y: real): (r: seq<UploadedImage>)
    ensures |r| == |images|
    ensures forall i | 0 <= i < |r| :: r[i] == images[i].(x := r[i].x, y := r[i].y)
    ensures forall i | 0 <= i < |r| ::
      if images[i].id == id then r[i].x == x && r[i].y == y else r[i] == images[i]
  {
    if images == [] then []
    else
      var head := if images[0].id == id then images[0].(x := x, y := y) else images[0];
      [head] + MoveImage(images[1..], id, x, y)
  }

  /** After a text drag-end, the dragged layer is drawn exactly where it was
      dropped, and every other layer is drawn where it was before. */
  lemma TextDrawnWhereDropped(layers: seq<TextLayer>, id: string, dx: real, dy: real, zoom: int, i: int)
    requires ZoomInRange(zoom) && 0 <= i < |layers|
    ensures var r := MoveText(layers, id, Descale(dx, zoom), Descale(dy, zoom));
      if layers[i].id == id
      then Render(r[i].x, zoom) == dx && Render(r[i].y, zoom) == dy
      else (Render(r[i].x, zoom) == Render(layers[i].x, zoom)
            && Render(r[i].y, zoom) == Render(layers[i].y, zoom))
  {
    RenderDescaled(dx, zoom);
    RenderDescaled(dy, zoom);
  }

  /** After an image drag-end, the dragged image is drawn exactly where it was dropped. */
  lemma ImageDrawnWhereDropped(images: seq<UploadedImage>, id: string, dx: real, dy: real, zoom: int, i: int)
    requires ZoomInRange(zoom) && 0 <= i < |images| && images[i].id == id
    ensures var r := MoveImage(images, id, Descale(dx, zoom), Descale(dy, zoom));
      Render(r[i].x, zoom) == dx && Render(r[i].y, zoom) == dy
  {
    RenderDescaled(dx, zoom);
    RenderDescaled(dy, zoom);
  }

  /** Dropping a layer where it is already drawn leaves the list unchanged. */
  lemma DragInPlaceIsNoOp(layers: seq<TextLayer>, i: int, zoom: int)
    requires ZoomInRange(zoom) && 0 <= i < |layers|
    requires forall j | 0 <= j < |layers| && layers[j].id == layers[i].id :: layers[j].x == layers[i].x && layers[j].y == layers[i].y
    ensures MoveText(layers, layers[i].id, Descale(Render(layers[i].x, zoom), zoom),
                     Descale(Render(layers[i].y, zoom), zoom)) == layers
  {
    DescaleRendered(layers[i].x, zoom);
    DescaleRendered(layers[i].y, zoom);
    var r := MoveText(layers, layers[i].id, layers[i].x, layers[i].y);
    assert forall j | 0 <= j < |r| :: r[j] == layers[j];
  }

  /** The badge in the canvas corner (lines 567-575). */
  function SelectionBadge(sel: Option<string>): (badge: Option<string>)
    ensures badge.None? <==> !IsSet(sel)
    ensures badge == Some("Character") <==> sel == Some("sparky")
    ensures badge == Some("Image") <==> IsSet(sel) && sel != Some("sparky") && StartsWith(sel.value, "image-")
    ensures badge == Some("Text") <==> IsSet(sel) && sel != Some("sparky") && !StartsWith(sel.value, "image-")
  {
    if !IsSet(sel) then None
    else if sel.value == "sparky" then Some("Character")
    else if StartsWith(sel.value, "image-") then Some("Image")
    else Some("Text")
  }

  class CanvasView {
    var selectedId: Option<string>
    var zoom: int
    var sparkyPosition: Point
    var textElements: seq<TextLayer>
    var uploadedImages: seq<UploadedImage>
    /** What `transformerRef.current.nodes()` holds. */
    var transformerNodes: seq<NodeRef>

    ghost predicate Valid()
      reads this
    {
      ZoomInRange(zoom)
    }

    constructor (zoom0: int, sparky0: Point)
      requires ZoomInRange(zoom0)
      ensures Valid()
      ensures selectedId == None && zoom == zoom0 && sparkyPosition == sparky0
      ensures textElements == [] && uploadedImages == [] && transformerNodes == []
    {
      selectedId, zoom, sparkyPosition := None, zoom0, sparky0;
      textElements, uploadedImages, transformerNodes := [], [], [];
    }

    /** The display position the sprite is drawn at. */
    function SparkyOnScreen(): Point
      reads this
    {
      Point(Render(sparkyPosition.x, zoom), Render(sparkyPosition.y, zoom))
    }

    method UpdateText(id: string, newText: string)
      modifies this`textElements
      ensures textElements == Layers.UpdateText(old(textElements), id, newText)
    {
      textElements := Layers.UpdateText(textElements, id, newText);
    }

    method HandleSelect(id: string)
      modifies this`selectedId
      ensures selectedId == Some(id)
    {
      selectedId := Some(id);
    }

    /** A click or tap on the stage; `targetIsStage` is `e.target === e.target.getStage()`. */
    method HandleStageClick(targetIsStage: bool)
      modifies this`selectedId
      ensures selectedId == if targetIsStage then None else old(selectedId)
    {
      if targetIsStage {
        selectedId := None;
      }
    }

    /** The slider's `onChange`; the range input only produces values in range. */
    method HandleZoomChange(newZoom: int)
      requires ZoomInRange(newZoom)
      modifies this`zoom
      ensures Valid() && zoom == newZoom
    {
      zoom := newZoom;
    }

    /** The sprite's `onDragEnd`, given where the sprite was dropped on screen. */
    method SparkyDragEnd(dropX: real, dropY: real)
      requires Valid()
      modifies this`sparkyPosition
      ensures sparkyPosition == Point(Descale(dropX, zoom), Descale(dropY, zoom))
      ensures SparkyOnScreen() == Point(dropX, dropY)
    {
      var newX := dropX / ScaleOf(zoom);
      var newY := dropY / ScaleOf(zoom);
      sparkyPosition := Point(newX, newY);
      RenderDescaled(dropX, zoom);
      RenderDescaled(dropY, zoom);
    }

    /** A text layer's `onDragEnd`; `id` is the id of the layer that was dragged. */
    method TextDragEnd(id: string, dropX: real, dropY: real)
      requires Valid()
      modifies this`textElements
      ensures textElements == MoveText(old(textElements), id, Descale(dropX, zoom), Descale(dropY, zoom))
    {
      var newX := dropX / ScaleOf(zoom);
      var newY := dropY / ScaleOf(zoom);
      textElements := MoveText(textElements, id, newX, newY);
    }

    /** An uploaded image's `onDragEnd`; `id` is the id of the image that was dragged. */
    method ImageDragEnd(id: string, dropX: real, dropY: real)
      requires Valid()
      modifies this`uploadedImages
      ensures uploadedImages == MoveImage(old(uploadedImages), id, Descale(dropX, zoom), Descale(dropY, zoom))
    {
      var newX := dropX / ScaleOf(zoom);
      var newY := dropY / ScaleOf(zoom);
      uploadedImages := MoveImage(uploadedImages, id, newX, newY);
    }

    /** The effect run on every selection change. */
    method SyncTransformer(transformerMounted: bool, stageMounted: bool, scene: map<string, NodeRef>)
      modifies this`transformerNodes
      ensures transformerNodes ==
        if transformerMounted then BoundNodes(old(transformerNodes), selectedId, stageMounted, scene)
        else old(transformerNodes)
    {
      if transformerMounted {
        transformerNodes := BoundNodes(transformerNodes, selectedId, stageMounted, scene);
      }
    }
  }
}
