// The Canvas component of the sparkify revision
// (sparkify-meme-generator/src/components/Canvas.tsx).  Its own React state
// (selection, the two loaded images, the text layers) and the transformer's
// node set are the fields of CanvasComponent; the props a handler reads (the
// canvas size) are parameters.  Every text layer the component holds was made
// by `addText`, so every id in the list carries the "text-" prefix that
// `deleteSelected` dispatches on; that is the class invariant.

module SparkifyCanvas {
  import opened MemeTypes
  import opened Layers

  const TextPrefix := "text-"
  const SparkyId := "sparky"

  /** The layer `addText` creates; `stamp` stands for `Date.now()` as a string. */
  function NewTextLayer(stamp: string, canvasWidth: real, canvasHeight: real): (t: TextLayer)
    ensures StartsWith(t.id, TextPrefix) && t.id[|TextPrefix|..] == stamp
    ensures t.text == "Double click to edit"
    ensures t.x + 100.0 == canvasWidth / 2.0 && t.y == canvasHeight / 2.0
    ensures t.fontSize == 32.0 && t.fill == "#ffffff" && t.stroke == "#000000" && t.strokeWidth == 2.0
  {
    TextLayer(TextPrefix + stamp, "Double click to edit", canvasWidth / 2.0 - 100.0,
              canvasHeight / 2.0, 32.0, "#ffffff", "#000000", 2.0)
  }

  predicate AllTextIds(layers: seq<TextLayer>)
  {
    forall i | 0 <= i < |layers| :: StartsWith(layers[i].id, TextPrefix)
  }

  /** A text layer added with a fresh stamp is removed again, and nothing
      else, by deleting its id: add-then-delete restores the list. */
  lemma AddedTextIsDeletable(layers: seq<TextLayer>, stamp: string, w: real, h: real)
    requires !HasId(layers, TextPrefix + stamp)
    ensures RemoveById(layers + [NewTextLayer(stamp, w, h)], TextPrefix + stamp) == layers
  {
    var t := NewTextLayer(stamp, w, h);
    RemoveByIdAppend(layers, [t], t.id);
    RemoveAbsentId(layers, t.id);
    assert RemoveById([t], t.id) == [];
  }

  /** The floating badge shown while something is selected (lines 425-436). */
  function SelectionIndicator(sel: Option<string>): (badge: Option<string>)
    ensures badge.None? <==> !IsSet(sel)
    ensures badge == Some("Character Selected") <==> sel == Some(SparkyId)
    ensures badge == Some("Text Selected") <==> IsSet(sel) && sel != Some(SparkyId)
  {
    if !IsSet(sel) then None
    else if sel.value == SparkyId then Some("Character Selected")
    else Some("Text Selected")
  }

  class CanvasComponent {
    var selectedId: Option<string>
    var backgroundImage: Option<ImageHandle>
    var sparkyImage: Option<ImageHandle>
    var textElements: seq<TextLayer>
    /** What `transformerRef.current.nodes()` holds. */
    var transformerNodes: seq<NodeRef>

    ghost predicate Valid()
      reads this
    {
      AllTextIds(textElements)
    }

    constructor ()
      ensures Valid()
      ensures selectedId == None && backgroundImage == None && sparkyImage == None
      ensures textElements == [] && transformerNodes == []
    {
      selectedId, backgroundImage, sparkyImage := None, None, None;
      textElements, transformerNodes := [], [];
    }

    /** Completion of the background load started when a template is selected. */
    method BackgroundLoaded(img: ImageHandle)
      modifies this`backgroundImage
      ensures backgroundImage == Some(img)
    {
      backgroundImage := Some(img);
    }

    /** Completion of the sprite load started when a character is selected. */
    method SparkyLoaded(img: ImageHandle)
      modifies this`sparkyImage
      ensures sparkyImage == Some(img)
    {
      sparkyImage := Some(img);
    }

    method HandleSelect(id: string)
      modifies this`selectedId
      ensures selectedId == Some(id)
    {
      selectedId := Some(id);
    }

    method HandleDeselect()
      modifies this`selectedId
      ensures selectedId == None
    {
      selectedId := None;
    }

    /** A click or tap on the stage; `targetIsStage` is `e.target === e.target.getStage()`. */
    method HandleStageClick(targetIsStage: bool)
      modifies this`selectedId
      ensures selectedId == if targetIsStage then None else old(selectedId)
    {
      if targetIsStage {
        selectedId := None;
      }
    }

    method AddText(stamp: string, canvas: CanvasState)
      requires Valid()
      modifies this`textElements, this`selectedId
      ensures Valid()
      ensures textElements == old(textElements) + [NewTextLayer(stamp, canvas.width, canvas.height)]
      ensures selectedId == Some(TextPrefix + stamp)
    {
      var newText := NewTextLayer(stamp, canvas.width, canvas.height);
      textElements := textElements + [newText];
      selectedId := Some(newText.id);
    }

    method UpdateText(id: string, newText: string)
      requires Valid()
      modifies this`textElements
      ensures Valid()
      ensures textElements == Layers.UpdateText(old(textElements), id, newText)
    {
      textElements := Layers.UpdateText(textElements, id, newText);
    }

    method DeleteSelected()
      requires Valid()
      modifies this`selectedId, this`sparkyImage, this`textElements
      ensures Valid()
      ensures !IsSet(old(selectedId)) ==>
        selectedId == old(selectedId) && sparkyImage == old(sparkyImage) && textElements == old(textElements)
      ensures IsSet(old(selectedId)) ==> selectedId == None
      ensures sparkyImage == if old(selectedId) == Some(SparkyId) then None else old(sparkyImage)
      ensures textElements ==
        if IsSet(old(selectedId)) && StartsWith(old(selectedId).value, TextPrefix)
        then RemoveById(old(textElements), old(selectedId).value)
        else old(textElements)
    {
      if IsSet(selectedId) {
        var id := selectedId.value;
        if id == SparkyId {
          assert !StartsWith(id, TextPrefix) by { assert id[..|TextPrefix|][0] == 's'; }
          sparkyImage := None;
        } else if StartsWith(id, TextPrefix) {
          textElements := RemoveById(textElements, id);
        }
        selectedId := None;
      }
    }

    method ClearCanvas()
      modifies this`backgroundImage, this`sparkyImage, this`textElements, this`selectedId
      ensures Valid()
      ensures backgroundImage == None && sparkyImage == None && textElements == [] && selectedId == None
    {
      backgroundImage := None;
      sparkyImage := None;
      textElements := [];
      selectedId := None;
    }

    /** The effect run on every selection change, with the transformer mounted
        or not, the stage mounted or not, and the stage's id lookup. */
    method SyncTransformer(transformerMounted: bool, stageMounted: bool, scene: map<string, NodeRef>)
      modifies this`transformerNodes
      ensures transformerNodes ==
        if transformerMounted then BoundNodes(old(transformerNodes), selectedId, stageMounted, scene)
        else old(transformerNodes)
    {
      if transformerMounted {
        transformerNodes := BoundNodes(transformerNodes, selectedId, stageMounted, scene);
      }
    }
  }
}
