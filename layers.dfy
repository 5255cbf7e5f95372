// List transformations and transformer logic that the two Canvas components
// (sparkify-meme-generator/src/components/Canvas.tsx and
// src/components/Canvas.tsx) share word for word: the `updateText` map, the
// `filter` that deletes a text layer, the transformer's `boundBoxFunc`, and
// the effect that binds the transformer to the selected scene node.

module Layers {
  import opened MemeTypes

  /** `layers.map(t => t.id === id ? { ...t, text: newText } : t)` */
  function UpdateText(layers: seq<TextLayer>, id: string, newText: string): (r: seq<TextLayer>)
    ensures |r| == |layers|
    ensures forall i | 0 <= i < |r| :: r[i] == layers[i].(text := r[i].text)
    ensures forall i | 0 <= i < |r| ::
      r[i].text == (if layers[i].id == id then newText else layers[i].text)
  {
    if layers == [] then []
    else
      var head := if layers[0].id == id then layers[0].(text := newText) else layers[0];
      [head] + UpdateText(layers[1..], id, newText)
  }

  predicate HasId(layers: seq<TextLayer>, id: string)
  {
    exists i | 0 <= i < |layers| :: layers[i].id == id
  }

  /** Updating an id no layer carries changes nothing. */
  lemma UpdateTextUnknownId(layers: seq<TextLayer>, id: string, newText: string)
    requires !HasId(layers, id)
    ensures UpdateText(layers, id, newText) == layers
  {
    var r := UpdateText(layers, id, newText);
    assert forall i | 0 <= i < |r| :: r[i] == layers[i];
  }

  /** Of two edits of the same layer, the later one wins. */
  lemma UpdateTextLastWins(layers: seq<TextLayer>, id: string, a: string, b: string)
    ensures UpdateText(UpdateText(layers, id, a), id, b) == UpdateText(layers, id, b)
  {
    var r1 := UpdateText(UpdateText(layers, id, a), id, b);
    var r2 := UpdateText(layers, id, b);
    assert forall i | 0 <= i < |r1| :: r1[i] == r2[i];
  }

  /** `layers.filter(t => t.id !== id)` */
  function RemoveById(layers: seq<TextLayer>, id: string): (r: seq<TextLayer>)
    ensures |r| <= |layers|
    ensures forall t :: t in r <==> t in layers && t.id != id
  {
    if layers == [] then []
    else
      assert layers == [layers[0]] + layers[1..];
      (if layers[0].id != id then [layers[0]] else []) + RemoveById(layers[1..], id)
  }

  /** The filter keeps the surviving layers in their original order: it
      distributes over concatenation. */
  lemma {:induction false} RemoveByIdAppend(a: seq<TextLayer>, b: seq<TextLayer>, id: string)
    ensures RemoveById(a + b, id) == RemoveById(a, id) + RemoveById(b, id)
    decreases |a|
  {
    if a != [] {
      assert (a + b)[1..] == a[1..] + b;
      RemoveByIdAppend(a[1..], b, id);
    } else {
      assert a + b == b;
    }
  }

  /** Removing an id no layer carries changes nothing. */
  lemma {:induction false} RemoveAbsentId(layers: seq<TextLayer>, id: string)
    requires !HasId(layers, id)
    ensures RemoveById(layers, id) == layers
    decreases |layers|
  {
    if layers != [] {
      assert !HasId(layers[1..], id) by {
        forall i | 0 <= i < |layers[1..]| ensures layers[1..][i].id != id {
          assert layers[1..][i] == layers[i + 1];
        }
      }
      RemoveAbsentId(layers[1..], id);
      assert layers[0].id != id;
      assert layers == [layers[0]] + layers[1..];
    }
  }

  /** Deleting the same id twice is the same as deleting it once. */
  lemma RemoveByIdIdempotent(layers: seq<TextLayer>, id: string)
    ensures RemoveById(RemoveById(layers, id), id) == RemoveById(layers, id)
  {
    var r := RemoveById(layers, id);
    assert !HasId(r, id) by {
      forall i | 0 <= i < |r| ensures r[i].id != id {
        assert r[i] in r;
      }
    }
    RemoveAbsentId(r, id);
  }

  /** The box the transformer reports while resizing. */
  datatype Box = Box(x: real, y: real, width: real, height: real, rotation: real)

  const MinBoxSide: real := 5.0

  /** `boundBoxFunc`: refuse a resize that makes either side smaller than 5. */
  function BoundBox(oldBox: Box, newBox: Box): (r: Box)
    ensures (newBox.width < MinBoxSide || newBox.height < MinBoxSide) ==> r == oldBox
    ensures (newBox.width >= MinBoxSide && newBox.height >= MinBoxSide) ==> r == newBox
  {
    if newBox.width < 5.0 || newBox.height < 5.0 then oldBox else newBox
  }

  predicate BigEnough(b: Box)
  {
    b.width >= MinBoxSide && b.height >= MinBoxSide
  }

  /** A resize that starts from a box of at least 5 x 5 never ends below it. */
  lemma BoundBoxKeepsMinimum(oldBox: Box, newBox: Box)
    requires BigEnough(oldBox)
    ensures BigEnough(BoundBox(oldBox, newBox))
  {
  }

  /** A scene node, as `stage.findOne('#' + id)` returns it. */
  datatype NodeRef = NodeRef(id: string)

  /** The scene's id lookup: every node is found under its own id. */
  predicate SceneIndex(scene: map<string, NodeRef>)
  {
    forall k | k in scene :: scene[k].id == k
  }

  /** The node set the selection effect leaves on a mounted transformer:
      empty without a (truthy) selection or without a stage, the found node
      when the lookup succeeds, and the previous set when it fails. */
  function BoundNodes(current: seq<NodeRef>, selected: Option<string>, stageMounted: bool,
                      scene: map<string, NodeRef>): (r: seq<NodeRef>)
    ensures !(IsSet(selected) && stageMounted) ==> r == []
    ensures IsSet(selected) && stageMounted && selected.value in scene ==> r == [scene[selected.value]]
    ensures IsSet(selected) && stageMounted && selected.value !in scene ==> r == current
  {
    if IsSet(selected) && stageMounted then
      if selected.value in scene then [scene[selected.value]] else current
    else []
  }

  /** The transformer never holds more than one node, and when it holds a
      node it is the selected one or the one it held before. */
  lemma BoundNodesAtMostOne(current: seq<NodeRef>, selected: Option<string>, stageMounted: bool,
                            scene: map<string, NodeRef>)
    requires |current| <= 1 && SceneIndex(scene)
    ensures |BoundNodes(current, selected, stageMounted, scene)| <= 1
    ensures forall n | n in BoundNodes(current, selected, stageMounted, scene) ::
      n in current || (selected.Some? && n.id == selected.value)
  {
  }
}
