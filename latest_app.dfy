// The composition root of the latest revision (src/App.tsx).  It keeps the
// same four pieces of state as the sparkify revision, but the canvas opens at
// 800 by 400 and selecting a template only sets the background image: the
// canvas keeps its size.

module LatestApp {
  import opened MemeTypes
  import SparkifyApp

  /** The canvas state the editor opens with: 800 by 400, white, empty and
      without a background image. */
  const InitialCanvas: CanvasState := CanvasState(800.0, 400.0, "#ffffff", None, [])

  /** The `setCanvasState(prev => ...)` update of `handleTemplateSelect`. */
  function WithTemplate(prev: CanvasState, template: MemeTemplate): (c: CanvasState)
    ensures c.backgroundImage == Some(template.imageUrl)
    ensures c.width == prev.width && c.height == prev.height
    ensures c.backgroundColor == prev.backgroundColor && c.elements == prev.elements
  {
    prev.(backgroundImage := Some(template.imageUrl))
  }

  /** The two revisions set the same background; the latest one keeps the
      canvas size where the sparkify one adopts the template's. */
  lemma DiffersFromSparkifyOnlyInSize(prev: CanvasState, template: MemeTemplate)
    ensures WithTemplate(prev, template)
         == SparkifyApp.WithTemplate(prev, template).(width := prev.width, height := prev.height)
  {
  }

  /** Selecting each template in turn. */
  function SelectAll(start: CanvasState, templates: seq<MemeTemplate>): CanvasState
    decreases |templates|
  {
    if templates == [] then start
    else WithTemplate(SelectAll(start, templates[..|templates| - 1]), templates[|templates| - 1])
  }

  /** Whatever templates are selected, the canvas keeps the size it opened with. */
  lemma {:induction false} SizeNeverChanges(templates: seq<MemeTemplate>)
    ensures var c := SelectAll(InitialCanvas, templates);
      c.width == 800.0 && c.height == 400.0 && c.elements == []
    decreases |templates|
  {
    if templates != [] {
      SizeNeverChanges(templates[..|templates| - 1]);
    }
  }

  class App {
    var selectedTemplate: Option<MemeTemplate>
    var selectedCharacter: Option<SparkyCharacter>
    var currentMode: CanvasMode
    var canvasState: CanvasState

    constructor ()
      ensures selectedTemplate == None && selectedCharacter == None
      ensures currentMode == Select
      ensures canvasState == InitialCanvas
    {
      selectedTemplate, selectedCharacter := None, None;
      currentMode := Select;
      canvasState := InitialCanvas;
    }

    method HandleTemplateSelect(template: MemeTemplate)
      modifies this`selectedTemplate, this`canvasState
      ensures selectedTemplate == Some(template)
      ensures canvasState == WithTemplate(old(canvasState), template)
    {
      selectedTemplate := Some(template);
      canvasState := WithTemplate(canvasState, template);
    }

    method HandleCharacterSelect(character: SparkyCharacter)
      modifies this`selectedCharacter
      ensures selectedCharacter == Some(character)
    {
      selectedCharacter := Some(character);
    }

    method HandleModeChange(mode: CanvasMode)
      modifies this`currentMode
      ensures currentMode == mode
    {
      currentMode := mode;
    }
  }
}
