// The composition root of the sparkify revision
// (sparkify-meme-generator/src/App.tsx): the selected template and
// character, the canvas mode and the canvas state, and the three handlers
// the Sidebar and the Toolbar call.  Selecting a template resizes the canvas
// to the template's dimensions.

module SparkifyApp {
  import opened MemeTypes

  /** The canvas state the editor opens with: 500 by 500, white, empty and
      without a background image. */
  const InitialCanvas: CanvasState := CanvasState(500.0, 500.0, "#ffffff", None, [])

  /** The `setCanvasState(prev => ...)` update of `handleTemplateSelect`. */
  function WithTemplate(prev: CanvasState, template: MemeTemplate): (c: CanvasState)
    ensures c.width == template.width && c.height == template.height
    ensures c.backgroundImage == Some(template.imageUrl)
    ensures c.backgroundColor == prev.backgroundColor && c.elements == prev.elements
  {
    prev.(width := template.width, height := template.height, backgroundImage := Some(template.imageUrl))
  }

  /** Selecting templates one after another leaves the canvas as if only the
      last one had been selected. */
  lemma LastTemplateWins(prev: CanvasState, t1: MemeTemplate, t2: MemeTemplate)
    ensures WithTemplate(WithTemplate(prev, t1), t2) == WithTemplate(prev, t2)
  {
  }

  /** Selecting the same template twice is the same as selecting it once. */
  lemma TemplateSelectIdempotent(prev: CanvasState, t: MemeTemplate)
    ensures WithTemplate(WithTemplate(prev, t), t) == WithTemplate(prev, t)
  {
    LastTemplateWins(prev, t, t);
  }

  class App {
    var selectedTemplate: Option<MemeTemplate>
    var selectedCharacter: Option<SparkyCharacter>
    var currentMode: CanvasMode
    var canvasState: CanvasState

    constructor ()
      ensures selectedTemplate == None && selectedCharacter == None
      ensures currentMode == Select
      ensures canvasState == InitialCanvas
    {
      selectedTemplate, selectedCharacter := None, None;
      currentMode := Select;
      canvasState := InitialCanvas;
    }

    method HandleTemplateSelect(template: MemeTemplate)
      modifies this`selectedTemplate, this`canvasState
      ensures selectedTemplate == Some(template)
      ensures canvasState == WithTemplate(old(canvasState), template)
    {
      selectedTemplate := Some(template);
      canvasState := WithTemplate(canvasState, template);
    }

    method HandleCharacterSelect(character: SparkyCharacter)
      modifies this`selectedCharacter
      ensures selectedCharacter == Some(character)
    {
      selectedCharacter := Some(character);
    }

    method HandleModeChange(mode: CanvasMode)
      modifies this`currentMode
      ensures currentMode == mode
    {
      currentMode := mode;
    }
  }
}
