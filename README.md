# Meme editor core, modelled in Dafny

This project models the state logic of a browser meme editor built with React
and Konva. The repository holds two revisions of the editor:

- the **sparkify** revision (`sparkify-meme-generator/src`), whose Canvas
  component owns its own state and whose `useCanvas` hook keeps an undo/redo
  history of canvas states;
- the **latest** revision (`src`), whose Canvas receives its state as props,
  draws everything scaled by a zoom factor and stores drag positions descaled.

What is modelled, module by module:

| module | file | models |
|---|---|---|
| `MemeTypes` | `types.dfy` | the domain records (templates, characters, canvas elements, canvas state, modes) and the JavaScript truthiness of a selected id |
| `History` | `history.dfy` | `useCanvas`: record, undo, redo and clear over the history record, with the history invariant |
| `Layers` | `layers.dfy` | code both Canvas components share: the text-update map, the delete filter, the transformer's `boundBoxFunc` and the transformer-binding effect |
| `SparkifyCanvas` | `sparkify_canvas.dfy` | the sparkify Canvas component: selection, add/update/delete text, clear, image-load completion, the selection indicator |
| `LatestCanvas` | `latest_canvas.dfy` | the latest Canvas component: zoom, render/descale, the three drag-end handlers, the selection badge |
| `CanvasUtils` | `canvas_utils.dfy` | the element factories and geometry helpers of `src/utils/canvas.ts` |
| `Catalog` | `catalog.dfy` | the static template and character catalog the Sidebars search |
| `Sidebar` | `sidebar.dfy` | both Sidebars: the case-insensitive name filters, count badges, empty-state branches, item highlight and click dispatch |
| `SparkifyApp`, `LatestApp` | `sparkify_app.dfy`, `latest_app.dfy` | the two composition roots: initial state and the template, character and mode handlers |

Components that update React state in place are classes. Their fields are the
state, and each handler is a method whose `modifies` clause names exactly the
state its setters touch. Each method's `ensures` ties the new state to a pure
function of the old state. The properties are proved about those functions:
undo/redo round trips, the history invariant over any sequence of actions,
order preservation of the filters, the render/descale round trip and the
fitted-image bounds.

Conventions:

- Numbers are reals. The zoom is an integer percentage.
- `Date.now()` in generated ids becomes a `stamp` string parameter.
- A JavaScript default parameter becomes an `Option` argument.
- A selected id is "set" when it is neither `null` nor the empty string, following JavaScript truthiness.
- Where the two revisions contain the same code word for word, one member models both. The table cites both places.

Three behaviours of `useCanvas` are worth stating plainly:

- `updateCanvasState` records every state, even one equal to the current one (sparkify-meme-generator/src/hooks/useCanvas.ts:18-28).
- `clearHistory` empties the list and sets the cursor to -1, keeping the current canvas state (useCanvas.ts:66-73).
- Recording with the cursor on `s1` of `[s0, s1, s2]` gives `[s0, s1, n]`, because the slice keeps everything up to and including the cursor (useCanvas.ts:19-20, `History.RecordTruncatesRedoTail`).

## Model

| member | source | states |
|---|---|---|
| `History.Recorded` | sparkify-meme-generator/src/hooks/useCanvas.ts:14-29 | recording keeps exactly `states[0..currentIndex]` and appends the new state; the cursor lands on it, nothing is redoable, undo is possible iff more than one state is kept, and the result satisfies the history invariant |
| `History.Undone` | sparkify-meme-generator/src/hooks/useCanvas.ts:31-46 | undo is a no-op unless `canUndo` holds and the cursor is above 0; otherwise the cursor moves back one, redo becomes possible, the list is untouched and the invariant is preserved |
| `History.Redone` | sparkify-meme-generator/src/hooks/useCanvas.ts:48-64 | redo is a no-op unless `canRedo` holds and the cursor is below the last index; otherwise the cursor moves forward one, undo becomes possible, the list is untouched and the invariant is preserved |
| `History.CanvasHistory.constructor` | sparkify-meme-generator/src/hooks/useCanvas.ts:5-12 | the hook starts with the given canvas state and an empty history (cursor -1, no undo, no redo); the hook invariant holds: the record is consistent and, whenever it holds states, the canvas state is the one under the cursor |
| `History.CanvasHistory.UpdateCanvasState` | sparkify-meme-generator/src/hooks/useCanvas.ts:14-29 | the canvas state becomes the new state and the history becomes `Recorded` of the old history |
| `History.CanvasHistory.Undo` | sparkify-meme-generator/src/hooks/useCanvas.ts:31-46 | the history becomes `Undone` of the old one; when the cursor moved, the canvas state is the state at the new cursor, otherwise it is unchanged |
| `History.CanvasHistory.Redo` | sparkify-meme-generator/src/hooks/useCanvas.ts:48-64 | the history becomes `Redone` of the old one; when the cursor moved, the canvas state is the state at the new cursor, otherwise it is unchanged |
| `History.CanvasHistory.ClearHistory` | sparkify-meme-generator/src/hooks/useCanvas.ts:66-73 | the history is emptied (cursor -1, both flags false) and the canvas state is untouched |
| `History.UndoThenRedoRestores` | sparkify-meme-generator/src/hooks/useCanvas.ts:31-64 | an undo that moves, immediately followed by redo, restores both the history record and the canvas state the hook hands out |
| `History.RedoThenUndoRestores` | sparkify-meme-generator/src/hooks/useCanvas.ts:31-64 | a redo that moves, immediately followed by undo, restores both the history record and the canvas state |
| `History.UndoThenRedo` | sparkify-meme-generator/src/hooks/useCanvas.ts:31-64 | an undo that moves, followed by a redo, restores the history record exactly |
| `History.RedoThenUndo` | sparkify-meme-generator/src/hooks/useCanvas.ts:31-64 | a redo that moves, followed by an undo, restores the history record exactly |
| `History.RecordThenUndo` | sparkify-meme-generator/src/hooks/useCanvas.ts:14-46 | undo right after a recording puts the cursor back on the previously current state, with the new state redoable |
| `History.Step` | sparkify-meme-generator/src/hooks/useCanvas.ts:14-73 | every hook operation preserves the history invariant |
| `History.RunKeepsConsistent` | sparkify-meme-generator/src/hooks/useCanvas.ts:7-73 | any sequence of record/undo/redo/clear operations preserves the history invariant |
| `History.ReachableIsConsistent` | sparkify-meme-generator/src/hooks/useCanvas.ts:7-73 | every history reachable from the initial record satisfies the invariant |
| `History.RecordingsAppendInOrder` | sparkify-meme-generator/src/hooks/useCanvas.ts:19-27 | a run of recordings keeps the prefix up to the cursor and appends the new states in order, ending on the last with nothing to redo |
| `History.RecordTruncatesRedoTail` | sparkify-meme-generator/src/hooks/useCanvas.ts:19-20 | recording with the cursor on `s1` of `[s0, s1, s2]` discards `s2`: the result is `[s0, s1, n]` with the cursor on `n` |
| `Layers.UpdateText` | sparkify-meme-generator/src/components/Canvas.tsx:103-109 | the list keeps its length and order; only the `text` field changes, and it changes to the new text exactly on layers with the given id (same code at src/components/Canvas.tsx:98-104) |
| `Layers.UpdateTextUnknownId` | sparkify-meme-generator/src/components/Canvas.tsx:103-109 | updating an id no layer carries leaves the list unchanged |
| `Layers.UpdateTextLastWins` | src/components/Canvas.tsx:98-104 | of two successive edits of the same layer, only the later is visible |
| `Layers.RemoveById` | sparkify-meme-generator/src/components/Canvas.tsx:117 | deleting keeps exactly the layers whose id differs from the deleted one, and never lengthens the list |
| `Layers.RemoveByIdAppend` | sparkify-meme-generator/src/components/Canvas.tsx:117 | the delete filter keeps the surviving layers in their original order |
| `Layers.RemoveAbsentId` | sparkify-meme-generator/src/components/Canvas.tsx:117 | deleting an id no layer carries leaves the list unchanged |
| `Layers.RemoveByIdIdempotent` | sparkify-meme-generator/src/components/Canvas.tsx:117 | deleting the same id twice equals deleting it once |
| `Layers.BoundBox` | sparkify-meme-generator/src/components/Canvas.tsx:359-365 | a resize to a box narrower or lower than 5 is refused (the old box is kept); any other resize is accepted (same code at src/components/Canvas.tsx:502-507) |
| `Layers.BoundBoxKeepsMinimum` | src/components/Canvas.tsx:502-507 | starting from a box of at least 5 by 5, the transformer never yields a smaller one |
| `Layers.BoundNodes` | sparkify-meme-generator/src/components/Canvas.tsx:145-159 | with no truthy selection or no stage, the transformer is emptied; otherwise it holds the found node, or keeps its nodes when the lookup fails (same code at src/components/Canvas.tsx:117-131) |
| `Layers.BoundNodesAtMostOne` | src/components/Canvas.tsx:117-131 | the transformer never holds more than one node, and a node it holds is the selected one or one it held before |
| `SparkifyCanvas.NewTextLayer` | sparkify-meme-generator/src/components/Canvas.tsx:88-97 | the added layer's id is `text-` followed by the stamp; it reads "Double click to edit", is placed 100 left of the canvas centre at mid-height, size 32, white fill, black stroke of width 2 |
| `SparkifyCanvas.AddedTextIsDeletable` | sparkify-meme-generator/src/components/Canvas.tsx:87-121 | deleting the id of a freshly added layer gives back exactly the list before the addition |
| `SparkifyCanvas.SelectionIndicator` | sparkify-meme-generator/src/components/Canvas.tsx:425-436 | no indicator without a truthy selection; "Character Selected" exactly for `sparky`; "Text Selected" for any other selection |
| `SparkifyCanvas.CanvasComponent.constructor` | sparkify-meme-generator/src/components/Canvas.tsx:28-43 | nothing is selected, loaded or added at mount |
| `SparkifyCanvas.CanvasComponent.BackgroundLoaded` | sparkify-meme-generator/src/components/Canvas.tsx:46-55 | on load completion the background slot holds the loaded image |
| `SparkifyCanvas.CanvasComponent.SparkyLoaded` | sparkify-meme-generator/src/components/Canvas.tsx:58-67 | on load completion the sprite slot holds the loaded image |
| `SparkifyCanvas.CanvasComponent.HandleSelect` | sparkify-meme-generator/src/components/Canvas.tsx:70-72 | selecting sets the selection unconditionally |
| `SparkifyCanvas.CanvasComponent.HandleDeselect` | sparkify-meme-generator/src/components/Canvas.tsx:74-76 | deselecting clears the selection |
| `SparkifyCanvas.CanvasComponent.HandleStageClick` | sparkify-meme-generator/src/components/Canvas.tsx:79-84 | a click clears the selection exactly when the stage itself is the target, and otherwise leaves it |
| `SparkifyCanvas.CanvasComponent.AddText` | sparkify-meme-generator/src/components/Canvas.tsx:87-100 | exactly one new layer is appended after the unchanged existing ones, and its id becomes the selection; every held id keeps the `text-` prefix |
| `SparkifyCanvas.CanvasComponent.UpdateText` | sparkify-meme-generator/src/components/Canvas.tsx:103-109 | the layers become `Layers.UpdateText` of the old layers |
| `SparkifyCanvas.CanvasComponent.DeleteSelected` | sparkify-meme-generator/src/components/Canvas.tsx:112-121 | without a truthy selection nothing changes (so a second delete is a no-op); `sparky` drops the sprite, a `text-` id removes that layer, and the selection always ends cleared |
| `SparkifyCanvas.CanvasComponent.ClearCanvas` | sparkify-meme-generator/src/components/Canvas.tsx:137-142 | both images, the layers and the selection are all cleared |
| `SparkifyCanvas.CanvasComponent.SyncTransformer` | sparkify-meme-generator/src/components/Canvas.tsx:145-159 | with a mounted transformer its nodes become `Layers.BoundNodes`; without one nothing changes |
| `LatestCanvas.DescaleRendered` | src/components/Canvas.tsx:375-386 | for any slider zoom, descaling a rendered coordinate gives back the stored coordinate |
| `LatestCanvas.RenderDescaled` | src/components/Canvas.tsx:375-386 | for any slider zoom, rendering a descaled drop position gives back the drop position |
| `LatestCanvas.MoveText` | src/components/Canvas.tsx:407-417 | the list keeps its length and order; only `x` and `y` change, and exactly the layers with the dragged id get the new position |
| `LatestCanvas.MoveImage` | src/components/Canvas.tsx:486-496 | the list keeps its length and order; only `x` and `y` change, and exactly the images with the dragged id get the new position |
| `LatestCanvas.TextDrawnWhereDropped` | src/components/Canvas.tsx:395-417 | after a text drag-end the dragged layer is drawn exactly at the drop point and every other layer where it was drawn before |
| `LatestCanvas.ImageDrawnWhereDropped` | src/components/Canvas.tsx:479-496 | after an image drag-end the dragged image is drawn exactly at the drop point |
| `LatestCanvas.DragInPlaceIsNoOp` | src/components/Canvas.tsx:395-417 | dropping a layer where it is already drawn leaves the list unchanged |
| `LatestCanvas.SelectionBadge` | src/components/Canvas.tsx:567-575 | no badge without a truthy selection; "Character" exactly for `sparky`; "Image" for any other id starting with `image-`; "Text" for everything else |
| `LatestCanvas.CanvasView.constructor` | src/components/Canvas.tsx:11-71 | nothing selected, no layers or images, and a zoom inside the slider range |
| `LatestCanvas.CanvasView.UpdateText` | src/components/Canvas.tsx:98-104 | the layers become `Layers.UpdateText` of the old layers |
| `LatestCanvas.CanvasView.HandleSelect` | src/components/Canvas.tsx:106-108 | selecting sets the selection unconditionally |
| `LatestCanvas.CanvasView.HandleStageClick` | src/components/Canvas.tsx:110-115 | a click clears the selection exactly when the stage itself is the target |
| `LatestCanvas.CanvasView.HandleZoomChange` | src/components/Canvas.tsx:133-135 | the zoom becomes the slider's value, which stays within 25..200 |
| `LatestCanvas.CanvasView.SparkyDragEnd` | src/components/Canvas.tsx:382-386 | the stored sprite position is the drop point divided by `zoom/100`, so the sprite is drawn at the drop point |
| `LatestCanvas.CanvasView.TextDragEnd` | src/components/Canvas.tsx:407-417 | the layers become `MoveText` with the descaled drop point |
| `LatestCanvas.CanvasView.ImageDragEnd` | src/components/Canvas.tsx:486-496 | the images become `MoveImage` with the descaled drop point |
| `LatestCanvas.CanvasView.SyncTransformer` | src/components/Canvas.tsx:117-131 | with a mounted transformer its nodes become `Layers.BoundNodes`; without one nothing changes |
| `CanvasUtils.OrDefault` | src/utils/canvas.ts:15-39 | a missing argument takes the default, a given one is used as is |
| `CanvasUtils.CreateImageElement` | src/utils/canvas.ts:15-32 | the id is `image-` followed by the stamp; position defaults to (0, 0) and size to 200 by 200; rotation 0, scale 1 by 1, opacity 1; the URL is kept |
| `CanvasUtils.CreateTextElement` | src/utils/canvas.ts:34-55 | the id is `text-` followed by the stamp; text defaults to "Sample Text", position to (100, 100), size to 32; Impact, white fill, black stroke of width 2, no rotation, unit scale, centred, bold, normal style |
| `CanvasUtils.FactoryIdsClassified` | src/utils/canvas.ts:22-40 | the canvas badge classifies every factory-made image id as "Image" and every text id as "Text" |
| `CanvasUtils.GetCanvasCenter` | src/utils/canvas.ts:57-60 | the returned point is equidistant from both edges in each dimension |
| `CanvasUtils.FitImageToCanvas` | src/utils/canvas.ts:62-77 | the scale is the smaller of the two axis ratios and positive; the fitted size fits inside the canvas, touches it in at least one dimension, and keeps the image's aspect ratio |
| `CanvasUtils.FitBounds` | src/utils/canvas.ts:68-75 | with the smaller axis ratio as scale, the scaled image fits and touches the canvas in one dimension |
| `CanvasUtils.FitIsLargest` | src/utils/canvas.ts:62-77 | no uniform scale that fits the canvas is larger than the fitted one |
| `Sidebar.Lower` | sparkify-meme-generator/src/components/Sidebar.tsx:28 | lower-casing keeps the length and maps each character on its own |
| `Sidebar.LowerIdempotent` | sparkify-meme-generator/src/components/Sidebar.tsx:28 | lower-casing twice is lower-casing once |
| `Sidebar.IncludesIffOccurs` | sparkify-meme-generator/src/components/Sidebar.tsx:28 | the substring scan succeeds exactly when the term occurs at some position of the name |
| `Sidebar.FilterByName` | sparkify-meme-generator/src/components/Sidebar.tsx:27-37 | a filtered list holds exactly the entries whose lower-cased name contains the lower-cased term, and is never longer than the catalog list (same code at src/components/Sidebar.tsx:27-37) |
| `Sidebar.FilterAppend` | src/components/Sidebar.tsx:27-37 | the filter keeps the surviving entries in catalog order |
| `Sidebar.FilterEmptyTerm` | src/components/Sidebar.tsx:27-37 | an empty search term lists everything |
| `Sidebar.FilterSameLowering` | sparkify-meme-generator/src/components/Sidebar.tsx:28 | two terms that lower-case alike give the same result |
| `Sidebar.FilterIgnoresTermCase` | src/components/Sidebar.tsx:28 | the case of the search term does not change the result |
| `Sidebar.IsSelected` | sparkify-meme-generator/src/components/Sidebar.tsx:53-61 | a sparky cell is highlighted iff its id equals the selected character's; any other cell iff its id equals the selected template's (same code at src/components/Sidebar.tsx:53-61) |
| `Sidebar.OnItemClick` | sparkify-meme-generator/src/components/Sidebar.tsx:50-52 | a click on a sparky cell goes to the character handler and any other click to the template handler, always with the clicked item (same code at src/components/Sidebar.tsx:50-52) |
| `Sidebar.ItemGrid` | sparkify-meme-generator/src/components/Sidebar.tsx:39-87 | one cell per item, in order, each highlighted as `IsSelected` says |
| `Sidebar.MakeSection` | sparkify-meme-generator/src/components/Sidebar.tsx:114-129 | the badge shows the filtered count, and the "none found" message is shown exactly when that count is 0 (same code at src/components/Sidebar.tsx:114-131) |
| `Sidebar.Render` | sparkify-meme-generator/src/components/Sidebar.tsx:105-180 | each of the three sections counts its filtered catalog list and shows it as an item grid, or, exactly when it is empty, its own message: "No backgrounds found", "No meme templates found" or "No characters found" |
| `Sidebar.PropsIgnored` | sparkify-meme-generator/src/components/Sidebar.tsx:19-37 | the `templates` and `characters` props have no effect on what is shown |
| `Sidebar.EmptySearchListsCatalog` | src/components/Sidebar.tsx:27-37 | with an empty search box all three catalog lists are shown in full |
| `Sidebar.SparkySearchExample` | sparkify-meme-generator/src/components/Sidebar.tsx:27-37 | searching "sparky" over "Happy Sparky", "Cool Sparky" and "Classic Meme" keeps the first two, in order |
| `SparkifyApp.WithTemplate` | sparkify-meme-generator/src/App.tsx:34-39 | selecting a template gives the canvas the template's width, height and image as background, and keeps its colour and elements |
| `SparkifyApp.LastTemplateWins` | sparkify-meme-generator/src/App.tsx:32-40 | of two template selections, only the last is visible in the canvas state |
| `SparkifyApp.TemplateSelectIdempotent` | sparkify-meme-generator/src/App.tsx:32-40 | selecting the same template twice equals selecting it once |
| `SparkifyApp.App.constructor` | sparkify-meme-generator/src/App.tsx:19-30 | no template or character is selected, the mode is "select", and the canvas is 500 by 500, white, empty, without background |
| `SparkifyApp.App.HandleTemplateSelect` | sparkify-meme-generator/src/App.tsx:32-40 | the template becomes selected and the canvas becomes `WithTemplate` of the old canvas |
| `SparkifyApp.App.HandleCharacterSelect` | sparkify-meme-generator/src/App.tsx:42-44 | only the selected character changes |
| `SparkifyApp.App.HandleModeChange` | sparkify-meme-generator/src/App.tsx:46-48 | only the mode changes |
| `LatestApp.WithTemplate` | src/App.tsx:34-37 | selecting a template sets the background image and keeps the canvas size, colour and elements |
| `LatestApp.DiffersFromSparkifyOnlyInSize` | src/App.tsx:32-38 | the latest template handler is the sparkify one with the canvas size left as it was |
| `LatestApp.SizeNeverChanges` | src/App.tsx:25-38 | whatever templates are selected, the canvas stays 800 by 400 and empty |
| `LatestApp.App.constructor` | src/App.tsx:19-30 | no template or character is selected, the mode is "select", and the canvas is 800 by 400, white, empty, without background |
| `LatestApp.App.HandleTemplateSelect` | src/App.tsx:32-38 | the template becomes selected and the canvas becomes `WithTemplate` of the old canvas |
| `LatestApp.App.HandleCharacterSelect` | src/App.tsx:40-42 | only the selected character changes |
| `LatestApp.App.HandleModeChange` | src/App.tsx:44-46 | only the mode changes |

## Left out

- Export and download (`downloadImage`, `toDataURL`, Blob URLs, anchor clicks) are browser I/O.
- Image loading is asynchronous I/O. Only its completion is modelled: `BackgroundLoaded` and `SparkyLoaded` set the slot. A load that never completes, or that completes after a newer one, is not modelled.
- The in-place textarea editor (sparkify-meme-generator/src/components/Canvas.tsx:300-352, src/components/Canvas.tsx:418-470) manipulates the DOM. Enter, Escape and blur all commit through the same `updateText(id, textarea.value)` call, which is what is modelled; the code has no cancel path.
- The Konva scene graph (`findOne`, `batchDraw`, rendering, hit-testing) is not modelled. Node lookup is a map from id to node, a mounted stage or transformer is a boolean, and "the stage itself was clicked" is a boolean parameter.
- Both Toolbar components, all JSX and CSS markup, and the zoom-slider gradient are presentation only.
- sparkify-meme-generator/src/utils/canvas.ts only wraps fabric.js calls whose behaviour is not visible here.
- The latest revision's `src/types` and `src/utils/mockData.ts` are not part of this model. The sparkify revision's types and catalog stand in for them.
- `src/App.tsx:107-113` passes the latest Canvas only five of its props. The model treats the state that Canvas reads and writes as the fields of `CanvasView`, as if all props were wired. The undefined setters and the undefined zoom of the code as written are not modelled.
- The latest Canvas's `addText`, `deleteSelected`, `downloadImage` and `clearCanvas` are props whose implementations are not in this revision's source. Only the handlers the component defines itself are modelled.
- `useCanvas` is not called by either App. It is modelled on its own.
- Numbers are real numbers, not IEEE doubles. Rounding is not modelled, and neither are the NaN or Infinity that a zero image size or a zero zoom would produce. `Descale` therefore requires a non-zero zoom, and `FitImageToCanvas` requires positive sizes.
- Sidebar.Lower: lower-cases ASCII letters only, because Unicode case mapping has no counterpart in Dafny's strings.
- `Date.now()` becomes a `stamp` parameter, so the uniqueness of generated ids is not guaranteed by the model. `AddedTextIsDeletable` assumes the stamp is fresh.
