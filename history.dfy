// The undo/redo hook of the sparkify revision
// (sparkify-meme-generator/src/hooks/useCanvas.ts): a list of canvas states,
// a cursor into it and two derived flags.  The hook's two pieces of React
// state, `canvasState` and `history`, become the fields of CanvasHistory; the
// pure transition functions below say what each of its methods does to the
// `history` record, and the lemmas say what the transitions promise.

module History {
  import opened MemeTypes

  datatype HistoryState = HistoryState(
    canUndo: bool,
    canRedo: bool,
    currentIndex: int,
    states: seq<CanvasState>)

  /** The record the hook starts from and `clearHistory` returns to. */
  const EmptyHistory := HistoryState(false, false, -1, [])

  /** The cursor is -1 or points into the list: what every transition needs. */
  predicate IndexInRange(h: HistoryState)
  {
    -1 <= h.currentIndex < |h.states|
  }

  /** The history invariant: the cursor is in range, -1 exactly for an empty
      list, and both flags agree with the cursor. */
  predicate Consistent(h: HistoryState)
  {
    && IndexInRange(h)
    && (h.currentIndex == -1 <==> h.states == [])
    && h.canUndo == (h.currentIndex > 0)
    && h.canRedo == (h.currentIndex < |h.states| - 1)
  }

  /** `updateCanvasState`: drop the redo tail, append the new state, move the
      cursor onto it. */
  function Recorded(h: HistoryState, s: CanvasState): (r: HistoryState)
    requires IndexInRange(h)
    ensures Consistent(r)
    ensures |r.states| == h.currentIndex + 2
    ensures r.states[..h.currentIndex + 1] == h.states[..h.currentIndex + 1]
    ensures r.currentIndex == |r.states| - 1 && r.states[r.currentIndex] == s
    ensures !r.canRedo && (r.canUndo <==> |r.states| > 1)
  {
    var newStates := h.states[..h.currentIndex + 1] + [s];
    HistoryState(|newStates| > 1, false, |newStates| - 1, newStates)
  }

  /** True when `undo` moves the cursor; otherwise it returns `prev` unchanged. */
  predicate UndoMoves(h: HistoryState)
  {
    h.canUndo && h.currentIndex > 0
  }

  /** True when `redo` moves the cursor; otherwise it returns `prev` unchanged. */
  predicate RedoMoves(h: HistoryState)
  {
    h.canRedo && h.currentIndex < |h.states| - 1
  }

  /** `undo` on the history record. */
  function Undone(h: HistoryState): (r: HistoryState)
    requires IndexInRange(h)
    ensures IndexInRange(r) && r.states == h.states
    ensures !UndoMoves(h) ==> r == h
    ensures UndoMoves(h) ==>
      && r.currentIndex == h.currentIndex - 1
      && r.canRedo
      && r.canUndo == (r.currentIndex > 0)
    ensures Consistent(h) ==> Consistent(r)
  {
    if !h.canUndo || h.currentIndex <= 0 then h
    else
      var newIndex := h.currentIndex - 1;
      h.(canUndo := newIndex > 0, canRedo := true, currentIndex := newIndex)
  }

  /** `redo` on the history record. */
  function Redone(h: HistoryState): (r: HistoryState)
    requires IndexInRange(h)
    ensures IndexInRange(r) && r.states == h.states
    ensures !RedoMoves(h) ==> r == h
    ensures RedoMoves(h) ==>
      && r.currentIndex == h.currentIndex + 1
      && r.canUndo
      && r.canRedo == (r.currentIndex < |r.states| - 1)
    ensures Consistent(h) ==> Consistent(r)
  {
    if !h.canRedo || h.currentIndex >= |h.states| - 1 then h
    else
      var newIndex := h.currentIndex + 1;
      h.(canUndo := true, canRedo := newIndex < |h.states| - 1, currentIndex := newIndex)
  }

  /** The hook's state: the canvas state it hands out plus the history record. */
  class CanvasHistory {
    var canvasState: CanvasState
    var states: seq<CanvasState>
    var currentIndex: int
    var canUndo: bool
    var canRedo: bool

    function History(): HistoryState
      reads this
    {
      HistoryState(canUndo, canRedo, currentIndex, states)
    }

    /** The record is consistent, and whenever it holds states the canvas
        state handed out is the one under the cursor. */
    ghost predicate Valid()
      reads this
    {
      && Consistent(History())
      && (states != [] ==> canvasState == states[currentIndex])
    }

    constructor (initialState: CanvasState)
      ensures Valid()
      ensures canvasState == initialState && History() == EmptyHistory
    {
      canvasState := initialState;
      canUndo, canRedo, currentIndex, states := false, false, -1, [];
    }

    method UpdateCanvasState(newState: CanvasState)
      requires Valid()
      modifies this`canvasState, this`states, this`currentIndex, this`canUndo, this`canRedo
      ensures Valid()
      ensures canvasState == newState
      ensures History() == Recorded(old(History()), newState)
    {
      canvasState := newState;
      var newStates := states[..currentIndex + 1];
      newStates := newStates + [newState];
      canUndo, canRedo, currentIndex, states := |newStates| > 1, false, |newStates| - 1, newStates;
    }

    method Undo()
      requires Valid()
      modifies this`canvasState, this`states, this`currentIndex, this`canUndo, this`canRedo
      ensures Valid()
      ensures History() == Undone(old(History()))
      ensures UndoMoves(old(History())) ==> canvasState == states[currentIndex]
      ensures !UndoMoves(old(History())) ==> canvasState == old(canvasState)
    {
      if !canUndo || currentIndex <= 0 {
        return;
      }
      var newIndex := currentIndex - 1;
      canvasState := states[newIndex];
      canUndo, canRedo, currentIndex := newIndex > 0, true, newIndex;
    }

    method Redo()
      requires Valid()
      modifies this`canvasState, this`states, this`currentIndex, this`canUndo, this`canRedo
      ensures Valid()
      ensures History() == Redone(old(History()))
      ensures RedoMoves(old(History())) ==> canvasState == states[currentIndex]
      ensures !RedoMoves(old(History())) ==> canvasState == old(canvasState)
    {
      if !canRedo || currentIndex >= |states| - 1 {
        return;
      }
      var newIndex := currentIndex + 1;
      canvasState := states[newIndex];
      canUndo, canRedo, currentIndex := true, newIndex < |states| - 1, newIndex;
    }

    method ClearHistory()
      requires Valid()
      modifies this`states, this`currentIndex, this`canUndo, this`canRedo
      ensures Valid()
      ensures History() == EmptyHistory && canvasState == old(canvasState)
    {
      canUndo, canRedo, currentIndex, states := false, false, -1, [];
    }
  }

  /** Undo immediately followed by redo restores the hook completely: the
      history record and the canvas state it hands out. */
  method UndoThenRedoRestores(c: CanvasHistory)
    requires c.Valid() && UndoMoves(c.History())
    modifies c`canvasState, c`states, c`currentIndex, c`canUndo, c`canRedo
    ensures c.Valid()
    ensures c.History() == old(c.History()) && c.canvasState == old(c.canvasState)
  {
    UndoThenRedo(c.History());
    c.Undo();
    c.Redo();
  }

  /** Redo immediately followed by undo restores the hook completely. */
  method RedoThenUndoRestores(c: CanvasHistory)
    requires c.Valid() && RedoMoves(c.History())
    modifies c`canvasState, c`states, c`currentIndex, c`canUndo, c`canRedo
    ensures c.Valid()
    ensures c.History() == old(c.History()) && c.canvasState == old(c.canvasState)
  {
    RedoThenUndo(c.History());
    c.Redo();
    c.Undo();
  }

  // ---------------------------------------------------------------------
  // Properties of the transitions

  /** Undo followed at once by redo gives back the same history record, and so
      the same current canvas state. */
  lemma UndoThenRedo(h: HistoryState)
    requires Consistent(h) && UndoMoves(h)
    ensures Redone(Undone(h)) == h
  {
  }

  /** Redo followed at once by undo gives back the same history record. */
  lemma RedoThenUndo(h: HistoryState)
    requires Consistent(h) && RedoMoves(h)
    ensures Undone(Redone(h)) == h
  {
  }

  /** Undo right after recording a state returns the cursor to the state that
      was current before the recording, with that state's successor redoable. */
  lemma RecordThenUndo(h: HistoryState, s: CanvasState)
    requires Consistent(h) && h.currentIndex >= 0
    ensures Undone(Recorded(h, s)).currentIndex == h.currentIndex
    ensures Undone(Recorded(h, s)).states[h.currentIndex] == h.states[h.currentIndex]
    ensures Undone(Recorded(h, s)).canRedo
  {
    var r := Recorded(h, s);
    assert r.states[h.currentIndex] == r.states[..h.currentIndex + 1][h.currentIndex];
  }

  /** One user-visible history operation. */
  datatype Action = UpdateState(state: CanvasState) | UndoAction | RedoAction | ClearAction

  function Step(h: HistoryState, a: Action): (r: HistoryState)
    requires IndexInRange(h)
    ensures IndexInRange(r)
    ensures Consistent(h) ==> Consistent(r)
  {
    match a
    case UpdateState(s) => Recorded(h, s)
    case UndoAction => Undone(h)
    case RedoAction => Redone(h)
    case ClearAction => EmptyHistory
  }

  function Run(h: HistoryState, actions: seq<Action>): (r: HistoryState)
    requires IndexInRange(h)
    ensures IndexInRange(r)
    decreases |actions|
  {
    if actions == [] then h else Run(Step(h, actions[0]), actions[1..])
  }

  /** The invariant holds from the initial record on, whatever is done to it. */
  lemma {:induction false} RunKeepsConsistent(h: HistoryState, actions: seq<Action>)
    requires Consistent(h)
    ensures Consistent(Run(h, actions))
    decreases |actions|
  {
    if actions != [] {
      RunKeepsConsistent(Step(h, actions[0]), actions[1..]);
    }
  }

  /** Every history the hook can reach is consistent. */
  lemma ReachableIsConsistent(actions: seq<Action>)
    ensures Consistent(Run(EmptyHistory, actions))
  {
    RunKeepsConsistent(EmptyHistory, actions);
  }

  function Updates(ss: seq<CanvasState>): (acts: seq<Action>)
    ensures |acts| == |ss|
  {
    if ss == [] then [] else [UpdateState(ss[0])] + Updates(ss[1..])
  }

  /** A run of recordings keeps the history up to the cursor, appends the new
      states in order, and leaves the cursor on the last one with nothing to
      redo. */
  lemma {:induction false} RecordingsAppendInOrder(h: HistoryState, ss: seq<CanvasState>)
    requires IndexInRange(h) && ss != []
    ensures Run(h, Updates(ss)).states == h.states[..h.currentIndex + 1] + ss
    ensures Run(h, Updates(ss)).currentIndex == |Run(h, Updates(ss)).states| - 1
    ensures !Run(h, Updates(ss)).canRedo
    decreases |ss|
  {
    var h1 := Recorded(h, ss[0]);
    var acts := Updates(ss);
    assert acts[0] == UpdateState(ss[0]) && acts[1..] == Updates(ss[1..]);
    assert Run(h, acts) == Run(h1, Updates(ss[1..]));
    if |ss| > 1 {
      RecordingsAppendInOrder(h1, ss[1..]);
      assert h1.states[..h1.currentIndex + 1] == h1.states;
      assert h1.states + ss[1..] == h.states[..h.currentIndex + 1] + ss;
    } else {
      assert Updates(ss[1..]) == [];
      assert h1.states == h.states[..h.currentIndex + 1] + ss;
    }
  }

  /** A new recording in the middle of the list discards the redo tail:
      [s0, s1, s2] with the cursor on s1 becomes [s0, s1, n]. */
  lemma RecordTruncatesRedoTail(s0: CanvasState, s1: CanvasState, s2: CanvasState, n: CanvasState)
    ensures Recorded(HistoryState(true, true, 1, [s0, s1, s2]), n)
         == HistoryState(true, false, 2, [s0, s1, n])
  {
    assert [s0, s1, s2][..2] == [s0, s1];
  }
}
