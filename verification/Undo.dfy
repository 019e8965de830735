/** Checkpoints and the two undo stacks (src/agent/undo.rs). */
module Undo {
  import opened Wrappers
  import opened Llm

  datatype Checkpoint = Snapshot(id: nat, turnNumber: nat, messages: seq<ChatMessage>, description: string)

  /** The last `n` elements, or all if there are no more. */
  function LastN<T>(s: seq<T>, n: nat): seq<T> { if |s| <= n then s else s[|s| - n..] }

  /** The stack with one more at the end: as many as the limit allows, the oldest dropped first. */
  predicate IsPushed<T(==)>(after: seq<T>, before: seq<T>, x: T, max: nat) {
    && |after| == (if |before| + 1 <= max then |before| + 1 else max)
    && after == (before + [x])[|before| + 1 - |after|..]
  }

  /** Position of the first checkpoint with the given id. */
  function Position(stack: seq<Checkpoint>, id: nat): (r: Option<nat>)
    ensures r.Some? ==> r.value < |stack| && stack[r.value].id == id
    ensures r.Some? ==> forall i :: 0 <= i < r.value ==> stack[i].id != id
    ensures r.None? ==> forall i :: 0 <= i < |stack| ==> stack[i].id != id
  {
    if stack == [] then None
    else if stack[0].id == id then Some(0)
    else match Position(stack[1..], id)
      case None => None
      case Some(p) => Some(p + 1)
  }

  class UndoManager {
    var undoStack: seq<Checkpoint>
    var redoStack: seq<Checkpoint>
    const maxCheckpoints: nat

    constructor (maxCheckpoints: nat)
      ensures undoStack == [] && redoStack == [] && this.maxCheckpoints == maxCheckpoints
    {
      undoStack, redoStack := [], [];
      this.maxCheckpoints := maxCheckpoints;
    }

    method PushUndo(checkpoint: Checkpoint)
      modifies this
      ensures undoStack == LastN(old(undoStack) + [checkpoint], maxCheckpoints)
      ensures redoStack == old(redoStack)
      ensures IsPushed(undoStack, old(undoStack), checkpoint, maxCheckpoints)
    {
      undoStack := undoStack + [checkpoint];
      while |undoStack| > maxCheckpoints
        invariant LastN(undoStack, maxCheckpoints) == LastN(old(undoStack) + [checkpoint], maxCheckpoints)
        invariant redoStack == old(redoStack)
        decreases |undoStack|
      {
        undoStack := undoStack[1..];
      }
    }

    method TakeCheckpoint(freshId: nat, turnNumber: nat, messages: seq<ChatMessage>, description: string)
      modifies this
      ensures undoStack == LastN(old(undoStack) + [Snapshot(freshId, turnNumber, messages, description)], maxCheckpoints)
      ensures redoStack == []
      ensures IsPushed(undoStack, old(undoStack), Snapshot(freshId, turnNumber, messages, description), maxCheckpoints)
    {
      redoStack := [];
      PushUndo(Snapshot(freshId, turnNumber, messages, description));
    }

    method Undo(freshId: nat, currentTurn: nat, currentMessages: seq<ChatMessage>) returns (r: Option<Checkpoint>)
      modifies this
      ensures old(undoStack) == [] ==> r == None && undoStack == [] && redoStack == old(redoStack)
      ensures old(undoStack) != [] ==>
                && r.Some? && old(undoStack) == undoStack + [r.value]
                && redoStack == old(redoStack) + [Snapshot(freshId, currentTurn, currentMessages, "Turn")]
    {
      if |undoStack| == 0 {
        return None;
      }
      redoStack := redoStack + [Snapshot(freshId, currentTurn, currentMessages, "Turn")];
      r := Some(undoStack[|undoStack| - 1]);
      undoStack := undoStack[..|undoStack| - 1];
    }

    method Redo(freshId: nat, currentTurn: nat, currentMessages: seq<ChatMessage>) returns (r: Option<Checkpoint>)
      modifies this
      ensures old(redoStack) == [] ==> r == None && undoStack == old(undoStack) && redoStack == []
      ensures old(redoStack) != [] ==>
                && r.Some? && old(redoStack) == redoStack + [r.value]
                && undoStack == LastN(old(undoStack) + [Snapshot(freshId, currentTurn, currentMessages, "Turn")],
                                      maxCheckpoints)
                && IsPushed(undoStack, old(undoStack), Snapshot(freshId, currentTurn, currentMessages, "Turn"), maxCheckpoints)
    {
      if |redoStack| == 0 {
        return None;
      }
      PushUndo(Snapshot(freshId, currentTurn, currentMessages, "Turn"));
      r := Some(redoStack[|redoStack| - 1]);
      redoStack := redoStack[..|redoStack| - 1];
    }

    method Clear()
      modifies this
      ensures undoStack == [] && redoStack == []
    {
      undoStack, redoStack := [], [];
    }

    /** Back to a checkpoint by id: it and everything after it leave the undo stack, and the redo stack empties. */
    method Restore(checkpointId: nat) returns (r: Option<Checkpoint>)
      modifies this
      ensures var pos := Position(old(undoStack), checkpointId);
              if pos.None? then r == None && undoStack == old(undoStack) && redoStack == old(redoStack)
              else r == Some(old(undoStack)[pos.value]) && undoStack == old(undoStack)[..pos.value] && redoStack == []
    {
      var pos := 0;
      while pos < |undoStack| && undoStack[pos].id != checkpointId
        invariant pos <= |undoStack|
        invariant forall i :: 0 <= i < pos ==> undoStack[i].id != checkpointId
      {
        pos := pos + 1;
      }
      if pos == |undoStack| {
        return None;
      }
      redoStack := [];
      while |undoStack| > pos + 1
        invariant pos < |undoStack| <= |old(undoStack)|
        invariant undoStack == old(undoStack)[..|undoStack|]
        invariant redoStack == []
      {
        undoStack := undoStack[..|undoStack| - 1];
      }
      r := Some(undoStack[|undoStack| - 1]);
      undoStack := undoStack[..|undoStack| - 1];
    }
  }
}
