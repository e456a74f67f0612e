/** One debugging session (MacroBug in the plugin): the register it debugs,
    its step history and the column last seen in the debugger window. The
    editor is reached through a Vim handle that records the side effects
    this model tracks; what the session reads from the editor (cursor column,
    buffer line, window validity, undo-tree position, replies of the
    editor-side scripts) arrives as method parameters. */
module Debugger {
  import opened StateStacks

  datatype Option<T> = None | Some(value: T)

  datatype Result<T> = Ok(value: T) | Err(message: string)

  /** Whether an operation that may raise the plugin's own exception did so. */
  datatype Status = Success | Failure(message: string)

  const RegisterKeyMessage := "Expecting a register as parameter. See :help register"
  const UndoTreeMessage := "Cannot find current sequence of the undotree"
  const MultiLineMessage := "Unexpected carriage return in macro"
  const WindowGoneMessage := "Cannot access debugger window"

  /** A side effect asked of the editor. */
  datatype HostCall =
    | DrawCursorAndVisual          // marks the cursor and selection in the target window
    | UnsetCursorAndVisual         // removes those marks
    | SetModifiable(on: bool)      // the target buffer's 'modifiable' option
    | OpenMacroWindow(register: string)  // new window seeded with the register's content
    | CloseWindow                  // closes the debugger window
    | SetTargetCursor(cursor: Cursor)
    | ExecuteMacroChunk(changeRoot: int, cursorRoot: Cursor, keys: string)
    | ApplyState(changeRoot: int, cursorRoot: Cursor)
    | UndoTo(changeRoot: int)
    | WriteRegister(register: string, text: string)

  /** The editor handle: the log of the tracked side effects asked of it, in order. */
  class Vim {
    var calls: seq<HostCall>

    constructor ()
      ensures calls == []
    {
      calls := [];
    }
  }

  /** The side effects of opening a session, up to the point where the
      macro's line count is checked. */
  function OpeningCalls(registerKey: string): (r: seq<HostCall>)
  {
    [DrawCursorAndVisual, SetModifiable(false), OpenMacroWindow(registerKey)]
  }

  /** The side effects of closing a session once its window is gone: the
      target becomes modifiable again, is undone to `changeRoot`, and loses
      the debugger's marks. */
  function RestoreCalls(changeRoot: int): (r: seq<HostCall>)
  {
    [SetModifiable(true), UndoTo(changeRoot), UnsetCursorAndVisual]
  }

  /** Whether a debugger window is left open by the calls in `log`. */
  ghost function WindowOpen(log: seq<HostCall>): bool
    decreases |log|
  {
    if log == [] then false
    else match log[|log| - 1]
      case OpenMacroWindow(_) => true
      case CloseWindow => false
      case _ => WindowOpen(log[..|log| - 1])
  }

  /** Whether the target buffer is left non-modifiable by the calls in `log`. */
  ghost function TargetLocked(log: seq<HostCall>): bool
    decreases |log|
  {
    if log == [] then false
    else match log[|log| - 1]
      case SetModifiable(on) => !on
      case _ => TargetLocked(log[..|log| - 1])
  }

  /** Whether the debugger's marks are left drawn by the calls in `log`. */
  ghost function MarksDrawn(log: seq<HostCall>): bool
    decreases |log|
  {
    if log == [] then false
    else match log[|log| - 1]
      case DrawCursorAndVisual => true
      case UnsetCursorAndVisual => false
      case _ => MarksDrawn(log[..|log| - 1])
  }

  /** The editor carries nothing of a debugging session. */
  ghost predicate Idle(log: seq<HostCall>)
  {
    !WindowOpen(log) && !TargetLocked(log) && !MarksDrawn(log)
  }

  /** The keys `macro[0:keysTo]` replays: the longest prefix of the macro
      that is at most `keysTo` keys long. */
  function KeysUpTo(macro: string, keysTo: nat): (r: string)
    ensures r <= macro
    ensures |r| <= keysTo
    ensures |r| < keysTo ==> r == macro
  {
    if keysTo <= |macro| then macro[..keysTo] else macro
  }

  /** Opening a session leaves the window open, the target locked and the
      marks drawn, whatever the editor carried before. */
  lemma {:induction false} OpeningLeavesSessionTraces(log: seq<HostCall>, registerKey: string)
    ensures WindowOpen(log + OpeningCalls(registerKey))
    ensures TargetLocked(log + OpeningCalls(registerKey))
    ensures MarksDrawn(log + OpeningCalls(registerKey))
  {
  }

  /** Closing the window and then restoring the target leaves the editor
      carrying nothing of the session, whatever it carried before. */
  lemma {:induction false} CloseAndRestoreIsIdle(log: seq<HostCall>, changeRoot: int)
    ensures Idle(log + [CloseWindow] + RestoreCalls(changeRoot))
  {
    var l1 := log + [CloseWindow];
    var l2 := l1 + [SetModifiable(true)];
    var l3 := l2 + [UndoTo(changeRoot)];
    var l4 := l3 + [UnsetCursorAndVisual];
    assert l4 == log + [CloseWindow] + RestoreCalls(changeRoot);
    assert l4[..|l4| - 1] == l3 && l3[..|l3| - 1] == l2 && l2[..|l2| - 1] == l1;
    assert !WindowOpen(l1);
    assert !TargetLocked(l2);
    assert !WindowOpen(l3) && !TargetLocked(l3);
  }

  /** A debugging session. */
  class MacroBug {
    const vim: Vim
    const registerKey: string
    var states: StateStack?
    var lastCol: nat

    /** The step history, while the session has one, is never empty. */
    ghost predicate Valid()
      reads this, states
    {
      states != null ==> states.Valid()
    }

    /** The session still has its step history (it is dropped on close). */
    ghost predicate Live()
      reads this, states
    {
      states != null && states.Valid()
    }

    /** A session whose history holds just the root state and whose last
        seen column is `col`. */
    constructor (vim: Vim, registerKey: string, root: State, col: nat)
      ensures Live() && fresh(states)
      ensures this.vim == vim && this.registerKey == registerKey
      ensures states.entries == [root] && lastCol == col
    {
      this.vim := vim;
      this.registerKey := registerKey;
      states := new StateStack(root);
      lastCol := col;
    }

    /** The undo sequence number the macro is replayed from: the current
        state's. */
    function ChangeRoot(): (r: int)
      reads this, states
      requires Live()
      ensures r == states.entries[|states.entries| - 1].changeRoot
    {
      states.Current().changeRoot
    }

    /** The target cursor position the macro is replayed from: the current
        state's. */
    function CursorRoot(): (r: Cursor)
      reads this, states
      requires Live()
      ensures r == states.entries[|states.entries| - 1].cursorRoot
    {
      states.Current().cursorRoot
    }

    /** Writes the macro back into its register, unless the debugger window
        is gone. */
    method SaveRegister(windowValid: bool, macro: string) returns (status: Status)
      modifies vim
      ensures windowValid <==> status == Success
      ensures !windowValid ==> status == Failure(WindowGoneMessage) && vim.calls == old(vim.calls)
      ensures windowValid ==> vim.calls == old(vim.calls) + [WriteRegister(registerKey, macro)]
    {
      if !windowValid {
        return Failure(WindowGoneMessage);
      }
      vim.calls := vim.calls + [WriteRegister(registerKey, macro)];
      status := Success;
    }

    /** Closes the debugger window, if it is still there. */
    method Quit(windowValid: bool)
      modifies vim
      ensures vim.calls == old(vim.calls) + (if windowValid then [CloseWindow] else [])
    {
      if !windowValid {
        return;
      }
      vim.calls := vim.calls + [CloseWindow];
    }

    /** Reports whether the cursor column `col` differs from the last one
        seen, and remembers it. */
    method CheckCursorMoved(col: nat) returns (moved: bool)
      modifies this`lastCol
      ensures moved <==> col != old(lastCol)
      ensures lastCol == col
    {
      if col == lastCol {
        return false;
      }
      lastCol := col;
      moved := true;
    }

    /** Resets the target cursor and replays `macro[0:keysTo]` from the
        current state. */
    method RunMacroToPos(macro: string, keysTo: nat)
      requires Live()
      modifies vim
      ensures vim.calls == old(vim.calls) + [SetTargetCursor(CursorRoot()),
                                             ExecuteMacroChunk(ChangeRoot(), CursorRoot(), KeysUpTo(macro, keysTo))]
    {
      vim.calls := vim.calls + [SetTargetCursor(CursorRoot())];
      vim.calls := vim.calls + [ExecuteMacroChunk(ChangeRoot(), CursorRoot(), KeysUpTo(macro, keysTo))];
    }

    /** Replays the macro up to and including the key under the cursor
        column `col`, as a preview; the history is left as it is. */
    method RunMacroChunk(macro: string, col: nat)
      requires Live()
      modifies vim
      ensures vim.calls == old(vim.calls) + [SetTargetCursor(CursorRoot()),
                                             ExecuteMacroChunk(ChangeRoot(), CursorRoot(), KeysUpTo(macro, col + 1))]
      ensures |KeysUpTo(macro, col + 1)| == if col < |macro| then col + 1 else |macro|
    {
      var keysTo := col + 1;
      RunMacroToPos(macro, keysTo);
    }

    /** Replays the whole macro from the current state and pushes the state
        the editor reports afterwards (`reply`), which becomes current. */
    method StepForward(macro: string, reply: State)
      requires Live()
      modifies vim, states
      ensures Live() && states == old(states)
      ensures states.entries == old(states.entries) + [reply]
      ensures ChangeRoot() == reply.changeRoot && CursorRoot() == reply.cursorRoot
      ensures vim.calls == old(vim.calls) + [SetTargetCursor(old(CursorRoot())),
                                             ExecuteMacroChunk(old(ChangeRoot()), old(CursorRoot()), macro)]
    {
      RunMacroToPos(macro, |macro|);
      assert KeysUpTo(macro, |macro|) == macro;
      states.Push(reply);
    }

    /** Pops the history (nothing at the root) and restores the target to
        the state that is then current. */
    method StepBackward()
      requires Live()
      modifies vim, states
      ensures Live() && states == old(states)
      ensures states.entries == Popped(old(states.entries))
      ensures states.entries[0] == old(states.entries)[0]
      ensures vim.calls == old(vim.calls) + [ApplyState(ChangeRoot(), CursorRoot())]
    {
      states.Pop();
      vim.calls := vim.calls + [ApplyState(ChangeRoot(), CursorRoot())];
    }

    /** Once the debugger window is gone and the target window is still
        there, restores the target to the current state and drops the
        history; otherwise does nothing. */
    method OnQuit(windowValid: bool, targetValid: bool)
      requires Valid()
      requires !windowValid && targetValid ==> Live()
      modifies this`states, vim
      ensures Valid()
      ensures !windowValid && targetValid ==>
                states == null && vim.calls == old(vim.calls) + RestoreCalls(old(ChangeRoot()))
      ensures windowValid || !targetValid ==>
                states == old(states) && vim.calls == old(vim.calls)
    {
      if windowValid {
        return;
      }
      if !targetValid {
        return;
      }
      vim.calls := vim.calls + RestoreCalls(ChangeRoot());
      states := null;
    }
  }

  /** Two checks at the same column `col` on a session that last saw
      column `last`: the first reports a move exactly when the columns
      differ, the second never does. */
  method CheckCursorMovedTwice(last: nat, col: nat) returns (first: bool, second: bool)
    ensures first <==> col != last
    ensures !second
  {
    var vim := new Vim();
    var session := new MacroBug(vim, "q", State(0, Cursor(1, 0)), last);
    first := session.CheckCursorMoved(col);
    second := session.CheckCursorMoved(col);
  }

  /** Opens a session on register `registerKey`. `seqCur` is the target's
      undo-tree position (None when the editor reports none), `cursor` the
      target cursor, `lines` the debugger buffer once the register is pasted
      into it, and `col` the cursor column there. On failure, `windowOpened` says
      whether the debugger window had already been opened. */
  method Open(vim: Vim, registerKey: string, seqCur: Option<int>, cursor: Cursor,
              lines: seq<string>, col: nat)
    returns (r: Result<MacroBug>, windowOpened: bool)
    modifies vim
    ensures r.Ok? <==> |registerKey| == 1 && seqCur.Some? && |lines| <= 1
    ensures windowOpened <==> |registerKey| == 1 && seqCur.Some?
    ensures |registerKey| != 1 ==> r == Err(RegisterKeyMessage) && vim.calls == old(vim.calls)
    ensures |registerKey| == 1 && seqCur.None? ==> r == Err(UndoTreeMessage) && vim.calls == old(vim.calls)
    ensures windowOpened ==> vim.calls == old(vim.calls) + OpeningCalls(registerKey)
    ensures windowOpened && |lines| > 1 ==> r == Err(MultiLineMessage)
    ensures r.Ok? ==> fresh(r.value) && fresh(r.value.states) && r.value.Live()
                      && r.value.vim == vim && r.value.registerKey == registerKey
                      && r.value.states.entries == [State(seqCur.value, cursor)]
                      && r.value.lastCol == col
  {
    windowOpened := false;
    if |registerKey| != 1 {
      return Err(RegisterKeyMessage), windowOpened;
    }
    if seqCur.None? {
      return Err(UndoTreeMessage), windowOpened;
    }
    var root := State(seqCur.value, cursor);
    vim.calls := vim.calls + OpeningCalls(registerKey);
    windowOpened := true;
    if |lines| > 1 {
      return Err(MultiLineMessage), windowOpened;
    }
    var session := new MacroBug(vim, registerKey, root, col);
    r := Ok(session);
  }
}
