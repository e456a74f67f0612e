/** The command and notification dispatcher (Plugin in the plugin): it owns
    at most one debugging session at a time and routes the editor's commands
    and notifications to it. */
module Dispatch {
  import opened StateStacks
  import opened Debugger

  /** What a command or notification leaves for the user: nothing, an error
      message echoed by the dispatcher, or an exception it does not catch
      (attribute access on an absent session) that reaches the editor. */
  datatype Outcome = Done | Echoed(message: string) | Raised(message: string)

  const AlreadyOpenMessage := "MacroBug debugger instance already open!"
  const NotOpenMessage := "MacroBug is not open"
  /** The message of the exception raised when the plugin looks up the
      method `name` on an absent session. */
  function NoSessionMessage(name: string): (r: string)
  {
    "'NoneType' object has no attribute '" + name + "'"
  }

  class Plugin {
    const vim: Vim
    var instance: MacroBug?

    /** The objects of the open session, if any. */
    ghost function Session(): set<object?>
      reads this, instance
    {
      if instance == null then {} else {instance, instance.states}
    }

    /** An open session talks to this plugin's editor handle and still has
        its step history. */
    ghost predicate Valid()
      reads this, Session()
    {
      instance != null ==> instance.vim == vim && instance.Live()
    }

    /** A dispatcher with no session. */
    constructor (vim: Vim)
      ensures Valid() && this.vim == vim && instance == null
    {
      this.vim := vim;
      instance := null;
    }

    /** The :MacroBug command as the plugin has it: refused while a session
        is open; when opening fails after the debugger window was created,
        nothing cleans up, because `instance` is still absent at the point
        where the cleanup is chosen. */
    method StartMacroBugAsWritten(registerKey: string, seqCur: Option<int>, cursor: Cursor,
                                  lines: seq<string>, col: nat)
      returns (r: Outcome)
      requires Valid()
      modifies this`instance, vim
      ensures Valid()
      ensures old(instance) != null ==>
                r == Echoed(AlreadyOpenMessage) && instance == old(instance) && vim.calls == old(vim.calls)
      ensures old(instance) == null ==>
                (instance != null <==> |registerKey| == 1 && seqCur.Some? && |lines| <= 1)
                && (r == Done <==> instance != null) && (r != Done ==> r.Echoed?)
      ensures old(instance) == null && |registerKey| != 1 ==>
                r == Echoed(RegisterKeyMessage) && vim.calls == old(vim.calls)
      ensures old(instance) == null && |registerKey| == 1 && seqCur.None? ==>
                r == Echoed(UndoTreeMessage) && vim.calls == old(vim.calls)
      ensures old(instance) == null && instance != null ==>
                fresh(instance) && fresh(instance.states) && instance.registerKey == registerKey
                && instance.states.entries == [State(seqCur.value, cursor)] && instance.lastCol == col
                && vim.calls == old(vim.calls) + OpeningCalls(registerKey)
      ensures old(instance) == null && |registerKey| == 1 && seqCur.Some? && |lines| > 1 ==>
                r == Echoed(MultiLineMessage)
                && WindowOpen(vim.calls) && TargetLocked(vim.calls) && MarksDrawn(vim.calls)
    {
      if instance != null {
        return Echoed(AlreadyOpenMessage);
      }
      var res, windowOpened := Open(vim, registerKey, seqCur, cursor, lines, col);
      match res
      case Ok(session) =>
        instance := session;
        r := Done;
      case Err(message) =>
        r := Echoed(message);
        if windowOpened {
          OpeningLeavesSessionTraces(old(vim.calls), registerKey);
        }
    }

    /** The :MacroBug command with the cleanup the dispatcher intends: when
        opening fails after the debugger window was created, the window is
        closed and the target restored, as quitting and the close
        notification would do for an open session. */
    method StartMacroBug(registerKey: string, seqCur: Option<int>, cursor: Cursor,
                         lines: seq<string>, col: nat)
      returns (r: Outcome)
      requires Valid()
      modifies this`instance, vim
      ensures Valid()
      ensures old(instance) != null ==>
                r == Echoed(AlreadyOpenMessage) && instance == old(instance) && vim.calls == old(vim.calls)
      ensures old(instance) == null ==>
                (instance != null <==> |registerKey| == 1 && seqCur.Some? && |lines| <= 1)
                && (r == Done <==> instance != null) && (r != Done ==> r.Echoed?)
      ensures old(instance) == null && |registerKey| != 1 ==>
                r == Echoed(RegisterKeyMessage) && vim.calls == old(vim.calls)
      ensures old(instance) == null && |registerKey| == 1 && seqCur.None? ==>
                r == Echoed(UndoTreeMessage) && vim.calls == old(vim.calls)
      ensures old(instance) == null && instance != null ==>
                fresh(instance) && fresh(instance.states) && instance.registerKey == registerKey
                && instance.states.entries == [State(seqCur.value, cursor)] && instance.lastCol == col
                && vim.calls == old(vim.calls) + OpeningCalls(registerKey)
      ensures old(instance) == null && |registerKey| == 1 && seqCur.Some? && |lines| > 1 ==>
                r == Echoed(MultiLineMessage)
                && vim.calls == old(vim.calls) + OpeningCalls(registerKey) + [CloseWindow]
                                + RestoreCalls(seqCur.value)
      ensures old(instance) == null && instance == null && Idle(old(vim.calls)) ==> Idle(vim.calls)
    {
      if instance != null {
        return Echoed(AlreadyOpenMessage);
      }
      var res, windowOpened := Open(vim, registerKey, seqCur, cursor, lines, col);
      match res
      case Ok(session) =>
        instance := session;
        r := Done;
      case Err(message) =>
        r := Echoed(message);
        if windowOpened {
          CloseAndRestoreIsIdle(vim.calls, seqCur.value);
          vim.calls := vim.calls + [CloseWindow] + RestoreCalls(seqCur.value);
        }
    }

    /** The :MacroSave command. With no session the plugin dereferences the
        absent instance; otherwise the session's own window check applies. */
    method SaveRegister(windowValid: bool, macro: string) returns (r: Outcome)
      requires Valid()
      modifies vim
      ensures Valid()
      ensures instance == null ==> r == Raised(NoSessionMessage("save_register")) && vim.calls == old(vim.calls)
      ensures instance != null && !windowValid ==>
                r == Echoed(WindowGoneMessage) && vim.calls == old(vim.calls)
      ensures instance != null && windowValid ==>
                r == Done && vim.calls == old(vim.calls) + [WriteRegister(instance.registerKey, macro)]
    {
      if instance == null {
        return Raised(NoSessionMessage("save_register"));
      }
      var status := instance.SaveRegister(windowValid, macro);
      r := if status.Success? then Done else Echoed(status.message);
    }

    /** The :MacroQuit command: closes the session's window; the session
        itself ends with the close notification. */
    method Quit(windowValid: bool) returns (r: Outcome)
      requires Valid()
      modifies vim
      ensures Valid()
      ensures instance == null ==> r == Echoed(NotOpenMessage) && vim.calls == old(vim.calls)
      ensures instance != null ==>
                r == Done && vim.calls == old(vim.calls) + (if windowValid then [CloseWindow] else [])
    {
      if instance == null {
        return Echoed(NotOpenMessage);
      }
      instance.Quit(windowValid);
      r := Done;
    }

    /** The :MacroStepForward command. */
    method StepForward(macro: string, reply: State) returns (r: Outcome)
      requires Valid()
      modifies vim, if instance == null then {} else {instance.states}
      ensures Valid()
      ensures instance != null ==> instance.lastCol == old(instance.lastCol)
      ensures instance == null ==> r == Echoed(NotOpenMessage) && vim.calls == old(vim.calls)
      ensures instance != null ==>
                r == Done && instance.states == old(instance.states)
                && instance.states.entries == old(instance.states.entries) + [reply]
                && vim.calls == old(vim.calls) + [SetTargetCursor(old(instance.CursorRoot())),
                                                  ExecuteMacroChunk(old(instance.ChangeRoot()),
                                                                    old(instance.CursorRoot()), macro)]
    {
      if instance == null {
        return Echoed(NotOpenMessage);
      }
      instance.StepForward(macro, reply);
      r := Done;
    }

    /** The :MacroStepBackward command. */
    method StepBackward() returns (r: Outcome)
      requires Valid()
      modifies vim, if instance == null then {} else {instance.states}
      ensures Valid()
      ensures instance != null ==> instance.lastCol == old(instance.lastCol)
      ensures instance == null ==> r == Echoed(NotOpenMessage) && vim.calls == old(vim.calls)
      ensures instance != null ==>
                r == Done && instance.states == old(instance.states)
                && instance.states.entries == Popped(old(instance.states.entries))
                && vim.calls == old(vim.calls) + [ApplyState(instance.ChangeRoot(), instance.CursorRoot())]
    {
      if instance == null {
        return Echoed(NotOpenMessage);
      }
      instance.StepBackward();
      r := Done;
    }

    /** The notification that the debugger buffer was unloaded: the session
        restores the target (when its window is gone and the target is
        still there) and the dispatcher drops it in every case. */
    method OnQuit(windowValid: bool, targetValid: bool) returns (r: Outcome)
      requires Valid()
      modifies this`instance, vim, Session()
      ensures Valid() && instance == null
      ensures old(instance) == null ==> r == Raised(NoSessionMessage("on_quit")) && vim.calls == old(vim.calls)
      ensures old(instance) != null && !windowValid && targetValid ==>
                r == Done && vim.calls == old(vim.calls) + RestoreCalls(old(instance.ChangeRoot()))
      ensures old(instance) != null && (windowValid || !targetValid) ==>
                r == Done && vim.calls == old(vim.calls)
    {
      if instance == null {
        return Raised(NoSessionMessage("on_quit"));
      }
      instance.OnQuit(windowValid, targetValid);
      instance := null;
      r := Done;
    }

    /** The notification that the cursor moved in the debugger window: when
        its column `col` changed, previews the macro up to the cursor. */
    method OnCursorMove(macro: string, col: nat) returns (r: Outcome)
      requires Valid()
      modifies vim, Session()
      ensures Valid()
      ensures instance == null ==> r == Raised(NoSessionMessage("check_cursor_moved")) && vim.calls == old(vim.calls)
      ensures instance != null ==>
                r == Done && instance.lastCol == col
                && instance.states == old(instance.states)
                && instance.states.entries == old(instance.states.entries)
      ensures instance != null && col == old(instance.lastCol) ==> vim.calls == old(vim.calls)
      ensures instance != null && col != old(instance.lastCol) ==>
                vim.calls == old(vim.calls) + [SetTargetCursor(instance.CursorRoot()),
                                               ExecuteMacroChunk(instance.ChangeRoot(), instance.CursorRoot(),
                                                                 KeysUpTo(macro, col + 1))]
    {
      if instance == null {
        return Raised(NoSessionMessage("check_cursor_moved"));
      }
      var moved := instance.CheckCursorMoved(col);
      if !moved {
        return Done;
      }
      instance.RunMacroChunk(macro, col);
      r := Done;
    }
  }

  /** A session rooted at undo sequence 5 with the cursor at (1, 0): a step
      forward after which the editor reports sequence 6 at (1, 10), then two
      steps back. The history returns to the root, and each step back asks
      the editor to restore the root state, the second one as well. */
  method ForwardThenBackTwice() returns (afterForward: seq<State>, afterBack: seq<State>,
                                         calls: seq<HostCall>)
    ensures afterForward == [State(5, Cursor(1, 0)), State(6, Cursor(1, 10))]
    ensures afterBack == [State(5, Cursor(1, 0))]
    ensures calls == OpeningCalls("q") + [SetTargetCursor(Cursor(1, 0)),
                                          ExecuteMacroChunk(5, Cursor(1, 0), "dwj"),
                                          ApplyState(5, Cursor(1, 0)),
                                          ApplyState(5, Cursor(1, 0))]
  {
    var vim := new Vim();
    var plugin := new Plugin(vim);
    var r := plugin.StartMacroBug("q", Some(5), Cursor(1, 0), ["dwj"], 0);
    r := plugin.StepForward("dwj", State(6, Cursor(1, 10)));
    afterForward := plugin.instance.states.entries;
    r := plugin.StepBackward();
    r := plugin.StepBackward();
    afterBack := plugin.instance.states.entries;
    calls := vim.calls;
  }

  /** Starting a session (as the plugin has it) on a register holding two
      lines fails with no session, yet the debugger window stays open, the
      target stays non-modifiable and the marks stay drawn. */
  method MultiLineRegisterLeavesTraces() returns (plugin: Plugin, r: Outcome)
    ensures plugin.instance == null && r == Echoed(MultiLineMessage)
    ensures WindowOpen(plugin.vim.calls) && TargetLocked(plugin.vim.calls) && MarksDrawn(plugin.vim.calls)
  {
    var vim := new Vim();
    plugin := new Plugin(vim);
    r := plugin.StartMacroBugAsWritten("q", Some(5), Cursor(1, 0), ["dw", "j"], 0);
  }

  /** The same start with the intended cleanup fails with no session and
      leaves the editor carrying nothing of it. */
  method MultiLineRegisterCleanedUp() returns (plugin: Plugin, r: Outcome)
    ensures plugin.instance == null && r == Echoed(MultiLineMessage)
    ensures Idle(plugin.vim.calls)
  {
    var vim := new Vim();
    plugin := new Plugin(vim);
    r := plugin.StartMacroBug("q", Some(5), Cursor(1, 0), ["dw", "j"], 0);
  }
}
