# macrobug.vim — step history and session logic

macrobug.vim is a Neovim plugin that steps a recorded macro forward and backward against a buffer. It uses the editor's undo tree to go back. This project models the part of `rplugin/python/macrobug.py` that stands apart from the editor:

- the `StateStack` of `State` records. Each record pairs an undo-tree sequence number (`change_root`) with a target cursor position (`cursor_root`);
- the stepping logic of a `MacroBug` session;
- the `Plugin` dispatcher, which owns at most one session.

The editor is abstracted as follows:

- **Side effects become a log.** The side effects the model records are appended to `Vim.calls`, a log of `HostCall` values. `Vim` stands for the plugin's `self.vim` handle. The recorded effects are: drawing or removing the cursor marks, the `modifiable` option, opening or closing the debugger window, setting the target cursor, the two editor-side scripts `macrobug#execute_macro_chunk` and `macrobug#apply_state`, `undo N`, and writing the register.
- **Editor reads become method parameters.** These are the debugger window's cursor column, its line of macro keys, whether each window is still valid, `undotree()["seq_cur"]`, and the state that `macrobug#execute_macro_chunk` reports after a replay.

Files:

- `state_stack.dfy` (module `StateStacks`):
  - `State` and the `StateStack` class. Its `entries` field is the list the source mutates.
  - A sequence-level specification of whole push/pop histories (`Apply`).
  - A backward-reading reference definition of the current state (`Unpopped`), with the lemmas connecting the two.
- `debugger.dfy` (module `Debugger`): the `MacroBug` session class and `Open`, which models its constructor, with its three failure cases.
- `dispatch.dfy` (module `Dispatch`): the `Plugin` class and three concrete scenarios.

Behaviour of the code worth knowing when reading the model:

- `step_backward` asks the editor to restore on every call, so a second back-step at the root issues a second identical `apply_state`.
- `MacroBug.on_quit` undoes to the current state's change root.
- `MacroSave` and the two notifications (`macrobug:quit`, `macrobug:cursormove`) dereference the session without checking that one exists. With no session this raises an `AttributeError` that the dispatcher does not catch. It is modelled as `Outcome.Raised`.
- `MacroQuit`, `MacroStepForward` and `MacroStepBackward` echo "MacroBug is not open" when there is no session.

## Model

| member | source | states |
|---|---|---|
| StateStacks.Popped | rplugin/python/macrobug.py:21-24 | a pop yields a prefix of the entries: one shorter when more than one entry remains, unchanged otherwise |
| StateStacks.ApplyAppend | rplugin/python/macrobug.py:17-24 | applying two push/pop histories in turn equals applying their concatenation |
| StateStacks.ApplyKeepsRoot | rplugin/python/macrobug.py:14-24 | after any sequence of pushes and pops, a non-empty stack is still non-empty and its first (root) entry is unchanged |
| StateStacks.ApplyOnlyKnownStates | rplugin/python/macrobug.py:14-24 | every entry after a history was either in the initial stack or pushed by that history |
| StateStacks.PushThenPopCancels | rplugin/python/macrobug.py:17-24 | on a non-empty stack, a push followed by a pop restores the entries from before the push |
| StateStacks.UnpoppedIsEntry | rplugin/python/macrobug.py:17-29 | the backward-reading reference definition gives, for every depth k, the entry k places below the top (the root once k reaches past it) |
| StateStacks.CurrentIsLatestUnpopped | rplugin/python/macrobug.py:17-29 | after any history, `current` is the most recently pushed state not yet popped, or the root if every push was popped |
| StateStacks.PushIsCurrent | rplugin/python/macrobug.py:17-19 | after any history ending in a push of s, `current` is s |
| StateStacks.StateStack.constructor | rplugin/python/macrobug.py:14-15 | a new stack holds exactly the given root state, which is current |
| StateStacks.StateStack.Push | rplugin/python/macrobug.py:17-19 | the stack grows by one, earlier entries are unchanged, and the pushed state is current |
| StateStacks.StateStack.Current | rplugin/python/macrobug.py:26-29 | the current state is the last entry of the stack (and, by CurrentIsLatestUnpopped, the latest push not yet popped) |
| StateStacks.StateStack.Pop | rplugin/python/macrobug.py:21-24 | drops the last entry only when more than one remains; the root entry survives and the stack stays non-empty |
| Debugger.KeysUpTo | rplugin/python/macrobug.py:137-139 | the replayed keys `macro[0:keys_to]` are the longest prefix of the macro that is at most keys_to keys long |
| Debugger.OpeningLeavesSessionTraces | rplugin/python/macrobug.py:45-52 | after the opening side effects, a debugger window is open, the target is non-modifiable and the marks are drawn, whatever the editor carried before |
| Debugger.CloseAndRestoreIsIdle | rplugin/python/macrobug.py:164-176 | closing the window and then running the restore steps of `on_quit` leaves no window open, the target modifiable and no marks |
| Debugger.MacroBug.constructor | rplugin/python/macrobug.py:39-43 | a session keeps its handle and register key; its history is exactly the root state; the last seen column is the window's column |
| Debugger.MacroBug.ChangeRoot | rplugin/python/macrobug.py:82-85 | the undo sequence number to replay from is the current state's change root |
| Debugger.MacroBug.CursorRoot | rplugin/python/macrobug.py:87-90 | the cursor to replay from is the current state's cursor root |
| Debugger.MacroBug.SaveRegister | rplugin/python/macrobug.py:112-116 | fails with "Cannot access debugger window" and writes nothing when the window is invalid; otherwise writes the macro line to the session's register |
| Debugger.MacroBug.Quit | rplugin/python/macrobug.py:118-122 | closes the debugger window when it is valid, and does nothing otherwise |
| Debugger.MacroBug.CheckCursorMoved | rplugin/python/macrobug.py:124-129 | reports a move exactly when the column differs from the last seen one; afterwards the last seen column is the current one |
| Debugger.CheckCursorMovedTwice | rplugin/python/macrobug.py:124-129 | of two checks at the same column, the first reports a move exactly when the column changed, and the second never does |
| Debugger.MacroBug.RunMacroToPos | rplugin/python/macrobug.py:137-150 | resets the target cursor to the current state's cursor, then replays `macro[0:keys_to]` from the current state's change root and cursor |
| Debugger.MacroBug.RunMacroChunk | rplugin/python/macrobug.py:131-135 | replays the keys up to and including the one under the cursor column (col + 1 keys, or the whole macro when the cursor is past it) |
| Debugger.MacroBug.StepForward | rplugin/python/macrobug.py:152-156 | replays the whole macro from the old current state, then pushes the state the editor reports, which becomes current |
| Debugger.MacroBug.StepBackward | rplugin/python/macrobug.py:158-162 | pops (a no-op at the root, which survives), then asks the editor to restore the state that is then current |
| Debugger.MacroBug.OnQuit | rplugin/python/macrobug.py:164-176 | when the debugger window is gone and the target is valid: makes the target modifiable, undoes to the current change root, removes the marks and drops the history; otherwise changes nothing |
| Debugger.Open | rplugin/python/macrobug.py:33-58 | a key of length other than 1, or a missing undo-tree position, fails before any side effect; a multi-line macro fails after the window is opened; otherwise the session's history is exactly (seq_cur, cursor) |
| Dispatch.Plugin.constructor | rplugin/python/macrobug.py:185-187 | a new dispatcher has no session |
| Dispatch.Plugin.StartMacroBugAsWritten | rplugin/python/macrobug.py:189-205 | refuses while a session exists and leaves that session and the editor untouched; a successful start logs exactly the opening calls and yields a session rooted at (seq_cur, cursor) whose last seen column is the window's; on a failed start the instance stays absent; a multi-line register leaves the window open, the target locked and the marks drawn |
| Dispatch.Plugin.StartMacroBug | rplugin/python/macrobug.py:189-205 | as above (including the success case), except that a start which fails after opening the window closes it and restores the target, so an editor carrying no session still carries none |
| Dispatch.Plugin.SaveRegister | rplugin/python/macrobug.py:214-220 | with no session, raises and writes nothing; otherwise echoes the session's error when the window is gone, or writes the register |
| Dispatch.Plugin.Quit | rplugin/python/macrobug.py:222-228 | with no session, echoes "MacroBug is not open" and changes nothing; otherwise delegates to the session's quit |
| Dispatch.Plugin.StepForward | rplugin/python/macrobug.py:230-236 | with no session, echoes "MacroBug is not open" and changes nothing; otherwise the session steps forward and its last seen column is unchanged |
| Dispatch.Plugin.StepBackward | rplugin/python/macrobug.py:238-244 | with no session, echoes "MacroBug is not open" and changes nothing; otherwise the session steps backward and its last seen column is unchanged |
| Dispatch.Plugin.OnQuit | rplugin/python/macrobug.py:246-250 | always leaves no session; with a session, the session's close logic runs first |
| Dispatch.Plugin.OnCursorMove | rplugin/python/macrobug.py:252-257 | the last seen column becomes the cursor column; the macro is previewed up to the cursor exactly when the column changed; the history is unchanged |
| Dispatch.ForwardThenBackTwice | rplugin/python/macrobug.py:152-162 | from root (5, (1,0)), a forward step reported as (6, (1,10)) gives the history [root, (6, (1,10))]; two back-steps return to [root], each asking to restore (5, (1,0)) |
| Dispatch.MultiLineRegisterLeavesTraces | rplugin/python/macrobug.py:196-205 | as written, starting on a two-line register fails with no session but leaves the window open, the target locked and the marks drawn |
| Dispatch.MultiLineRegisterCleanedUp | rplugin/python/macrobug.py:196-205 | with the intended cleanup, the same start fails with no session and leaves the editor carrying nothing of it |

## Findings

| source | as written | input that shows it | evidently intended | confidence | as-written member | corrected member |
|---|---|---|---|---|---|---|
| rplugin/python/macrobug.py:196-205 | when the `MacroBug` constructor raises, `self.instance` is still None (the assignment never happens), so `if not self.instance: return` always returns and the quit / on_quit cleanup below it is dead code | `:MacroBug q` where register q holds two lines: the constructor has already drawn the marks, set the target `nomodifiable` and opened the debugger window when it raises "Unexpected carriage return in macro"; the close autocommand is not yet registered, so nothing restores the target | the dead branch, if reached, would only call `self.quit()` (:202-203) and close the window, because the close hook that restores the target is registered at :65-68, after the raise at :55; the model's chosen cleanup closes the window and also restores the target (modifiable again, undone to the root, marks removed) | high; not executed | Dispatch.Plugin.StartMacroBugAsWritten, Dispatch.MultiLineRegisterLeavesTraces | Dispatch.Plugin.StartMacroBug, Dispatch.MultiLineRegisterCleanedUp |

## Left out

- Window and buffer handling is not modelled beyond the logged effects:
  - focus switching in `on_quit`, window numbers (`bufwinnr`) and window height;
  - `noswapfile`;
  - the autocommand, key-mapping and `macrobug#map_keys` registrations.
  These are host I/O and event wiring with no visible semantics here.
- Key escaping (`_escape_keys`, `replace_termcodes`) and the text of the Vim commands are not modelled. The log records the keys unescaped.
- `echom` output is not modelled:
  - the debug echo of the change root in `run_macro_to_pos`;
  - `_echo_error`'s display. The message it would show is returned as `Outcome.Echoed`.
- The asynchronous delivery of the `async=True` commands and of the RPC notifications is not modelled. Each notification is a method call, handled one at a time.
- The editor-side scripts (`macrobug#execute_macro_chunk`, `macrobug#apply_state`, `macrobug#draw_cursor_and_visual`, `macrobug#unset_cursor_and_visual`) are foreign code that is not part of this model. They appear only as logged calls. The reply of `execute_macro_chunk` is a parameter.
- Host failures (exceptions raised by the editor API) are not modelled.
- Debugger.KeysUpTo: Python's negative slice bounds are not modelled. Both callers pass a non-negative bound (column + 1, or the macro's length).
- Each macro key is one element of a `string`. This matches the byte-indexed cursor column as long as every key is one byte. Multi-byte characters are not distinguished.
