# Per-monitor workspace switching: a Dafny model of the reassignment logic

The GNOME Shell extension "simulate switching workspaces on active monitor"
fakes independent workspaces per monitor on a desktop where the active
workspace is global. It does so by moving windows between workspaces:

- a hotkey ("next" or "previous") moves every normal window of the focused
  monitor one workspace up or down (`switchWorkspaceOnActiveMonitor`);
- when the shell switches the global active workspace, every normal window
  on the *other* monitors is moved by the same shift, so those monitors keep
  showing what they showed (`switchToPreviouslyActiveWorkspaceOnInactiveMonitors`);
- a window activated with focus records its monitor as a hint, so that the
  next resynchronisation knows which monitor the user clicked into
  (`windowActivatedWithFocus`).

The model has five modules:

- `WorkspaceMath` (`workspace_math.dfy`): the language's remainder operator
  (`JsRem`, truncating, sign of the dividend), the target of one move
  (`NextWorkspace`, `(n + w + delta) % n`), the resynchronisation shift
  (`Shift`, a direction times an absolute difference), the `UP = -1` and
  `DOWN = 1` constants, and the modular lemmas about them.
- `Windows` (`windows.dfy`): the live window record `Window(kind, monitor,
  workspace)`, the snapshot `WindowWrapper` with its initial monitor and
  workspace, the two filters (normal window; on / not on the focused
  monitor), and `Reassign`, the specification of one pass over all windows,
  with lemmas on locality, exact targets, range, inverse passes and the
  offset a resynchronisation preserves.
- `Host` (`platform.dfy`): the shell as a class `Platform` holding an array
  of windows, the number of workspaces, the active workspace and the focused
  monitor, with the move primitive `MoveToWorkSpace`, and two events the shell
  raises by itself (`ActivateWorkspace`, `FocusMonitor`).
- `Service` (`service.dfy`): `ConfigurationService`, `WorkSpacesService`
  (fields `nWorkspaces`, `activeWorkspaceIndex`, `monitorActivatedWithFocus`,
  loops that move windows in place in the platform's array) and
  `Controller`.
- `Scenarios` (`scenarios.dfy`): three client runs on concrete desktops whose
  outcomes are proved.

`_getFocusedMonitor` (extension.js:170-172) is the read of
`Platform.currentMonitor` inside `SwitchWorkspaceOnActiveMonitor` and, when no
hint is stored, inside the resynchronisation. `_getWindowWrappers`
(extension.js:166-168) is `Windows.GetWindowWrappers` applied to the
platform's windows before any window moves. A wrapper is built from one
window handle; the two further constructor parameters of the source are
never read there and do not exist in the model.

The remainder is modelled exactly: `JsRem` takes the sign of the dividend.
The dividend is never negative for the source's own calls: the hotkeys step
by one, and the resynchronisation shift lies between `-(n - 1)` and `n - 1`
while the remembered and live active indices are valid. The service's
methods require exactly that of their callers (`direction >= -n` for a
single move) and prove with `NextWorkspaceInRange` that every index they
hand to the shell names a workspace.

## Model

| member | source | states |
|---|---|---|
| `WorkspaceMath.JsRem` | simulate-switching-workspaces-on-active-monitor@micheledaros.com/extension.js:86-88 | the `%` of the source: the result is strictly between `-n` and `n`, has the sign of the dividend, and differs from the dividend by a multiple of `n` |
| `WorkspaceMath.NextWorkspace` | simulate-switching-workspaces-on-active-monitor@micheledaros.com/extension.js:85-91 | the target of a move, `(n + w + delta) % n`, is strictly between `-n` and `n` and congruent to `w + delta` modulo `n` |
| `WorkspaceMath.NextWorkspaceIsResidue` | simulate-switching-workspaces-on-active-monitor@micheledaros.com/extension.js:86-88 | when `n + w + delta >= 0` the target equals the ordinary residue `(w + delta) mod n` and lies in `[0, n)` |
| `WorkspaceMath.NextWorkspaceInRange` | simulate-switching-workspaces-on-active-monitor@micheledaros.com/extension.js:85-91 | for `n >= 1`, `0 <= w < n` and `delta >= -n` the target is a valid workspace index, `(w + delta) mod n` |
| `WorkspaceMath.NextWorkspaceBelowRange` | simulate-switching-workspaces-on-active-monitor@micheledaros.com/extension.js:86-88 | when the dividend is negative the target is not positive, and it is zero exactly when the dividend is a multiple of `n` |
| `WorkspaceMath.NextWorkspaceInverse` | simulate-switching-workspaces-on-active-monitor@micheledaros.com/extension.js:181-187 | a move by `delta` followed by a move by `-delta` returns a window to its workspace, for `abs(delta) <= n` |
| `WorkspaceMath.Shift` | simulate-switching-workspaces-on-active-monitor@micheledaros.com/extension.js:109-115 | `direction * diff` equals the signed difference `next - previous`; it is zero exactly when the index did not change and positive exactly when it grew |
| `WorkspaceMath.ShiftIsNotModular` | simulate-switching-workspaces-on-active-monitor@micheledaros.com/extension.js:110-115 | the shift is an absolute difference: from workspace `n - 1` to `0` it is `1 - n`, not `+1`, and still sends workspace 0 to workspace 1 |
| `WorkspaceMath.ShiftKeepsOffset` | simulate-switching-workspaces-on-active-monitor@micheledaros.com/extension.js:109-134 | moving a window on a valid workspace by the shift keeps it valid and keeps its distance ahead of the active workspace modulo `n` |
| `Windows.GetWindowWrappers` | simulate-switching-workspaces-on-active-monitor@micheledaros.com/extension.js:31-38 | one wrapper per window, in order, whose handle is the window's position and whose normal flag, initial monitor and initial workspace are the window's at snapshot time |
| `Windows.WindowWrapper.IsNormal` | simulate-switching-workspaces-on-active-monitor@micheledaros.com/extension.js:62-64 | true exactly for a window whose type was normal when the snapshot was taken |
| `Windows.Move` | simulate-switching-workspaces-on-active-monitor@micheledaros.com/extension.js:85-91 | a move changes only the window's workspace, to `(n + w + delta) % n` with the source's remainder: strictly between `-n` and `n` and congruent to `w + delta` |
| `Windows.OnSide` | simulate-switching-workspaces-on-active-monitor@micheledaros.com/extension.js:130-156 | the monitor filter: for a directed switch the snapshot monitor equals the focused one, for a resynchronisation it differs from it |
| `Windows.Selected` | simulate-switching-workspaces-on-active-monitor@micheledaros.com/extension.js:130-156 | a window passes an operation's two filters exactly when it is normal and its snapshot monitor is on that operation's side of the focused monitor |
| `Windows.FiltersSplitNormalWindows` | simulate-switching-workspaces-on-active-monitor@micheledaros.com/extension.js:130-156 | every normal window passes the filters of exactly one of the two operations; a non-normal window passes neither |
| `Windows.Reassign` | simulate-switching-workspaces-on-active-monitor@micheledaros.com/extension.js:130-135 | a pass keeps the number of windows; each window passing both filters is moved by `delta` from its workspace, every other window is unchanged |
| `Windows.ReassignIsLocal` | simulate-switching-workspaces-on-active-monitor@micheledaros.com/extension.js:154-163 | a pass changes no window's kind or monitor, and leaves every window outside the filters exactly as it was |
| `Windows.NonNormalNeverMoved` | simulate-switching-workspaces-on-active-monitor@micheledaros.com/extension.js:62-64 | a window that is not normal is never moved, by a directed switch or a resynchronisation |
| `Windows.ReassignTarget` | simulate-switching-workspaces-on-active-monitor@micheledaros.com/extension.js:85-91 | a selected window on workspace `w` lands exactly on `(n + w + delta) % n`, inside `[0, n)`, for `delta >= -n` |
| `Windows.ReassignPreservesRange` | simulate-switching-workspaces-on-active-monitor@micheledaros.com/extension.js:148-163 | if every window is on a valid workspace before a pass by `delta >= -n`, every window is on a valid workspace after it, by the arithmetic of the target |
| `Windows.ReassignNothingSelected` | simulate-switching-workspaces-on-active-monitor@micheledaros.com/extension.js:154-163 | a pass over a monitor with no normal window changes nothing |
| `Windows.ReassignInverse` | simulate-switching-workspaces-on-active-monitor@micheledaros.com/extension.js:181-187 | on the same monitor, a pass by `-delta` undoes a pass by `delta`: "previous" then "next" restores every window |
| `Windows.ResyncKeepsOffset` | simulate-switching-workspaces-on-active-monitor@micheledaros.com/extension.js:109-135 | a resynchronised window lands on `(w + next - previous) mod n`, as far ahead of the new active workspace as it was of the old one |
| `Host.Platform.MoveToWorkSpace` | simulate-switching-workspaces-on-active-monitor@micheledaros.com/extension.js:66-68 | given a valid workspace index, moving one window sets that window's workspace to it and leaves every other window as it was |
| `Service.ConfigurationService.constructor` | simulate-switching-workspaces-on-active-monitor@micheledaros.com/extension.js:196-209 | the two environment flags are stored as given |
| `Service.ConfigurationService.AutomaticSwitchingIsEnabled` | simulate-switching-workspaces-on-active-monitor@micheledaros.com/extension.js:211-214 | automatic switching is enabled whatever the two flags hold |
| `Service.WorkSpacesService.constructor` | simulate-switching-workspaces-on-active-monitor@micheledaros.com/extension.js:72-78 | a new service caches the workspace count, remembers the live active workspace and holds no focus hint |
| `Service.WorkSpacesService.InitNWorkspaces` | simulate-switching-workspaces-on-active-monitor@micheledaros.com/extension.js:80-83 | the cached count equals the shell's count; nothing else changes |
| `Service.WorkSpacesService.MoveToDirection` | simulate-switching-workspaces-on-active-monitor@micheledaros.com/extension.js:85-91 | exactly the one window is moved by `direction` from its live workspace, onto a valid workspace when `direction >= -n`; every other window is unchanged |
| `Service.WorkSpacesService.MoveSelected` | simulate-switching-workspaces-on-active-monitor@micheledaros.com/extension.js:130-135 | the loop over the snapshot leaves the windows equal to `Reassign` of the windows before it |
| `Service.FocusedMonitorIndex` | simulate-switching-workspaces-on-active-monitor@micheledaros.com/extension.js:117-119 | the stored hint when there is one, otherwise the shell's focused monitor |
| `Service.WorkSpacesService.WindowActivatedWithFocus` | simulate-switching-workspaces-on-active-monitor@micheledaros.com/extension.js:93-97 | the hint becomes the monitor of the activated window, of any kind; nothing else changes |
| `Service.WorkSpacesService.SwitchToPreviouslyActiveWorkspaceOnInactiveMonitors` | simulate-switching-workspaces-on-active-monitor@micheledaros.com/extension.js:99-138 | normal windows not on the focused monitor (the hint if stored, else the shell's focused monitor) move by `Shift(old remembered, live active)`; all others stay; afterwards the hint is empty and the remembered index is the live one |
| `Service.WorkSpacesService.SwitchWorkspaceOnActiveMonitor` | simulate-switching-workspaces-on-active-monitor@micheledaros.com/extension.js:140-164 | for `direction` up or down (the only values its callers pass), normal windows whose snapshot monitor is the focused monitor move by `direction`; all others stay; the cache holds the shell's count; the remembered index and the hint are unchanged |
| `Service.Controller.Up` | simulate-switching-workspaces-on-active-monitor@micheledaros.com/extension.js:181-183 | a directed switch by `-1`; the cached count is refreshed and the remembered index and hint stay |
| `Service.Controller.Down` | simulate-switching-workspaces-on-active-monitor@micheledaros.com/extension.js:185-187 | a directed switch by `+1`; the cached count is refreshed and the remembered index and hint stay |
| `Scenarios.HotkeyThenGlobalSwitch` | simulate-switching-workspaces-on-active-monitor@micheledaros.com/extension.js:99-164 | two monitors, four workspaces: "previous" moves the focused monitor's window from 1 to 2; a global switch from 2 to 3 then moves only the other monitor's window, from 2 to 3 |
| `Scenarios.FocusMovesBeforeGlobalSwitch` | simulate-switching-workspaces-on-active-monitor@micheledaros.com/extension.js:117-135 | with no hint stored, the resynchronisation takes the shell's focused monitor at that moment: after focus moves to the other monitor, the window a hotkey moved earlier is shifted again and the newly focused monitor's window stays |
| `Scenarios.FocusHintIsConsumedOnce` | simulate-switching-workspaces-on-active-monitor@micheledaros.com/extension.js:93-135 | a stored hint overrides the shell's focused monitor for exactly one resynchronisation; the next one falls back to the shell's monitor; a non-normal window never moves |

## Left out

- Keybinding registration and removal, and the settings schema lookup (extension.js:178, 223-246): platform glue; the hotkeys are the calls to `Controller.Up` and `Controller.Down`.
- Signal connection and disconnection, and the enable/disable lifecycle with its module-level variables (extension.js:248-315): lifecycle I/O. `onWorkspaceChanged` is the call of the resynchronisation after `Platform.ActivateWorkspace`.
- The replacement of the shell's `activate_with_focus` (extension.js:265-275): modelled only as a call to `WindowActivatedWithFocus` before the resynchronisation.
- `conditionallyEnableAutomaticSwitching` (extension.js:200-209): it queries the extension manager and the shell preferences, which are foreign calls; its two answers are constructor parameters of `ConfigurationService`, and the gate never reads them.
- Logging, `toString` and `getTitle` (extension.js:40-60, 317-321): diagnostics only.
- The shell's own primitives (`get_window_actors`, `get_workspace().index()`, `get_monitor`, `change_workspace_by_index`, `get_n_workspaces`, `get_active_workspace_index`, `get_current_monitor`): fields of `Platform` and in-place updates of its window array.
- What the shell does when asked to move a window to an index that names no workspace (the source would pass one on for a negative dividend of `%`, see `NextWorkspaceBelowRange`): `Host.Platform.MoveToWorkSpace` accepts only valid indices, and the service is proved to pass only valid ones, since its directions are `-1` and `+1` and its resynchronisation shift is above `-n`.
- Windows opening or closing, and the shell adding or removing workspaces: the window array and the workspace count are fixed in the model. The cache refresh `InitNWorkspaces` is still modelled, but the case where the remembered active index is out of range for a shrunken workspace count cannot arise here.
- Windows on all workspaces are not modelled: every window in the model is on exactly one workspace. The source reads `get_workspace().index()` of every window without a guard (extension.js:37, 44-46, 87); whatever workspace the shell reports for such a window is what the source moves it from, and if the shell reports none the read throws, in a resynchronisation only after the hint has been cleared and the remembered index updated (extension.js:121-122). Neither behaviour is in the model.
- Concurrency: none in the source; operations run one at a time.
