/**
 * Client runs of the whole service on small concrete desktops: what a user
 * sees after a hotkey press, a forced global switch and a focus activation.
 */
module Scenarios {
  import opened Windows
  import opened Host
  import opened Service

  /**
   * Two monitors (0 and 1), four workspaces, workspace 2 active, monitor 0
   * focused; window X on monitor 0 at workspace 1, window Y on monitor 1 at
   * workspace 2. The "previous" hotkey moves X to workspace 2 and leaves Y;
   * the shell then activates workspace 3, and the resynchronisation moves Y
   * (not on the focused monitor) to workspace 3 and leaves X.
   */
  method HotkeyThenGlobalSwitch() returns (xAfterHotkey: int, yAfterHotkey: int, xAfterSwitch: int, yAfterSwitch: int)
    ensures xAfterHotkey == 2 && yAfterHotkey == 2
    ensures xAfterSwitch == 2 && yAfterSwitch == 3
  {
    var platform := new Platform([Window(Normal, 0, 1), Window(Normal, 1, 2)], 4, 2, 0);
    var configuration := new ConfigurationService(false, false);
    var service := new WorkSpacesService(configuration, platform);
    var controller := new Controller(service);
    controller.Down();
    xAfterHotkey, yAfterHotkey := platform.windows[0].workspace, platform.windows[1].workspace;
    platform.ActivateWorkspace(3);
    service.SwitchToPreviouslyActiveWorkspaceOnInactiveMonitors();
    xAfterSwitch, yAfterSwitch := platform.windows[0].workspace, platform.windows[1].workspace;
  }

  /**
   * Two monitors, four workspaces, workspace 0 active, monitor 0 focused;
   * window X on monitor 0, window Y on monitor 1, both at workspace 0, and a
   * panel (not a normal window) on monitor 0 at workspace 0. Y is activated
   * with focus, so the first resynchronisation treats monitor 1 as focused
   * and moves X; the hint is then gone, so the second one falls back to the
   * focused monitor 0 and moves Y. The panel never moves.
   */
  method FocusHintIsConsumedOnce() returns (x1: int, y1: int, x2: int, y2: int, panel: int)
    ensures x1 == 1 && y1 == 0
    ensures x2 == 1 && y2 == 1
    ensures panel == 0
  {
    var platform := new Platform([Window(Normal, 0, 0), Window(Normal, 1, 0), Window(Other, 0, 0)], 4, 0, 0);
    var configuration := new ConfigurationService(true, true);
    var service := new WorkSpacesService(configuration, platform);
    service.WindowActivatedWithFocus(1);
    platform.ActivateWorkspace(1);
    service.SwitchToPreviouslyActiveWorkspaceOnInactiveMonitors();
    x1, y1 := platform.windows[0].workspace, platform.windows[1].workspace;
    platform.ActivateWorkspace(2);
    service.SwitchToPreviouslyActiveWorkspaceOnInactiveMonitors();
    x2, y2 := platform.windows[0].workspace, platform.windows[1].workspace;
    panel := platform.windows[2].workspace;
  }

  /**
   * Two monitors, four workspaces, workspace 0 active, monitor 0 focused;
   * window X on monitor 0 and window Y on monitor 1, both at workspace 0.
   * The "previous" hotkey moves X to workspace 1. Focus then moves to
   * monitor 1 and the shell activates workspace 1; with no hint stored the
   * resynchronisation takes monitor 1 as focused and moves X on to 2, while
   * Y stays.
   */
  method FocusMovesBeforeGlobalSwitch() returns (xAfterHotkey: int, xAfterSwitch: int, yAfterSwitch: int)
    ensures xAfterHotkey == 1
    ensures xAfterSwitch == 2 && yAfterSwitch == 0
  {
    var platform := new Platform([Window(Normal, 0, 0), Window(Normal, 1, 0)], 4, 0, 0);
    var configuration := new ConfigurationService(false, false);
    var service := new WorkSpacesService(configuration, platform);
    var controller := new Controller(service);
    controller.Down();
    xAfterHotkey := platform.windows[0].workspace;
    platform.FocusMonitor(1);
    platform.ActivateWorkspace(1);
    service.SwitchToPreviouslyActiveWorkspaceOnInactiveMonitors();
    xAfterSwitch, yAfterSwitch := platform.windows[0].workspace, platform.windows[1].workspace;
  }
}
