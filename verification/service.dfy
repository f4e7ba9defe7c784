/**
 * The workspace service and its two callers: the controller that turns the
 * two hotkeys into directed switches, and the configuration gate that
 * decides whether a global workspace change is followed by a
 * resynchronisation of the other monitors.
 */
module Service {
  import opened WorkspaceMath
  import opened Windows
  import opened Host

  datatype Option<T> = None | Some(value: T)

  /**
   * The monitor a resynchronisation treats as focused: the monitor recorded by
   * the last activation with focus when there is one, otherwise the monitor
   * the shell reports as focused.
   */
  function FocusedMonitorIndex(hint: Option<int>, live: int): (focused: int)
    ensures hint.Some? ==> focused == hint.value
    ensures hint.None? ==> focused == live
  {
    if hint.Some? then hint.value else live
  }

  class ConfigurationService {
    /** Whether a dock extension known to conflict is enabled (as last queried). */
    var anIncompatibleExtensionIsActive: bool
    /** Whether the shell creates and removes workspaces dynamically (as last queried). */
    var dynamicWorkspaces: bool

    /** The two flags are the answers of the extension manager and the preferences. */
    constructor (incompatibleExtensionActive: bool, dynamic: bool)
      ensures anIncompatibleExtensionIsActive == incompatibleExtensionActive
      ensures dynamicWorkspaces == dynamic
    {
      anIncompatibleExtensionIsActive := incompatibleExtensionActive;
      dynamicWorkspaces := dynamic;
    }

    /**
     * Automatic switching is always enabled, whatever the two flags say: the
     * check against them is switched off.
     */
    function AutomaticSwitchingIsEnabled(): (enabled: bool)
      ensures enabled
    {
      true
    }
  }

  class WorkSpacesService {
    const configurationService: ConfigurationService
    const platform: Platform
    /** The number of workspaces, refreshed at the start of every operation. */
    var nWorkspaces: int
    /** The active workspace as of the last resynchronisation (or construction). */
    var activeWorkspaceIndex: int
    /** The monitor of the window last activated with focus, until a resynchronisation consumes it. */
    var monitorActivatedWithFocus: Option<int>

    ghost predicate Valid()
      reads this, platform, platform.windows
    {
      platform.Valid() &&
      nWorkspaces >= 1 &&
      0 <= activeWorkspaceIndex < platform.nWorkspaces
    }

    constructor (configurationService: ConfigurationService, platform: Platform)
      requires platform.Valid()
      ensures Valid()
      ensures this.configurationService == configurationService && this.platform == platform
      ensures nWorkspaces == platform.nWorkspaces
      ensures activeWorkspaceIndex == platform.activeIndex
      ensures monitorActivatedWithFocus == None
    {
      this.configurationService := configurationService;
      this.platform := platform;
      nWorkspaces := platform.nWorkspaces;
      activeWorkspaceIndex := platform.activeIndex;
      monitorActivatedWithFocus := None;
    }

    /** Refreshes the cached number of workspaces from the shell. */
    method InitNWorkspaces()
      requires Valid()
      modifies this`nWorkspaces
      ensures Valid()
      ensures nWorkspaces == platform.nWorkspaces
    {
      nWorkspaces := platform.nWorkspaces;
    }

    /** Moves one window by `direction` from its live workspace. */
    method MoveToDirection(wrapper: WindowWrapper, direction: int)
      requires Valid() && nWorkspaces == platform.nWorkspaces
      requires wrapper.handle < platform.windows.Length
      requires direction >= -nWorkspaces
      modifies platform.windows
      ensures Valid()
      ensures platform.windows[..] ==
              old(platform.windows[..])[wrapper.handle := Move(old(platform.windows[wrapper.handle]), nWorkspaces, direction)]
    {
      var nextWorkspace := NextWorkspace(nWorkspaces, platform.windows[wrapper.handle].workspace, direction);
      NextWorkspaceInRange(nWorkspaces, platform.windows[wrapper.handle].workspace, direction);
      platform.MoveToWorkSpace(wrapper.handle, nextWorkspace);
    }

    /**
     * Moves, one after the other, every window whose snapshot passes the
     * filter of `side` relative to `focused`.
     */
    method MoveSelected(wrappers: seq<WindowWrapper>, focused: int, side: Side, delta: int)
      requires Valid() && nWorkspaces == platform.nWorkspaces
      requires wrappers == GetWindowWrappers(platform.windows[..])
      requires delta >= -nWorkspaces
      modifies platform.windows
      ensures Valid()
      ensures platform.windows[..] == Reassign(old(platform.windows[..]), nWorkspaces, focused, delta, side)
    {
      var k := 0;
      while k < |wrappers|
        invariant 0 <= k <= |wrappers| == platform.windows.Length
        invariant Valid()
        invariant forall j :: 0 <= j < k ==>
                    platform.windows[j] == Step(old(platform.windows[j]), nWorkspaces, focused, delta, side)
        invariant forall j :: k <= j < platform.windows.Length ==> platform.windows[j] == old(platform.windows[j])
      {
        if wrappers[k].IsNormal() && OnSide(wrappers[k].InitialMonitorIndex(), focused, side) {
          MoveToDirection(wrappers[k], delta);
        }
        k := k + 1;
      }
    }

    /**
     * Records the monitor of a window that was just activated with focus,
     * whatever kind of window it is.
     */
    method WindowActivatedWithFocus(handle: nat)
      requires Valid() && handle < platform.windows.Length
      modifies this`monitorActivatedWithFocus
      ensures Valid()
      ensures monitorActivatedWithFocus == Some(platform.windows[handle].monitor)
    {
      var monitor := platform.windows[handle].monitor;
      monitorActivatedWithFocus := Some(monitor);
    }

    /**
     * After the shell switched the active workspace for every monitor, moves
     * the windows of every monitor but the focused one by the same shift, so
     * that those monitors keep showing what they showed before.
     */
    method SwitchToPreviouslyActiveWorkspaceOnInactiveMonitors()
      requires Valid()
      modifies this, platform.windows
      ensures Valid()
      ensures nWorkspaces == platform.nWorkspaces
      ensures activeWorkspaceIndex == platform.activeIndex
      ensures monitorActivatedWithFocus == None
      ensures platform.windows[..] ==
              Reassign(old(platform.windows[..]), platform.nWorkspaces,
                       FocusedMonitorIndex(old(monitorActivatedWithFocus), platform.currentMonitor),
                       Shift(old(activeWorkspaceIndex), platform.activeIndex), OtherMonitors)
    {
      if !configurationService.AutomaticSwitchingIsEnabled() {
        return;
      }
      InitNWorkspaces();
      var nextWorkspace := platform.activeIndex;
      var shift := Shift(activeWorkspaceIndex, nextWorkspace);
      var focusedMonitorIndex := FocusedMonitorIndex(monitorActivatedWithFocus, platform.currentMonitor);
      monitorActivatedWithFocus := None;
      activeWorkspaceIndex := nextWorkspace;
      var wrappers := GetWindowWrappers(platform.windows[..]);
      MoveSelected(wrappers, focusedMonitorIndex, OtherMonitors, shift);
    }

    /**
     * Moves every normal window of the focused monitor by `direction`; the
     * other monitors and the service's own record are left alone.
     */
    method SwitchWorkspaceOnActiveMonitor(direction: int)
      requires Valid()
      requires direction == UP || direction == DOWN
      modifies this`nWorkspaces, platform.windows
      ensures Valid()
      ensures nWorkspaces == platform.nWorkspaces
      ensures activeWorkspaceIndex == old(activeWorkspaceIndex)
      ensures monitorActivatedWithFocus == old(monitorActivatedWithFocus)
      ensures platform.windows[..] ==
              Reassign(old(platform.windows[..]), platform.nWorkspaces, platform.currentMonitor, direction, FocusedMonitor)
    {
      InitNWorkspaces();
      var wrappers := GetWindowWrappers(platform.windows[..]);
      var focusedMonitorIndex := platform.currentMonitor;
      MoveSelected(wrappers, focusedMonitorIndex, FocusedMonitor, direction);
    }
  }

  /** Turns the two hotkeys into directed switches on the focused monitor. */
  class Controller {
    const workspaceService: WorkSpacesService

    constructor (workspaceService: WorkSpacesService)
      ensures this.workspaceService == workspaceService
    {
      this.workspaceService := workspaceService;
    }

    /** The "next workspace" hotkey: one workspace up (index minus one). */
    method Up()
      requires workspaceService.Valid()
      modifies workspaceService`nWorkspaces, workspaceService.platform.windows
      ensures workspaceService.Valid()
      ensures workspaceService.nWorkspaces == workspaceService.platform.nWorkspaces
      ensures workspaceService.activeWorkspaceIndex == old(workspaceService.activeWorkspaceIndex)
      ensures workspaceService.monitorActivatedWithFocus == old(workspaceService.monitorActivatedWithFocus)
      ensures workspaceService.platform.windows[..] ==
              Reassign(old(workspaceService.platform.windows[..]), workspaceService.platform.nWorkspaces,
                       workspaceService.platform.currentMonitor, -1, FocusedMonitor)
    {
      workspaceService.SwitchWorkspaceOnActiveMonitor(UP);
    }

    /** The "previous workspace" hotkey: one workspace down (index plus one). */
    method Down()
      requires workspaceService.Valid()
      modifies workspaceService`nWorkspaces, workspaceService.platform.windows
      ensures workspaceService.Valid()
      ensures workspaceService.nWorkspaces == workspaceService.platform.nWorkspaces
      ensures workspaceService.activeWorkspaceIndex == old(workspaceService.activeWorkspaceIndex)
      ensures workspaceService.monitorActivatedWithFocus == old(workspaceService.monitorActivatedWithFocus)
      ensures workspaceService.platform.windows[..] ==
              Reassign(old(workspaceService.platform.windows[..]), workspaceService.platform.nWorkspaces,
                       workspaceService.platform.currentMonitor, 1, FocusedMonitor)
    {
      workspaceService.SwitchWorkspaceOnActiveMonitor(DOWN);
    }
  }
}
