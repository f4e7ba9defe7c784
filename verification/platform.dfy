/**
 * The part of the desktop shell the workspace service talks to: the list
 * of top-level windows, the number of workspaces, the active workspace, the
 * monitor that holds input focus, and the primitive that moves one window
 * to another workspace.
 */
module Host {
  import opened Windows

  class Platform {
    /** The top-level windows; the set of windows does not change in this model. */
    const windows: array<Window>
    /** The number of workspaces; it does not change in this model. */
    const nWorkspaces: int
    /** The globally active workspace. */
    var activeIndex: int
    /** The monitor that currently holds input focus. */
    var currentMonitor: int

    ghost predicate Valid()
      reads this, windows
    {
      nWorkspaces >= 1 &&
      0 <= activeIndex < nWorkspaces &&
      InRange(windows[..], nWorkspaces)
    }

    constructor (ws: seq<Window>, n: int, active: int, monitor: int)
      requires n >= 1 && 0 <= active < n && InRange(ws, n)
      ensures Valid() && fresh(windows)
      ensures windows[..] == ws && nWorkspaces == n
      ensures activeIndex == active && currentMonitor == monitor
    {
      windows := new Window[|ws|](i requires 0 <= i < |ws| => ws[i]);
      nWorkspaces := n;
      activeIndex := active;
      currentMonitor := monitor;
    }

    /** Moves one window to the workspace `nextIndex`. */
    method MoveToWorkSpace(handle: nat, nextIndex: int)
      requires Valid() && handle < windows.Length
      requires 0 <= nextIndex < nWorkspaces
      modifies windows
      ensures Valid()
      ensures windows[..] == old(windows[..])[handle := old(windows[handle]).(workspace := nextIndex)]
    {
      windows[handle] := windows[handle].(workspace := nextIndex);
    }

    /** The shell activates another workspace (a global switch the service did not ask for). */
    method ActivateWorkspace(index: int)
      requires Valid() && 0 <= index < nWorkspaces
      modifies this
      ensures Valid()
      ensures activeIndex == index && currentMonitor == old(currentMonitor)
    {
      activeIndex := index;
    }

    /** Input focus moves to another monitor. */
    method FocusMonitor(monitor: int)
      requires Valid()
      modifies this
      ensures Valid()
      ensures currentMonitor == monitor && activeIndex == old(activeIndex)
    {
      currentMonitor := monitor;
    }
  }
}
